/** The two parsers of a VLAN list such as "10,20,30-39": the RouterOS driver's, which matches each part against a
    strict form, and the Aruba writer's, which reads whatever `parseInt` can read. */
module VlanLists {
  import opened Prelude
  import opened Text
  import opened TextFacts

  const LAST_VLAN := 4094

  predicate IsDigit(c: char) {
    '0' <= c <= '9'
  }

  /** `/^\d+$/` */
  predicate Digits(s: string) {
    s != "" && forall i :: 0 <= i < |s| ==> IsDigit(s[i])
  }

  function Value(s: string): nat
    requires forall i :: 0 <= i < |s| ==> IsDigit(s[i])
  {
    if s == "" then 0
    else
      assert IsDigit(s[|s| - 1]);
      Value(s[..|s| - 1]) * 10 + (s[|s| - 1] as int - '0' as int)
  }

  function DigitPrefix(s: string): (d: string)
    ensures d <= s && forall i :: 0 <= i < |d| ==> IsDigit(d[i])
    ensures |d| < |s| ==> !IsDigit(s[|d|])
  {
    if s == "" || !IsDigit(s[0]) then "" else [s[0]] + DigitPrefix(s[1..])
  }

  /** `parseInt(s, 10)`: leading white space and one sign are skipped, anything after the digits is ignored; no digits
      make it NaN. */
  function ParseInt(s: string): Option<int> {
    var t := TrimStart(s);
    var signed := t != "" && (t[0] == '-' || t[0] == '+');
    var d := DigitPrefix(if signed then t[1..] else t);
    var n: int := Value(d);
    if d == "" then None else Some(if signed && t[0] == '-' then -n else n)
  }

  /** lo, lo + 1, ..., hi */
  function Span(lo: int, hi: int): (r: seq<int>)
    ensures forall v :: v in r <==> lo <= v <= hi
  {
    var r := seq(if lo <= hi then hi - lo + 1 else 0, i requires 0 <= i => lo + i);
    assert forall v | lo <= v <= hi :: v in r by {
      forall v | lo <= v <= hi
        ensures v in r
      {
        assert r[v - lo] == v;
      }
    }
    r
  }

  function Elements(s: seq<int>): set<int> {
    set v | v in s
  }

  // ---------------------------------------------------------------- RouterOS

  /** `/^(\d+)\s*-\s*(\d+)$/` on a trimmed part: its two numbers. */
  function RangeMatch(t: string): Option<(nat, nat)> {
    var pieces := Split(t, '-');
    if |pieces| == 2 && Digits(TrimEnd(pieces[0])) && Digits(TrimStart(pieces[1]))
    then Some((Value(TrimEnd(pieces[0])), Value(TrimStart(pieces[1]))))
    else None
  }

  function RouterPart(part: string): set<int> {
    var t := Trim(part);
    match RangeMatch(t)
    case Some((lo, hi)) => Elements(Span(lo, hi))
    case None => if Digits(t) then {Value(t)} else {}
  }

  function RouterParts(parts: seq<string>): set<int> {
    if parts == [] then {} else RouterParts(parts[..|parts| - 1]) + RouterPart(parts[|parts| - 1])
  }

  function RouterVlans(spec: string): set<int> {
    RouterParts(Split(spec, ','))
  }

  predicate Increasing(s: seq<int>) {
    forall i, j :: 0 <= i < j < |s| ==> s[i] < s[j]
  }

  lemma NonEmpty(s: set<int>)
    ensures s == {} || exists v :: v in s
  {
    if forall v :: v !in s {
      assert s == {};
    }
  }

  lemma PartLeaves(part: set<int>, whole: set<int>)
    ensures part <= whole && part != whole ==> whole - part != {}
  {
    if part <= whole && whole - part == {} {
      assert part + (whole - part) == whole;
    }
  }

  /** `[...out].sort((a, b) => a - b)` */
  method Sorted(out: set<int>) returns (ids: seq<int>)
    ensures Increasing(ids) && Elements(ids) == out
  {
    ids := [];
    var left := out;
    while left != {}
      invariant left <= out && Increasing(ids) && Elements(ids) == out - left
      invariant forall k, w :: 0 <= k < |ids| && w in left ==> ids[k] < w
      decreases left
    {
      var least := Smallest(left);
      ghost var before := ids;
      assert forall v :: v in before ==> v in Elements(before);
      ids := ids + [least];
      left := left - {least};
      assert Elements(ids) == Elements(before) + {least};
    }
  }

  method Smallest(left: set<int>) returns (least: int)
    requires left != {}
    ensures least in left && forall v :: v in left ==> least <= v
  {
    NonEmpty(left);
    least :| least in left;
    var seen := {least};
    while seen != left
      invariant least in seen && seen <= left && forall v :: v in seen ==> least <= v
      decreases left - seen
    {
      PartLeaves(seen, left);
      var rest := left - seen;
      NonEmpty(rest);
      var v :| v in rest;
      seen := seen + {v};
      if v < least {
        least := v;
      }
    }
  }

  method AddRange(out: set<int>, lo: int, hi: int) returns (added: set<int>)
    ensures added == out + Elements(Span(lo, hi))
  {
    var i := lo;
    added := out;
    while i <= hi
      invariant lo <= i && (i <= hi + 1 || i == lo)
      invariant added == out + Elements(Span(lo, i - 1))
    {
      assert Elements(Span(lo, i)) == Elements(Span(lo, i - 1)) + {i};
      added := added + {i};
      i := i + 1;
    }
    assert Elements(Span(lo, i - 1)) == Elements(Span(lo, hi));
  }

  method RouterParseVlanList(spec: string) returns (ids: seq<int>)
    ensures Increasing(ids) && Elements(ids) == RouterVlans(spec)
  {
    if spec == "" {
      assert RouterParts([""][..0]) == {};
      return [];
    }
    var out: set<int>, parts := {}, Split(spec, ',');
    for k := 0 to |parts|
      invariant out == RouterParts(parts[..k])
    {
      assert parts[..k + 1][..k] == parts[..k];
      var t := Trim(parts[k]);
      match RangeMatch(t)
      case Some((lo, hi)) =>
        out := AddRange(out, lo, hi);
      case None =>
        if Digits(t) {
          out := out + {Value(t)};
        }
    }
    assert parts[..|parts|] == parts;
    ids := Sorted(out);
  }

  // ---------------------------------------------------------------- Aruba

  function Least(a: int, b: int): int {
    if a <= b then a else b
  }

  function ArubaPart(part: string): seq<int> {
    var range := Split(Trim(part), '-');
    if |range| == 2 then
      match (ParseInt(range[0]), ParseInt(range[1]))
      case (Some(lo), Some(hi)) => Span(lo, Least(hi, LAST_VLAN))
      case _ => []
    else
      match ParseInt(Trim(part))
      case Some(v) => [v]
      case None => []
  }

  function ArubaParts(parts: seq<string>): seq<int> {
    if parts == [] then [] else ArubaParts(parts[..|parts| - 1]) + ArubaPart(parts[|parts| - 1])
  }

  function ArubaVlans(spec: string): seq<int> {
    if Trim(spec) == "" then [] else ArubaParts(Split(spec, ','))
  }

  method PushRange(ids: seq<int>, lo: int, hi: int) returns (pushed: seq<int>)
    ensures pushed == ids + Span(lo, Least(hi, LAST_VLAN))
  {
    var v := lo;
    pushed := ids;
    while v <= hi && v <= LAST_VLAN
      invariant lo <= v && (v == lo || v <= Least(hi, LAST_VLAN) + 1)
      invariant pushed == ids + Span(lo, v - 1)
    {
      assert Span(lo, v) == Span(lo, v - 1) + [v];
      pushed := pushed + [v];
      v := v + 1;
    }
    assert Span(lo, v - 1) == Span(lo, Least(hi, LAST_VLAN));
  }

  method PushPart(ids: seq<int>, part: string) returns (pushed: seq<int>)
    ensures pushed == ids + ArubaPart(part)
  {
    pushed := ids;
    var range := Split(Trim(part), '-');
    if |range| == 2 {
      var lo, hi := ParseInt(range[0]), ParseInt(range[1]);
      // A comparison with NaN is false, so the loop does not run if either number is missing.
      if lo.Some? && hi.Some? {
        pushed := PushRange(ids, lo.value, hi.value);
      }
    } else {
      var v := ParseInt(Trim(part));
      if v.Some? {
        pushed := pushed + [v.value];
      }
    }
  }

  method PushParts(parts: seq<string>) returns (ids: seq<int>)
    ensures ids == ArubaParts(parts)
  {
    ids := [];
    for k := 0 to |parts|
      invariant ids == ArubaParts(parts[..k])
    {
      assert parts[..k + 1][..k] == parts[..k];
      ids := PushPart(ids, parts[k]);
    }
    assert parts[..|parts|] == parts;
  }

  method ArubaParseVlanList(spec: string) returns (ids: seq<int>)
    ensures ids == ArubaVlans(spec)
  {
    if Trim(spec) == "" {
      return [];
    }
    ids := PushParts(Split(spec, ','));
  }

  // ---------------------------------------------------------------- what a written list comes to

  lemma {:induction false} DecimalIsDigits(n: nat)
    ensures Digits(Decimal(n))
  {
    if n >= 10 {
      DecimalIsDigits(n / 10);
    }
  }

  /** Reading a number back. */
  lemma {:induction false} ValueOfDecimal(n: nat)
    ensures Digits(Decimal(n)) && Value(Decimal(n)) == n
  {
    DecimalIsDigits(n);
    var d := Decimal(n);
    if n >= 10 {
      ValueOfDecimal(n / 10);
      assert d[..|d| - 1] == Decimal(n / 10);
    } else {
      assert d[..|d| - 1] == "";
    }
  }

  lemma NumberLeads(n: nat, rest: string)
    requires rest == "" || !IsDigit(rest[0])
    ensures var u := Decimal(n) + rest;
            u != "" && IsDigit(u[0]) && DigitPrefix(u) == Decimal(n) && Digits(Decimal(n)) && Value(Decimal(n)) == n
  {
    ValueOfDecimal(n);
    DigitsThen(Decimal(n), rest);
    assert (Decimal(n) + rest)[0] == Decimal(n)[0];
  }

  /** What `parseInt` reads: a number in decimal after blanks and at most one sign, whatever follows that is no digit.
      */
  lemma ParseIntReads(w: string, n: nat, rest: string)
    requires Blank(w) && (rest == "" || !IsDigit(rest[0]))
    ensures var plain := ParseInt(w + (Decimal(n) + rest)); plain.Some? && plain.value == n
    ensures var plus := ParseInt(w + (['+'] + (Decimal(n) + rest))); plus.Some? && plus.value == n
    ensures var minus := ParseInt(w + (['-'] + (Decimal(n) + rest))); minus.Some? && minus.value + n == 0
  {
    NumberLeads(n, rest);
    PlainRead(w, Decimal(n) + rest);
    SignRead(w, '+', Decimal(n) + rest);
    SignRead(w, '-', Decimal(n) + rest);
  }

  lemma PlainRead(w: string, u: string)
    requires Blank(w) && u != "" && IsDigit(u[0])
    ensures var r := ParseInt(w + u); r.Some? && r.value == Value(DigitPrefix(u))
  {
    TrimStartOf(w, u);
  }

  lemma SignRead(w: string, sign: char, u: string)
    requires Blank(w) && (sign == '+' || sign == '-') && u != "" && IsDigit(u[0])
    ensures var r := ParseInt(w + ([sign] + u));
            r.Some? && (if sign == '-' then r.value + Value(DigitPrefix(u)) == 0 else r.value == Value(DigitPrefix(u)))
  {
    TrimStartOf(w, [sign] + u);
    assert ([sign] + u)[1..] == u;
  }

  /** What a user writes: single VLANs and ranges. */
  datatype Item = One(vlan: nat) | Range(lo: nat, hi: nat)

  function Written(item: Item): string {
    match item
    case One(v) => Decimal(v)
    case Range(lo, hi) => Decimal(lo) + "-" + Decimal(hi)
  }

  function WrittenAll(items: seq<Item>): string {
    if items == [] then ""
    else if |items| == 1 then Written(items[0])
    else Written(items[0]) + "," + WrittenAll(items[1..])
  }

  /** The VLANs an item stands for. */
  predicate Names(item: Item, v: int) {
    match item
    case One(vlan) => v == vlan
    case Range(lo, hi) => lo <= v <= hi
  }

  lemma {:induction false} SplitFirst(a: string, b: string, sep: char)
    requires sep !in a
    ensures Split(a + [sep] + b, sep) == [a] + Split(b, sep)
  {
    if a == "" {
      assert a + [sep] + b == [sep] + b;
      assert ([sep] + b)[1..] == b;
    } else {
      var s := a + [sep] + b;
      assert s[1..] == a[1..] + [sep] + b;
      SplitFirst(a[1..], b, sep);
      assert a == [a[0]] + a[1..];
    }
  }

  lemma WrittenChars(item: Item)
    ensures Written(item) != "" && DigitsAndDashes(Written(item)) && ',' !in Written(item)
  {
    match item
    case One(v) => DecimalIsDigits(v);
    case Range(lo, hi) =>
      DecimalIsDigits(lo);
      DecimalIsDigits(hi);
  }

  lemma {:induction false} SplitWritten(items: seq<Item>)
    requires items != []
    ensures Split(WrittenAll(items), ',') == seq(|items|, i requires 0 <= i < |items| => Written(items[i]))
  {
    WrittenChars(items[0]);
    if |items| > 1 {
      SplitFirst(Written(items[0]), WrittenAll(items[1..]), ',');
      assert Written(items[0]) + "," + WrittenAll(items[1..]) == Written(items[0]) + [','] + WrittenAll(items[1..]);
      SplitWritten(items[1..]);
    }
  }

  lemma WrittenRange(lo: nat, hi: nat)
    ensures Split(Written(Range(lo, hi)), '-') == [Decimal(lo), Decimal(hi)]
    ensures RangeMatch(Written(Range(lo, hi))) == Some((lo, hi))
  {
    ValueOfDecimal(lo);
    ValueOfDecimal(hi);
    assert Decimal(lo) + "-" + Decimal(hi) == Decimal(lo) + ['-'] + Decimal(hi);
    assert '-' !in Decimal(lo) && '-' !in Decimal(hi);
    SplitFirst(Decimal(lo), Decimal(hi), '-');
    NoSpaces(Decimal(lo));
    NoSpaces(Decimal(hi));
  }

  /** What Aruba reads of an item. */
  predicate NamesUpToLast(item: Item, v: int) {
    Names(item, v) && (item.Range? ==> v <= LAST_VLAN)
  }

  lemma WrittenOne(n: nat)
    ensures RouterPart(Written(One(n))) == {n} && ArubaPart(Written(One(n))) == [n]
  {
    ValueOfDecimal(n);
    NoSpaces(Decimal(n));
    DigitsTrimmed(Decimal(n));
  }

  lemma WrittenPart(item: Item, v: int)
    ensures v in RouterPart(Written(item)) <==> Names(item, v)
    ensures v in ArubaPart(Written(item)) <==> NamesUpToLast(item, v)
  {
    match item
    case One(n) => WrittenOne(n);
    case Range(lo, hi) =>
      WrittenChars(item);
      NoSpaces(Written(item));
      WrittenRange(lo, hi);
      RangePart(Written(item));
      assert v in ArubaPart(Written(item)) <==> v in Elements(ArubaPart(Written(item)));
  }

  /** Some item names it; `cut` as Aruba reads them. */
  predicate SomeNames(items: seq<Item>, v: int, cut: bool) {
    if items == [] then false
    else
      var last := items[|items| - 1];
      SomeNames(items[..|items| - 1], v, cut) || (if cut then NamesUpToLast(last, v) else Names(last, v))
  }

  lemma {:induction false} SomeNamesIff(items: seq<Item>, v: int, cut: bool)
    ensures SomeNames(items, v, cut) <==>
            exists i :: 0 <= i < |items| && Names(items[i], v) && (cut && items[i].Range? ==> v <= 4094)
  {
    if items != [] {
      var n := |items| - 1;
      SomeNamesIff(items[..n], v, cut);
      assert forall i :: 0 <= i < n ==> items[..n][i] == items[i];
    }
  }

  lemma {:induction false} WrittenParts(items: seq<Item>, parts: seq<string>, v: int)
    requires |parts| == |items| && forall i :: 0 <= i < |items| ==> parts[i] == Written(items[i])
    ensures v in RouterParts(parts) <==> SomeNames(items, v, false)
    ensures v in ArubaParts(parts) <==> SomeNames(items, v, true)
  {
    if items != [] {
      var n := |items| - 1;
      WrittenParts(items[..n], parts[..n], v);
      WrittenPart(items[n], v);
    }
  }

  /** Whatever list of VLANs and ranges is written down, the parsers read back the VLANs it names: RouterOS all of them,
      Aruba those of ranges up to 4094. */
  lemma WrittenListReadsBack(items: seq<Item>, v: int)
    requires items != []
    ensures v in RouterVlans(WrittenAll(items)) <==> exists i :: 0 <= i < |items| && Names(items[i], v)
    ensures v in ArubaVlans(WrittenAll(items)) <==>
            exists i :: 0 <= i < |items| && Names(items[i], v) && (items[i].Range? ==> v <= 4094)
  {
    SplitWritten(items);
    WrittenParts(items, Split(WrittenAll(items), ','), v);
    WrittenNotBlank(items);
    SomeNamesIff(items, v, false);
    SomeNamesIff(items, v, true);
  }

  lemma WrittenNotBlank(items: seq<Item>)
    requires items != []
    ensures Trim(WrittenAll(items)) != ""
  {
    WrittenChars(items[0]);
    var s := WrittenAll(items);
    assert s[0] == Written(items[0])[0] && Written(items[0])[0] in Written(items[0]);
    assert TrimStart(s) == s;
    var v := EndPart(s);
    assert TrimEnd(s) == "" ==> s == v;
  }

  // ---------------------------------------------------------------- where they agree

  lemma {:induction false} DigitsThen(d: string, w: string)
    requires forall i :: 0 <= i < |d| ==> IsDigit(d[i])
    requires w == "" || !IsDigit(w[0])
    ensures DigitPrefix(d + w) == d
  {
    if d != "" {
      assert (d + w)[1..] == d[1..] + w;
      DigitsThen(d[1..], w);
    }
  }

  lemma DigitsLead(s: string)
    requires Digits(TrimEnd(s))
    ensures s != "" && IsDigit(s[0]) && DigitPrefix(s) == TrimEnd(s)
  {
    var w := EndPart(s);
    assert s[0] == TrimEnd(s)[0];
    DigitsThen(TrimEnd(s), w);
  }

  /** A number with trailing white space is read the same way by both. */
  lemma ParseIntDigits(s: string)
    requires Digits(TrimEnd(s))
    ensures ParseInt(s) == Some(Value(TrimEnd(s)))
  {
    DigitsLead(s);
    assert TrimStart(s) == s;
  }

  lemma ParseIntAfterSpace(s: string)
    requires Digits(TrimStart(s))
    ensures ParseInt(s) == Some(Value(TrimStart(s)))
  {
    var d := TrimStart(s);
    assert d + "" == d;
    DigitsThen(d, "");
  }

  lemma DigitsTrimmed(t: string)
    requires Digits(t)
    ensures TrimEnd(t) == t && Split(t, '-') == [t] && ParseInt(t) == Some(Value(t))
  {
    assert '-' !in t;
    ParseIntDigits(t);
  }

  /** A part in the strict range form: what RouterOS makes of it, and Aruba too up to the last VLAN id. */
  lemma RangePart(part: string)
    requires RangeMatch(Trim(part)).Some?
    ensures var (lo, hi) := RangeMatch(Trim(part)).value;
            && RouterPart(part) == Elements(Span(lo, hi))
            && Elements(ArubaPart(part)) == Elements(Span(lo, Least(hi, LAST_VLAN)))
  {
    var pieces := Split(Trim(part), '-');
    ParseIntDigits(pieces[0]);
    ParseIntAfterSpace(pieces[1]);
  }

  /** A part that is empty, a number, a range that is empty or ends by the last VLAN id, or dashes with a number
      missing. */
  predicate Plain(part: string) {
    var t := Trim(part);
    || t == ""
    || Digits(t)
    || (RangeMatch(t).Some? && (RangeMatch(t).value.1 <= LAST_VLAN || RangeMatch(t).value.1 < RangeMatch(t).value.0))
    || NumberMissing(t)
  }

  predicate DigitsAndDashes(t: string) {
    forall c :: c in t ==> IsDigit(c) || c == '-'
  }

  /** A half range such as "-5" or "10-", or more dashes with no number before the second one. */
  predicate NumberMissing(t: string) {
    var pieces := Split(t, '-');
    && DigitsAndDashes(t)
    && if |pieces| == 2 then RangeMatch(t).None? else |pieces| > 2 && pieces[0] == "" && pieces[1] == ""
  }

  lemma PartsAgree(part: string)
    requires Plain(part)
    ensures Elements(ArubaPart(part)) == RouterPart(part)
  {
    var t := Trim(part);
    if RangeMatch(t).Some? {
      RangesAgreeIff(part);
    } else if Digits(t) {
      DigitsTrimmed(t);
    } else if t != "" {
      NumberMissingAgrees(t);
      NoSpaces(t);
      assert RouterPart(part) == RouterPart(t) && ArubaPart(part) == ArubaPart(t);
    }
  }

  lemma NumberMissingAgrees(t: string)
    requires NumberMissing(t)
    ensures RouterPart(t) == {} && ArubaPart(t) == []
  {
    if |Split(t, '-')| == 2 {
      HalfRange(t);
    } else {
      ManyDashes(t);
    }
  }

  lemma {:induction false} AllPartsAgree(parts: seq<string>)
    requires forall k :: 0 <= k < |parts| ==> Plain(parts[k])
    ensures Elements(ArubaParts(parts)) == RouterParts(parts)
  {
    if parts != [] {
      var init, last := parts[..|parts| - 1], parts[|parts| - 1];
      AllPartsAgree(init);
      PartsAgree(last);
      assert Elements(ArubaParts(init) + ArubaPart(last)) == Elements(ArubaParts(init)) + Elements(ArubaPart(last));
    }
  }

  /** Every comma list of numbers, ranges up to 4094 and half ranges means the same set to both drivers. */
  lemma ParsersAgree(spec: string)
    requires forall part :: part in Split(spec, ',') ==> Plain(part)
    ensures Elements(ArubaVlans(spec)) == RouterVlans(spec)
  {
    var parts := Split(spec, ',');
    if Trim(spec) == "" {
      var w, u := TrimParts(spec);
      assert spec == w + u;
      assert parts == [spec];
      assert RouterParts(parts[..0]) == {};
    } else {
      AllPartsAgree(parts);
    }
  }

  /** A range in the strict form means the same to both exactly if it is empty or ends by the last VLAN id: RouterOS
      does not stop there. */
  lemma RangesAgreeIff(part: string)
    requires RangeMatch(Trim(part)).Some?
    ensures var (lo, hi) := RangeMatch(Trim(part)).value;
            Elements(ArubaPart(part)) == RouterPart(part) <==> hi <= LAST_VLAN || hi < lo
  {
    RangePart(part);
    var (lo, hi) := RangeMatch(Trim(part)).value;
    if LAST_VLAN < hi && lo <= hi {
      assert hi in Elements(Span(lo, hi)) && hi !in Elements(Span(lo, Least(hi, LAST_VLAN)));
    }
  }

  lemma {:induction false} PieceChars(s: string, sep: char, k: nat)
    requires k < |Split(s, sep)|
    ensures forall c :: c in Split(s, sep)[k] ==> c in s
  {
    if s != "" {
      var rest := Split(s[1..], sep);
      var j := if s[0] == sep && k > 0 then k - 1 else k;
      if j < |rest| {
        PieceChars(s[1..], sep, j);
      }
    }
  }

  lemma NoSpaces(t: string)
    requires DigitsAndDashes(t)
    ensures TrimStart(t) == t && TrimEnd(t) == t && Trim(t) == t
  {
    if t != "" {
      assert t[0] in t && t[|t| - 1] in t;
    }
  }

  lemma {:induction false} FirstPiece(s: string, sep: char)
    ensures var pieces := Split(s, sep); pieces[0] <= s && (|pieces| > 1 ==> |pieces[0]| < |s| && s[|pieces[0]|] == sep)
  {
    if s != "" && s[0] != sep {
      FirstPiece(s[1..], sep);
    }
  }

  /** Two or more dashes: nothing to RouterOS, and to Aruba the number the part begins with, if it begins with one. */
  lemma ManyDashes(part: string)
    requires DigitsAndDashes(part)
    requires |Split(part, '-')| > 2
    ensures RouterPart(part) == {}
    ensures ArubaPart(part) == [] <==> Split(part, '-')[0] == "" && Split(part, '-')[1] == ""
  {
    NoSpaces(part);
    var pieces := Split(part, '-');
    assert !Digits(part) by {
      assert '-' in part;
    }
    FirstPiece(part, '-');
    if pieces[0] == "" {
      var u := part[1..];
      FirstPiece(u, '-');
      assert Split(u, '-')[0] == pieces[1];
      if pieces[1] == "" {
        assert u[0] == '-';
      } else {
        assert u[0] == pieces[1][0] && u[0] in part;
        assert IsDigit(u[0]);
      }
      assert DigitPrefix(u) == "" <==> pieces[1] == "";
    } else {
      assert part[0] == pieces[0][0] && part[0] in part;
      assert IsDigit(part[0]);
      assert DigitPrefix(part) != "";
    }
  }

  /** One dash with a number missing on one side of it: nothing to either. */
  lemma HalfRange(part: string)
    requires DigitsAndDashes(part)
    requires |Split(part, '-')| == 2 && RangeMatch(part).None?
    ensures RouterPart(part) == {} && ArubaPart(part) == []
  {
    NoSpaces(part);
    var pieces := Split(part, '-');
    PieceChars(part, '-', 0);
    PieceChars(part, '-', 1);
    NoSpaces(pieces[0]);
    NoSpaces(pieces[1]);
    assert !Digits(part) by {
      assert '-' in part;
    }
    assert !Digits(pieces[0]) || !Digits(pieces[1]);
    assert pieces[0] == "" || pieces[1] == "";
  }

  /** A part of digits and dashes, which is all the port route lets through, means the same to both exactly if it has no
      dash, or is a half range or a range that is empty or ends by the last VLAN id, or has more dashes and does not
      begin with a number: "10-20-30" is 10 to Aruba and nothing to RouterOS. */
  lemma DigitsAndDashesAgreeIff(part: string)
    requires DigitsAndDashes(part)
    ensures var pieces, range := Split(part, '-'), RangeMatch(part);
            Elements(ArubaPart(part)) == RouterPart(part) <==>
            if |pieces| <= 2 then range.None? || range.value.1 <= LAST_VLAN || range.value.1 < range.value.0
            else pieces[0] == "" && pieces[1] == ""
  {
    NoSpaces(part);
    var pieces := Split(part, '-');
    if |pieces| == 1 {
      FirstPiece(part, '-');
      SplitJoins(part, '-');
      PieceChars(part, '-', 0);
      assert part == pieces[0];
      PartsAgree(part);
    } else if |pieces| == 2 {
      if RangeMatch(part).Some? {
        RangesAgreeIff(part);
      } else {
        HalfRange(part);
      }
    } else {
      ManyDashes(part);
      if ArubaPart(part) != [] {
        assert ArubaPart(part)[0] in Elements(ArubaPart(part));
      }
    }
  }
}
