/** What the audit chain guarantees: calls keep it valid, and changes to a valid chain show. */
module AuditEvidence {
  import opened Prelude
  import opened Text
  import opened TextFacts
  import opened AuditChain

  // ---------------------------------------------------------------- growth

  /** The hash is never empty. */
  ghost predicate NonEmptyHash(c: Codec) {
    forall s :: c.hash(s) != ""
  }

  lemma {:induction false} HashedAppend(a: seq<Row>, b: seq<Row>)
    ensures Hashed(a + b) == Hashed(a) + Hashed(b)
  {
    if a == [] {
      assert a + b == b;
    } else {
      assert (a + b)[1..] == a[1..] + b;
      HashedAppend(a[1..], b);
    }
  }

  lemma HashedOne(r: Row)
    ensures Hashed([r]) == if r.entryHash == "" then [] else [r]
  {
    assert [r][1..] == [];
  }

  lemma HashedSnoc(all: seq<Row>, r: Row)
    ensures Hashed(all + [r]) == Hashed(all) + if r.entryHash == "" then [] else [r]
  {
    HashedAppend(all, [r]);
    HashedOne(r);
  }

  lemma {:induction false} HashedMembers(all: seq<Row>)
    ensures forall r :: r in Hashed(all) <==> r in all && r.entryHash != ""
  {
    if all != [] {
      HashedMembers(all[1..]);
      assert all == [all[0]] + all[1..];
    }
  }

  lemma NewRowRehashes(all: seq<Row>, id: nat, e: Entry, c: Codec)
    ensures Rehashes(NewRow(all, id, e, c), c)
  {
    var r := NewRow(all, id, e, c);
    assert Fields(r.prevHash, r, c) == Fields(r.prevHash, r.(entryHash := ""), c);
  }

  lemma LastHashed(all: seq<Row>)
    requires LastHash(all) != ""
    ensures Hashed(all) != [] && LastHash(Hashed(all)) == LastHash(all)
  {
    HashedSnoc(all[..|all| - 1], all[|all| - 1]);
    assert all == all[..|all| - 1] + [all[|all| - 1]];
  }

  lemma ChainedSnoc(rows: seq<Row>, r: Row, c: Codec)
    requires Chained(rows, c) && Rehashes(r, c)
    ensures Chained(rows + [r], c) <==> rows == [] || r.prevHash == LastHash(rows)
  {
    forall i | 0 <= i < |rows|
      ensures Good(rows + [r], i, c)
    {
      assert Good(rows, i, c);
    }
    assert Good(rows + [r], |rows|, c) <==> rows == [] || r.prevHash == LastHash(rows);
  }

  /** An appended entry leaves a valid log valid exactly if the log has no hashed row yet or ends in one: after a last
      row whose hash was blanked the next entry shows the gap. */
  lemma AppendKeepsChainIff(all: seq<Row>, id: nat, e: Entry, c: Codec)
    requires NonEmptyHash(c) && Chained(Hashed(all), c)
    ensures Chained(Hashed(all + [NewRow(all, id, e, c)]), c) <==> Hashed(all) == [] || LastHash(all) != ""
  {
    var r, rows := NewRow(all, id, e, c), Hashed(all);
    NewRowRehashes(all, id, e, c);
    HashedSnoc(all, r);
    ChainedSnoc(rows, r, c);
    if LastHash(all) != "" {
      LastHashed(all);
    } else if rows != [] {
      HashedMembers(all);
      assert rows[|rows| - 1] in rows;
    }
  }

  lemma {:induction false} LegacyUnhashed(legacy: seq<Row>)
    requires forall r :: r in legacy ==> r.entryHash == ""
    ensures Hashed(legacy) == []
  {
    if legacy != [] {
      LegacyUnhashed(legacy[1..]);
    }
  }

  /** A log after a series of committed calls. */
  function Grown(legacy: seq<Row>, calls: seq<(nat, Entry)>, c: Codec): seq<Row> {
    if calls == [] then legacy
    else
      var before := Grown(legacy, calls[..|calls| - 1], c);
      before + [NewRow(before, calls[|calls| - 1].0, calls[|calls| - 1].1, c)]
  }

  /** Every log grown by any number of calls after any legacy rows verifies, with one checked row for each call and
      the legacy rows skipped. */
  lemma {:induction false} GrownLogsVerify(legacy: seq<Row>, calls: seq<(nat, Entry)>, c: Codec)
    requires NonEmptyHash(c) && forall r :: r in legacy ==> r.entryHash == ""
    ensures var all := Grown(legacy, calls, c);
            && Chained(Hashed(all), c) && |Hashed(all)| == |calls| && |all| - |Hashed(all)| == |legacy|
            && (calls != [] ==> LastHash(all) != "")
  {
    if calls == [] {
      LegacyUnhashed(legacy);
    } else {
      var init, last := calls[..|calls| - 1], calls[|calls| - 1];
      var before := Grown(legacy, init, c);
      GrownLogsVerify(legacy, init, c);
      AppendKeepsChainIff(before, last.0, last.1, c);
      HashedSnoc(before, NewRow(before, last.0, last.1, c));
    }
  }

  // ---------------------------------------------------------------- the canonical text

  predicate NoBar(s: string) {
    '|' !in s
  }

  /** Where the format relies on it, no field holds the separator; `detail` may. */
  predicate Clean(r: Row) {
    NoBar(r.prevHash) && NoBar(r.username) && NoBar(r.action) && NoBar(r.target) && NoBar(r.ip)
  }

  /** A collision-free hash with hex output, and a rendering of times that tells milliseconds apart. */
  ghost predicate Faithful(c: Codec) {
    && (forall s, t :: c.hash(s) == c.hash(t) ==> s == t)
    && (forall s, t :: c.iso(s) == c.iso(t) ==> s == t)
    && (forall s :: NoBar(c.iso(s)))
  }

  /** The same row as far as the hash can see: times are hashed to the millisecond. */
  predicate Same(r: Row, s: Row) {
    r.(at := 0) == s.(at := 0) && r.at / 1000 == s.at / 1000
  }

  /** The first bar of a text that begins with a field, and the last bar of one that ends with a field. */
  lemma BarPositions(a: string, x: string)
    ensures NoBar(a) ==> forall i :: 0 <= i < |a| ==> (a + ['|'] + x)[i] != '|'
    ensures NoBar(x) ==> forall i :: |a| < i < |a| + 1 + |x| ==> (a + ['|'] + x)[i] != '|'
    ensures (a + ['|'] + x)[|a|] == '|' && (a + ['|'] + x)[..|a|] == a && (a + ['|'] + x)[|a| + 1..] == x
  {
  }

  lemma CutFirst(a: string, x: string, b: string, y: string)
    requires NoBar(a) && NoBar(b) && a + ['|'] + x == b + ['|'] + y
    ensures a == b && x == y
  {
    BarPositions(a, x);
    BarPositions(b, y);
    assert |a| == |b|;
  }

  lemma CutLast(x: string, a: string, y: string, b: string)
    requires NoBar(a) && NoBar(b) && x + ['|'] + a == y + ['|'] + b
    ensures x == y && a == b
  {
    BarPositions(x, a);
    BarPositions(y, b);
    assert |x| == |y|;
  }

  /** The fields from `detail` on. */
  function Tail(r: Row, c: Codec): string {
    (r.detail + ['|'] + r.ip) + ['|'] + c.iso(r.at / 1000)
  }

  lemma JoinCons(first: string, rest: seq<string>)
    requires rest != []
    ensures Join([first] + rest, '|') == first + ['|'] + Join(rest, '|')
  {
    assert ([first] + rest)[1..] == rest;
  }

  lemma TailJoined(r: Row, c: Codec)
    ensures Join([r.detail, r.ip, c.iso(r.at / 1000)], '|') == Tail(r, c)
  {
    var ts := c.iso(r.at / 1000);
    JoinCons(r.ip, [ts]);
    JoinCons(r.detail, [r.ip, ts]);
    assert [r.ip] + [ts] == [r.ip, ts] && [r.detail] + [r.ip, ts] == [r.detail, r.ip, ts];
  }

  /** The fields from the user name on. */
  function Middle(r: Row, c: Codec): string {
    r.username + ['|'] + (r.action + ['|'] + (r.target + ['|'] + Tail(r, c)))
  }

  lemma MiddleJoined(r: Row, c: Codec)
    ensures Join([r.username, r.action, r.target, r.detail, r.ip, c.iso(r.at / 1000)], '|') == Middle(r, c)
  {
    var tail := [r.detail, r.ip, c.iso(r.at / 1000)];
    TailJoined(r, c);
    JoinCons(r.target, tail);
    JoinCons(r.action, [r.target] + tail);
    JoinCons(r.username, [r.action] + ([r.target] + tail));
    assert [r.username] + ([r.action] + ([r.target] + tail)) ==
           [r.username, r.action, r.target, r.detail, r.ip, c.iso(r.at / 1000)];
  }

  lemma CanonicalNested(p: string, r: Row, c: Codec)
    ensures Canonical(p, r, c) == p + ['|'] + (Decimal(r.id) + ['|'] + Middle(r, c))
  {
    var middle := [r.username, r.action, r.target, r.detail, r.ip, c.iso(r.at / 1000)];
    MiddleJoined(r, c);
    JoinCons(Decimal(r.id), middle);
    JoinCons(p, [Decimal(r.id)] + middle);
    assert [p] + ([Decimal(r.id)] + middle) == Fields(p, r, c);
  }

  /** The canonical text determines the row and the hash it links to. */
  lemma CanonicalInjective(r: Row, s: Row, c: Codec)
    requires Faithful(c) && Clean(r) && Clean(s)
    requires Canonical(r.prevHash, r, c) == Canonical(s.prevHash, s, c)
    ensures Same(r, s.(entryHash := r.entryHash))
  {
    CanonicalNested(r.prevHash, r, c);
    CanonicalNested(s.prevHash, s, c);
    var r4, s4 := r.target + ['|'] + Tail(r, c), s.target + ['|'] + Tail(s, c);
    var r3, s3 := r.action + ['|'] + r4, s.action + ['|'] + s4;
    var r2, s2 := r.username + ['|'] + r3, s.username + ['|'] + s3;
    var r1, s1 := Decimal(r.id) + ['|'] + r2, Decimal(s.id) + ['|'] + s2;
    DecimalDigits(r.id);
    DecimalDigits(s.id);
    CutFirst(r.prevHash, r1, s.prevHash, s1);
    CutFirst(Decimal(r.id), r2, Decimal(s.id), s2);
    CutFirst(r.username, r3, s.username, s3);
    CutFirst(r.action, r4, s.action, s4);
    CutFirst(r.target, Tail(r, c), s.target, Tail(s, c));
    CutLast(r.detail + ['|'] + r.ip, c.iso(r.at / 1000), s.detail + ['|'] + s.ip, c.iso(s.at / 1000));
    CutLast(r.detail, r.ip, s.detail, s.ip);
    DecimalInjective(r.id, s.id);
  }

  predicate SameText(r: Row, s: Row, c: Codec) {
    Canonical(r.prevHash, r, c) == Canonical(s.prevHash, s, c)
  }

  lemma Regroup(a: string, b: string, x: string)
    ensures (a + ['|'] + b) + ['|'] + x == a + ['|'] + (b + ['|'] + x)
  {
  }

  lemma UsernameBar(r: Row, a: string, b: string, c: Codec)
    requires r.username == a + ['|'] + b
    ensures SameText(r, r.(username := a, action := b + ['|'] + r.action), c)
  {
    var s := r.(username := a, action := b + ['|'] + r.action);
    CanonicalNested(r.prevHash, r, c);
    CanonicalNested(r.prevHash, s, c);
    var rest := r.target + ['|'] + Tail(r, c);
    assert Tail(s, c) == Tail(r, c);
    Regroup(a, b, r.action + ['|'] + rest);
    Regroup(b, r.action, rest);
  }

  lemma ActionBar(r: Row, a: string, b: string, c: Codec)
    requires r.action == a + ['|'] + b
    ensures SameText(r, r.(action := a, target := b + ['|'] + r.target), c)
  {
    var s := r.(action := a, target := b + ['|'] + r.target);
    CanonicalNested(r.prevHash, r, c);
    CanonicalNested(r.prevHash, s, c);
    assert Tail(s, c) == Tail(r, c);
    Regroup(a, b, r.target + ['|'] + Tail(r, c));
    Regroup(b, r.target, Tail(r, c));
  }

  lemma TargetBar(r: Row, a: string, b: string, c: Codec)
    requires r.target == a + ['|'] + b
    ensures SameText(r, r.(target := a, detail := b + ['|'] + r.detail), c)
  {
    var s := r.(target := a, detail := b + ['|'] + r.detail);
    CanonicalNested(r.prevHash, r, c);
    CanonicalNested(r.prevHash, s, c);
    Regroup(a, b, Tail(r, c));
    Regroup(b, r.detail, r.ip);
    Regroup(b, r.detail + ['|'] + r.ip, c.iso(r.at / 1000));
    assert Tail(s, c) == b + ['|'] + Tail(r, c);
  }

  lemma DetailBar(r: Row, a: string, b: string, c: Codec)
    requires r.detail == a + ['|'] + b
    ensures SameText(r, r.(target := r.target + ['|'] + a, detail := b), c)
  {
    var s := r.(target := r.target + ['|'] + a, detail := b);
    TargetBar(s, r.target, a, c);
    assert s.(target := r.target, detail := a + ['|'] + b) == r;
  }

  lemma AddressBar(r: Row, a: string, b: string, c: Codec)
    requires r.ip == a + ['|'] + b
    ensures SameText(r, r.(detail := r.detail + ['|'] + a, ip := b), c)
  {
    var s := r.(detail := r.detail + ['|'] + a, ip := b);
    CanonicalNested(r.prevHash, r, c);
    CanonicalNested(r.prevHash, s, c);
    Regroup(r.detail, a, b);
    assert Tail(s, c) == Tail(r, c);
  }

  /** A bar may move: what follows one in the user name, the action or the target can be read as the start of the next
      field, and what stands next to one in the detail or the address as part of the field beside it. */
  lemma BarsCollide(r: Row, a: string, b: string, c: Codec)
    ensures r.username == a + ['|'] + b ==> SameText(r, r.(username := a, action := b + ['|'] + r.action), c)
    ensures r.action == a + ['|'] + b ==> SameText(r, r.(action := a, target := b + ['|'] + r.target), c)
    ensures r.target == a + ['|'] + b ==> SameText(r, r.(target := a, detail := b + ['|'] + r.detail), c)
    ensures r.detail == a + ['|'] + b ==> SameText(r, r.(target := r.target + ['|'] + a, detail := b), c)
    ensures r.ip == a + ['|'] + b ==> SameText(r, r.(detail := r.detail + ['|'] + a, ip := b), c)
  {
    if r.username == a + ['|'] + b { UsernameBar(r, a, b, c); }
    if r.action == a + ['|'] + b { ActionBar(r, a, b, c); }
    if r.target == a + ['|'] + b { TargetBar(r, a, b, c); }
    if r.detail == a + ['|'] + b { DetailBar(r, a, b, c); }
    if r.ip == a + ['|'] + b { AddressBar(r, a, b, c); }
  }

  function Bars(s: string): nat {
    if s == "" then 0 else (if s[0] == '|' then 1 else 0) + Bars(s[1..])
  }

  lemma {:induction false} BarsAppend(a: string, b: string)
    ensures Bars(a + b) == Bars(a) + Bars(b)
  {
    if a == "" {
      assert a + b == b;
    } else {
      assert (a + b)[1..] == a[1..] + b;
      BarsAppend(a[1..], b);
    }
  }

  lemma {:induction false} BarsOfBarless(s: string)
    ensures Bars(s) == 0 <==> NoBar(s)
  {
    if s != "" {
      BarsOfBarless(s[1..]);
      assert s == [s[0]] + s[1..];
    }
  }

  lemma BarsJoined(a: string, b: string)
    ensures Bars(a + ['|'] + b) == Bars(a) + 1 + Bars(b)
  {
    BarsAppend(a + ['|'], b);
    BarsAppend(a, ['|']);
    assert ['|'][1..] == "";
  }

  // ---------------------------------------------------------------- when a text determines its row

  /** What holds of every JSON text as far as bars matter: quotes are paired, and bars and backslashes stand between
      them. */
  predicate JsonLike(s: string) {
    Scan(s, false)
  }

  predicate Scan(s: string, quoted: bool) {
    if s == "" then !quoted
    else if s[0] == '"' then Scan(s[1..], !quoted)
    else if s[0] == '\\' then quoted && |s| > 1 && s[1] != '|' && Scan(s[2..], true)
    else (quoted || s[0] != '|') && Scan(s[1..], quoted)
  }

  /** From inside and from outside a string a text cannot both end outside. */
  lemma {:induction false} ScanOnce(s: string)
    ensures !(Scan(s, true) && Scan(s, false))
  {
    if s != "" && s[0] != '\\' {
      ScanOnce(s[1..]);
    }
  }

  lemma {:induction false} ScanBar(x: string, y: string, quoted: bool)
    requires Scan(x + ['|'] + y, quoted)
    ensures Scan(y, true) && !Scan(x, quoted)
    decreases |x|
  {
    var s := x + ['|'] + y;
    if x == "" {
      assert s[0] == '|' && s[1..] == y;
    } else if x[0] == '\\' {
      assert s[0] == '\\' && s[1] == if |x| > 1 then x[1] else '|';
      assert s[2..] == x[2..] + ['|'] + y;
      ScanBar(x[2..], y, true);
    } else {
      assert s[0] == x[0] && s[1..] == x[1..] + ['|'] + y;
      ScanBar(x[1..], y, if x[0] == '"' then !quoted else quoted);
    }
  }

  /** What follows or stands before a bar in a JSON text is no JSON text. */
  lemma AroundABar(x: string, y: string)
    requires JsonLike(x + ['|'] + y)
    ensures !JsonLike(x) && !JsonLike(y)
  {
    ScanBar(x, y, false);
    ScanOnce(y);
  }

  /** The fields before `detail`. */
  function Lead(r: Row): string {
    r.prevHash + ['|'] + (Decimal(r.id) + ['|'] + (r.username + ['|'] + (r.action + ['|'] + r.target)))
  }

  lemma CanonicalCut(r: Row, c: Codec)
    ensures Canonical(r.prevHash, r, c) == (Lead(r) + ['|'] + (r.detail + ['|'] + r.ip)) + ['|'] + c.iso(r.at / 1000)
  {
    var x, ts := r.detail + ['|'] + r.ip, c.iso(r.at / 1000);
    CanonicalNested(r.prevHash, r, c);
    Regroup5(r.prevHash, Decimal(r.id), r.username, r.action, r.target, x + ['|'] + ts);
    Regroup(Lead(r), x, ts);
  }

  lemma Regroup5(p: string, i: string, u: string, a: string, t: string, x: string)
    ensures (p + ['|'] + (i + ['|'] + (u + ['|'] + (a + ['|'] + t)))) + ['|'] + x ==
            p + ['|'] + (i + ['|'] + (u + ['|'] + (a + ['|'] + (t + ['|'] + x))))
  {
    Regroup(p, i + ['|'] + (u + ['|'] + (a + ['|'] + t)), x);
    Regroup(i, u + ['|'] + (a + ['|'] + t), x);
    Regroup(u, a + ['|'] + t, x);
    Regroup(a, t, x);
  }

  lemma LeadBars(r: Row)
    ensures Bars(Lead(r)) == 4 + Bars(r.prevHash) + Bars(r.username) + Bars(r.action) + Bars(r.target)
  {
    DecimalDigits(r.id);
    BarsOfBarless(Decimal(r.id));
    BarsJoined(r.action, r.target);
    BarsJoined(r.username, r.action + ['|'] + r.target);
    BarsJoined(Decimal(r.id), r.username + ['|'] + (r.action + ['|'] + r.target));
    BarsJoined(r.prevHash, Decimal(r.id) + ['|'] + (r.username + ['|'] + (r.action + ['|'] + r.target)));
  }

  /** No field before `detail` holds a bar. */
  predicate Plain(r: Row) {
    NoBar(r.prevHash) && NoBar(r.username) && NoBar(r.action) && NoBar(r.target)
  }

  lemma PlainBars(r: Row)
    ensures Bars(Lead(r)) >= 4
    ensures Bars(Lead(r)) == 4 <==> Plain(r)
  {
    LeadBars(r);
    BarsOfBarless(r.prevHash);
    BarsOfBarless(r.username);
    BarsOfBarless(r.action);
    BarsOfBarless(r.target);
  }

  lemma LeadDetermines(r: Row, s: Row)
    requires Lead(r) == Lead(s) && Plain(r)
    ensures s.prevHash == r.prevHash && s.id == r.id && s.username == r.username && s.action == r.action
    ensures s.target == r.target
  {
    PlainBars(r);
    PlainBars(s);
    DecimalDigits(r.id);
    DecimalDigits(s.id);
    var r3, s3 := r.action + ['|'] + r.target, s.action + ['|'] + s.target;
    var r2, s2 := r.username + ['|'] + r3, s.username + ['|'] + s3;
    CutFirst(r.prevHash, Decimal(r.id) + ['|'] + r2, s.prevHash, Decimal(s.id) + ['|'] + s2);
    CutFirst(Decimal(r.id), r2, Decimal(s.id), s2);
    CutFirst(r.username, r3, s.username, s3);
    CutFirst(r.action, r.target, s.action, s.target);
    DecimalInjective(r.id, s.id);
  }

  /** Two ways to cut a text at a bar: what the one has more in front, the other has more behind. */
  lemma CutEarlier(x: string, a: string, y: string, b: string) returns (m: string)
    requires x + ['|'] + a == y + ['|'] + b && |x| < |y|
    ensures y == x + ['|'] + m && a == m + ['|'] + b
  {
    var text := x + ['|'] + a;
    m := y[|x| + 1..];
    assert y == text[..|y|] && x == text[..|x|];
    assert y[|x|] == text[|x|] == '|';
    assert a == text[|x| + 1..] && b == text[|y| + 1..];
    assert a[|m|] == text[|y|];
  }

  lemma SplitAtBar(s: string) returns (a: string, b: string)
    requires !NoBar(s)
    ensures s == a + ['|'] + b
  {
    var i :| 0 <= i < |s| && s[i] == '|';
    a, b := s[..i], s[i + 1..];
  }

  /** A bar in one of the three texts before `detail` may move to a neighbour, the detail staying as it is. */
  lemma BarredRowHasTwin(r: Row, c: Codec) returns (s: Row)
    requires NoBar(r.prevHash) && !Plain(r)
    ensures SameText(r, s, c) && !Same(r, s.(entryHash := r.entryHash))
    ensures s.detail == r.detail && s.ip == r.ip
  {
    var a, b;
    if !NoBar(r.username) {
      a, b := SplitAtBar(r.username);
      s := r.(username := a, action := b + ['|'] + r.action);
      UsernameBar(r, a, b, c);
      assert |a| < |r.username|;
    } else if !NoBar(r.action) {
      a, b := SplitAtBar(r.action);
      s := r.(action := a, target := b + ['|'] + r.target);
      ActionBar(r, a, b, c);
      assert |a| < |r.action|;
    } else {
      a, b := SplitAtBar(r.target);
      s := r.(action := r.action + ['|'] + a, target := b);
      ActionBar(s, r.action, a, c);
      assert s.(action := r.action, target := a + ['|'] + b) == r;
      assert |b| < |r.target|;
    }
  }

  /** Some JSON text stands between two bars. */
  ghost predicate JsonBetweenBars(text: string, json: string -> bool) {
    exists m, j, z :: json(j) && text == Between(m, j, z)
  }

  function Between(m: string, j: string, z: string): string {
    m + ['|'] + (j + ['|'] + z)
  }

  lemma StandsBetween(m: string, j: string, z: string, json: string -> bool)
    requires json(j)
    ensures JsonBetweenBars(Between(m, j, z), json)
  {
  }

  /** The rows of a table with the text of `r`, whatever their address holds, are `r`, exactly if its user name, action
      and target hold no bar and no JSON text stands between two bars of its detail and address. */
  lemma TextDeterminesRowIff(r: Row, c: Codec, json: string -> bool)
    requires Faithful(c) && (forall d :: json(d) ==> JsonLike(d))
    requires json(r.detail) && NoBar(r.prevHash)
    ensures (forall s: Row :: json(s.detail) && SameText(r, s, c) ==> Same(r, s.(entryHash := r.entryHash))) <==>
            Plain(r) && !JsonBetweenBars(r.detail + ['|'] + r.ip, json)
  {
    if !Plain(r) {
      var s := BarredRowHasTwin(r, c);
    } else if JsonBetweenBars(r.detail + ['|'] + r.ip, json) {
      var s := ShiftedTwin(r, c, json);
    } else {
      forall s: Row | json(s.detail) && SameText(r, s, c)
        ensures Same(r, s.(entryHash := r.entryHash))
      {
        PlainRowFixed(r, s, c, json);
      }
    }
  }

  /** The fields before `target`. */
  function Front(r: Row): string {
    r.prevHash + ['|'] + (Decimal(r.id) + ['|'] + (r.username + ['|'] + r.action))
  }

  lemma LeadThenTarget(r: Row)
    ensures Lead(r) == Front(r) + ['|'] + r.target
  {
    Regroup(r.prevHash, Decimal(r.id) + ['|'] + (r.username + ['|'] + r.action), r.target);
    Regroup(Decimal(r.id), r.username + ['|'] + r.action, r.target);
    Regroup(r.username, r.action, r.target);
  }

  lemma ShiftedTwin(r: Row, c: Codec, json: string -> bool) returns (s: Row)
    requires JsonBetweenBars(r.detail + ['|'] + r.ip, json)
    ensures json(s.detail) && SameText(r, s, c) && !Same(r, s.(entryHash := r.entryHash))
  {
    var m, j, z :| json(j) && r.detail + ['|'] + r.ip == Between(m, j, z);
    s := r.(target := r.target + ['|'] + m, detail := j, ip := z);
    CanonicalCut(r, c);
    CanonicalCut(s, c);
    Regroup(r.target, m, j + ['|'] + z);
    LeadThenTarget(r);
    LeadThenTarget(s);
    Regroup(Front(r) + ['|'] + r.target, m, j + ['|'] + z);
    Regroup(Front(r), r.target, m);
    assert |s.target| > |r.target|;
  }

  lemma PlainRowFixed(r: Row, s: Row, c: Codec, json: string -> bool)
    requires Faithful(c) && (forall d :: json(d) ==> JsonLike(d)) && json(r.detail) && json(s.detail)
    requires SameText(r, s, c) && Plain(r) && !JsonBetweenBars(r.detail + ['|'] + r.ip, json)
    ensures Same(r, s.(entryHash := r.entryHash))
  {
    CanonicalCut(r, c);
    CanonicalCut(s, c);
    var x, y := r.detail + ['|'] + r.ip, s.detail + ['|'] + s.ip;
    CutLast(Lead(r) + ['|'] + x, c.iso(r.at / 1000), Lead(s) + ['|'] + y, c.iso(s.at / 1000));
    PlainBars(r);
    PlainBars(s);
    if |Lead(s)| < |Lead(r)| {
      var m := CutEarlier(Lead(s), y, Lead(r), x);
      BarsJoined(Lead(s), m);
      assert false;
    } else if |Lead(r)| < |Lead(s)| {
      var m := CutEarlier(Lead(r), x, Lead(s), y);
      StandsBetween(m, s.detail, s.ip, json);
      assert false;
    }
    BarPositions(Lead(r), x);
    BarPositions(Lead(s), y);
    LeadDetermines(r, s);
    DetailCut(r.detail, r.ip, s.detail, s.ip);
  }

  lemma DetailCut(d: string, a: string, e: string, b: string)
    requires JsonLike(d) && JsonLike(e) && d + ['|'] + a == e + ['|'] + b
    ensures d == e && a == b
  {
    if |d| < |e| {
      var m := CutEarlier(d, a, e, b);
      AroundABar(d, m);
      assert false;
    } else if |e| < |d| {
      var m := CutEarlier(e, b, d, a);
      AroundABar(e, m);
      assert false;
    }
    BarPositions(d, a);
    BarPositions(e, b);
  }

  /** Where addresses hold no bar, the user name, the action and the target decide alone: whatever its detail holds. */
  lemma AddressedRowIff(r: Row, c: Codec, json: string -> bool)
    requires Faithful(c) && (forall d :: json(d) ==> JsonLike(d))
    requires json(r.detail) && NoBar(r.prevHash) && NoBar(r.ip)
    ensures (forall s: Row :: json(s.detail) && NoBar(s.ip) && SameText(r, s, c) ==>
               Same(r, s.(entryHash := r.entryHash))) <==> Plain(r)
  {
    if !Plain(r) {
      var s := BarredRowHasTwin(r, c);
    } else {
      forall s: Row | json(s.detail) && NoBar(s.ip) && SameText(r, s, c)
        ensures Same(r, s.(entryHash := r.entryHash))
      {
        AddressedRowFixed(r, s, c);
      }
    }
  }

  lemma AddressedRowFixed(r: Row, s: Row, c: Codec)
    requires Faithful(c) && JsonLike(r.detail) && JsonLike(s.detail) && NoBar(r.ip) && NoBar(s.ip)
    requires SameText(r, s, c) && Plain(r)
    ensures Same(r, s.(entryHash := r.entryHash))
  {
    CanonicalCut(r, c);
    CanonicalCut(s, c);
    var x, y := r.detail + ['|'] + r.ip, s.detail + ['|'] + s.ip;
    CutLast(Lead(r) + ['|'] + x, c.iso(r.at / 1000), Lead(s) + ['|'] + y, c.iso(s.at / 1000));
    Regroup(Lead(r), r.detail, r.ip);
    Regroup(Lead(s), s.detail, s.ip);
    CutLast(Lead(r) + ['|'] + r.detail, r.ip, Lead(s) + ['|'] + s.detail, s.ip);
    PlainBars(r);
    PlainBars(s);
    if |Lead(s)| < |Lead(r)| {
      var m := CutEarlier(Lead(s), s.detail, Lead(r), r.detail);
      BarsJoined(Lead(s), m);
      assert false;
    } else if |Lead(r)| < |Lead(s)| {
      var m := CutEarlier(Lead(r), r.detail, Lead(s), s.detail);
      AroundABar(m, s.detail);
      assert false;
    }
    BarPositions(Lead(r), r.detail);
    BarPositions(Lead(s), s.detail);
    LeadDetermines(r, s);
  }

  // ---------------------------------------------------------------- tamper evidence

  ghost predicate AllClean(rows: seq<Row>) {
    forall r :: r in rows ==> Clean(r)
  }

  ghost predicate SameRows(a: seq<Row>, b: seq<Row>) {
    |a| == |b| && forall i :: 0 <= i < |a| ==> Same(a[i], b[i])
  }

  /** The rows of `a` are the last rows of `b`. */
  ghost predicate EndsWith(b: seq<Row>, a: seq<Row>) {
    |a| <= |b| && SameRows(a, b[|b| - |a|..])
  }

  lemma SameHashSameRow(r: Row, s: Row, c: Codec)
    requires Faithful(c) && Clean(r) && Clean(s) && Rehashes(r, c) && Rehashes(s, c)
    requires r.entryHash == s.entryHash
    ensures Same(r, s)
  {
    CanonicalInjective(r, s, c);
  }

  lemma {:induction false} ChainedEndsWith(a: seq<Row>, b: seq<Row>, c: Codec)
    requires Faithful(c) && AllClean(a) && AllClean(b) && Chained(a, c) && Chained(b, c)
    requires 0 < |a| <= |b| && LastHash(a) == LastHash(b)
    ensures EndsWith(b, a)
  {
    var i, j := |a| - 1, |b| - 1;
    assert Good(a, i, c) && Good(b, j, c);
    SameHashSameRow(a[i], b[j], c);
    if |a| > 1 {
      assert a[i].prevHash == a[i - 1].entryHash && b[j].prevHash == b[j - 1].entryHash;
      ChainedPrefix(a, i, c);
      ChainedPrefix(b, j, c);
      ChainedEndsWith(a[..i], b[..j], c);
      assert b[|b| - |a|..][..i] == b[..j][|b| - |a|..];
      forall k | 0 <= k < |a|
        ensures Same(a[k], b[|b| - |a|..][k])
      {
        if k < i {
          assert Same(a[..i][k], b[..j][|b| - |a|..][k]);
        }
      }
    }
  }

  lemma ChainedPrefix(rows: seq<Row>, n: nat, c: Codec)
    requires Chained(rows, c) && n <= |rows|
    ensures Chained(rows[..n], c)
  {
    forall i | 0 <= i < n
      ensures Good(rows[..n], i, c)
    {
      assert Good(rows, i, c);
    }
  }

  /** The chain takes no notice of a row without a hash, wherever it stands. */
  lemma UnhashedRowsHide(before: seq<Row>, x: Row, rest: seq<Row>)
    requires x.entryHash == ""
    ensures Hashed(before + [x] + rest) == Hashed(before + rest)
  {
    HashedThree(before, [x], rest);
    HashedAppend(before, rest);
    HashedOne(x);
  }

  lemma HashedThree(a: seq<Row>, b: seq<Row>, d: seq<Row>)
    ensures Hashed(a + b + d) == Hashed(a) + Hashed(b) + Hashed(d)
  {
    HashedAppend(a + b, d);
    HashedAppend(a, b);
  }

  /** Of two logs that verify, the last hashes agree exactly if the hashed rows of one are the end of those of the
      other: apart from hashed rows cut off at the front and rows without a hash, a known last hash pins down the log.
      */
  lemma LastHashPinsTheLog(a: seq<Row>, b: seq<Row>, c: Codec)
    requires Faithful(c) && Chained(Hashed(a), c) && Chained(Hashed(b), c)
    requires AllClean(Hashed(a)) && AllClean(Hashed(b)) && Hashed(a) != [] && Hashed(b) != []
    ensures LastHash(Hashed(a)) == LastHash(Hashed(b)) <==>
            EndsWith(Hashed(a), Hashed(b)) || EndsWith(Hashed(b), Hashed(a))
  {
    LastHashPinsTheRows(Hashed(a), Hashed(b), c);
  }

  lemma LastHashPinsTheRows(a: seq<Row>, b: seq<Row>, c: Codec)
    requires Faithful(c) && AllClean(a) && AllClean(b) && Chained(a, c) && Chained(b, c) && a != [] && b != []
    ensures LastHash(a) == LastHash(b) <==> EndsWith(a, b) || EndsWith(b, a)
  {
    if LastHash(a) == LastHash(b) {
      if |a| <= |b| {
        ChainedEndsWith(a, b, c);
      } else {
        ChainedEndsWith(b, a, c);
      }
    }
    if EndsWith(a, b) {
      assert Same(b[|b| - 1], a[|a| - |b|..][|b| - 1]);
    } else if EndsWith(b, a) {
      assert Same(a[|a| - 1], b[|b| - |a|..][|a| - 1]);
    }
  }

  ghost predicate IdsIncrease(rows: seq<Row>) {
    forall i, j :: 0 <= i < j < |rows| ==> rows[i].id < rows[j].id
  }

  /** Rows i up to j taken out. */
  function Cut(rows: seq<Row>, i: nat, j: nat): seq<Row>
    requires i <= j <= |rows|
  {
    rows[..i] + rows[j..]
  }

  lemma CutUnnoticedIff(rows: seq<Row>, i: nat, j: nat, c: Codec)
    requires Faithful(c) && AllClean(rows) && Chained(rows, c) && IdsIncrease(rows) && i <= j <= |rows|
    ensures Chained(Cut(rows, i, j), c) <==> i == j || i == 0 || j == |rows|
  {
    var cut := Cut(rows, i, j);
    if i == j || i == 0 || j == |rows| {
      forall k | 0 <= k < |cut|
        ensures Good(cut, k, c)
      {
        assert Good(rows, if k < i then k else k + (j - i), c);
      }
    } else if Chained(cut, c) {
      assert Good(cut, i, c);
      assert Good(rows, j, c) && Good(rows, i - 1, c) && Good(rows, j - 1, c);
      assert rows[i - 1].entryHash == rows[j - 1].entryHash;
      SameHashSameRow(rows[i - 1], rows[j - 1], c);
      assert false;
    }
  }

  lemma RunUnnoticedIff(x: seq<Row>, y: seq<Row>, z: seq<Row>, c: Codec)
    requires Faithful(c) && AllClean(x + y + z) && IdsIncrease(x + y + z) && Chained(x + y + z, c)
    ensures Chained(x + z, c) <==> y == [] || x == [] || z == []
  {
    CutUnnoticedIff(x + y + z, |x|, |x| + |y|, c);
    assert Cut(x + y + z, |x|, |x| + |y|) == x + z;
  }

  /** Deleting a run of rows from a log that verifies goes unnoticed exactly if no row of the run has a hash, or no row
      before it has, or none after it. */
  lemma DeletionUnnoticedIff(before: seq<Row>, run: seq<Row>, rest: seq<Row>, c: Codec)
    requires var rows := Hashed(before + run + rest);
             Faithful(c) && AllClean(rows) && IdsIncrease(rows) && Chained(rows, c)
    ensures Chained(Hashed(before + rest), c) <==> Hashed(run) == [] || Hashed(before) == [] || Hashed(rest) == []
  {
    HashedThree(before, run, rest);
    HashedAppend(before, rest);
    RunUnnoticedIff(Hashed(before), Hashed(run), Hashed(rest), c);
  }

  lemma RehashedUnnoticedIff(rows: seq<Row>, i: nat, r: Row, c: Codec)
    requires Faithful(c) && AllClean(rows) && Clean(r) && Chained(rows, c) && i < |rows|
    ensures Chained(rows[i := r], c) <==>
            Same(r, rows[i]) || (i == |rows| - 1 && Links(rows[i := r], i) && Rehashes(r, c))
  {
    var edited := rows[i := r];
    assert Good(rows, i, c);
    if Chained(edited, c) {
      assert Good(edited, i, c);
      if i + 1 < |rows| {
        assert Good(rows, i + 1, c) && Good(edited, i + 1, c);
        SameHashSameRow(r, rows[i], c);
      }
    }
    if Same(r, rows[i]) || (i == |rows| - 1 && Links(edited, i) && Rehashes(r, c)) {
      if Same(r, rows[i]) {
        assert Canonical(r.prevHash, r, c) == Canonical(rows[i].prevHash, rows[i], c);
      }
      forall k | 0 <= k < |edited|
        ensures Good(edited, k, c)
      {
        assert Good(rows, k, c);
      }
    }
  }

  /** The row links to the last hashed row of what stands before it, if there is one. */
  predicate LinksTo(r: Row, before: seq<Row>) {
    before != [] ==> r.prevHash == LastHash(before)
  }

  /** Rewriting one hashed row of a log that verifies, its hash included. A row whose hash is blanked is skipped, so
      this goes unnoticed exactly if no hashed row stands before it or none after it. Otherwise a change goes
      unnoticed exactly if the hash cannot see it, or no hashed row stands after it and it still links and had its
      hash recomputed. */
  lemma EditUnnoticedIff(before: seq<Row>, was: Row, rest: seq<Row>, r: Row, c: Codec)
    requires var rows := Hashed(before + [was] + rest);
             Faithful(c) && NonEmptyHash(c) && AllClean(rows) && IdsIncrease(rows) && Chained(rows, c)
    requires was.entryHash != "" && Clean(r)
    ensures Chained(Hashed(before + [r] + rest), c) <==>
            if r.entryHash == "" then Hashed(before) == [] || Hashed(rest) == []
            else Same(r, was) || (Hashed(rest) == [] && LinksTo(r, Hashed(before)) && Rehashes(r, c))
  {
    HashedOne(was);
    if r.entryHash == "" {
      DeletionUnnoticedIff(before, [was], rest, c);
      UnhashedRowsHide(before, r, rest);
    } else {
      HashedOne(r);
      HashedThree(before, [was], rest);
      HashedThree(before, [r], rest);
      RowUnnoticedIff(Hashed(before), was, Hashed(rest), r, c);
    }
  }

  lemma RowUnnoticedIff(x: seq<Row>, was: Row, z: seq<Row>, r: Row, c: Codec)
    requires Faithful(c) && AllClean(x + [was] + z) && Clean(r) && Chained(x + [was] + z, c)
    ensures Chained(x + [r] + z, c) <==> Same(r, was) || (z == [] && LinksTo(r, x) && Rehashes(r, c))
  {
    RehashedUnnoticedIff(x + [was] + z, |x|, r, c);
    assert (x + [was] + z)[|x| := r] == x + [r] + z;
    assert Links(x + [r] + z, |x|) <==> LinksTo(r, x);
  }
}
