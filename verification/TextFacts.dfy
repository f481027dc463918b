/** What trimming, collapsing of line breaks and decimal digits do, for the proofs about texts. */
module TextFacts {
  import opened Text

  predicate Blank(s: string) {
    forall i :: 0 <= i < |s| ==> IsSpace(s[i])
  }

  lemma {:induction false} StartPart(s: string) returns (w: string)
    ensures s == w + TrimStart(s) && Blank(w)
  {
    if s != "" && IsSpace(s[0]) {
      var u := StartPart(s[1..]);
      w := [s[0]] + u;
    } else {
      w := "";
    }
  }

  lemma {:induction false} EndPart(s: string) returns (v: string)
    ensures s == TrimEnd(s) + v && Blank(v)
  {
    if s != "" && IsSpace(s[|s| - 1]) {
      var u := EndPart(s[..|s| - 1]);
      v := u + [s[|s| - 1]];
    } else {
      v := "";
    }
  }

  lemma {:induction false} StartStops(s: string)
    ensures TrimStart(s) == "" || !IsSpace(TrimStart(s)[0])
  {
    if s != "" && IsSpace(s[0]) {
      StartStops(s[1..]);
    }
  }

  lemma {:induction false} EndStops(s: string)
    ensures TrimEnd(s) == "" || !IsSpace(TrimEnd(s)[|TrimEnd(s)| - 1])
  {
    if s != "" && IsSpace(s[|s| - 1]) {
      EndStops(s[..|s| - 1]);
    }
  }

  /** Nothing to trim at either end. */
  predicate Tight(t: string) {
    t != "" ==> !IsSpace(t[0]) && !IsSpace(t[|t| - 1])
  }

  lemma Associate(a: string, b: string, c: string)
    ensures a + b + c == a + (b + c)
  {
  }

  /** A string is its trimmed form with blanks around it. */
  lemma TrimParts(s: string) returns (w: string, v: string)
    ensures s == w + Trim(s) + v && Blank(w) && Blank(v) && Tight(Trim(s))
  {
    w := StartPart(s);
    v := EndPart(TrimStart(s));
    StartStops(s);
    EndStops(TrimStart(s));
    assert Trim(s) != "" ==> Trim(s)[0] == TrimStart(s)[0];
    Associate(w, Trim(s), v);
  }

  lemma {:induction false} TrimStartOf(w: string, t: string)
    requires Blank(w) && (t == "" || !IsSpace(t[0]))
    ensures TrimStart(w + t) == t
  {
    if w == "" {
      assert w + t == t;
    } else {
      assert (w + t)[1..] == w[1..] + t;
      TrimStartOf(w[1..], t);
    }
  }

  lemma {:induction false} TrimEndOf(t: string, v: string)
    requires Blank(v) && (t == "" || !IsSpace(t[|t| - 1]))
    ensures TrimEnd(t + v) == t
  {
    if v == "" {
      assert t + v == t;
    } else {
      assert (t + v)[..|t + v| - 1] == t + v[..|v| - 1];
      TrimEndOf(t, v[..|v| - 1]);
    }
  }

  /** And blanks around a tight string trim away. */
  lemma TrimOf(w: string, t: string, v: string)
    requires Blank(w) && Blank(v) && Tight(t)
    ensures Trim(w + t + v) == t
  {
    if t == "" {
      TrimStartOf(w + v, "");
      assert w + t + v == w + v && w + v + "" == w + v;
    } else {
      TrimStartOf(w, t + v);
      assert w + t + v == w + (t + v);
      TrimEndOf(t, v);
    }
  }

  predicate PlainBlanks(s: string) {
    forall i :: 0 <= i < |s| ==> s[i] == ' ' || s[i] == '\t' || s[i] == '\n' || s[i] == '\r'
  }

  /** In ASCII: spaces, tabs and line ends go, and what begins and ends with a printable character stays. */
  lemma TrimPlain(w: string, t: string, v: string)
    requires PlainBlanks(w) && PlainBlanks(v) && t != "" && '!' <= t[0] <= '~' && '!' <= t[|t| - 1] <= '~'
    ensures Trim(w + t + v) == t
  {
    TrimOf(w, t, v);
  }

  predicate NoBreaks(s: string) {
    forall i :: 0 <= i < |s| ==> !IsBreak(s[i])
  }

  lemma {:induction false} CollapseFree(s: string)
    ensures NoBreaks(CollapseBreaks(s))
    ensures NoBreaks(s) ==> CollapseBreaks(s) == s
    ensures Blank(s) ==> Blank(CollapseBreaks(s))
  {
    if s != "" {
      CollapseFree(s[1..]);
      assert s == [s[0]] + s[1..];
    }
  }

  /** Collapsing works on the pieces of a text if the cut is not between two breaks. */
  lemma {:induction false} CollapsePieces(a: string, b: string)
    requires b == "" || !IsBreak(b[0]) || a == "" || !IsBreak(a[|a| - 1])
    ensures CollapseBreaks(a + b) == CollapseBreaks(a) + CollapseBreaks(b)
  {
    if a == "" {
      assert a + b == b;
    } else {
      assert (a + b)[1..] == a[1..] + b;
      CollapsePieces(a[1..], b);
    }
  }

  lemma CollapseTail(t: string, v: string)
    requires t != "" && NoBreaks(t)
    ensures CollapseBreaks(t + v) == t + CollapseBreaks(v)
  {
    CollapsePieces(t, v);
    CollapseFree(t);
  }

  lemma CollapseThree(w: string, t: string, v: string)
    requires t != "" && NoBreaks(t)
    ensures CollapseBreaks(w + t + v) == CollapseBreaks(w) + t + CollapseBreaks(v)
  {
    assert w + t + v == w + (t + v);
    CollapsePieces(w, t + v);
    CollapseTail(t, v);
  }

  lemma {:induction false} DecimalDigits(n: nat)
    ensures Decimal(n) != "" && forall i :: 0 <= i < |Decimal(n)| ==> '0' <= Decimal(n)[i] <= '9'
  {
    if n >= 10 {
      DecimalDigits(n / 10);
    }
  }

  lemma {:induction false} DecimalInjective(m: nat, n: nat)
    requires Decimal(m) == Decimal(n)
    ensures m == n
  {
    var s, t := Decimal(m), Decimal(n);
    assert s[|s| - 1] == (m % 10 + '0' as int) as char && t[|t| - 1] == (n % 10 + '0' as int) as char;
    assert s[..|s| - 1] == if m < 10 then "" else Decimal(m / 10);
    assert t[..|t| - 1] == if n < 10 then "" else Decimal(n / 10);
    DecimalDigits(m / 10);
    DecimalDigits(n / 10);
    assert m < 10 <==> n < 10;
    if m >= 10 {
      DecimalInjective(m / 10, n / 10);
    }
  }
}
