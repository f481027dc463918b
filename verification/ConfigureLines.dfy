/** What `configure` sends of the lines it is given, on either platform, in terms of the lines themselves. */
module ConfigureLines {
  import opened Prelude
  import opened RevertDevice
  import opened CommitConfirm
  import opened Text
  import opened TextFacts

  /** Where a comment begins. */
  function Mark(kind: Kind): char {
    if kind.Cisco? then '!' else '#'
  }

  /** Blanks, or blanks and a comment. */
  ghost predicate Silent(kind: Kind, line: string) {
    Blank(line) || exists w, rest :: Blank(w) && line == Commented(kind, w, rest)
  }

  function Commented(kind: Kind, w: string, rest: string): string {
    w + [Mark(kind)] + rest
  }

  /** A text with nothing to skip, trim or collapse. */
  predicate Plain(kind: Kind, line: string) {
    line != "" && Tight(line) && NoBreaks(line) && line[0] != Mark(kind)
  }

  lemma LinesOfOne(kind: Kind, line: string)
    ensures ConfigLines(kind, [line]) == SentOf(kind, line)
  {
    assert [line][..0] == [];
  }

  lemma {:induction false} LinesAppend(kind: Kind, a: seq<string>, b: seq<string>)
    ensures ConfigLines(kind, a + b) == ConfigLines(kind, a) + ConfigLines(kind, b)
  {
    if b == [] {
      assert a + b == a;
    } else {
      assert (a + b)[..|a + b| - 1] == a + b[..|b| - 1];
      LinesAppend(kind, a, b[..|b| - 1]);
    }
  }

  lemma TrimOfTight(t: string)
    requires Tight(t)
    ensures Trim(t) == t
  {
    TrimOf("", t, "");
    assert "" + t + "" == t;
  }

  lemma BlankTrims(w: string)
    requires Blank(w)
    ensures Trim(w) == ""
  {
    TrimOf(w, "", "");
    assert w + "" + "" == w;
  }

  lemma TrimOfCommented(kind: Kind, w: string, rest: string)
    requires Blank(w)
    ensures Trim(Commented(kind, w, rest)) != "" && Trim(Commented(kind, w, rest))[0] == Mark(kind)
  {
    var text := [Mark(kind)] + rest;
    assert Commented(kind, w, rest) == w + text;
    TrimStartOf(w, text);
    var v := EndPart(text);
    assert text[0] == Mark(kind) && !IsSpace(text[0]);
    assert TrimEnd(text) == "" ==> text == v;
  }

  /** A line is skipped exactly if it is blank or a comment. */
  lemma SkippedIff(kind: Kind, line: string)
    ensures ConfigLines(kind, [line]) == [] <==> Silent(kind, line)
  {
    LinesOfOne(kind, line);
    var w, v := TrimParts(line);
    var t := Trim(line);
    if t == "" {
      assert line == w + v;
    } else if t[0] == Mark(kind) {
      assert t == [t[0]] + t[1..];
      assert line == Commented(kind, w, t[1..] + v);
    } else if Blank(line) {
      BlankTrims(line);
      assert false;
    } else if Silent(kind, line) {
      var u, rest :| Blank(u) && line == Commented(kind, u, rest);
      TrimOfCommented(kind, u, rest);
    }
  }

  /** Lines of a configuration as one writes them all go out, as they are. */
  lemma {:induction false} PlainLinesGoOut(kind: Kind, lines: seq<string>)
    requires forall line :: line in lines ==> Plain(kind, line)
    ensures ConfigLines(kind, lines) == lines
  {
    if lines != [] {
      var last := lines[|lines| - 1];
      assert last in lines;
      PlainLinesGoOut(kind, lines[..|lines| - 1]);
      TrimOfTight(last);
      CollapseFree(last);
      assert lines == lines[..|lines| - 1] + [last];
    }
  }

  lemma {:induction false} SilentLinesDoNot(kind: Kind, lines: seq<string>)
    requires forall line :: line in lines ==> Silent(kind, line)
    ensures ConfigLines(kind, lines) == []
  {
    if lines != [] {
      var last := lines[|lines| - 1];
      assert last in lines;
      SilentLinesDoNot(kind, lines[..|lines| - 1]);
      SkippedIff(kind, last);
      LinesOfOne(kind, last);
    }
  }

  /** Blanks around a command: RouterOS gets the command alone, Cisco the line as it is. */
  lemma OuterBlanks(kind: Kind, w: string, t: string, v: string)
    requires Plain(kind, t) && Blank(w) && Blank(v) && NoBreaks(w) && NoBreaks(v)
    ensures ConfigLines(kind, [w + t + v]) == [if kind.Cisco? then w + t + v else t]
  {
    LinesOfOne(kind, w + t + v);
    TrimOf(w, t, v);
    CollapseFree(t);
    CollapseFree(w + t + v);
  }

  predicate Breaks(s: string) {
    s != "" && forall i :: 0 <= i < |s| ==> IsBreak(s[i])
  }

  lemma {:induction false} BreaksCollapse(r: string)
    requires Breaks(r)
    ensures CollapseBreaks(r) == " "
  {
    if |r| > 1 {
      BreaksCollapse(r[1..]);
    }
  }

  lemma RunCollapses(a: string, r: string, b: string)
    requires Breaks(r) && (a == "" || !IsBreak(a[|a| - 1])) && (b == "" || !IsBreak(b[0]))
    ensures CollapseBreaks(a + r + b) == CollapseBreaks(a) + " " + CollapseBreaks(b)
  {
    Associate(a, r, b);
    CollapsePieces(a, r + b);
    TailCollapses(r, b);
    Associate(CollapseBreaks(a), " ", CollapseBreaks(b));
  }

  lemma TailCollapses(r: string, b: string)
    requires Breaks(r) && (b == "" || !IsBreak(b[0]))
    ensures CollapseBreaks(r + b) == " " + CollapseBreaks(b)
  {
    BreaksCollapse(r);
    CollapsePieces(r, b);
  }

  /** Line breaks inside a command, however many in a row, go out as one space; what stands around them as it is, a
      further run of breaks included. */
  lemma BreaksGoOutAsOneSpace(kind: Kind, a: string, r: string, b: string)
    requires Plain(kind, a) && Breaks(r) && b != "" && Tight(b)
    ensures ConfigLines(kind, [a + r + b]) == [a + " " + CollapseBreaks(b)]
  {
    LinesOfOne(kind, a + r + b);
    TrimOfTight(a + r + b);
    RunCollapses(a, r, b);
    CollapseFree(a);
  }

  /** Line breaks at the ends: RouterOS does not get them, Cisco gets one space for each run. */
  lemma OuterBreaks(kind: Kind, q: string, t: string, r: string)
    requires Plain(kind, t) && Breaks(q) && Breaks(r)
    ensures ConfigLines(kind, [q + t + r]) == [if kind.Cisco? then " " + t + " " else t]
  {
    LinesOfOne(kind, q + t + r);
    TrimOf(q, t, r);
    CollapseFree(t);
    CollapseThree(q, t, r);
    BreaksCollapse(q);
    BreaksCollapse(r);
  }
}
