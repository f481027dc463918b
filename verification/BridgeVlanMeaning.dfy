/** What the generated bridge-VLAN scripts mean: exact membership, idempotence, last writer wins, commutation. */
module BridgeVlanMeaning {
  import opened Prelude
  import opened BridgeVlan

  // ---------------------------------------------------------------- lists

  lemma {:induction false} WithoutMember(list: seq<Port>, p: Port)
    ensures forall q :: q in Without(list, p) <==> q in list && q != p
  {
    if list != [] {
      WithoutMember(list[..|list| - 1], p);
      assert list == list[..|list| - 1] + [list[|list| - 1]];
    }
  }

  lemma {:induction false} WithoutAbsent(list: seq<Port>, p: Port)
    requires p !in list
    ensures Without(list, p) == list
  {
    if list != [] {
      WithoutAbsent(list[..|list| - 1], p);
      assert list == list[..|list| - 1] + [list[|list| - 1]];
    }
  }

  lemma WithoutAppended(list: seq<Port>, p: Port)
    ensures Without(list + [p], p) == Without(list, p)
  {
    assert (list + [p])[..|list|] == list;
  }

  lemma {:induction false} WithoutCount(list: seq<Port>, p: Port)
    ensures multiset(Without(list, p)) == multiset(list)[p := 0]
  {
    if list != [] {
      WithoutCount(list[..|list| - 1], p);
      assert list == list[..|list| - 1] + [list[|list| - 1]];
    }
  }

  // ---------------------------------------------------------------- one row

  /** `list` without `p`, and `p` at the end if it belongs there. */
  function Put(list: seq<Port>, p: Port, member: bool): seq<Port> {
    Without(list, p) + if member then [p] else []
  }

  lemma PutTwice(list: seq<Port>, p: Port, was: bool, member: bool)
    ensures Put(Put(list, p, was), p, member) == Put(list, p, member)
  {
    WithoutMember(list, p);
    WithoutAbsent(Without(list, p), p);
    if was { WithoutAppended(Without(list, p), p); } else { assert Put(list, p, was) == Without(list, p); }
  }

  lemma PutMember(list: seq<Port>, p: Port, member: bool)
    ensures p in Put(list, p, member) <==> member
    ensures Append(Put(list, p, member), p) == Put(list, p, true)
  {
    WithoutMember(list, p);
  }

  /** Everybody else keeps both place and count. */
  lemma PutOthers(list: seq<Port>, p: Port, member: bool)
    ensures Without(Put(list, p, member), p) == Without(list, p)
    ensures multiset(Put(list, p, member)) == multiset(list)[p := if member then 1 else 0]
  {
    WithoutCount(list, p);
    PutTwice(list, p, member, false);
    assert Put(Put(list, p, member), p, false) == Without(Put(list, p, member), p);
    assert Put(list, p, false) == Without(list, p);
  }

  /** A row once the script has dealt with the native VLAN (if it has) and the given tagged ones. */
  function Placed(r: Row, br: string, p: Port, native: Option<Vlan>, tagged: seq<Vlan>): Row {
    if r.bridge != br then r
    else r.(untagged := Put(r.untagged, p, native == Some(r.vlan)), tagged := Put(r.tagged, p, r.vlan in tagged))
  }

  // ---------------------------------------------------------------- the table along the script

  ghost predicate Has(rows: seq<Row>, br: string, v: Vlan) {
    exists i :: 0 <= i < |rows| && rows[i].bridge == br && rows[i].vlan == v
  }

  lemma FindHas(rows: seq<Row>, br: string, v: Vlan)
    ensures Find(rows, br, v) < |rows| <==> Has(rows, br, v)
  {
    if Find(rows, br, v) < |rows| {
      assert rows[Find(rows, br, v)].bridge == br;
    }
  }

  predicate Wanted(v: Vlan, native: Option<Vlan>, tagged: seq<Vlan>) {
    native == Some(v) || v in tagged
  }

  /** `now` is the table `rows` with `p` placed: the old rows in order, then the rows that had to be added. */
  ghost predicate Along(rows: seq<Row>, now: seq<Row>, br: string, p: Port, native: Option<Vlan>, tagged: seq<Vlan>) {
    && |rows| <= |now|
    && (forall i :: 0 <= i < |rows| ==> now[i] == Placed(rows[i], br, p, native, tagged))
    && (forall i :: |rows| <= i < |now| ==>
          now[i] == Placed(Row(br, now[i].vlan, [], []), br, p, native, tagged) && Wanted(now[i].vlan, native, tagged))
    && OneRowPerVlan(now)
    && (forall v :: Wanted(v, native, tagged) ==> Has(now, br, v))
  }

  lemma StripAlong(rows: seq<Row>, br: string, p: Port)
    requires OneRowPerVlan(rows)
    ensures Along(rows, Strip(rows, br, p), br, p, None, [])
  {
    forall i | 0 <= i < |rows| ensures Strip(rows, br, p)[i] == Placed(rows[i], br, p, None, []) {
      assert Put(rows[i].untagged, p, false) == Without(rows[i].untagged, p);
      assert Put(rows[i].tagged, p, false) == Without(rows[i].tagged, p);
    }
  }

  function NativeAfter(native: Option<Vlan>, list: ListName, v: Vlan): Option<Vlan> {
    if list.Untagged? then Some(v) else native
  }

  function TaggedAfter(tagged: seq<Vlan>, list: ListName, v: Vlan): seq<Vlan> {
    if list.Tagged? then tagged + [v] else tagged
  }

  lemma AddToPlaced(r: Row, br: string, p: Port, native: Option<Vlan>, tagged: seq<Vlan>, list: ListName)
    requires r.bridge == br && (list.Untagged? ==> native.None?)
    ensures AddTo(Placed(r, br, p, native, tagged), list, p)
         == Placed(r, br, p, NativeAfter(native, list, r.vlan), TaggedAfter(tagged, list, r.vlan))
  {
    if list.Untagged? {
      PutMember(r.untagged, p, native == Some(r.vlan));
    } else {
      PutMember(r.tagged, p, r.vlan in tagged);
    }
  }

  /** A row of another VLAN or another bridge does not notice. */
  lemma PlacedElsewhere(r: Row, br: string, p: Port, native: Option<Vlan>, tagged: seq<Vlan>, list: ListName, v: Vlan)
    requires !(r.bridge == br && r.vlan == v) && (list.Untagged? ==> native.None?)
    ensures Placed(r, br, p, NativeAfter(native, list, v), TaggedAfter(tagged, list, v)) ==
            Placed(r, br, p, native, tagged)
  {
  }

  /** Making `p` a member of one more VLAN. */
  lemma EnsureAlong(rows: seq<Row>, now: seq<Row>, br: string, p: Port, native: Option<Vlan>, tagged: seq<Vlan>,
                    list: ListName, v: Vlan)
    requires Along(rows, now, br, p, native, tagged) && (list.Untagged? ==> native.None?)
    ensures Along(rows, Ensure(now, br, p, list, v), br, p, NativeAfter(native, list, v), TaggedAfter(tagged, list, v))
  {
    var n, t := NativeAfter(native, list, v), TaggedAfter(tagged, list, v);
    var k, next := Find(now, br, v), Ensure(now, br, p, list, v);
    forall i | 0 <= i < |next|
      ensures next[i] == Placed(if i < |rows| then rows[i] else Row(br, next[i].vlan, [], []), br, p, n, t)
      ensures |rows| <= i ==> Wanted(next[i].vlan, n, t)
    {
      EnsureRow(rows, now, br, p, native, tagged, list, v, i);
    }
    EnsureKeepsOneRow(now, br, p, list, v);
    forall w | Wanted(w, n, t) ensures Has(next, br, w) {
      assert w != v ==> Wanted(w, native, tagged);
      EnsureHas(now, br, p, list, v, w);
    }
  }

  lemma EnsureKeepsOneRow(now: seq<Row>, br: string, p: Port, list: ListName, v: Vlan)
    requires OneRowPerVlan(now)
    ensures OneRowPerVlan(Ensure(now, br, p, list, v))
  {
  }

  lemma EnsureRow(rows: seq<Row>, now: seq<Row>, br: string, p: Port, native: Option<Vlan>, tagged: seq<Vlan>,
                  list: ListName, v: Vlan, i: nat)
    requires Along(rows, now, br, p, native, tagged) && (list.Untagged? ==> native.None?)
    requires i < |Ensure(now, br, p, list, v)|
    ensures var n, t, next := NativeAfter(native, list, v), TaggedAfter(tagged, list, v), Ensure(now, br, p, list, v);
            && next[i] == Placed(if i < |rows| then rows[i] else Row(br, next[i].vlan, [], []), br, p, n, t)
            && (|rows| <= i ==> Wanted(next[i].vlan, n, t))
  {
    var k, next := Find(now, br, v), Ensure(now, br, p, list, v);
    var from := if i < |rows| then rows[i] else Row(br, next[i].vlan, [], []);
    if i == k {
      AddToPlaced(from, br, p, native, tagged, list);
      if i == |now| { NewRow(now, br, p, native, tagged, v); }
    } else {
      PlacedElsewhere(from, br, p, native, tagged, list, v);
    }
  }

  lemma EnsureHas(now: seq<Row>, br: string, p: Port, list: ListName, v: Vlan, w: Vlan)
    requires w == v || Has(now, br, w)
    ensures Has(Ensure(now, br, p, list, v), br, w)
  {
    var k, next := Find(now, br, v), Ensure(now, br, p, list, v);
    if w == v {
      assert next[k].bridge == br && next[k].vlan == v;
    } else {
      var i :| 0 <= i < |now| && now[i].bridge == br && now[i].vlan == w;
      assert next[i].bridge == br && next[i].vlan == w;
    }
  }

  /** A VLAN without a row was not wanted before, so its new row starts empty. */
  lemma NewRow(now: seq<Row>, br: string, p: Port, native: Option<Vlan>, tagged: seq<Vlan>, v: Vlan)
    requires Find(now, br, v) == |now|
    requires forall w :: Wanted(w, native, tagged) ==> Has(now, br, w)
    ensures Placed(Row(br, v, [], []), br, p, native, tagged) == Row(br, v, [], [])
  {
    FindHas(now, br, v);
  }

  /** One statement, seen through the lists: the port is a member of one more VLAN, and of no other list, and nobody
      else's memberships change, on whatever bridge. */
  lemma EnsureMeaning(rows: seq<Row>, br: string, p: Port, list: ListName, v: Vlan)
    ensures var next := Ensure(rows, br, p, list, v);
            && MemberIn(next, br, p, list) == MemberIn(rows, br, p, list) + {v}
            && (forall at, x, l :: (at, x, l) != (br, p, list) ==>
                  MemberIn(next, at, x, l) == MemberIn(rows, at, x, l))
            && |rows| <= |next|
            && (forall i :: 0 <= i < |rows| && !(next[i].bridge == br && next[i].vlan == v) ==> next[i] == rows[i])
  {
    forall at, x, l
      ensures MemberIn(Ensure(rows, br, p, list, v), at, x, l) ==
              MemberIn(rows, at, x, l) + if (at, x, l) == (br, p, list) then {v} else {}
    {
      EnsureMembership(rows, br, p, list, v, at, x, l);
    }
  }

  function ListOf(r: Row, list: ListName): seq<Port> {
    if list.Untagged? then r.untagged else r.tagged
  }

  lemma EnsureLists(rows: seq<Row>, br: string, p: Port, list: ListName, v: Vlan, i: nat, x: Port, l: ListName)
    requires i < |Ensure(rows, br, p, list, v)|
    ensures var k, next := Find(rows, br, v), Ensure(rows, br, p, list, v);
            && (x in ListOf(next[i], l) <==> (i < |rows| && x in ListOf(rows[i], l)) || (i == k && x == p && l == list))
            && (i < |rows| ==> next[i].bridge == rows[i].bridge && next[i].vlan == rows[i].vlan)
            && (i == k ==> next[i].bridge == br && next[i].vlan == v)
  {
  }

  lemma EnsureMembership(rows: seq<Row>, br: string, p: Port, list: ListName, v: Vlan, at: string, x: Port,
                         l: ListName)
    ensures MemberIn(Ensure(rows, br, p, list, v), at, x, l) ==
            MemberIn(rows, at, x, l) + if (at, x, l) == (br, p, list) then {v} else {}
  {
    var k, next := Find(rows, br, v), Ensure(rows, br, p, list, v);
    var before, after := MemberIn(rows, at, x, l), MemberIn(next, at, x, l);
    forall i | 0 <= i < |next| && next[i].bridge == at && x in ListOf(next[i], l)
      ensures next[i].vlan in before + if (at, x, l) == (br, p, list) then {v} else {}
    {
      EnsureLists(rows, br, p, list, v, i, x, l);
    }
    forall i | 0 <= i < |rows| && rows[i].bridge == at && x in ListOf(rows[i], l)
      ensures rows[i].vlan in after
    {
      EnsureLists(rows, br, p, list, v, i, x, l);
      assert next[i].bridge == at && x in ListOf(next[i], l);
    }
    EnsureLists(rows, br, p, list, v, k, p, list);
  }

  // ---------------------------------------------------------------- whole scripts

  lemma {:induction false} ExecAllSnoc(b: Bridge, br: string, p: Port, script: seq<Stmt>, c: Stmt)
    requires p in b.ports
    ensures ExecAll(b, br, p, script + [c]) == Exec(ExecAll(b, br, p, script), br, p, c)
  {
    assert (script + [c])[..|script|] == script;
  }

  function Head(a: Assignment): seq<Stmt> {
    [SetPort(NativeOf(a), FramesOf(a)), StripPort, EnsureMember(Untagged, NativeOf(a))]
  }

  function Tail(tagged: seq<Vlan>): seq<Stmt> {
    seq(|tagged|, i requires 0 <= i < |tagged| => EnsureMember(Tagged, tagged[i]))
  }

  lemma TailSnoc(head: seq<Stmt>, rest: seq<Vlan>, v: Vlan)
    ensures head + Tail(rest + [v]) == head + Tail(rest) + [EnsureMember(Tagged, v)]
  {
  }

  function PortAfter(b: Bridge, p: Port, a: Assignment): BridgePort
    requires p in b.ports
  {
    b.ports[p].(pvid := NativeOf(a), frames := FramesOf(a))
  }

  lemma HeadAlong(b: Bridge, br: string, p: Port, a: Assignment)
    requires p in b.ports && OneRowPerVlan(b.rows)
    ensures var b' := ExecAll(b, br, p, Head(a));
            && b'.ports == b.ports[p := PortAfter(b, p, a)]
            && Along(b.rows, b'.rows, br, p, Some(NativeOf(a)), [])
  {
    var s1, s2 := [SetPort(NativeOf(a), FramesOf(a))], [SetPort(NativeOf(a), FramesOf(a)), StripPort];
    ExecAllSnoc(b, br, p, [], s1[0]);
    ExecAllSnoc(b, br, p, s1, StripPort);
    ExecAllSnoc(b, br, p, s2, EnsureMember(Untagged, NativeOf(a)));
    assert [] + s1 == s1 && s1 + [StripPort] == s2 && s2 + [EnsureMember(Untagged, NativeOf(a))] == Head(a);
    StripAlong(b.rows, br, p);
    EnsureAlong(b.rows, Strip(b.rows, br, p), br, p, None, [], Untagged, NativeOf(a));
  }

  lemma {:induction false} TaggedAlong(b: Bridge, br: string, p: Port, a: Assignment, tagged: seq<Vlan>)
    requires p in b.ports && OneRowPerVlan(b.rows)
    ensures var b' := ExecAll(b, br, p, Head(a) + Tail(tagged));
            && b'.ports == b.ports[p := PortAfter(b, p, a)]
            && Along(b.rows, b'.rows, br, p, Some(NativeOf(a)), tagged)
  {
    if tagged == [] {
      HeadAlong(b, br, p, a);
      assert Head(a) + Tail(tagged) == Head(a);
    } else {
      var rest, v := tagged[..|tagged| - 1], tagged[|tagged| - 1];
      assert rest + [v] == tagged;
      TaggedAlong(b, br, p, a, rest);
      TailSnoc(Head(a), rest, v);
      ExecAllSnoc(b, br, p, Head(a) + Tail(rest), EnsureMember(Tagged, v));
      EnsureAlong(b.rows, ExecAll(b, br, p, Head(a) + Tail(rest)).rows, br, p, Some(NativeOf(a)), rest, Tagged, v);
    }
  }

  /** The whole script, row by row: old rows keep their place and everybody else's order, `p` moves to the end of the
      lists it belongs to, and missing rows are appended holding only `p`. */
  lemma RunPlaces(b: Bridge, p: Port, a: Assignment)
    requires p in b.ports && OneRowPerVlan(b.rows)
    ensures Run(b, p, a).ports == b.ports[p := PortAfter(b, p, a)]
    ensures Along(b.rows, Run(b, p, a).rows, b.ports[p].bridge, p, Some(NativeOf(a)), TaggedOf(a))
  {
    TaggedAlong(b, b.ports[p].bridge, p, a, TaggedOf(a));
    assert Script(a) == Head(a) + Tail(TaggedOf(a));
  }

  /** Row `i` after the script, and the row it comes from: an old one, or an empty one that had to be added. */
  lemma RowAfter(b: Bridge, p: Port, a: Assignment, i: nat) returns (from: Row)
    requires p in b.ports && OneRowPerVlan(b.rows) && i < |Run(b, p, a).rows|
    ensures i < |b.rows| ==> from == b.rows[i]
    ensures i >= |b.rows| ==> from == Row(b.ports[p].bridge, from.vlan, [], [])
    ensures Run(b, p, a).rows[i] == Placed(from, b.ports[p].bridge, p, Some(NativeOf(a)), TaggedOf(a))
  {
    RunPlaces(b, p, a);
    from := if i < |b.rows| then b.rows[i] else Row(b.ports[p].bridge, Run(b, p, a).rows[i].vlan, [], []);
  }

  lemma RowMembership(b: Bridge, p: Port, a: Assignment, i: nat)
    requires p in b.ports && OneRowPerVlan(b.rows) && i < |Run(b, p, a).rows|
    requires Run(b, p, a).rows[i].bridge == b.ports[p].bridge
    ensures var r := Run(b, p, a).rows[i];
            (p in r.untagged <==> r.vlan == NativeOf(a)) && (p in r.tagged <==> r.vlan in TaggedOf(a))
  {
    var from := RowAfter(b, p, a, i);
    PutMember(from.untagged, p, from.vlan == NativeOf(a));
    PutMember(from.tagged, p, from.vlan in TaggedOf(a));
  }

  /** Script meaning: the port ends up untagged in exactly its native VLAN and tagged in exactly its tagged ones. */
  lemma ScriptMeaning(b: Bridge, p: Port, a: Assignment)
    requires p in b.ports && OneRowPerVlan(b.rows)
    ensures var after, br := Run(b, p, a), b.ports[p].bridge;
            && UntaggedIn(after.rows, br, p) == {NativeOf(a)}
            && TaggedIn(after.rows, br, p) == (set v | v in TaggedOf(a))
            && after.ports == b.ports[p := PortAfter(b, p, a)]
            && OneRowPerVlan(after.rows)
  {
    var now, br := Run(b, p, a).rows, b.ports[p].bridge;
    RunPlaces(b, p, a);
    forall i | 0 <= i < |now| && now[i].bridge == br
      ensures p in now[i].untagged <==> now[i].vlan == NativeOf(a)
      ensures p in now[i].tagged <==> now[i].vlan in TaggedOf(a)
    {
      RowMembership(b, p, a, i);
    }
    forall v | Wanted(v, Some(NativeOf(a)), TaggedOf(a))
      ensures exists i :: 0 <= i < |now| && now[i].bridge == br && now[i].vlan == v
    {
      assert Has(now, br, v);
    }
    assert Wanted(NativeOf(a), Some(NativeOf(a)), TaggedOf(a));
    forall v | v in TaggedOf(a) ensures v in TaggedIn(now, br, p) {
      assert Wanted(v, Some(NativeOf(a)), TaggedOf(a));
    }
  }

  /** What a request makes of the port. An access port is untagged in its VLAN alone and takes no tagged frames; a trunk
      is untagged in its native VLAN, 1 if none is named, and tagged in the others on its list; without a VLAN an access
      request changes nothing. */
  lemma RequestMeaning(b: Bridge, p: Port, trunk: bool, vlan: Option<Vlan>, native: Option<Vlan>, allowed: seq<Vlan>)
    requires p in b.ports && OneRowPerVlan(b.rows)
    ensures var a, br := AssignmentFor(trunk, vlan, native, allowed), b.ports[p].bridge;
            && (a.None? <==> !trunk && vlan.None?)
            && (a.Some? ==>
                  var after := Run(b, p, a.value);
                  && p in after.ports && after.ports[p].bridge == br
                  && (!trunk ==>
                        && UntaggedIn(after.rows, br, p) == {vlan.value} && TaggedIn(after.rows, br, p) == {}
                        && after.ports[p].pvid == vlan.value && after.ports[p].frames == AdmitOnlyUntagged)
                  && (trunk ==>
                        var own := if native.Some? then native.value else 1;
                        && UntaggedIn(after.rows, br, p) == {own}
                        && TaggedIn(after.rows, br, p) == (set v | v in allowed) - {own}
                        && after.ports[p].pvid == own && after.ports[p].frames == AdmitAll))
  {
    var a := AssignmentFor(trunk, vlan, native, allowed);
    if a.Some? {
      ScriptMeaning(b, p, a.value);
    }
  }

  /** Everything else is left alone: rows of other bridges, every other port's membership and its order in the lists,
      and every other port's settings; added rows hold nobody else. */
  lemma OthersUntouched(b: Bridge, p: Port, a: Assignment, i: nat)
    requires p in b.ports && OneRowPerVlan(b.rows) && i < |Run(b, p, a).rows|
    ensures var r := Run(b, p, a).rows[i];
            if i < |b.rows| then
              && r.bridge == b.rows[i].bridge && r.vlan == b.rows[i].vlan
              && (r.bridge != b.ports[p].bridge ==> r == b.rows[i])
              && Without(r.untagged, p) == Without(b.rows[i].untagged, p)
              && Without(r.tagged, p) == Without(b.rows[i].tagged, p)
            else
              r.bridge == b.ports[p].bridge && Without(r.untagged, p) == [] && Without(r.tagged, p) == []
  {
    var from := RowAfter(b, p, a, i);
    PutOthers(from.untagged, p, from.vlan == NativeOf(a));
    PutOthers(from.tagged, p, from.vlan in TaggedOf(a));
  }

  lemma AddedRowIsNew(rows: seq<Row>, now: seq<Row>, br: string, p: Port, native: Option<Vlan>, tagged: seq<Vlan>)
    requires Along(rows, now, br, p, native, tagged)
    ensures |now| > |rows| ==> !Has(rows, br, now[|rows|].vlan) && Wanted(now[|rows|].vlan, native, tagged)
  {
  }

  /** Re-running a script is a no-op, exactly. */
  lemma RerunIsNoOp(b: Bridge, p: Port, a: Assignment)
    requires p in b.ports && OneRowPerVlan(b.rows)
    ensures Run(Run(b, p, a), p, a) == Run(b, p, a)
  {
    var once, br := Run(b, p, a), b.ports[p].bridge;
    var native, tagged := Some(NativeOf(a)), TaggedOf(a);
    RunPlaces(b, p, a);
    RunPlaces(once, p, a);
    var twice := Run(once, p, a);
    AlongTwice(b.rows, once.rows, twice.rows, br, p, native, tagged);
  }

  lemma AlongTwice(rows: seq<Row>, once: seq<Row>, twice: seq<Row>, br: string, p: Port, native: Option<Vlan>,
                   tagged: seq<Vlan>)
    requires Along(rows, once, br, p, native, tagged) && Along(once, twice, br, p, native, tagged)
    ensures twice == once
  {
    forall i | 0 <= i < |once| ensures twice[i] == once[i] {
      PlacedTwice(if i < |rows| then rows[i] else Row(br, once[i].vlan, [], []), br, p, native, tagged);
    }
    AddedRowIsNew(once, twice, br, p, native, tagged);
    assert |twice| == |once|;
  }

  lemma PlacedTwice(r: Row, br: string, p: Port, native: Option<Vlan>, tagged: seq<Vlan>)
    ensures Placed(Placed(r, br, p, native, tagged), br, p, native, tagged) == Placed(r, br, p, native, tagged)
  {
    PutTwice(r.untagged, p, native == Some(r.vlan), native == Some(r.vlan));
    PutTwice(r.tagged, p, r.vlan in tagged, r.vlan in tagged);
  }

  datatype Job = Job(port: Port, assignment: Assignment)

  /** Scripts run one after the other. */
  function RunSeries(b: Bridge, series: seq<Job>): Bridge {
    if series == [] then b
    else
      var last := series[|series| - 1];
      Run(RunSeries(b, series[..|series| - 1]), last.port, last.assignment)
  }

  lemma {:induction false} SeriesKeeps(b: Bridge, p: Port, series: seq<Job>)
    requires p in b.ports && OneRowPerVlan(b.rows)
    ensures var after := RunSeries(b, series);
            p in after.ports && after.ports[p].bridge == b.ports[p].bridge && OneRowPerVlan(after.rows)
  {
    if series != [] {
      var before, last := RunSeries(b, series[..|series| - 1]), series[|series| - 1];
      SeriesKeeps(b, p, series[..|series| - 1]);
      if last.port in before.ports {
        RunPlaces(before, last.port, last.assignment);
      }
    }
  }

  /** Another port's script leaves a port's memberships on every bridge, and its settings, as they are. */
  lemma OtherScriptKeeps(b: Bridge, q: Port, c: Assignment, p: Port, at: string, list: ListName)
    requires p in b.ports && p != q && OneRowPerVlan(b.rows)
    ensures var after := Run(b, q, c);
            && MemberIn(after.rows, at, p, list) == MemberIn(b.rows, at, p, list)
            && p in after.ports && after.ports[p] == b.ports[p]
  {
    if q in b.ports {
      var after := Run(b, q, c);
      RunPlaces(b, q, c);
      forall i | 0 <= i < |after.rows|
        ensures p in ListOf(after.rows[i], list) <==> i < |b.rows| && p in ListOf(b.rows[i], list)
      {
        OthersUntouched(b, q, c, i);
        WithoutMember(ListOf(after.rows[i], list), q);
        if i < |b.rows| {
          WithoutMember(ListOf(b.rows[i], list), q);
        }
      }
      SameMembers(b.rows, after.rows, at, p, list);
    }
  }

  lemma SameMembers(rows: seq<Row>, now: seq<Row>, at: string, p: Port, list: ListName)
    requires |rows| <= |now|
    requires forall i :: 0 <= i < |rows| ==> now[i].bridge == rows[i].bridge && now[i].vlan == rows[i].vlan
    requires forall i :: 0 <= i < |now| ==> (p in ListOf(now[i], list) <==> i < |rows| && p in ListOf(rows[i], list))
    ensures MemberIn(now, at, p, list) == MemberIn(rows, at, p, list)
  {
    forall v | v in MemberIn(rows, at, p, list)
      ensures v in MemberIn(now, at, p, list)
    {
      var i :| 0 <= i < |rows| && rows[i].bridge == at && p in ListOf(rows[i], list) && rows[i].vlan == v;
      assert now[i].bridge == at && p in ListOf(now[i], list) && now[i].vlan == v;
    }
    forall v | v in MemberIn(now, at, p, list)
      ensures v in MemberIn(rows, at, p, list)
    {
      var i :| 0 <= i < |now| && now[i].bridge == at && p in ListOf(now[i], list) && now[i].vlan == v;
      assert rows[i].bridge == at && p in ListOf(rows[i], list) && rows[i].vlan == v;
    }
  }

  /** After any series of scripts for any ports, a port's memberships and settings are those of its own last script, run
      alone. */
  lemma {:induction false} LastScriptWins(b: Bridge, series: seq<Job>, k: nat, p: Port, a: Assignment)
    requires p in b.ports && OneRowPerVlan(b.rows) && k < |series| && series[k] == Job(p, a)
    requires forall j :: k < j < |series| ==> series[j].port != p
    ensures var after, only, br := RunSeries(b, series), Run(b, p, a), b.ports[p].bridge;
            && UntaggedIn(after.rows, br, p) == UntaggedIn(only.rows, br, p)
            && TaggedIn(after.rows, br, p) == TaggedIn(only.rows, br, p)
            && p in after.ports && p in only.ports && after.ports[p] == only.ports[p]
  {
    var before, last := RunSeries(b, series[..|series| - 1]), series[|series| - 1];
    SeriesKeeps(b, p, series[..|series| - 1]);
    if k == |series| - 1 {
      ScriptMeaning(before, p, a);
      ScriptMeaning(b, p, a);
    } else {
      LastScriptWins(b, series[..|series| - 1], k, p, a);
      OtherScriptKeeps(before, last.port, last.assignment, p, b.ports[p].bridge, Untagged);
      OtherScriptKeeps(before, last.port, last.assignment, p, b.ports[p].bridge, Tagged);
    }
  }

  // ---------------------------------------------------------------- two ports

  /** How often a port is in the two lists of a row. */
  datatype Counts = Counts(untagged: nat, tagged: nat)

  function CountsOf(r: Row, x: Port): Counts {
    Counts(multiset(r.untagged)[x], multiset(r.tagged)[x])
  }

  /** The table up to the order of rows and lists: for every bridge, VLAN and port `x`, the counts of `x` in that
      VLAN's row, or None if it has no row. */
  function View(rows: seq<Row>, br: string, v: Vlan, x: Port): Option<Counts> {
    var k := Find(rows, br, v);
    if k == |rows| then None else Some(CountsOf(rows[k], x))
  }

  /** A row's counts of `x` once `p` is placed. */
  function WithPort(m: Counts, p: Port, a: Assignment, v: Vlan, x: Port): Counts {
    if x != p then m
    else Counts(if v == NativeOf(a) then 1 else 0, if v in TaggedOf(a) then 1 else 0)
  }

  lemma CountsPlaced(r: Row, br: string, p: Port, a: Assignment, x: Port)
    requires r.bridge == br
    ensures CountsOf(Placed(r, br, p, Some(NativeOf(a)), TaggedOf(a)), x) == WithPort(CountsOf(r, x), p, a, r.vlan, x)
  {
    PutOthers(r.untagged, p, r.vlan == NativeOf(a));
    PutOthers(r.tagged, p, r.vlan in TaggedOf(a));
  }

  /** The view of one VLAN once `p` is placed; a missing row appears only if `p` needs it. */
  function Intended(m: Option<Counts>, p: Port, a: Assignment, v: Vlan, x: Port): Option<Counts> {
    if m.Some? then Some(WithPort(m.value, p, a, v, x))
    else if v == NativeOf(a) || v in TaggedOf(a) then Some(WithPort(Counts(0, 0), p, a, v, x))
    else None
  }

  lemma {:induction false} FindIs(rows: seq<Row>, br: string, v: Vlan, i: nat)
    requires OneRowPerVlan(rows) && i < |rows| && rows[i].bridge == br && rows[i].vlan == v
    ensures Find(rows, br, v) == i
  {
  }

  /** Where a VLAN's row is found after the script: at the old place, or among the added rows, or still nowhere. */
  lemma FindAfter(b: Bridge, p: Port, a: Assignment, br: string, v: Vlan)
    requires p in b.ports && OneRowPerVlan(b.rows)
    ensures var now, k, k' := Run(b, p, a).rows, Find(b.rows, br, v), Find(Run(b, p, a).rows, br, v);
            && |b.rows| <= |now|
            && (k < |b.rows| ==> k' == k)
            && (k == |b.rows| ==> k' >= |b.rows|)
            && (k == |b.rows| && k' < |now| ==> br == b.ports[p].bridge && Wanted(v, Some(NativeOf(a)), TaggedOf(a)))
            && (br == b.ports[p].bridge && Wanted(v, Some(NativeOf(a)), TaggedOf(a)) ==> k' < |now|)
  {
    RunPlaces(b, p, a);
    var now, k, k' := Run(b, p, a).rows, Find(b.rows, br, v), Find(Run(b, p, a).rows, br, v);
    if k < |b.rows| {
      FindIs(now, br, v, k);
    }
    FindHas(now, br, v);
  }

  /** A script, seen through the view, is `Intended` on its own bridge and nothing on the others. */
  lemma ViewAfter(b: Bridge, p: Port, a: Assignment, br: string, v: Vlan, x: Port)
    requires p in b.ports && OneRowPerVlan(b.rows)
    ensures View(Run(b, p, a).rows, br, v, x) == ViewStep(View(b.rows, br, v, x), b, p, a, br, v, x)
  {
    FindAfter(b, p, a, br, v);
    var now, k := Run(b, p, a).rows, Find(Run(b, p, a).rows, br, v);
    if k < |now| {
      var from := RowAfter(b, p, a, k);
      if br == b.ports[p].bridge { CountsPlaced(from, br, p, a, x); }
    }
  }

  function ViewStep(m: Option<Counts>, b: Bridge, p: Port, a: Assignment, br: string, v: Vlan, x: Port): Option<Counts>
    requires p in b.ports
  {
    if br == b.ports[p].bridge then Intended(m, p, a, v, x) else m
  }

  /** Two scripts in a row for different ports: both take effect on the view. */
  lemma ViewAfterTwo(b: Bridge, p: Port, a: Assignment, q: Port, c: Assignment, br: string, v: Vlan, x: Port)
    requires p in b.ports && q in b.ports && p != q && OneRowPerVlan(b.rows)
    ensures View(Run(Run(b, p, a), q, c).rows, br, v, x)
         == ViewStep(ViewStep(View(b.rows, br, v, x), b, p, a, br, v, x), b, q, c, br, v, x)
  {
    RunPlaces(b, p, a);
    RunPlaces(Run(b, p, a), q, c);
    ViewAfter(b, p, a, br, v, x);
    ViewAfter(Run(b, p, a), q, c, br, v, x);
  }

  lemma ViewStepsCommute(m: Option<Counts>, b: Bridge, p: Port, a: Assignment, q: Port, c: Assignment, br: string,
                         v: Vlan, x: Port)
    requires p in b.ports && q in b.ports && p != q
    ensures ViewStep(ViewStep(m, b, p, a, br, v, x), b, q, c, br, v, x)
         == ViewStep(ViewStep(m, b, q, c, br, v, x), b, p, a, br, v, x)
  {
  }

  /** Scripts for different ports commute, up to the order of rows and lists. */
  lemma PortsCommute(b: Bridge, p: Port, a: Assignment, q: Port, c: Assignment, br: string, v: Vlan, x: Port)
    requires p in b.ports && q in b.ports && p != q && OneRowPerVlan(b.rows)
    ensures View(Run(Run(b, p, a), q, c).rows, br, v, x) == View(Run(Run(b, q, c), p, a).rows, br, v, x)
    ensures Run(Run(b, p, a), q, c).ports == Run(Run(b, q, c), p, a).ports
  {
    var m := View(b.rows, br, v, x);
    ViewStepsCommute(m, b, p, a, q, c, br, v, x);
    assert View(Run(Run(b, p, a), q, c).rows, br, v, x)
        == ViewStep(ViewStep(m, b, p, a, br, v, x), b, q, c, br, v, x) by { ViewAfterTwo(b, p, a, q, c, br, v, x); }
    assert View(Run(Run(b, q, c), p, a).rows, br, v, x)
        == ViewStep(ViewStep(m, b, q, c, br, v, x), b, p, a, br, v, x) by { ViewAfterTwo(b, q, c, p, a, br, v, x); }
    PortsEndEqual(b, p, a, q, c);
  }

  lemma PortsEndEqual(b: Bridge, p: Port, a: Assignment, q: Port, c: Assignment)
    requires p in b.ports && q in b.ports && p != q && OneRowPerVlan(b.rows)
    ensures Run(Run(b, p, a), q, c).ports == Run(Run(b, q, c), p, a).ports
  {
    PortsAfterTwo(b, p, a, q, c);
    PortsAfterTwo(b, q, c, p, a);
  }

  lemma PortsAfterTwo(b: Bridge, p: Port, a: Assignment, q: Port, c: Assignment)
    requires p in b.ports && q in b.ports && p != q && OneRowPerVlan(b.rows)
    ensures Run(Run(b, p, a), q, c).ports == b.ports[p := PortAfter(b, p, a)][q := PortAfter(b, q, c)]
  {
    PortsAfterOne(b, p, a);
    PortsAfterOne(Run(b, p, a), q, c);
  }

  lemma PortsAfterOne(b: Bridge, p: Port, a: Assignment)
    requires p in b.ports && OneRowPerVlan(b.rows)
    ensures Run(b, p, a).ports == b.ports[p := PortAfter(b, p, a)] && OneRowPerVlan(Run(b, p, a).rows)
  {
    RunPlaces(b, p, a);
  }
}
