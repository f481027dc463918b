/** Two whole trunk requests for one Aruba switch at the same time: each is a loop over the configured VLANs with a read
    and a write for every one, and the requests of the two loops come in any order. */
module ArubaRequests {
  import opened Prelude
  import B = ArubaBitmap
  import opened ArubaTrunk
  import opened ArubaInterleaving

  datatype Task = Task(port: BridgePort, allowed: seq<Vlan>)

  datatype Tasks = Tasks(first: Task, second: Task)

  function TaskOf(q: Tasks, w: Who): Task {
    if w.First? then q.first else q.second
  }

  /** What a request writes for one VLAN. */
  function WriteFor(t: Task, v: Vlan): Write {
    Write(t.port, Allows(t.allowed, v), true)
  }

  function PairFor(q: Tasks, v: Vlan): Pair {
    Pair(WriteFor(q.first, v), WriteFor(q.second, v))
  }

  /** A loop: how many VLANs are through, the row it holds of the next one, and for every read so far whether it came
      after the other request's write of that VLAN. */
  datatype Loop = Loop(through: nat, held: Option<Row>, late: seq<bool>)

  /** The table and both loops; `last` is who wrote a VLAN last, by its place in the list. */
  datatype State = State(rows: Rows, first: Loop, second: Loop, last: map<nat, Who>)

  datatype Request = Read(who: Who) | Save(who: Who)

  function LoopOf(s: State, w: Who): Loop {
    if w.First? then s.first else s.second
  }

  function WithLoop(s: State, w: Who, l: Loop): State {
    if w.First? then s.(first := l) else s.(second := l)
  }

  predicate Possible(vlans: seq<Vlan>, s: State, e: Request) {
    var l := LoopOf(s, e.who);
    l.through < |vlans| && if e.Read? then l.held.None? else l.held.Some?
  }

  function Next(vlans: seq<Vlan>, q: Tasks, s: State, e: Request): State
    requires Possible(vlans, s, e)
  {
    var w, l := e.who, LoopOf(s, e.who);
    var k, v := l.through, vlans[l.through];
    match e
    case Read(_) =>
      WithLoop(s, w, l.(held := Some(RowOf(s.rows, v)), late := l.late + [LoopOf(s, Other(w)).through > k]))
    case Save(_) =>
      WithLoop(s, w, l.(through := k + 1, held := None))
        .(rows := s.rows[v := Written(l.held.value, WriteFor(TaskOf(q, w), v))], last := s.last[k := w])
  }

  datatype Course = Starts(rows: Rows) | Goes(before: Course, request: Request)

  ghost predicate Proper(vlans: seq<Vlan>, q: Tasks, c: Course)
    decreases c, 0
  {
    c.Goes? ==> Proper(vlans, q, c.before) && Possible(vlans, Reached(vlans, q, c.before), c.request)
  }

  ghost function Reached(vlans: seq<Vlan>, q: Tasks, c: Course): State
    requires Proper(vlans, q, c)
    decreases c, 1
  {
    match c
    case Starts(rows) => State(rows, Loop(0, None, []), Loop(0, None, []), map[])
    case Goes(b, e) => Next(vlans, q, Reached(vlans, q, b), e)
  }

  function FirstRows(c: Course): Rows {
    match c
    case Starts(rows) => rows
    case Goes(b, _) => FirstRows(b)
  }

  ghost predicate Distinct(vlans: seq<Vlan>) {
    forall i, j :: 0 <= i < j < |vlans| ==> vlans[i] != vlans[j]
  }

  // ---------------------------------------------------------------- one VLAN of it is two single writes

  predicate LoopSound(vlans: seq<Vlan>, l: Loop) {
    && l.through <= |vlans| && (l.held.Some? ==> l.through < |vlans|)
    && |l.late| == l.through + if l.held.Some? then 1 else 0
  }

  predicate Sound(vlans: seq<Vlan>, s: State) {
    LoopSound(vlans, s.first) && LoopSound(vlans, s.second)
  }

  function PhaseAt(l: Loop, k: nat): Phase
    requires |l.late| == l.through + if l.held.Some? then 1 else 0
  {
    if k < l.through then Through(l.late[k])
    else if k == l.through && l.held.Some? then Holding(l.held.value, l.late[k])
    else Waiting
  }

  /** What the two requests and the table are for the VLAN in place `k`. */
  function CellAt(vlans: seq<Vlan>, s: State, k: nat): Cell
    requires Sound(vlans, s) && k < |vlans|
  {
    Cell(RowOf(s.rows, vlans[k]), PhaseAt(s.first, k), PhaseAt(s.second, k), if k in s.last then s.last[k] else First)
  }

  function EventOf(e: Request): Event {
    if e.Read? then ReadRow(e.who) else WriteRow(e.who)
  }

  lemma ReadProjects(vlans: seq<Vlan>, q: Tasks, s: State, w: Who, k: nat)
    requires Sound(vlans, s) && Possible(vlans, s, Read(w)) && k < |vlans|
    ensures Sound(vlans, Next(vlans, q, s, Read(w)))
    ensures var c := CellAt(vlans, s, k);
            if k == LoopOf(s, w).through then
              && Enabled(c, ReadRow(w))
              && CellAt(vlans, Next(vlans, q, s, Read(w)), k) == Step(PairFor(q, vlans[k]), c, ReadRow(w))
            else CellAt(vlans, Next(vlans, q, s, Read(w)), k) == c
  {
  }

  lemma SaveProjects(vlans: seq<Vlan>, q: Tasks, s: State, w: Who, k: nat)
    requires Sound(vlans, s) && Possible(vlans, s, Save(w)) && Distinct(vlans) && k < |vlans|
    ensures Sound(vlans, Next(vlans, q, s, Save(w)))
    ensures var c := CellAt(vlans, s, k);
            if k == LoopOf(s, w).through then
              && Enabled(c, WriteRow(w))
              && CellAt(vlans, Next(vlans, q, s, Save(w)), k) == Step(PairFor(q, vlans[k]), c, WriteRow(w))
            else CellAt(vlans, Next(vlans, q, s, Save(w)), k) == c
  {
  }

  /** A step of a loop is a step on the VLAN it has reached, and nothing on any other. */
  lemma Projects(vlans: seq<Vlan>, q: Tasks, s: State, e: Request, k: nat)
    requires Sound(vlans, s) && Possible(vlans, s, e) && Distinct(vlans) && k < |vlans|
    ensures Sound(vlans, Next(vlans, q, s, e))
    ensures k == LoopOf(s, e.who).through ==>
              && Enabled(CellAt(vlans, s, k), EventOf(e))
              && CellAt(vlans, Next(vlans, q, s, e), k) == Step(PairFor(q, vlans[k]), CellAt(vlans, s, k), EventOf(e))
    ensures k != LoopOf(s, e.who).through ==> CellAt(vlans, Next(vlans, q, s, e), k) == CellAt(vlans, s, k)
  {
    match e
    case Read(w) => ReadProjects(vlans, q, s, w, k);
    case Save(w) => SaveProjects(vlans, q, s, w, k);
  }

  lemma {:induction false} CourseSound(vlans: seq<Vlan>, q: Tasks, c: Course)
    requires Proper(vlans, q, c)
    ensures Sound(vlans, Reached(vlans, q, c))
  {
    if c.Goes? {
      CourseSound(vlans, q, c.before);
    }
  }

  /** So for every VLAN there is a run of the two single writes that ends as the loops have it. */
  lemma {:induction false} ProjectedRun(vlans: seq<Vlan>, q: Tasks, c: Course, k: nat) returns (r: Run)
    requires Proper(vlans, q, c) && Distinct(vlans) && k < |vlans|
    ensures Sound(vlans, Reached(vlans, q, c))
    ensures Valid(PairFor(q, vlans[k]), r) && StartOf(r) == RowOf(FirstRows(c), vlans[k])
    ensures End(PairFor(q, vlans[k]), r) == CellAt(vlans, Reached(vlans, q, c), k)
  {
    CourseSound(vlans, q, c);
    match c
    case Starts(rows) => r := Begin(RowOf(rows, vlans[k]));
    case Goes(b, e) =>
      r := ProjectedRun(vlans, q, b, k);
      Projects(vlans, q, Reached(vlans, q, b), e, k);
      if k == LoopOf(Reached(vlans, q, b), e.who).through {
        r := Then(r, EventOf(e));
      }
  }

  lemma {:induction false} OutsideKept(vlans: seq<Vlan>, q: Tasks, c: Course, v: Vlan)
    requires Proper(vlans, q, c) && v !in vlans
    ensures RowOf(Reached(vlans, q, c).rows, v) == RowOf(FirstRows(c), v)
  {
    if c.Goes? {
      OutsideKept(vlans, q, c.before, v);
    }
  }

  // ---------------------------------------------------------------- when the end is that of some order

  ghost predicate Complete(vlans: seq<Vlan>, q: Tasks, c: Course) {
    Proper(vlans, q, c) && Reached(vlans, q, c).first.through == |vlans| == Reached(vlans, q, c).second.through
  }

  /** The same ports are members of the same VLANs. */
  ghost predicate SameTable(a: Rows, b: Rows) {
    forall v :: SameRow(RowOf(a, v), RowOf(b, v))
  }

  /** One whole request after the other. */
  function InTurn(rows: Rows, vlans: seq<Vlan>, t: Task, u: Task): Rows {
    TrunkRows(TrunkRows(rows, t.port, vlans, t.allowed), u.port, vlans, u.allowed)
  }

  ghost predicate Serial(vlans: seq<Vlan>, q: Tasks, rows0: Rows, rows: Rows) {
    SameTable(rows, InTurn(rows0, vlans, q.first, q.second)) || SameTable(rows, InTurn(rows0, vlans, q.second, q.first))
  }

  lemma InTurnRow(rows: Rows, vlans: seq<Vlan>, t: Task, u: Task, v: Vlan)
    ensures RowOf(InTurn(rows, vlans, t, u), v) ==
            if v in vlans then Written(Written(RowOf(rows, v), WriteFor(t, v)), WriteFor(u, v)) else RowOf(rows, v)
  {
    TrunkRow(rows, t.port, vlans, t.allowed, v);
    TrunkRow(TrunkRows(rows, t.port, vlans, t.allowed), u.port, vlans, u.allowed, v);
  }

  lemma Reflexive(r: Row)
    ensures SameRow(r, r)
  {
  }

  /** Tables agree if they agree on every VLAN of the list, where nothing else was written. */
  lemma SameTableIff(vlans: seq<Vlan>, q: Tasks, c: Course, t: Task, u: Task)
    requires Proper(vlans, q, c)
    ensures SameTable(Reached(vlans, q, c).rows, InTurn(FirstRows(c), vlans, t, u)) <==>
            forall k :: 0 <= k < |vlans| ==>
              SameRow(RowOf(Reached(vlans, q, c).rows, vlans[k]), RowOf(InTurn(FirstRows(c), vlans, t, u), vlans[k]))
  {
    var rows, serial := Reached(vlans, q, c).rows, InTurn(FirstRows(c), vlans, t, u);
    if forall k :: 0 <= k < |vlans| ==> SameRow(RowOf(rows, vlans[k]), RowOf(serial, vlans[k])) {
      forall v
        ensures SameRow(RowOf(rows, v), RowOf(serial, v))
      {
        if v in vlans {
          var k :| 0 <= k < |vlans| && vlans[k] == v;
        } else {
          OutsideKept(vlans, q, c, v);
          InTurnRow(FirstRows(c), vlans, t, u, v);
          Reflexive(RowOf(rows, v));
        }
      }
    }
  }

  lemma OrdersAgree(r: Row, o: Write, q: Write)
    requires o.port != q.port
    ensures SameRow(Written(Written(r, o), q), Written(Written(r, q), o))
  {
    forall x: BridgePort
      ensures SameBits(Written(Written(r, o), q), Written(Written(r, q), o), x)
    {
      SerialBits(r, o, q, x);
      SerialBits(r, q, o, x);
    }
  }

  lemma SameRowSwaps(r: Row, s: Row, t: Row)
    requires SameRow(s, t)
    ensures SameRow(r, s) <==> SameRow(r, t)
  {
    if SameRow(r, s) {
      forall x: BridgePort
        ensures SameBits(r, t, x)
      {
        assert SameBits(r, s, x) && SameBits(s, t, x);
      }
    }
    if SameRow(r, t) {
      forall x: BridgePort
        ensures SameBits(r, s, x)
      {
        assert SameBits(r, t, x) && SameBits(s, t, x);
      }
    }
  }

  /** On the VLAN in place `k` nothing of the other's was lost. */
  predicate NothingLost(vlans: seq<Vlan>, q: Tasks, rows0: Rows, s: State, k: nat)
    requires Sound(vlans, s) && k < |vlans|
  {
    var cell := CellAt(vlans, s, k);
    || Late(cell.first) || Late(cell.second)
    || Already(RowOf(rows0, vlans[k]), WriteFor(TaskOf(q, Other(cell.last)), vlans[k]))
  }

  lemma PlaceSerialIff(vlans: seq<Vlan>, q: Tasks, c: Course, k: nat)
    requires Complete(vlans, q, c) && Distinct(vlans) && k < |vlans| && q.first.port != q.second.port
    ensures Sound(vlans, Reached(vlans, q, c))
    ensures var row := RowOf(Reached(vlans, q, c).rows, vlans[k]);
            && (SameRow(row, RowOf(InTurn(FirstRows(c), vlans, q.first, q.second), vlans[k])) <==>
                  NothingLost(vlans, q, FirstRows(c), Reached(vlans, q, c), k))
            && (SameRow(row, RowOf(InTurn(FirstRows(c), vlans, q.second, q.first), vlans[k])) <==>
                  NothingLost(vlans, q, FirstRows(c), Reached(vlans, q, c), k))
  {
    var r := ProjectedRun(vlans, q, c, k);
    var p, row0, cell := PairFor(q, vlans[k]), RowOf(FirstRows(c), vlans[k]), CellAt(vlans, Reached(vlans, q, c), k);
    RunKnown(p, r);
    RowSerialIff(p, row0, cell);
    InTurnRow(FirstRows(c), vlans, q.first, q.second, vlans[k]);
    InTurnRow(FirstRows(c), vlans, q.second, q.first, vlans[k]);
    OrdersAgree(row0, p.first, p.second);
    SameRowSwaps(cell.row, Written(Written(row0, p.first), p.second), Written(Written(row0, p.second), p.first));
  }

  /** Trunk requests for different ports end as in some order, the one or the other, exactly if on every VLAN one read
      came after the other's write, or the port written first already had the bits it was to get. */
  lemma DifferentPortsSerialIff(vlans: seq<Vlan>, q: Tasks, c: Course)
    requires Complete(vlans, q, c) && Distinct(vlans) && q.first.port != q.second.port
    ensures Sound(vlans, Reached(vlans, q, c))
    ensures Serial(vlans, q, FirstRows(c), Reached(vlans, q, c).rows) <==>
            forall k :: 0 <= k < |vlans| ==> NothingLost(vlans, q, FirstRows(c), Reached(vlans, q, c), k)
  {
    CourseSound(vlans, q, c);
    SameTableIff(vlans, q, c, q.first, q.second);
    SameTableIff(vlans, q, c, q.second, q.first);
    forall k | 0 <= k < |vlans|
      ensures var row := RowOf(Reached(vlans, q, c).rows, vlans[k]);
              && (SameRow(row, RowOf(InTurn(FirstRows(c), vlans, q.first, q.second), vlans[k])) <==>
                    NothingLost(vlans, q, FirstRows(c), Reached(vlans, q, c), k))
              && (SameRow(row, RowOf(InTurn(FirstRows(c), vlans, q.second, q.first), vlans[k])) <==>
                    NothingLost(vlans, q, FirstRows(c), Reached(vlans, q, c), k))
    {
      PlaceSerialIff(vlans, q, c, k);
    }
  }

  // ---------------------------------------------------------------- two requests for one port

  predicate Agree(q: Tasks, v: Vlan) {
    Allows(q.first.allowed, v) == Allows(q.second.allowed, v)
  }

  /** Who wrote the VLAN in place `k` last. */
  function LastAt(s: State, k: nat): Who {
    if k in s.last then s.last[k] else First
  }

  lemma OnePortRow(row0: Row, p: Pair, cell: Cell, w: Who)
    requires Known(p, row0, cell) && cell.first.Through? && cell.second.Through?
    requires p.first.port == p.second.port && p.first.tagged == p.second.tagged
    ensures SameRow(cell.row, Written(Written(row0, Of(p, Other(w))), Of(p, w))) <==>
            cell.last == w || p.first.member == p.second.member
  {
    var serial, port := Written(Written(row0, Of(p, Other(w))), Of(p, w)), p.first.port;
    forall x: BridgePort
      ensures x != port ==> SameBits(cell.row, serial, x)
      ensures Already(cell.row, Of(p, cell.last)) && Already(serial, Of(p, w))
    {
      FinalBits(p, row0, cell, x);
      SerialBits(row0, Of(p, Other(w)), Of(p, w), x);
    }
    assert Already(cell.row, Of(p, cell.last)) && Already(serial, Of(p, w)) by {
      FinalBits(p, row0, cell, port);
      SerialBits(row0, Of(p, Other(w)), Of(p, w), port);
    }
    assert SameBits(cell.row, serial, port) <==> cell.last == w || p.first.member == p.second.member;
    if SameRow(cell.row, serial) {
      assert SameBits(cell.row, serial, port);
    }
  }

  lemma OnePortPlace(vlans: seq<Vlan>, q: Tasks, c: Course, k: nat, w: Who)
    requires Complete(vlans, q, c) && Distinct(vlans) && k < |vlans| && q.first.port == q.second.port
    ensures SameRow(RowOf(Reached(vlans, q, c).rows, vlans[k]),
                    RowOf(InTurn(FirstRows(c), vlans, TaskOf(q, Other(w)), TaskOf(q, w)), vlans[k])) <==>
            LastAt(Reached(vlans, q, c), k) == w || Agree(q, vlans[k])
  {
    var r := ProjectedRun(vlans, q, c, k);
    RunKnown(PairFor(q, vlans[k]), r);
    InTurnRow(FirstRows(c), vlans, TaskOf(q, Other(w)), TaskOf(q, w), vlans[k]);
    OnePortRow(RowOf(FirstRows(c), vlans[k]), PairFor(q, vlans[k]), CellAt(vlans, Reached(vlans, q, c), k), w);
  }

  /** One and the same request wrote last wherever the lists disagree. */
  ghost predicate OneHadTheLastWord(vlans: seq<Vlan>, q: Tasks, s: State, w: Who) {
    forall k :: 0 <= k < |vlans| && !Agree(q, vlans[k]) ==> LastAt(s, k) == w
  }

  lemma OnePortOrderIff(vlans: seq<Vlan>, q: Tasks, c: Course, w: Who)
    requires Complete(vlans, q, c) && Distinct(vlans) && q.first.port == q.second.port
    ensures SameTable(Reached(vlans, q, c).rows, InTurn(FirstRows(c), vlans, TaskOf(q, Other(w)), TaskOf(q, w))) <==>
            OneHadTheLastWord(vlans, q, Reached(vlans, q, c), w)
  {
    SameTableIff(vlans, q, c, TaskOf(q, Other(w)), TaskOf(q, w));
    forall k | 0 <= k < |vlans|
      ensures SameRow(RowOf(Reached(vlans, q, c).rows, vlans[k]),
                      RowOf(InTurn(FirstRows(c), vlans, TaskOf(q, Other(w)), TaskOf(q, w)), vlans[k])) <==>
              LastAt(Reached(vlans, q, c), k) == w || Agree(q, vlans[k])
    {
      OnePortPlace(vlans, q, c, k, w);
    }
  }

  /** Trunk requests for one port end as in some order exactly if one and the same of them wrote last on every VLAN that
      only one of the lists allows. */
  lemma OnePortSerialIff(vlans: seq<Vlan>, q: Tasks, c: Course)
    requires Complete(vlans, q, c) && Distinct(vlans) && q.first.port == q.second.port
    ensures Serial(vlans, q, FirstRows(c), Reached(vlans, q, c).rows) <==>
            exists w :: OneHadTheLastWord(vlans, q, Reached(vlans, q, c), w)
  {
    OnePortOrderIff(vlans, q, c, First);
    OnePortOrderIff(vlans, q, c, Second);
    if w :| OneHadTheLastWord(vlans, q, Reached(vlans, q, c), w) {
      assert w == First || w == Second;
    }
  }

  /** The port ends as the one that wrote last has it. */
  lemma LastWordBits(vlans: seq<Vlan>, q: Tasks, c: Course, k: nat)
    requires Complete(vlans, q, c) && Distinct(vlans) && k < |vlans| && q.first.port == q.second.port
    ensures B.Has(RowOf(Reached(vlans, q, c).rows, vlans[k]).egress, q.first.port) <==>
            Allows(TaskOf(q, LastAt(Reached(vlans, q, c), k)).allowed, vlans[k])
  {
    var r := ProjectedRun(vlans, q, c, k);
    RunKnown(PairFor(q, vlans[k]), r);
    FinalBits(PairFor(q, vlans[k]), StartOf(r), End(PairFor(q, vlans[k]), r), q.first.port);
  }

  /** A request reads and writes its next VLAN with nothing in between. */
  lemma Visit(vlans: seq<Vlan>, q: Tasks, c: Course, w: Who) returns (c': Course)
    requires Proper(vlans, q, c)
    requires LoopOf(Reached(vlans, q, c), w).through < |vlans| && LoopOf(Reached(vlans, q, c), w).held.None?
    ensures Proper(vlans, q, c') && FirstRows(c') == FirstRows(c)
    ensures var s, t := Reached(vlans, q, c), Reached(vlans, q, c');
            && t.last == s.last[LoopOf(s, w).through := w]
            && LoopOf(t, Other(w)) == LoopOf(s, Other(w))
            && LoopOf(t, w).through == LoopOf(s, w).through + 1 && LoopOf(t, w).held.None?
  {
    c' := Goes(Goes(c, Read(w)), Save(w));
  }

  /** One request for VLAN `u` and one for VLAN `w`, on one port: each has the last word on the other's VLAN, and the
      port ends in neither, which no order would do. */
  lemma NeitherVlan(rows: Rows, port: BridgePort, u: Vlan, w: Vlan) returns (c: Course)
    requires u != w
    ensures var vlans, q := [u, w], Tasks(Task(port, [u]), Task(port, [w]));
            && Complete(vlans, q, c) && FirstRows(c) == rows
            && !B.Has(RowOf(Reached(vlans, q, c).rows, u).egress, port)
            && !B.Has(RowOf(Reached(vlans, q, c).rows, w).egress, port)
            && !Serial(vlans, q, rows, Reached(vlans, q, c).rows)
  {
    var vlans, q := [u, w], Tasks(Task(port, [u]), Task(port, [w]));
    c := Crossing(vlans, q, rows);
    assert !Agree(q, vlans[0]) && !Agree(q, vlans[1]);
    OnePortSerialIff(vlans, q, c);
    LastWordBits(vlans, q, c, 0);
    LastWordBits(vlans, q, c, 1);
  }

  /** The first request has the last word on the second of two VLANs, and the second on the first. */
  lemma Crossing(vlans: seq<Vlan>, q: Tasks, rows: Rows) returns (c: Course)
    requires |vlans| == 2
    ensures Complete(vlans, q, c) && FirstRows(c) == rows
    ensures LastAt(Reached(vlans, q, c), 0) == Second && LastAt(Reached(vlans, q, c), 1) == First
  {
    c := Starts(rows);
    c := Visit(vlans, q, c, First);
    c := Visit(vlans, q, c, Second);
    c := Visit(vlans, q, c, Second);
    c := Visit(vlans, q, c, First);
  }
}
