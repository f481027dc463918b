/** Two requests that write one VLAN's row on an Aruba switch at the same time: each reads the row and writes it back
    later, and nothing keeps the other from writing in between. */
module ArubaInterleaving {
  import opened Prelude
  import B = ArubaBitmap
  import opened ArubaTrunk

  /** What one request does to the row. */
  datatype Write = Write(port: BridgePort, member: bool, tagged: bool)

  function Written(r: Row, q: Write): Row {
    WithMember(r, q.port, q.member, q.tagged)
  }

  /** A request that has not read yet, one that holds the row it read, and one that has written. `late` tells whether
      its read came after the other's write. */
  datatype Phase = Waiting | Holding(row: Row, late: bool) | Through(late: bool)

  datatype Who = First | Second

  /** The row and both requests; `last` is who wrote last. */
  datatype Cell = Cell(row: Row, first: Phase, second: Phase, last: Who)

  datatype Event = ReadRow(who: Who) | WriteRow(who: Who)

  function PhaseOf(s: Cell, w: Who): Phase {
    if w.First? then s.first else s.second
  }

  function WithPhase(s: Cell, w: Who, ph: Phase): Cell {
    if w.First? then s.(first := ph) else s.(second := ph)
  }

  function Other(w: Who): Who {
    if w.First? then Second else First
  }

  /** What the two requests do. */
  datatype Pair = Pair(first: Write, second: Write)

  function Of(p: Pair, w: Who): Write {
    if w.First? then p.first else p.second
  }

  predicate Enabled(s: Cell, e: Event) {
    match e
    case ReadRow(w) => PhaseOf(s, w).Waiting?
    case WriteRow(w) => PhaseOf(s, w).Holding?
  }

  function Step(p: Pair, s: Cell, e: Event): Cell
    requires Enabled(s, e)
  {
    match e
    case ReadRow(w) => WithPhase(s, w, Holding(s.row, PhaseOf(s, Other(w)).Through?))
    case WriteRow(w) =>
      var held := PhaseOf(s, w);
      WithPhase(s, w, Through(held.late)).(row := Written(held.row, Of(p, w)), last := w)
  }

  datatype Run = Begin(row: Row) | Then(before: Run, event: Event)

  ghost predicate Valid(p: Pair, r: Run)
    decreases r, 0
  {
    r.Then? ==> Valid(p, r.before) && Enabled(End(p, r.before), r.event)
  }

  ghost function End(p: Pair, r: Run): Cell
    requires Valid(p, r)
    decreases r, 1
  {
    match r
    case Begin(row) => Cell(row, Waiting, Waiting, First)
    case Then(b, e) => Step(p, End(p, b), e)
  }

  function StartOf(r: Run): Row {
    match r
    case Begin(row) => row
    case Then(b, _) => StartOf(b)
  }

  // ---------------------------------------------------------------- what the row is, at every point

  predicate Late(ph: Phase) {
    !ph.Waiting? && ph.late
  }

  /** The row once one request is through: as if it had been alone. Once both are, the last one's bits stand on what it
      read: the other's row if it read late, and the original row if not. */
  predicate Known(p: Pair, row0: Row, s: Cell) {
    && (s.first.Holding? ==> s.first.row == if s.first.late then Written(row0, p.second) else row0)
    && (s.second.Holding? ==> s.second.row == if s.second.late then Written(row0, p.first) else row0)
    && (!s.first.Through? && !s.second.Through? ==> s.row == row0 && !Late(s.first) && !Late(s.second))
    && (s.first.Through? && !s.second.Through? ==> s.row == Written(row0, p.first) && !Late(s.first))
    && (s.second.Through? && !s.first.Through? ==> s.row == Written(row0, p.second) && !Late(s.second))
    && (s.first.Through? && s.second.Through? ==> s.row == Final(p, row0, s))
    && !(Late(s.first) && Late(s.second))
    && (s.first.Through? && s.second.Through? && Late(s.first) ==> s.last == First)
    && (s.first.Through? && s.second.Through? && Late(s.second) ==> s.last == Second)
  }

  function Final(p: Pair, row0: Row, s: Cell): Row {
    var q, o := Of(p, s.last), Of(p, Other(s.last));
    Written(if Late(PhaseOf(s, s.last)) then Written(row0, o) else row0, q)
  }

  lemma ReadKnown(p: Pair, row0: Row, s: Cell, w: Who)
    requires Known(p, row0, s) && Enabled(s, ReadRow(w))
    ensures Known(p, row0, Step(p, s, ReadRow(w)))
  {
  }

  lemma WriteKnown(p: Pair, row0: Row, s: Cell, w: Who)
    requires Known(p, row0, s) && Enabled(s, WriteRow(w))
    ensures Known(p, row0, Step(p, s, WriteRow(w)))
  {
  }

  lemma {:induction false} RunKnown(p: Pair, r: Run)
    requires Valid(p, r)
    ensures Known(p, StartOf(r), End(p, r))
  {
    if r.Then? {
      RunKnown(p, r.before);
      match r.event
      case ReadRow(w) => ReadKnown(p, StartOf(r.before), End(p, r.before), w);
      case WriteRow(w) => WriteKnown(p, StartOf(r.before), End(p, r.before), w);
    }
  }

  // ---------------------------------------------------------------- when nothing is lost

  predicate SameBits(r: Row, s: Row, q: BridgePort) {
    B.Has(r.egress, q) == B.Has(s.egress, q) && B.Has(r.untagged, q) == B.Has(s.untagged, q)
  }

  /** The same ports are members. */
  ghost predicate SameRow(r: Row, s: Row) {
    forall q: BridgePort :: SameBits(r, s, q)
  }

  /** The port already has the bits the request is to give it. */
  predicate Already(r: Row, q: Write) {
    B.Has(r.egress, q.port) == q.member && B.Has(r.untagged, q.port) == (q.member && !q.tagged)
  }

  lemma WrittenBits(r: Row, q: Write, x: BridgePort)
    ensures x != q.port ==> SameBits(Written(r, q), r, x)
    ensures Already(Written(r, q), q)
  {
    MemberWritten(r, q.port, q.member, q.tagged, x);
    MemberWritten(r, q.port, q.member, q.tagged, q.port);
  }

  /** The bits of every port once both are through: the last one's own are as it wrote them; those of the other's port
      are as it wrote them if the last one read late, and else as they were. */
  lemma FinalBits(p: Pair, row0: Row, s: Cell, x: BridgePort)
    requires Known(p, row0, s) && s.first.Through? && s.second.Through?
    ensures Already(s.row, Of(p, s.last))
    ensures x != p.first.port && x != p.second.port ==> SameBits(s.row, row0, x)
    ensures p.first.port != p.second.port ==>
              var o := Of(p, Other(s.last));
              if Late(s.first) || Late(s.second) then Already(s.row, o) else SameBits(s.row, row0, o.port)
  {
    var q, o := Of(p, s.last), Of(p, Other(s.last));
    WrittenBits(row0, o, x);
    WrittenBits(row0, o, o.port);
    WrittenBits(row0, q, x);
    WrittenBits(row0, q, o.port);
    WrittenBits(Written(row0, o), q, x);
    WrittenBits(Written(row0, o), q, o.port);
  }

  /** Both writes on one row, one after the other: each port has what was written to it last. */
  lemma SerialBits(row0: Row, o: Write, q: Write, x: BridgePort)
    ensures Already(Written(Written(row0, o), q), q)
    ensures o.port != q.port ==> Already(Written(Written(row0, o), q), o)
    ensures x != o.port && x != q.port ==> SameBits(Written(Written(row0, o), q), row0, x)
  {
    WrittenBits(row0, o, x);
    WrittenBits(Written(row0, o), q, x);
    WrittenBits(Written(row0, o), q, o.port);
    WrittenBits(row0, o, o.port);
  }

  lemma SameAlready(r: Row, s: Row, q: Write)
    requires Already(s, q)
    ensures SameBits(r, s, q.port) <==> Already(r, q)
  {
  }

  /** On one row, interleaved requests end as one after the other would, in the order in which they wrote, exactly if
      one read after the other had written, or they are about the same port, or the port of the one that wrote first
      already had the bits it was to get: otherwise that port's bits end as they were before. */
  lemma RowSerialIff(p: Pair, row0: Row, s: Cell)
    requires Known(p, row0, s) && s.first.Through? && s.second.Through?
    ensures var q, o := Of(p, s.last), Of(p, Other(s.last));
            SameRow(s.row, Written(Written(row0, o), q)) <==>
            Late(s.first) || Late(s.second) || p.first.port == p.second.port || Already(row0, o)
  {
    var q, o := Of(p, s.last), Of(p, Other(s.last));
    var serial := Written(Written(row0, o), q);
    forall x: BridgePort
      ensures x != o.port ==> SameBits(s.row, serial, x)
      ensures SameBits(s.row, serial, o.port) <==>
              Late(s.first) || Late(s.second) || o.port == q.port || Already(row0, o)
    {
      FinalBits(p, row0, s, x);
      SerialBits(row0, o, q, x);
      SameAlready(s.row, serial, q);
      if o.port != q.port {
        SameAlready(s.row, serial, o);
      }
    }
    if SameRow(s.row, serial) {
      assert SameBits(s.row, serial, o.port);
    }
  }

  /** Read, read, write, write: the first one's port ends as it was. */
  lemma LostUpdate(p: Pair, row0: Row) returns (r: Run)
    requires p.first.port != p.second.port
    ensures Valid(p, r) && StartOf(r) == row0 && End(p, r).first.Through? && End(p, r).second.Through?
    ensures SameBits(End(p, r).row, row0, p.first.port)
  {
    r := Begin(row0);
    var s := Cell(row0, Waiting, Waiting, First);
    r, s := Go(p, r, s, ReadRow(First));
    r, s := Go(p, r, s, ReadRow(Second));
    r, s := Go(p, r, s, WriteRow(First));
    r, s := Go(p, r, s, WriteRow(Second));
    WrittenBits(row0, p.second, p.first.port);
  }

  lemma Go(p: Pair, r: Run, s: Cell, e: Event) returns (r': Run, t: Cell)
    requires Valid(p, r) && End(p, r) == s && Enabled(s, e)
    ensures Valid(p, r') && End(p, r') == t && t == Step(p, s, e) && StartOf(r') == StartOf(r)
  {
    r' := Then(r, e);
    t := Step(p, s, e);
  }
}
