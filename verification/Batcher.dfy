/** The buffered batch writer: pushes, timer ticks, explicit flushes and flush completions in any order. */
module Batcher {
  import opened Prelude

  datatype Limits = Limits(maxBatch: nat, maxBuffer: nat)

  /** A batch whose flush has ended, and whether it was written. */
  datatype Ended<T> = Ended(batch: seq<T>, ok: bool)

  /** The buffer and the batch in flight, and what has happened so far: every push, those accepted, every flush that has
      ended, and the number of items reported lost through `onError`. */
  datatype State<T> = State(buffer: seq<T>, inFlight: Option<seq<T>>, pushes: nat, accepted: seq<T>,
                            ended: seq<Ended<T>>, reported: nat)

  datatype Event<T> = Push(item: T) | FlushNow | FlushDone(ok: bool)

  predicate Enabled<T>(s: State<T>, e: Event<T>) {
    e.FlushDone? ==> s.inFlight.Some?
  }

  function Flush<T>(s: State<T>): State<T> {
    if s.inFlight.Some? || |s.buffer| == 0 then s else s.(buffer := [], inFlight := Some(s.buffer))
  }

  function Step<T>(s: State<T>, e: Event<T>, l: Limits): State<T>
    requires Enabled(s, e)
  {
    match e
    case Push(item) =>
      if |s.buffer| >= l.maxBuffer then s.(pushes := s.pushes + 1)
      else
        var t := s.(buffer := s.buffer + [item], pushes := s.pushes + 1, accepted := s.accepted + [item]);
        if |t.buffer| >= l.maxBatch then Flush(t) else t
    case FlushNow => Flush(s)
    case FlushDone(ok) =>
      var batch := s.inFlight.value;
      s.(inFlight := None, ended := s.ended + [Ended(batch, ok)], reported := s.reported + if ok then 0 else |batch|)
  }

  function Start<T>(): State<T> {
    State([], None, 0, [], [], 0)
  }

  /** A run: any events, each possible when it happens. */
  datatype Run<T> = Begin | Then(before: Run<T>, event: Event<T>)

  ghost predicate Valid<T>(r: Run<T>, l: Limits)
    decreases r, 0
  {
    r.Then? ==> Valid(r.before, l) && Enabled(End(r.before, l), r.event)
  }

  ghost function End<T>(r: Run<T>, l: Limits): State<T>
    requires Valid(r, l)
    decreases r, 1
  {
    match r
    case Begin => Start()
    case Then(before, e) => Step(End(before, l), e, l)
  }

  // ---------------------------------------------------------------- the imperative form

  /** The closure of `createBatcher`; `inFlight` is the batch its suspended flush holds. */
  class Closure<T> {
    const limits: Limits
    var buffer: seq<T>
    var flushing: bool
    var inFlight: seq<T>
    ghost var history: State<T>

    ghost predicate Consistent()
      reads this
    {
      history.buffer == buffer && history.inFlight == if flushing then Some(inFlight) else None
    }

    constructor (limits: Limits)
      ensures Consistent() && this.limits == limits && history == Start()
    {
      this.limits := limits;
      buffer, flushing, inFlight, history := [], false, [], Start();
    }

    method FlushNow()
      requires Consistent()
      modifies this
      ensures Consistent() && history == Step(old(history), Event.FlushNow, limits)
    {
      if flushing || |buffer| == 0 {
        return;
      }
      flushing := true;
      inFlight := buffer;
      buffer := [];
      history := history.(buffer := [], inFlight := Some(inFlight));
    }

    method Push(item: T)
      requires Consistent()
      modifies this
      ensures Consistent() && history == Step(old(history), Event.Push(item), limits)
    {
      history := history.(pushes := history.pushes + 1);
      if |buffer| >= limits.maxBuffer {
        return;
      }
      buffer := buffer + [item];
      history := history.(buffer := buffer, accepted := history.accepted + [item]);
      if |buffer| >= limits.maxBatch {
        FlushNow();
      }
    }

    /** The rest of `flushNow` once the flush has settled: report a failure, and let the next flush start. */
    method FlushDone(ok: bool) returns (lost: nat)
      requires Consistent() && flushing
      modifies this
      ensures Consistent() && history == Step(old(history), Event.FlushDone(ok), limits)
      ensures lost == history.reported - old(history).reported
    {
      lost := if ok then 0 else |inFlight|;
      flushing := false;
      history := history.(inFlight := None, ended := history.ended + [Ended(inFlight, ok)],
                          reported := history.reported + lost);
      inFlight := [];
    }
  }

  // ---------------------------------------------------------------- over every run

  /** The items of all batches that ended, in order. */
  function Items<T>(ended: seq<Ended<T>>): seq<T> {
    if ended == [] then [] else Items(ended[..|ended| - 1]) + ended[|ended| - 1].batch
  }

  /** How many items went to flushes that succeeded (or failed). */
  function Total<T>(ended: seq<Ended<T>>, ok: bool): nat {
    if ended == [] then 0
    else Total(ended[..|ended| - 1], ok) + if ended[|ended| - 1].ok == ok then |ended[|ended| - 1].batch| else 0
  }

  function InFlight<T>(s: State<T>): seq<T> {
    if s.inFlight.Some? then s.inFlight.value else []
  }

  /** Every accepted item is in exactly one place, in push order: an ended batch, the one in flight, or the buffer. */
  ghost predicate Conserved<T>(s: State<T>) {
    s.accepted == Items(s.ended) + InFlight(s) + s.buffer
  }

  ghost predicate Bounded<T>(s: State<T>, l: Limits) {
    && |s.buffer| <= l.maxBuffer
    && (s.inFlight.Some? ==> 0 < |s.inFlight.value| <= l.maxBuffer)
    && forall k :: 0 <= k < |s.ended| ==> 0 < |s.ended[k].batch| <= l.maxBuffer
  }

  /** Every item is accounted for: written, reported lost, on its way, or waiting. */
  ghost predicate Accounted<T>(s: State<T>) {
    && s.reported == Total(s.ended, false)
    && |s.accepted| == Total(s.ended, true) + s.reported + |InFlight(s)| + |s.buffer|
    && |s.accepted| <= s.pushes
  }

  ghost predicate Sound<T>(s: State<T>, l: Limits) {
    Conserved(s) && Bounded(s, l) && Accounted(s)
  }

  lemma FlushSound<T>(s: State<T>, l: Limits)
    requires Sound(s, l)
    ensures Sound(Flush(s), l)
  {
  }

  lemma AcceptSound<T>(s: State<T>, item: T, l: Limits)
    requires Sound(s, l) && |s.buffer| < l.maxBuffer
    ensures Sound(s.(buffer := s.buffer + [item], pushes := s.pushes + 1, accepted := s.accepted + [item]), l)
  {
  }

  lemma DoneSound<T>(s: State<T>, ok: bool, l: Limits)
    requires Sound(s, l) && s.inFlight.Some?
    ensures Sound(Step(s, FlushDone(ok), l), l)
  {
    var t := Step(s, FlushDone(ok), l);
    assert t.ended[..|t.ended| - 1] == s.ended;
  }

  lemma StepSound<T>(s: State<T>, e: Event<T>, l: Limits)
    requires Sound(s, l) && Enabled(s, e)
    ensures Sound(Step(s, e, l), l)
  {
    match e
    case Push(item) =>
      if |s.buffer| < l.maxBuffer {
        AcceptSound(s, item, l);
        FlushSound(s.(buffer := s.buffer + [item], pushes := s.pushes + 1, accepted := s.accepted + [item]), l);
      }
    case FlushNow => FlushSound(s, l);
    case FlushDone(ok) => DoneSound(s, ok, l);
  }

  /** Whatever the interleaving, nothing accepted is lost, repeated or reordered, no batch is empty or larger than the
      buffer may get, and every item is accounted for. */
  lemma {:induction false} RunConserves<T>(r: Run<T>, l: Limits)
    requires Valid(r, l)
    ensures Sound(End(r, l), l)
  {
    if r.Then? {
      RunConserves(r.before, l);
      StepSound(End(r.before, l), r.event, l);
    }
  }

  /** At most one flush is in flight: a second one starts only once the first has ended, and what is in flight does not
      change until then. */
  lemma OneFlushAtATime<T>(s: State<T>, e: Event<T>, l: Limits)
    requires Enabled(s, e) && s.inFlight.Some? && !e.FlushDone?
    ensures Step(s, e, l).inFlight == s.inFlight && Step(s, e, l).ended == s.ended
  {
  }

  /** With no flush in flight a tick takes out the whole buffer, however little is in it; and so does the push that
      completes a batch. */
  lemma TickTakesTheBuffer<T>(s: State<T>, item: T, l: Limits)
    requires s.inFlight.None?
    ensures var t := Step(s, FlushNow, l);
            t.buffer == [] && InFlight(t) == s.buffer && (t.inFlight.Some? <==> s.buffer != [])
    ensures |s.buffer| < l.maxBuffer ==>
              var t := Step(s, Push(item), l);
              if |s.buffer| + 1 >= l.maxBatch then t.buffer == [] && InFlight(t) == s.buffer + [item]
              else t.inFlight.None? && t.buffer == s.buffer + [item]
  {
  }

  /** How many pushes in a run found the buffer full. */
  ghost function Shed<T>(r: Run<T>, l: Limits): nat
    requires Valid(r, l)
  {
    if r.Begin? then 0
    else Shed(r.before, l) + if r.event.Push? && |End(r.before, l).buffer| >= l.maxBuffer then 1 else 0
  }

  /** An item is shed exactly when it meets a full buffer; all others are accepted. */
  lemma {:induction false} PushesSplit<T>(r: Run<T>, l: Limits)
    requires Valid(r, l)
    ensures End(r, l).pushes == |End(r, l).accepted| + Shed(r, l)
  {
    if r.Then? {
      PushesSplit(r.before, l);
    }
  }

  /** If a batch fits in the buffer, nothing is shed as long as every push finds no flush in flight: a full batch is
      taken out at once. */
  lemma {:induction false} NoFlushInFlightNoLoss<T>(r: Run<T>, l: Limits)
    requires Valid(r, l) && 0 < l.maxBatch <= l.maxBuffer && PushesMeetNoFlush(r, l)
    ensures Shed(r, l) == 0 && |End(r, l).buffer| < l.maxBatch
  {
    if r.Then? {
      NoFlushInFlightNoLoss(r.before, l);
    }
  }

  ghost predicate PushesMeetNoFlush<T>(r: Run<T>, l: Limits)
    requires Valid(r, l)
  {
    r.Then? ==> PushesMeetNoFlush(r.before, l) && (r.event.Push? ==> End(r.before, l).inFlight.None?)
  }

  /** The state after a number of pushes in a row. */
  function PushAll<T>(s: State<T>, items: seq<T>, l: Limits): State<T> {
    if items == [] then s else Step(PushAll(s, items[..|items| - 1], l), Push(items[|items| - 1]), l)
  }

  /** But the end of a flush starts none. If the buffer is full by then it stays full: every push is shed although no
      flush is in flight, until the next tick takes the buffer out. */
  lemma {:induction false} FullBufferWaitsForTick<T>(s: State<T>, ok: bool, items: seq<T>, l: Limits)
    requires s.inFlight.Some? && |s.buffer| >= l.maxBuffer && s.buffer != []
    ensures var idle := Step(s, FlushDone(ok), l);
            && idle.inFlight.None? && idle.buffer == s.buffer
            && PushAll(idle, items, l) == idle.(pushes := idle.pushes + |items|)
            && Step(PushAll(idle, items, l), FlushNow, l).buffer == []
            && Step(PushAll(idle, items, l), FlushNow, l).inFlight == Some(s.buffer)
  {
    if items != [] {
      FullBufferWaitsForTick(s, ok, items[..|items| - 1], l);
    }
  }

  lemma {:induction false} RunOn<T>(r: Run<T>, items: seq<T>, l: Limits) returns (r': Run<T>)
    requires Valid(r, l)
    ensures Valid(r', l) && End(r', l) == PushAll(End(r, l), items, l)
  {
    if items == [] {
      r' := r;
    } else {
      r' := RunOn(r, items[..|items| - 1], l);
      r' := Then(r', Push(items[|items| - 1]));
    }
  }

  /** Pushes into a buffer with room and a flush in flight only fill it. */
  lemma {:induction false} FillsUp<T>(s: State<T>, items: seq<T>, l: Limits)
    requires s.inFlight.Some? && |s.buffer| + |items| <= l.maxBuffer
    ensures PushAll(s, items, l).buffer == s.buffer + items && PushAll(s, items, l).inFlight == s.inFlight
  {
    if items == [] {
      assert s.buffer + items == s.buffer;
    } else {
      FillsUp(s, items[..|items| - 1], l);
      assert items == items[..|items| - 1] + [items[|items| - 1]];
    }
  }

  /** Under any limits a run gets there: a full buffer with a flush in flight. */
  lemma FullBufferReached<T>(x: T, l: Limits) returns (r: Run<T>)
    requires l.maxBuffer > 0
    ensures Valid(r, l) && End(r, l).inFlight.Some? && |End(r, l).buffer| == l.maxBuffer
  {
    var first: Run<T> := Begin;
    var r1 := Then(first, Push(x));
    assert End(first, l) == Start<T>() && Valid(r1, l);
    assert End(r1, l) == Step(Start<T>(), Push(x), l);
    assert [] + [x] == [x];
    r := Then(r1, FlushNow);
    assert End(r, l) == Step(End(r1, l), FlushNow, l);
    var s := End(r, l);
    assert s.buffer == [] && s.inFlight.Some?;
    var items := seq(l.maxBuffer, _ => x);
    FillsUp(s, items, l);
    r := RunOn(r, items, l);
  }
}
