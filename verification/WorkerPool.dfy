/** `forEachLimit`: a bounded number of workers taking items off one shared queue, in every interleaving. */
module WorkerPool {
  import opened Prelude

  /** A worker at the top of its loop, one waiting for `fn` on the item of this index, and one that has returned. */
  datatype Worker = Looking | Busy(item: nat) | Returned

  /** One item over: its index, and whether `fn` resolved; if not, `onError` was called with it. */
  datatype Outcome = Outcome(item: nat, ok: bool)

  /** The first `taken` of `count` items have been shifted off the queue. */
  datatype State = State(count: nat, taken: nat, workers: seq<Worker>, outcomes: seq<Outcome>)

  datatype Event = Look(w: nat) | Settle(w: nat, ok: bool)

  function Initial(count: nat, limit: nat): State {
    State(count, 0, seq(if limit < count then limit else count, _ => Looking), [])
  }

  predicate Enabled(s: State, e: Event) {
    match e
    case Look(w) => w < |s.workers| && s.workers[w].Looking?
    case Settle(w, _) => w < |s.workers| && s.workers[w].Busy?
  }

  function Step(s: State, e: Event): State
    requires Enabled(s, e)
  {
    match e
    case Look(w) =>
      if s.taken < s.count then s.(taken := s.taken + 1, workers := s.workers[w := Busy(s.taken)])
      else s.(workers := s.workers[w := Returned])
    case Settle(w, ok) =>
      s.(workers := s.workers[w := Looking], outcomes := s.outcomes + [Outcome(s.workers[w].item, ok)])
  }

  datatype Run = Start | Then(before: Run, event: Event)

  ghost predicate Valid(r: Run, s0: State)
    decreases r, 0
  {
    r.Then? ==> Valid(r.before, s0) && Enabled(End(r.before, s0), r.event)
  }

  ghost function End(r: Run, s0: State): State
    requires Valid(r, s0)
    decreases r, 1
  {
    match r
    case Start => s0
    case Then(b, e) => Step(End(b, s0), e)
  }

  // ---------------------------------------------------------------- the shared closure

  /** What the workers share: the queue, and a slot per worker; each turn is one worker's code up to its next await. */
  class Workers<T(==)> {
    const items: seq<T>
    const slots: array<Worker>
    var queue: seq<T>
    ghost var history: State

    ghost predicate Consistent()
      reads this, slots
    {
      && history.workers == slots[..]
      && history.count == |items| && history.taken <= |items|
      && queue == items[history.taken..]
    }

    constructor (items: seq<T>, limit: nat)
      ensures Consistent() && fresh(slots) && this.items == items && history == Initial(|items|, limit)
      ensures slots.Length == if limit < |items| then limit else |items|
      ensures forall w :: 0 <= w < slots.Length ==> slots[w].Looking?
    {
      this.items := items;
      var n := if limit < |items| then limit else |items|;
      slots := new Worker[n](_ => Looking);
      queue := items;
      history := Initial(|items|, limit);
      new;
      assert slots[..] == history.workers;
    }

    /** `while (queue.length) { const item = queue.shift()!; ... }` up to the call of `fn`. */
    method Look(w: nat) returns (item: Option<T>)
      requires Consistent() && w < slots.Length && slots[w].Looking?
      modifies this`queue, this`history, slots
      ensures Consistent() && history == Step(old(history), Event.Look(w))
      ensures item == if old(history).taken < |items| then Some(items[old(history).taken]) else None
    {
      if |queue| > 0 {
        item := Some(queue[0]);
        queue := queue[1..];
        slots[w] := Busy(|items| - |queue| - 1);
      } else {
        item := None;
        slots[w] := Returned;
      }
      history := Step(history, Event.Look(w));
    }

    /** `fn` has settled: a failure goes to `onError`, and the worker looks for the next item. */
    method Settle(w: nat, ok: bool) returns (failed: Option<T>)
      requires Consistent() && w < slots.Length && slots[w].Busy? && slots[w].item < |items|
      modifies this`history, slots
      ensures Consistent() && history == Step(old(history), Event.Settle(w, ok))
      ensures failed == if ok then None else Some(items[old(history).workers[w].item])
    {
      failed := if ok then None else Some(items[slots[w].item]);
      slots[w] := Looking;
      history := Step(history, Event.Settle(w, ok));
    }
  }

  // ---------------------------------------------------------------- every item once

  ghost predicate InFlight(s: State, k: nat, w: nat) {
    w < |s.workers| && s.workers[w] == Busy(k)
  }

  ghost predicate Over(s: State, k: nat, i: nat) {
    i < |s.outcomes| && s.outcomes[i].item == k
  }

  /** Item k is with one worker and nowhere else. */
  ghost predicate Held(s: State, k: nat) {
    exists w :: InFlight(s, k, w)
  }

  ghost predicate Done(s: State, k: nat) {
    exists i :: Over(s, k, i)
  }

  ghost predicate Once(s: State) {
    && s.taken <= s.count
    && (forall k: nat :: k < s.taken <==> Held(s, k) || Done(s, k))
    && (forall k: nat :: !(Held(s, k) && Done(s, k)))
    && (forall k: nat, v: nat, w: nat :: InFlight(s, k, v) && InFlight(s, k, w) ==> v == w)
    && (forall k: nat, i: nat, j: nat :: Over(s, k, i) && Over(s, k, j) ==> i == j)
    && (forall w :: 0 <= w < |s.workers| && s.workers[w].Returned? ==> s.taken == s.count)
  }

  lemma LookOnce(s: State, w: nat)
    requires Once(s) && Enabled(s, Look(w))
    ensures Once(Step(s, Look(w)))
  {
    var t := Step(s, Look(w));
    forall k: nat, v: nat
      ensures InFlight(t, k, v) <==> if v == w then k == s.taken < s.count else InFlight(s, k, v)
    {
    }
    forall k: nat, i: nat
      ensures Over(t, k, i) <==> Over(s, k, i)
    {
    }
    forall k: nat
      ensures Held(t, k) <==> Held(s, k) || (k == s.taken < s.count)
      ensures Done(t, k) <==> Done(s, k)
    {
      if Held(s, k) {
        var v :| InFlight(s, k, v);
        assert InFlight(t, k, v);
      }
      if k == s.taken < s.count {
        assert InFlight(t, k, w);
      }
      if Held(t, k) {
        var v :| InFlight(t, k, v);
        assert v != w ==> InFlight(s, k, v);
      }
      if Done(s, k) {
        var i :| Over(s, k, i);
        assert Over(t, k, i);
      }
      if Done(t, k) {
        var i :| Over(t, k, i);
        assert Over(s, k, i);
      }
    }
    forall v: nat
      ensures !InFlight(s, s.taken, v)
    {
      if InFlight(s, s.taken, v) {
        assert Held(s, s.taken);
      }
    }
  }

  lemma SettleOnce(s: State, w: nat, ok: bool)
    requires Once(s) && Enabled(s, Settle(w, ok))
    ensures Once(Step(s, Settle(w, ok)))
  {
    var t, item := Step(s, Settle(w, ok)), s.workers[w].item;
    assert InFlight(s, item, w) && Over(t, item, |s.outcomes|);
    assert Held(s, item) && !Done(s, item);
    forall k: nat, v: nat
      ensures InFlight(t, k, v) <==> v != w && InFlight(s, k, v)
    {
    }
    forall k: nat
      ensures Held(t, k) <==> Held(s, k) && k != item
      ensures Done(t, k) <==> Done(s, k) || k == item
    {
      if Held(s, k) && k != item {
        var v :| InFlight(s, k, v);
        assert InFlight(t, k, v);
      }
      if Held(t, k) {
        var v :| InFlight(t, k, v);
        assert InFlight(s, k, v);
      }
      if Done(s, k) {
        var i :| Over(s, k, i);
        assert Over(t, k, i);
      }
      if Done(t, k) && k != item {
        var i :| Over(t, k, i);
        assert Over(s, k, i);
      }
    }
    forall k: nat, i: nat, j: nat | Over(t, k, i) && Over(t, k, j)
      ensures i == j
    {
      if i < |s.outcomes| {
        assert Over(s, k, i);
      }
      if j < |s.outcomes| {
        assert Over(s, k, j);
      }
    }
  }

  /** Under every interleaving each item taken is with exactly one worker or over exactly once, in no more places than
      there are workers. */
  lemma {:induction false} RunOnce(r: Run, count: nat, limit: nat)
    requires Valid(r, Initial(count, limit))
    ensures var s := End(r, Initial(count, limit)); Once(s) && s.count == count && |s.workers| <= limit
    ensures |End(r, Initial(count, limit)).workers| == if limit < count then limit else count
  {
    if r.Then? {
      RunOnce(r.before, count, limit);
      var s := End(r.before, Initial(count, limit));
      match r.event
      case Look(w) => LookOnce(s, w);
      case Settle(w, ok) => SettleOnce(s, w, ok);
    }
  }

  ghost predicate AllReturned(s: State) {
    forall w :: 0 <= w < |s.workers| ==> s.workers[w].Returned?
  }

  /** Once every worker has returned, every item is over, once, with at most one outcome each: exactly if there was
      anybody to do it. A limit of zero skips all items in silence. */
  lemma AllDoneIff(r: Run, count: nat, limit: nat)
    requires Valid(r, Initial(count, limit)) && AllReturned(End(r, Initial(count, limit)))
    ensures var s := End(r, Initial(count, limit));
            (forall k: nat :: k < count ==> Done(s, k)) <==> limit > 0 || count == 0
  {
    var s := End(r, Initial(count, limit));
    RunOnce(r, count, limit);
    assert forall k: nat :: !Held(s, k);
    if limit > 0 && count > 0 {
      assert s.workers[0].Returned?;
    } else if count > 0 {
      NobodyWorks(r, count);
      assert !Done(s, 0);
    }
  }

  lemma {:induction false} NobodyWorks(r: Run, count: nat)
    requires Valid(r, Initial(count, 0))
    ensures End(r, Initial(count, 0)) == Initial(count, 0)
  {
    if r.Then? {
      NobodyWorks(r.before, count);
    }
  }

  /** Work left: two steps for each item in the queue, two for a busy worker, one for one that looks. */
  function Work(workers: seq<Worker>): nat {
    if workers == [] then 0
    else Work(workers[1..]) + match workers[0] case Looking => 1 case Busy(_) => 2 case Returned => 0
  }

  function Left(s: State): nat {
    (if s.taken < s.count then 2 * (s.count - s.taken) else 0) + Work(s.workers)
  }

  lemma {:induction false} WorkUpdated(workers: seq<Worker>, w: nat, v: Worker)
    requires w < |workers|
    ensures Work(workers[w := v]) == Work(workers) - Work([workers[w]]) + Work([v])
  {
    assert Work([workers[w]]) == Work([]) + match workers[w] case Looking => 1 case Busy(_) => 2 case Returned => 0;
    assert Work([v]) == Work([]) + match v case Looking => 1 case Busy(_) => 2 case Returned => 0;
    if w == 0 {
      assert workers[w := v][1..] == workers[1..];
    } else {
      WorkUpdated(workers[1..], w - 1, v);
      assert workers[w := v][1..] == workers[1..][w - 1 := v];
    }
  }

  /** Every step uses up work, so no run goes on forever; and while a worker has not returned, a step is possible. */
  lemma StepUsesWork(s: State, e: Event)
    requires Enabled(s, e)
    ensures Left(Step(s, e)) < Left(s)
  {
    match e
    case Look(w) => WorkUpdated(s.workers, w, if s.taken < s.count then Busy(s.taken) else Returned);
    case Settle(w, ok) => WorkUpdated(s.workers, w, Looking);
  }

  lemma NeverStuck(s: State)
    ensures AllReturned(s) <==> forall e :: !Enabled(s, e)
  {
    if !AllReturned(s) {
      var w :| 0 <= w < |s.workers| && !s.workers[w].Returned?;
      assert Enabled(s, if s.workers[w].Looking? then Look(w) else Settle(w, true));
    }
  }

  /** The limit is used: as many items as it allows can be in flight at once. */
  lemma {:induction false} AllAtOnce(count: nat, limit: nat, k: nat) returns (r: Run)
    requires k <= limit && k <= count
    ensures Valid(r, Initial(count, limit))
    ensures End(r, Initial(count, limit)).count == count && End(r, Initial(count, limit)).taken == k
    ensures var workers := End(r, Initial(count, limit)).workers;
            && k <= |workers| == (if limit < count then limit else count)
            && (forall w :: 0 <= w < |workers| ==> workers[w] == if w < k then Busy(w) else Looking)
  {
    if k == 0 {
      r := Start;
    } else {
      var b := AllAtOnce(count, limit, k - 1);
      r := Then(b, Look(k - 1));
      assert Valid(r, Initial(count, limit));
      assert End(r, Initial(count, limit)) == Step(End(b, Initial(count, limit)), Look(k - 1));
    }
  }

  /** The items whose `fn` rejected, in the order in which that happened. */
  ghost function Rejected(r: Run, s0: State): seq<nat>
    requires Valid(r, s0)
  {
    if r.Start? then []
    else
      var e := r.event;
      Rejected(r.before, s0) + if e.Settle? && !e.ok then [End(r.before, s0).workers[e.w].item] else []
  }

  function Failed(outcomes: seq<Outcome>): seq<nat> {
    if outcomes == [] then []
    else
      var last := outcomes[|outcomes| - 1];
      Failed(outcomes[..|outcomes| - 1]) + if last.ok then [] else [last.item]
  }

  /** And exactly those are recorded as failed: a rejection stops neither its worker nor the others. */
  lemma {:induction false} RejectionsRecorded(r: Run, count: nat, limit: nat)
    requires Valid(r, Initial(count, limit))
    ensures Failed(End(r, Initial(count, limit)).outcomes) == Rejected(r, Initial(count, limit))
  {
    if r.Then? {
      RejectionsRecorded(r.before, count, limit);
      var s, t := End(r.before, Initial(count, limit)), End(r, Initial(count, limit));
      if r.event.Settle? {
        assert t.outcomes[..|t.outcomes| - 1] == s.outcomes;
      }
    }
  }
}
