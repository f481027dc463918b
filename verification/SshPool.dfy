/** The per-device session pool of one process, for one device key.  Every call queues on the promise chain of the
    entry that is in the pool when it arrives; at the head of the chain it goes on only if that entry is still the
    pooled one, and otherwise starts over on the current entry, still holding its place in the old chain. */
module SshPool {
  import opened Prelude

  type CallId = nat

  /** A pool entry: its session, every call ever queued on it in order, and how many of them are over. */
  datatype Entry = Entry(session: Option<nat>, chain: seq<CallId>, head: nat)

  datatype Phase = Queued | Checked | Locked | Running(session: nat) | Finished

  /** A call: the entry it queued on first and the one it queued on last, how often it started over, how often its
      `fn` ran, and the number of evictions before it came. */
  datatype Call = Call(phase: Phase, first: nat, top: nat, restarts: nat, runs: nat, born: nat)

  /** One start of an `fn`: the entry, the position in that entry's chain, and the call. */
  datatype Start = Start(entry: nat, position: nat, call: CallId)

  datatype Pool = Pool(
    current: Option<nat>, entries: seq<Entry>, calls: map<CallId, Call>,
    sessions: nat, closed: set<nat>, evictions: nat, started: seq<Start>)

  datatype Event =
    | Invoke(c: CallId) | CheckIdentity(c: CallId) | TakeLock(c: CallId)
    | Begin(c: CallId) | ConnectFails(c: CallId) | Settle(c: CallId, ok: bool)
    | Evict

  /** `c` is first in line on entry `e`. */
  predicate Heads(s: Pool, e: nat, c: CallId) {
    e < |s.entries| && s.entries[e].head < |s.entries[e].chain| && s.entries[e].chain[s.entries[e].head] == c
  }

  /** `c` is in this phase, and first in line on the entry it queued on last. */
  predicate Ready(s: Pool, c: CallId) {
    c in s.calls && !s.calls[c].phase.Finished? && Heads(s, s.calls[c].top, c)
  }

  predicate Enabled(s: Pool, e: Event) {
    match e
    case Invoke(c) => c !in s.calls
    case CheckIdentity(c) => Ready(s, c) && s.calls[c].phase.Queued?
    case TakeLock(c) => Ready(s, c) && s.calls[c].phase.Checked?
    case Begin(c) => Ready(s, c) && s.calls[c].phase.Locked?
    case ConnectFails(c) => Ready(s, c) && s.calls[c].phase.Locked? && s.entries[s.calls[c].top].session.None?
    case Settle(c, _) => Ready(s, c) && s.calls[c].phase.Running?
    case Evict => true
  }

  /** The pooled entry, if there is one. */
  predicate Pooled(s: Pool) {
    s.current.Some? && s.current.value < |s.entries|
  }

  /** `evict(key)`: whatever entry is in the pool now is dropped and its session closed. */
  function Evicted(s: Pool): Pool {
    if !Pooled(s) then s
    else
      var session := s.entries[s.current.value].session;
      s.(current := None, evictions := s.evictions + 1,
         closed := if session.Some? then s.closed + {session.value} else s.closed)
  }

  /** The entry a new arrival finds or creates. */
  function WithEntry(s: Pool): Pool {
    if Pooled(s) then s
    else s.(current := Some(|s.entries|), entries := s.entries + [Entry(None, [], 0)])
  }

  /** Queue call `c` at the end of the pooled entry's chain. */
  function Enqueue(s: Pool, c: CallId, k: Call): Pool
    requires Pooled(s)
  {
    var e := s.current.value;
    s.(entries := s.entries[e := s.entries[e].(chain := s.entries[e].chain + [c])],
       calls := s.calls[c := k.(phase := Queued, top := e)])
  }

  function Arrive(s: Pool, c: CallId): Pool {
    var s1 := WithEntry(s);
    Enqueue(s1, c, Call(Queued, s1.current.value, s1.current.value, 0, 0, s.evictions))
  }

  function StartOver(s: Pool, c: CallId): Pool
    requires c in s.calls
  {
    Enqueue(WithEntry(s), c, s.calls[c].(restarts := s.calls[c].restarts + 1))
  }

  function WithPhase(s: Pool, c: CallId, phase: Phase): Pool
    requires c in s.calls
  {
    s.(calls := s.calls[c := s.calls[c].(phase := phase)])
  }

  /** The call is over: it leaves every chain it holds a place in. */
  function Finish(s: Pool, c: CallId): Pool
    requires c in s.calls
  {
    WithPhase(s, c, Finished).(entries := seq(|s.entries|, e requires 0 <= e < |s.entries| =>
      if Heads(s, e, c) then s.entries[e].(head := s.entries[e].head + 1) else s.entries[e]))
  }

  /** The lock is held: open the entry's session if it has none, and run `fn` on it. */
  function BeginFn(s: Pool, c: CallId): Pool
    requires Ready(s, c)
  {
    var k := s.calls[c];
    var opens := s.entries[k.top].session.None?;
    var session := if opens then s.sessions else s.entries[k.top].session.value;
    s.(sessions := if opens then s.sessions + 1 else s.sessions,
       entries := s.entries[k.top := s.entries[k.top].(session := Some(session))],
       calls := s.calls[c := k.(phase := Running(session), runs := k.runs + 1)],
       started := s.started + [Start(k.top, s.entries[k.top].head, c)])
  }

  function Step(s: Pool, e: Event): Pool
    requires Enabled(s, e)
  {
    match e
    case Invoke(c) => Arrive(s, c)
    case CheckIdentity(c) =>
      if s.current == Some(s.calls[c].top) then WithPhase(s, c, Checked) else StartOver(s, c)
    case TakeLock(c) => WithPhase(s, c, Locked)
    case Begin(c) => BeginFn(s, c)
    case ConnectFails(c) => Finish(Evicted(s), c)
    case Settle(c, ok) => Finish(if ok then s else Evicted(s), c)
    case Evict => Evicted(s)
  }

  const EMPTY := Pool(None, [], map[], 0, {}, 0, [])

  /** Past its identity check and not yet over: the call may be driving a session. */
  predicate Active(s: Pool, c: CallId) {
    c in s.calls && (s.calls[c].phase.Checked? || s.calls[c].phase.Locked? || s.calls[c].phase.Running?)
  }

  // ---------------------------------------------------------------- structure, in every run

  ghost predicate Place(s: Pool, e: nat, i: nat) {
    e < |s.entries| && i < |s.entries[e].chain|
  }

  /** The call in place `i` of entry `e`: over exactly if the chain has moved past it, and waiting at the very head
      if it has since started over on a later entry. */
  ghost predicate PlaceSound(s: Pool, e: nat, i: nat)
    requires Place(s, e, i)
  {
    var c := s.entries[e].chain[i];
    && c in s.calls
    && (s.calls[c].phase.Finished? <==> i < s.entries[e].head)
    && e <= s.calls[c].top
    && (e < s.calls[c].top && !s.calls[c].phase.Finished? ==> i == s.entries[e].head)
  }

  ghost predicate Distinct(chain: seq<CallId>) {
    forall i, j :: 0 <= i < j < |chain| ==> chain[i] != chain[j]
  }

  ghost predicate EntriesSound(s: Pool) {
    && (s.current.Some? ==> s.current.value == |s.entries| - 1)
    && s.evictions == (if s.current.Some? then |s.entries| - 1 else |s.entries|)
    && (forall e :: 0 <= e < |s.entries| ==> s.entries[e].head <= |s.entries[e].chain|)
    && (forall e: nat, i: nat :: Place(s, e, i) ==> PlaceSound(s, e, i))
    && (forall e :: 0 <= e < |s.entries| ==> Distinct(s.entries[e].chain))
  }

  ghost predicate CallSound(s: Pool, c: CallId)
    requires c in s.calls
  {
    var k := s.calls[c];
    && k.top < |s.entries| && k.born <= k.first && k.first + k.restarts <= k.top
    && (!k.phase.Finished? ==> c in s.entries[k.top].chain)
    && (Active(s, c) ==> Heads(s, k.top, c))
    && k.runs <= 1 && (k.phase.Queued? || k.phase.Checked? || k.phase.Locked? ==> k.runs == 0)
  }

  ghost predicate Sound(s: Pool) {
    EntriesSound(s) && forall c :: c in s.calls ==> CallSound(s, c)
  }

  lemma EvictedSound(s: Pool)
    requires Sound(s)
    ensures Sound(Evicted(s))
  {
    forall c | c in s.calls ensures CallSound(Evicted(s), c) { assert CallSound(s, c); }
    forall e: nat, i: nat | Place(s, e, i) ensures PlaceSound(Evicted(s), e, i) { assert PlaceSound(s, e, i); }
  }

  lemma WithEntrySound(s: Pool)
    requires Sound(s)
    ensures Sound(WithEntry(s)) && Pooled(WithEntry(s))
  {
    var t := WithEntry(s);
    forall c | c in t.calls ensures CallSound(t, c) { assert CallSound(s, c); }
    forall e: nat, i: nat | Place(t, e, i) ensures PlaceSound(t, e, i) { assert Place(s, e, i) && PlaceSound(s, e, i); }
  }

  /** A new call, or one that heads its old entry, takes the last place on the pooled entry. */
  lemma EnqueueSound(s: Pool, c: CallId, k: Call)
    requires Sound(s) && Pooled(s)
    requires k.born <= k.first && k.runs == 0 && k.first + k.restarts <= s.current.value
    requires c !in s.calls || (Ready(s, c) && s.calls[c].phase.Queued? && s.calls[c].top < s.current.value)
    ensures Sound(Enqueue(s, c, k))
  {
    var t, at := Enqueue(s, c, k), s.current.value;
    forall e: nat, i: nat | Place(s, e, i) && c == s.entries[e].chain[i]
      ensures e < at && i == s.entries[e].head
    {
      assert PlaceSound(s, e, i);
      if e == s.calls[c].top { assert Place(s, e, s.entries[e].head); }
    }
    forall e: nat, i: nat | Place(t, e, i) ensures PlaceSound(t, e, i) {
      if Place(s, e, i) { assert PlaceSound(s, e, i); }
    }
    forall d | d in t.calls ensures CallSound(t, d) {
      if d in s.calls { assert CallSound(s, d); }
      if d != c && !s.calls[d].phase.Finished? && s.calls[d].top == at {
        assert t.entries[at].chain[..|s.entries[at].chain|] == s.entries[at].chain;
      }
    }
  }

  lemma PhaseSound(s: Pool, c: CallId, phase: Phase)
    requires Sound(s) && Ready(s, c) && s.calls[c].runs == 0 && (phase.Checked? || phase.Locked?)
    ensures Sound(WithPhase(s, c, phase))
  {
    var t := WithPhase(s, c, phase);
    forall d | d in t.calls ensures CallSound(t, d) { assert CallSound(s, d); }
    forall e: nat, i: nat | Place(t, e, i) ensures PlaceSound(t, e, i) { assert PlaceSound(s, e, i); }
  }

  lemma BeginSound(s: Pool, c: CallId)
    requires Sound(s) && Ready(s, c) && s.calls[c].phase.Locked?
    ensures Sound(BeginFn(s, c))
  {
    var t := BeginFn(s, c);
    forall d | d in t.calls ensures CallSound(t, d) { assert CallSound(s, d); }
    forall e: nat, i: nat | Place(t, e, i) ensures PlaceSound(t, e, i) { assert Place(s, e, i) && PlaceSound(s, e, i); }
  }

  lemma FinishSound(s: Pool, c: CallId)
    requires Sound(s) && Ready(s, c)
    ensures Sound(Finish(s, c))
  {
    var t := Finish(s, c);
    forall e: nat, i: nat | Place(t, e, i) ensures PlaceSound(t, e, i) {
      assert Place(s, e, i) && PlaceSound(s, e, i);
      if s.entries[e].chain[i] == c && e == s.calls[c].top { assert Place(s, e, s.entries[e].head); }
      if Heads(s, e, c) && i != s.entries[e].head { assert Place(s, e, s.entries[e].head); }
    }
    forall d | d in t.calls ensures CallSound(t, d) {
      assert CallSound(s, d);
      if Heads(s, s.calls[d].top, c) && Active(s, d) { assert d == c; }
    }
  }

  lemma ArriveSound(s: Pool, c: CallId)
    requires Sound(s) && c !in s.calls
    ensures Sound(Arrive(s, c))
  {
    WithEntrySound(s);
    var at := WithEntry(s).current.value;
    EnqueueSound(WithEntry(s), c, Call(Queued, at, at, 0, 0, s.evictions));
  }

  lemma StartOverSound(s: Pool, c: CallId)
    requires Sound(s) && Ready(s, c) && s.calls[c].phase.Queued? && s.current != Some(s.calls[c].top)
    ensures Sound(StartOver(s, c))
  {
    assert CallSound(s, c);
    WithEntrySound(s);
    EnqueueSound(WithEntry(s), c, s.calls[c].(restarts := s.calls[c].restarts + 1));
  }

  lemma FailureSound(s: Pool, c: CallId)
    requires Sound(s) && Ready(s, c)
    ensures Sound(Finish(Evicted(s), c))
  {
    EvictedSound(s);
    FinishSound(Evicted(s), c);
  }

  lemma StepSound(s: Pool, e: Event)
    requires Sound(s) && Enabled(s, e)
    ensures Sound(Step(s, e))
  {
    match e
    case Invoke(c) => ArriveSound(s, c);
    case CheckIdentity(c) =>
      if s.current == Some(s.calls[c].top) {
        assert CallSound(s, c);
        PhaseSound(s, c, Checked);
      } else {
        StartOverSound(s, c);
      }
    case TakeLock(c) => assert CallSound(s, c); PhaseSound(s, c, Locked);
    case Begin(c) => BeginSound(s, c);
    case ConnectFails(c) => FailureSound(s, c);
    case Settle(c, ok) => if ok { FinishSound(s, c); } else { FailureSound(s, c); }
    case Evict => EvictedSound(s);
  }

  // ---------------------------------------------------------------- runs

  /** A run of the pool from the empty one, last event outermost. */
  datatype Trace = Empty | Snoc(before: Trace, event: Event)

  ghost predicate Valid(r: Trace)
    decreases r, 0
  {
    r.Snoc? ==> Valid(r.before) && Enabled(End(r.before), r.event)
  }

  ghost function End(r: Trace): Pool
    requires Valid(r)
    decreases r, 1
  {
    match r
    case Empty => EMPTY
    case Snoc(b, e) => Step(End(b), e)
  }

  /** No external eviction (`evictDevice`, the idle sweep) ever hits while a call is past its identity check. */
  ghost predicate Quiet(r: Trace)
    requires Valid(r)
  {
    r.Snoc? ==> Quiet(r.before) && (r.event.Evict? ==> Unused(End(r.before)))
  }

  ghost predicate Unused(s: Pool) {
    forall c :: c in s.calls ==> !Active(s, c)
  }

  lemma {:induction false} RunSound(r: Trace)
    requires Valid(r)
    ensures Sound(End(r))
  {
    if r.Snoc? {
      RunSound(r.before);
      StepSound(End(r.before), r.event);
    }
  }

  // ---------------------------------------------------------------- once, in order, and never stuck

  /** Every start so far was at a place the chain has reached, and the one at its head is still running. */
  ghost predicate Ordered(s: Pool) {
    && (forall n :: 0 <= n < |s.started| ==> StartSound(s, s.started[n]))
    && (forall m, n :: 0 <= m < n < |s.started| && s.started[m].entry == s.started[n].entry ==>
          s.started[m].position < s.started[n].position)
  }

  ghost predicate StartSound(s: Pool, a: Start) {
    && Place(s, a.entry, a.position) && s.entries[a.entry].chain[a.position] == a.call
    && a.position <= s.entries[a.entry].head
    && (a.position == s.entries[a.entry].head ==> a.call in s.calls && s.calls[a.call].phase.Running?)
  }

  /** Only the head of a chain that has moved, or a call that has changed phase, needs a look. */
  lemma StartsKept(s: Pool, t: Pool)
    requires Ordered(s) && t.started == s.started && |s.entries| <= |t.entries|
    requires forall e :: 0 <= e < |s.entries| ==>
               s.entries[e].chain <= t.entries[e].chain && s.entries[e].head <= t.entries[e].head
    requires forall e, c :: Heads(t, e, c) && Heads(s, e, c) && c in s.calls && s.calls[c].phase.Running? ==>
               c in t.calls && t.calls[c].phase.Running?
    ensures Ordered(t)
  {
    forall n | 0 <= n < |t.started| ensures StartSound(t, t.started[n]) {
      var a := s.started[n];
      assert StartSound(s, a);
      assert t.entries[a.entry].chain[a.position] == a.call;
      if a.position == t.entries[a.entry].head { assert Heads(s, a.entry, a.call) && Heads(t, a.entry, a.call); }
    }
  }

  lemma BeginOrdered(s: Pool, c: CallId)
    requires Sound(s) && Ordered(s) && Ready(s, c) && s.calls[c].phase.Locked?
    ensures Ordered(BeginFn(s, c))
  {
    var t := BeginFn(s, c);
    forall n | 0 <= n < |t.started| ensures StartSound(t, t.started[n]) {
      if n < |s.started| { assert StartSound(s, s.started[n]); }
    }
    forall m | 0 <= m < |s.started| && s.started[m].entry == s.calls[c].top
      ensures s.started[m].position < s.entries[s.calls[c].top].head
    {
      assert StartSound(s, s.started[m]);
    }
  }

  lemma FinishOrdered(s: Pool, c: CallId)
    requires Sound(s) && Ordered(s) && Ready(s, c)
    ensures Ordered(Finish(s, c))
  {
    StartsKept(s, Finish(s, c));
  }

  lemma StepOrdered(s: Pool, e: Event)
    requires Sound(s) && Ordered(s) && Enabled(s, e)
    ensures Ordered(Step(s, e))
  {
    match e
    case Begin(c) => BeginOrdered(s, c);
    case ConnectFails(c) =>
      EvictedSound(s);
      StartsKept(s, Evicted(s));
      FinishOrdered(Evicted(s), c);
    case Settle(c, ok) =>
      EvictedSound(s);
      StartsKept(s, Evicted(s));
      FinishOrdered(if ok then s else Evicted(s), c);
    case _ => StartsKept(s, Step(s, e));
  }

  lemma {:induction false} RunOrdered(r: Trace)
    requires Valid(r)
    ensures Ordered(End(r))
  {
    if r.Snoc? {
      RunOrdered(r.before);
      RunSound(r.before);
      StepOrdered(End(r.before), r.event);
    }
  }

  /** FIFO: on every entry the `fn`s start in the order in which their calls queued. */
  lemma FifoPerEntry(r: Trace, m: nat, n: nat)
    requires Valid(r) && m < n < |End(r).started| && End(r).started[m].entry == End(r).started[n].entry
    ensures End(r).started[m].position < End(r).started[n].position
    ensures var s, a := End(r), End(r).started[n];
            Place(s, a.entry, a.position) && s.entries[a.entry].chain[a.position] == a.call
  {
    RunOrdered(r);
    assert StartSound(End(r), End(r).started[n]);
  }

  /** Each call runs its `fn` at most once, and starts over no more often than entries were evicted since it came. */
  lemma RunsOnceRestartsBounded(r: Trace, c: CallId)
    requires Valid(r) && c in End(r).calls
    ensures End(r).calls[c].runs <= 1
    ensures End(r).calls[c].restarts <= End(r).evictions - End(r).calls[c].born
  {
    RunSound(r);
    assert CallSound(End(r), c);
  }

  /** As long as a call is not over, some call can take its next step: the chains never deadlock. */
  lemma {:induction false} SomeCallIsReady(s: Pool, c: CallId) returns (d: CallId)
    requires Sound(s) && c in s.calls && !s.calls[c].phase.Finished?
    ensures Ready(s, d)
    decreases |s.entries| - s.calls[c].top
  {
    var e := s.calls[c].top;
    assert CallSound(s, c);
    var i: nat :| i < |s.entries[e].chain| && s.entries[e].chain[i] == c;
    assert PlaceSound(s, e, i);
    var h := s.entries[e].chain[s.entries[e].head];
    assert Place(s, e, s.entries[e].head) && PlaceSound(s, e, s.entries[e].head);
    if s.calls[h].top == e {
      d := h;
    } else {
      assert CallSound(s, h);
      d := SomeCallIsReady(s, h);
    }
  }

  lemma NeverStuck(r: Trace, c: CallId) returns (e: Event)
    requires Valid(r) && c in End(r).calls && !End(r).calls[c].phase.Finished?
    ensures Enabled(End(r), e) && !e.Evict? && !e.Invoke?
  {
    RunSound(r);
    var s := End(r);
    var d := SomeCallIsReady(s, c);
    e := match s.calls[d].phase
         case Queued => CheckIdentity(d)
         case Checked => TakeLock(d)
         case Locked => Begin(d)
         case _ => Settle(d, true);
  }

  // ---------------------------------------------------------------- exclusion, in quiet runs

  ghost predicate SessionsSound(s: Pool) {
    && (forall i :: i in s.closed ==> i < s.sessions)
    && (forall e :: 0 <= e < |s.entries| ==> s.entries[e].session.Some? ==> s.entries[e].session.value < s.sessions)
    && (Pooled(s) && s.entries[s.current.value].session.Some? ==> s.entries[s.current.value].session.value !in s.closed)
  }

  /** A call past its identity check is on the pooled entry, and if it runs, on that entry's session. */
  ghost predicate Exclusive(s: Pool) {
    forall c :: c in s.calls ==>
      && (Active(s, c) ==> s.current == Some(s.calls[c].top))
      && (s.calls[c].phase.Running? && s.calls[c].top < |s.entries| ==>
            s.entries[s.calls[c].top].session == Some(s.calls[c].phase.session))
  }

  lemma OnlyOneActive(s: Pool, c: CallId, d: CallId)
    requires Sound(s) && Exclusive(s) && Active(s, c) && Active(s, d)
    ensures c == d
  {
    assert CallSound(s, c) && CallSound(s, d);
  }

  lemma BeginExclusive(s: Pool, c: CallId)
    requires Sound(s) && SessionsSound(s) && Exclusive(s) && Ready(s, c) && s.calls[c].phase.Locked?
    ensures SessionsSound(BeginFn(s, c)) && Exclusive(BeginFn(s, c))
  {
    forall d | Active(s, d) ensures d == c { OnlyOneActive(s, c, d); }
  }

  /** A call that fails evicts its own entry: in a quiet run no other call can be active by then. */
  lemma SettleExclusive(s: Pool, c: CallId, ok: bool)
    requires Sound(s) && SessionsSound(s) && Exclusive(s) && Ready(s, c) && Active(s, c)
    ensures var t := Finish(if ok then s else Evicted(s), c); SessionsSound(t) && Exclusive(t)
  {
    forall d | Active(s, d) ensures d == c { OnlyOneActive(s, c, d); }
  }

  lemma ArriveExclusive(s: Pool, c: CallId)
    requires Sound(s) && SessionsSound(s) && Exclusive(s) && Enabled(s, Invoke(c))
    ensures SessionsSound(Step(s, Invoke(c))) && Exclusive(Step(s, Invoke(c)))
  {
    forall d | d in s.calls ensures CallSound(s, d) {}
  }

  lemma CheckExclusive(s: Pool, c: CallId)
    requires Sound(s) && SessionsSound(s) && Exclusive(s) && Enabled(s, CheckIdentity(c))
    ensures SessionsSound(Step(s, CheckIdentity(c))) && Exclusive(Step(s, CheckIdentity(c)))
  {
    forall d | d in s.calls ensures CallSound(s, d) {}
  }

  lemma StepExclusive(s: Pool, e: Event)
    requires Sound(s) && SessionsSound(s) && Exclusive(s) && Enabled(s, e) && (e.Evict? ==> Unused(s))
    ensures SessionsSound(Step(s, e)) && Exclusive(Step(s, e))
  {
    match e
    case Begin(c) => BeginExclusive(s, c);
    case ConnectFails(c) => SettleExclusive(s, c, false);
    case Settle(c, ok) => SettleExclusive(s, c, ok);
    case Invoke(c) => ArriveExclusive(s, c);
    case CheckIdentity(c) => CheckExclusive(s, c);
    case TakeLock(c) =>
    case Evict =>
  }

  lemma {:induction false} RunExclusive(r: Trace)
    requires Valid(r) && Quiet(r)
    ensures SessionsSound(End(r)) && Exclusive(End(r))
  {
    if r.Snoc? {
      RunExclusive(r.before);
      RunSound(r.before);
      StepExclusive(End(r.before), r.event);
    }
  }

  /** Exclusion: in a quiet run at most one call is past its identity check; it is first in line on the pooled
      entry, and its `fn` drives that entry's session, which is open. */
  lemma PoolExclusion(r: Trace, c: CallId, d: CallId)
    requires Valid(r) && Quiet(r) && Active(End(r), c) && Active(End(r), d)
    ensures c == d
    ensures var s := End(r);
            && s.current == Some(s.calls[c].top) && Ready(s, c)
            && (s.calls[c].phase.Running? ==>
                  s.entries[s.calls[c].top].session == Some(s.calls[c].phase.session)
                  && s.calls[c].phase.session !in s.closed)
  {
    RunSound(r);
    RunExclusive(r);
    OnlyOneActive(End(r), c, d);
    assert CallSound(End(r), c);
  }

  lemma Go(r: Trace, s: Pool, e: Event) returns (r': Trace, t: Pool)
    requires Valid(r) && End(r) == s && Enabled(s, e)
    ensures Valid(r') && End(r') == t && t == Step(s, e)
    ensures Quiet(r') ==> Quiet(r) && (e.Evict? ==> Unused(s))
  {
    r' := Snoc(r, e);
    t := Step(s, e);
  }

  lemma OneQueued() returns (r: Trace, s: Pool)
    ensures Valid(r) && End(r) == s && s.current == Some(0) && s.entries == [Entry(None, [0], 0)]
    ensures s.calls == map[0 := Call(Queued, 0, 0, 0, 0, 0)]
  {
    r, s := Go(Empty, EMPTY, Invoke(0));
    assert WithEntry(EMPTY).entries == [Entry(None, [], 0)];
    assert s.entries[0] == Entry(None, [0], 0);
  }

  lemma OneRunning() returns (r: Trace, s: Pool)
    ensures Valid(r) && End(r) == s
    ensures 0 in s.calls && 1 !in s.calls && s.calls[0].phase.Running? && s.current == Some(0) && |s.entries| == 1
    ensures Ready(s, 0) && s.calls[0].top == 0
  {
    r, s := OneQueued();
    r, s := Go(r, s, CheckIdentity(0));
    r, s := Go(r, s, TakeLock(0));
    r, s := Go(r, s, Begin(0));
  }

  /** The pool after an eviction and the arrival of one more call, up to its identity check. */
  function EvictedAndJoined(s: Pool, d: CallId): Pool
    requires d !in s.calls
  {
    var t := Arrive(Evicted(s), d);
    WithPhase(t, d, Checked)
  }

  lemma JoinedByEvents(s: Pool, d: CallId)
    requires Pooled(s) && d !in s.calls
    ensures var t1 := Step(s, Evict);
            && Enabled(t1, Invoke(d)) && Enabled(Step(t1, Invoke(d)), CheckIdentity(d))
            && Step(Step(t1, Invoke(d)), CheckIdentity(d)) == EvictedAndJoined(s, d)
  {
    var t := Arrive(Evicted(s), d);
    assert t.entries[|s.entries|].chain == [d];
  }

  ghost predicate AtMostOneActive(s: Pool) {
    forall c, d :: Active(s, c) && Active(s, d) ==> c == d
  }

  /** Why the hypothesis, and that it cannot be less: from any pool with an entry, after an eviction the next call to
      come gets past its identity check, and is alone there exactly if no call was past it already. */
  lemma EvictionInFlight(s: Pool, d: CallId)
    requires Pooled(s) && d !in s.calls
    ensures var t1 := Step(s, Evict);
            && Enabled(t1, Invoke(d)) && Enabled(Step(t1, Invoke(d)), CheckIdentity(d))
            && Step(Step(t1, Invoke(d)), CheckIdentity(d)) == EvictedAndJoined(s, d)
    ensures AtMostOneActive(EvictedAndJoined(s, d)) <==> Unused(s)
    ensures forall c :: c in s.calls ==> EvictedAndJoined(s, d).calls[c] == s.calls[c]
  {
    JoinedByEvents(s, d);
    var t := EvictedAndJoined(s, d);
    assert Active(t, d);
    forall c | c in s.calls
      ensures Active(t, c) <==> Active(s, c)
    {
    }
  }

  /** And it goes on to run its `fn` beside a running one, on a session of its own. */
  lemma NextCallRunsBeside(s: Pool, c: CallId, d: CallId)
    requires Pooled(s) && c in s.calls && s.calls[c].phase.Running? && d !in s.calls
    ensures var t := EvictedAndJoined(s, d);
            && Enabled(t, TakeLock(d)) && Enabled(Step(t, TakeLock(d)), Begin(d))
            && var u := Step(Step(t, TakeLock(d)), Begin(d));
               && u.calls[c] == s.calls[c] && u.calls[d].phase == Running(s.sessions)
               && u.current == Some(u.calls[d].top)
  {
    var t := EvictedAndJoined(s, d);
    assert t.entries[|s.entries|] == Entry(None, [d], 0);
  }

  lemma TwoRunning() returns (r: Trace, s: Pool)
    ensures Valid(r) && End(r) == s && !Quiet(r)
    ensures 0 in s.calls && 1 in s.calls && s.calls[0].phase.Running? && s.calls[1].phase.Running?
    ensures s.current == Some(1) && |s.entries| == 2 && s.entries[1].session == Some(s.calls[1].phase.session)
    ensures Ready(s, 0)
  {
    r, s := OneRunning();
    assert Active(s, 0);
    r, s := Go(r, s, Evict);
    r, s := Go(r, s, Invoke(1));
    assert s.entries[1] == Entry(None, [1], 0);
    r, s := Go(r, s, CheckIdentity(1));
    r, s := Go(r, s, TakeLock(1));
    r, s := Go(r, s, Begin(1));
  }

  // ---------------------------------------------------------------- whose session a failure closes

  /** In every run, quiet or not: no two entries share a session, and a running `fn` drives its entry's. */
  ghost predicate SessionsPlaced(s: Pool) {
    && (forall e :: 0 <= e < |s.entries| && s.entries[e].session.Some? ==> s.entries[e].session.value < s.sessions)
    && (forall e, f :: 0 <= e < f < |s.entries| && s.entries[e].session.Some? ==>
          s.entries[e].session != s.entries[f].session)
    && (forall c :: c in s.calls && s.calls[c].phase.Running? ==>
          s.calls[c].top < |s.entries| && s.entries[s.calls[c].top].session == Some(s.calls[c].phase.session))
  }

  /** Whatever opens no session and starts no `fn`. */
  lemma SessionsStay(s: Pool, t: Pool)
    requires SessionsPlaced(s) && t.sessions == s.sessions && |s.entries| <= |t.entries|
    requires forall e :: 0 <= e < |t.entries| ==>
               t.entries[e].session == if e < |s.entries| then s.entries[e].session else None
    requires forall c :: c in t.calls && t.calls[c].phase.Running? ==> c in s.calls && t.calls[c] == s.calls[c]
    ensures SessionsPlaced(t)
  {
  }

  lemma StepPlaced(s: Pool, e: Event)
    requires Sound(s) && SessionsPlaced(s) && Enabled(s, e)
    ensures SessionsPlaced(Step(s, e))
  {
    match e
    case Begin(c) => BeginPlaced(s, c);
    case Invoke(c) => SessionsStay(s, Step(s, e));
    case CheckIdentity(c) => StartOverPlaced(s, c);
    case TakeLock(c) => SessionsStay(s, Step(s, e));
    case ConnectFails(c) => FinishPlaced(s, c, false);
    case Settle(c, ok) => FinishPlaced(s, c, ok);
    case Evict => SessionsStay(s, Step(s, e));
  }

  lemma StartOverPlaced(s: Pool, c: CallId)
    requires Sound(s) && SessionsPlaced(s) && Enabled(s, CheckIdentity(c))
    ensures SessionsPlaced(Step(s, CheckIdentity(c)))
  {
    SessionsStay(s, Step(s, CheckIdentity(c)));
  }

  lemma FinishPlaced(s: Pool, c: CallId, ok: bool)
    requires SessionsPlaced(s) && c in s.calls
    ensures SessionsPlaced(Finish(if ok then s else Evicted(s), c))
  {
    SessionsStay(s, Finish(if ok then s else Evicted(s), c));
  }

  lemma BeginPlaced(s: Pool, c: CallId)
    requires Sound(s) && SessionsPlaced(s) && Ready(s, c) && s.calls[c].phase.Locked?
    ensures SessionsPlaced(BeginFn(s, c))
  {
    var t := BeginFn(s, c);
    forall d | d in t.calls && t.calls[d].phase.Running?
      ensures t.calls[d].top < |t.entries| && t.entries[t.calls[d].top].session == Some(t.calls[d].phase.session)
    {
      if d != c {
        assert s.entries[s.calls[d].top].session == Some(s.calls[d].phase.session);
      }
    }
  }

  lemma {:induction false} RunPlaced(r: Trace)
    requires Valid(r)
    ensures SessionsPlaced(End(r))
  {
    if r.Snoc? {
      RunPlaced(r.before);
      RunSound(r.before);
      StepPlaced(End(r.before), r.event);
    }
  }

  /** A failure evicts by key, not by entry: when a call fails beside another that runs on an open session, it closes
      that one's session, which goes on running, exactly if the other's entry is the pooled one. */
  lemma FailureClosesIff(r: Trace, failure: Event, d: CallId)
    requires Valid(r) && Enabled(End(r), failure) && (failure.ConnectFails? || (failure.Settle? && !failure.ok))
    requires d in End(r).calls && d != failure.c && End(r).calls[d].phase.Running?
    requires End(r).calls[d].phase.session !in End(r).closed
    ensures var s, t := End(r), Step(End(r), failure);
            && t.calls[d] == s.calls[d]
            && (s.calls[d].phase.session in t.closed <==> s.current == Some(s.calls[d].top))
  {
    RunPlaced(r);
    EvictionCloses(End(r), d);
    FinishLeavesOthers(Evicted(End(r)), failure.c, d);
  }

  lemma EvictionCloses(s: Pool, d: CallId)
    requires SessionsPlaced(s) && d in s.calls && s.calls[d].phase.Running? && s.calls[d].phase.session !in s.closed
    ensures Evicted(s).calls == s.calls
    ensures s.calls[d].phase.session in Evicted(s).closed <==> s.current == Some(s.calls[d].top)
  {
  }

  lemma FinishLeavesOthers(s: Pool, c: CallId, d: CallId)
    requires c in s.calls && d in s.calls && c != d
    ensures Finish(s, c).calls[d] == s.calls[d] && Finish(s, c).closed == s.closed
  {
  }

  /** A run in which that happens: the first of two running calls fails and closes the session under the other. */
  lemma FailureClosesAnothersSession() returns (r: Trace, s: Pool)
    ensures Valid(r) && End(r) == s && s.current.None?
    ensures 1 in s.calls && s.calls[1].phase.Running? && s.calls[1].phase.session in s.closed
  {
    r, s := TwoRunning();
    r, s := Go(r, s, Settle(0, false));
  }
}
