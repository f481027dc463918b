/** The pool over time: when the idle sweep hits an entry, and when that is while a call is on it. */
module IdleSweep {
  import opened Prelude
  import P = SshPool

  const IDLE_TTL := 90000

  /** The pool of one device with the clock and each entry's `lastUsed`; for the statements, when each running `fn`
      began and when each entry was made or a call on it was last over. */
  datatype Timed = Timed(pool: P.Pool, now: int, lastUsed: seq<int>, began: map<P.CallId, int>, rested: seq<int>)

  datatype Event = Pass(ms: nat) | Do(event: P.Event) | Sweep

  predicate Enabled(t: Timed, e: Event) {
    e.Do? ==> P.Enabled(t.pool, e.event)
  }

  /** `now - e.lastUsed > IDLE_TTL_MS` for the pooled entry. */
  predicate Stale(t: Timed) {
    P.Pooled(t.pool) && t.pool.current.value < |t.lastUsed| && t.now - t.lastUsed[t.pool.current.value] > IDLE_TTL
  }

  /** A new entry counts as used when it is made. */
  function Padded(lastUsed: seq<int>, n: nat, now: int): (r: seq<int>)
    ensures |lastUsed| <= n ==> |r| == n && lastUsed <= r
    decreases n - |lastUsed|
  {
    if |lastUsed| < n then Padded(lastUsed + [now], n, now) else lastUsed
  }

  function Touched(lastUsed: seq<int>, e: nat, now: int): seq<int> {
    if e < |lastUsed| then lastUsed[e := now] else lastUsed
  }

  /** `lastUsed` is set when an entry is made, when a `fn` begins, and when it is over. */
  function UsedAfter(t: Timed, e: P.Event): seq<int>
    requires P.Enabled(t.pool, e)
  {
    match e
    case Begin(c) => Touched(t.lastUsed, t.pool.calls[c].top, t.now)
    case Settle(c, _) => Touched(t.lastUsed, t.pool.calls[c].top, t.now)
    case ConnectFails(c) => Touched(t.lastUsed, t.pool.calls[c].top, t.now)
    case _ => Padded(t.lastUsed, |P.Step(t.pool, e).entries|, t.now)
  }

  function RestedAfter(t: Timed, e: P.Event): seq<int>
    requires P.Enabled(t.pool, e)
  {
    match e
    case Settle(c, _) => Touched(t.rested, t.pool.calls[c].top, t.now)
    case ConnectFails(c) => Touched(t.rested, t.pool.calls[c].top, t.now)
    case _ => Padded(t.rested, |P.Step(t.pool, e).entries|, t.now)
  }

  function Step(t: Timed, e: Event): Timed
    requires Enabled(t, e)
  {
    match e
    case Pass(ms) => t.(now := t.now + ms)
    case Do(pe) =>
      t.(pool := P.Step(t.pool, pe), lastUsed := UsedAfter(t, pe),
         began := if pe.Begin? then t.began[pe.c := t.now] else t.began, rested := RestedAfter(t, pe))
    case Sweep => if Stale(t) then t.(pool := P.Evicted(t.pool)) else t
  }

  datatype Run = Start | Then(before: Run, event: Event)

  ghost predicate Valid(r: Run)
    decreases r, 0
  {
    r.Then? ==> Valid(r.before) && Enabled(End(r.before), r.event)
  }

  ghost function End(r: Run): Timed
    requires Valid(r)
    decreases r, 1
  {
    match r
    case Start => Timed(P.EMPTY, 0, [], map[], [])
    case Then(b, e) => Step(End(b), e)
  }

  // ---------------------------------------------------------------- what lastUsed means

  ghost predicate Clocked(t: Timed) {
    && |t.lastUsed| == |t.pool.entries|
    && forall c :: c in t.pool.calls && t.pool.calls[c].phase.Running? ==>
         c in t.began && t.pool.calls[c].top < |t.lastUsed| && t.lastUsed[t.pool.calls[c].top] == t.began[c]
  }

  /** Only the call at the head of an entry touches it, so no other call's entry is touched. */
  lemma HeadsApart(s: P.Pool, c: P.CallId, d: P.CallId)
    requires P.Sound(s) && P.Active(s, c) && P.Ready(s, d) && c != d
    ensures s.calls[c].top != s.calls[d].top
  {
    assert P.CallSound(s, c);
  }

  lemma TouchClocked(t: Timed, e: P.Event, d: P.CallId)
    requires P.Sound(t.pool) && Clocked(t) && P.Enabled(t.pool, e)
    requires e == P.Begin(d) || e == P.Settle(d, true) || e == P.Settle(d, false) || e == P.ConnectFails(d)
    ensures Clocked(Step(t, Do(e)))
  {
    var u := Step(t, Do(e));
    assert P.CallSound(t.pool, d);
    assert |u.pool.entries| == |t.pool.entries|;
    forall c | c in u.pool.calls && u.pool.calls[c].phase.Running?
      ensures c in u.began && u.pool.calls[c].top < |u.lastUsed| && u.lastUsed[u.pool.calls[c].top] == u.began[c]
    {
      if c != d {
        assert P.Active(t.pool, c);
        HeadsApart(t.pool, c, d);
      }
    }
  }

  lemma StepClocked(t: Timed, e: Event)
    requires P.Sound(t.pool) && Clocked(t) && Enabled(t, e)
    ensures Clocked(Step(t, e))
  {
    if e.Do? {
      match e.event
      case Begin(d) => TouchClocked(t, e.event, d);
      case Settle(d, ok) => TouchClocked(t, e.event, d);
      case ConnectFails(d) => TouchClocked(t, e.event, d);
      case _ =>
    }
  }

  lemma {:induction false} RunClocked(r: Run)
    requires Valid(r)
    ensures P.Sound(End(r).pool) && Clocked(End(r))
  {
    if r.Then? {
      RunClocked(r.before);
      StepClocked(End(r.before), r.event);
      var t := End(r.before);
      match r.event
      case Do(e) => P.StepSound(t.pool, e);
      case Sweep => P.StepSound(t.pool, P.Evict);
      case Pass(_) =>
    }
  }

  /** In every run, a sweep takes the entry from under a running `fn` exactly if that `fn` has been running for more
      than 90 seconds. */
  lemma SweepHitsRunningIff(r: Run, c: P.CallId)
    requires Valid(r) && c in End(r).pool.calls && End(r).pool.calls[c].phase.Running?
    requires End(r).pool.current == Some(End(r).pool.calls[c].top)
    ensures c in End(r).began
    ensures Step(End(r), Sweep).pool.current.None? <==> End(r).now - End(r).began[c] > 90000
  {
    RunClocked(r);
  }

  /** No `fn` is running on the entry. */
  ghost predicate NobodyRuns(s: P.Pool, e: nat) {
    forall c :: c in s.calls && s.calls[c].phase.Running? ==> s.calls[c].top != e
  }

  /** While no `fn` runs on an entry, it counts as used when it was made or a call on it was last over. */
  ghost predicate RestKnown(t: Timed) {
    && |t.rested| == |t.lastUsed| == |t.pool.entries|
    && forall e: nat :: e < |t.rested| && NobodyRuns(t.pool, e) ==> t.lastUsed[e] == t.rested[e]
  }

  lemma {:induction false} PaddedValues(used: seq<int>, n: nat, now: int, e: nat)
    requires |used| <= n && e < n
    ensures Padded(used, n, now)[e] == if e < |used| then used[e] else now
    decreases n - |used|
  {
    if |used| < n {
      PaddedValues(used + [now], n, now, e);
    }
  }

  /** An event that starts or ends no `fn`. */
  lemma QuietRest(t: Timed, e: P.Event)
    requires RestKnown(t) && P.Enabled(t.pool, e) && !e.Begin? && !e.Settle? && !e.ConnectFails?
    requires |t.pool.entries| <= |P.Step(t.pool, e).entries|
    requires forall c :: c in t.pool.calls && t.pool.calls[c].phase.Running? ==>
               c in P.Step(t.pool, e).calls && P.Step(t.pool, e).calls[c] == t.pool.calls[c]
    ensures RestKnown(Step(t, Do(e)))
  {
    var u := Step(t, Do(e));
    forall at: nat | at < |u.rested| && NobodyRuns(u.pool, at)
      ensures u.lastUsed[at] == u.rested[at]
    {
      PaddedValues(t.lastUsed, |u.pool.entries|, t.now, at);
      PaddedValues(t.rested, |u.pool.entries|, t.now, at);
      if at < |t.rested| {
        assert NobodyRuns(t.pool, at);
      }
    }
  }

  lemma BeginRest(t: Timed, c: P.CallId)
    requires RestKnown(t) && P.Enabled(t.pool, P.Begin(c))
    ensures RestKnown(Step(t, Do(P.Begin(c))))
  {
    var u := Step(t, Do(P.Begin(c)));
    forall at: nat | at < |u.rested| && NobodyRuns(u.pool, at)
      ensures u.lastUsed[at] == u.rested[at]
    {
      assert at != u.pool.calls[c].top;
      forall d | d in t.pool.calls && t.pool.calls[d].phase.Running?
        ensures t.pool.calls[d].top != at
      {
        assert d == c || u.pool.calls[d] == t.pool.calls[d];
      }
      assert NobodyRuns(t.pool, at);
    }
  }

  lemma OverRest(t: Timed, e: P.Event)
    requires RestKnown(t) && P.Enabled(t.pool, e) && (e.Settle? || e.ConnectFails?)
    ensures RestKnown(Step(t, Do(e)))
  {
    var u := Step(t, Do(e));
    forall at: nat | at < |u.rested| && NobodyRuns(u.pool, at)
      ensures u.lastUsed[at] == u.rested[at]
    {
      if at != t.pool.calls[e.c].top {
        forall d | d in t.pool.calls && t.pool.calls[d].phase.Running?
          ensures t.pool.calls[d].top != at
        {
          assert d == e.c || u.pool.calls[d] == t.pool.calls[d];
        }
        assert NobodyRuns(t.pool, at);
      }
    }
  }

  lemma StepRest(t: Timed, e: Event)
    requires RestKnown(t) && Enabled(t, e)
    ensures RestKnown(Step(t, e))
  {
    match e
    case Pass(_) => assert forall at: nat :: NobodyRuns(Step(t, e).pool, at) <==> NobodyRuns(t.pool, at);
    case Sweep => assert forall at: nat :: NobodyRuns(Step(t, e).pool, at) <==> NobodyRuns(t.pool, at);
    case Do(pe) =>
      match pe
      case Begin(c) => BeginRest(t, c);
      case Settle(_, _) => OverRest(t, pe);
      case ConnectFails(_) => OverRest(t, pe);
      case _ => QuietRest(t, pe);
  }

  lemma {:induction false} RunRest(r: Run)
    requires Valid(r)
    ensures RestKnown(End(r))
  {
    if r.Then? {
      RunRest(r.before);
      StepRest(End(r.before), r.event);
    }
  }

  /** In every run, a sweep takes the entry from under a call that is past its identity check but not running yet
      exactly if more than 90 seconds have passed since a call on the entry was last over, or since it was made: not
      since the call came. */
  lemma SweepHitsWaitingIff(r: Run, c: P.CallId)
    requires Valid(r) && P.Active(End(r).pool, c) && !End(r).pool.calls[c].phase.Running?
    requires End(r).pool.current == Some(End(r).pool.calls[c].top)
    ensures End(r).pool.calls[c].top < |End(r).rested|
    ensures Step(End(r), Sweep).pool.current.None? <==>
            End(r).now - End(r).rested[End(r).pool.calls[c].top] > 90000
  {
    RunClocked(r);
    RunRest(r);
    var t := End(r);
    assert P.CallSound(t.pool, c);
    forall d | d in t.pool.calls && t.pool.calls[d].phase.Running?
      ensures t.pool.calls[d].top != t.pool.calls[c].top
    {
      HeadsApart(t.pool, d, c);
    }
    assert NobodyRuns(t.pool, t.pool.calls[c].top);
  }

  /** A call that ends well leaves its entry in the pool for exactly 90 seconds of rest. */
  lemma SettledEntryRests(r: Run, c: P.CallId, ms: nat)
    requires Valid(r) && P.Enabled(End(r).pool, P.Settle(c, true))
    requires End(r).pool.current == Some(End(r).pool.calls[c].top)
    ensures var t := Step(Step(Step(End(r), Do(P.Settle(c, true))), Pass(ms)), Sweep);
            if ms > 90000 then t.pool.current.None? else t.pool.current == End(r).pool.current
  {
    RunClocked(r);
    assert P.CallSound(End(r).pool, c);
  }

  // ---------------------------------------------------------------- exclusion, with sweeps

  /** No sweep finds an entry stale while a call is past its identity check, and no `evictDevice` comes then. */
  ghost predicate Undisturbed(r: Run)
    requires Valid(r)
  {
    r.Then? ==>
      && Undisturbed(r.before)
      && (r.event == Do(P.Evict) || (r.event.Sweep? && Stale(End(r.before))) ==> P.Unused(End(r.before).pool))
  }

  /** The run without its clock. */
  lemma {:induction false} Untimed(r: Run) returns (p: P.Trace)
    requires Valid(r) && Undisturbed(r)
    ensures P.Valid(p) && P.Quiet(p) && P.End(p) == End(r).pool
  {
    match r
    case Start => p := P.Empty;
    case Then(before, event) =>
      p := Untimed(before);
      match event
      case Do(e) => p := P.Snoc(p, e);
      case Sweep =>
        if Stale(End(before)) {
          p := P.Snoc(p, P.Evict);
        }
      case Pass(_) =>
  }

  /** Exclusion over time: while no sweep or `evictDevice` disturbs a call, at most one call is past its identity
      check. */
  lemma TimedExclusion(r: Run, c: P.CallId, d: P.CallId)
    requires Valid(r) && Undisturbed(r) && P.Active(End(r).pool, c) && P.Active(End(r).pool, d)
    ensures c == d && End(r).pool.current == Some(End(r).pool.calls[c].top)
  {
    var p := Untimed(r);
    P.PoolExclusion(p, c, d);
  }

  // ---------------------------------------------------------------- a fresh call can be hit

  lemma Go(r: Run, t: Timed, e: Event) returns (r': Run, u: Timed)
    requires Valid(r) && End(r) == t && Enabled(t, e)
    ensures Valid(r') && End(r') == u && u == Step(t, e)
  {
    r' := Then(r, e);
    u := Step(t, e);
  }

  lemma FirstCallIn() returns (r: Run, t: Timed)
    ensures Valid(r) && End(r) == t && t.now == 0 && t.lastUsed == [0] && t.pool.current == Some(0)
    ensures t.pool.entries == [P.Entry(None, [0], 0)] && t.pool.closed == {} && t.pool.sessions == 0
    ensures t.pool.calls == map[0 := P.Call(P.Queued, 0, 0, 0, 0, 0)]
  {
    r, t := Go(Start, End(Start), Do(P.Invoke(0)));
    assert P.WithEntry(P.EMPTY).entries == [P.Entry(None, [], 0)];
    assert t.pool.entries[0] == P.Entry(None, [0], 0);
    assert Padded([], 1, 0) == [0] by {
      assert Padded([0], 1, 0) == [0];
      assert [] + [0] == [0];
    }
  }

  lemma FirstCallOver() returns (r: Run, t: Timed)
    ensures Valid(r) && End(r) == t && t.now == 0 && t.lastUsed == [0] && t.pool.current == Some(0)
    ensures t.pool.entries == [P.Entry(Some(0), [0], 1)] && t.pool.calls.Keys == {0} && t.pool.closed == {}
  {
    r, t := FirstCallLocked();
    r, t := Go(r, t, Do(P.Begin(0)));
    r, t := Go(r, t, Do(P.Settle(0, true)));
  }

  lemma FirstCallLocked() returns (r: Run, t: Timed)
    ensures Valid(r) && End(r) == t && t.now == 0 && t.lastUsed == [0] && t.pool.current == Some(0)
    ensures t.pool.entries == [P.Entry(None, [0], 0)] && t.pool.closed == {} && t.pool.sessions == 0
    ensures t.pool.calls == map[0 := P.Call(P.Locked, 0, 0, 0, 0, 0)]
  {
    r, t := FirstCallIn();
    r, t := Go(r, t, Do(P.CheckIdentity(0)));
    assert Padded([0], 1, 0) == [0];
    r, t := Go(r, t, Do(P.TakeLock(0)));
  }

  /** A call does not count as use until its `fn` begins: 89 s after the last one, a call that has waited a little
      over a second for the cluster lock has its session closed by the sweep, and the next call gets an entry of its
      own. */
  lemma FreshCallIsSwept() returns (r: Run, t: Timed)
    ensures Valid(r) && End(r) == t && P.Active(t.pool, 1) && P.Active(t.pool, 2)
    ensures t.pool.calls[1].top == 0 && |t.pool.entries| == 2
    ensures t.pool.entries[0].session == Some(0) && 0 in t.pool.closed
    ensures t.now == 90001
  {
    r, t := SecondCallWaits();
    r, t := Go(r, t, Sweep);
    r, t := Go(r, t, Do(P.Invoke(2)));
    assert t.pool.entries[1] == P.Entry(None, [2], 0);
    r, t := Go(r, t, Do(P.CheckIdentity(2)));
  }

  lemma SecondCallWaits() returns (r: Run, t: Timed)
    ensures Valid(r) && End(r) == t && t.now == 90001 && t.lastUsed == [0] && t.pool.current == Some(0)
    ensures t.pool.entries == [P.Entry(Some(0), [0, 1], 1)] && t.pool.calls.Keys == {0, 1}
    ensures P.Active(t.pool, 1) && t.pool.calls[1].top == 0
  {
    r, t := FirstCallOver();
    r, t := Go(r, t, Pass(89000));
    r, t := Go(r, t, Do(P.Invoke(1)));
    assert t.pool.entries[0] == P.Entry(Some(0), [0, 1], 1);
    r, t := Go(r, t, Do(P.CheckIdentity(1)));
    r, t := Go(r, t, Pass(1001));
  }

  // ---------------------------------------------------------------- the pool map itself

  type Key = string

  datatype Entry = Entry(session: Option<nat>, lastUsed: int)

  /** The module-level map over all devices, with the sessions closed so far. */
  class Sessions {
    var pool: map<Key, Entry>
    var closed: set<nat>

    constructor ()
      ensures pool == map[] && closed == {}
    {
      pool, closed := map[], {};
    }

    /** Drop a key's entry and close its session, whoever's entry it is by now. */
    method Evict(key: Key)
      modifies this
      ensures pool == old(pool) - {key}
      ensures closed == old(closed) + SessionsOf(old(pool), {key})
    {
      if key !in pool {
        return;
      }
      var e := pool[key];
      pool := pool - {key};
      if e.session.Some? {
        closed := closed + {e.session.value};
      }
    }

    /** One tick of the sweep: exactly the entries unused for more than 90 seconds go, with their sessions. */
    method SweepIdle(now: int)
      modifies this
      ensures pool == old(pool) - IdleKeys(old(pool), now)
      ensures closed == old(closed) + SessionsOf(old(pool), IdleKeys(old(pool), now))
    {
      var left := pool.Keys;
      ghost var before := pool;
      while left != {}
        invariant left <= before.Keys
        invariant pool == before - (IdleKeys(before, now) - left)
        invariant closed == old(closed) + SessionsOf(before, IdleKeys(before, now) - left)
        decreases |left|
      {
        var key :| key in left;
        ghost var done := IdleKeys(before, now) - left;
        left := left - {key};
        if now - pool[key].lastUsed > IDLE_TTL {
          assert IdleKeys(before, now) - left == done + {key};
          Evict(key);
        } else {
          assert IdleKeys(before, now) - left == done;
        }
      }
      assert IdleKeys(before, now) - left == IdleKeys(before, now);
    }
  }

  function IdleKeys(pool: map<Key, Entry>, now: int): set<Key> {
    set key | key in pool && now - pool[key].lastUsed > IDLE_TTL
  }

  /** The open sessions of some keys. */
  function SessionsOf(pool: map<Key, Entry>, keys: set<Key>): set<nat> {
    set key | key in keys && key in pool && pool[key].session.Some? :: pool[key].session.value
  }
}
