/** The cross-replica lock around every session operation: `SET key token PX ttl NX` to acquire, compare-and-delete
    to release, and a degraded mode without a lock.  Replicas, their pools and the Redis key form one system. */
module ClusterLock {
  import opened Prelude
  import P = SshPool

  const LOCK_TTL_MS: nat := 180000
  const LOCK_WAIT_MS: nat := 60000
  const LOCK_RETRY_MS: nat := 100

  /** A lock token is drawn anew for every acquisition; the replica and the call identify it. */
  datatype Token = Token(replica: nat, call: P.CallId)

  /** The Redis key: its value and the time it expires. */
  datatype Key = Key(value: Option<Token>, expiry: int)

  predicate Free(k: Key, now: int) {
    k.value.None? || k.expiry <= now
  }

  /** The release script: delete the key only while it holds the caller's own token. */
  function Released(k: Key, token: Token): Key {
    if k.value == Some(token) then k.(value := None) else k
  }

  // ---------------------------------------------------------------- one acquisition, step by step

  datatype Reply = Stored | Refused | Thrown

  class Redis {
    var now: int
    var key: Key
    /** History: the SETs of the own acquisition that were refused or stored, those that threw, and how often another
        caller stored its token. */
    ghost var answered: nat
    ghost var thrown: nat
    ghost var taken: nat

    constructor (now: int, key: Key)
      ensures this.now == now && this.key == key && answered == thrown == taken == 0
    {
      this.now, this.key := now, key;
      answered, thrown, taken := 0, 0, 0;
    }

    /** `SET NX PX`; a failing command may have stored the token all the same. */
    method SetNx(token: Token) returns (reply: Reply)
      modifies this
      ensures now == old(now) && taken == old(taken)
      ensures reply.Stored? ==> Free(old(key), now) && key == Key(Some(token), now + LOCK_TTL_MS)
      ensures reply.Refused? ==> !Free(old(key), now) && key == old(key)
      ensures reply.Thrown? ==> key == old(key) || (Free(old(key), now) && key == Key(Some(token), now + LOCK_TTL_MS))
      ensures thrown == old(thrown) + (if reply.Thrown? then 1 else 0)
      ensures answered == old(answered) + (if reply.Thrown? then 0 else 1)
    {
      var fails: bool := *;
      var lands: bool := *;
      reply := if fails then Thrown else if Free(key, now) then Stored else Refused;
      if Free(key, now) && (lands || !fails) {
        key := Key(Some(token), now + LOCK_TTL_MS);
      }
      if fails {
        thrown := thrown + 1;
      } else {
        answered := answered + 1;
      }
    }

    /** The release script: a key that holds the token is free, any other is as it was. */
    method Eval(token: Token)
      modifies this`key
      ensures key == Released(old(key), token)
      ensures old(key).value == Some(token) ==> forall at :: Free(key, at)
      ensures old(key).value != Some(token) ==> key == old(key)
    {
      if key.value == Some(token) {
        key := key.(value := None);
      }
    }

    /** Time passes while other callers acquire a free key or release their own tokens. */
    method Others(token: Token, ms: nat)
      modifies this
      ensures now == old(now) + ms && thrown == old(thrown) && answered == old(answered) && taken >= old(taken)
      ensures old(key).value == Some(token) && now < old(key).expiry ==> key == old(key)
      ensures key.value == Some(token) ==> key == old(key)
      ensures taken == old(taken) && Free(old(key), now) ==> Free(key, now)
    {
      now := now + ms;
      var other: Token := *;
      var acquires: bool := *;
      var releases: bool := *;
      if other != token {
        if Free(key, now) && acquires {
          key := Key(Some(other), now + LOCK_TTL_MS);
          taken := taken + 1;
        } else if releases {
          Eval(other);
        }
      }
    }

    /** One SET and its round trip of at most `slow` milliseconds; `at` is when it took effect. */
    method TrySet(token: Token, slow: nat) returns (reply: Reply, at: int)
      requires key.value != Some(token)
      modifies this
      ensures old(now) <= at <= now <= old(now) + slow
      ensures reply.Stored? && now < at + LOCK_TTL_MS ==> key == Key(Some(token), at + LOCK_TTL_MS)
      ensures reply.Refused? ==> key.value != Some(token)
      ensures taken >= old(taken) && thrown == old(thrown) + (if reply.Thrown? then 1 else 0)
      ensures answered == old(answered) + (if reply.Thrown? then 0 else 1)
      ensures Free(old(key), old(now)) && reply.Refused? ==> taken > old(taken)
    {
      assert 0 + 0 <= slow;
      var out: nat, back: nat :| out + back <= slow;
      Others(token, out);
      at := now;
      reply := SetNx(token);
      Others(token, back);
    }

    /** `acquireClusterLock`: retry until the key is stored, the command fails or the wait budget is spent; the
        result says whether the returned release function will act, and if so since when the token is stored. */
    method AcquireClusterLock(ready: bool, token: Token, slow: nat) returns (granted: bool, since: int)
      requires key.value != Some(token)
      modifies this
      ensures granted ==> ready && old(now) <= since <= now <= since + slow
      ensures granted && now < since + 180000 ==> key == Key(Some(token), since + 180000)
      ensures !ready ==> !granted && now == old(now) && key == old(key)
      ensures now < old(now) + 60100 + slow
      ensures ready && !granted ==> thrown > old(thrown) || now >= old(now) + 60000
      ensures granted ==> thrown == old(thrown) && answered > old(answered)
      ensures ready && (old(key).value.None? || old(key).expiry <= old(now)) ==>
                taken == old(taken) && thrown == old(thrown) ==> granted && answered == old(answered) + 1
    {
      since := now;
      if !ready {
        return false, now;
      }
      var deadline := now + LOCK_WAIT_MS;
      while true
        invariant old(now) <= now < deadline + LOCK_RETRY_MS && deadline == old(now) + LOCK_WAIT_MS
        invariant key.value != Some(token)
        invariant thrown == old(thrown) && taken >= old(taken) && answered >= old(answered)
        invariant Free(old(key), old(now)) && taken == old(taken) ==> answered == old(answered) && Free(key, now)
        decreases deadline + LOCK_RETRY_MS - now
      {
        var reply;
        reply, since := TrySet(token, slow);
        match reply {
          case Thrown => return false, since;
          case Stored => return true, since;
          case Refused =>
        }
        if now >= deadline {
          return false, since;
        }
        Others(token, LOCK_RETRY_MS);
      }
    }
  }

  // ---------------------------------------------------------------- the cluster

  /** `pools` holds the run of each replica's pool so far, `grants` the times at which tokens were stored for a
      caller that knows it, `released` the tokens whose release has landed. */
  datatype Cluster = Cluster(
    now: int, key: Key, pools: map<nat, P.Trace>, grants: map<Token, int>, released: set<Token>)

  datatype Event =
    | Wait(ms: nat)
    | Local(replica: nat, event: P.Event)
    | Acquire(token: Token)
    | Degrade(token: Token, stored: bool)
    | Release(token: Token)

  ghost predicate PoolCan(s: Cluster, r: nat, e: P.Event) {
    r in s.pools && P.Valid(s.pools[r]) && P.Enabled(P.End(s.pools[r]), e)
  }

  ghost predicate IsFinished(s: Cluster, t: Token) {
    && t.replica in s.pools && P.Valid(s.pools[t.replica])
    && var pool := P.End(s.pools[t.replica]);
       t.call in pool.calls && pool.calls[t.call].phase.Finished?
  }

  /** A degraded caller (Redis down, a failed command, or the wait budget spent) goes on without a grant. */
  ghost predicate Enabled(s: Cluster, e: Event) {
    match e
    case Wait(_) => true
    case Local(r, pe) => !pe.TakeLock? && PoolCan(s, r, pe)
    case Acquire(t) => PoolCan(s, t.replica, P.TakeLock(t.call)) && Free(s.key, s.now)
    case Degrade(t, stored) => PoolCan(s, t.replica, P.TakeLock(t.call)) && (stored ==> Free(s.key, s.now))
    case Release(t) => t in s.grants && IsFinished(s, t)
  }

  function WithPool(s: Cluster, r: nat, e: P.Event): Cluster
    requires r in s.pools
  {
    s.(pools := s.pools[r := P.Snoc(s.pools[r], e)])
  }

  ghost function Step(s: Cluster, e: Event): Cluster
    requires Enabled(s, e)
  {
    match e
    case Wait(ms) => s.(now := s.now + ms)
    case Local(r, pe) => WithPool(s, r, pe)
    case Acquire(t) =>
      WithPool(s, t.replica, P.TakeLock(t.call))
        .(key := Key(Some(t), s.now + LOCK_TTL_MS), grants := s.grants[t := s.now])
    case Degrade(t, stored) =>
      WithPool(s, t.replica, P.TakeLock(t.call))
        .(key := if stored then Key(Some(t), s.now + LOCK_TTL_MS) else s.key)
    case Release(t) => s.(key := Released(s.key, t), released := s.released + {t})
  }

  /** A caller whose token was stored, whose release has not landed, and whose lease has not run out. */
  predicate InForce(s: Cluster, t: Token) {
    t in s.grants && t !in s.released && s.now < s.grants[t] + LOCK_TTL_MS
  }

  ghost predicate Inv(s: Cluster) {
    && (forall r :: r in s.pools ==> P.Valid(s.pools[r]))
    && (forall t :: InForce(s, t) ==> s.key == Key(Some(t), s.grants[t] + LOCK_TTL_MS))
    && (forall t :: t in s.released ==> IsFinished(s, t))
  }

  ghost predicate Init(s: Cluster) {
    && (forall r :: r in s.pools ==> s.pools[r] == P.Empty)
    && s.grants == map[] && s.released == {}
  }

  lemma FinishedStays(s: P.Pool, e: P.Event, c: P.CallId)
    requires P.Enabled(s, e) && c in s.calls && s.calls[c].phase.Finished?
    ensures c in P.Step(s, e).calls && P.Step(s, e).calls[c].phase.Finished?
  {
  }

  lemma WithPoolInv(s: Cluster, r: nat, e: P.Event)
    requires Inv(s) && PoolCan(s, r, e)
    ensures Inv(WithPool(s, r, e))
  {
    var s' := WithPool(s, r, e);
    forall t | t in s'.released ensures IsFinished(s', t) {
      assert IsFinished(s, t);
      if t.replica == r { FinishedStays(P.End(s.pools[r]), e, t.call); }
    }
    forall t | InForce(s', t) ensures s'.key == Key(Some(t), s'.grants[t] + LOCK_TTL_MS) {
      assert InForce(s, t);
    }
  }

  lemma StepInv(s: Cluster, e: Event)
    requires Inv(s) && Enabled(s, e)
    ensures Inv(Step(s, e))
  {
    var s' := Step(s, e);
    match e
    case Wait(_) =>
      forall t | InForce(s', t) ensures s'.key == Key(Some(t), s'.grants[t] + LOCK_TTL_MS) { assert InForce(s, t); }
      forall t | t in s'.released ensures IsFinished(s', t) { assert IsFinished(s, t); }
    case Local(r, pe) => WithPoolInv(s, r, pe);
    case Acquire(g) => StoreInv(s, e, g);
    case Degrade(g, _) => StoreInv(s, e, g);
    case Release(g) =>
      forall t | InForce(s', t) ensures s'.key == Key(Some(t), s'.grants[t] + LOCK_TTL_MS) { assert InForce(s, t); }
      forall t | t in s'.released ensures IsFinished(s', t) { assert t == g || IsFinished(s, t); }
  }

  /** A free key means that no grant is in force, so storing a new token takes the lock from nobody. */
  lemma StoreInv(s: Cluster, e: Event, g: Token)
    requires Inv(s) && Enabled(s, e) && (e == Acquire(g) || (e.Degrade? && e.token == g))
    ensures Inv(Step(s, e))
  {
    WithPoolInv(s, g.replica, P.TakeLock(g.call));
    var m, s' := WithPool(s, g.replica, P.TakeLock(g.call)), Step(s, e);
    forall t | t in s'.released ensures IsFinished(s', t) { assert IsFinished(m, t); }
    forall t | InForce(s', t) ensures s'.key == Key(Some(t), s'.grants[t] + LOCK_TTL_MS) {
      if t != g || e.Degrade? { assert InForce(s, t); }
    }
  }

  /** A run of the cluster, last event outermost. */
  datatype Run = Start(first: Cluster) | Then(before: Run, event: Event)

  ghost predicate Valid(r: Run)
    decreases r, 0
  {
    match r
    case Start(s) => Init(s)
    case Then(b, e) => Valid(b) && Enabled(End(b), e)
  }

  ghost function End(r: Run): Cluster
    requires Valid(r)
    decreases r, 1
  {
    match r
    case Start(s) => s
    case Then(b, e) => Step(End(b), e)
  }

  lemma {:induction false} RunInv(r: Run)
    requires Valid(r)
    ensures Inv(End(r))
  {
    match r
    case Start(_) =>
    case Then(b, e) =>
      RunInv(b);
      StepInv(End(b), e);
  }

  /** The `fn` of this call is running. */
  ghost predicate Running(s: Cluster, t: Token) {
    && t.replica in s.pools && P.Valid(s.pools[t.replica])
    && var pool := P.End(s.pools[t.replica]);
       t.call in pool.calls && pool.calls[t.call].phase.Running?
  }

  /** A holder within its lease owns the stored token, and a release of any other token leaves the key alone. */
  lemma HolderOwnsKey(r: Run, t: Token, other: Token)
    requires Valid(r) && InForce(End(r), t) && other != t
    ensures End(r).key == Key(Some(t), End(r).grants[t] + LOCK_TTL_MS)
    ensures Released(End(r).key, other) == End(r).key
  {
    RunInv(r);
  }

  /** Once a holder's release has landed within its lease the key is free: the next caller can acquire it at once. */
  lemma ReleaseFreesTheKey(r: Run, t: Token)
    requires Valid(r) && InForce(End(r), t) && IsFinished(End(r), t)
    ensures Enabled(End(r), Release(t))
    ensures Free(Step(End(r), Release(t)).key, End(r).now)
    ensures forall next: Token :: PoolCan(End(r), next.replica, P.TakeLock(next.call)) ==>
              Enabled(Step(End(r), Release(t)), Acquire(next))
  {
    RunInv(r);
  }

  /** The call's acquisition did not degrade and its lease has not run out. */
  predicate InLease(s: Cluster, t: Token) {
    t in s.grants && s.now < s.grants[t] + LOCK_TTL_MS
  }

  /** Two calls anywhere in the cluster never run their `fn`s at once while both are within a lease they acquired,
      whatever was evicted in their replicas meanwhile. */
  lemma ClusterExclusion(r: Run, a: Token, b: Token)
    requires Valid(r) && Running(End(r), a) && Running(End(r), b)
    requires InLease(End(r), a) && InLease(End(r), b)
    ensures a == b
  {
    RunInv(r);
    var s := End(r);
    assert !IsFinished(s, a) && !IsFinished(s, b);
    assert InForce(s, a) && InForce(s, b);
  }

  /** So two calls running at once are on different replicas (or an entry was evicted under a call), and one of them
      degraded or outlived its lease. */
  lemma OverlapExplained(r: Run, a: Token, b: Token)
    requires Valid(r) && Running(End(r), a) && Running(End(r), b) && a != b
    ensures !InLease(End(r), a) || !InLease(End(r), b)
    ensures a.replica == b.replica ==> !P.Quiet(End(r).pools[a.replica])
  {
    if InLease(End(r), a) && InLease(End(r), b) {
      ClusterExclusion(r, a, b);
    }
    if a.replica == b.replica && P.Quiet(End(r).pools[a.replica]) {
      P.PoolExclusion(End(r).pools[a.replica], a.call, b.call);
    }
  }

  // ---------------------------------------------------------------- runs in which no acquisition degrades

  ghost predicate Undegraded(r: Run) {
    r.Then? ==> Undegraded(r.before) && !r.event.Degrade?
  }

  predicate HoldsLock(s: P.Pool, c: P.CallId) {
    c in s.calls && (s.calls[c].phase.Locked? || s.calls[c].phase.Running?)
  }

  /** Only taking the lock gets a call past it. */
  lemma LockedBefore(s: P.Pool, e: P.Event, c: P.CallId)
    requires P.Enabled(s, e) && HoldsLock(P.Step(s, e), c) && e != P.TakeLock(c)
    ensures HoldsLock(s, c)
  {
  }

  ghost predicate LockedHasGrant(s: Cluster) {
    forall r, c :: r in s.pools && P.Valid(s.pools[r]) && HoldsLock(P.End(s.pools[r]), c) ==> Token(r, c) in s.grants
  }

  lemma GrantStep(s: Cluster, e: Event)
    requires Inv(s) && LockedHasGrant(s) && Enabled(s, e) && !e.Degrade?
    ensures LockedHasGrant(Step(s, e))
  {
    var t := Step(s, e);
    forall r, c | r in t.pools && P.Valid(t.pools[r]) && HoldsLock(P.End(t.pools[r]), c)
      ensures Token(r, c) in t.grants
    {
      if t.pools[r] != s.pools[r] {
        var pe := t.pools[r].event;
        if pe != P.TakeLock(c) {
          LockedBefore(P.End(s.pools[r]), pe, c);
        }
      }
    }
  }

  lemma {:induction false} UndegradedGrants(r: Run)
    requires Valid(r) && Undegraded(r)
    ensures LockedHasGrant(End(r))
  {
    if r.Then? {
      RunInv(r.before);
      UndegradedGrants(r.before);
      GrantStep(End(r.before), r.event);
    }
  }

  /** Every running operation is still within the TTL of its lock. */
  ghost predicate Punctual(s: Cluster) {
    forall t :: Running(s, t) && t in s.grants ==> s.now < s.grants[t] + LOCK_TTL_MS
  }

  /** If no acquisition degraded and every operation ends within the TTL, no two `fn`s run on the device at once, on any
      replicas and under any evictions. */
  lemma OneFnInTheCluster(r: Run, a: Token, b: Token)
    requires Valid(r) && Undegraded(r) && Punctual(End(r)) && Running(End(r), a) && Running(End(r), b)
    ensures a == b
  {
    UndegradedGrants(r);
    var s := End(r);
    assert HoldsLock(P.End(s.pools[a.replica]), a.call) && HoldsLock(P.End(s.pools[b.replica]), b.call);
    assert Token(a.replica, a.call) == a && Token(b.replica, b.call) == b;
    ClusterExclusion(r, a, b);
  }
}
