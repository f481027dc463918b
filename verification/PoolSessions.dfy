/** Which session a call drives, and what becomes of every session the pool has opened: one is opened per entry and used
    again by every call on it, and none is forgotten unless its entry was evicted before it was opened. */
module PoolSessions {
  import opened Prelude
  import opened SshPool

  // ---------------------------------------------------------------- one session per entry

  /** How many entries have a session. */
  function Opened(entries: seq<Entry>): nat {
    if entries == [] then 0
    else Opened(entries[..|entries| - 1]) + if entries[|entries| - 1].session.Some? then 1 else 0
  }

  lemma {:induction false} OpenedAtMost(entries: seq<Entry>)
    ensures Opened(entries) <= |entries|
  {
    if entries != [] {
      OpenedAtMost(entries[..|entries| - 1]);
    }
  }

  /** Only whether there is a session counts. */
  lemma {:induction false} OpenedSame(a: seq<Entry>, b: seq<Entry>)
    requires |a| == |b| && forall e :: 0 <= e < |a| ==> (a[e].session.Some? <==> b[e].session.Some?)
    ensures Opened(a) == Opened(b)
  {
    if a != [] {
      OpenedSame(a[..|a| - 1], b[..|b| - 1]);
    }
  }

  lemma {:induction false} OpenedOneMore(a: seq<Entry>, b: seq<Entry>, e: nat)
    requires |a| == |b| && e < |a| && a[e].session.None? && b[e].session.Some?
    requires forall i :: 0 <= i < |a| && i != e ==> (a[i].session.Some? <==> b[i].session.Some?)
    ensures Opened(b) == Opened(a) + 1
  {
    var n := |a| - 1;
    if e == n {
      OpenedSame(a[..n], b[..n]);
    } else {
      OpenedOneMore(a[..n], b[..n], e);
    }
  }

  /** The entries after an event: what is there keeps its session if it has one, and what is new has none. */
  predicate SessionsCarried(s: Pool, t: Pool) {
    && |s.entries| <= |t.entries|
    && (forall e :: 0 <= e < |s.entries| && s.entries[e].session.Some? ==>
          t.entries[e].session == s.entries[e].session)
    && (forall e :: |s.entries| <= e < |t.entries| ==> t.entries[e].session.None?)
  }

  lemma StepCarries(s: Pool, e: Event)
    requires Sound(s) && Enabled(s, e)
    ensures SessionsCarried(s, Step(s, e))
    ensures |Step(s, e).entries| <= |s.entries| + 1
    ensures !e.Begin? ==> forall i :: 0 <= i < |s.entries| ==> Step(s, e).entries[i].session == s.entries[i].session
  {
    match e
    case Begin(c) =>
    case Invoke(c) =>
    case CheckIdentity(c) =>
    case TakeLock(c) =>
    case ConnectFails(c) => FinishCarries(Evicted(s), c);
    case Settle(c, ok) => FinishCarries(if ok then s else Evicted(s), c);
    case Evict =>
  }

  lemma FinishCarries(s: Pool, c: CallId)
    requires c in s.calls
    ensures var t := Finish(s, c);
            && |t.entries| == |s.entries|
            && forall i :: 0 <= i < |s.entries| ==> t.entries[i].session == s.entries[i].session
  {
  }

  /** The sessions opened so far are those of the entries. */
  lemma {:induction false} SessionsAreCounted(r: Trace)
    requires Valid(r)
    ensures End(r).sessions == Opened(End(r).entries)
  {
    if r.Snoc? {
      SessionsAreCounted(r.before);
      RunSound(r.before);
      CountStep(End(r.before), r.event);
    }
  }

  lemma BeginCounts(s: Pool, c: CallId)
    requires Sound(s) && Enabled(s, Begin(c)) && s.sessions == Opened(s.entries)
    ensures BeginFn(s, c).sessions == Opened(BeginFn(s, c).entries)
  {
    var t, at := BeginFn(s, c), s.calls[c].top;
    if s.entries[at].session.None? {
      OpenedOneMore(s.entries, t.entries, at);
    } else {
      OpenedSame(s.entries, t.entries);
    }
  }

  lemma CountStays(a: seq<Entry>, b: seq<Entry>)
    requires |a| <= |b| <= |a| + 1
    requires forall e :: 0 <= e < |a| ==> b[e].session == a[e].session
    requires forall e :: |a| <= e < |b| ==> b[e].session.None?
    ensures Opened(b) == Opened(a)
  {
    OpenedSame(a, b[..|a|]);
    if |b| > |a| {
      assert b[..|b| - 1] == b[..|a|];
    } else {
      assert b[..|a|] == b;
    }
  }

  lemma CountStep(s: Pool, e: Event)
    requires Sound(s) && Enabled(s, e) && s.sessions == Opened(s.entries)
    ensures Step(s, e).sessions == Opened(Step(s, e).entries)
  {
    if e.Begin? {
      BeginCounts(s, e.c);
    } else {
      StepCarries(s, e);
      CountStays(s.entries, Step(s, e).entries);
    }
  }

  /** One session is opened per entry, at most. */
  lemma OneSessionPerEntry(r: Trace)
    requires Valid(r)
    ensures End(r).sessions <= |End(r).entries|
  {
    SessionsAreCounted(r);
    OpenedAtMost(End(r).entries);
  }

  predicate Extends(r: Trace, later: Trace) {
    later == r || (later.Snoc? && Extends(r, later.before))
  }

  lemma {:induction false} EntriesKeepSessions(r: Trace, later: Trace)
    requires Valid(r) && Valid(later) && Extends(r, later)
    ensures |End(r).entries| <= |End(later).entries|
    ensures forall e :: 0 <= e < |End(r).entries| && End(r).entries[e].session.Some? ==>
              End(later).entries[e].session == End(r).entries[e].session
  {
    if later != r {
      EntriesKeepSessions(r, later.before);
      RunSound(later.before);
      StepCarries(End(later.before), later.event);
    }
  }

  /** However far apart they run, two `fn`s on one entry drive one and the same session. */
  lemma SameEntrySameSession(r: Trace, later: Trace, c: CallId, d: CallId)
    requires Valid(r) && Valid(later) && Extends(r, later)
    requires c in End(r).calls && End(r).calls[c].phase.Running?
    requires d in End(later).calls && End(later).calls[d].phase.Running?
    requires End(r).calls[c].top == End(later).calls[d].top
    ensures End(later).calls[d].phase.session == End(r).calls[c].phase.session
  {
    RunPlaced(r);
    RunPlaced(later);
    EntriesKeepSessions(r, later);
  }

  /** So as long as nothing was evicted every `fn` that ever ran was on the same session, the only one opened. */
  lemma NoEvictionOneSession(r: Trace, later: Trace, c: CallId, d: CallId)
    requires Valid(r) && Valid(later) && Extends(r, later) && End(later).evictions == 0
    requires c in End(r).calls && End(r).calls[c].phase.Running?
    requires d in End(later).calls && End(later).calls[d].phase.Running?
    ensures End(later).calls[d].phase.session == End(r).calls[c].phase.session
    ensures End(later).sessions == 1
  {
    RunSound(r);
    RunSound(later);
    RunPlaced(r);
    RunPlaced(later);
    EntriesKeepSessions(r, later);
    OneSessionPerEntry(later);
    assert |End(later).entries| <= 1;
    SameEntrySameSession(r, later, c, d);
  }

  // ---------------------------------------------------------------- no session is forgotten, or which

  /** Session `n` was opened on an entry that was no longer the pooled one. */
  ghost predicate OpenedLate(r: Trace, n: nat)
    requires Valid(r)
  {
    r.Snoc? && (OpenedLate(r.before, n) || (r.event.Begin? && OpensLate(End(r.before), r.event.c, n)))
  }

  predicate OpensLate(s: Pool, c: CallId, n: nat)
    requires Ready(s, c)
  {
    var at := s.calls[c].top;
    s.entries[at].session.None? && n == s.sessions && s.current != Some(at)
  }

  /** The pooled entry holds the session. */
  predicate Pools(s: Pool, n: nat) {
    Pooled(s) && s.entries[s.current.value].session == Some(n)
  }

  ghost predicate Held(s: Pool, n: nat) {
    exists e :: 0 <= e < |s.entries| && s.entries[e].session == Some(n)
  }

  /** What is known of session `n`: an entry has it, and it is pooled, closed or opened late, and only one of these. */
  ghost predicate Kept(s: Pool, n: nat, late: bool) {
    && (n < s.sessions ==> Held(s, n))
    && (n >= s.sessions ==> n !in s.closed && !late && !Held(s, n))
    && (n < s.sessions ==> Pools(s, n) || n in s.closed || late)
    && !(Pools(s, n) && n in s.closed) && !(Pools(s, n) && late) && !(n in s.closed && late)
  }

  lemma BeginKept(s: Pool, c: CallId, n: nat, late: bool)
    requires Sound(s) && SessionsPlaced(s) && Ready(s, c) && s.calls[c].phase.Locked? && Kept(s, n, late)
    ensures Kept(BeginFn(s, c), n, late || OpensLate(s, c, n))
  {
    var t, at := BeginFn(s, c), s.calls[c].top;
    assert t.entries[at].session.Some?;
    if Held(s, n) {
      var e :| 0 <= e < |s.entries| && s.entries[e].session == Some(n);
      assert t.entries[e].session == Some(n);
    }
    if s.entries[at].session.None? && n == s.sessions {
      assert t.entries[at].session == Some(n);
    }
  }

  /** An event that opens nothing, with or without an eviction. */
  lemma QuietKept(s: Pool, t: Pool, n: nat, late: bool)
    requires Kept(s, n, late) && SessionsPlaced(s) && t.sessions == s.sessions && |s.entries| <= |t.entries|
    requires forall e :: 0 <= e < |t.entries| ==>
               t.entries[e].session == if e < |s.entries| then s.entries[e].session else None
    requires EntriesSound(s)
    requires
      || (t.current == s.current && t.closed == s.closed)
      || (s.current.None? && t.current == Some(|s.entries|) && t.closed == s.closed)
      || (t.current.None? && t.closed == Evicted(s).closed)
    ensures Kept(t, n, late)
  {
    if Held(s, n) {
      var e :| 0 <= e < |s.entries| && s.entries[e].session == Some(n);
      assert t.entries[e].session == Some(n);
    }
    if Held(t, n) {
      var e :| 0 <= e < |t.entries| && t.entries[e].session == Some(n);
      assert s.entries[e].session == Some(n);
    }
  }

  lemma StepKept(s: Pool, e: Event, n: nat, late: bool)
    requires Sound(s) && SessionsPlaced(s) && Enabled(s, e) && Kept(s, n, late)
    ensures Kept(Step(s, e), n, late || (e.Begin? && OpensLate(s, e.c, n)))
  {
    StepCarries(s, e);
    match e
    case Begin(c) => BeginKept(s, c, n, late);
    case Invoke(c) => QuietKept(s, Step(s, e), n, late);
    case CheckIdentity(c) => QuietKept(s, Step(s, e), n, late);
    case TakeLock(c) => QuietKept(s, Step(s, e), n, late);
    case ConnectFails(c) => QuietKept(s, Step(s, e), n, late);
    case Settle(c, ok) => QuietKept(s, Step(s, e), n, late);
    case Evict => QuietKept(s, Step(s, e), n, late);
  }

  lemma {:induction false} RunKept(r: Trace, n: nat)
    requires Valid(r)
    ensures Kept(End(r), n, OpenedLate(r, n))
  {
    if r.Snoc? {
      RunKept(r.before, n);
      RunSound(r.before);
      RunPlaced(r.before);
      StepKept(End(r.before), r.event, n, OpenedLate(r.before, n));
    }
  }

  /** In every run each session opened is some entry's. It is the pooled entry's, or it was closed; but for those opened
      on an entry that had been evicted before, which nothing ever closes. */
  lemma ForgottenIffOpenedLate(r: Trace, n: nat)
    requires Valid(r) && n < End(r).sessions
    ensures exists e :: 0 <= e < |End(r).entries| && End(r).entries[e].session == Some(n)
    ensures !Pools(End(r), n) && n !in End(r).closed <==> OpenedLate(r, n)
  {
    RunKept(r, n);
  }

  /** In a quiet run that cannot be, so no session is forgotten. */
  lemma {:induction false} QuietForgetsNone(r: Trace, n: nat)
    requires Valid(r) && Quiet(r)
    ensures !OpenedLate(r, n)
    ensures n < End(r).sessions ==> Pools(End(r), n) || n in End(r).closed
  {
    if r.Snoc? {
      QuietForgetsNone(r.before, n);
      RunExclusive(r.before);
    }
    RunKept(r, n);
  }

  /** Otherwise it can: an eviction while a call holds the lock and has not connected yet. Its session outlives the
      call, and by the theorem above every continuation leaves it open. */
  lemma EvictedBeforeConnecting(r: Trace, c: CallId) returns (later: Trace)
    requires Valid(r) && Enabled(End(r), Begin(c)) && End(r).current == Some(End(r).calls[c].top)
    requires End(r).entries[End(r).calls[c].top].session.None?
    ensures Valid(later) && Extends(r, later)
    ensures c in End(later).calls && End(later).calls[c].phase.Finished?
    ensures OpenedLate(later, End(r).sessions) && End(r).sessions < End(later).sessions
  {
    var s := End(r);
    var gone, begun := Snoc(r, Evict), Snoc(Snoc(r, Evict), Begin(c));
    later := Snoc(begun, Settle(c, true));
    assert Valid(gone) && End(gone) == Evicted(s) && Ready(End(gone), c);
    assert Valid(begun) && End(begun) == BeginFn(Evicted(s), c);
    assert OpensLate(End(gone), c, s.sessions) && OpenedLate(begun, s.sessions);
    assert Ready(End(begun), c);
    assert Extends(r, gone) && Extends(r, begun);
  }
}
