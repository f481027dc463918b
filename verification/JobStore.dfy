/** The job engine's statements in their own form: each method is one SQL statement on the stored tables, or the device
    loop of one worker with everybody else's statements in between. Every method moves the system of JobQueue by its own
    events, so what is proved of runs holds of the tables. */
module JobStore {
  import opened Prelude
  import opened JobQueue
  import opened JobQueueSafety

  /** ORDER BY run_after NULLS FIRST, created_at. */
  predicate Before(a: Job, b: Job) {
    if a.runAfter.None? || b.runAfter.None? then
      (a.runAfter.None? && b.runAfter.Some?) || (a.runAfter == b.runAfter && a.createdAt < b.createdAt)
    else a.runAfter.value < b.runAfter.value || (a.runAfter == b.runAfter && a.createdAt < b.createdAt)
  }

  /** The job does not wait for longer than the other, and was not created later if for as long: one that waits for no
      time comes first. */
  predicate ComesNoLater(a: Job, b: Job) {
    && (b.runAfter.None? ==> a.runAfter.None?)
    && (a.runAfter.Some? && b.runAfter.Some? ==> a.runAfter.value <= b.runAfter.value)
    && (a.runAfter == b.runAfter ==> a.createdAt <= b.createdAt)
  }

  /** The rows one attempt writes when device `i` ends as `oks[i]`. */
  function AttemptRows(t: Ticket, devices: seq<DeviceId>, oks: seq<bool>): seq<ResultRow>
    requires |oks| == |devices|
  {
    seq(|devices|, i requires 0 <= i < |devices| => ResultRow(t, devices[i], oks[i]))
  }

  /** The worker of ticket `t` itself takes these, and nobody else. */
  predicate IsStepOf(e: Event, t: Ticket) {
    e == Die(t) || (e.DeviceDone? && e.ticket == t) || (e.Finish? && e.ticket == t)
  }

  /** How the execution of a claimed job ends: its finish statement is through, or a result could not be stored because
      the job is gone. */
  datatype Ending = Ended | JobGone

  class Store {
    var jobs: map<JobId, Job>
    var results: seq<ResultRow>
    /** What the workers hold in memory, and the ids given out so far. */
    var execs: map<Ticket, Exec>
    var used: set<JobId>

    function Q(): Queue
      reads this
    {
      Queue(jobs, results, execs, used)
    }

    ghost predicate Valid()
      reads this
    {
      Inv(Q())
    }

    constructor ()
      ensures Valid() && Q() == EMPTY
    {
      jobs, results, execs, used := map[], [], map[], {};
    }

    /** One event of anybody. */
    method Do(e: Event)
      requires Valid() && Enabled(Q(), e) && Honest(false, Q(), e)
      modifies this
      ensures Valid() && Q() == Step(false, old(Q()), e)
    {
      StepInv(false, Q(), e);
      var s := Step(false, Q(), e);
      jobs, results, execs, used := s.jobs, s.results, s.execs, s.used;
    }

    /** Claim the first runnable job in queue order that no other transaction has locked. */
    method ClaimNextJob(w: Worker, now: int, locked: set<JobId>) returns (claimed: Option<JobId>)
      requires Valid()
      modifies this
      ensures Valid()
      ensures claimed.None? ==>
                && Q() == old(Q())
                && forall id :: id in jobs && id !in locked ==>
                     || !jobs[id].status.Pending?
                     || (jobs[id].runAfter.Some? && jobs[id].runAfter.value > now)
                     || (jobs[id].cron && (jobs[id].nextRunAt.None? || jobs[id].nextRunAt.value > now))
      ensures claimed.Some? ==>
                && claimed.value in old(jobs)
                && var j := old(jobs)[claimed.value];
                   && j.status.Pending?
                   && (j.runAfter.Some? ==> j.runAfter.value <= now)
                   && (j.cron ==> j.nextRunAt.Some? && j.nextRunAt.value <= now)
                   && claimed.value in jobs && jobs[claimed.value].status.Running?
                   && jobs[claimed.value].lockedBy == Some(w) && jobs[claimed.value].heartbeatAt == Some(now)
                   && jobs[claimed.value].attempts == j.attempts + 1
      ensures claimed.Some? ==>
                && claimed.value in old(jobs)
                && forall k :: k in old(jobs) && k !in locked
                     && old(jobs)[k].status.Pending?
                     && (old(jobs)[k].runAfter.Some? ==> old(jobs)[k].runAfter.value <= now)
                     && (old(jobs)[k].cron ==> old(jobs)[k].nextRunAt.Some? && old(jobs)[k].nextRunAt.value <= now)
                     ==> ComesNoLater(old(jobs)[claimed.value], old(jobs)[k])
      ensures claimed.Some? ==>
                var id := claimed.value;
                && id !in locked && Enabled(old(Q()), Claim(id, w, now))
                && Q() == Step(false, old(Q()), Claim(id, w, now))
                && forall k :: k in old(jobs) && k !in locked && Runnable(old(jobs)[k], now) ==>
                     !Before(old(jobs)[k], old(jobs)[id])
      ensures claimed.Some? ==>
                && claimed.value in jobs
                && var t := Ticket(claimed.value, jobs[claimed.value].attempts);
                   Through(Q(), t, jobs[claimed.value], [])
    {
      claimed := FirstRunnable(now, locked);
      if claimed.Some? {
        var id := claimed.value;
        StepInv(false, Q(), Claim(id, w, now));
        NoRows(results, Ticket(id, jobs[id].attempts + 1));
        jobs := jobs[id := Claimed(jobs[id], w, now)];
        execs := execs[Ticket(id, jobs[id].attempts) := Exec(w, jobs[id], 0, true, true, false)];
      }
    }

    method FirstRunnable(now: int, locked: set<JobId>) returns (found: Option<JobId>)
      ensures found.None? ==> forall id :: id in jobs && id !in locked ==> !Runnable(jobs[id], now)
      ensures found.Some? ==>
                && found.value in jobs && found.value !in locked && Runnable(jobs[found.value], now)
                && forall k :: k in jobs && k !in locked && Runnable(jobs[k], now) ==>
                     !Before(jobs[k], jobs[found.value])
    {
      found := None;
      var left := jobs.Keys;
      while left != {}
        invariant left <= jobs.Keys
        invariant found.None? ==> forall k :: k in jobs && k !in left && k !in locked ==> !Runnable(jobs[k], now)
        invariant found.Some? ==>
                    && found.value in jobs && found.value !in locked && Runnable(jobs[found.value], now)
                    && forall k :: k in jobs && k !in left && k !in locked && Runnable(jobs[k], now) ==>
                         !Before(jobs[k], jobs[found.value])
        decreases |left|
      {
        var id :| id in left;
        left := left - {id};
        if id !in locked && Runnable(jobs[id], now) && (found.None? || Before(jobs[id], jobs[found.value])) {
          found := Some(id);
        }
      }
    }

    /** `reapStaleJobs`: one UPDATE over every row. */
    method ReapStaleJobs(now: int) returns (reaped: set<JobId>)
      requires Valid()
      modifies this
      ensures Valid() && Q() == Step(false, old(Q()), Reap(now))
      ensures reaped == set id | id in old(jobs) && Stale(old(jobs)[id], now)
    {
      ghost var s := Q();
      StepInv(false, s, Reap(now));
      reaped := ReapRows(now);
      execs := Losing(execs, reaped);
      ReapStep(s, now, reaped);
    }

    method ReapRows(now: int) returns (reaped: set<JobId>)
      modifies this`jobs
      ensures jobs == ReapAll(old(jobs), now)
      ensures reaped == set id | id in old(jobs) && Stale(old(jobs)[id], now)
    {
      reaped := {};
      var left := jobs.Keys;
      ghost var before := jobs;
      while left != {}
        invariant left <= before.Keys && jobs == ReapSome(before, before.Keys - left, now)
        invariant reaped == set id | id in before && id !in left && Stale(before[id], now)
        decreases |left|
      {
        var id :| id in left;
        ReapOneMore(before, before.Keys - left, id, now);
        assert before.Keys - left + {id} == before.Keys - (left - {id});
        left := left - {id};
        if Stale(jobs[id], now) {
          jobs := jobs[id := ReapedRow(jobs[id], now)];
          reaped := reaped + {id};
        }
      }
    }

    /** A failed job goes back to pending, and if it is a one-shot there is an attempt left for it. */
    method RetryJob(id: JobId, now: int) returns (ok: bool)
      requires Valid()
      modifies this
      ensures Valid() && Q() == Step(false, old(Q()), Retry(id, now))
      ensures ok <==> id in old(jobs) && old(jobs)[id].status.Failed?
      ensures ok ==>
                && id in jobs && jobs[id].status.Pending? && jobs[id].runAfter == Some(now)
                && jobs[id].attempts == old(jobs)[id].attempts
                && jobs[id].maxAttempts >= old(jobs)[id].maxAttempts
                && (jobs[id].maxAttempts > old(jobs)[id].maxAttempts ==>
                      jobs[id].maxAttempts == old(jobs)[id].attempts + 1)
                && (!jobs[id].cron ==> jobs[id].attempts < jobs[id].maxAttempts)
    {
      StepInv(false, Q(), Retry(id, now));
      ok := id in jobs && jobs[id].status.Failed?;
      if ok {
        jobs := jobs[id := RetriedRow(jobs[id], now)];
      }
    }

    /** A cancelled job is never run again: it was pending, so no worker holds it, and it is not runnable. */
    method CancelJob(id: JobId)
      requires Valid()
      modifies this
      ensures Valid() && Q() == Step(false, old(Q()), Cancel(id))
      ensures id in old(jobs) && old(jobs)[id].status.Pending? ==> id in jobs && jobs[id].status.Cancelled?
      ensures id in jobs && jobs[id].status.Cancelled? ==>
                && (forall now :: !Runnable(jobs[id], now))
                && forall t :: t in execs && t.job == id ==> execs[t].reaped
    {
      StepInv(false, Q(), Cancel(id));
      if id in jobs && jobs[id].status.Pending? {
        jobs := jobs[id := jobs[id].(status := Cancelled)];
      }
      forall t | t in execs && t.job == id && id in jobs && jobs[id].status.Cancelled?
        ensures execs[t].reaped
      {
        assert ExecSound(Q(), t);
      }
    }

    method ClearFinished() returns (removed: nat)
      requires Valid()
      modifies this
      ensures Valid() && Q() == Step(false, old(Q()), Clear)
      ensures removed == |old(jobs)| - |jobs|
      ensures forall id :: id in jobs <==>
                id in old(jobs) && (old(jobs)[id].status.Pending? || old(jobs)[id].status.Running?)
      ensures forall id :: id in jobs ==> jobs[id] == old(jobs)[id]
    {
      StepInv(false, Q(), Clear);
      var kept := Unfinished(jobs);
      assert |kept| <= |jobs| by {
        SubsetSize(kept.Keys, jobs.Keys);
      }
      removed := |jobs| - |kept|;
      results := Cascade(results, kept);
      jobs := kept;
    }

    /** Any number of events that are not worker `t`'s own. */
    method Others(t: Ticket)
      requires Valid() && t in execs
      modifies this
      ensures Valid() && KeepsExec(old(Q()), Q(), t)
    {
      var n: nat := *;
      while n > 0
        invariant Valid() && KeepsExec(old(Q()), Q(), t)
      {
        var e: Event := *;
        if Enabled(Q(), e) && Honest(false, Q(), e) && !IsStepOf(e, t) {
          OthersKeepExec(Q(), e, t);
          Do(e);
        }
        n := n - 1;
      }
    }

    /** One device: its result row, unless the job is gone meanwhile. */
    method RunDevice(t: Ticket, row: Job, done: seq<bool>, ok: bool) returns (gone: bool)
      requires Valid() && Through(Q(), t, row, done) && |done| < |row.devices|
      modifies this
      ensures Valid()
      ensures gone ==> t.job !in jobs
      ensures !gone ==> Through(Q(), t, row, done + [ok])
    {
      ghost var s := Q();
      Others(t);
      OthersThrough(s, Q(), t, row, done);
      gone := t.job !in jobs;
      if gone {
        Do(Die(t));
      } else {
        DeviceThrough(Q(), t, row, done, ok);
        Do(DeviceDone(t, ok));
      }
    }

    /** `finishJob`: the UPDATE by id, whoever holds the job by now. */
    method FinishJob(t: Ticket, now: int, next: int)
      requires Valid() && Enabled(Q(), Finish(t, now, next))
      modifies this
      ensures Q() == Step(false, old(Q()), Finish(t, now, next))
      ensures !old(execs)[t].reaped ==> Valid()
    {
      if !execs[t].reaped {
        StepInv(false, Q(), Finish(t, now, next));
      }
      if t.job in jobs {
        var o := DecideJobOutcome(execs[t].row, execs[t].allOk, now, next);
        jobs := jobs[t.job := FinishedRow(jobs[t.job], o)];
      }
      execs := execs - {t};
    }

    /** `runClaimedJob`: device by device, a result row each, and the statement that ends the attempt, with everybody
        else's statements between any two; `oks[i]` is how device `i` ends. `before` is the system as the finish
        statement found it. */
    method RunClaimedJob(t: Ticket, oks: seq<bool>, now: int, next: int) returns (ending: Ending, ghost before: Queue)
      requires Valid() && t in execs && Through(Q(), t, execs[t].row, []) && |oks| == |execs[t].row.devices|
      modifies this
      ensures ending.JobGone? ==> Valid() && t.job !in jobs
      ensures ending.Ended? ==>
                && Inv(before) && Enabled(before, Finish(t, now, next))
                && Q() == Step(false, before, Finish(t, now, next))
                && before.execs[t].row == old(execs)[t].row
                && (before.execs[t].allOk <==> false !in oks)
                && (t.job in before.jobs ==>
                      RowsOf(before.results, t) == AttemptRows(t, old(execs)[t].row.devices, oks))
                && (!before.execs[t].reaped ==> Valid())
    {
      var row := execs[t].row;
      for i := 0 to |oks|
        invariant Valid() && Through(Q(), t, row, oks[..i])
      {
        var gone := RunDevice(t, row, oks[..i], oks[i]);
        if gone {
          return JobGone, Q();
        }
        assert oks[..i + 1] == oks[..i] + [oks[i]];
      }
      assert oks[..|oks|] == oks && row.devices[..|oks|] == row.devices;
      ghost var s := Q();
      Others(t);
      OthersThrough(s, Q(), t, row, oks);
      before := Q();
      FinishJob(t, now, next);
      ending := Ended;
    }
  }

  /** The rows after the statement has gone over some of them. */
  function ReapSome(jobs: map<JobId, Job>, done: set<JobId>, now: int): map<JobId, Job> {
    map id | id in jobs :: if id in done && Stale(jobs[id], now) then ReapedRow(jobs[id], now) else jobs[id]
  }

  lemma ReapOneMore(jobs: map<JobId, Job>, done: set<JobId>, id: JobId, now: int)
    requires id in jobs && id !in done
    ensures ReapSome(jobs, done, now)[id] == jobs[id]
    ensures ReapSome(jobs, done + {id}, now) ==
            if Stale(jobs[id], now) then ReapSome(jobs, done, now)[id := ReapedRow(jobs[id], now)]
            else ReapSome(jobs, done, now)
  {
  }

  /** The workers of reaped jobs have lost them. */
  function Losing(execs: map<Ticket, Exec>, reaped: set<JobId>): map<Ticket, Exec> {
    map t | t in execs :: if t.job in reaped then execs[t].(reaped := true) else execs[t]
  }

  lemma ReapStep(s: Queue, now: int, reaped: set<JobId>)
    requires reaped == set id | id in s.jobs && Stale(s.jobs[id], now)
    ensures Step(false, s, Reap(now)) == s.(jobs := ReapAll(s.jobs, now), execs := Losing(s.execs, reaped))
  {
  }

  /** The devices done so far, as the worker and the result table have them. */
  ghost predicate Through(s: Queue, t: Ticket, row: Job, oks: seq<bool>) {
    && t in s.execs && s.execs[t].alive && s.execs[t].row == row && s.execs[t].through == |oks| <= |row.devices|
    && (s.execs[t].allOk <==> false !in oks)
    && (t.job in s.jobs ==> RowsOf(s.results, t) == AttemptRows(t, row.devices[..|oks|], oks))
  }

  lemma OthersThrough(s: Queue, s': Queue, t: Ticket, row: Job, oks: seq<bool>)
    requires Through(s, t, row, oks) && KeepsExec(s, s', t)
    ensures Through(s', t, row, oks)
  {
  }

  lemma DeviceThrough(s: Queue, t: Ticket, row: Job, done: seq<bool>, ok: bool)
    requires Through(s, t, row, done) && |done| < |row.devices| && t.job in s.jobs
    ensures Enabled(s, DeviceDone(t, ok))
    ensures Through(Step(false, s, DeviceDone(t, ok)), t, row, done + [ok])
  {
    var i := |done|;
    RowsOfAppend(s.results, ResultRow(t, row.devices[i], ok), t);
    assert AttemptRows(t, row.devices[..i + 1], done + [ok])
        == AttemptRows(t, row.devices[..i], done) + [ResultRow(t, row.devices[i], ok)];
  }

  /** Worker `t`'s execution is where it was, except that it may have been reaped, and so are its result rows as long
      as its job is there. */
  ghost predicate KeepsExec(s: Queue, s': Queue, t: Ticket) {
    && t in s.execs && t in s'.execs
    && s'.execs[t].(reaped := s.execs[t].reaped) == s.execs[t]
    && (t.job in s'.jobs ==> t.job in s.jobs && RowsOf(s'.results, t) == RowsOf(s.results, t))
  }

  lemma OthersKeepExec(s: Queue, e: Event, t: Ticket)
    requires Inv(s) && Enabled(s, e) && t in s.execs && !IsStepOf(e, t)
    ensures KeepsExec(s, Step(false, s, e), t)
  {
    assert ExecSound(s, t);
    if e.DeviceDone? {
      RowsOfAppend(s.results, ResultRow(e.ticket, s.execs[e.ticket].row.devices[s.execs[e.ticket].through], e.ok), t);
    } else if e.Clear? {
      if t.job in Unfinished(s.jobs) {
        CascadeKeeps(s.results, Unfinished(s.jobs), t);
      }
    } else {
      JobEventKeepsExec(s, e, t);
    }
  }

  /** Events that leave the result rows alone. */
  lemma JobEventKeepsExec(s: Queue, e: Event, t: Ticket)
    requires Enabled(s, e) && t in s.execs && ExecSound(s, t) && t.job in s.used
    requires !IsStepOf(e, t) && !e.DeviceDone? && !e.Clear?
    ensures KeepsExec(s, Step(false, s, e), t)
  {
  }

  lemma {:induction false} SubsetSize(a: set<JobId>, b: set<JobId>)
    requires a <= b
    ensures |a| <= |b|
  {
    if a != {} {
      var x :| x in a;
      SubsetSize(a - {x}, b - {x});
    }
  }

  lemma {:induction false} Pow2Grows(a: nat, b: nat)
    requires a <= b
    ensures 1 <= Pow2(a) <= Pow2(b)
  {
    if a > 0 {
      Pow2Grows(a - 1, b - 1);
    } else if b > 0 {
      Pow2Grows(a, b - 1);
    }
  }

  /** The backoff after a first attempt is 2 s, never shrinks, doubles up to the eighth attempt and then stays at
      five minutes. */
  lemma BackoffDoublesThenCaps(a: nat)
    ensures BackoffMs(1) == 2000
    ensures BackoffMs(a) <= BackoffMs(a + 1) <= 300000
    ensures a < 8 ==> BackoffMs(a + 1) == 2 * BackoffMs(a)
    ensures a >= 9 ==> BackoffMs(a) == 300000
  {
    assert Pow2(1) == 2 && Pow2(2) == 4 && Pow2(4) == 16 by { assert Pow2(3) == 8; }
    assert Pow2(8) == 256 && Pow2(9) == 512 by { assert Pow2(6) == 64; }
    Pow2Grows(a, a + 1);
    if a < 8 {
      Pow2Grows(a + 1, 8);
    } else {
      Pow2Grows(8, a);
      if a >= 9 { Pow2Grows(9, a); }
    }
  }
}
