/** What the job table keeps over every interleaving of workers, reaper and operators. */
module JobQueueSafety {
  import opened Prelude
  import opened JobQueue

  // ---------------------------------------------------------------- the result table

  lemma RowsOfAppend(results: seq<ResultRow>, r: ResultRow, t: Ticket)
    ensures RowsOf(results + [r], t) == if r.ticket == t then RowsOf(results, t) + [r] else RowsOf(results, t)
  {
    assert (results + [r])[..|results|] == results;
  }

  lemma {:induction false} NoRows(results: seq<ResultRow>, t: Ticket)
    requires forall r :: r in results ==> r.ticket != t
    ensures RowsOf(results, t) == []
  {
    if results != [] {
      NoRows(results[..|results| - 1], t);
    }
  }

  /** Deleting other jobs leaves a job's rows as they were. */
  lemma {:induction false} CascadeKeeps(results: seq<ResultRow>, jobs: map<JobId, Job>, t: Ticket)
    requires t.job in jobs
    ensures RowsOf(Cascade(results, jobs), t) == RowsOf(results, t)
  {
    if results != [] {
      var rest := results[..|results| - 1];
      CascadeKeeps(rest, jobs, t);
      RowsOfAppend(Cascade(rest, jobs), results[|results| - 1], t);
    }
  }

  lemma {:induction false} CascadeSubset(results: seq<ResultRow>, jobs: map<JobId, Job>)
    ensures forall r :: r in Cascade(results, jobs) ==> r in results && r.ticket.job in jobs
  {
    if results != [] {
      CascadeSubset(results[..|results| - 1], jobs);
    }
  }

  // ---------------------------------------------------------------- every event keeps the invariant

  lemma CreateInv(fenced: bool, s: Queue, e: Event)
    requires Inv(s) && Enabled(s, e) && e.Create?
    ensures Inv(Step(fenced, s, e))
  {
    var s' := Step(fenced, s, e);
    forall id | id in s'.jobs ensures JobSound(s'.jobs[id]) && DoneSound(s', id) {
      if id != e.id { assert DoneSound(s, id); }
    }
    forall t | t in s'.execs ensures ExecSound(s', t) { assert ExecSound(s, t); }
    forall id | id in s'.jobs && s'.jobs[id].status.Running? ensures Backed(s', id) { assert Backed(s, id); }
  }

  lemma ClaimInv(fenced: bool, s: Queue, e: Event)
    requires Inv(s) && Enabled(s, e) && e.Claim?
    ensures Inv(Step(fenced, s, e))
  {
    var s', id := Step(fenced, s, e), e.id;
    var u := Ticket(id, s.jobs[id].attempts + 1);
    assert JobSound(s.jobs[id]);
    NoRows(s.results, u);
    forall t | t in s'.execs ensures ExecSound(s', t) {
      if t != u { assert ExecSound(s, t); }
    }
    forall k | k in s'.jobs ensures JobSound(s'.jobs[k]) && DoneSound(s', k) { assert DoneSound(s, k); }
    forall k | k in s'.jobs && s'.jobs[k].status.Running? ensures Backed(s', k) {
      if k != id { assert Backed(s, k); }
    }
  }

  lemma HeartbeatInv(fenced: bool, s: Queue, e: Event)
    requires Inv(s) && Enabled(s, e) && e.Heartbeat?
    ensures Inv(Step(fenced, s, e))
  {
    var s' := Step(fenced, s, e);
    forall t | t in s'.execs ensures ExecSound(s', t) { assert ExecSound(s, t); }
    forall k | k in s'.jobs ensures JobSound(s'.jobs[k]) && DoneSound(s', k) { assert DoneSound(s, k); }
    forall k | k in s'.jobs && s'.jobs[k].status.Running? ensures Backed(s', k) { assert Backed(s, k); }
  }

  lemma DeviceDoneExecs(fenced: bool, s: Queue, u: Ticket, ok: bool)
    requires Inv(s) && Enabled(s, DeviceDone(u, ok))
    ensures var s' := Step(fenced, s, DeviceDone(u, ok));
            forall t :: t in s'.execs ==> t.job in s'.used && ExecSound(s', t)
  {
    var s' := Step(fenced, s, DeviceDone(u, ok));
    forall t | t in s'.execs ensures ExecSound(s', t) {
      DeviceDoneExec(fenced, s, u, ok, t);
    }
  }

  lemma DeviceDoneExec(fenced: bool, s: Queue, u: Ticket, ok: bool, t: Ticket)
    requires Enabled(s, DeviceDone(u, ok)) && t in s.execs && ExecSound(s, u) && ExecSound(s, t)
    ensures ExecSound(Step(fenced, s, DeviceDone(u, ok)), t)
  {
    var x := s.execs[u];
    RowsOfAppend(s.results, ResultRow(u, x.row.devices[x.through], ok), t);
    if t == u {
      assert x.row.devices[..x.through + 1] == x.row.devices[..x.through] + [x.row.devices[x.through]];
    }
  }

  lemma DeviceDoneJobs(fenced: bool, s: Queue, u: Ticket, ok: bool)
    requires Inv(s) && Enabled(s, DeviceDone(u, ok))
    ensures var s' := Step(fenced, s, DeviceDone(u, ok));
            && (forall k :: k in s'.jobs ==> JobSound(s'.jobs[k]) && DoneSound(s', k))
            && (forall k :: k in s'.jobs && s'.jobs[k].status.Running? ==> Backed(s', k))
  {
    var s', x := Step(fenced, s, DeviceDone(u, ok)), s.execs[u];
    var r := ResultRow(u, x.row.devices[x.through], ok);
    forall k | k in s'.jobs ensures JobSound(s'.jobs[k]) && DoneSound(s', k) {
      assert DoneSound(s, k);
      RowsOfAppend(s.results, r, Ticket(k, s.jobs[k].attempts));
    }
    forall k | k in s'.jobs && s'.jobs[k].status.Running? ensures Backed(s', k) { assert Backed(s, k); }
  }

  lemma DeviceDoneInv(fenced: bool, s: Queue, u: Ticket, ok: bool)
    requires Inv(s) && Enabled(s, DeviceDone(u, ok))
    ensures Inv(Step(fenced, s, DeviceDone(u, ok)))
  {
    DeviceDoneExecs(fenced, s, u, ok);
    DeviceDoneJobs(fenced, s, u, ok);
    assert ExecSound(s, u);
  }

  lemma FinishJobs(fenced: bool, s: Queue, t: Ticket, now: int, next: int)
    requires Inv(s) && Enabled(s, Finish(t, now, next)) && Honest(fenced, s, Finish(t, now, next))
    ensures var s' := StepFinish(fenced, s, t, now, next);
            forall k :: k in s'.jobs ==> JobSound(s'.jobs[k]) && DoneSound(s', k)
  {
    var s' := StepFinish(fenced, s, t, now, next);
    assert ExecSound(s, t);
    if t.job in s.jobs && s.jobs[t.job].status.Running? { assert Backed(s, t.job); }
    assert s.execs[t].row.devices[..s.execs[t].through] == s.execs[t].row.devices;
    forall k | k in s'.jobs ensures JobSound(s'.jobs[k]) && DoneSound(s', k) {
      assert JobSound(s.jobs[k]) && DoneSound(s, k);
    }
  }

  lemma FinishExecs(fenced: bool, s: Queue, t: Ticket, now: int, next: int)
    requires Inv(s) && Enabled(s, Finish(t, now, next)) && Honest(fenced, s, Finish(t, now, next))
    ensures var s' := StepFinish(fenced, s, t, now, next);
            && (forall u :: u in s'.execs ==> ExecSound(s', u))
            && (forall k :: k in s'.jobs && s'.jobs[k].status.Running? ==> Backed(s', k))
  {
    var s' := StepFinish(fenced, s, t, now, next);
    assert ExecSound(s, t);
    if t.job in s.jobs && s.jobs[t.job].status.Running? { assert Backed(s, t.job); }
    forall u | u in s'.execs ensures ExecSound(s', u) { assert ExecSound(s, u); }
    forall k | k in s'.jobs && s'.jobs[k].status.Running? ensures Backed(s', k) { assert Backed(s, k); }
  }

  lemma FinishInv(fenced: bool, s: Queue, t: Ticket, now: int, next: int)
    requires Inv(s) && Enabled(s, Finish(t, now, next)) && Honest(fenced, s, Finish(t, now, next))
    ensures Inv(Step(fenced, s, Finish(t, now, next)))
  {
    FinishJobs(fenced, s, t, now, next);
    FinishExecs(fenced, s, t, now, next);
  }

  lemma DieInv(fenced: bool, s: Queue, e: Event)
    requires Inv(s) && Enabled(s, e) && e.Die?
    ensures Inv(Step(fenced, s, e))
  {
    var s' := Step(fenced, s, e);
    forall t | t in s'.execs ensures ExecSound(s', t) { assert ExecSound(s, t); }
    forall k | k in s'.jobs ensures DoneSound(s', k) { assert DoneSound(s, k); }
    forall k | k in s'.jobs && s'.jobs[k].status.Running? ensures Backed(s', k) { assert Backed(s, k); }
  }

  lemma ReapInv(fenced: bool, s: Queue, e: Event)
    requires Inv(s) && e.Reap?
    ensures Inv(Step(fenced, s, e))
  {
    var s' := Step(fenced, s, e);
    forall t | t in s'.execs ensures ExecSound(s', t) { assert ExecSound(s, t); }
    forall k | k in s'.jobs ensures JobSound(s'.jobs[k]) && DoneSound(s', k) {
      assert JobSound(s.jobs[k]) && DoneSound(s, k);
    }
    forall k | k in s'.jobs && s'.jobs[k].status.Running? ensures Backed(s', k) { assert Backed(s, k); }
  }

  lemma RetryInv(fenced: bool, s: Queue, id: JobId, now: int)
    requires Inv(s)
    ensures Inv(Step(fenced, s, Retry(id, now)))
  {
    var s' := Step(fenced, s, Retry(id, now));
    forall t | t in s'.execs ensures ExecSound(s', t) { assert ExecSound(s, t); }
    forall k | k in s'.jobs ensures JobSound(s'.jobs[k]) && DoneSound(s', k) {
      assert JobSound(s.jobs[k]) && DoneSound(s, k);
    }
    forall k | k in s'.jobs && s'.jobs[k].status.Running? ensures Backed(s', k) { assert Backed(s, k); }
  }

  lemma CancelInv(fenced: bool, s: Queue, id: JobId)
    requires Inv(s)
    ensures Inv(Step(fenced, s, Cancel(id)))
  {
    var s' := Step(fenced, s, Cancel(id));
    forall t | t in s'.execs ensures ExecSound(s', t) { assert ExecSound(s, t); }
    forall k | k in s'.jobs ensures JobSound(s'.jobs[k]) && DoneSound(s', k) {
      assert JobSound(s.jobs[k]) && DoneSound(s, k);
    }
    forall k | k in s'.jobs && s'.jobs[k].status.Running? ensures Backed(s', k) { assert Backed(s, k); }
  }

  lemma ClearInv(fenced: bool, s: Queue)
    requires Inv(s)
    ensures Inv(Step(fenced, s, Clear))
  {
    var s' := Step(fenced, s, Clear);
    CascadeSubset(s.results, s'.jobs);
    forall t | t in s'.execs ensures ExecSound(s', t) {
      assert ExecSound(s, t);
      if t.job in s'.jobs { CascadeKeeps(s.results, s'.jobs, t); }
    }
    forall k | k in s'.jobs ensures JobSound(s'.jobs[k]) && DoneSound(s', k) { assert JobSound(s.jobs[k]); }
    forall k | k in s'.jobs && s'.jobs[k].status.Running? ensures Backed(s', k) { assert Backed(s, k); }
  }

  lemma StepInv(fenced: bool, s: Queue, e: Event)
    requires Inv(s) && Enabled(s, e) && Honest(fenced, s, e)
    ensures Inv(Step(fenced, s, e))
  {
    match e
    case Create(_, _, _, _, _, _, _) => CreateInv(fenced, s, e);
    case Claim(_, _, _) => ClaimInv(fenced, s, e);
    case Heartbeat(_, _) => HeartbeatInv(fenced, s, e);
    case DeviceDone(t, ok) => DeviceDoneInv(fenced, s, t, ok);
    case Finish(t, now, next) => FinishInv(fenced, s, t, now, next);
    case Die(_) => DieInv(fenced, s, e);
    case Reap(_) => ReapInv(fenced, s, e);
    case Retry(id, now) => RetryInv(fenced, s, id, now);
    case Cancel(id) => CancelInv(fenced, s, id);
    case Clear => ClearInv(fenced, s);
  }

  // ---------------------------------------------------------------- runs

  /** A run from the empty table, last event outermost. */
  datatype Run = Start | Then(before: Run, event: Event)

  predicate Valid(fenced: bool, r: Run)
    decreases r, 0
  {
    r.Then? ==>
      Valid(fenced, r.before) && Enabled(End(fenced, r.before), r.event)
      && Honest(fenced, End(fenced, r.before), r.event)
  }

  function End(fenced: bool, r: Run): Queue
    requires Valid(fenced, r)
    decreases r, 1
  {
    match r
    case Start => EMPTY
    case Then(b, e) => Step(fenced, End(fenced, b), e)
  }

  lemma {:induction false} RunInv(fenced: bool, r: Run)
    requires Valid(fenced, r)
    ensures Inv(End(fenced, r))
  {
    if r.Then? {
      RunInv(fenced, r.before);
      StepInv(fenced, End(fenced, r.before), r.event);
    }
  }

  /** Every running job has exactly one claim in force, the one with its current attempt, held by `locked_by`. */
  lemma RunningJobIsOwnedOnce(fenced: bool, r: Run, id: JobId, t: Ticket)
    requires Valid(fenced, r) && t in End(fenced, r).execs && t.job == id && !End(fenced, r).execs[t].reaped
    ensures var s := End(fenced, r);
            && id in s.jobs && s.jobs[id].status.Running? && s.jobs[id].lockedBy == Some(s.execs[t].worker)
            && t == Ticket(id, s.jobs[id].attempts)
  {
    RunInv(fenced, r);
    assert ExecSound(End(fenced, r), t);
    assert Backed(End(fenced, r), id);
  }

  /** And there is one: whatever state the job is in, it is running exactly if its current attempt is held by a worker
      that has not been reaped. */
  lemma RunningIffOwned(fenced: bool, r: Run, id: JobId)
    requires Valid(fenced, r) && id in End(fenced, r).jobs
    ensures var s := End(fenced, r);
            var t := Ticket(id, s.jobs[id].attempts);
            s.jobs[id].status.Running? <==> t in s.execs && !s.execs[t].reaped
  {
    RunInv(fenced, r);
    var s := End(fenced, r);
    var t := Ticket(id, s.jobs[id].attempts);
    if s.jobs[id].status.Running? {
      assert Backed(s, id);
    } else if t in s.execs {
      assert ExecSound(s, t);
    }
  }

  /** Attempts: a pending one-shot has some left, and its claims never exceed the attempts it was created with plus
      the manual retries it was granted. */
  lemma AttemptsBounded(fenced: bool, r: Run, id: JobId)
    requires Valid(fenced, r) && id in End(fenced, r).jobs && !End(fenced, r).jobs[id].cron
    ensures var j := End(fenced, r).jobs[id];
            && j.claims == j.attempts <= j.maxAttempts && j.claims <= j.firstMax + j.retries
            && (j.status.Pending? ==> j.attempts < j.maxAttempts)
  {
    RunInv(fenced, r);
  }

  /** Done means done everywhere: the last attempt has exactly one successful result row per device, in list order. */
  lemma DoneMeansDoneEverywhere(fenced: bool, r: Run, id: JobId)
    requires Valid(fenced, r) && id in End(fenced, r).jobs && End(fenced, r).jobs[id].status.Done?
    ensures var s := End(fenced, r);
            var t := Ticket(id, s.jobs[id].attempts);
            RowsOf(s.results, t) == seq(|s.jobs[id].devices|, i requires 0 <= i < |s.jobs[id].devices| =>
                                          ResultRow(t, s.jobs[id].devices[i], true))
  {
    RunInv(fenced, r);
    assert DoneSound(End(fenced, r), id);
  }

  /** A finished attempt of a one-shot makes its job done exactly if every device of that attempt succeeded. */
  lemma DoneIffAllDevicesSucceeded(fenced: bool, s: Queue, t: Ticket, now: int, next: int)
    requires Inv(s) && Enabled(s, Finish(t, now, next)) && !s.execs[t].reaped && !s.execs[t].row.cron
    ensures t.job in s.jobs && t.job in Step(fenced, s, Finish(t, now, next)).jobs
    ensures Step(fenced, s, Finish(t, now, next)).jobs[t.job].status.Done?
            <==> forall r :: r in RowsOf(s.results, t) ==> r.success
  {
    assert ExecSound(s, t) && Backed(s, t.job);
    var rows := RowsOf(s.results, t);
    assert forall i :: 0 <= i < |rows| ==> rows[i] in rows;
  }

  /** What an event that takes `s` to `t` may do to a row. */
  predicate LifecycleKept(s: Queue, e: Event, t: Queue, id: JobId)
    requires id in s.jobs
  {
    var j := s.jobs[id];
    && (id in t.jobs && (j.status.Done? || j.status.Cancelled?) ==> t.jobs[id] == j)
    && (id in t.jobs && j.status.Failed? ==>
          t.jobs[id] == j || (e.Retry? && e.id == id && t.jobs[id].status.Pending?))
    && (id !in t.jobs ==> e.Clear? && Finished(j))
    && (id in t.jobs && j.cron && t.jobs[id].status.Failed? && !j.status.Failed? ==>
          e.Reap? && j.attempts >= j.maxAttempts)
    && (id in t.jobs && j.cron ==> t.jobs[id].cron && !t.jobs[id].status.Done?)
  }

  /** The lifecycle, one event at a time: `done` and `cancelled` rows are only ever deleted, `failed` rows retried or
      deleted, unfinished rows never deleted; a cron job never becomes `done` and fails only at the reaper's hand. */
  lemma Lifecycle(fenced: bool, s: Queue, e: Event, id: JobId)
    requires Inv(s) && Enabled(s, e) && Honest(fenced, s, e) && id in s.jobs
    ensures LifecycleKept(s, e, Step(fenced, s, e), id)
  {
    assert JobSound(s.jobs[id]);
    if e.Finish? && e.ticket.job == id {
      assert ExecSound(s, e.ticket);
    }
  }

  predicate Extends(r: Run, later: Run) {
    later == r || (later.Then? && Extends(r, later.before))
  }

  /** Job `id` was last seen as `j`, done or cancelled, or has been deleted. */
  predicate Settled(s: Queue, id: JobId, j: Job) {
    id in s.used && (id in s.jobs ==> s.jobs[id] == j && (j.status.Done? || j.status.Cancelled?))
  }

  lemma SettledStep(fenced: bool, s: Queue, e: Event, id: JobId, j: Job)
    requires Inv(s) && Enabled(s, e) && Honest(fenced, s, e) && Settled(s, id, j)
    ensures Settled(Step(fenced, s, e), id, j)
    ensures id !in s.jobs ==> id !in Step(fenced, s, e).jobs
  {
    if id in s.jobs {
      Lifecycle(fenced, s, e, id);
    }
  }

  /** Over whole runs: once `done` or `cancelled`, the row stays as it is until it is deleted, and then for good. */
  lemma {:induction false} EndStatesAreFinal(fenced: bool, r: Run, later: Run, id: JobId, j: Job)
    requires Valid(fenced, r) && Valid(fenced, later) && Extends(r, later) && Settled(End(fenced, r), id, j)
    ensures Settled(End(fenced, later), id, j)
    ensures id !in End(fenced, r).jobs ==> id !in End(fenced, later).jobs
  {
    if later != r {
      EndStatesAreFinal(fenced, r, later.before, id, j);
      RunInv(fenced, later.before);
      SettledStep(fenced, End(fenced, later.before), later.event, id, j);
    }
  }

  /** A recurring job fails exactly when the reaper takes it from a dead worker with no attempt left; attempts are
      never reset, so a job created with one attempt fails at the first reaping. */
  lemma CronFailsExactlyWhenReapedSpent(fenced: bool, s: Queue, e: Event, id: JobId)
    requires Inv(s) && Enabled(s, e) && Honest(fenced, s, e) && id in s.jobs && s.jobs[id].cron
    requires !s.jobs[id].status.Failed? && id in Step(fenced, s, e).jobs
    ensures Step(fenced, s, e).jobs[id].status.Failed?
            <==> e.Reap? && Stale(s.jobs[id], e.now) && s.jobs[id].attempts >= s.jobs[id].maxAttempts
  {
    Lifecycle(fenced, s, e, id);
  }

  // ---------------------------------------------------------------- why a reaped worker must not finish

  /** The fenced statement never touches a job on behalf of a reaped worker: it needs no hypothesis. */
  lemma FenceStopsReaped(s: Queue, t: Ticket)
    requires Inv(s) && t in s.execs && s.execs[t].reaped
    ensures !FinishMatches(true, s, t)
  {
    if t.job in s.jobs && s.jobs[t.job].status.Running? {
      assert Backed(s, t.job);
    }
  }

  lemma Go(r: Run, s: Queue, e: Event) returns (r': Run, t: Queue)
    requires Valid(false, r) && End(false, r) == s && Enabled(s, e) && Honest(false, s, e)
    ensures Valid(false, r') && End(false, r') == t && t == Step(false, s, e)
  {
    r' := Then(r, e);
    t := Step(false, s, e);
  }

  /** Worker 1 goes silent, its job is reaped and claimed by worker 2; then worker 1 comes back. */
  lemma ReapedAndReclaimed() returns (r: Run, s: Queue)
    ensures Valid(false, r) && End(false, r) == s && 0 in s.jobs
    ensures Ticket(0, 1) in s.execs && s.execs[Ticket(0, 1)].reaped && s.execs[Ticket(0, 1)].alive
    ensures s.execs[Ticket(0, 1)].row.devices == [7] && !s.execs[Ticket(0, 1)].row.cron
    ensures s.execs[Ticket(0, 1)].through == 1 && s.execs[Ticket(0, 1)].allOk
    ensures Ticket(0, 2) in s.execs && !s.execs[Ticket(0, 2)].reaped
  {
    r, s := Start, EMPTY;
    r, s := Go(r, s, Create(0, false, [7], 0, None, 2, 0));
    r, s := Go(r, s, Claim(0, 1, 0));
    r, s := Go(r, s, Reap(120001));
    r, s := Go(r, s, Claim(0, 2, 120001));
    r, s := Go(r, s, DeviceDone(Ticket(0, 1), true));
  }

  /** Unfenced, the late finish marks the job done while worker 2's claim is in force. */
  lemma ReapedWorkerFinishes() returns (r: Run, e: Event)
    ensures Valid(false, r) && Enabled(End(false, r), e) && !Honest(false, End(false, r), e)
    ensures var s := Step(false, End(false, r), e);
            && 0 in s.jobs && s.jobs[0].status.Done?
            && Ticket(0, 2) in s.execs && !s.execs[Ticket(0, 2)].reaped && !Inv(s)
  {
    var s;
    r, s := ReapedAndReclaimed();
    e := Finish(Ticket(0, 1), 120002, 0);
    var s' := Step(false, s, e);
    assert !ExecSound(s', Ticket(0, 2));
  }
}
