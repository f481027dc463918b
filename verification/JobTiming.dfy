/** When a job runs next: to what time the end of an attempt puts it off, that nothing claims it before, and how long a
    worker that gives signs of life keeps it. */
module JobTiming {
  import opened Prelude
  import opened JobQueue
  import opened JobQueueSafety

  // ---------------------------------------------------------------- what the end of an attempt writes

  /** What an unreaped worker knows of its job when it is through is what the tables say. */
  lemma WorkerKnows(s: Queue, t: Ticket)
    requires Inv(s) && t in s.execs && !s.execs[t].reaped && s.execs[t].through == |s.execs[t].row.devices|
    ensures t.job in s.jobs && s.jobs[t.job].status.Running? && s.jobs[t.job].attempts == t.attempt
    ensures s.jobs[t.job].lockedBy == Some(s.execs[t].worker)
    ensures var row, j := s.execs[t].row, s.jobs[t.job];
            row.cron == j.cron && row.attempts == j.attempts && row.maxAttempts == j.maxAttempts
    ensures s.execs[t].allOk <==> forall r :: r in RowsOf(s.results, t) ==> r.success
  {
    assert ExecSound(s, t) && Backed(s, t.job);
    var rows := RowsOf(s.results, t);
    assert forall i :: 0 <= i < |rows| ==> rows[i] in rows;
  }

  lemma FinishWrites(fenced: bool, s: Queue, t: Ticket, now: int, next: int)
    requires Inv(s) && Enabled(s, Finish(t, now, next)) && !s.execs[t].reaped
    ensures t.job in s.jobs && t.job in Step(fenced, s, Finish(t, now, next)).jobs
    ensures Step(fenced, s, Finish(t, now, next)).jobs[t.job] ==
            FinishedRow(s.jobs[t.job], DecideJobOutcome(s.execs[t].row, s.execs[t].allOk, now, next))
  {
    WorkerKnows(s, t);
  }

  /** The end of an attempt whose worker was not reaped, by what the result table says of it: a recurring job waits for
      its next date, a one-shot is done, or waits out its backoff, or has failed for good. */
  lemma AttemptEnds(fenced: bool, s: Queue, t: Ticket, now: int, next: int)
    requires Inv(s) && Enabled(s, Finish(t, now, next)) && !s.execs[t].reaped
    ensures t.job in s.jobs && t.job in Step(fenced, s, Finish(t, now, next)).jobs
    ensures var well := forall r :: r in RowsOf(s.results, t) ==> r.success;
            EndsAs(s.jobs[t.job], Step(fenced, s, Finish(t, now, next)).jobs[t.job], well, now, next)
  {
    FinishWrites(fenced, s, t, now, next);
    WorkerKnows(s, t);
    OutcomeWrites(s.jobs[t.job], s.execs[t].row, s.execs[t].allOk, now, next);
  }

  lemma OutcomeWrites(was: Job, row: Job, well: bool, now: int, next: int)
    requires row.cron == was.cron && row.attempts == was.attempts && row.maxAttempts == was.maxAttempts
    ensures EndsAs(was, FinishedRow(was, DecideJobOutcome(row, well, now, next)), well, now, next)
  {
  }

  /** The row before and after the end of an attempt that went well, or not. */
  predicate EndsAs(was: Job, j: Job, well: bool, now: int, next: int) {
    && j.lockedBy.None? && j.heartbeatAt.None? && j.attempts == was.attempts && j.maxAttempts == was.maxAttempts
    && (was.cron ==> j.status.Pending? && j.nextRunAt == Some(next) && j.runAfter == Some(next))
    && (!was.cron ==> j.nextRunAt == was.nextRunAt)
    && (!was.cron && well ==> j.status.Done? && j.runAfter == was.runAfter)
    && (!was.cron && !well && was.attempts < was.maxAttempts ==>
          j.status.Pending? && j.runAfter == Some(now + BackoffMs(was.attempts)))
    && (!was.cron && !well && was.attempts >= was.maxAttempts ==> j.status.Failed? && j.runAfter == was.runAfter)
  }

  /** A job begins pending, with all its attempts, due at the times it was given. */
  lemma JobBegins(fenced: bool, s: Queue, e: Event)
    requires e.Create? && Enabled(s, e)
    ensures e.id in Step(fenced, s, e).jobs
    ensures var j := Step(fenced, s, e).jobs[e.id];
            && j.status.Pending? && j.attempts == 0 && j.maxAttempts == e.max && j.lockedBy.None?
            && j.cron == e.cron && j.devices == e.devices && j.createdAt == e.at
            && j.runAfter == Some(e.runAfter) && j.nextRunAt == e.nextRunAt
    ensures forall id :: id in s.jobs ==> id in Step(fenced, s, e).jobs && Step(fenced, s, e).jobs[id] == s.jobs[id]
  {
  }

  // ---------------------------------------------------------------- nothing claims it before

  /** No claim of the job between the two. */
  predicate Unclaimed(r: Run, later: Run, id: JobId) {
    later == r || (later.Then? && !(later.event.Claim? && later.event.id == id) && Unclaimed(r, later.before, id))
  }

  /** The job waits for these times, or will not run at all. */
  predicate Waits(s: Queue, id: JobId, runAfter: Option<int>, nextRunAt: Option<int>, cron: bool) {
    id in s.used &&
    (id in s.jobs ==>
       && (s.jobs[id].status.Pending? || s.jobs[id].status.Cancelled?)
       && s.jobs[id].runAfter == runAfter && s.jobs[id].nextRunAt == nextRunAt && s.jobs[id].cron == cron)
  }

  lemma WaitsOn(fenced: bool, s: Queue, e: Event, id: JobId, runAfter: Option<int>, nextRunAt: Option<int>, cron: bool)
    requires Inv(s) && Enabled(s, e) && Honest(fenced, s, e) && !(e.Claim? && e.id == id)
    requires Waits(s, id, runAfter, nextRunAt, cron)
    ensures Waits(Step(fenced, s, e), id, runAfter, nextRunAt, cron)
  {
    if id in s.jobs {
      assert JobSound(s.jobs[id]);
      if e.Finish? && e.ticket.job == id {
        assert ExecSound(s, e.ticket);
      }
    }
  }

  lemma {:induction false} WaitsStill(fenced: bool, r: Run, later: Run, id: JobId, runAfter: Option<int>,
                                      nextRunAt: Option<int>, cron: bool)
    requires Valid(fenced, r) && Valid(fenced, later) && Unclaimed(r, later, id)
    requires Waits(End(fenced, r), id, runAfter, nextRunAt, cron)
    ensures Waits(End(fenced, later), id, runAfter, nextRunAt, cron)
  {
    if later != r {
      WaitsStill(fenced, r, later.before, id, runAfter, nextRunAt, cron);
      RunInv(fenced, later.before);
      WaitsOn(fenced, End(fenced, later.before), later.event, id, runAfter, nextRunAt, cron);
    }
  }

  /** Over whole runs: the next claim of a pending job comes no earlier than the times it carries, whatever else happens
      meanwhile. */
  lemma NotClaimedBefore(fenced: bool, r: Run, later: Run, id: JobId, w: Worker, now: int)
    requires Valid(fenced, r) && Valid(fenced, later) && Unclaimed(r, later, id)
    requires id in End(fenced, r).jobs && End(fenced, r).jobs[id].status.Pending?
    requires Enabled(End(fenced, later), Claim(id, w, now))
    ensures var j := End(fenced, r).jobs[id];
            && (j.runAfter.Some? ==> j.runAfter.value <= now)
            && (j.cron ==> j.nextRunAt.Some? && j.nextRunAt.value <= now)
  {
    RunInv(fenced, r);
    var j := End(fenced, r).jobs[id];
    WaitsStill(fenced, r, later, id, j.runAfter, j.nextRunAt, j.cron);
  }

  /** So an attempt that puts its job off, a failed one with another left or that of a recurring job, is followed by no
      other before the backoff is over, or the next date has come. */
  lemma PutOffIsKept(fenced: bool, b: Run, t: Ticket, at: int, next: int, later: Run, w: Worker, now: int)
    requires Valid(fenced, b) && Enabled(End(fenced, b), Finish(t, at, next)) && !End(fenced, b).execs[t].reaped
    requires t.job in Step(fenced, End(fenced, b), Finish(t, at, next)).jobs
    requires Step(fenced, End(fenced, b), Finish(t, at, next)).jobs[t.job].status.Pending?
    requires Valid(fenced, later) && Unclaimed(Then(b, Finish(t, at, next)), later, t.job)
    requires Enabled(End(fenced, later), Claim(t.job, w, now))
    ensures t.job in End(fenced, b).jobs
    ensures var j := End(fenced, b).jobs[t.job]; if j.cron then now >= next else now >= at + BackoffMs(j.attempts)
  {
    RunInv(fenced, b);
    AttemptEnds(fenced, End(fenced, b), t, at, next);
    NotClaimedBefore(fenced, Then(b, Finish(t, at, next)), later, t.job, w, now);
  }

  // ---------------------------------------------------------------- signs of life

  function TimeOf(e: Event): Option<int> {
    match e
    case Create(_, _, _, _, _, _, at) => Some(at)
    case Claim(_, _, now) => Some(now)
    case Heartbeat(_, now) => Some(now)
    case Finish(_, now, _) => Some(now)
    case Reap(now) => Some(now)
    case Retry(_, now) => Some(now)
    case _ => None
  }

  /** Everything after `r` happens at `at` or later. */
  predicate Since(r: Run, later: Run, at: int) {
    later == r
    || (later.Then? && Since(r, later.before, at) && (TimeOf(later.event).Some? ==> TimeOf(later.event).value >= at))
  }

  /** If the worker still has the job, the row has seen a sign of life at `at` or later. */
  predicate Seen(s: Queue, t: Ticket, at: int) {
    t in s.execs && !s.execs[t].reaped ==>
      t.job in s.jobs && s.jobs[t.job].heartbeatAt.Some? && s.jobs[t.job].heartbeatAt.value >= at
  }

  lemma SeenStep(fenced: bool, s: Queue, e: Event, t: Ticket, at: int)
    requires Inv(s) && Enabled(s, e) && Honest(fenced, s, e) && Seen(s, t, at)
    requires TimeOf(e).Some? ==> TimeOf(e).value >= at
    ensures Seen(Step(fenced, s, e), t, at)
  {
    if t in s.execs {
      assert ExecSound(s, t);
    }
    if e.Finish? && e.ticket.job == t.job && e.ticket != t {
      assert ExecSound(s, e.ticket);
    }
  }

  lemma {:induction false} SeenSince(fenced: bool, r: Run, later: Run, t: Ticket, at: int)
    requires Valid(fenced, r) && Valid(fenced, later) && Since(r, later, at) && Seen(End(fenced, r), t, at)
    ensures Seen(End(fenced, later), t, at)
  {
    if later != r {
      SeenSince(fenced, r, later.before, t, at);
      RunInv(fenced, later.before);
      SeenStep(fenced, End(fenced, later.before), later.event, t, at);
    }
  }

  /** A claim or a beat is a sign of life of a worker that has the job. */
  predicate SignOfLife(e: Event, t: Ticket, at: int, s: Queue) {
    || e == Heartbeat(t, at)
    || (e.Claim? && e.now == at && e.id == t.job && t.job in s.jobs && t.attempt == s.jobs[t.job].attempts + 1)
  }

  lemma SeenNow(fenced: bool, s: Queue, e: Event, t: Ticket, at: int)
    requires Inv(s) && Enabled(s, e) && SignOfLife(e, t, at, s)
    ensures Seen(Step(fenced, s, e), t, at)
  {
    if e.Heartbeat? && !s.execs[t].reaped {
      assert ExecSound(s, t) && Backed(s, t.job);
    }
  }

  lemma FreshNotReaped(fenced: bool, s: Queue, t: Ticket, at: int, now: int)
    requires Inv(s) && Seen(s, t, at) && t in s.execs && !s.execs[t].reaped && now <= at + 120000
    ensures var s' := Step(fenced, s, Reap(now));
            !s'.execs[t].reaped && t.job in s.jobs && s'.jobs[t.job] == s.jobs[t.job]
  {
  }

  lemma SeenInRun(fenced: bool, b: Run, e: Event, t: Ticket, at: int, later: Run)
    requires Valid(fenced, b) && Enabled(End(fenced, b), e) && SignOfLife(e, t, at, End(fenced, b))
    requires Honest(fenced, End(fenced, b), e)
    requires Valid(fenced, later) && Since(Then(b, e), later, at)
    ensures Inv(End(fenced, later)) && Seen(End(fenced, later), t, at)
  {
    RunInv(fenced, b);
    SeenNow(fenced, End(fenced, b), e, t, at);
    SeenSince(fenced, Then(b, e), later, t, at);
    RunInv(fenced, later);
  }

  /** Over whole runs: as long as time goes forward, no reap within two minutes of a worker's claim or of one of its
      beats takes the job from it: it goes on running, this attempt, by this worker. */
  lemma BeatingWorkerKeepsItsJob(fenced: bool, b: Run, e: Event, t: Ticket, at: int, later: Run, now: int)
    requires Valid(fenced, b) && Enabled(End(fenced, b), e) && SignOfLife(e, t, at, End(fenced, b))
    requires Honest(fenced, End(fenced, b), e)
    requires Valid(fenced, later) && Since(Then(b, e), later, at)
    requires t in End(fenced, later).execs && !End(fenced, later).execs[t].reaped && now <= at + 120000
    ensures var s, s' := End(fenced, later), Step(fenced, End(fenced, later), Reap(now));
            && !s'.execs[t].reaped && t.job in s.jobs && s'.jobs[t.job] == s.jobs[t.job]
            && s.jobs[t.job].status.Running? && s.jobs[t.job].attempts == t.attempt
            && s.jobs[t.job].lockedBy == Some(s.execs[t].worker)
  {
    SeenInRun(fenced, b, e, t, at, later);
    FreshNotReaped(fenced, End(fenced, later), t, at, now);
    RunningJobIsOwnedOnce(fenced, later, t.job, t);
  }

  lemma ReapTakes(fenced: bool, s: Queue, t: Ticket, now: int)
    requires t in s.execs && !s.execs[t].reaped && t.job in s.jobs && s.jobs[t.job].status.Running?
    requires s.jobs[t.job].heartbeatAt.Some? && s.jobs[t.job].attempts == t.attempt
    ensures var s' := Step(fenced, s, Reap(now));
            && (s'.execs[t].reaped <==> now > s.jobs[t.job].heartbeatAt.value + 120000)
            && (s'.execs[t].reaped ==>
                  && s'.jobs[t.job].runAfter == Some(now) && s'.jobs[t.job].lockedBy.None?
                  && (s'.jobs[t.job].status.Pending? <==> t.attempt < s.jobs[t.job].maxAttempts)
                  && (s'.jobs[t.job].status.Failed? <==> t.attempt >= s.jobs[t.job].maxAttempts))
  {
  }

  lemma RunningHasBeat(s: Queue, id: JobId)
    requires Inv(s) && id in s.jobs && s.jobs[id].status.Running?
    ensures s.jobs[id].heartbeatAt.Some?
  {
    assert JobSound(s.jobs[id]);
  }

  /** And a silent one loses it: a reap more than two minutes after the last sign of life the row has. */
  lemma SilentWorkerLosesItsJob(fenced: bool, r: Run, t: Ticket, now: int)
    requires Valid(fenced, r) && t in End(fenced, r).execs && !End(fenced, r).execs[t].reaped
    ensures var s, s' := End(fenced, r), Step(fenced, End(fenced, r), Reap(now));
            && t.job in s.jobs && s.jobs[t.job].heartbeatAt.Some?
            && (s'.execs[t].reaped <==> now > s.jobs[t.job].heartbeatAt.value + 120000)
            && (s'.execs[t].reaped ==>
                  && s'.jobs[t.job].runAfter == Some(now) && s'.jobs[t.job].lockedBy.None?
                  && (s'.jobs[t.job].status.Pending? <==> t.attempt < s.jobs[t.job].maxAttempts)
                  && (s'.jobs[t.job].status.Failed? <==> t.attempt >= s.jobs[t.job].maxAttempts))
  {
    RunningJobIsOwnedOnce(fenced, r, t.job, t);
    RunInv(fenced, r);
    RunningHasBeat(End(fenced, r), t.job);
    ReapTakes(fenced, End(fenced, r), t, now);
  }
}
