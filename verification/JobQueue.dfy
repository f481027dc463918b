/** The job table of a multi-replica deployment: jobs are created, claimed, run device by device, finished, reaped,
    retried, cancelled and cleared by any number of workers.  One SQL statement is one atomic event. */
module JobQueue {
  import opened Prelude

  type JobId = nat
  type DeviceId = nat
  type Worker = nat

  const STALE_MS: nat := 120000

  datatype Status = Pending | Running | Done | Failed | Cancelled

  /** A row of `jobs`.  The last three fields are history: the attempts it was created with, the manual retries it
      was granted and the claims it has seen. */
  datatype Job = Job(
    status: Status, cron: bool, devices: seq<DeviceId>, attempts: nat, maxAttempts: nat,
    lockedBy: Option<Worker>, heartbeatAt: Option<int>, runAfter: Option<int>, nextRunAt: Option<int>, createdAt: int,
    firstMax: nat, retries: nat, claims: nat)

  /** One claim of one job: attempts only ever grow, so the pair is unique. */
  datatype Ticket = Ticket(job: JobId, attempt: nat)

  /** A row of `job_results`. */
  datatype ResultRow = ResultRow(ticket: Ticket, device: DeviceId, success: bool)

  /** A worker running a claimed job: the row as claimed, how many devices are through, and whether all were well.
      `reaped` is set once the reaper has taken the job away from it. */
  datatype Exec = Exec(worker: Worker, row: Job, through: nat, allOk: bool, alive: bool, reaped: bool)

  datatype Queue = Queue(jobs: map<JobId, Job>, results: seq<ResultRow>, execs: map<Ticket, Exec>, used: set<JobId>)

  datatype Event =
    | Create(id: JobId, cron: bool, devices: seq<DeviceId>, runAfter: int, nextRunAt: Option<int>, max: nat, at: int)
    | Claim(id: JobId, worker: Worker, now: int)
    | Heartbeat(ticket: Ticket, now: int)
    | DeviceDone(ticket: Ticket, ok: bool)
    | Finish(ticket: Ticket, now: int, next: int)
    | Die(ticket: Ticket)
    | Reap(now: int)
    | Retry(id: JobId, now: int)
    | Cancel(id: JobId)
    | Clear

  // ---------------------------------------------------------------- the statements, row by row

  /** The claim query's WHERE clause. */
  predicate Runnable(j: Job, now: int) {
    && j.status.Pending?
    && (j.runAfter.None? || j.runAfter.value <= now)
    && (!j.cron || (j.nextRunAt.Some? && j.nextRunAt.value <= now))
  }

  function Claimed(j: Job, w: Worker, now: int): Job {
    j.(status := Running, heartbeatAt := Some(now), lockedBy := Some(w), attempts := j.attempts + 1,
       claims := j.claims + 1)
  }

  predicate Stale(j: Job, now: int) {
    j.status.Running? && j.heartbeatAt.Some? && j.heartbeatAt.value < now - STALE_MS
  }

  function ReapedRow(j: Job, now: int): Job {
    j.(status := if j.attempts < j.maxAttempts then Pending else Failed,
       lockedBy := None, heartbeatAt := None, runAfter := Some(now))
  }

  function RetriedRow(j: Job, now: int): Job {
    j.(status := Pending, lockedBy := None, heartbeatAt := None, runAfter := Some(now),
       maxAttempts := if j.maxAttempts < j.attempts + 1 then j.attempts + 1 else j.maxAttempts,
       retries := j.retries + 1)
  }

  function Pow2(n: nat): nat {
    if n == 0 then 1 else 2 * Pow2(n - 1)
  }

  /** `Math.min(5 * 60_000, 2 ** attempt * 1000)`. */
  function BackoffMs(attempt: nat): nat {
    if Pow2(attempt) * 1000 < 300000 then Pow2(attempt) * 1000 else 300000
  }

  datatype JobOutcome = Reschedule(at: int) | MarkDone | RetryLater(at: int) | GiveUp

  /** `decideJobOutcome` on the row as it was claimed. */
  function DecideJobOutcome(row: Job, allOk: bool, now: int, next: int): JobOutcome {
    if row.cron then Reschedule(next)
    else if allOk then MarkDone
    else if row.attempts < row.maxAttempts then RetryLater(now + BackoffMs(row.attempts))
    else GiveUp
  }

  /** The UPDATE of `finishJob` for that outcome, on the row as it is now. */
  function FinishedRow(j: Job, o: JobOutcome): Job {
    var j := j.(lockedBy := None, heartbeatAt := None);
    match o
    case Reschedule(at) => j.(status := Pending, nextRunAt := Some(at), runAfter := Some(at))
    case MarkDone => j.(status := Done)
    case RetryLater(at) => j.(status := Pending, runAfter := Some(at))
    case GiveUp => j.(status := Failed)
  }

  predicate Finished(j: Job) {
    j.status.Done? || j.status.Failed? || j.status.Cancelled?
  }

  // ---------------------------------------------------------------- the statements, on the tables

  function ReapAll(jobs: map<JobId, Job>, now: int): map<JobId, Job> {
    map id | id in jobs :: if Stale(jobs[id], now) then ReapedRow(jobs[id], now) else jobs[id]
  }

  function Unfinished(jobs: map<JobId, Job>): map<JobId, Job> {
    map id | id in jobs && !Finished(jobs[id]) :: jobs[id]
  }

  /** `ON DELETE CASCADE`: the results of deleted jobs go with them. */
  function Cascade(results: seq<ResultRow>, jobs: map<JobId, Job>): seq<ResultRow> {
    if results == [] then []
    else
      var last, rest := results[|results| - 1], Cascade(results[..|results| - 1], jobs);
      if last.ticket.job in jobs then rest + [last] else rest
  }

  /** The result rows of one attempt, in insertion order. */
  function RowsOf(results: seq<ResultRow>, t: Ticket): seq<ResultRow> {
    if results == [] then []
    else
      var last, rest := results[|results| - 1], RowsOf(results[..|results| - 1], t);
      if last.ticket == t then rest + [last] else rest
  }

  /** Whether the finish statement touches the row: always by id, or only if this very attempt still runs. */
  predicate FinishMatches(fenced: bool, s: Queue, t: Ticket)
    requires t in s.execs
  {
    && t.job in s.jobs
    && (fenced ==>
          var j := s.jobs[t.job];
          j.status.Running? && j.lockedBy == Some(s.execs[t].worker) && j.attempts == t.attempt)
  }

  predicate Enabled(s: Queue, e: Event) {
    match e
    case Create(id, _, _, _, _, max, _) => id !in s.used && id !in s.jobs && max >= 1
    case Claim(id, _, now) => id in s.jobs && Runnable(s.jobs[id], now)
    case Heartbeat(t, _) => t in s.execs && s.execs[t].alive
    case DeviceDone(t, _) =>
      t in s.execs && s.execs[t].alive && s.execs[t].through < |s.execs[t].row.devices| && t.job in s.jobs
    case Finish(t, _, _) => t in s.execs && s.execs[t].alive && s.execs[t].through == |s.execs[t].row.devices|
    case Die(t) => t in s.execs
    case _ => true
  }

  function StepFinish(fenced: bool, s: Queue, t: Ticket, now: int, next: int): Queue
    requires t in s.execs
  {
    var x := s.execs[t];
    var jobs := if FinishMatches(fenced, s, t)
                then s.jobs[t.job := FinishedRow(s.jobs[t.job], DecideJobOutcome(x.row, x.allOk, now, next))]
                else s.jobs;
    s.(jobs := jobs, execs := s.execs - {t})
  }

  /** One event.  `fenced` is the stricter finish statement; the program uses the unfenced one. */
  function Step(fenced: bool, s: Queue, e: Event): Queue
    requires Enabled(s, e)
  {
    match e
    case Create(id, cron, devices, runAfter, nextRunAt, max, at) =>
      s.(used := s.used + {id},
         jobs := s.jobs[id := Job(Pending, cron, devices, 0, max, None, None, Some(runAfter), nextRunAt, at,
                                  max, 0, 0)])
    case Claim(id, w, now) =>
      var j := Claimed(s.jobs[id], w, now);
      s.(jobs := s.jobs[id := j], execs := s.execs[Ticket(id, j.attempts) := Exec(w, j, 0, true, true, false)])
    case Heartbeat(t, now) =>
      if t.job in s.jobs && s.jobs[t.job].lockedBy == Some(s.execs[t].worker)
      then s.(jobs := s.jobs[t.job := s.jobs[t.job].(heartbeatAt := Some(now))]) else s
    case DeviceDone(t, ok) =>
      var x := s.execs[t];
      s.(results := s.results + [ResultRow(t, x.row.devices[x.through], ok)],
         execs := s.execs[t := x.(through := x.through + 1, allOk := x.allOk && ok)])
    case Finish(t, now, next) => StepFinish(fenced, s, t, now, next)
    case Die(t) => s.(execs := s.execs[t := s.execs[t].(alive := false)])
    case Reap(now) =>
      s.(jobs := ReapAll(s.jobs, now),
         execs := map t | t in s.execs ::
           if t.job in s.jobs && Stale(s.jobs[t.job], now) then s.execs[t].(reaped := true) else s.execs[t])
    case Retry(id, now) =>
      if id in s.jobs && s.jobs[id].status.Failed? then s.(jobs := s.jobs[id := RetriedRow(s.jobs[id], now)]) else s
    case Cancel(id) =>
      if id in s.jobs && s.jobs[id].status.Pending?
      then s.(jobs := s.jobs[id := s.jobs[id].(status := Cancelled)]) else s
    case Clear => s.(jobs := Unfinished(s.jobs), results := Cascade(s.results, Unfinished(s.jobs)))
  }

  const EMPTY := Queue(map[], [], map[], {})

  /** A reaped worker never finishes: needed only of the unfenced statement. */
  predicate Honest(fenced: bool, s: Queue, e: Event) {
    fenced || (e.Finish? && e.ticket in s.execs ==> !s.execs[e.ticket].reaped)
  }

  // ---------------------------------------------------------------- invariants

  predicate JobSound(j: Job) {
    && j.claims == j.attempts
    && (j.lockedBy.Some? <==> j.status.Running?)
    && (j.heartbeatAt.Some? <==> j.status.Running?)
    && (j.cron ==> !j.status.Done?)
    && (!j.cron ==> j.attempts <= j.maxAttempts <= j.firstMax + j.retries)
    && (!j.cron && j.status.Pending? ==> j.attempts < j.maxAttempts)
  }

  /** The execution behind a running job: the claim in force, by the worker the row names. */
  predicate Backed(s: Queue, id: JobId)
    requires id in s.jobs
  {
    var j, t := s.jobs[id], Ticket(id, s.jobs[id].attempts);
    && t in s.execs && !s.execs[t].reaped && j.lockedBy == Some(s.execs[t].worker)
    && s.execs[t].row.maxAttempts == j.maxAttempts
  }

  /** What the result table says about one attempt. */
  predicate Recorded(rows: seq<ResultRow>, t: Ticket, devices: seq<DeviceId>, allOk: bool) {
    && |rows| == |devices|
    && (forall i :: 0 <= i < |rows| ==> rows[i].ticket == t && rows[i].device == devices[i])
    && (allOk <==> forall i :: 0 <= i < |rows| ==> rows[i].success)
  }

  predicate ExecSound(s: Queue, t: Ticket)
    requires t in s.execs
  {
    var x := s.execs[t];
    && x.through <= |x.row.devices| && x.row.attempts == t.attempt
    && (!x.reaped ==> t.job in s.jobs && s.jobs[t.job].status.Running? && s.jobs[t.job].attempts == t.attempt)
    && (t.job in s.jobs ==>
          && t.attempt <= s.jobs[t.job].attempts
          && x.row.devices == s.jobs[t.job].devices && x.row.cron == s.jobs[t.job].cron
          && Recorded(RowsOf(s.results, t), t, x.row.devices[..x.through], x.allOk))
  }

  /** A done job has a successful row for every device of its last attempt, in order, and nobody adds to them. */
  predicate DoneSound(s: Queue, id: JobId)
    requires id in s.jobs
  {
    var t := Ticket(id, s.jobs[id].attempts);
    s.jobs[id].status.Done? ==> t !in s.execs && Recorded(RowsOf(s.results, t), t, s.jobs[id].devices, true)
  }

  ghost predicate Inv(s: Queue) {
    && s.jobs.Keys <= s.used
    && (forall id :: id in s.jobs ==> JobSound(s.jobs[id]) && DoneSound(s, id))
    && (forall id :: id in s.jobs && s.jobs[id].status.Running? ==> Backed(s, id))
    && (forall t :: t in s.execs ==> t.job in s.used && ExecSound(s, t))
    && (forall r :: r in s.results ==> r.ticket.job in s.jobs && r.ticket.attempt <= s.jobs[r.ticket.job].attempts)
  }
}
