/** What the finish statement does when it comes from a worker whose job was reaped meanwhile: the statement goes by the
    job's id alone, so it hits whatever the job has become. */
module JobLateFinish {
  import opened Prelude
  import opened JobQueue
  import opened JobQueueSafety

  /** A worker whose job was reaped gets to its finish statement. */
  predicate Late(s: Queue, t: Ticket, now: int, next: int) {
    Enabled(s, Finish(t, now, next)) && s.execs[t].reaped
  }

  function LateOutcome(s: Queue, t: Ticket, now: int, next: int): JobOutcome
    requires t in s.execs
  {
    DecideJobOutcome(s.execs[t].row, s.execs[t].allOk, now, next)
  }

  function AfterLate(s: Queue, t: Ticket, now: int, next: int): Queue
    requires Late(s, t, now, next)
  {
    Step(false, s, Finish(t, now, next))
  }

  // ---------------------------------------------------------------- exclusive ownership

  /** A claim that was not reaped still has its job: running, its attempt, by its worker. */
  predicate Owns(s: Queue, u: Ticket)
    requires u in s.execs
  {
    && u.job in s.jobs && s.jobs[u.job].status.Running?
    && s.jobs[u.job].lockedBy == Some(s.execs[u].worker) && s.jobs[u.job].attempts == u.attempt
  }

  ghost predicate EveryOwnerOwns(s: Queue) {
    forall u :: u in s.execs && !s.execs[u].reaped ==> Owns(s, u)
  }

  /** While a reaped worker stays away every unreaped claim has its job to itself, in every run. */
  lemma OwnersOwn(s: Queue)
    requires Inv(s)
    ensures EveryOwnerOwns(s)
  {
    forall u | u in s.execs && !s.execs[u].reaped
      ensures Owns(s, u)
    {
      assert ExecSound(s, u) && Backed(s, u.job);
    }
  }

  /** A late finish leaves every owner its job exactly if the late worker's job is not running again by then. */
  lemma LateFinishKeepsOwnersIff(s: Queue, t: Ticket, now: int, next: int)
    requires Inv(s) && Late(s, t, now, next)
    ensures EveryOwnerOwns(AfterLate(s, t, now, next)) <==> !(t.job in s.jobs && s.jobs[t.job].status.Running?)
  {
    var s' := AfterLate(s, t, now, next);
    OwnersOwn(s);
    if t.job in s.jobs && s.jobs[t.job].status.Running? {
      var u := Ticket(t.job, s.jobs[t.job].attempts);
      assert Backed(s, t.job);
      assert u in s'.execs && !s'.execs[u].reaped && !Owns(s', u);
    } else {
      forall u | u in s'.execs && !s'.execs[u].reaped
        ensures Owns(s', u)
      {
        assert Owns(s, u);
      }
    }
  }

  // ---------------------------------------------------------------- the whole invariant

  /** The job's current attempt is over and succeeded on every device. */
  predicate CurrentSucceeded(s: Queue, id: JobId)
    requires id in s.jobs
  {
    var u := Ticket(id, s.jobs[id].attempts);
    u !in s.execs && Recorded(RowsOf(s.results, u), u, s.jobs[id].devices, true)
  }

  /** What the outcome may find the job as. */
  predicate Harmless(s: Queue, t: Ticket, o: JobOutcome) {
    t.job in s.jobs ==>
      var j := s.jobs[t.job];
      && !j.status.Running?
      && match o
         case MarkDone => t.attempt == j.attempts || CurrentSucceeded(s, t.job)
         case RetryLater(_) => j.attempts < j.maxAttempts
         case _ => true
  }

  lemma RunningIsHarmed(s: Queue, t: Ticket, now: int, next: int)
    requires Inv(s) && Late(s, t, now, next) && t.job in s.jobs && s.jobs[t.job].status.Running?
    ensures !Inv(AfterLate(s, t, now, next))
  {
    var u := Ticket(t.job, s.jobs[t.job].attempts);
    assert Backed(s, t.job);
    assert !ExecSound(AfterLate(s, t, now, next), u);
  }

  lemma IdleJobKept(s: Queue, t: Ticket, now: int, next: int)
    requires Inv(s) && Late(s, t, now, next) && t.job in s.jobs && !s.jobs[t.job].status.Running?
    ensures var s' := AfterLate(s, t, now, next);
            && (forall u :: u in s'.execs ==> ExecSound(s', u))
            && (forall id :: id in s'.jobs && s'.jobs[id].status.Running? ==> Backed(s', id))
            && (forall id :: id in s'.jobs && id != t.job ==> JobSound(s'.jobs[id]) && DoneSound(s', id))
  {
    var s' := AfterLate(s, t, now, next);
    forall u | u in s'.execs
      ensures ExecSound(s', u)
    {
      assert ExecSound(s, u);
    }
    forall id | id in s'.jobs && s'.jobs[id].status.Running?
      ensures Backed(s', id)
    {
      assert Backed(s, id);
    }
    forall id | id in s'.jobs && id != t.job
      ensures JobSound(s'.jobs[id]) && DoneSound(s', id)
    {
      assert DoneSound(s, id);
    }
  }

  lemma IdleJobSoundIff(s: Queue, t: Ticket, now: int, next: int)
    requires Inv(s) && Late(s, t, now, next) && t.job in s.jobs && !s.jobs[t.job].status.Running?
    ensures var s' := AfterLate(s, t, now, next);
            JobSound(s'.jobs[t.job]) && DoneSound(s', t.job) <==> Harmless(s, t, LateOutcome(s, t, now, next))
  {
    var x := s.execs[t];
    assert ExecSound(s, t) && JobSound(s.jobs[t.job]);
    assert x.row.devices[..x.through] == x.row.devices;
  }

  /** A late finish keeps the invariant exactly if the job is gone; or it is not running again, and the outcome fits it:
      "done" if no later attempt was made or the last one succeeded everywhere, "retry" if an attempt is left. */
  lemma LateFinishKeepsInvIff(s: Queue, t: Ticket, now: int, next: int)
    requires Inv(s) && Late(s, t, now, next)
    ensures Inv(AfterLate(s, t, now, next)) <==> Harmless(s, t, LateOutcome(s, t, now, next))
  {
    var s' := AfterLate(s, t, now, next);
    if t.job !in s.jobs {
      GoneJobKept(s, t, now, next);
    } else if s.jobs[t.job].status.Running? {
      RunningIsHarmed(s, t, now, next);
    } else {
      IdleJobKept(s, t, now, next);
      IdleJobSoundIff(s, t, now, next);
    }
  }

  lemma GoneJobKept(s: Queue, t: Ticket, now: int, next: int)
    requires Inv(s) && Late(s, t, now, next) && t.job !in s.jobs
    ensures Inv(AfterLate(s, t, now, next))
  {
    var s' := AfterLate(s, t, now, next);
    forall u | u in s'.execs
      ensures ExecSound(s', u)
    {
      assert ExecSound(s, u);
    }
    forall id | id in s'.jobs
      ensures DoneSound(s', id)
    {
      assert DoneSound(s, id);
    }
    forall id | id in s'.jobs && s'.jobs[id].status.Running?
      ensures Backed(s', id)
    {
      assert Backed(s, id);
    }
  }

  /** It keeps the lifecycle of every job exactly if the job is gone or unfinished, or it is done and would be marked
      done again, or failed and would be given up again: a cancelled job is always taken out of `cancelled`. */
  lemma LateFinishKeepsLifecycleIff(s: Queue, t: Ticket, now: int, next: int)
    requires Inv(s) && Late(s, t, now, next)
    ensures (forall id :: id in s.jobs ==>
               LifecycleKept(s, Finish(t, now, next), AfterLate(s, t, now, next), id)) <==>
            (t.job in s.jobs ==>
               match s.jobs[t.job].status
               case Pending => true
               case Running => true
               case Done => LateOutcome(s, t, now, next).MarkDone?
               case Failed => LateOutcome(s, t, now, next).GiveUp?
               case Cancelled => false)
  {
    var s', e := AfterLate(s, t, now, next), Finish(t, now, next);
    forall id | id in s.jobs && id != t.job
      ensures LifecycleKept(s, e, s', id)
    {
      assert JobSound(s.jobs[id]);
    }
    if t.job in s.jobs {
      assert ExecSound(s, t) && JobSound(s.jobs[t.job]);
      OneLifecycleIff(s, t, now, next);
    }
  }

  lemma OneLifecycleIff(s: Queue, t: Ticket, now: int, next: int)
    requires Inv(s) && Late(s, t, now, next) && t.job in s.jobs
    ensures LifecycleKept(s, Finish(t, now, next), AfterLate(s, t, now, next), t.job) <==>
            match s.jobs[t.job].status
            case Pending => true
            case Running => true
            case Done => LateOutcome(s, t, now, next).MarkDone?
            case Failed => LateOutcome(s, t, now, next).GiveUp?
            case Cancelled => false
  {
    assert ExecSound(s, t) && JobSound(s.jobs[t.job]);
  }

  /** In particular, a spent one-shot whose worker comes back from a failed attempt that had one left goes to pending
      with no attempt left, although nobody else is running it. */
  lemma SpentJobGoesPending(s: Queue, t: Ticket, now: int, next: int)
    requires Inv(s) && Late(s, t, now, next) && t.job in s.jobs && !s.jobs[t.job].status.Running?
    requires LateOutcome(s, t, now, next).RetryLater? && s.jobs[t.job].attempts == s.jobs[t.job].maxAttempts
    ensures var s' := AfterLate(s, t, now, next);
            && s'.jobs[t.job].status.Pending? && s'.jobs[t.job].attempts == s'.jobs[t.job].maxAttempts
            && EveryOwnerOwns(s') && !Inv(s')
  {
    LateFinishKeepsOwnersIff(s, t, now, next);
    LateFinishKeepsInvIff(s, t, now, next);
  }
}
