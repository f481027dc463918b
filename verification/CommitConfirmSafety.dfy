/** What commit-confirm guarantees over whole runs, with the exact conditions under which it does. */
module CommitConfirmSafety {
  import opened Prelude
  import opened RevertDevice
  import opened CommitConfirm
  import opened CommitConfirmInvariant

  /** `h` is a run of push `p` that found the device in state `start` and has led to `s`. */
  predicate Leads(p: Push, h: History, start: Device, s: System) {
    p.seconds > 0 && Valid(p, h) && StartOf(h) == start && End(p, h) == s
  }

  lemma {:induction false} RunInv(p: Push, h: History, start: Device, s: System)
    requires Leads(p, h, start, s)
    ensures Inv(p, start, s)
  {
    match h
    case Begin(_) => InitInv(p, s);
    case After(b, e) =>
      RunInv(p, b, start, End(p, b));
      StepInv(p, start, End(p, b), e);
  }

  /** The apply call got its session from the device as it runs after the revert: the timer had already gone off. */
  predicate AppliedAfterRevert(w: World) {
    w.device.boots > 0 && w.landed > 0 && w.applySession.Some? && w.applySession.value.boot == w.device.boots
  }

  /** While a timer runs its rollback point is intact, and it is set no shorter than the push asked, and less than a
      minute longer. */
  lemma ArmedTimerHasRollback(p: Push, h: History, start: Device, s: System)
    requires Leads(p, h, start, s) && s.world.device.timer.Some?
    ensures RollbackKept(p, start, s.world.device)
    ensures Fire(p.kind, s.world.device).running == Rollback(p, start)
    ensures s.world.now < s.world.device.timer.value.deadline
    ensures s.world.armTime + p.seconds * 1000 <= s.world.device.timer.value.deadline
    ensures s.world.device.timer.value.deadline < s.world.armTime + p.seconds * 1000 + 60000
  {
    RunInv(p, h, start, s);
  }

  /** Once the deadline has passed, either a disarm reached the running timer, or the device reverted; and then
      it is on its rollback configuration, unless lines were applied on a session opened after the revert. */
  lemma DeadlineSafety(p: Push, h: History, start: Device, s: System)
    requires Leads(p, h, start, s)
    requires s.world.deadline.Some? && s.world.now >= s.world.deadline.value
    ensures s.world.device.timer.None?
    ensures s.world.cancelled <==> s.world.device.boots == 0
    ensures s.world.cancelled ==> s.pushDisarms || s.acceptDisarms
    ensures !s.world.cancelled ==>
              (s.world.device.running == Rollback(p, start) <==> !AppliedAfterRevert(s.world))
  {
    RunInv(p, h, start, s);
    var w := s.world;
    if !w.cancelled {
      assert |w.device.running| == |Rollback(p, start)| + LiveLines(w);
      assert p.lines[..0] == [];
    }
  }

  /** Before the deadline nothing but a disarm turns the timer off, and the lines that landed are live. */
  lemma BeforeDeadline(p: Push, h: History, start: Device, s: System)
    requires Leads(p, h, start, s)
    requires s.world.deadline.Some? && s.world.now < s.world.deadline.value
    ensures s.world.device.timer.Some? <==> !s.world.cancelled
    ensures s.world.landed <= |p.lines|
    ensures s.world.device.running == start.running + p.lines[..s.world.landed]
  {
    RunInv(p, h, start, s);
    assert p.lines[..0] == [];
  }

  /** Who may disarm: the platform only for an automatic push, after every line was applied and a probe then
      succeeded on a session opened later than theirs; an operator, on RouterOS, only for a test-mode push that has
      returned with every line applied, and on either platform only once the push is past arming. */
  lemma DisarmAuthority(p: Push, h: History, start: Device, s: System)
    requires Leads(p, h, start, s)
    ensures s.pushDisarms ==>
              && !p.manual && s.world.landed == |p.lines|
              && s.probeSession.Some? && s.world.applySession.Some?
              && s.probeSession.value.serial > s.world.applySession.value.serial
    ensures s.acceptDisarms ==> !s.push.stage.Arming?
    ensures s.acceptDisarms && p.kind.RouterOs? ==>
              p.manual && s.push.stage == Returned(Armed) && s.world.landed == |p.lines|
    ensures s.world.cancelled ==> s.pushDisarms || s.acceptDisarms
  {
    RunInv(p, h, start, s);
  }

  /** What a fully applied push leaves: the lines on the old configuration, or the revert came after them and
      wiped them, or they were applied after the revert. */
  function FinalConfig(p: Push, start: Device, w: World): Config {
    if w.device.boots == 0 then start.running + p.lines
    else if AppliedAfterRevert(w) then Rollback(p, start) + p.lines
    else Rollback(p, start)
  }

  /** `confirmed`: the timer is off and the change is kept.  The disarm landed before the device deadline exactly
      when the device never reverted, and then all the lines are live on the old configuration. */
  lemma ConfirmedTruth(p: Push, h: History, start: Device, s: System)
    requires Leads(p, h, start, s) && s.push.stage == Returned(Confirmed)
    ensures Settled(p, s.world.device)
    ensures s.world.cancelled <==> s.world.device.boots == 0
    ensures s.world.device.running == FinalConfig(p, start, s.world)
    ensures s.world.cancelled ==> s.world.device.running == start.running + p.lines
  {
    RunInv(p, h, start, s);
    assert p.lines[..|p.lines|] == p.lines && p.lines[..0] == [];
  }

  /** The same for an operator's acceptance that began after the test-mode push had returned. */
  lemma AcceptTruth(p: Push, h: History, start: Device, s: System)
    requires Leads(p, h, start, s)
    requires s.accept.stage.Clearing? && s.acceptLate && s.push.stage == Returned(Armed)
    ensures Settled(p, s.world.device)
    ensures s.world.cancelled <==> s.world.device.boots == 0
    ensures s.world.device.running == FinalConfig(p, start, s.world)
  {
    RunInv(p, h, start, s);
    assert p.lines[..|p.lines|] == p.lines && p.lines[..0] == [];
  }

  /** The push has returned without confirming, and no acceptance has touched the device. */
  predicate LeftArmed(s: System) {
    && (s.push.stage == Returned(Reverting) || s.push.stage == Returned(Armed))
    && s.accept.stage.Idle? && !s.acceptDisarms
  }

  /** `later` continues `h` without a further acceptance. */
  predicate ContinuesUnaccepted(h: History, later: History) {
    later == h || (later.After? && !later.event.Accept? && ContinuesUnaccepted(h, later.before))
  }

  /** The state an unaccepted push left, but for the clock and the device itself. */
  predicate SameLeftover(s: System, t: System) {
    LeftArmed(t) && t.push == s.push && t.world.(now := s.world.now, device := s.world.device) == s.world
  }

  lemma LeftArmedStep(p: Push, s: System, e: Event)
    requires LeftArmed(s) && Enabled(p, s, e) && !e.Accept?
    ensures SameLeftover(s, Step(p, s, e))
  {
  }

  lemma {:induction false} LeftArmedStays(p: Push, h: History, later: History)
    requires Valid(p, h) && Valid(p, later) && ContinuesUnaccepted(h, later) && LeftArmed(End(p, h))
    ensures SameLeftover(End(p, h), End(p, later))
  {
    if later != h {
      LeftArmedStays(p, h, later.before);
      LeftArmedStep(p, End(p, later.before), later.event);
    }
  }

  /** `reverting` or `armed`, returned before the device deadline: the push has sent no disarm and the timer is
      running, so in every continuation without an acceptance the device is back on its rollback
      configuration once the deadline has passed. */
  lemma RevertsUnlessAccepted(p: Push, h: History, start: Device, s: System, later: History, t: System)
    requires Leads(p, h, start, s) && LeftArmed(s)
    requires s.world.deadline.Some? && s.world.now < s.world.deadline.value
    requires Leads(p, later, start, t) && ContinuesUnaccepted(h, later)
    ensures !s.pushDisarms && s.world.device.timer.Some?
    ensures t.world.now >= s.world.deadline.value ==> t.world.device.running == Rollback(p, start)
  {
    RunInv(p, h, start, s);
    RunInv(p, later, start, t);
    LeftArmedStays(p, h, later);
    assert p.lines[..0] == [];
  }

  /** A file on the device that is none of the platform's snapshots is left alone, over whole runs. */
  lemma {:induction false} OtherFilesKept(p: Push, h: History, start: Device, s: System, name: string)
    requires Leads(p, h, start, s) && !Contains(name, "spcc") && !Contains(name, p.token)
    ensures name in s.world.device.files <==> name in start.files
    ensures name in start.files ==> s.world.device.files[name] == start.files[name]
  {
    if h.After? {
      OtherFilesKept(p, h.before, start, End(p, h.before), name);
      FileStep(p, End(p, h.before), h.event, name);
    }
  }

  predicate SameFile(d: Device, e: Device, name: string) {
    (name in d.files <==> name in e.files) && (name in d.files ==> e.files[name] == d.files[name])
  }

  lemma FileStep(p: Push, s: System, e: Event, name: string)
    requires Enabled(p, s, e) && !Contains(name, "spcc") && !Contains(name, p.token)
    ensures SameFile(s.world.device, Step(p, s, e).world.device, name)
  {
    if e.Command? {
      var g := ProgOf(s, e.who);
      CommandKeepsFile(p, s.world.device, g.stage, g.sent, s.world.now, name);
    }
  }

  lemma CommandKeepsFile(p: Push, d: Device, g: Stage, k: nat, now: int, name: string)
    requires k < CallLength(p, g) && !Contains(name, "spcc") && !Contains(name, p.token)
    ensures SameFile(d, Perform(d, CallCommand(p, g, k), now), name)
  {
    assert Contains(p.token, p.token);
  }

  /** Why one push per device at a time: arming a second one sweeps the first one's snapshot, whose timer then
      goes off without restoring anything and only runs again a period later. */
  lemma SecondArmBreaksTheFirst(d: Device, now: int)
    requires d.timer.Some? && Contains(d.timer.value.token, "spcc")
    ensures var swept := Perform(d, SweepSnapshots, now);
            && swept.timer == d.timer
            && Fire(RouterOs, swept).running == d.running
            && Fire(RouterOs, swept).timer ==
               Some(d.timer.value.(deadline := d.timer.value.deadline + d.timer.value.period))
  {
    assert d.timer.value.token !in WithoutFiles(d.files, "spcc");
  }
}
