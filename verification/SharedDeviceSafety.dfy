/** What commit-confirm still guarantees when others configure the device meanwhile: where the rollback point is, what
    the device reverts to, and where the push's own lines end up. */
module SharedDeviceSafety {
  import opened Prelude
  import opened RevertDevice
  import opened CommitConfirm
  import opened CommitConfirmInvariant
  import opened CommitConfirmSafety
  import opened SharedDevice

  function Texts(since: seq<Entry>): Config {
    if since == [] then [] else Texts(since[..|since| - 1]) + [since[|since| - 1].text]
  }

  /** The push's own lines among those that landed. */
  function Owned(since: seq<Entry>): Config {
    if since == [] then []
    else
      var last := since[|since| - 1];
      Owned(since[..|since| - 1]) + if last.own then [last.text] else []
  }

  lemma Snoc(since: seq<Entry>, e: Entry)
    ensures Texts(since + [e]) == Texts(since) + [e.text]
    ensures Owned(since + [e]) == Owned(since) + if e.own then [e.text] else []
  {
    assert (since + [e])[..|since|] == since;
  }

  /** What a revert restores: on Cisco, what others last saved while the timer ran, and otherwise the rollback point. */
  function Restored(p: Push, s: Shared): Config {
    if p.kind.Cisco? && s.saves != [] then s.saves[|s.saves| - 1] else s.point
  }

  /** The rollback configuration is there for the timer to use. */
  predicate Ready(p: Push, s: Shared) {
    var d := s.sys.world.device;
    if p.kind.Cisco? then d.startup == Restored(p, s) else p.token in d.files && d.files[p.token] == s.point
  }

  /** The device holds what it came up with and the lines since, the push's own ones in order. */
  predicate LinesSound(p: Push, start: Device, s: Shared) {
    var w, d := s.sys.world, s.sys.world.device;
    && w.landed <= |p.lines|
    && d.running == s.base + Texts(s.since)
    && Owned(s.since) == p.lines[..LiveLines(w)]
    && (d.boots == 0 ==> s.base == start.running)
  }

  /** The revert finds what it should restore, and has restored it. */
  predicate PointSound(p: Push, s: Shared) {
    var d := s.sys.world.device;
    && (d.boots != 0 ==> s.base == Restored(p, s))
    && (d.timer.Some? ==> Ready(p, s))
    && (p.kind.RouterOs? && s.sys.push.stage.Arming? && s.sys.push.sent >= 2 ==> Ready(p, s))
  }

  ghost predicate Shadows(p: Push, start: Device, s: Shared, t: System) {
    Inv(p, start, t) && Alike(p, s.sys, t)
  }

  // ---------------------------------------------------------------- the lines

  lemma OthersLines(p: Push, start: Device, s: Shared, e: Happening)
    requires LinesSound(p, start, s) && Possible(p, s, e) && !e.Own?
    ensures LinesSound(p, start, StepShared(p, s, e))
  {
    if e.OthersLine? {
      Snoc(s.since, Entry(false, e.text));
      assert s.base + Texts(s.since) + [e.text] == s.base + (Texts(s.since) + [e.text]);
    }
  }

  lemma WaitLines(p: Push, start: Device, s: Shared, t: System, ms: nat)
    requires LinesSound(p, start, s) && Shadows(p, start, s, t)
    ensures LinesSound(p, start, OwnStep(p, s, Wait(ms)))
  {
    var u := OwnStep(p, s, Wait(ms));
    if u.sys.world.device.boots != s.sys.world.device.boots {
      assert u.base + [] == u.base;
      assert p.lines[..0] == [];
    }
  }

  lemma OtherCommandKeeps(d: Device, c: Cmd, now: int)
    requires !c.Line?
    ensures Perform(d, c, now).running == d.running && Perform(d, c, now).boots == d.boots
  {
  }

  lemma LineLines(p: Push, start: Device, s: Shared, t: System, ack: Ack)
    requires LinesSound(p, start, s) && Shadows(p, start, s, t)
    requires Enabled(p, s.sys, Command(Platform, ack)) && s.sys.push.stage.Applying?
    ensures LinesSound(p, start, OwnStep(p, s, Command(Platform, ack)))
  {
    if ack.Accepted? || ack.LostAfter? {
      LineFacts(p, start, s, t, ack);
      OneLineLines(p, start, s, ack);
    }
  }

  /** Where the apply call stands when a line lands: on its own session of this boot, at the next line. */
  lemma LineFacts(p: Push, start: Device, s: Shared, t: System, ack: Ack)
    requires Shadows(p, start, s, t) && Enabled(p, s.sys, Command(Platform, ack)) && s.sys.push.stage.Applying?
    requires ack.Accepted? || ack.LostAfter?
    ensures s.sys.world.landed == s.sys.push.sent < |p.lines|
    ensures LiveLines(s.sys.world) == s.sys.world.landed && s.sys.world.applySession.Some?
    ensures s.sys.world.applySession.value.boot == s.sys.world.device.boots
  {
    assert s.sys.push == t.push && s.sys.world.landed == t.world.landed;
  }

  lemma OneLineLines(p: Push, start: Device, s: Shared, ack: Ack)
    requires LinesSound(p, start, s) && Enabled(p, s.sys, Command(Platform, ack)) && s.sys.push.stage.Applying?
    requires ack.Accepted? || ack.LostAfter?
    requires s.sys.world.landed == s.sys.push.sent < |p.lines|
    requires LiveLines(s.sys.world) == s.sys.world.landed && s.sys.world.applySession.Some?
    requires s.sys.world.applySession.value.boot == s.sys.world.device.boots
    ensures LinesSound(p, start, OwnStep(p, s, Command(Platform, ack)))
  {
    var u, line := OwnStep(p, s, Command(Platform, ack)), p.lines[s.sys.world.landed];
    assert u.sys.world == Land(s.sys.world, Line(line));
    assert u.since == s.since + [Entry(true, line)] && u.base == s.base;
    LinesAppend(p, start, s, u, line);
  }

  lemma LinesAppend(p: Push, start: Device, s: Shared, u: Shared, line: string)
    requires LinesSound(p, start, s) && s.sys.world.landed < |p.lines| && line == p.lines[s.sys.world.landed]
    requires u.sys.world == Land(s.sys.world, Line(line))
    requires u.since == s.since + [Entry(true, line)] && u.base == s.base
    requires LiveLines(s.sys.world) == s.sys.world.landed && s.sys.world.applySession.Some?
    requires s.sys.world.applySession.value.boot == s.sys.world.device.boots
    ensures LinesSound(p, start, u)
  {
    var n := s.sys.world.landed;
    Snoc(s.since, Entry(true, line));
    assert p.lines[..n + 1] == p.lines[..n] + [line];
    assert s.base + Texts(s.since) + [line] == s.base + (Texts(s.since) + [line]);
  }

  lemma CommandLines(p: Push, start: Device, s: Shared, w: Who, ack: Ack)
    requires LinesSound(p, start, s) && Enabled(p, s.sys, Command(w, ack))
    requires !CallCommand(p, ProgOf(s.sys, w).stage, ProgOf(s.sys, w).sent).Line?
    ensures LinesSound(p, start, OwnStep(p, s, Command(w, ack)))
  {
    var g := ProgOf(s.sys, w);
    OtherCommandKeeps(s.sys.world.device, CallCommand(p, g.stage, g.sent), s.sys.world.now);
  }

  lemma SessionLines(p: Push, start: Device, s: Shared, t: System, e: Event)
    requires LinesSound(p, start, s) && Shadows(p, start, s, t) && Enabled(p, s.sys, e)
    requires e.Open? || e.OpenFails? || e.Done?
    ensures LinesSound(p, start, OwnStep(p, s, e))
  {
    if e == Open(Platform) && s.sys.push.stage.Applying? {
      assert t.push == s.sys.push && t.world.landed == s.sys.world.landed == 0;
    }
  }

  lemma OffDeviceLines(p: Push, start: Device, s: Shared, e: Event)
    requires LinesSound(p, start, s) && Enabled(p, s.sys, e) && OffDevice(e)
    ensures LinesSound(p, start, OwnStep(p, s, e))
  {
  }

  lemma OwnLines(p: Push, start: Device, s: Shared, t: System, e: Event)
    requires LinesSound(p, start, s) && Shadows(p, start, s, t) && Enabled(p, s.sys, e)
    ensures LinesSound(p, start, OwnStep(p, s, e))
  {
    if OffDevice(e) {
      OffDeviceLines(p, start, s, e);
    } else if e.Wait? {
      WaitLines(p, start, s, t, e.ms);
    } else if e.Command? {
      if e.who.Platform? && s.sys.push.stage.Applying? {
        LineLines(p, start, s, t, e.ack);
      } else {
        assert t.accept == s.sys.accept;
        CommandLines(p, start, s, e.who, e.ack);
      }
    } else {
      SessionLines(p, start, s, t, e);
    }
  }

  // ---------------------------------------------------------------- the rollback point

  lemma OthersPoint(p: Push, start: Device, s: Shared, t: System, e: Happening)
    requires PointSound(p, s) && Shadows(p, start, s, t) && Possible(p, s, e) && !e.Own?
    ensures PointSound(p, StepShared(p, s, e))
  {
  }

  lemma WaitPoint(p: Push, start: Device, s: Shared, t: System, ms: nat)
    requires PointSound(p, s) && Shadows(p, start, s, t)
    ensures PointSound(p, OwnStep(p, s, Wait(ms)))
  {
  }

  lemma ArmPoint(p: Push, start: Device, s: Shared, t: System, ack: Ack)
    requires PointSound(p, s) && Shadows(p, start, s, t)
    requires Enabled(p, s.sys, Command(Platform, ack)) && s.sys.push.stage.Arming?
    ensures PointSound(p, OwnStep(p, s, Command(Platform, ack)))
  {
  }

  /** Where a disarm stands: past its first command the timer is off, and the timer it meets is the push's own. */
  lemma DisarmFacts(p: Push, start: Device, s: Shared, t: System, w: Who)
    requires Shadows(p, start, s, t) && ProgOf(s.sys, w).stage.Disarming?
    ensures ProgOf(s.sys, w).sent == 1 ==> s.sys.world.device.timer.None?
    ensures p.kind.RouterOs? && s.sys.world.device.timer.Some? ==> s.sys.world.device.timer.value.token == p.token
    ensures !s.sys.push.stage.Arming?
  {
    assert ProgOf(t, w) == ProgOf(s.sys, w) && t.push == s.sys.push;
  }

  lemma DisarmPoint(p: Push, start: Device, s: Shared, t: System, w: Who, ack: Ack)
    requires PointSound(p, s) && Shadows(p, start, s, t)
    requires Enabled(p, s.sys, Command(w, ack)) && ProgOf(s.sys, w).stage.Disarming?
    ensures PointSound(p, OwnStep(p, s, Command(w, ack)))
  {
    DisarmFacts(p, start, s, t, w);
    if w.Platform? {
      PushDisarmPoint(p, s, ack);
    } else {
      AcceptDisarmPoint(p, s, ack);
    }
  }

  lemma PushDisarmPoint(p: Push, s: Shared, ack: Ack)
    requires PointSound(p, s) && Enabled(p, s.sys, Command(Platform, ack)) && s.sys.push.stage.Disarming?
    requires s.sys.push.sent == 1 ==> s.sys.world.device.timer.None?
    requires p.kind.RouterOs? && s.sys.world.device.timer.Some? ==> s.sys.world.device.timer.value.token == p.token
    ensures PointSound(p, OwnStep(p, s, Command(Platform, ack)))
  {
  }

  lemma AcceptDisarmPoint(p: Push, s: Shared, ack: Ack)
    requires PointSound(p, s) && Enabled(p, s.sys, Command(Operator, ack)) && s.sys.accept.stage.Disarming?
    requires s.sys.accept.sent == 1 ==> s.sys.world.device.timer.None?
    requires p.kind.RouterOs? && s.sys.world.device.timer.Some? ==> s.sys.world.device.timer.value.token == p.token
    requires !s.sys.push.stage.Arming?
    ensures PointSound(p, OwnStep(p, s, Command(Operator, ack)))
  {
  }

  lemma LinePoint(p: Push, s: Shared, ack: Ack)
    requires PointSound(p, s) && Enabled(p, s.sys, Command(Platform, ack))
    requires s.sys.push.stage.Applying? || s.sys.push.stage.Probing?
    ensures PointSound(p, OwnStep(p, s, Command(Platform, ack)))
  {
  }

  lemma SessionPoint(p: Push, s: Shared, e: Event)
    requires PointSound(p, s) && Enabled(p, s.sys, e) && (e.Open? || e.OpenFails? || e.Done?)
    ensures PointSound(p, OwnStep(p, s, e))
  {
  }

  lemma OffDevicePoint(p: Push, s: Shared, e: Event)
    requires PointSound(p, s) && Enabled(p, s.sys, e) && OffDevice(e)
    ensures PointSound(p, OwnStep(p, s, e))
  {
  }

  lemma CommandPoint(p: Push, start: Device, s: Shared, t: System, w: Who, ack: Ack)
    requires PointSound(p, s) && Shadows(p, start, s, t) && Enabled(p, s.sys, Command(w, ack))
    ensures PointSound(p, OwnStep(p, s, Command(w, ack)))
  {
    if w.Operator? {
      assert t.accept == s.sys.accept;
      DisarmPoint(p, start, s, t, w, ack);
    } else {
      match s.sys.push.stage
      case Arming => ArmPoint(p, start, s, t, ack);
      case Disarming => DisarmPoint(p, start, s, t, w, ack);
      case _ => LinePoint(p, s, ack);
    }
  }

  lemma OwnPoint(p: Push, start: Device, s: Shared, t: System, e: Event)
    requires PointSound(p, s) && Shadows(p, start, s, t) && Enabled(p, s.sys, e)
    ensures PointSound(p, OwnStep(p, s, e))
  {
    if OffDevice(e) {
      OffDevicePoint(p, s, e);
    } else if e.Wait? {
      WaitPoint(p, start, s, t, e.ms);
    } else if e.Command? {
      CommandPoint(p, start, s, t, e.who, e.ack);
    } else {
      SessionPoint(p, s, e);
    }
  }

  lemma {:induction false} CourseContents(p: Push, h: Course, start: Device, s: Shared)
    requires LeadsTo(p, h, start, s)
    ensures LinesSound(p, start, s) && PointSound(p, s)
  {
    if h.Begins? {
      assert s.base + [] == s.base && p.lines[..0] == [];
    } else {
      var b, e := h.before, h.event;
      CourseContents(p, b, start, EndOf(p, b));
      var t := AloneLeads(p, b, start, EndOf(p, b));
      if e.Own? {
        OwnLines(p, start, EndOf(p, b), t, e.event);
        OwnPoint(p, start, EndOf(p, b), t, e.event);
      } else {
        OthersLines(p, start, EndOf(p, b), e);
        OthersPoint(p, start, EndOf(p, b), t, e);
      }
    }
  }

  // ---------------------------------------------------------------- the guarantees

  /** While a timer runs, firing it restores the rollback point exactly if nobody's save has moved it: always on
      RouterOS, and on Cisco as long as nothing was saved meanwhile, or the last save was of that very configuration.
      */
  lemma RollbackPointKeptIff(p: Push, h: Course, start: Device, s: Shared)
    requires LeadsTo(p, h, start, s) && s.sys.world.device.timer.Some?
    ensures Fire(p.kind, s.sys.world.device).running == Restored(p, s)
    ensures Fire(p.kind, s.sys.world.device).running == s.point <==>
            p.kind.RouterOs? || s.saves == [] || s.saves[|s.saves| - 1] == s.point
    ensures s.sys.world.device.timer.value.deadline >= s.sys.world.armTime + p.seconds * 1000
  {
    var t := AloneLeads(p, h, start, s);
    CourseContents(p, h, start, s);
  }

  /** One save by somebody else in the armed window makes the unconfirmed change the rollback point. */
  lemma SaveMovesTheRollbackPoint(p: Push, h: Course, start: Device, s: Shared)
    requires LeadsTo(p, h, start, s) && s.sys.world.device.timer.Some? && p.kind.Cisco?
    ensures LeadsTo(p, Goes(h, OthersSave), start, StepShared(p, s, OthersSave))
    ensures Fire(p.kind, StepShared(p, s, OthersSave).sys.world.device).running == s.sys.world.device.running
  {
  }

  /** Once the deadline has passed, a disarm reached the timer or the device reverted; if it reverted, it is on what was
      restored and the lines that landed after that, none of them the push's unless it applied after the revert. */
  lemma SharedDeadline(p: Push, h: Course, start: Device, s: Shared)
    requires LeadsTo(p, h, start, s)
    requires s.sys.world.deadline.Some? && s.sys.world.now >= s.sys.world.deadline.value
    ensures s.sys.world.device.timer.None?
    ensures s.sys.world.cancelled <==> s.sys.world.device.boots == 0
    ensures s.sys.world.cancelled ==> s.sys.pushDisarms || s.sys.acceptDisarms
    ensures !s.sys.world.cancelled ==>
              && s.sys.world.device.running == Restored(p, s) + Texts(s.since)
              && (Owned(s.since) == [] <==> !AppliedAfterRevert(s.sys.world))
  {
    var t := AloneLeads(p, h, start, s);
    DeadlineSafety(p, Alone(h), start, t);
    CourseContents(p, h, start, s);
    var w := s.sys.world;
    if !w.cancelled {
      assert |Owned(s.since)| == LiveLines(w);
    }
  }

  /** Before the deadline only a disarm turns the timer off, and the device holds its old configuration and every line
      that landed, the push's own ones in order. */
  lemma SharedBeforeDeadline(p: Push, h: Course, start: Device, s: Shared)
    requires LeadsTo(p, h, start, s)
    requires s.sys.world.deadline.Some? && s.sys.world.now < s.sys.world.deadline.value
    ensures s.sys.world.device.timer.Some? <==> !s.sys.world.cancelled
    ensures s.sys.world.landed <= |p.lines|
    ensures s.sys.world.device.running == start.running + Texts(s.since)
    ensures Owned(s.since) == p.lines[..s.sys.world.landed]
  {
    var t := AloneLeads(p, h, start, s);
    BeforeDeadline(p, Alone(h), start, t);
    CourseContents(p, h, start, s);
    assert p.lines[..0] == [];
  }

  /** The timer is off, and the push's lines are all on the device exactly if the disarm hit the timer or they were
      applied after the revert; else none is. */
  ghost predicate ChangeKept(p: Push, s: Shared) {
    var w := s.sys.world;
    && w.device.timer.None?
    && (w.cancelled <==> w.device.boots == 0)
    && Owned(s.since) == if w.cancelled || AppliedAfterRevert(w) then p.lines else []
  }

  lemma KeptIfApplied(p: Push, h: Course, start: Device, s: Shared, t: System)
    requires LeadsTo(p, h, start, s) && Inv(p, start, t) && Alike(p, s.sys, t)
    requires AppliedAll(p, t.world) && t.world.device.timer.None? && t.world.deadline.Some?
    ensures ChangeKept(p, s)
  {
    CourseContents(p, h, start, s);
    assert p.lines[..|p.lines|] == p.lines && p.lines[..0] == [];
  }

  /** `confirmed`, whatever others did meanwhile. */
  lemma SharedConfirmed(p: Push, h: Course, start: Device, s: Shared)
    requires LeadsTo(p, h, start, s) && s.sys.push.stage == Returned(Confirmed)
    ensures ChangeKept(p, s)
  {
    var t := AloneLeads(p, h, start, s);
    KeptIfApplied(p, h, start, s, t);
  }

  /** The same of an acceptance that began after the push had returned `armed`. */
  lemma SharedAccepted(p: Push, h: Course, start: Device, s: Shared)
    requires LeadsTo(p, h, start, s)
    requires s.sys.accept.stage.Clearing? && s.sys.acceptLate && s.sys.push.stage == Returned(Armed)
    ensures ChangeKept(p, s)
  {
    var t := AloneLeads(p, h, start, s);
    KeptIfApplied(p, h, start, s, t);
  }

  /** A push that has returned without confirming has set a timer, which still runs before the deadline unless an
      operator sent a disarm. */
  predicate TimerStillRuns(s: System) {
    && !s.pushDisarms && s.world.deadline.Some?
    && (s.world.now < s.world.deadline.value && !s.acceptDisarms ==> s.world.device.timer.Some?)
  }

  lemma UnconfirmedTimerRuns(p: Push, h: Course, start: Device, s: Shared)
    requires LeadsTo(p, h, start, s)
    requires s.sys.push.stage == Returned(Reverting) || s.sys.push.stage == Returned(Armed)
    ensures TimerStillRuns(s.sys)
  {
    var t := AloneLeads(p, h, start, s);
    DisarmAuthority(p, Alone(h), start, t);
  }

  /** `later` continues `h` without a further acceptance; whatever others do. */
  predicate GoesOnUnaccepted(h: Course, later: Course) {
    later == h || (later.Goes? && !(later.event.Own? && later.event.event.Accept?) && GoesOnUnaccepted(h, later.before))
  }

  lemma {:induction false} AloneGoesOn(h: Course, later: Course)
    requires GoesOnUnaccepted(h, later)
    ensures ContinuesUnaccepted(Alone(h), Alone(later))
  {
    if later != h {
      AloneGoesOn(h, later.before);
    }
  }

  /** `reverting` or `armed` on a device that others configure too: in every continuation without an acceptance, once
      the deadline has passed the device is on what was restored and the lines that others have sent since. */
  lemma SharedRevertsUnlessAccepted(p: Push, h: Course, start: Device, s: Shared, later: Course, t: Shared)
    requires LeadsTo(p, h, start, s) && LeftArmed(s.sys)
    requires s.sys.world.deadline.Some? && s.sys.world.now < s.sys.world.deadline.value
    requires LeadsTo(p, later, start, t) && GoesOnUnaccepted(h, later)
    ensures s.sys.world.device.timer.Some?
    ensures t.sys.world.now >= s.sys.world.deadline.value ==>
              t.sys.world.device.running == Restored(p, t) + Texts(t.since) && Owned(t.since) == []
  {
    var s1 := AloneLeads(p, h, start, s);
    var t1 := AloneLeads(p, later, start, t);
    AloneGoesOn(h, later);
    LeftArmedStays(p, Alone(h), Alone(later));
    RevertsUnlessAccepted(p, Alone(h), start, s1, Alone(later), t1);
    BeforeDeadline(p, Alone(h), start, s1);
    if t.sys.world.now >= s.sys.world.deadline.value {
      DeadlineSafety(p, Alone(later), start, t1);
      SharedDeadline(p, later, start, t);
    }
  }
}
