/** The inductive invariant of the commit-confirm system, and its preservation by every event. */
module CommitConfirmInvariant {
  import opened Prelude
  import opened RevertDevice
  import opened CommitConfirm

  // ---------------------------------------------------------------- invariants of the device

  /** What the revert restores: startup-config on Cisco, the snapshot of the running configuration on RouterOS. */
  function Rollback(p: Push, start: Device): Config {
    if p.kind.Cisco? then start.startup else start.running
  }

  /** The rollback point is there for the timer to use. */
  predicate RollbackKept(p: Push, start: Device, d: Device) {
    if p.kind.Cisco? then d.startup == start.startup
    else p.token in d.files && d.files[p.token] == start.running
  }

  /** How many of the push's lines are on the device now: those that landed since its last boot. */
  function LiveLines(w: World): nat {
    if w.applySession.Some? && w.applySession.value.boot == w.device.boots then w.landed else 0
  }

  predicate ConfigKnown(p: Push, start: Device, w: World) {
    && w.device.boots <= 1
    && w.landed <= |p.lines|
    && w.device.running ==
         (if w.device.boots == 0 then start.running else Rollback(p, start)) + p.lines[..LiveLines(w)]
    && (w.applySession.Some? ==> w.applySession.value.boot <= w.device.boots)
    && (w.applySession.None? ==> w.landed == 0)
  }

  predicate TimerSound(p: Push, start: Device, w: World) {
    var d := w.device;
    && (d.timer.Some? ==>
          && d.boots == 0 && !w.cancelled
          && w.now < d.timer.value.deadline && w.deadline == Some(d.timer.value.deadline)
          && (p.kind.RouterOs? ==> d.timer.value.token == p.token)
          && RollbackKept(p, start, d)
          && w.armTime + p.seconds * 1000 <= d.timer.value.deadline < w.armTime + p.seconds * 1000 + 60000)
    && (w.deadline.None? ==> d.timer.None? && d.boots == 0 && !w.cancelled && d.startup == start.startup)
    && (w.deadline.Some? && d.boots == 0 && !w.cancelled ==> d.timer.Some?)
    && (w.cancelled ==> d.timer.None? && d.boots == 0)
    && (d.boots == 1 ==> d.timer.None? && w.deadline.Some? && w.deadline.value <= w.now)
  }

  predicate WorldInv(p: Push, start: Device, w: World) {
    ConfigKnown(p, start, w) && TimerSound(p, start, w)
  }

  lemma WaitKeepsWorld(p: Push, start: Device, w: World, ms: nat)
    requires WorldInv(p, start, w)
    ensures WorldInv(p, start, StepWait(p, w, ms))
  {
  }

  /** Where the arming sequence stands on the device after `k` of its three commands. */
  predicate ArmProgress(p: Push, start: Device, w: World, k: nat) {
    && k <= 3 && w.landed == 0 && w.applySession.None?
    && (k == 3 <==> w.deadline.Some?)
    && (p.kind.Cisco? && k == 1 ==>
          && (w.device.prompt.AskSave? || w.device.prompt.AskProceed?)
          && w.device.prompt.minutes == RevertMinutes(p.seconds))
    && (p.kind.Cisco? && k == 2 ==> w.device.prompt == AskProceed(RevertMinutes(p.seconds)))
    && (p.kind.RouterOs? && k >= 2 ==> RollbackKept(p, start, w.device))
  }

  /** Arming keeps the rollback point at every prefix: the timer starts last, and the Save prompt is answered no. */
  lemma ArmKeepsWorld(p: Push, start: Device, w: World, k: nat)
    requires p.seconds > 0 && k < 3
    requires WorldInv(p, start, w) && ArmProgress(p, start, w, k)
    ensures WorldInv(p, start, Land(w, ArmCommand(p, k))) && ArmProgress(p, start, Land(w, ArmCommand(p, k)), k + 1)
  {
  }

  lemma LineKeepsWorld(p: Push, start: Device, w: World)
    requires WorldInv(p, start, w) && w.landed < |p.lines|
    requires w.applySession.Some? && w.applySession.value.boot == w.device.boots
    ensures WorldInv(p, start, Land(w, Line(p.lines[w.landed])))
  {
    assert p.lines[..w.landed + 1] == p.lines[..w.landed] + [p.lines[w.landed]];
  }

  /** Disarming: the timer goes off first; only then is the configuration saved or the snapshot removed. */
  lemma DisarmKeepsWorld(p: Push, start: Device, w: World, k: nat)
    requires k < 2 && WorldInv(p, start, w) && w.deadline.Some?
    requires k == 1 ==> w.device.timer.None?
    ensures WorldInv(p, start, Land(w, DisarmCommand(p, k)))
    ensures Land(w, DisarmCommand(p, k)).device.timer.None?
    ensures k == 1 ==> Settled(p, Land(w, DisarmCommand(p, k)).device)
  {
  }

  /** The timer is off and the change is kept: saved on Cisco, the snapshot removed on RouterOS. */
  predicate Settled(p: Push, d: Device) {
    && d.timer.None?
    && (if p.kind.Cisco? then d.startup == d.running else p.token !in d.files)
  }

  // ---------------------------------------------------------------- invariants of the programs

  predicate AppliedAll(p: Push, w: World) {
    w.applySession.Some? && w.landed == |p.lines|
  }

  /** Stages only a test-mode push reaches after its lines are applied, and stages only an automatic one does. */
  predicate ManualStage(g: Stage) {
    g.Holding? || g == Returned(Armed)
  }

  predicate AutoStage(g: Stage) {
    g.Checking? || g.Pausing? || g.Probing? || g.Disarming? || g.Clearing? || g == Returned(Confirmed)
  }

  /** Stages that follow a successful probe. */
  predicate ProbedStage(g: Stage) {
    g.Disarming? || g.Clearing? || g == Returned(Confirmed)
  }

  predicate PushSound(p: Push, start: Device, s: System) {
    var g, w := s.push, s.world;
    && !g.stage.Idle?
    && (!InCall(g) ==> g == At(g.stage))
    && (g.stage.Arming? ==> ArmProgress(p, start, w, g.sent))
    && (!g.stage.Arming? && !g.stage.Threw? && !g.stage.Crashed? ==> w.deadline.Some?)
    && (g.stage.Flagging? ==> w.landed == 0 && w.applySession.None?)
    && (g.stage.Applying? ==>
          w.landed == g.sent && g.session == w.applySession && (g.session.None? ==> g.sent == 0))
    && (g.stage.Probing? ==> g.sent <= 1)
    && (ManualStage(g.stage) ==> p.manual && AppliedAll(p, w))
    && (AutoStage(g.stage) ==> !p.manual && AppliedAll(p, w))
    && (g.stage.Disarming? ==> g.sent <= 2)
    && (g.stage.Disarming? && g.sent >= 1 ==> w.device.timer.None?)
    && ((g.stage.Disarming? && g.sent == 2) || g.stage.Clearing? || g.stage == Returned(Confirmed) ==>
          Settled(p, w.device))
  }

  /** A disarm is sent only after a probe succeeded on a session opened after the one the lines went over. */
  predicate ProbeSound(p: Push, s: System) {
    var applied := s.world.applySession;
    && (applied.Some? ==> applied.value.serial < s.serials)
    && (s.pool.Some? ==> s.pool.value.serial < s.serials && s.pool.value.boot <= s.world.device.boots)
    && (s.push.stage.Probing? && applied.Some? ==>
          && (s.pool.Some? ==> s.pool.value.serial > applied.value.serial)
          && (s.push.session.Some? ==> s.push.session.value.serial > applied.value.serial))
    && (s.pushDisarms || ProbedStage(s.push.stage) ==>
          && !p.manual && AppliedAll(p, s.world)
          && s.probeSession.Some? && s.probeSession.value.serial > applied.value.serial)
    && (s.pushDisarms ==> s.push.stage.Threw? || s.push.stage.Crashed? || ProbedStage(s.push.stage))
    && (s.world.cancelled ==> s.pushDisarms || s.acceptDisarms)
  }

  predicate AcceptSound(p: Push, s: System) {
    var g, w := s.accept, s.world;
    && (g.stage.Idle? || g.stage.Disarming? || g.stage.Clearing?)
    && g.sent <= 2
    && (!g.stage.Disarming? ==> g == At(g.stage))
    && (!g.stage.Idle? || s.armedFlag.Some? || s.acceptDisarms ==> !s.push.stage.Arming?)
    && (!g.stage.Idle? || s.armedFlag.Some? ==> w.deadline.Some?)
    && (s.tokenFlag.Some? || ((!g.stage.Idle? || s.acceptDisarms) && p.kind.RouterOs?) ==>
          s.push.stage == Returned(Armed))
    && (g.stage.Disarming? && g.sent >= 1 ==> w.device.timer.None?)
    && (!g.stage.Idle? && s.acceptLate ==> s.push.stage.Returned?)
    && (s.acceptLate && ((g.stage.Disarming? && g.sent == 2) || g.stage.Clearing?) ==> Settled(p, w.device))
  }

  predicate Inv(p: Push, start: Device, s: System) {
    && WorldInv(p, start, s.world)
    && PushSound(p, start, s)
    && ProbeSound(p, s)
    && AcceptSound(p, s)
  }

  lemma InitInv(p: Push, s: System)
    requires Init(s)
    ensures Inv(p, s.world.device, s)
  {
  }

  lemma WaitInv(p: Push, start: Device, s: System, ms: nat)
    requires Inv(p, start, s)
    ensures Inv(p, start, Step(p, s, Wait(ms)))
  {
    WaitKeepsWorld(p, start, s.world, ms);
  }

  lemma PoolInv(p: Push, start: Device, s: System, e: Event)
    requires Inv(p, start, s) && Enabled(p, s, e) && (e.Evict? || e.OthersOpen?)
    ensures Inv(p, start, Step(p, s, e))
  {
  }

  lemma PushOpenInv(p: Push, start: Device, s: System)
    requires Inv(p, start, s) && Enabled(p, s, Open(Platform))
    ensures Inv(p, start, Step(p, s, Open(Platform)))
  {
  }

  lemma AcceptOpenInv(p: Push, start: Device, s: System)
    requires Inv(p, start, s) && Enabled(p, s, Open(Operator))
    ensures Inv(p, start, Step(p, s, Open(Operator)))
  {
  }

  lemma PushFailInv(p: Push, start: Device, s: System)
    requires Inv(p, start, s) && Enabled(p, s, OpenFails(Platform))
    ensures Inv(p, start, Step(p, s, OpenFails(Platform)))
  {
  }

  lemma AcceptFailInv(p: Push, start: Device, s: System)
    requires Inv(p, start, s) && Enabled(p, s, OpenFails(Operator))
    ensures Inv(p, start, Step(p, s, OpenFails(Operator)))
  {
  }

  lemma PushDoneInv(p: Push, start: Device, s: System)
    requires Inv(p, start, s) && Enabled(p, s, Done(Platform))
    ensures Inv(p, start, Step(p, s, Done(Platform)))
  {
  }

  lemma AcceptDoneInv(p: Push, start: Device, s: System)
    requires Inv(p, start, s) && Enabled(p, s, Done(Operator))
    ensures Inv(p, start, Step(p, s, Done(Operator)))
  {
  }

  lemma SetFlagInv(p: Push, start: Device, s: System, ok: bool)
    requires Inv(p, start, s) && Enabled(p, s, SetFlag(ok))
    ensures Inv(p, start, Step(p, s, SetFlag(ok)))
  {
  }

  lemma HoldTokenInv(p: Push, start: Device, s: System, ok: bool)
    requires Inv(p, start, s) && Enabled(p, s, HoldToken(ok))
    ensures Inv(p, start, Step(p, s, HoldToken(ok)))
  {
  }

  lemma PushClearInv(p: Push, start: Device, s: System, ok: bool)
    requires Inv(p, start, s) && Enabled(p, s, ClearFlags(Platform, ok))
    ensures Inv(p, start, Step(p, s, ClearFlags(Platform, ok)))
  {
  }

  lemma AcceptClearInv(p: Push, start: Device, s: System, ok: bool)
    requires Inv(p, start, s) && Enabled(p, s, ClearFlags(Operator, ok))
    ensures Inv(p, start, Step(p, s, ClearFlags(Operator, ok)))
  {
  }

  lemma CheckInv(p: Push, start: Device, s: System)
    requires Inv(p, start, s) && Enabled(p, s, Check)
    ensures Inv(p, start, Step(p, s, Check))
  {
  }

  lemma TryProbeInv(p: Push, start: Device, s: System)
    requires Inv(p, start, s) && Enabled(p, s, TryProbe)
    ensures Inv(p, start, Step(p, s, TryProbe))
  {
  }

  lemma PushCrashInv(p: Push, start: Device, s: System)
    requires Inv(p, start, s) && Enabled(p, s, Crash(Platform))
    ensures Inv(p, start, Step(p, s, Crash(Platform)))
  {
  }

  lemma AcceptCrashInv(p: Push, start: Device, s: System)
    requires Inv(p, start, s) && Enabled(p, s, Crash(Operator))
    ensures Inv(p, start, Step(p, s, Crash(Operator)))
  {
  }

  lemma AcceptGrantedInv(p: Push, start: Device, s: System)
    requires Inv(p, start, s) && Enabled(p, s, Accept) && AcceptGranted(p, s)
    ensures Inv(p, start, Step(p, s, Accept))
  {
  }

  lemma AcceptRefusedInv(p: Push, start: Device, s: System)
    requires Inv(p, start, s) && Enabled(p, s, Accept) && !AcceptGranted(p, s)
    ensures Inv(p, start, Step(p, s, Accept))
  {
  }

  lemma ArmCommandInv(p: Push, start: Device, s: System, ack: Ack)
    requires p.seconds > 0
    requires Inv(p, start, s) && Enabled(p, s, Command(Platform, ack)) && s.push.stage.Arming?
    ensures Inv(p, start, Step(p, s, Command(Platform, ack)))
  {
    ArmKeepsWorld(p, start, s.world, s.push.sent);
  }

  lemma LineCommandLost(p: Push, start: Device, s: System, ack: Ack)
    requires Inv(p, start, s) && Enabled(p, s, Command(Platform, ack)) && s.push.stage.Applying?
    requires ack.Rejected? || ack.LostBefore?
    ensures Inv(p, start, Step(p, s, Command(Platform, ack)))
  {
  }

  lemma LineCommandLanded(p: Push, start: Device, s: System, ack: Ack)
    requires Inv(p, start, s) && Enabled(p, s, Command(Platform, ack)) && s.push.stage.Applying?
    requires ack.Accepted? || ack.LostAfter?
    ensures Inv(p, start, Step(p, s, Command(Platform, ack)))
  {
    if s.push.session.value.boot == s.world.device.boots {
      LineKeepsWorld(p, start, s.world);
    }
  }

  lemma LineCommandInv(p: Push, start: Device, s: System, ack: Ack)
    requires Inv(p, start, s) && Enabled(p, s, Command(Platform, ack)) && s.push.stage.Applying?
    ensures Inv(p, start, Step(p, s, Command(Platform, ack)))
  {
    if ack.Accepted? || ack.LostAfter? {
      LineCommandLanded(p, start, s, ack);
    } else {
      LineCommandLost(p, start, s, ack);
    }
  }

  lemma ProbeCommandInv(p: Push, start: Device, s: System, ack: Ack)
    requires Inv(p, start, s) && Enabled(p, s, Command(Platform, ack)) && s.push.stage.Probing?
    ensures Inv(p, start, Step(p, s, Command(Platform, ack)))
  {
  }

  lemma DisarmCommandInv(p: Push, start: Device, s: System, ack: Ack)
    requires Inv(p, start, s) && Enabled(p, s, Command(Platform, ack)) && s.push.stage.Disarming?
    ensures Inv(p, start, Step(p, s, Command(Platform, ack)))
  {
    DisarmKeepsWorld(p, start, s.world, s.push.sent);
  }

  lemma AcceptCommandLost(p: Push, start: Device, s: System, ack: Ack)
    requires Inv(p, start, s) && Enabled(p, s, Command(Operator, ack))
    requires ack.Rejected? || ack.LostBefore?
    ensures Inv(p, start, Step(p, s, Command(Operator, ack)))
  {
  }

  lemma AcceptCommandLanded(p: Push, start: Device, s: System, ack: Ack)
    requires Inv(p, start, s) && Enabled(p, s, Command(Operator, ack))
    requires ack.Accepted? || ack.LostAfter?
    ensures Inv(p, start, Step(p, s, Command(Operator, ack)))
  {
    DisarmKeepsWorld(p, start, s.world, s.accept.sent);
  }

  lemma AcceptCommandInv(p: Push, start: Device, s: System, ack: Ack)
    requires Inv(p, start, s) && Enabled(p, s, Command(Operator, ack))
    ensures Inv(p, start, Step(p, s, Command(Operator, ack)))
  {
    if ack.Accepted? || ack.LostAfter? {
      AcceptCommandLanded(p, start, s, ack);
    } else {
      AcceptCommandLost(p, start, s, ack);
    }
  }

  lemma CommandInv(p: Push, start: Device, s: System, w: Who, ack: Ack)
    requires p.seconds > 0
    requires Inv(p, start, s) && Enabled(p, s, Command(w, ack))
    ensures Inv(p, start, Step(p, s, Command(w, ack)))
  {
    if w.Operator? {
      AcceptCommandInv(p, start, s, ack);
    } else {
      match s.push.stage
      case Arming => ArmCommandInv(p, start, s, ack);
      case Applying => LineCommandInv(p, start, s, ack);
      case Disarming => DisarmCommandInv(p, start, s, ack);
      case _ => ProbeCommandInv(p, start, s, ack);
    }
  }

  lemma SessionInv(p: Push, start: Device, s: System, e: Event)
    requires Inv(p, start, s) && Enabled(p, s, e) && (e.Open? || e.OpenFails? || e.Done?)
    ensures Inv(p, start, Step(p, s, e))
  {
    match e
    case Open(w) => if w.Platform? { PushOpenInv(p, start, s); } else { AcceptOpenInv(p, start, s); }
    case OpenFails(w) => if w.Platform? { PushFailInv(p, start, s); } else { AcceptFailInv(p, start, s); }
    case Done(w) => if w.Platform? { PushDoneInv(p, start, s); } else { AcceptDoneInv(p, start, s); }
  }

  lemma EndInv(p: Push, start: Device, s: System, e: Event)
    requires Inv(p, start, s) && Enabled(p, s, e) && (e.ClearFlags? || e.Crash?)
    ensures Inv(p, start, Step(p, s, e))
  {
    match e
    case ClearFlags(w, ok) =>
      if w.Platform? { PushClearInv(p, start, s, ok); } else { AcceptClearInv(p, start, s, ok); }
    case Crash(w) => if w.Platform? { PushCrashInv(p, start, s); } else { AcceptCrashInv(p, start, s); }
  }

  lemma AcceptInv(p: Push, start: Device, s: System)
    requires Inv(p, start, s) && Enabled(p, s, Accept)
    ensures Inv(p, start, Step(p, s, Accept))
  {
    if AcceptGranted(p, s) { AcceptGrantedInv(p, start, s); } else { AcceptRefusedInv(p, start, s); }
  }

  lemma StepInv(p: Push, start: Device, s: System, e: Event)
    requires p.seconds > 0
    requires Inv(p, start, s) && Enabled(p, s, e)
    ensures Inv(p, start, Step(p, s, e))
  {
    match e
    case Wait(ms) => WaitInv(p, start, s, ms);
    case Evict => PoolInv(p, start, s, e);
    case OthersOpen => PoolInv(p, start, s, e);
    case Open(w) => SessionInv(p, start, s, e);
    case OpenFails(w) => SessionInv(p, start, s, e);
    case Command(w, ack) => CommandInv(p, start, s, w, ack);
    case Done(w) => SessionInv(p, start, s, e);
    case SetFlag(ok) => SetFlagInv(p, start, s, ok);
    case HoldToken(ok) => HoldTokenInv(p, start, s, ok);
    case Check => CheckInv(p, start, s);
    case TryProbe => TryProbeInv(p, start, s);
    case ClearFlags(w, ok) => EndInv(p, start, s, e);
    case Crash(w) => EndInv(p, start, s, e);
    case Accept => AcceptInv(p, start, s);
  }
}
