/** Who can accept a change, and what an acceptance saves: on RouterOS only a test-mode push that is fully applied, on
    Cisco any push from the moment its timer is armed. And that pushes can end as they are meant to. */
module CommitConfirmAcceptance {
  import opened Prelude
  import opened RevertDevice
  import opened CommitConfirm
  import opened CommitConfirmInvariant
  import opened CommitConfirmSafety

  /** An operator's disarm is for a test-mode push that has returned with every line applied. */
  predicate AcceptAuthorized(p: Push, s: System) {
    s.acceptDisarms ==> p.manual && s.push.stage == Returned(Armed) && s.world.landed == |p.lines|
  }

  lemma Go(p: Push, h: History, start: Device, s: System, e: Event) returns (h': History, t: System)
    requires Leads(p, h, start, s) && Enabled(p, s, e)
    ensures Leads(p, h', start, t) && t == Step(p, s, e) && h' == After(h, e)
  {
    h' := After(h, e);
    t := Step(p, s, e);
  }

  predicate Fresh(p: Push, start: Device) {
    p.kind.Cisco? && p.seconds > 0 && start.timer.None? && start.boots == 0
  }

  function Counting(p: Push, start: Device): Device {
    start.(prompt := NoPrompt, timer := Some(Timer(RevertMinutes(p.seconds) * 60000, 0, "")))
  }

  function Unarmed(start: Device): World {
    World(0, start, 0, None, 0, None, false, None)
  }

  function Armed0(p: Push, start: Device): World {
    World(0, Counting(p, start), 0, Some(RevertMinutes(p.seconds) * 60000), 0, None, false, None)
  }

  const FIRST := Session(0, 0)

  lemma Opened(p: Push, start: Device) returns (h: History, s: System)
    requires Fresh(p, start)
    ensures Leads(p, h, start, s)
    ensures s == System(Unarmed(start), Some(FIRST), 1, None, None,
                        Prog(Arming, 0, Some(FIRST)), At(Idle), None, false, false, false)
  {
    s := System(Unarmed(start), None, 0, None, None, At(Arming), At(Idle), None, false, false, false);
    h := Begin(s);
    h, s := Go(p, h, start, s, Open(Platform));
  }

  lemma Answered(p: Push, start: Device) returns (h: History, s: System)
    requires Fresh(p, start)
    ensures Leads(p, h, start, s)
    ensures s == System(Unarmed(start.(prompt := AskProceed(RevertMinutes(p.seconds)))), Some(FIRST), 1, None, None,
                        Prog(Arming, 2, Some(FIRST)), At(Idle), None, false, false, false)
  {
    h, s := Opened(p, start);
    h, s := Go(p, h, start, s, Command(Platform, Accepted));
    h, s := Go(p, h, start, s, Command(Platform, Accepted));
  }

  lemma FlagSet(p: Push, start: Device) returns (h: History, s: System)
    requires Fresh(p, start)
    ensures Leads(p, h, start, s)
    ensures s == System(Armed0(p, start), Some(FIRST), 1, Some(p.seconds * 1000), None,
                        At(Applying), At(Idle), None, false, false, false)
  {
    h, s := Answered(p, start);
    h, s := Go(p, h, start, s, Command(Platform, Accepted));
    h, s := Go(p, h, start, s, Done(Platform));
    h, s := Go(p, h, start, s, SetFlag(true));
  }

  /** Every Cisco push, in either mode and with any lines, can be accepted before its first line: the timer is then off
      and the push still applies. */
  lemma EarlyAcceptance(p: Push, start: Device) returns (h: History, s: System)
    requires Fresh(p, start)
    ensures Leads(p, h, start, s)
    ensures s.acceptDisarms && s.world.cancelled && s.world.device.timer.None?
    ensures s.world.landed == 0 && s.push.stage.Applying?
  {
    h, s := FlagSet(p, start);
    h, s := Go(p, h, start, s, Accept);
    h, s := Go(p, h, start, s, Open(Operator));
    h, s := Go(p, h, start, s, Command(Operator, Accepted));
  }

  /** So "an operator disarms only a fully applied test-mode push" holds of all runs exactly on RouterOS. */
  lemma AcceptAuthorityIff(p: Push, start: Device)
    requires p.seconds > 0 && start.timer.None? && start.boots == 0
    ensures (forall h, s :: Leads(p, h, start, s) ==> AcceptAuthorized(p, s)) <==> p.kind.RouterOs?
  {
    if p.kind.RouterOs? {
      forall h, s | Leads(p, h, start, s)
        ensures AcceptAuthorized(p, s)
      {
        DisarmAuthority(p, h, start, s);
      }
    } else {
      var h, s := EarlyAcceptance(p, start);
      assert !AcceptAuthorized(p, s);
    }
  }

  // ---------------------------------------------------------------- accepting on RouterOS

  /** `later` goes on where `h` ends. */
  predicate GoesOn(h: History, later: History) {
    later == h || (later.After? && GoesOn(h, later.before))
  }

  predicate FreshRouter(p: Push, start: Device) {
    p.kind.RouterOs? && p.seconds > 0 && start.timer.None? && start.boots == 0
  }

  /** The device with the snapshot taken and the timer set. */
  function Snapshot(p: Push, start: Device): Device {
    start.(files := WithoutFiles(start.files, "spcc")[p.token := start.running],
           timer := Some(Timer(p.seconds * 1000, p.seconds * 1000, p.token)))
  }

  function ArmedAt(p: Push): int {
    if p.kind.Cisco? then RevertMinutes(p.seconds) * 60000 else p.seconds * 1000
  }

  function ArmedDevice(p: Push, start: Device): Device {
    if p.kind.Cisco? then Counting(p, start) else Snapshot(p, start)
  }

  /** The push at a stage, on its first session, with `n` lines applied to the armed device. */
  function Applied(p: Push, start: Device, n: nat, applied: Option<Session>, token: Option<int>, g: Prog): System
    requires n <= |p.lines|
  {
    System(World(0, ArmedDevice(p, start).(running := start.running + p.lines[..n]), 0, Some(ArmedAt(p)), n, applied,
                 false, None),
           Some(FIRST), 1, Some(p.seconds * 1000), token, g, At(Idle), None, false, false, false)
  }

  lemma RouterOpened(p: Push, start: Device) returns (h: History, s: System)
    requires FreshRouter(p, start)
    ensures Leads(p, h, start, s)
    ensures s == System(Unarmed(start.(files := WithoutFiles(start.files, "spcc")[p.token := start.running])),
                        Some(FIRST), 1, None, None, Prog(Arming, 2, Some(FIRST)), At(Idle), None, false, false, false)
  {
    s := System(Unarmed(start), None, 0, None, None, At(Arming), At(Idle), None, false, false, false);
    h := Begin(s);
    h, s := Go(p, h, start, s, Open(Platform));
    h, s := Go(p, h, start, s, Command(Platform, Accepted));
    h, s := Go(p, h, start, s, Command(Platform, Accepted));
  }

  lemma RouterFlagged(p: Push, start: Device) returns (h: History, s: System)
    requires FreshRouter(p, start)
    ensures Leads(p, h, start, s) && s == Applied(p, start, 0, None, None, At(Applying))
  {
    h, s := RouterOpened(p, start);
    h, s := Go(p, h, start, s, Command(Platform, Accepted));
    h, s := Go(p, h, start, s, Done(Platform));
    h, s := Go(p, h, start, s, SetFlag(true));
    assert start.running + p.lines[..0] == start.running;
  }

  lemma Flagged(p: Push, start: Device) returns (h: History, s: System)
    requires Fresh(p, start) || FreshRouter(p, start)
    ensures Leads(p, h, start, s) && s == Applied(p, start, 0, None, None, At(Applying))
  {
    if p.kind.Cisco? {
      h, s := FlagSet(p, start);
      assert start.running + p.lines[..0] == start.running;
    } else {
      h, s := RouterFlagged(p, start);
    }
  }

  lemma {:induction false} AppliedSoFar(p: Push, start: Device, n: nat) returns (h: History, s: System)
    requires (Fresh(p, start) || FreshRouter(p, start)) && n <= |p.lines|
    ensures Leads(p, h, start, s) && s == Applied(p, start, n, Some(FIRST), None, Prog(Applying, n, Some(FIRST)))
  {
    if n == 0 {
      h, s := Flagged(p, start);
      h, s := Go(p, h, start, s, Open(Platform));
    } else {
      h, s := AppliedSoFar(p, start, n - 1);
      h, s := Go(p, h, start, s, Command(Platform, Accepted));
      assert p.lines[..n] == p.lines[..n - 1] + [p.lines[n - 1]];
      assert start.running + p.lines[..n - 1] + [p.lines[n - 1]] == start.running + p.lines[..n];
    }
  }

  // ---------------------------------------------------------------- the way it is meant to go

  const SECOND := Session(1, 0)

  lemma AboutToProbe(p: Push, start: Device) returns (h: History, s: System)
    requires (Fresh(p, start) || FreshRouter(p, start)) && !p.manual
    ensures Leads(p, h, start, s)
    ensures s == Applied(p, start, |p.lines|, Some(FIRST), None, At(Probing(0, 0))).(pool := None)
  {
    h, s := AppliedSoFar(p, start, |p.lines|);
    h, s := Go(p, h, start, s, Done(Platform));
    h, s := Go(p, h, start, s, Check);
    h, s := Go(p, h, start, s, TryProbe);
  }

  lemma Probed(p: Push, start: Device) returns (h: History, s: System)
    requires (Fresh(p, start) || FreshRouter(p, start)) && !p.manual
    ensures Leads(p, h, start, s)
    ensures s == Applied(p, start, |p.lines|, Some(FIRST), None, At(Disarming))
                   .(pool := Some(SECOND), serials := 2, probeSession := Some(SECOND))
  {
    h, s := AboutToProbe(p, start);
    h, s := Go(p, h, start, s, Open(Platform));
    h, s := Go(p, h, start, s, Command(Platform, Accepted));
    h, s := Go(p, h, start, s, Done(Platform));
  }

  lemma Disarmed(p: Push, start: Device) returns (h: History, s: System)
    requires (Fresh(p, start) || FreshRouter(p, start)) && !p.manual
    ensures Leads(p, h, start, s)
    ensures s.push == Prog(Disarming, 2, Some(SECOND)) && s.world.cancelled
    ensures s.world.device.running == start.running + p.lines
  {
    h, s := Probed(p, start);
    h, s := Go(p, h, start, s, Open(Platform));
    h, s := Go(p, h, start, s, Command(Platform, Accepted));
    h, s := Go(p, h, start, s, Command(Platform, Accepted));
    assert p.lines[..|p.lines|] == p.lines;
  }

  /** Every automatic push, on either platform, whatever its lines and whatever the device held, can end as it is meant
      to: `confirmed`, the disarm in time, all lines live and kept. */
  lemma EveryPushCanConfirm(p: Push, start: Device) returns (h: History, s: System)
    requires p.seconds > 0 && start.timer.None? && start.boots == 0 && !p.manual
    ensures Leads(p, h, start, s) && s.push.stage == Returned(Confirmed)
    ensures s.world.cancelled && s.world.device.running == start.running + p.lines && Settled(p, s.world.device)
  {
    h, s := Disarmed(p, start);
    h, s := Go(p, h, start, s, Done(Platform));
    h, s := Go(p, h, start, s, ClearFlags(Platform, true));
    ConfirmedTruth(p, h, start, s);
  }

  lemma TestReturned(p: Push, start: Device) returns (h: History, s: System)
    requires FreshRouter(p, start) && p.manual
    ensures Leads(p, h, start, s)
    ensures s == Applied(p, start, |p.lines|, Some(FIRST), Some(p.seconds * 1000), At(Returned(Armed)))
  {
    h, s := AppliedSoFar(p, start, |p.lines|);
    h, s := Go(p, h, start, s, Done(Platform));
    h, s := Go(p, h, start, s, HoldToken(true));
  }

  lemma GoOn(p: Push, h: History, later: History, start: Device, s: System, e: Event)
    returns (later': History, t: System)
    requires Leads(p, later, start, s) && Enabled(p, s, e) && GoesOn(h, later)
    ensures Leads(p, later', start, t) && t == Step(p, s, e) && GoesOn(h, later')
  {
    later', t := Go(p, later, start, s, e);
  }

  lemma TestAccepting(p: Push, start: Device, h: History, s: System) returns (later: History, t: System)
    requires FreshRouter(p, start) && p.manual && Leads(p, h, start, s)
    requires s == Applied(p, start, |p.lines|, Some(FIRST), Some(p.seconds * 1000), At(Returned(Armed)))
    ensures Leads(p, later, start, t) && GoesOn(h, later)
    ensures t == s.(accept := Prog(Disarming, 0, Some(FIRST)), acceptLate := true)
  {
    later, t := GoOn(p, h, h, start, s, Accept);
    later, t := GoOn(p, h, later, start, t, Open(Operator));
  }

  lemma TestDisarming(p: Push, start: Device, h: History, s: System) returns (later: History, t: System)
    requires FreshRouter(p, start) && p.manual && Leads(p, h, start, s)
    requires s == Applied(p, start, |p.lines|, Some(FIRST), Some(p.seconds * 1000), At(Returned(Armed)))
    ensures Leads(p, later, start, t) && GoesOn(h, later)
    ensures t.accept == Prog(Disarming, 2, Some(FIRST)) && t.acceptLate && t.world.cancelled
    ensures t.world.device.timer.None? && t.world.device.running == s.world.device.running
  {
    later, t := TestAccepting(p, start, h, s);
    later, t := GoOn(p, h, later, start, t, Command(Operator, Accepted));
    later, t := GoOn(p, h, later, start, t, Command(Operator, Accepted));
  }

  /** Every RouterOS test-mode push, whatever its lines and whatever the device held, can return `armed` and then be
      accepted: the timer is off, and all lines stay. */
  lemma TestAcceptance(p: Push, start: Device) returns (h: History, s: System, later: History, t: System)
    requires FreshRouter(p, start) && p.manual
    ensures Leads(p, h, start, s) && s.push.stage == Returned(Armed) && s.world.device.timer.Some?
    ensures Leads(p, later, start, t) && GoesOn(h, later)
    ensures t.accept.stage.Clearing? && t.acceptLate && t.world.cancelled && t.world.device.timer.None?
    ensures t.world.device.running == start.running + p.lines
  {
    h, s := TestReturned(p, start);
    later, t := TestDisarming(p, start, h, s);
    later, t := GoOn(p, h, later, start, t, Done(Operator));
    assert p.lines[..|p.lines|] == p.lines;
  }

  // ---------------------------------------------------------------- what was saved

  /** How many of the first `n` lines are on the device: all if it has not rebooted since they landed, else none. */
  function LiveOf(w: World, n: nat): nat {
    if w.applySession.Some? && w.applySession.value.boot == w.device.boots then n else 0
  }

  /** The configuration the device came up with, before any line. */
  function Base(start: Device, w: World): Config {
    if w.device.boots == 0 then start.running else start.startup
  }

  /** On Cisco, startup-config is what it was until the first save, and then what was running at the last one. */
  predicate SavedSound(p: Push, start: Device, w: World) {
    p.kind.Cisco? ==>
      && (w.saved.None? ==> w.device.startup == start.startup)
      && (w.saved.Some? ==>
            && w.deadline.Some? && w.device.timer.None? && w.saved.value <= w.landed <= |p.lines|
            && w.device.startup == Base(start, w) + p.lines[..LiveOf(w, w.saved.value)])
  }

  lemma SaveSound(p: Push, start: Device, w: World)
    requires WorldInv(p, start, w) && w.deadline.Some? && w.device.timer.None?
    ensures SavedSound(p, start, Land(w, WriteMemory))
  {
  }

  lemma CommandSaved(p: Push, start: Device, s: System, w: Who, ack: Ack)
    requires p.seconds > 0
    requires Inv(p, start, s) && SavedSound(p, start, s.world) && Enabled(p, s, Command(w, ack))
    ensures SavedSound(p, start, Step(p, s, Command(w, ack)).world)
  {
    var g := ProgOf(s, w);
    if g.stage.Disarming? && g.sent == 1 {
      SaveCommandSaved(p, start, s, w, ack);
    } else {
      OtherCommandSaved(p, start, s, w, ack);
    }
  }

  lemma SaveCommandSaved(p: Push, start: Device, s: System, w: Who, ack: Ack)
    requires Inv(p, start, s) && SavedSound(p, start, s.world) && Enabled(p, s, Command(w, ack))
    requires ProgOf(s, w).stage.Disarming? && ProgOf(s, w).sent == 1
    ensures SavedSound(p, start, Step(p, s, Command(w, ack)).world)
  {
    SaveSound(p, start, s.world);
  }

  lemma OtherCommandSaved(p: Push, start: Device, s: System, w: Who, ack: Ack)
    requires Inv(p, start, s) && SavedSound(p, start, s.world) && Enabled(p, s, Command(w, ack))
    requires !(ProgOf(s, w).stage.Disarming? && ProgOf(s, w).sent == 1)
    ensures SavedSound(p, start, Step(p, s, Command(w, ack)).world)
  {
    var g := ProgOf(s, w);
    if ack.Accepted? || ack.LostAfter? {
      var c := CallCommand(p, g.stage, g.sent);
      assert !c.WriteMemory? && !(c.AnswerSave? && c.yes);
      LandFacts(p, start, s, w, c);
      KeepsSaved(p, start, s.world, Land(s.world, c));
    }
  }

  lemma LandFacts(p: Push, start: Device, s: System, w: Who, c: Cmd)
    requires Inv(p, start, s) && InCall(ProgOf(s, w)) && ProgOf(s, w).sent < CallLength(p, ProgOf(s, w).stage)
    requires c == CallCommand(p, ProgOf(s, w).stage, ProgOf(s, w).sent) && !c.WriteMemory?
    ensures Land(s.world, c).device.startup == s.world.device.startup
    ensures Land(s.world, c).device.boots == s.world.device.boots
    ensures s.world.deadline.Some? && s.world.device.timer.None? ==> Land(s.world, c).device.timer.None?
    ensures s.world.deadline.Some? ==> Land(s.world, c).deadline.Some?
    ensures s.world.landed <= Land(s.world, c).landed <= |p.lines|
  {
  }

  lemma KeepsSaved(p: Push, start: Device, w: World, u: World)
    requires SavedSound(p, start, w) && u.saved == w.saved && u.applySession == w.applySession
    requires u.device.startup == w.device.startup && u.device.boots == w.device.boots
    requires w.deadline.Some? && w.device.timer.None? ==> u.device.timer.None?
    requires w.deadline.Some? ==> u.deadline.Some?
    requires w.landed <= u.landed <= |p.lines|
    ensures SavedSound(p, start, u)
  {
  }

  lemma StepSaved(p: Push, start: Device, s: System, e: Event)
    requires p.seconds > 0 && Inv(p, start, s) && SavedSound(p, start, s.world) && Enabled(p, s, e)
    ensures SavedSound(p, start, Step(p, s, e).world)
  {
    match e
    case Command(w, ack) => CommandSaved(p, start, s, w, ack);
    case _ =>
  }

  lemma {:induction false} RunSaved(p: Push, h: History, start: Device, s: System)
    requires Leads(p, h, start, s)
    ensures SavedSound(p, start, s.world)
  {
    match h
    case Begin(_) =>
    case After(b, e) =>
      RunInv(p, b, start, End(p, b));
      RunSaved(p, b, start, End(p, b));
      StepSaved(p, start, End(p, b), e);
  }

  /** Once a Cisco configuration was saved by either program, the device is settled exactly if no line came after the
      last save that is still live: an acceptance settles the change exactly if what had landed by then is all of it.
      */
  lemma CiscoSettledIff(p: Push, h: History, start: Device, s: System)
    requires Leads(p, h, start, s) && p.kind.Cisco? && s.world.saved.Some?
    ensures s.world.saved.value <= s.world.landed <= |p.lines|
    ensures Settled(p, s.world.device) <==> LiveOf(s.world, s.world.saved.value) == LiveOf(s.world, s.world.landed)
    ensures s.world.device.startup == Base(start, s.world) + p.lines[..LiveOf(s.world, s.world.saved.value)]
  {
    RunInv(p, h, start, s);
    RunSaved(p, h, start, s);
    var w := s.world;
    assert |w.device.startup| == |Base(start, w)| + LiveOf(w, w.saved.value);
    assert |w.device.running| == |Base(start, w)| + LiveOf(w, w.landed);
  }
}
