/** Concrete runs of a one-line Cisco push that show why the conditions in CommitConfirmSafety are needed. */
module CommitConfirmHazards {
  import opened Prelude
  import opened RevertDevice
  import opened CommitConfirm
  import opened CommitConfirmInvariant
  import opened CommitConfirmSafety

  const BASE := Device(["base"], ["base"], map[], None, NoPrompt, 0)
  const COUNTING := BASE.(timer := Some(Timer(60000, 0, "")))
  const REVERTED := BASE.(boots := 1)
  const FIRST := Session(0, 0)

  function OneLine(manual: bool): Push {
    Push(Cisco, ["new"], 60, manual, "spcc1")
  }

  /** One more event on a run whose state is known. */
  lemma Go(manual: bool, h: History, s: System, e: Event) returns (h': History, t: System)
    requires Leads(OneLine(manual), h, BASE, s) && Enabled(OneLine(manual), s, e)
    ensures Leads(OneLine(manual), h', BASE, t) && t == Step(OneLine(manual), s, e)
  {
    h' := After(h, e);
    t := Step(OneLine(manual), s, e);
  }

  /** The state in which the platform starts a stage once the timer is set, with no acceptance in flight. */
  function Staged(w: World, pool: Option<Session>, serials: nat, stage: Stage, probe: Option<Session>): System {
    System(w, pool, serials, Some(60000), None, At(stage), At(Idle), probe, false, false, false)
  }

  function Since(now: int, d: Device, landed: nat, over: Option<Session>, cancelled: bool): World {
    World(now, d, 0, Some(60000), landed, over, cancelled, None)
  }

  lemma OpenedRun(manual: bool) returns (h: History, s: System)
    ensures Leads(OneLine(manual), h, BASE, s)
    ensures s == System(World(0, BASE, 0, None, 0, None, false, None), Some(FIRST), 1, None, None,
                        Prog(Arming, 0, Some(FIRST)), At(Idle), None, false, false, false)
  {
    s := System(World(0, BASE, 0, None, 0, None, false, None), None, 0, None, None,
                At(Arming), At(Idle), None, false, false, false);
    h := Begin(s);
    h, s := Go(manual, h, s, Open(Platform));
  }

  lemma ArmingRun(manual: bool) returns (h: History, s: System)
    ensures Leads(OneLine(manual), h, BASE, s)
    ensures s == System(World(0, COUNTING, 0, Some(60000), 0, None, false, None), Some(FIRST), 1, None, None,
                        Prog(Arming, 3, Some(FIRST)), At(Idle), None, false, false, false)
  {
    h, s := AnsweredRun(manual);
    h, s := Go(manual, h, s, Command(Platform, Accepted));
  }

  lemma AnsweredRun(manual: bool) returns (h: History, s: System)
    ensures Leads(OneLine(manual), h, BASE, s)
    ensures s == System(World(0, BASE.(prompt := AskProceed(1)), 0, None, 0, None, false, None),
                        Some(FIRST), 1, None, None,
                        Prog(Arming, 2, Some(FIRST)), At(Idle), None, false, false, false)
  {
    h, s := OpenedRun(manual);
    h, s := Go(manual, h, s, Command(Platform, Accepted));
    h, s := Go(manual, h, s, Command(Platform, Accepted));
  }

  lemma ArmedRun(manual: bool) returns (h: History, s: System)
    ensures Leads(OneLine(manual), h, BASE, s)
    ensures s == Staged(Since(0, COUNTING, 0, None, false), Some(FIRST), 1, Applying, None)
  {
    h, s := ArmingRun(manual);
    h, s := Go(manual, h, s, Done(Platform));
    h, s := Go(manual, h, s, SetFlag(true));
  }

  /** The apply call starts only after the timer went off, on a fresh session: the line stays on the device with
      no timer running and no disarm ever sent. */
  lemma LateApplyIsUnprotected() returns (h: History, s: System)
    ensures Leads(OneLine(false), h, BASE, s) && s.world.deadline == Some(60000) && s.world.now == 60000
    ensures AppliedAfterRevert(s.world) && s.world.device.timer.None? && !s.pushDisarms && !s.acceptDisarms
    ensures s.world.device.running != Rollback(OneLine(false), BASE)
  {
    h, s := ArmedRun(false);
    h, s := Go(false, h, s, Wait(60000));
    h, s := Go(false, h, s, Evict);
    assert s == Staged(Since(60000, REVERTED, 0, None, false), None, 1, Applying, None);
    h, s := Go(false, h, s, Open(Platform));
    h, s := Go(false, h, s, Command(Platform, Accepted));
  }

  lemma AppliedRun() returns (h: History, s: System)
    ensures Leads(OneLine(false), h, BASE, s)
    ensures s == Staged(Since(0, COUNTING.(running := ["base", "new"]), 1, Some(FIRST), false),
                        Some(FIRST), 1, Checking(0, 0), None)
  {
    h, s := ArmedRun(false);
    h, s := Go(false, h, s, Open(Platform));
    h, s := Go(false, h, s, Command(Platform, Accepted));
    h, s := Go(false, h, s, Done(Platform));
  }

  lemma RevertedWhileProbing() returns (h: History, s: System)
    ensures Leads(OneLine(false), h, BASE, s)
    ensures s == Staged(Since(60000, REVERTED, 1, Some(FIRST), false), None, 1, Probing(0, 0), None)
  {
    h, s := AppliedRun();
    h, s := Go(false, h, s, Check);
    h, s := Go(false, h, s, TryProbe);
    h, s := Go(false, h, s, Wait(60000));
  }

  lemma ProbedAfterRevert() returns (h: History, s: System)
    ensures Leads(OneLine(false), h, BASE, s)
    ensures s == Staged(Since(60000, REVERTED, 1, Some(FIRST), false),
                        Some(Session(1, 1)), 2, Disarming, Some(Session(1, 1)))
  {
    h, s := RevertedWhileProbing();
    h, s := Go(false, h, s, Open(Platform));
    h, s := Go(false, h, s, Command(Platform, Accepted));
    h, s := Go(false, h, s, Done(Platform));
  }

  lemma DisarmedAfterRevert() returns (h: History, s: System)
    ensures Leads(OneLine(false), h, BASE, s)
    ensures s.push == Prog(Disarming, 2, Some(Session(1, 1)))
    ensures s.world == Since(60000, REVERTED, 1, Some(FIRST), false).(saved := Some(1))
  {
    h, s := ProbedAfterRevert();
    h, s := Go(false, h, s, Open(Platform));
    h, s := Go(false, h, s, Command(Platform, Accepted));
    h, s := Go(false, h, s, Command(Platform, Accepted));
  }

  /** The timer goes off while the first probe waits for its session: the push is reported confirmed although the
      device has reverted. */
  lemma ConfirmedAfterRevert() returns (h: History, s: System)
    ensures Leads(OneLine(false), h, BASE, s) && s.push.stage == Returned(Confirmed)
    ensures s.world.device.running == ["base"] && !s.world.cancelled
  {
    h, s := DisarmedAfterRevert();
    h, s := Go(false, h, s, Done(Platform));
    h, s := Go(false, h, s, ClearFlags(Platform, true));
  }

  lemma AcceptingRun() returns (h: History, s: System)
    ensures Leads(OneLine(true), h, BASE, s)
    ensures s == Staged(Since(0, COUNTING, 0, None, false), Some(FIRST), 1, Applying, None)
                   .(accept := Prog(Disarming, 0, Some(FIRST)))
  {
    h, s := ArmedRun(true);
    h, s := Go(true, h, s, Accept);
    h, s := Go(true, h, s, Open(Operator));
  }

  lemma AcceptedRun() returns (h: History, s: System)
    ensures Leads(OneLine(true), h, BASE, s)
    ensures s.world == Since(0, BASE, 0, None, true).(saved := Some(0))
    ensures s.push == At(Applying) && s.pool == Some(FIRST)
  {
    h, s := AcceptingRun();
    h, s := Go(true, h, s, Command(Operator, Accepted));
    h, s := Go(true, h, s, Command(Operator, Accepted));
  }

  /** On Cisco an acceptance is possible as soon as the armed flag is set, before the lines are applied: the push
      then returns `armed` with its line live, unsaved, and no timer running. */
  lemma AcceptedBeforeApply() returns (h: History, s: System)
    ensures Leads(OneLine(true), h, BASE, s) && s.push.stage == Returned(Armed)
    ensures s.world.deadline == Some(60000) && s.world.now == 0 && s.world.device.timer.None?
    ensures s.world.device.running == ["base", "new"] && s.world.device.startup == ["base"]
  {
    h, s := AcceptedRun();
    h, s := Go(true, h, s, Open(Platform));
    h, s := Go(true, h, s, Command(Platform, Accepted));
    h, s := Go(true, h, s, Done(Platform));
    h, s := Go(true, h, s, HoldToken(true));
  }
}
