/** `pushConfigWithRevert`, `reachableWithin` and `confirmArmedChange` in their own, sequential form. Every statement
    that touches the device, Redis or the clock is one event of the system; between any two of them the rest of the
    world may take any event of its own, the lines and saves that other operations send to the device included.
    Whatever these programs do is a course of SharedDevice, so what holds of courses holds of their results. */
module CommitConfirmProgram {
  import opened Prelude
  import opened RevertDevice
  import opened CommitConfirm
  import opened CommitConfirmInvariant
  import opened CommitConfirmSafety
  import opened CommitConfirmTimes
  import opened SharedDevice
  import opened SharedDeviceSafety
  import Text
  import TextFacts

  /** The loop of `configure` over the lines it is given: what of them is sent. */
  method SentLines(kind: Kind, lines: seq<string>) returns (sent: seq<string>)
    ensures sent == ConfigLines(kind, lines)
  {
    sent := [];
    for i := 0 to |lines|
      invariant sent == ConfigLines(kind, lines[..i])
    {
      assert lines[..i + 1][..i] == lines[..i];
      sent := sent + SentOf(kind, lines[i]);
    }
    assert lines[..|lines|] == lines;
  }

  /** No line that is sent carries a line break, so none carries a further command. */
  lemma {:induction false} SentLinesAreSingle(kind: Kind, lines: seq<string>)
    ensures forall line :: line in ConfigLines(kind, lines) ==> '\n' !in line && '\r' !in line
  {
    if lines != [] {
      var last := lines[|lines| - 1];
      SentLinesAreSingle(kind, lines[..|lines| - 1]);
      TextFacts.CollapseFree(if kind.Cisco? then last else Text.Trim(last));
    }
  }

  /** The events only program `w` itself takes. */
  predicate IsStepOf(e: Event, w: Who) {
    match e
    case Open(v) => v == w
    case OpenFails(v) => v == w
    case Command(v, _) => v == w
    case Done(v) => v == w
    case ClearFlags(v, _) => v == w
    case Crash(v) => v == w
    case Accept => w.Operator?
    case SetFlag(_) => w.Platform?
    case HoldToken(_) => w.Platform?
    case Check => w.Platform?
    case TryProbe => w.Platform?
    case _ => false
  }

  lemma OthersLeaveProgram(p: Push, s: System, e: Event, w: Who)
    requires Enabled(p, s, e) && !IsStepOf(e, w)
    ensures ProgOf(Step(p, s, e), w) == ProgOf(s, w) && Step(p, s, e).world.now >= s.world.now
  {
  }

  /** A push that has returned stays returned, whatever happens later. */
  lemma ReturnedStays(p: Push, s: System, e: Event)
    requires Enabled(p, s, e) && s.push.stage.Returned? && s.push == At(s.push.stage)
    ensures Step(p, s, e).push == s.push
    ensures !e.Accept? ==> Step(p, s, e).acceptLate == s.acceptLate
  {
  }

  /** The result of a push: an outcome, or the exception it threw. */
  datatype Result = Success(outcome: Outcome) | Failure

  /** How an acceptance ends: refused without a call, with a call that threw, or with the change kept. */
  datatype Acceptance = Refused | CallFailed | Kept

  class Live {
    const p: Push
    ghost const start: Device
    var s: System
    /** The whole course so far, others' commands included. */
    ghost var sh: Shared
    ghost var h: Course

    ghost predicate Valid()
      reads this
    {
      LeadsTo(p, h, start, sh) && sh.sys == s
    }

    constructor (kind: Kind, lines: seq<string>, seconds: nat, manual: bool, token: string, s: System)
      requires seconds > 0 && Init(s)
      ensures Valid() && p == Push(kind, ConfigLines(kind, lines), seconds, manual, token)
      ensures this.s == s && start == s.world.device && Quiet(h)
    {
      var sent := SentLines(kind, lines);
      this.p, this.s, this.start := Push(kind, sent, seconds, manual, token), s, s.world.device;
      this.h, this.sh := Begins(s), Shared(s, [], [], s.world.device.running, []);
    }

    /** The change is kept, whatever others did; and if nobody else sent anything, the device is settled on the final
        configuration. */
    ghost predicate KeptByAll()
      reads this
    {
      && ChangeKept(p, sh)
      && (Quiet(h) ==> Settled(p, s.world.device) && s.world.device.running == FinalConfig(p, start, s.world))
    }

    /** What holds of runs, of this one. */
    ghost method Facts() returns (t: System)
      requires Valid()
      ensures Inv(p, start, t) && Alike(p, s, t) && Leads(p, Alone(h), start, t)
      ensures Quiet(h) ==> t == s
    {
      t := AloneLeads(p, h, start, sh);
      if Quiet(h) {
        QuietIsAlone(p, h);
      }
    }

    /** The push had returned in `before` and the acceptance in flight is still the same one. */
    predicate StillReturned(before: System)
      reads this
    {
      before.push.stage.Returned? && before.push == At(before.push.stage) ==>
        s.push == before.push && s.acceptLate == before.acceptLate
    }

    method Do(e: Event)
      requires Valid() && Enabled(p, s, e)
      modifies this
      ensures Valid() && s == Step(p, old(s), e)
      ensures !e.Accept? ==> StillReturned(old(s))
    {
      if s.push.stage.Returned? && s.push == At(s.push.stage) {
        ReturnedStays(p, s, e);
      }
      h := Goes(h, Own(e));
      sh := OwnStep(p, sh, e);
      s := Step(p, s, e);
    }

    /** Another operation's line, or its save, lands on the device. */
    method OthersSend(line: Option<string>)
      requires Valid() && (line.None? ==> p.kind.Cisco?)
      modifies this
      ensures Valid() && s == OnDevice(old(s), s.world.device)
    {
      var d := s.world.device;
      ghost var e := if line.Some? then OthersLine(line.value) else OthersSave;
      h := Goes(h, e);
      sh := StepShared(p, sh, e);
      s := OnDevice(s, if line.Some? then d.(running := d.running + [line.value]) else d.(startup := d.running));
    }

    /** Any number of events that are not program `w`'s own, and of other operations' commands. */
    method Others(w: Who)
      requires Valid()
      modifies this
      ensures Valid() && ProgOf(s, w) == old(ProgOf(s, w)) && s.world.now >= old(s.world.now)
      ensures w.Operator? ==> StillReturned(old(s))
    {
      var n: nat := *;
      while n > 0
        invariant Valid() && ProgOf(s, w) == old(ProgOf(s, w)) && s.world.now >= old(s.world.now)
        invariant w.Operator? ==> StillReturned(old(s))
      {
        var e: Event := *;
        var line: Option<string> := *;
        var own: bool := *;
        if own {
          if Enabled(p, s, e) && !IsStepOf(e, w) {
            OthersLeaveProgram(p, s, e, w);
            Do(e);
          }
        } else if line.Some? || p.kind.Cisco? {
          OthersSend(line);
        }
        n := n - 1;
      }
    }

    /** The next command of the current call, and how it ends; on a session the device has lost it can only be lost. */
    method SendOne(w: Who) returns (ok: bool)
      requires Valid() && InCall(ProgOf(s, w)) && ProgOf(s, w).session.Some?
      requires ProgOf(s, w).sent < CallLength(p, ProgOf(s, w).stage)
      modifies this
      ensures Valid() && s.world.now >= old(s.world.now)
      ensures !ok ==> ProgOf(s, w) == At(AfterFailure(old(ProgOf(s, w)).stage, w)) && s.pool.None?
      ensures ok ==> ProgOf(s, w) == old(ProgOf(s, w)).(sent := old(ProgOf(s, w)).sent + 1)
      ensures w.Operator? ==> StillReturned(old(s))
    {
      Others(w);
      var ack: Ack := *;
      if ProgOf(s, w).session.value.boot != s.world.device.boots {
        ack := LostBefore;
      }
      Do(Command(w, ack));
      ok := ack.Accepted?;
    }

    /** The commands of the current call go out one by one; the first failure ends it. */
    method SendAll(w: Who) returns (ok: bool)
      requires Valid() && InCall(ProgOf(s, w)) && ProgOf(s, w).sent == 0 && ProgOf(s, w).session.Some?
      modifies this
      ensures Valid() && s.world.now >= old(s.world.now)
      ensures !ok ==> ProgOf(s, w) == At(AfterFailure(old(ProgOf(s, w)).stage, w)) && s.pool.None?
      ensures ok ==> ProgOf(s, w) == old(ProgOf(s, w)).(sent := CallLength(p, old(ProgOf(s, w)).stage))
      ensures w.Operator? ==> StillReturned(old(s))
    {
      ghost var g := ProgOf(s, w);
      var k := 0;
      while k < CallLength(p, ProgOf(s, w).stage)
        invariant Valid() && k <= CallLength(p, g.stage) && s.world.now >= old(s.world.now)
        invariant w.Operator? ==> StillReturned(old(s))
        invariant ProgOf(s, w) == g.(sent := k)
        decreases CallLength(p, g.stage) - k
      {
        ok := SendOne(w);
        if !ok {
          return;
        }
        k := k + 1;
      }
      ok := true;
    }

    method TakeSession(w: Who) returns (ok: bool)
      requires Valid() && InCall(ProgOf(s, w)) && ProgOf(s, w) == At(ProgOf(s, w).stage)
      modifies this
      ensures Valid() && s.world.now >= old(s.world.now)
      ensures !ok ==> ProgOf(s, w) == At(AfterFailure(old(ProgOf(s, w)).stage, w)) && s.pool.None?
      ensures ok ==> ProgOf(s, w).session.Some? && ProgOf(s, w).(session := None) == old(ProgOf(s, w))
      ensures w.Operator? ==> StillReturned(old(s))
    {
      Others(w);
      var connects: bool := *;
      ok := s.pool.Some? || connects;
      Do(if ok then Open(w) else OpenFails(w));
    }

    /** `withDeviceSession`: take or open a session, run the call's commands on it, and let go of it. */
    method Call(w: Who) returns (ok: bool)
      requires Valid() && InCall(ProgOf(s, w)) && ProgOf(s, w) == At(ProgOf(s, w).stage)
      modifies this
      ensures Valid() && s.world.now >= old(s.world.now)
      ensures !ok ==> ProgOf(s, w) == At(AfterFailure(old(ProgOf(s, w)).stage, w)) && s.pool.None?
      ensures ok ==> ProgOf(s, w) == At(AfterCall(p, old(ProgOf(s, w)).stage, s.world.now))
      ensures w.Operator? ==> StillReturned(old(s))
    {
      ok := TakeSession(w);
      if !ok {
        return;
      }
      ok := SendAll(w);
      if ok {
        Others(w);
        Do(Done(w));
      }
    }

    /** `reachableWithin`: probe on fresh sessions, 3 s apart, until one succeeds or the budget is spent. */
    method ReachableWithin() returns (reachable: bool)
      requires Valid() && s.push.stage.Checking? && s.push == At(Checking(s.push.stage.start, 0))
      modifies this
      ensures Valid() && s.push == At(if reachable then Disarming else Returned(Reverting))
    {
      var begun := s.push.stage.start;
      var attempt := 0;
      while true
        invariant Valid() && s.push == At(Checking(begun, attempt))
        decreases if attempt == 0 then 1 else 0, begun + ProbeBudget(p) - s.world.now
      {
        var goes := CheckBudget(begun, attempt);
        if !goes {
          return false;
        }
        var ok := Attempt(begun, attempt);
        if ok {
          return true;
        }
        attempt := attempt + 1;
      }
    }

    /** The loop test, and the pause before every attempt but the first. */
    method CheckBudget(begun: int, attempt: nat) returns (goes: bool)
      requires Valid() && s.push == At(Checking(begun, attempt))
      modifies this
      ensures Valid()
      ensures !goes ==> s.push == At(Returned(Reverting))
      ensures goes ==>
                && s.push.stage.Pausing? && s.push == At(Pausing(begun, attempt, s.push.stage.until))
                && s.world.now >= s.push.stage.until && s.world.now >= old(s.world.now)
                && (attempt > 0 ==> s.world.now >= old(s.world.now) + 3000)
                && old(s.world.now) - begun < ProbeBudget(p)
    {
      Others(Platform);
      Do(Check);
      goes := s.push.stage.Pausing?;
      if goes && s.world.now < s.push.stage.until {
        Do(Wait(s.push.stage.until - s.world.now));
      }
    }

    /** One probe on a fresh session. */
    method Attempt(begun: int, attempt: nat) returns (ok: bool)
      requires Valid() && s.push.stage.Pausing? && s.world.now >= s.push.stage.until
      requires s.push == At(Pausing(begun, attempt, s.push.stage.until))
      modifies this
      ensures Valid() && s.world.now >= old(s.world.now)
      ensures s.push == At(if ok then Disarming else Checking(begun, attempt + 1))
    {
      DropSession(begun, attempt);
      ok := Call(Platform);
    }

    /** `evictDevice`: the probe is to connect anew. */
    method DropSession(begun: int, attempt: nat)
      requires Valid() && s.push.stage.Pausing? && s.world.now >= s.push.stage.until
      requires s.push == At(Pausing(begun, attempt, s.push.stage.until))
      modifies this
      ensures Valid() && s.world.now >= old(s.world.now)
      ensures s.push == At(Probing(begun, attempt)) && s.pool.None?
    {
      Others(Platform);
      Do(TryProbe);
    }

    /** The end of an automatic push: probe, then disarm and save, or leave the device to revert. */
    method ConfirmIfReachable() returns (r: Result)
      requires Valid() && s.push.stage.Checking? && s.push == At(Checking(s.push.stage.start, 0))
      modifies this
      ensures Valid() && s.push == At(if r.Success? then Returned(r.outcome) else Threw)
      ensures r == Success(Confirmed) ==> !p.manual && KeptByAll()
      ensures r.Success? ==> r.outcome == Confirmed || (r.outcome == Reverting && !s.pushDisarms)
    {
      var reachable := ReachableWithin();
      if !reachable {
        ghost var t := Facts();
        return Success(Reverting);
      }
      var ok := Call(Platform);
      if !ok {
        return Failure;
      }
      Others(Platform);
      var cleared: bool := *;
      Do(ClearFlags(Platform, cleared));
      ghost var t := Facts();
      SharedConfirmed(p, h, start, sh);
      if Quiet(h) {
        ConfirmedTruth(p, Alone(h), start, s);
      }
      r := Success(Confirmed);
    }

    /** The armed flag, for the UI and for the acceptance. */
    method StoreFlag()
      requires Valid() && s.push == At(Flagging)
      modifies this
      ensures Valid() && s.push == At(Applying)
    {
      Others(Platform);
      var stored: bool := *;
      Do(SetFlag(stored));
    }

    /** Test mode: the token is stored for the operator, and the timer keeps running. */
    method HoldForOperator()
      requires Valid() && s.push == At(Holding)
      modifies this
      ensures Valid() && s.push == At(Returned(Armed)) && p.manual && s.world.landed == |p.lines| && !s.pushDisarms
    {
      Others(Platform);
      var stored: bool := *;
      Do(HoldToken(stored));
      ghost var t := Facts();
    }

    /** `pushConfigWithRevert`. */
    method PushConfigWithRevert() returns (r: Result)
      requires Valid() && s.push == At(Arming)
      modifies this
      ensures Valid()
      ensures s.push == At(if r.Success? then Returned(r.outcome) else Threw)
      ensures r == Success(Confirmed) ==> !p.manual && KeptByAll()
      ensures r == Success(Armed) ==> p.manual && s.world.landed == |p.lines|
      ensures r == Success(Armed) || r == Success(Reverting) ==> TimerStillRuns(s)
    {
      var ok := Call(Platform);
      if !ok {
        return Failure;
      }
      StoreFlag();
      ok := Call(Platform);
      if !ok {
        StillRuns();
        return Success(Reverting);
      }
      if p.manual {
        HoldForOperator();
        StillRuns();
        return Success(Armed);
      }
      r := ConfirmIfReachable();
      if r == Success(Reverting) {
        StillRuns();
      }
    }

    ghost method StillRuns()
      requires Valid() && (s.push.stage == Returned(Reverting) || s.push.stage == Returned(Armed))
      ensures TimerStillRuns(s)
    {
      UnconfirmedTimerRuns(p, h, start, sh);
    }

    /** The keys an acceptance needs were stored in time and have not been cleared, by the events so far. */
    ghost predicate KeysHeld()
      reads this
    {
      KeysStand(p, Alone(h))
    }

    /** `confirmArmedChange`: refused exactly without the armed key (and, on RouterOS, the token). */
    method ConfirmArmedChange() returns (r: Acceptance)
      requires Valid() && s.accept == At(Idle)
      modifies this
      ensures Valid() && s.accept == At(Idle)
      ensures r.Refused? <==> !old(KeysHeld())
      ensures r.Refused? ==> s.world == old(s.world)
      ensures r.CallFailed? ==> s.pool.None?
      ensures r.Kept? && old(s.push) == At(Returned(Armed)) ==> KeptByAll()
    {
      GrantedIfHeld();
      var granted := AcceptGranted(p, s);
      Do(Accept);
      if !granted {
        return Refused;
      }
      var ok := Call(Operator);
      if !ok {
        return CallFailed;
      }
      FinishAcceptance();
      r := Kept;
    }

    ghost method GrantedIfHeld()
      requires Valid() && s.accept == At(Idle)
      ensures AcceptGranted(p, s) <==> KeysHeld()
    {
      var t := Facts();
      AcceptGoesOnIff(p, Alone(h), start, t);
    }

    /** The change is accepted: what that means, and the flags are cleared. */
    method FinishAcceptance()
      requires Valid() && s.accept == At(Clearing)
      modifies this
      ensures Valid() && s.accept == At(Idle)
      ensures old(s.push) == At(Returned(Armed)) && old(s.acceptLate) ==> KeptByAll()
    {
      Others(Operator);
      if s.acceptLate && s.push.stage == Returned(Armed) {
        AcceptedKept();
      }
      ClearAccepted();
    }

    ghost method AcceptedKept()
      requires Valid() && s.accept == At(Clearing) && s.acceptLate && s.push.stage == Returned(Armed)
      ensures KeptByAll()
    {
      SharedAccepted(p, h, start, sh);
      if Quiet(h) {
        QuietIsAlone(p, h);
        AcceptTruth(p, Alone(h), start, s);
      }
    }

    method ClearAccepted()
      requires Valid() && s.accept == At(Clearing)
      modifies this
      ensures Valid() && s.accept == At(Idle)
      ensures old(KeptByAll()) ==> KeptByAll()
    {
      var cleared: bool := *;
      var e := ClearFlags(Operator, cleared);
      h := Goes(h, Own(e));
      sh := OwnStep(p, sh, e);
      s := Step(p, s, e);
    }
  }
}
