/** Commit-confirm: the platform arms a revert timer on the device, applies a change line by line, probes the device and
    only then disarms the timer. A push (`pushConfigWithRevert`), an operator's acceptance (`confirmArmedChange`) and
    the device's clock are interleaved event by event; every command may be rejected or lose its session before or after
    it took effect, and either program may crash. Nobody else configures the device here: SharedDevice adds that. */
module CommitConfirm {
  import opened Prelude
  import opened RevertDevice
  import Text

  // ---------------------------------------------------------------- the push

  /** One push: `lines` are the lines `configure` sends (see `ConfigLines`). */
  datatype Push = Push(kind: Kind, lines: seq<string>, seconds: nat, manual: bool, token: string)

  /** `Math.max(1, Math.ceil(seconds / 60))`. */
  function RevertMinutes(seconds: nat): nat {
    var up := (seconds + 59) / 60;
    if up < 1 then 1 else up
  }

  /** What `configure` sends of one line: a blank or comment line is skipped, line breaks never reach the device. */
  function SentOf(kind: Kind, line: string): seq<string> {
    var t := Text.Trim(line);
    if t == "" || t[0] == (if kind.Cisco? then '!' else '#') then []
    else [Text.CollapseBreaks(if kind.Cisco? then line else t)]
  }

  function ConfigLines(kind: Kind, lines: seq<string>): seq<string> {
    if lines == [] then [] else ConfigLines(kind, lines[..|lines| - 1]) + SentOf(kind, lines[|lines| - 1])
  }

  /** The probe budget: `Math.max((seconds - 10) * 1000, 10_000)` milliseconds. */
  function ProbeBudget(p: Push): int {
    if p.seconds < 20 then 10000 else (p.seconds - 10) * 1000
  }

  // ---------------------------------------------------------------- the system

  datatype Outcome = Confirmed | Reverting | Armed

  datatype Session = Session(serial: nat, boot: nat)

  datatype Stage =
    | Idle
    | Arming | Flagging | Applying | Holding
    | Checking(start: int, attempt: nat)
    | Pausing(start: int, attempt: nat, until: int)
    | Probing(start: int, attempt: nat)
    | Disarming | Clearing
    | Returned(outcome: Outcome) | Threw | Crashed

  /** A program in flight: where it stands, how many commands of its current call are through, its session. */
  datatype Prog = Prog(stage: Stage, sent: nat, session: Option<Session>)

  datatype Who = Platform | Operator

  /** The device with its clock, and what has happened to it: when the arm took effect and the deadline it set,
      how many of the push's lines landed and on which session, whether a disarm landed on a running timer, and how
      many lines had landed when the configuration was last saved. */
  datatype World = World(
    now: int, device: Device, armTime: int, deadline: Option<int>,
    landed: nat, applySession: Option<Session>, cancelled: bool, saved: Option<nat>)

  /** `pool` is the pooled session of the device, `armedFlag` and `tokenFlag` the expiry times of the two Redis
      keys.  The last fields are history: the session of the successful probe, who has sent a disarm, and
      whether the acceptance in flight began after the push had returned. */
  datatype System = System(
    world: World, pool: Option<Session>, serials: nat, armedFlag: Option<int>, tokenFlag: Option<int>,
    push: Prog, accept: Prog,
    probeSession: Option<Session>, pushDisarms: bool, acceptDisarms: bool, acceptLate: bool)

  /** How a command ends for its sender. */
  datatype Ack = Accepted | Rejected | LostBefore | LostAfter

  datatype Event =
    | Wait(ms: nat)
    | Evict | OthersOpen
    | Open(who: Who) | OpenFails(who: Who)
    | Command(who: Who, ack: Ack)
    | Done(who: Who)
    | SetFlag(ok: bool) | HoldToken(ok: bool)
    | Check | TryProbe
    | ClearFlags(who: Who, ok: bool)
    | Accept
    | Crash(who: Who)

  function ProgOf(s: System, w: Who): Prog {
    if w.Platform? then s.push else s.accept
  }

  function WithProg(s: System, w: Who, g: Prog): System {
    if w.Platform? then s.(push := g) else s.(accept := g)
  }

  function At(stage: Stage): Prog {
    Prog(stage, 0, None)
  }

  predicate InCall(g: Prog) {
    g.stage.Arming? || g.stage.Applying? || g.stage.Probing? || g.stage.Disarming?
  }

  /** The number of commands in the call made at a stage. */
  function CallLength(p: Push, g: Stage): nat {
    match g
    case Arming => 3
    case Applying => |p.lines|
    case Disarming => 2
    case _ => 1
  }

  function ArmCommand(p: Push, k: nat): Cmd {
    if p.kind.Cisco? then
      if k == 0 then ReloadIn(RevertMinutes(p.seconds)) else if k == 1 then AnswerSave(false) else Proceed
    else
      if k == 0 then SweepSnapshots else if k == 1 then SaveBackup(p.token) else AddScheduler(p.token, p.seconds)
  }

  function DisarmCommand(p: Push, k: nat): Cmd {
    if p.kind.Cisco? then if k == 0 then ReloadCancel else WriteMemory
    else if k == 0 then RemoveScheduler(p.token) else RemoveBackup(p.token)
  }

  /** The `k`-th command of the call made at a stage. */
  function CallCommand(p: Push, g: Stage, k: nat): Cmd
    requires k < CallLength(p, g)
  {
    match g
    case Arming => ArmCommand(p, k)
    case Applying => Line(p.lines[k])
    case Disarming => DisarmCommand(p, k)
    case _ => ShowProbe
  }

  predicate Enabled(p: Push, s: System, e: Event) {
    match e
    case Wait(_) => true
    case Evict => true
    case OthersOpen => s.pool.None?
    case Open(w) => InCall(ProgOf(s, w)) && ProgOf(s, w).session.None?
    case OpenFails(w) => InCall(ProgOf(s, w)) && ProgOf(s, w).session.None? && s.pool.None?
    case Command(w, ack) =>
      var g := ProgOf(s, w);
      InCall(g) && g.session.Some? && g.sent < CallLength(p, g.stage)
      && (g.session.value.boot == s.world.device.boots || ack.LostBefore?)
    case Done(w) =>
      var g := ProgOf(s, w);
      InCall(g) && g.session.Some? && g.sent == CallLength(p, g.stage)
    case SetFlag(_) => s.push.stage.Flagging?
    case HoldToken(_) => s.push.stage.Holding?
    case Check => s.push.stage.Checking?
    case TryProbe => s.push.stage.Pausing? && s.world.now >= s.push.stage.until
    case ClearFlags(w, _) => ProgOf(s, w).stage.Clearing?
    case Accept => s.accept.stage.Idle?
    case Crash(w) => !ProgOf(s, w).stage.Returned? && !ProgOf(s, w).stage.Threw?
  }

  /** Time passes; a timer that came due meanwhile has gone off. */
  function StepWait(p: Push, w: World, ms: nat): World {
    var due := w.device.timer.Some? && w.device.timer.value.deadline <= w.now + ms;
    w.(now := w.now + ms, device := if due then Fire(p.kind, w.device) else w.device)
  }

  /** A command takes effect, with the history it leaves. */
  function Land(w: World, c: Cmd): World {
    var d := Perform(w.device, c, w.now);
    var arms := w.device.timer.None? && d.timer.Some?;
    w.(device := d,
       armTime := if arms then w.now else w.armTime,
       deadline := if arms then Some(d.timer.value.deadline) else w.deadline,
       landed := if c.Line? then w.landed + 1 else w.landed,
       cancelled := w.cancelled || (w.device.timer.Some? && d.timer.None?),
       saved := if c.WriteMemory? then Some(w.landed) else w.saved)
  }

  /** A call takes the pooled session if there is one and otherwise connects. */
  function StepOpen(s: System, w: Who): System {
    var session := if s.pool.Some? then s.pool.value else Session(s.serials, s.world.device.boots);
    var s1 := s.(pool := Some(session), serials := if s.pool.Some? then s.serials else s.serials + 1);
    if w.Operator? then s1.(accept := s.accept.(session := Some(session)))
    else s1.(push := s.push.(session := Some(session)),
             world := if s.push.stage.Applying? then s.world.(applySession := Some(session)) else s.world)
  }

  /** Where the error handler of a failed call leaves a program. */
  function AfterFailure(g: Stage, w: Who): Stage {
    if w.Operator? then Idle
    else
      match g
      case Applying => Returned(Reverting)
      case Probing(start, attempt) => Checking(start, attempt + 1)
      case _ => Threw
  }

  /** A failed call: the pool evicts, and the program's error handler runs. */
  function StepFail(s: System, w: Who): System {
    WithProg(s, w, At(AfterFailure(ProgOf(s, w).stage, w))).(pool := None)
  }

  function StepCommand(p: Push, s: System, w: Who, ack: Ack): System
    requires ProgOf(s, w).sent < CallLength(p, ProgOf(s, w).stage)
  {
    var g := ProgOf(s, w);
    var lands := ack.Accepted? || ack.LostAfter?;
    var s1 := s.(world := if lands then Land(s.world, CallCommand(p, g.stage, g.sent)) else s.world,
                 pushDisarms := s.pushDisarms || (w.Platform? && g.stage.Disarming?),
                 acceptDisarms := s.acceptDisarms || (w.Operator? && g.stage.Disarming?));
    if ack.Accepted? then WithProg(s1, w, g.(sent := g.sent + 1)) else StepFail(s1, w)
  }

  function AfterCall(p: Push, g: Stage, now: int): Stage {
    match g
    case Arming => Flagging
    case Applying => if p.manual then Holding else Checking(now, 0)
    case Probing(_, _) => Disarming
    case _ => Clearing
  }

  function StepDone(p: Push, s: System, w: Who): System {
    var g := ProgOf(s, w);
    WithProg(s, w, At(AfterCall(p, g.stage, s.world.now)))
      .(probeSession := if g.stage.Probing? then g.session else s.probeSession)
  }

  /** The loop head of `reachableWithin`: another attempt (after 3 s, but for the first) or give up. */
  function AfterCheck(p: Push, g: Stage, now: int): Stage
    requires g.Checking?
  {
    if now - g.start < ProbeBudget(p)
    then Pausing(g.start, g.attempt, now + if g.attempt > 0 then 3000 else 0)
    else Returned(Reverting)
  }

  predicate Present(flag: Option<int>, now: int) {
    flag.Some? && now < flag.value
  }

  /** `confirmArmedChange` goes ahead with the armed flag present; RouterOS also needs the stored token. */
  predicate AcceptGranted(p: Push, s: System) {
    Present(s.armedFlag, s.world.now) && (p.kind.RouterOs? ==> Present(s.tokenFlag, s.world.now))
  }

  /** Refused without the armed flag before any call, and without the token inside the call, which evicts. */
  function StepAccept(p: Push, s: System): System {
    if AcceptGranted(p, s) then s.(accept := At(Disarming), acceptLate := s.push.stage.Returned?)
    else if Present(s.armedFlag, s.world.now) then s.(pool := None)
    else s
  }

  function StepClear(s: System, w: Who, ok: bool): System {
    WithProg(s, w, At(if w.Platform? then Returned(Confirmed) else Idle))
      .(armedFlag := if ok then None else s.armedFlag,
        tokenFlag := if ok && w.Operator? then None else s.tokenFlag)
  }

  function Step(p: Push, s: System, e: Event): System
    requires Enabled(p, s, e)
  {
    match e
    case Wait(ms) => s.(world := StepWait(p, s.world, ms))
    case Evict => s.(pool := None)
    case OthersOpen => s.(pool := Some(Session(s.serials, s.world.device.boots)), serials := s.serials + 1)
    case Open(w) => StepOpen(s, w)
    case OpenFails(w) => StepFail(s, w)
    case Command(w, ack) => StepCommand(p, s, w, ack)
    case Done(w) => StepDone(p, s, w)
    case SetFlag(ok) =>
      s.(armedFlag := if ok then Some(s.world.now + p.seconds * 1000) else s.armedFlag, push := At(Applying))
    case HoldToken(ok) =>
      s.(tokenFlag := if ok then Some(s.world.now + p.seconds * 1000) else s.tokenFlag, push := At(Returned(Armed)))
    case Check => s.(push := At(AfterCheck(p, s.push.stage, s.world.now)))
    case TryProbe => s.(pool := None, push := At(Probing(s.push.stage.start, s.push.stage.attempt)))
    case ClearFlags(w, ok) => StepClear(s, w, ok)
    case Accept => StepAccept(p, s)
    case Crash(w) => WithProg(s, w, At(if w.Platform? then Crashed else Idle))
  }

  /** Before the push: no timer, no flags, any files, any saved or unsaved configuration, any pooled session. */
  predicate Init(s: System) {
    && s.world.device.timer.None? && s.world.device.boots == 0
    && s.world.deadline.None? && s.world.landed == 0 && s.world.applySession.None? && !s.world.cancelled
    && s.world.saved.None?
    && (s.pool.Some? ==> s.pool.value.serial < s.serials && s.pool.value.boot == 0)
    && s.armedFlag.None? && s.tokenFlag.None?
    && s.push == At(Arming) && s.accept == At(Idle)
    && s.probeSession.None? && !s.pushDisarms && !s.acceptDisarms && !s.acceptLate
  }

  /** A run: the events so far, last one outermost, from the state they began in. */
  datatype History = Begin(first: System) | After(before: History, event: Event)

  /** The run begins before a push and every event was possible where it happened; `End` is where it leads. */
  predicate Valid(p: Push, h: History)
    decreases h, 0
  {
    match h
    case Begin(s) => Init(s)
    case After(b, e) => Valid(p, b) && Enabled(p, End(p, b), e)
  }

  function End(p: Push, h: History): System
    requires Valid(p, h)
    decreases h, 1
  {
    match h
    case Begin(s) => s
    case After(b, e) => Step(p, End(p, b), e)
  }

  /** The device as the push found it. */
  function StartOf(h: History): Device {
    match h
    case Begin(s) => s.world.device
    case After(b, _) => StartOf(b)
  }
}
