/** A push on a device that others configure too. Nothing keeps another operation (a port change, a logging level) from
    sending lines and a save on the same device while a revert timer runs. Whatever they send, the programs of
    CommitConfirm take the same steps as without them; what changes is what the device holds. */
module SharedDevice {
  import opened Prelude
  import opened RevertDevice
  import opened CommitConfirm
  import opened CommitConfirmInvariant
  import opened CommitConfirmSafety

  /** A line that landed, by the push or by somebody else. */
  datatype Entry = Entry(own: bool, text: string)

  /** The system, and what has happened to the device's configuration: the rollback point as it was when the timer was
      set (on RouterOS, when the snapshot was taken), what others saved while the timer ran, the configuration the
      device came up with, and the lines that landed since. */
  datatype Shared = Shared(sys: System, point: Config, saves: seq<Config>, base: Config, since: seq<Entry>)

  datatype Happening = Own(event: Event) | OthersLine(text: string) | OthersSave

  /** RouterOS persists by itself: there is no save to send. */
  predicate Possible(p: Push, s: Shared, e: Happening) {
    match e
    case Own(own) => Enabled(p, s.sys, own)
    case OthersLine(_) => true
    case OthersSave => p.kind.Cisco?
  }

  function OnDevice(s: System, d: Device): System {
    s.(world := s.world.(device := d))
  }

  /** The command that takes effect with an event. */
  function Landing(p: Push, s: System, e: Event): Option<Cmd>
    requires Enabled(p, s, e)
  {
    if e.Command? && (e.ack.Accepted? || e.ack.LostAfter?)
    then Some(CallCommand(p, ProgOf(s, e.who).stage, ProgOf(s, e.who).sent)) else None
  }

  function OwnStep(p: Push, s: Shared, e: Event): Shared
    requires Enabled(p, s.sys, e)
  {
    var t, was, c := Step(p, s.sys, e), s.sys.world.device, Landing(p, s.sys, e);
    var now := t.world.device;
    var arms := was.timer.None? && now.timer.Some?;
    Shared(t,
           if c.Some? && c.value.SaveBackup? then was.running
           else if arms && p.kind.Cisco? then was.startup
           else s.point,
           if arms then [] else s.saves,
           if now.boots != was.boots then now.running else s.base,
           if now.boots != was.boots then []
           else if c.Some? && c.value.Line? then s.since + [Entry(true, c.value.text)]
           else s.since)
  }

  function StepShared(p: Push, s: Shared, e: Happening): Shared
    requires Possible(p, s, e)
  {
    var d := s.sys.world.device;
    match e
    case Own(own) => OwnStep(p, s, own)
    case OthersLine(text) =>
      s.(sys := OnDevice(s.sys, d.(running := d.running + [text])), since := s.since + [Entry(false, text)])
    case OthersSave =>
      s.(sys := OnDevice(s.sys, d.(startup := d.running)),
         saves := if d.timer.Some? then s.saves + [d.running] else s.saves)
  }

  datatype Course = Begins(first: System) | Goes(before: Course, event: Happening)

  ghost predicate ValidCourse(p: Push, h: Course)
    decreases h, 0
  {
    match h
    case Begins(s) => Init(s)
    case Goes(b, e) => ValidCourse(p, b) && Possible(p, EndOf(p, b), e)
  }

  ghost function EndOf(p: Push, h: Course): Shared
    requires ValidCourse(p, h)
    decreases h, 1
  {
    match h
    case Begins(s) => Shared(s, [], [], s.world.device.running, [])
    case Goes(b, e) => StepShared(p, EndOf(p, b), e)
  }

  function FirstDevice(h: Course): Device {
    match h
    case Begins(s) => s.world.device
    case Goes(b, _) => FirstDevice(b)
  }

  /** `h` is a course of push `p` that found the device in state `start` and has led to `s`. */
  ghost predicate LeadsTo(p: Push, h: Course, start: Device, s: Shared) {
    p.seconds > 0 && ValidCourse(p, h) && FirstDevice(h) == start && EndOf(p, h) == s
  }

  // ---------------------------------------------------------------- the programs do not notice

  predicate PromptAlike(a: Prompt, b: Prompt) {
    (a.NoPrompt? <==> b.NoPrompt?) && (!a.NoPrompt? ==> a.minutes == b.minutes)
  }

  /** The same but for what the configurations hold. */
  predicate DeviceAlike(d: Device, e: Device) {
    d.timer == e.timer && d.boots == e.boots && d.files.Keys == e.files.Keys && PromptAlike(d.prompt, e.prompt)
  }

  predicate Alike(p: Push, s: System, t: System) {
    && OnDevice(s, t.world.device) == t
    && DeviceAlike(s.world.device, t.world.device)
    && (p.kind.Cisco? && s.push.stage.Arming? && s.push.sent == 2 ==> s.world.device.prompt == t.world.device.prompt)
  }

  lemma WaitAlike(p: Push, s: System, t: System, ms: nat)
    requires Alike(p, s, t)
    ensures Alike(p, Step(p, s, Wait(ms)), Step(p, t, Wait(ms)))
  {
  }

  lemma PerformAlike(d: Device, e: Device, c: Cmd, now: int)
    requires DeviceAlike(d, e) && (c.Proceed? ==> d.prompt == e.prompt)
    ensures DeviceAlike(Perform(d, c, now), Perform(e, c, now))
    ensures c.AnswerSave? && e.prompt != NoPrompt ==> Perform(d, c, now).prompt == Perform(e, c, now).prompt
  {
  }

  lemma CommandAlike(p: Push, start: Device, s: System, t: System, w: Who, ack: Ack)
    requires Alike(p, s, t) && Inv(p, start, t) && Enabled(p, s, Command(w, ack))
    ensures Enabled(p, t, Command(w, ack)) && Alike(p, Step(p, s, Command(w, ack)), Step(p, t, Command(w, ack)))
  {
    if w.Platform? {
      PushCommandAlike(p, start, s, t, ack);
    } else {
      AcceptCommandAlike(p, start, s, t, ack);
    }
  }

  lemma PushCommandAlike(p: Push, start: Device, s: System, t: System, ack: Ack)
    requires Alike(p, s, t) && Inv(p, start, t) && Enabled(p, s, Command(Platform, ack))
    ensures Enabled(p, t, Command(Platform, ack))
    ensures Alike(p, Step(p, s, Command(Platform, ack)), Step(p, t, Command(Platform, ack)))
  {
    PerformAlike(s.world.device, t.world.device, CallCommand(p, s.push.stage, s.push.sent), s.world.now);
  }

  lemma AcceptCommandAlike(p: Push, start: Device, s: System, t: System, ack: Ack)
    requires Alike(p, s, t) && Inv(p, start, t) && Enabled(p, s, Command(Operator, ack))
    ensures Enabled(p, t, Command(Operator, ack))
    ensures Alike(p, Step(p, s, Command(Operator, ack)), Step(p, t, Command(Operator, ack)))
  {
    PerformAlike(s.world.device, t.world.device, CallCommand(p, s.accept.stage, s.accept.sent), s.world.now);
  }

  lemma SessionAlike(p: Push, start: Device, s: System, t: System, e: Event)
    requires Alike(p, s, t) && Inv(p, start, t) && Enabled(p, s, e) && (e.Open? || e.OpenFails? || e.Done?)
    ensures Enabled(p, t, e) && Alike(p, Step(p, s, e), Step(p, t, e))
  {
    match e
    case Open(w) => OpenAlike(p, s, t, w);
    case OpenFails(w) => OpenFailsAlike(p, s, t, w);
    case Done(w) => DoneAlike(p, s, t, w);
  }

  lemma OpenAlike(p: Push, s: System, t: System, w: Who)
    requires Alike(p, s, t) && Enabled(p, s, Open(w))
    ensures Enabled(p, t, Open(w)) && Alike(p, Step(p, s, Open(w)), Step(p, t, Open(w)))
  {
  }

  lemma OpenFailsAlike(p: Push, s: System, t: System, w: Who)
    requires Alike(p, s, t) && Enabled(p, s, OpenFails(w))
    ensures Enabled(p, t, OpenFails(w)) && Alike(p, Step(p, s, OpenFails(w)), Step(p, t, OpenFails(w)))
  {
  }

  lemma DoneAlike(p: Push, s: System, t: System, w: Who)
    requires Alike(p, s, t) && Enabled(p, s, Done(w))
    ensures Enabled(p, t, Done(w)) && Alike(p, Step(p, s, Done(w)), Step(p, t, Done(w)))
  {
  }

  /** The events that touch neither the device nor its clock. */
  predicate OffDevice(e: Event) {
    !e.Wait? && !e.Command? && !e.Open? && !e.OpenFails? && !e.Done?
  }

  lemma OffDeviceAlike(p: Push, s: System, t: System, e: Event)
    requires Alike(p, s, t) && Enabled(p, s, e) && OffDevice(e)
    ensures Enabled(p, t, e) && Alike(p, Step(p, s, e), Step(p, t, e))
  {
    if OnFlags(e) {
      OnFlagsAlike(p, s, t, e);
    } else {
      OffFlagsAlike(p, s, t, e);
    }
  }

  predicate OnFlags(e: Event) {
    e.SetFlag? || e.HoldToken? || e.ClearFlags? || e.Accept?
  }

  lemma OnFlagsAlike(p: Push, s: System, t: System, e: Event)
    requires Alike(p, s, t) && Enabled(p, s, e) && OnFlags(e)
    ensures Enabled(p, t, e) && Alike(p, Step(p, s, e), Step(p, t, e))
  {
  }

  lemma OffFlagsAlike(p: Push, s: System, t: System, e: Event)
    requires Alike(p, s, t) && Enabled(p, s, e) && OffDevice(e) && !OnFlags(e)
    ensures Enabled(p, t, e) && Alike(p, Step(p, s, e), Step(p, t, e))
  {
  }

  lemma StepAlike(p: Push, start: Device, s: System, t: System, e: Event)
    requires Alike(p, s, t) && Inv(p, start, t) && Enabled(p, s, e)
    ensures Enabled(p, t, e) && Alike(p, Step(p, s, e), Step(p, t, e))
  {
    if OffDevice(e) {
      OffDeviceAlike(p, s, t, e);
    } else if e.Wait? {
      WaitAlike(p, s, t, e.ms);
    } else if e.Command? {
      CommandAlike(p, start, s, t, e.who, e.ack);
    } else {
      SessionAlike(p, start, s, t, e);
    }
  }

  lemma OthersAlike(p: Push, s: Shared, t: System, e: Happening)
    requires Alike(p, s.sys, t) && Possible(p, s, e) && !e.Own?
    ensures Alike(p, StepShared(p, s, e).sys, t)
  {
  }

  /** What the programs did, without the others. */
  function Alone(h: Course): History {
    match h
    case Begins(s) => Begin(s)
    case Goes(b, e) => if e.Own? then After(Alone(b), e.event) else Alone(b)
  }

  /** Every course is, for the programs, a run of CommitConfirm. */
  lemma {:induction false} AloneLeads(p: Push, h: Course, start: Device, s: Shared) returns (t: System)
    requires LeadsTo(p, h, start, s)
    ensures Leads(p, Alone(h), start, t) && Inv(p, start, t) && Alike(p, s.sys, t)
  {
    if h.Begins? {
      t := h.first;
      InitInv(p, t);
    } else {
      var b, e := h.before, h.event;
      t := AloneLeads(p, b, start, EndOf(p, b));
      if e.Own? {
        t := OwnAlike(p, start, Alone(b), EndOf(p, b).sys, t, e.event);
      } else {
        OthersAlike(p, EndOf(p, b), t, e);
      }
    }
  }

  lemma OwnAlike(p: Push, start: Device, h: History, s: System, t: System, e: Event) returns (u: System)
    requires Leads(p, h, start, t) && Inv(p, start, t) && Alike(p, s, t) && Enabled(p, s, e)
    ensures Leads(p, After(h, e), start, u) && Inv(p, start, u) && Alike(p, Step(p, s, e), u)
  {
    StepAlike(p, start, s, t, e);
    StepInv(p, start, t, e);
    u := Step(p, t, e);
  }

  /** Nobody else sends anything. */
  predicate Quiet(h: Course) {
    h.Goes? ==> Quiet(h.before) && h.event.Own?
  }

  lemma {:induction false} QuietIsAlone(p: Push, h: Course)
    requires ValidCourse(p, h) && Quiet(h)
    ensures Valid(p, Alone(h)) && End(p, Alone(h)) == EndOf(p, h).sys && StartOf(Alone(h)) == FirstDevice(h)
  {
    if h.Goes? {
      QuietIsAlone(p, h.before);
    }
  }
}
