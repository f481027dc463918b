/** A device with a revert timer, as the commit-confirm commands see it: `reload in N`, its prompts and
    `reload cancel` on Cisco IOS; a backup file and a scheduler entry on RouterOS. */
module RevertDevice {
  import opened Prelude

  datatype Kind = Cisco | RouterOs

  /** A configuration is the list of lines applied to it. */
  type Config = seq<string>

  /** A scheduled revert: `reload in N` on Cisco, a scheduler entry named by its token on RouterOS. */
  datatype Timer = Timer(deadline: int, period: nat, token: string)

  datatype Prompt = NoPrompt | AskSave(minutes: nat) | AskProceed(minutes: nat)

  datatype Device = Device(
    running: Config, startup: Config, files: map<string, Config>,
    timer: Option<Timer>, prompt: Prompt, boots: nat)

  datatype Cmd =
    | ReloadIn(minutes: nat) | AnswerSave(yes: bool) | Proceed
    | SweepSnapshots | SaveBackup(token: string) | AddScheduler(token: string, seconds: nat)
    | Line(text: string)
    | ShowProbe
    | ReloadCancel | WriteMemory
    | RemoveScheduler(token: string) | RemoveBackup(token: string)

  /** RouterOS `name~"part"`: the name contains the part. */
  predicate Contains(name: string, part: string) {
    part <= name || (name != "" && Contains(name[1..], part))
  }

  function WithoutFiles(files: map<string, Config>, part: string): map<string, Config> {
    map n | n in files && !Contains(n, part) :: files[n]
  }

  /** What one command does to the device when it takes effect at time `now` (milliseconds). */
  function Perform(d: Device, c: Cmd, now: int): Device {
    match c
    case ReloadIn(m) => d.(prompt := if d.running != d.startup then AskSave(m) else AskProceed(m))
    case AnswerSave(yes) =>
      if !d.prompt.AskSave? then d
      else d.(prompt := AskProceed(d.prompt.minutes), startup := if yes then d.running else d.startup)
    case Proceed =>
      if !d.prompt.AskProceed? then d
      else d.(prompt := NoPrompt, timer := Some(Timer(now + d.prompt.minutes * 60000, 0, "")))
    case SweepSnapshots => d.(files := WithoutFiles(d.files, "spcc"))
    case SaveBackup(t) => d.(files := d.files[t := d.running])
    case AddScheduler(t, s) => d.(timer := Some(Timer(now + s * 1000, s * 1000, t)))
    case Line(text) => d.(running := d.running + [text])
    case ShowProbe => d
    case ReloadCancel => d.(timer := None)
    case WriteMemory => d.(startup := d.running)
    case RemoveScheduler(t) => if d.timer.Some? && d.timer.value.token == t then d.(timer := None) else d
    case RemoveBackup(t) => d.(files := WithoutFiles(d.files, t))
  }

  /** The timer goes off.  Cisco reloads into startup-config.  RouterOS loads the backup (which predates the
      scheduler, so the scheduler is gone too); a missing file makes the load fail silently and the
      scheduler run again one period later. */
  function Fire(kind: Kind, d: Device): Device
    requires d.timer.Some?
  {
    if kind.Cisco? then
      d.(running := d.startup, timer := None, prompt := NoPrompt, boots := d.boots + 1)
    else if d.timer.value.token in d.files then
      d.(running := d.files[d.timer.value.token], timer := None, prompt := NoPrompt, boots := d.boots + 1)
    else
      d.(timer := Some(d.timer.value.(deadline := d.timer.value.deadline + d.timer.value.period)))
  }
}
