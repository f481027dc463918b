/** Writing a port's configuration on a Cisco switch: the lines the driver sends and the interface block they leave. */
module CiscoPort {
  import opened Prelude
  import opened Text
  import opened TextFacts

  datatype Mode = AccessMode | TrunkMode

  /** The fields of `PortConfigOpts`. */
  datatype Intent = Intent(description: Option<string>, mode: Option<Mode>, vlan: Option<nat>,
                           trunkNativeVlan: Option<nat>, trunkAllowedVlans: Option<string>, voiceVlan: Option<nat>,
                           speed: Option<string>, duplex: Option<string>, portfast: Option<bool>,
                           bpduGuard: Option<bool>, poeEnabled: Option<bool>)

  datatype Line =
    | Interface
    | Description(text: string)
    | NoDescription
    | SwitchportMode(mode: Mode)
    | AccessVlan(vlan: nat)
    | NativeVlan(vlan: nat)
    | AllowedVlans(list: string)
    | VoiceVlan(vlan: nat)
    | Setting(key: string, value: string)

  /** An interface block as running-config shows it, a missing line being None: the default VLAN 1 is not shown. */
  datatype Block = Block(description: Option<string>, mode: Option<Mode>, accessVlan: Option<nat>,
                         nativeVlan: Option<nat>, allowedVlans: Option<string>, voiceVlan: Option<nat>,
                         settings: map<string, string>)

  function Shown(vlan: nat): Option<nat> {
    if vlan == 1 then None else Some(vlan)
  }

  /** A later line of the same kind replaces an earlier one. */
  function Apply(b: Block, line: Line): Block {
    match line
    case Interface => b
    case Description(text) => b.(description := Some(text))
    case NoDescription => b.(description := None)
    case SwitchportMode(m) => b.(mode := Some(m))
    case AccessVlan(v) => b.(accessVlan := Shown(v))
    case NativeVlan(v) => b.(nativeVlan := Shown(v))
    case AllowedVlans(list) => b.(allowedVlans := Some(list))
    case VoiceVlan(v) => b.(voiceVlan := Some(v))
    case Setting(key, value) => b.(settings := b.settings[key := value])
  }

  function ApplyAll(b: Block, lines: seq<Line>): Block {
    if lines == [] then b else Apply(ApplyAll(b, lines[..|lines| - 1]), lines[|lines| - 1])
  }

  // ---------------------------------------------------------------- writing

  predicate Given(v: Option<nat>) {
    v.Some? && v.value != 0
  }

  predicate NonEmpty(s: Option<string>) {
    s.Some? && s.value != ""
  }

  /** What is sent of a description: line breaks become spaces so that it cannot carry further commands. */
  function Sent(description: string): string {
    Trim(CollapseBreaks(description))
  }

  predicate WritesAccessVlan(o: Intent) {
    o.mode != Some(TrunkMode) && Given(o.vlan)
  }

  predicate WritesNativeVlan(o: Intent) {
    o.mode == Some(TrunkMode) && Given(o.trunkNativeVlan)
  }

  function DescriptionAfter(was: Option<string>, o: Intent): Option<string> {
    if o.description.None? then was
    else if Sent(o.description.value) == "" then None
    else Some(Sent(o.description.value))
  }

  /** What the intent makes of a block. */
  function Configured(b: Block, o: Intent): Block {
    Block(
      DescriptionAfter(b.description, o),
      if o.mode.Some? then o.mode else b.mode,
      if WritesAccessVlan(o) then Shown(o.vlan.value) else b.accessVlan,
      if WritesNativeVlan(o) then Shown(o.trunkNativeVlan.value) else b.nativeVlan,
      if o.mode == Some(TrunkMode) && NonEmpty(o.trunkAllowedVlans) then o.trunkAllowedVlans else b.allowedVlans,
      if o.voiceVlan.Some? then o.voiceVlan else b.voiceVlan,
      PowerSettings(EdgeSettings(SpeedSettings(b.settings, o), o), o))
  }

  function SpeedSettings(s: map<string, string>, o: Intent): map<string, string> {
    var s1 := if NonEmpty(o.speed) then s["speed" := o.speed.value] else s;
    if NonEmpty(o.duplex) then s1["duplex" := o.duplex.value] else s1
  }

  function EdgeSettings(s: map<string, string>, o: Intent): map<string, string> {
    var s1 := if o.portfast.Some? then s["spanning-tree portfast" := if o.portfast.value then "on" else "no"] else s;
    if o.bpduGuard.Some? then s1["spanning-tree bpduguard" := if o.bpduGuard.value then "enable" else "disable"] else s1
  }

  function PowerSettings(s: map<string, string>, o: Intent): map<string, string> {
    if o.poeEnabled.Some? then s["power inline" := if o.poeEnabled.value then "auto" else "never"] else s
  }

  /** The settings that no field of a block shows, key by key: what is asked for is set, in the words of the platform,
      and every other key stays. */
  lemma SettingsAfter(b: Block, o: Intent, key: string)
    ensures var was, now := b.settings, Configured(b, o).settings;
            var asked :=
              if key == "speed" then (if o.speed != Some("") then o.speed else None)
              else if key == "duplex" then (if o.duplex != Some("") then o.duplex else None)
              else if key == "spanning-tree portfast" then
                (if o.portfast.Some? then Some(if o.portfast.value then "on" else "no") else None)
              else if key == "spanning-tree bpduguard" then
                (if o.bpduGuard.Some? then Some(if o.bpduGuard.value then "enable" else "disable") else None)
              else if key == "power inline" then
                (if o.poeEnabled.Some? then Some(if o.poeEnabled.value then "auto" else "never") else None)
              else None;
            if asked.Some? then key in now && now[key] == asked.value
            else (key in now <==> key in was) && (key in was ==> now[key] == was[key])
  {
  }

  /** The VLANs a block shows afterwards: VLAN 1 is the default and not shown, VLAN 0 and an empty list are not sent,
      and an access VLAN goes out unless the port is to be a trunk, a native VLAN and a list only if it is. */
  lemma VlansAfter(b: Block, o: Intent)
    ensures var now, trunk := Configured(b, o), o.mode == Some(TrunkMode);
            && now.mode == (if o.mode.Some? then o.mode else b.mode)
            && now.accessVlan == (if trunk || o.vlan.None? || o.vlan == Some(0) then b.accessVlan
                                  else if o.vlan == Some(1) then None else o.vlan)
            && now.nativeVlan == (if !trunk || o.trunkNativeVlan.None? || o.trunkNativeVlan == Some(0) then b.nativeVlan
                                  else if o.trunkNativeVlan == Some(1) then None else o.trunkNativeVlan)
            && now.allowedVlans == (if !trunk || o.trunkAllowedVlans.None? || o.trunkAllowedVlans == Some("")
                                    then b.allowedVlans else o.trunkAllowedVlans)
            && now.voiceVlan == (if o.voiceVlan.None? then b.voiceVlan else o.voiceVlan)
  {
  }

  lemma SentFree(d: string)
    ensures NoBreaks(Sent(d))
  {
    var w, v := TrimParts(CollapseBreaks(d));
    CollapseFree(d);
    forall i | 0 <= i < |Sent(d)|
      ensures !IsBreak(Sent(d)[i])
    {
      assert Sent(d)[i] == CollapseBreaks(d)[|w| + i];
    }
  }

  /** No description line carries a line break, so none carries a further command. */
  predicate OneLineEach(lines: seq<Line>) {
    forall k :: 0 <= k < |lines| && lines[k].Description? ==> NoBreaks(lines[k].text)
  }

  lemma ApplySnoc(b: Block, lines: seq<Line>, line: Line)
    ensures ApplyAll(b, lines + [line]) == Apply(ApplyAll(b, lines), line)
  {
    assert (lines + [line])[..|lines|] == lines;
  }

  /** Push one more line, knowing what the lines so far make of the block. */
  method Push(lines: seq<Line>, line: Line, ghost b: Block) returns (r: seq<Line>)
    ensures r == lines + [line] && ApplyAll(b, r) == Apply(ApplyAll(b, lines), line)
    ensures OneLineEach(lines) && (line.Description? ==> NoBreaks(line.text)) ==> OneLineEach(r)
  {
    ApplySnoc(b, lines, line);
    r := lines + [line];
  }

  method DescriptionLines(before: seq<Line>, o: Intent, ghost b: Block) returns (lines: seq<Line>)
    ensures before <= lines && (OneLineEach(before) ==> OneLineEach(lines))
    ensures var was := ApplyAll(b, before);
            ApplyAll(b, lines) == was.(description := DescriptionAfter(was.description, o))
  {
    lines := before;
    if o.description.Some? {
      var d := Sent(o.description.value);
      SentFree(o.description.value);
      lines := Push(lines, if d != "" then Description(d) else NoDescription, b);
    }
  }

  method TrunkLines(before: seq<Line>, o: Intent, ghost b: Block) returns (lines: seq<Line>)
    requires o.mode == Some(TrunkMode)
    ensures before <= lines && (OneLineEach(before) ==> OneLineEach(lines))
    ensures var was := ApplyAll(b, before);
            ApplyAll(b, lines) ==
            was.(mode := Some(TrunkMode),
                 nativeVlan := if Given(o.trunkNativeVlan) then Shown(o.trunkNativeVlan.value) else was.nativeVlan,
                 allowedVlans := if NonEmpty(o.trunkAllowedVlans) then o.trunkAllowedVlans else was.allowedVlans)
  {
    lines := Push(before, SwitchportMode(TrunkMode), b);
    if Given(o.trunkNativeVlan) {
      lines := Push(lines, NativeVlan(o.trunkNativeVlan.value), b);
    }
    if NonEmpty(o.trunkAllowedVlans) {
      lines := Push(lines, AllowedVlans(o.trunkAllowedVlans.value), b);
    }
  }

  method AccessLines(before: seq<Line>, o: Intent, ghost b: Block) returns (lines: seq<Line>)
    requires o.mode.None? || o.mode.value.AccessMode?
    ensures before <= lines && (OneLineEach(before) ==> OneLineEach(lines))
    ensures var was := ApplyAll(b, before);
            ApplyAll(b, lines) ==
            was.(mode := if o.mode.Some? then o.mode else was.mode,
                 accessVlan := if Given(o.vlan) then Shown(o.vlan.value) else was.accessVlan)
  {
    lines := before;
    if o.mode == Some(AccessMode) {
      lines := Push(lines, SwitchportMode(AccessMode), b);
      if Given(o.vlan) {
        lines := Push(lines, AccessVlan(o.vlan.value), b);
      }
    } else if Given(o.vlan) {
      lines := Push(lines, AccessVlan(o.vlan.value), b);
    }
  }

  method SpeedLines(before: seq<Line>, o: Intent, ghost b: Block) returns (lines: seq<Line>)
    ensures before <= lines && (OneLineEach(before) ==> OneLineEach(lines))
    ensures var was := ApplyAll(b, before); ApplyAll(b, lines) == was.(settings := SpeedSettings(was.settings, o))
  {
    lines := before;
    if NonEmpty(o.speed) {
      lines := Push(lines, Setting("speed", o.speed.value), b);
    }
    if NonEmpty(o.duplex) {
      lines := Push(lines, Setting("duplex", o.duplex.value), b);
    }
  }

  method EdgeLines(before: seq<Line>, o: Intent, ghost b: Block) returns (lines: seq<Line>)
    ensures before <= lines && (OneLineEach(before) ==> OneLineEach(lines))
    ensures var was := ApplyAll(b, before); ApplyAll(b, lines) == was.(settings := EdgeSettings(was.settings, o))
  {
    lines := before;
    if o.portfast.Some? {
      lines := Push(lines, Setting("spanning-tree portfast", if o.portfast.value then "on" else "no"), b);
    }
    if o.bpduGuard.Some? {
      lines := Push(lines, Setting("spanning-tree bpduguard", if o.bpduGuard.value then "enable" else "disable"), b);
    }
  }

  method PowerLine(before: seq<Line>, o: Intent, ghost b: Block) returns (lines: seq<Line>)
    ensures before <= lines && (OneLineEach(before) ==> OneLineEach(lines))
    ensures var was := ApplyAll(b, before); ApplyAll(b, lines) == was.(settings := PowerSettings(was.settings, o))
  {
    lines := before;
    if o.poeEnabled.Some? {
      lines := Push(lines, Setting("power inline", if o.poeEnabled.value then "auto" else "never"), b);
    }
  }

  /** `portConfig`: the lines for an intent. Sent to any block they leave what the intent asks for, and nothing else is
      touched. */
  method PortConfig(o: Intent, ghost b: Block) returns (lines: seq<Line>)
    ensures |lines| > 0 && lines[0] == Interface && OneLineEach(lines)
    ensures ApplyAll(b, lines) == Configured(b, o)
  {
    lines := Push([], Interface, b);
    lines := DescriptionLines(lines, o, b);
    if o.mode == Some(TrunkMode) {
      lines := TrunkLines(lines, o, b);
    } else {
      lines := AccessLines(lines, o, b);
    }
    if o.voiceVlan.Some? {
      lines := Push(lines, VoiceVlan(o.voiceVlan.value), b);
    }
    lines := SpeedLines(lines, o, b);
    lines := EdgeLines(lines, o, b);
    lines := PowerLine(lines, o, b);
  }
}
