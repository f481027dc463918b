/** The read-back comparison: what `verifyPortIntent` finds in an interface block, and what it reports. */
module PortVerify {
  import opened Prelude
  import opened Text
  import opened CiscoPort

  datatype Field = DescriptionField | ModeField | AccessVlanField | VoiceVlanField | NativeVlanField

  datatype Mismatch = Mismatch(field: Field, expected: string, actual: string)

  /** A line terminator as `^`, `.` and `$` see it. */
  predicate EndsLine(c: char) {
    IsBreak(c) || c as int == 0x2028 || c as int == 0x2029
  }

  /** `block.replace(/\r/g, '')` */
  function WithoutCr(s: string): string {
    if s == "" then "" else (if s[0] == '\r' then "" else [s[0]]) + WithoutCr(s[1..])
  }

  /** The lines a text spans in the eyes of the patterns. */
  function LinesOf(s: string): (lines: seq<string>)
    ensures |lines| >= 1
  {
    if s == "" then [""]
    else
      var rest := LinesOf(s[1..]);
      if EndsLine(s[0]) then [""] + rest else [[s[0]] + rest[0]] + rest[1..]
  }

  predicate IsWordChar(c: char) {
    'a' <= c <= 'z' || 'A' <= c <= 'Z' || '0' <= c <= '9' || c == '_'
  }

  predicate IsDigitChar(c: char) {
    '0' <= c <= '9'
  }

  function Leading(s: string, ok: char -> bool): string {
    if s == "" || !ok(s[0]) then "" else [s[0]] + Leading(s[1..], ok)
  }

  /** `/^\s*keyword (...+)/m` on one line: what the group captures. */
  function Captured(line: string, keyword: string, ok: char -> bool): Option<string> {
    var t := TrimStart(line);
    if !(keyword <= t) then None
    else
      var word := Leading(t[|keyword|..], ok);
      if word == "" then None else Some(word)
  }

  /** The first line that matches. */
  function FirstCaptured(lines: seq<string>, keyword: string, ok: char -> bool): Option<string> {
    if lines == [] then None
    else if Captured(lines[0], keyword, ok).Some? then Captured(lines[0], keyword, ok)
    else FirstCaptured(lines[1..], keyword, ok)
  }

  /** The lines that a description hides: those after the first one it spans. They stand above the rest of the block. */
  function Hidden(description: Option<string>): seq<string> {
    if description.Some? then LinesOf(WithoutCr(description.value))[1..] else []
  }

  const MODE := "switchport mode "
  const ACCESS := "switchport access vlan "
  const VOICE := "switchport voice vlan "
  const NATIVE := "switchport trunk native vlan "
  const TRUNK := "switchport mode trunk"

  function ModeWord(m: Mode): string {
    if m.AccessMode? then "access" else "trunk"
  }

  /** `/^\s*switchport mode trunk/m` */
  predicate LooksTrunk(b: Block) {
    || b.mode == Some(TrunkMode)
    || exists k :: 0 <= k < |Hidden(b.description)| && TRUNK <= TrimStart(Hidden(b.description)[k])
  }

  /** What `/^\s*description (.+)$/m` captures, trimmed; nothing reads as an empty description. */
  function ShownDescription(b: Block): string {
    if b.description.None? then ""
    else
      var lines := LinesOf(WithoutCr(b.description.value));
      var later := FirstCaptured(lines[1..], "description ", c => !EndsLine(c));
      if lines[0] != "" then Trim(lines[0]) else if later.Some? then Trim(later.value) else ""
  }

  function VlanOf(shown: Option<nat>): nat {
    if shown.Some? then shown.value else 1
  }

  /** What a field is expected to be; None if the field is not checked. */
  function Expected(f: Field, o: Intent, b: Block): Option<string> {
    match f
    case DescriptionField => if o.description.Some? then Some(Trim(o.description.value)) else None
    case ModeField => if o.mode.Some? then Some(ModeWord(o.mode.value)) else None
    case AccessVlanField =>
      if o.vlan.Some? && o.mode != Some(TrunkMode) && !LooksTrunk(b) then Some(Decimal(o.vlan.value)) else None
    case VoiceVlanField => if o.voiceVlan.Some? then Some(Decimal(o.voiceVlan.value)) else None
    case NativeVlanField => if o.trunkNativeVlan.Some? then Some(Decimal(o.trunkNativeVlan.value)) else None
  }

  /** What the hidden lines of a block say about a field, before any line of its own. */
  function HiddenSays(f: Field, description: Option<string>): Option<string> {
    var lines := Hidden(description);
    match f
    case DescriptionField => None
    case ModeField => FirstCaptured(lines, MODE, IsWordChar)
    case AccessVlanField => FirstCaptured(lines, ACCESS, IsDigitChar)
    case VoiceVlanField => FirstCaptured(lines, VOICE, IsDigitChar)
    case NativeVlanField => FirstCaptured(lines, NATIVE, IsDigitChar)
  }

  /** What a block's own lines say about a field; None if it does not say. */
  function Says(f: Field, b: Block): Option<string> {
    match f
    case DescriptionField => Some(ShownDescription(b))
    case ModeField => if b.mode.Some? then Some(ModeWord(b.mode.value)) else None
    case AccessVlanField => Some(Decimal(VlanOf(b.accessVlan)))
    case VoiceVlanField => if b.voiceVlan.Some? then Some(Decimal(b.voiceVlan.value)) else None
    case NativeVlanField => Some(Decimal(VlanOf(b.nativeVlan)))
  }

  /** What the comparison takes a block to have for a field. */
  function Actual(f: Field, b: Block): Option<string> {
    if HiddenSays(f, b.description).Some? then HiddenSays(f, b.description) else Says(f, b)
  }

  predicate Confirms(f: Field, b: Block, o: Intent) {
    Expected(f, o, b).Some? && Actual(f, b) == Expected(f, o, b)
  }

  predicate Contradicts(f: Field, b: Block, o: Intent) {
    Expected(f, o, b).Some? && Actual(f, b).Some? && Actual(f, b) != Expected(f, o, b)
  }

  ghost predicate Reported(b: Block, o: Intent, fields: set<Field>, confirmed: seq<Field>, mismatches: seq<Mismatch>) {
    && (forall f :: f in confirmed <==> f in fields && Confirms(f, b, o))
    && (forall f :: f in fields && Contradicts(f, b, o) ==>
          Mismatch(f, Expected(f, o, b).value, Actual(f, b).value) in mismatches)
    && (forall m :: m in mismatches ==> m.field in fields && Contradicts(m.field, b, o))
  }

  /** One `check`. */
  method Check(f: Field, b: Block, o: Intent, ghost seen: set<Field>, confirmed: seq<Field>, mismatches: seq<Mismatch>)
    returns (c: seq<Field>, m: seq<Mismatch>)
    requires Reported(b, o, seen, confirmed, mismatches) && f !in seen
    ensures Reported(b, o, seen + {f}, c, m)
  {
    c, m := confirmed, mismatches;
    var expected, actual := Expected(f, o, b), Actual(f, b);
    if expected.Some? && actual.Some? {
      if actual == expected {
        c := c + [f];
      } else {
        m := m + [Mismatch(f, expected.value, actual.value)];
      }
    }
  }

  /** `verifyPortIntent`: confirmed are exactly the fields the block shows as intended, mismatches exactly those it
      shows otherwise, and the verdict is ok exactly if there is none of these. */
  method VerifyPortIntent(b: Block, o: Intent) returns (ok: bool, confirmed: seq<Field>, mismatches: seq<Mismatch>)
    ensures forall f :: f in confirmed <==> Confirms(f, b, o)
    ensures forall f :: Contradicts(f, b, o) ==>
              Mismatch(f, Expected(f, o, b).value, Actual(f, b).value) in mismatches
    ensures forall m :: m in mismatches ==> Contradicts(m.field, b, o)
    ensures ok <==> NoMismatch(b, o)
  {
    confirmed, mismatches := [], [];
    ghost var seen: set<Field> := {};
    confirmed, mismatches := Check(DescriptionField, b, o, seen, confirmed, mismatches);
    seen := seen + {DescriptionField};
    confirmed, mismatches := Check(ModeField, b, o, seen, confirmed, mismatches);
    seen := seen + {ModeField};
    confirmed, mismatches := Check(AccessVlanField, b, o, seen, confirmed, mismatches);
    seen := seen + {AccessVlanField};
    confirmed, mismatches := Check(VoiceVlanField, b, o, seen, confirmed, mismatches);
    seen := seen + {VoiceVlanField};
    confirmed, mismatches := Check(NativeVlanField, b, o, seen, confirmed, mismatches);
    seen := seen + {NativeVlanField};
    AllFields(seen);
    ok := |mismatches| == 0;
    assert !ok ==> Contradicts(mismatches[0].field, b, o);
  }

  lemma AllFields(seen: set<Field>)
    requires {DescriptionField, ModeField, AccessVlanField, VoiceVlanField, NativeVlanField} <= seen
    ensures forall f: Field :: f in seen
  {
    forall f: Field
      ensures f in seen
    {
      match f
      case DescriptionField =>
      case ModeField =>
      case AccessVlanField =>
      case VoiceVlanField =>
      case NativeVlanField =>
    }
  }

  ghost predicate NoMismatch(b: Block, o: Intent) {
    forall f :: !Contradicts(f, b, o)
  }
}
