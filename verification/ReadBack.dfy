/** Writing a port's configuration and reading it back: when the comparison agrees. */
module ReadBack {
  import opened Prelude
  import opened Text
  import opened TextFacts
  import opened CiscoPort
  import opened PortVerify

  lemma BlankSent(s: string)
    requires Blank(s)
    ensures Sent(s) == ""
  {
    CollapseFree(s);
    TrimStartOf(CollapseBreaks(s), "");
    assert CollapseBreaks(s) + "" == CollapseBreaks(s);
  }

  lemma CollapseAround(w: string, t: string, v: string)
    requires Blank(w) && Blank(v) && Tight(t) && t != "" && NoBreaks(t)
    ensures Sent(w + t + v) == t
  {
    CollapseThree(w, t, v);
    CollapseFree(w);
    CollapseFree(v);
    TrimOf(CollapseBreaks(w), t, CollapseBreaks(v));
  }

  /** What is sent of a description is the trimmed description if that has no line break inside. */
  lemma SentIsTrimmed(d: string)
    requires NoBreaks(Trim(d))
    ensures Sent(d) == Trim(d)
  {
    var w, v := TrimParts(d);
    if Trim(d) == "" {
      assert d == w + v;
      BlankSent(d);
    } else {
      CollapseAround(w, Trim(d), v);
    }
  }

  predicate NoLineEnds(s: string) {
    forall i :: 0 <= i < |s| ==> !EndsLine(s[i])
  }

  lemma {:induction false} WithoutCrSame(s: string)
    ensures NoBreaks(s) ==> WithoutCr(s) == s
  {
    if s != "" {
      WithoutCrSame(s[1..]);
      assert s == [s[0]] + s[1..];
    }
  }

  lemma {:induction false} LinesHaveNoEnds(s: string)
    ensures forall k :: 0 <= k < |LinesOf(s)| ==> NoLineEnds(LinesOf(s)[k])
    ensures NoLineEnds(s) ==> LinesOf(s) == [s]
  {
    if s != "" {
      LinesHaveNoEnds(s[1..]);
      assert s == [s[0]] + s[1..];
    }
  }

  lemma TrimKeepsNoLineEnds(s: string)
    requires NoLineEnds(s)
    ensures NoLineEnds(Trim(s))
  {
    var w, v := TrimParts(s);
    forall i | 0 <= i < |Trim(s)|
      ensures !EndsLine(Trim(s)[i])
    {
      assert Trim(s)[i] == s[|w| + i];
    }
  }

  lemma {:induction false} LeadingStops(s: string)
    ensures NoLineEnds(Leading(s, c => !EndsLine(c)))
  {
    if s != "" {
      LeadingStops(s[1..]);
    }
  }

  lemma {:induction false} CapturedHasNoEnds(lines: seq<string>, keyword: string)
    ensures var r := FirstCaptured(lines, keyword, c => !EndsLine(c)); r.Some? ==> NoLineEnds(r.value)
  {
    if lines != [] {
      CapturedHasNoEnds(lines[1..], keyword);
      var t := TrimStart(lines[0]);
      if keyword <= t {
        LeadingStops(t[|keyword|..]);
      }
    }
  }

  lemma ShownHasNoEnds(b: Block)
    ensures NoLineEnds(ShownDescription(b))
  {
    if b.description.Some? {
      var lines := LinesOf(WithoutCr(b.description.value));
      LinesHaveNoEnds(WithoutCr(b.description.value));
      CapturedHasNoEnds(lines[1..], "description ");
      TrimKeepsNoLineEnds(lines[0]);
      var later := FirstCaptured(lines[1..], "description ", c => !EndsLine(c));
      if later.Some? {
        TrimKeepsNoLineEnds(later.value);
      }
    }
  }

  /** A description comes back as intended exactly if, trimmed, it has no line end inside: the driver turns CR and LF
      into spaces, and the comparison reads no further than U+2028 or U+2029. It hides no lines then. */
  lemma DescriptionComesBackIff(b: Block, d: string)
    requires b.description == if Sent(d) == "" then None else Some(Sent(d))
    ensures ShownDescription(b) == Trim(d) <==> NoLineEnds(Trim(d))
    ensures NoLineEnds(Trim(d)) ==> Hidden(b.description) == []
  {
    ShownHasNoEnds(b);
    if NoLineEnds(Trim(d)) {
      var w, v := TrimParts(d);
      SentIsTrimmed(d);
      WithoutCrSame(Trim(d));
      LinesHaveNoEnds(Trim(d));
      TrimOf("", Trim(d), "");
      assert "" + Trim(d) + "" == Trim(d);
    }
  }

  /** The description a block keeps from before, if the intent does not give one. */
  function Kept(b: Block, o: Intent): Option<string> {
    if o.description.None? then b.description else None
  }

  predicate TrunkAfter(b: Block, o: Intent) {
    LooksTrunk(b.(description := Kept(b, o), mode := if o.mode.Some? then o.mode else b.mode))
  }

  /** What of the intent and the block before it decides whether a field will agree. */
  predicate WillAgree(f: Field, b: Block, o: Intent) {
    var hidden := HiddenSays(f, Kept(b, o));
    match f
    case DescriptionField => o.description.Some? ==> NoLineEnds(Trim(o.description.value))
    case ModeField => o.mode.Some? && hidden.Some? ==> hidden.value == ModeWord(o.mode.value)
    case AccessVlanField =>
      o.vlan.Some? && o.mode != Some(TrunkMode) && !TrunkAfter(b, o) ==>
        if hidden.Some? then hidden.value == Decimal(o.vlan.value)
        else o.vlan.value != 0 || VlanOf(b.accessVlan) == o.vlan.value
    case VoiceVlanField => o.voiceVlan.Some? && hidden.Some? ==> hidden.value == Decimal(o.voiceVlan.value)
    case NativeVlanField =>
      o.trunkNativeVlan.Some? ==>
        if hidden.Some? then hidden.value == Decimal(o.trunkNativeVlan.value)
        else WritesNativeVlan(o) || VlanOf(b.nativeVlan) == o.trunkNativeVlan.value
  }

  lemma DescriptionAgreesIff(b: Block, o: Intent)
    ensures Contradicts(DescriptionField, Configured(b, o), o) <==> !WillAgree(DescriptionField, b, o)
  {
    if o.description.Some? {
      DescriptionComesBackIff(Configured(b, o), o.description.value);
    }
  }

  lemma HiddenAfter(b: Block, o: Intent)
    requires WillAgree(DescriptionField, b, o)
    ensures Hidden(Configured(b, o).description) == Hidden(Kept(b, o))
    ensures LooksTrunk(Configured(b, o)) <==> TrunkAfter(b, o)
    ensures forall f :: HiddenSays(f, Configured(b, o).description) == HiddenSays(f, Kept(b, o))
  {
    if o.description.Some? {
      DescriptionComesBackIff(Configured(b, o), o.description.value);
    }
  }

  lemma DecimalsDiffer(m: nat, n: nat)
    ensures Decimal(m) == Decimal(n) <==> m == n
  {
    if Decimal(m) == Decimal(n) {
      DecimalInjective(m, n);
    }
  }

  lemma FieldAgreesIff(f: Field, b: Block, o: Intent)
    requires WillAgree(DescriptionField, b, o) && f != DescriptionField
    ensures Contradicts(f, Configured(b, o), o) <==> !WillAgree(f, b, o)
  {
    HiddenAfter(b, o);
    var now := Configured(b, o);
    match f
    case ModeField =>
    case AccessVlanField =>
      if o.vlan.Some? {
        DecimalsDiffer(VlanOf(now.accessVlan), o.vlan.value);
      }
    case VoiceVlanField =>
    case NativeVlanField =>
      if o.trunkNativeVlan.Some? {
        DecimalsDiffer(VlanOf(now.nativeVlan), o.trunkNativeVlan.value);
      }
    case DescriptionField =>
  }

  /** Reading back what was written reports no mismatch exactly if every field will agree, whatever block it was written
      to, lines hidden in a kept description included. */
  lemma ReadBackAgreesIff(b: Block, o: Intent)
    ensures NoMismatch(Configured(b, o), o) <==> forall f :: WillAgree(f, b, o)
  {
    DescriptionAgreesIff(b, o);
    if WillAgree(DescriptionField, b, o) {
      forall f: Field | f != DescriptionField
        ensures Contradicts(f, Configured(b, o), o) <==> !WillAgree(f, b, o)
      {
        FieldAgreesIff(f, b, o);
      }
      forall f: Field
        ensures Contradicts(f, Configured(b, o), o) <==> !WillAgree(f, b, o)
      {
      }
    }
  }

  /** Where the kept description is one line, that is: the trimmed description has no line end inside, no VLAN 0 is
      asked for where it would be compared, and a native VLAN is asked for on a trunk only, all unless the block
      happened to hold the value already. */
  lemma PlainReadBackAgreesIff(b: Block, o: Intent)
    requires o.description.None? && b.description.Some? ==> NoLineEnds(b.description.value)
    ensures NoMismatch(Configured(b, o), o) <==>
            && (o.description.Some? ==> NoLineEnds(Trim(o.description.value)))
            && (o.vlan == Some(0) && o.mode != Some(TrunkMode) && Configured(b, o).mode != Some(TrunkMode) ==>
                  VlanOf(b.accessVlan) == 0)
            && (o.trunkNativeVlan.Some? && !WritesNativeVlan(o) ==> VlanOf(b.nativeVlan) == o.trunkNativeVlan.value)
  {
    ReadBackAgreesIff(b, o);
    if o.description.None? && b.description.Some? {
      WithoutCrSame(b.description.value);
      LinesHaveNoEnds(b.description.value);
    }
    assert Hidden(Kept(b, o)) == [];
    assert WillAgree(ModeField, b, o) && WillAgree(VoiceVlanField, b, o);
    assert (forall f :: WillAgree(f, b, o)) <==>
           && WillAgree(DescriptionField, b, o) && WillAgree(AccessVlanField, b, o)
           && WillAgree(NativeVlanField, b, o) by {
      if WillAgree(DescriptionField, b, o) && WillAgree(AccessVlanField, b, o) && WillAgree(NativeVlanField, b, o) {
        forall f: Field
          ensures WillAgree(f, b, o)
        {
          match f
          case DescriptionField =>
          case ModeField =>
          case AccessVlanField =>
          case VoiceVlanField =>
          case NativeVlanField =>
        }
      }
    }
  }

  /** On a block whose description is one line, every field the intent gives is compared with what the block shows:
      equal is confirmed, different is a mismatch, and what the block does not say is neither. An access VLAN is not
      looked at on a trunk, and a field the intent does not give not at all. */
  lemma PlainBlockChecked(b: Block, o: Intent)
    requires b.description.Some? ==> NoLineEnds(b.description.value) && b.description.value != ""
    ensures o.mode.None? ==> !Confirms(ModeField, b, o) && !Contradicts(ModeField, b, o)
    ensures o.mode.Some? ==>
              && (Confirms(ModeField, b, o) <==> b.mode == o.mode)
              && (Contradicts(ModeField, b, o) <==> b.mode.Some? && b.mode != o.mode)
    ensures o.vlan.None? || o.mode == Some(TrunkMode) || b.mode == Some(TrunkMode) ==>
              !Confirms(AccessVlanField, b, o) && !Contradicts(AccessVlanField, b, o)
    ensures o.vlan.Some? && o.mode != Some(TrunkMode) && b.mode != Some(TrunkMode) ==>
              var shown := if b.accessVlan.Some? then b.accessVlan.value else 1;
              && (Confirms(AccessVlanField, b, o) <==> shown == o.vlan.value)
              && (Contradicts(AccessVlanField, b, o) <==> shown != o.vlan.value)
    ensures o.voiceVlan.None? ==> !Confirms(VoiceVlanField, b, o) && !Contradicts(VoiceVlanField, b, o)
    ensures o.voiceVlan.Some? ==>
              && (Confirms(VoiceVlanField, b, o) <==> b.voiceVlan == o.voiceVlan)
              && (Contradicts(VoiceVlanField, b, o) <==> b.voiceVlan.Some? && b.voiceVlan != o.voiceVlan)
    ensures o.trunkNativeVlan.None? ==> !Confirms(NativeVlanField, b, o) && !Contradicts(NativeVlanField, b, o)
    ensures o.trunkNativeVlan.Some? ==>
              var shown := if b.nativeVlan.Some? then b.nativeVlan.value else 1;
              && (Confirms(NativeVlanField, b, o) <==> shown == o.trunkNativeVlan.value)
              && (Contradicts(NativeVlanField, b, o) <==> shown != o.trunkNativeVlan.value)
    ensures o.description.None? ==> !Confirms(DescriptionField, b, o) && !Contradicts(DescriptionField, b, o)
    ensures o.description.Some? ==>
              var shown := if b.description.Some? then Trim(b.description.value) else "";
              && (Confirms(DescriptionField, b, o) <==> shown == Trim(o.description.value))
              && (Contradicts(DescriptionField, b, o) <==> shown != Trim(o.description.value))
  {
    if b.description.Some? {
      WithoutCrSame(b.description.value);
      LinesHaveNoEnds(b.description.value);
    }
    assert Hidden(b.description) == [];
    NumbersChecked(b, o);
  }

  lemma NumbersChecked(b: Block, o: Intent)
    ensures o.vlan.Some? ==>
              (Decimal(VlanOf(b.accessVlan)) == Decimal(o.vlan.value) <==> VlanOf(b.accessVlan) == o.vlan.value)
    ensures o.trunkNativeVlan.Some? ==>
              (Decimal(VlanOf(b.nativeVlan)) == Decimal(o.trunkNativeVlan.value) <==>
               VlanOf(b.nativeVlan) == o.trunkNativeVlan.value)
    ensures o.voiceVlan.Some? && b.voiceVlan.Some? ==>
              (Decimal(b.voiceVlan.value) == Decimal(o.voiceVlan.value) <==> b.voiceVlan == o.voiceVlan)
  {
    if o.vlan.Some? { DecimalsDiffer(VlanOf(b.accessVlan), o.vlan.value); }
    if o.trunkNativeVlan.Some? { DecimalsDiffer(VlanOf(b.nativeVlan), o.trunkNativeVlan.value); }
    if o.voiceVlan.Some? && b.voiceVlan.Some? { DecimalsDiffer(b.voiceVlan.value, o.voiceVlan.value); }
  }

  /** The comparison is blind to the allowed list, speed, duplex and the rest: blocks that differ in these only get the
      same report. */
  lemma UncheckedSettings(b: Block, c: Block, o: Intent, f: Field)
    requires c == b.(allowedVlans := c.allowedVlans, settings := c.settings)
    ensures Confirms(f, c, o) <==> Confirms(f, b, o)
    ensures Contradicts(f, c, o) <==> Contradicts(f, b, o)
  {
    match f
    case DescriptionField =>
    case ModeField =>
    case AccessVlanField =>
    case VoiceVlanField =>
    case NativeVlanField =>
  }
}
