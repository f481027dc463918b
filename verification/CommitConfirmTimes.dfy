/** The times in commit-confirm: when an acceptance is let through, and until when the platform probes, in terms of when
    things happened in a run. */
module CommitConfirmTimes {
  import opened Prelude
  import opened RevertDevice
  import opened CommitConfirm
  import opened CommitConfirmInvariant
  import opened CommitConfirmSafety

  function Clock(h: History): int {
    match h
    case Begin(s) => s.world.now
    case After(b, e) => Clock(b) + if e.Wait? then e.ms else 0
  }

  /** When the armed key was last stored, if nobody has cleared it since. */
  function ArmedStoredAt(h: History): Option<int> {
    match h
    case Begin(_) => None
    case After(b, e) =>
      if e == SetFlag(true) then Some(Clock(b))
      else if e.ClearFlags? && e.ok then None
      else ArmedStoredAt(b)
  }

  /** When the token was stored for the operator, if no acceptance has cleared it since. */
  function TokenStoredAt(h: History): Option<int> {
    match h
    case Begin(_) => None
    case After(b, e) =>
      if e == HoldToken(true) then Some(Clock(b))
      else if e == ClearFlags(Operator, true) then None
      else TokenStoredAt(b)
  }

  /** Stored, and less than `seconds` ago. */
  predicate Within(stored: Option<int>, now: int, seconds: nat) {
    stored.Some? && now < stored.value + seconds * 1000
  }

  /** What an acceptance needs: the armed key, and on RouterOS the token, both stored less than `seconds` ago. */
  predicate KeysStand(p: Push, h: History) {
    && Within(ArmedStoredAt(h), Clock(h), p.seconds)
    && (p.kind.RouterOs? ==> Within(TokenStoredAt(h), Clock(h), p.seconds))
  }

  function Expiry(stored: Option<int>, seconds: nat): Option<int> {
    if stored.Some? then Some(stored.value + seconds * 1000) else None
  }

  lemma {:induction false} KeysKnown(p: Push, h: History)
    requires Valid(p, h)
    ensures End(p, h).world.now == Clock(h)
    ensures End(p, h).armedFlag == Expiry(ArmedStoredAt(h), p.seconds)
    ensures End(p, h).tokenFlag == Expiry(TokenStoredAt(h), p.seconds)
  {
    if h.After? {
      KeysKnown(p, h.before);
      KeysStep(p, h.before, h.event);
    }
  }

  lemma OthersKeepKeys(p: Push, s: System, e: Event)
    requires Enabled(p, s, e) && !e.Wait? && !e.SetFlag? && !e.HoldToken? && !e.ClearFlags?
    ensures var t := Step(p, s, e);
            t.world.now == s.world.now && t.armedFlag == s.armedFlag && t.tokenFlag == s.tokenFlag
  {
  }

  lemma KeysStep(p: Push, b: History, e: Event)
    requires Valid(p, b) && Enabled(p, End(p, b), e)
    requires End(p, b).world.now == Clock(b)
    requires End(p, b).armedFlag == Expiry(ArmedStoredAt(b), p.seconds)
    requires End(p, b).tokenFlag == Expiry(TokenStoredAt(b), p.seconds)
    ensures var h, s := After(b, e), Step(p, End(p, b), e);
            && s.world.now == Clock(h)
            && s.armedFlag == Expiry(ArmedStoredAt(h), p.seconds)
            && s.tokenFlag == Expiry(TokenStoredAt(h), p.seconds)
  {
    if !e.Wait? && !e.SetFlag? && !e.HoldToken? && !e.ClearFlags? {
      OthersKeepKeys(p, End(p, b), e);
    }
  }

  /** In every run an acceptance goes on to disarm exactly if the keys it needs were stored less than `seconds` ago and
      not cleared since; otherwise it touches neither the device nor the keys, and drops the session exactly if
      only the token was missing. */
  lemma AcceptGoesOnIff(p: Push, h: History, start: Device, s: System)
    requires Leads(p, h, start, s) && Enabled(p, s, Accept)
    ensures Step(p, s, Accept).accept.stage.Disarming? <==> KeysStand(p, h)
    ensures !KeysStand(p, h) ==>
              Step(p, s, Accept) == s.(pool := if Within(ArmedStoredAt(h), Clock(h), p.seconds) then None else s.pool)
  {
    KeysKnown(p, h);
    RunInv(p, h, start, s);
  }

  // ---------------------------------------------------------------- how long the platform probes

  /** An attempt in the making was begun in time: with ten seconds of the window left from the end of the apply, or
      within ten seconds of it, whichever is later; every attempt but the first comes three seconds after that. */
  predicate ProbesInTime(p: Push, g: Stage) {
    g.Pausing? ==>
      var pause := if g.attempt > 0 then 3000 else 0;
      g.until - pause < g.start + p.seconds * 1000 - 10000 || g.until - pause < g.start + 10000
  }

  lemma {:induction false} ProbeWindow(p: Push, h: History)
    requires Valid(p, h)
    ensures ProbesInTime(p, End(p, h).push.stage)
  {
    if h.After? {
      ProbeWindow(p, h.before);
      ProbeStep(p, End(p, h.before), h.event);
    }
  }

  lemma ProbeStep(p: Push, s: System, e: Event)
    requires ProbesInTime(p, s.push.stage) && Enabled(p, s, e)
    ensures ProbesInTime(p, Step(p, s, e).push.stage)
  {
  }

  /** The loop goes on to another attempt exactly while that much of the window is left, and else gives up. */
  lemma ProbesOnIff(p: Push, s: System)
    requires Enabled(p, s, Check)
    ensures var now, g := s.world.now, s.push.stage;
            if now < g.start + p.seconds * 1000 - 10000 || now < g.start + 10000
            then Step(p, s, Check).push == At(Pausing(g.start, g.attempt, if g.attempt > 0 then now + 3000 else now))
            else Step(p, s, Check).push == At(Returned(Reverting))
  {
  }

  // ---------------------------------------------------------------- how often the platform connects

  /** The times the pooled session may have been dropped: by others, by a call that failed, before a probe, and by an
      acceptance without its token. */
  function Drops(p: Push, h: History): nat
    requires Valid(p, h)
  {
    match h
    case Begin(_) => 0
    case After(b, e) =>
      Drops(p, b) + if End(p, b).pool.Some? && Step(p, End(p, b), e).pool.None? then 1 else 0
  }

  /** Sessions are used again: in every run there is at most one connection more than drops. */
  lemma {:induction false} OneConnectionPerDrop(p: Push, h: History)
    requires Valid(p, h)
    ensures End(p, h).serials + (if End(p, h).pool.None? then 1 else 0) <= FirstSerials(h) + Drops(p, h) + 1
  {
    if h.After? {
      OneConnectionPerDrop(p, h.before);
      ConnectStep(p, End(p, h.before), h.event);
    }
  }

  function FirstSerials(h: History): nat {
    match h
    case Begin(s) => s.serials
    case After(b, _) => FirstSerials(b)
  }

  lemma ConnectStep(p: Push, s: System, e: Event)
    requires Enabled(p, s, e)
    ensures var t := Step(p, s, e);
            && s.serials <= t.serials <= s.serials + 1
            && (t.serials > s.serials ==> s.pool.None? && t.pool.Some?)
            && (t.pool.Some? && s.pool.None? ==> t.serials == s.serials + 1)
            && (s.pool.Some? && t.pool.Some? ==> t.pool == s.pool)
            && (e.Open? ==> ProgOf(t, e.who).session == t.pool && t.pool.Some?)
  {
  }
}
