/** The rolling flap counter of a port, sweep by sweep. */
module PortFlap {
  import opened Prelude

  const HOUR := 3600000

  datatype Prev = Prev(operStatus: string, flapCount: nat, lastFlapAt: Option<int>)

  datatype Decision = Decision(flapped: bool, flapCount: nat, lastFlapAt: Option<int>)

  /** `decidePortFlap` */
  function DecidePortFlap(prev: Option<Prev>, status: string, now: int): Decision {
    var flapped := prev.Some? && prev.value.operStatus != "unknown" && prev.value.operStatus != status;
    var windowExpired := prev.Some? && prev.value.lastFlapAt.Some? && now - prev.value.lastFlapAt.value > HOUR;
    var was := if prev.Some? then prev.value.flapCount else 0;
    Decision(flapped,
             if flapped then (if windowExpired then 1 else was + 1) else if windowExpired then 0 else was,
             if flapped then Some(now) else if prev.Some? then prev.value.lastFlapAt else None)
  }

  /** One sweep over the port: the status it found, and when. */
  datatype Sweep = Sweep(status: string, at: int)

  /** What is stored for the port after some sweeps. */
  function Stored(sweeps: seq<Sweep>): Option<Prev> {
    if sweeps == [] then None
    else
      var last := sweeps[|sweeps| - 1];
      var d := DecidePortFlap(Stored(sweeps[..|sweeps| - 1]), last.status, last.at);
      Some(Prev(last.status, d.flapCount, d.lastFlapAt))
  }

  ghost predicate InOrder(sweeps: seq<Sweep>) {
    forall i, j :: 0 <= i < j < |sweeps| ==> sweeps[i].at <= sweeps[j].at
  }

  // ---------------------------------------------------------------- the flaps themselves

  /** Sweep i found another status than the sweep before it, which knew one. */
  predicate FlapAt(sweeps: seq<Sweep>, i: nat)
    requires i < |sweeps|
  {
    i > 0 && sweeps[i - 1].status != "unknown" && sweeps[i - 1].status != sweeps[i].status
  }

  /** The times of all flaps so far, oldest first. */
  function Flaps(sweeps: seq<Sweep>): (flaps: seq<int>) {
    if sweeps == [] then []
    else Flaps(sweeps[..|sweeps| - 1]) + if FlapAt(sweeps, |sweeps| - 1) then [sweeps[|sweeps| - 1].at] else []
  }

  /** The length of the latest chain of times in which each is at most an hour after the one before. */
  function Chain(times: seq<int>): (n: nat)
    ensures n <= |times| && (times != [] ==> n >= 1)
  {
    if |times| <= 1 then |times|
    else if times[|times| - 1] - times[|times| - 2] > HOUR then 1
    else Chain(times[..|times| - 1]) + 1
  }

  /** How many of the times lie in the hour up to now. */
  function Recent(times: seq<int>, now: int): nat {
    if times == [] then 0
    else Recent(times[..|times| - 1], now) + if now - times[|times| - 1] <= HOUR then 1 else 0
  }

  function LastOf(times: seq<int>): Option<int> {
    if times == [] then None else Some(times[|times| - 1])
  }

  lemma {:induction false} FlapsInOrder(sweeps: seq<Sweep>)
    requires InOrder(sweeps)
    ensures forall i, j :: 0 <= i < j < |Flaps(sweeps)| ==> Flaps(sweeps)[i] <= Flaps(sweeps)[j]
    ensures forall i :: 0 <= i < |Flaps(sweeps)| ==> Flaps(sweeps)[i] <= sweeps[|sweeps| - 1].at
  {
    if sweeps != [] {
      FlapsInOrder(sweeps[..|sweeps| - 1]);
    }
  }

  /** Each sweep reports a flap, which is what the monitors act on, exactly if it found another status than the sweep
      before it, which knew one. */
  lemma ReportedIffFlap(sweeps: seq<Sweep>)
    requires sweeps != []
    ensures var init, last := sweeps[..|sweeps| - 1], sweeps[|sweeps| - 1];
            DecidePortFlap(Stored(init), last.status, last.at).flapped <==>
            init != [] && init[|init| - 1].status != "unknown" && init[|init| - 1].status != last.status
  {
  }

  /** The stored counter is the length of the latest chain of flaps, or zero once that chain has gone stale; and the
      stored time is that of the last flap. */
  lemma {:induction false} CounterIsTheChain(sweeps: seq<Sweep>)
    requires InOrder(sweeps) && sweeps != []
    ensures var flaps, now := Flaps(sweeps), sweeps[|sweeps| - 1].at;
            && Stored(sweeps).value.lastFlapAt == LastOf(flaps)
            && Stored(sweeps).value.flapCount ==
               if flaps == [] || now - flaps[|flaps| - 1] > 3600000 then 0 else Chain(flaps)
  {
    var init := sweeps[..|sweeps| - 1];
    if init != [] {
      CounterIsTheChain(init);
      var flaps := Flaps(sweeps);
      assert sweeps[|sweeps| - 2].at <= sweeps[|sweeps| - 1].at;
      if FlapAt(sweeps, |sweeps| - 1) {
        assert flaps[..|flaps| - 1] == Flaps(init);
        assert Flaps(init) != [] ==> flaps[|flaps| - 2] == Flaps(init)[|Flaps(init)| - 1];
      } else {
        assert flaps == Flaps(init);
      }
    }
  }

  lemma {:induction false} RecentWithinChain(times: seq<int>, now: int)
    requires forall i, j :: 0 <= i < j < |times| ==> times[i] <= times[j]
    requires forall i :: 0 <= i < |times| ==> times[i] <= now
    ensures Recent(times, now) <= Chain(times)
    ensures times != [] && now - times[|times| - 1] > HOUR ==> Recent(times, now) == 0
  {
    if times != [] {
      RecentWithinChain(times[..|times| - 1], now);
    }
  }

  /** The counter is never below the true number of flaps in the trailing hour, so a flapping port is never missed. */
  lemma NeverMissesAFlap(sweeps: seq<Sweep>)
    requires InOrder(sweeps) && sweeps != []
    ensures Recent(Flaps(sweeps), sweeps[|sweeps| - 1].at) <= Stored(sweeps).value.flapCount
  {
    CounterIsTheChain(sweeps);
    FlapsInOrder(sweeps);
    RecentWithinChain(Flaps(sweeps), sweeps[|sweeps| - 1].at);
  }

  /** It equals that number exactly if the latest chain began within the hour; a longer chain is counted in full. */
  lemma ExactIffChainIsRecent(sweeps: seq<Sweep>)
    requires InOrder(sweeps) && sweeps != []
    ensures var flaps, now := Flaps(sweeps), sweeps[|sweeps| - 1].at;
            Stored(sweeps).value.flapCount == Recent(flaps, now) <==>
            flaps == [] || now - flaps[|flaps| - 1] > HOUR || now - flaps[|flaps| - Chain(flaps)] <= HOUR
  {
    var flaps, now := Flaps(sweeps), sweeps[|sweeps| - 1].at;
    CounterIsTheChain(sweeps);
    FlapsInOrder(sweeps);
    RecentWithinChain(flaps, now);
    if flaps != [] {
      ChainStart(flaps, now);
    }
  }

  lemma {:induction false} ChainStart(times: seq<int>, now: int)
    requires times != []
    requires forall i, j :: 0 <= i < j < |times| ==> times[i] <= times[j]
    requires forall i :: 0 <= i < |times| ==> times[i] <= now
    ensures 1 <= Chain(times) <= |times|
    ensures Recent(times, now) == Chain(times) <==> now - times[|times| - Chain(times)] <= HOUR
  {
    if |times| > 1 {
      ChainStart(times[..|times| - 1], now);
      RecentWithinChain(times[..|times| - 1], now);
    }
  }
}
