/**
 The localization monitor's readiness latch: which readings are good enough, and for how many
 evaluation cycles in a row, before path following is let through.
 */
module LocalizationLatch {
  import opened MapMatch

  datatype Option<T> = None | Some(value: T)

  datatype Spread = Infinite | Finite(metres: real)

  /** A standard deviation in metres. */
  type Deviation = metres: real | metres >= 0.0 witness 0.0

  datatype Limits = Limits(
    maxDataAge: real, minEndpointCount: int, minHitRatio: real, minParticles: int, maxParticleSpread: real,
    requiredHealthyCycles: int, requiredFaultCycles: int, matchRadius: real)

  /** One sampled laser beam: out of range, or its endpoint in the map's frame. */
  datatype Beam = Skipped | Endpoint(x: real, y: real)

  datatype Readings = Readings(
    grid: Option<Grid>, haveAmclPose: bool,
    haveScan: bool, scanStamp: real, scanTfValid: bool, endpointCount: nat, hitRatio: real,
    haveOdom: bool, odomStamp: real,
    haveParticles: bool, particleCount: nat, particleSpread: Spread)

  datatype Latch = Latch(healthyCycles: nat, faultCycles: nat, readyLatched: bool)

  datatype State = State(readings: Readings, latch: Latch)

  const START := State(
    Readings(None, false, false, 0.0, false, 0, 0.0, false, 0.0, false, 0, Infinite),
    Latch(0, 0, false))

  datatype Event =
    | MapReceived(received: Grid)
    | OdomReceived(stamp: real)
    | AmclPoseReceived
    | ParticlesReceived(count: nat, spread: Deviation)
    | ScanReceived(stamp: real, framed: bool, transformed: bool, beams: seq<Beam>)
    | Evaluated(now: real)

  /** What one evaluation cycle sees. */
  datatype Cycle = Cycle(candidate: bool, sourceChainValid: bool)

  // ---------------------------------------------------------------- the specification

  function Endpoints(beams: seq<Beam>): nat {
    if beams == [] then 0
    else Endpoints(beams[..|beams| - 1]) + if beams[|beams| - 1].Endpoint? then 1 else 0
  }

  predicate Matches(limits: Limits, grid: Grid, beam: Beam) {
    beam.Endpoint? && OccupiedNear(grid, limits.matchRadius, beam.x, beam.y)
  }

  function Hits(limits: Limits, grid: Grid, beams: seq<Beam>): (h: nat)
    ensures h <= Endpoints(beams)
  {
    if beams == [] then 0
    else
      Hits(limits, grid, beams[..|beams| - 1]) + if Matches(limits, grid, beams[|beams| - 1]) then 1 else 0
  }

  function HitRatio(limits: Limits, grid: Grid, beams: seq<Beam>): real {
    if Endpoints(beams) > 0 then Hits(limits, grid, beams) as real / Endpoints(beams) as real else 0.0
  }

  function Received(limits: Limits, r: Readings, e: Event): Readings
    requires !e.Evaluated?
  {
    match e
    case MapReceived(received) => r.(grid := Some(received))
    case OdomReceived(stamp) => r.(haveOdom := true, odomStamp := stamp)
    case AmclPoseReceived => r.(haveAmclPose := true)
    case ParticlesReceived(count, spread) =>
      if count == 0 then r.(haveParticles := false, particleCount := 0, particleSpread := Infinite)
      else r.(haveParticles := true, particleCount := count, particleSpread := Finite(spread))
    case ScanReceived(stamp, framed, transformed, beams) =>
      var scanned := r.(haveScan := true, scanStamp := stamp, scanTfValid := false, endpointCount := 0, hitRatio := 0.0);
      if r.grid.None? || !framed || !transformed then scanned
      else scanned.(scanTfValid := true, endpointCount := Endpoints(beams), hitRatio := HitRatio(limits, r.grid.value, beams))
  }

  predicate Fresh(have: bool, age: real, limits: Limits) {
    have && 0.0 <= age <= limits.maxDataAge
  }

  function Observe(limits: Limits, r: Readings, now: real): Cycle {
    var scanFresh := Fresh(r.haveScan, now - r.scanStamp, limits);
    var odomFresh := Fresh(r.haveOdom, now - r.odomStamp, limits);
    var mapAlignment := r.scanTfValid && r.endpointCount >= limits.minEndpointCount && r.hitRatio >= limits.minHitRatio;
    var particleOk := r.haveParticles && r.particleCount >= limits.minParticles &&
                      r.particleSpread.Finite? && r.particleSpread.metres <= limits.maxParticleSpread;
    Cycle(r.haveAmclPose && scanFresh && odomFresh && mapAlignment && particleOk,
          r.haveAmclPose && r.grid.Some? && scanFresh && odomFresh && r.scanTfValid)
  }

  function Counted(limits: Limits, latch: Latch, c: Cycle): Latch {
    var healthy := if c.candidate then latch.healthyCycles + 1 else 0;
    var fault := if c.candidate then 0 else latch.faultCycles + 1;
    var ready :=
      if !c.sourceChainValid then false
      else if !latch.readyLatched && healthy >= limits.requiredHealthyCycles then true
      else if latch.readyLatched && fault >= limits.requiredFaultCycles then false
      else latch.readyLatched;
    Latch(healthy, fault, ready)
  }

  function After(limits: Limits, s: State, e: Event): State {
    if e.Evaluated? then s.(latch := Counted(limits, s.latch, Observe(limits, s.readings, e.now)))
    else s.(readings := Received(limits, s.readings, e))
  }

  function Run(limits: Limits, events: seq<Event>): State {
    if events == [] then START
    else After(limits, Run(limits, events[..|events| - 1]), events[|events| - 1])
  }

  /** The cycles a run evaluated, oldest first. */
  function Cycles(limits: Limits, events: seq<Event>): seq<Cycle> {
    if events == [] then []
    else
      var earlier, last := events[..|events| - 1], events[|events| - 1];
      if last.Evaluated? then Cycles(limits, earlier) + [Observe(limits, Run(limits, earlier).readings, last.now)]
      else Cycles(limits, earlier)
  }

  // ---------------------------------------------------------------- what ready means

  predicate AllCandidates(cycles: seq<Cycle>, from: int, to: int)
    requires to <= |cycles|
  {
    forall i :: 0 <= i && from <= i < to ==> cycles[i].candidate
  }

  predicate NoCandidates(cycles: seq<Cycle>, from: int, to: int)
    requires to <= |cycles|
  {
    forall i :: 0 <= i && from <= i < to ==> !cycles[i].candidate
  }

  predicate ChainValid(cycles: seq<Cycle>, from: nat, to: int)
    requires to <= |cycles|
  {
    forall i :: from <= i < to ==> cycles[i].sourceChainValid
  }

  predicate FaultRun(limits: Limits, cycles: seq<Cycle>, start: nat) {
    start + limits.requiredFaultCycles <= |cycles| && NoCandidates(cycles, start, start + limits.requiredFaultCycles)
  }

  /** A long enough fault lies entirely after cycle number from. */
  ghost predicate FaultSince(limits: Limits, cycles: seq<Cycle>, from: nat) {
    exists s: nat :: from <= s <= |cycles| && FaultRun(limits, cycles, s)
  }

  /** Cycle number m (counting from one) earned readiness and nothing has taken it away since. */
  ghost predicate EarnedAt(limits: Limits, cycles: seq<Cycle>, m: nat) {
    1 <= m <= |cycles| && m >= limits.requiredHealthyCycles &&
    AllCandidates(cycles, m - limits.requiredHealthyCycles, m) &&
    ChainValid(cycles, m - 1, |cycles|) &&
    !FaultSince(limits, cycles, m)
  }

  ghost predicate Earned(limits: Limits, cycles: seq<Cycle>) {
    exists m: nat :: EarnedAt(limits, cycles, m)
  }

  predicate ChainBehindCandidates(cycles: seq<Cycle>) {
    forall i :: 0 <= i < |cycles| && cycles[i].candidate ==> cycles[i].sourceChainValid
  }

  function Latched(limits: Limits, cycles: seq<Cycle>): Latch {
    if cycles == [] then Latch(0, 0, false)
    else Counted(limits, Latched(limits, cycles[..|cycles| - 1]), cycles[|cycles| - 1])
  }

  /** The counters measure the current runs of good and of bad cycles. */
  lemma {:induction false} CountersMeasureRuns(limits: Limits, cycles: seq<Cycle>, k: nat)
    ensures k <= Latched(limits, cycles).healthyCycles <==>
            k <= |cycles| && AllCandidates(cycles, |cycles| - k, |cycles|)
    ensures k <= Latched(limits, cycles).faultCycles <==>
            k <= |cycles| && NoCandidates(cycles, |cycles| - k, |cycles|)
    decreases |cycles|
  {
    if cycles != [] && k > 0 {
      var earlier, last := cycles[..|cycles| - 1], cycles[|cycles| - 1];
      CountersMeasureRuns(limits, earlier, k - 1);
      assert forall i :: 0 <= i < |earlier| ==> cycles[i] == earlier[i];
    }
  }

  /** An earlier cycle's claim survives a cycle unless the chain broke or a fault just completed. */
  lemma EarnedLater(limits: Limits, cycles: seq<Cycle>, m: nat)
    requires cycles != [] && m < |cycles| && 0 < limits.requiredFaultCycles
    ensures var earlier := cycles[..|cycles| - 1];
            EarnedAt(limits, cycles, m) <==>
            EarnedAt(limits, earlier, m) && cycles[|cycles| - 1].sourceChainValid &&
            !(m + limits.requiredFaultCycles <= |cycles| &&
              NoCandidates(cycles, |cycles| - limits.requiredFaultCycles, |cycles|))
  {
    var earlier, last := cycles[..|cycles| - 1], cycles[|cycles| - 1];
    assert forall i :: 0 <= i < |earlier| ==> cycles[i] == earlier[i];
    if 1 <= m {
      FaultSinceLater(limits, cycles, m);
      assert ChainValid(cycles, m - 1, |cycles|) <==> ChainValid(earlier, m - 1, |earlier|) && last.sourceChainValid;
      assert AllCandidates(cycles, m - limits.requiredHealthyCycles, m) <==>
        AllCandidates(earlier, m - limits.requiredHealthyCycles, m);
    }
  }

  lemma FaultSinceLater(limits: Limits, cycles: seq<Cycle>, m: nat)
    requires cycles != [] && m < |cycles| && 0 < limits.requiredFaultCycles
    ensures var earlier := cycles[..|cycles| - 1];
            FaultSince(limits, cycles, m) <==>
            FaultSince(limits, earlier, m) ||
            (m + limits.requiredFaultCycles <= |cycles| &&
             NoCandidates(cycles, |cycles| - limits.requiredFaultCycles, |cycles|))
  {
    var earlier, f := cycles[..|cycles| - 1], limits.requiredFaultCycles;
    assert forall i :: 0 <= i < |earlier| ==> cycles[i] == earlier[i];
    forall s: nat
      ensures s + f <= |earlier| ==> (FaultRun(limits, cycles, s) <==> FaultRun(limits, earlier, s))
    {}
    if m + f <= |cycles| && NoCandidates(cycles, |cycles| - f, |cycles|) {
      assert FaultRun(limits, cycles, |cycles| - f);
    }
  }

  /** The latch is on exactly when some past cycle earned it and nothing has taken it away since. */
  lemma {:induction false} LatchCharacterised(limits: Limits, cycles: seq<Cycle>)
    requires limits.requiredHealthyCycles > 0 && limits.requiredFaultCycles > 0
    requires ChainBehindCandidates(cycles)
    ensures Latched(limits, cycles).readyLatched <==> Earned(limits, cycles)
    decreases |cycles|
  {
    hide FaultSince;
    if cycles == [] {
      assert forall m: nat :: !EarnedAt(limits, cycles, m);
    } else {
      var n, earlier := |cycles|, cycles[..|cycles| - 1];
      assert ChainBehindCandidates(earlier);
      LatchCharacterised(limits, earlier);
      CountersMeasureRuns(limits, cycles, limits.requiredHealthyCycles);
      CountersMeasureRuns(limits, cycles, limits.requiredFaultCycles);
      forall m: nat | m < n
        ensures EarnedAt(limits, cycles, m) <==>
                EarnedAt(limits, earlier, m) && cycles[n - 1].sourceChainValid &&
                Latched(limits, cycles).faultCycles < limits.requiredFaultCycles
      {
        EarnedLater(limits, cycles, m);
        if EarnedAt(limits, earlier, m) && limits.requiredFaultCycles <= Latched(limits, cycles).faultCycles {
          FaultAfterEarning(limits, earlier, cycles, m);
        }
      }
      EarnedNow(limits, cycles);
      assert forall m: nat :: EarnedAt(limits, cycles, m) ==> m <= n;
      assert forall m: nat :: EarnedAt(limits, earlier, m) ==> m < n;
      if Latched(limits, earlier).readyLatched {
        var m: nat :| EarnedAt(limits, earlier, m);
        assert EarnedAt(limits, cycles, m) <==>
          cycles[n - 1].sourceChainValid && Latched(limits, cycles).faultCycles < limits.requiredFaultCycles;
      }
    }
  }

  /** A fault run that ends now began after the cycle that earned readiness. */
  lemma FaultAfterEarning(limits: Limits, earlier: seq<Cycle>, cycles: seq<Cycle>, m: nat)
    requires limits.requiredHealthyCycles > 0 && limits.requiredFaultCycles > 0
    requires cycles != [] && earlier == cycles[..|cycles| - 1] && EarnedAt(limits, earlier, m)
    requires limits.requiredFaultCycles <= |cycles|
    requires NoCandidates(cycles, |cycles| - limits.requiredFaultCycles, |cycles|)
    ensures m + limits.requiredFaultCycles <= |cycles|
  {
    assert cycles[m - 1] == earlier[m - 1];
    assert earlier[m - 1].candidate;
  }

  lemma EarnedNow(limits: Limits, cycles: seq<Cycle>)
    requires cycles != [] && limits.requiredFaultCycles > 0
    ensures EarnedAt(limits, cycles, |cycles|) <==>
            limits.requiredHealthyCycles <= |cycles| &&
            AllCandidates(cycles, |cycles| - limits.requiredHealthyCycles, |cycles|) &&
            cycles[|cycles| - 1].sourceChainValid
  {}

  // ---------------------------------------------------------------- whole runs

  /** The scan transform is only ever found valid once a map has arrived, and maps are never dropped. */
  lemma {:induction false} ScanNeedsMap(limits: Limits, events: seq<Event>)
    ensures Run(limits, events).readings.scanTfValid ==> Run(limits, events).readings.grid.Some?
    decreases |events|
  {
    if events != [] {
      ScanNeedsMap(limits, events[..|events| - 1]);
    }
  }

  /** Hence in every run a candidate cycle has its whole source chain behind it. */
  lemma {:induction false} CandidatesHaveTheirChain(limits: Limits, events: seq<Event>)
    ensures ChainBehindCandidates(Cycles(limits, events))
    ensures Run(limits, events).latch == Latched(limits, Cycles(limits, events))
    decreases |events|
  {
    if events != [] {
      var earlier, last := events[..|events| - 1], events[|events| - 1];
      CandidatesHaveTheirChain(limits, earlier);
      ScanNeedsMap(limits, earlier);
      if last.Evaluated? {
        assert Cycles(limits, events)[..|Cycles(limits, events)| - 1] == Cycles(limits, earlier);
      }
    }
  }

  // ---------------------------------------------------------------- what a cycle sees, told by the messages

  datatype Kind = Maps | Odometry | Poses | Particles | Scans

  predicate Is(e: Event, kind: Kind) {
    match kind
    case Maps => e.MapReceived?
    case Odometry => e.OdomReceived?
    case Poses => e.AmclPoseReceived?
    case Particles => e.ParticlesReceived?
    case Scans => e.ScanReceived?
  }

  /** The last message of a kind. */
  function Latest(events: seq<Event>, kind: Kind): (k: Option<nat>)
    ensures k.None? ==> forall i :: 0 <= i < |events| ==> !Is(events[i], kind)
    ensures k.Some? ==> k.value < |events| && Is(events[k.value], kind)
    ensures k.Some? ==> forall i :: k.value < i < |events| ==> !Is(events[i], kind)
  {
    if events == [] then None
    else if Is(events[|events| - 1], kind) then Some(|events| - 1)
    else Latest(events[..|events| - 1], kind)
  }

  /** The beams that end somewhere, and those that end at or near an occupied cell of the map. */
  function EndedBeams(beams: seq<Beam>): set<nat> {
    set i | 0 <= i < |beams| && beams[i].Endpoint?
  }

  function MatchedBeams(limits: Limits, grid: Grid, beams: seq<Beam>): set<nat> {
    set i | 0 <= i < |beams| && beams[i].Endpoint? && OccupiedNear(grid, limits.matchRadius, beams[i].x, beams[i].y)
  }

  lemma {:induction false} BeamsCounted(limits: Limits, grid: Grid, beams: seq<Beam>)
    ensures Endpoints(beams) == |EndedBeams(beams)| && Hits(limits, grid, beams) == |MatchedBeams(limits, grid, beams)|
  {
    hide OccupiedNear;
    if beams != [] {
      var n := |beams| - 1;
      BeamsCounted(limits, grid, beams[..n]);
      assert EndedBeams(beams) == EndedBeams(beams[..n]) + if beams[n].Endpoint? then {n} else {};
      assert MatchedBeams(limits, grid, beams) ==
             MatchedBeams(limits, grid, beams[..n]) + if Matches(limits, grid, beams[n]) then {n} else {};
    }
  }

  /** The map a message finds. */
  function MapBefore(events: seq<Event>): Option<Grid> {
    var k := Latest(events, Maps);
    if k.None? then None else Some(events[k.value].received)
  }

  /** The last scan could be placed in a map. */
  predicate ScanPlaced(events: seq<Event>) {
    var k := Latest(events, Scans);
    k.Some? && events[k.value].framed && events[k.value].transformed && MapBefore(events[..k.value]).Some?
  }

  /** It has enough endpoints, and enough of them at or near occupied cells. */
  predicate ScanMatches(limits: Limits, events: seq<Event>) {
    ScanPlaced(events) &&
    var k := Latest(events, Scans).value;
    var grid, beams := MapBefore(events[..k]).value, events[k].beams;
    var ended, matched := |EndedBeams(beams)|, |MatchedBeams(limits, grid, beams)|;
    ended >= limits.minEndpointCount &&
    if ended == 0 then limits.minHitRatio <= 0.0 else matched as real >= limits.minHitRatio * ended as real
  }

  predicate Recent(limits: Limits, events: seq<Event>, kind: Kind, now: real)
    requires kind == Scans || kind == Odometry
  {
    var k := Latest(events, kind);
    k.Some? && 0.0 <= now - events[k.value].stamp <= limits.maxDataAge
  }

  predicate ParticlesGathered(limits: Limits, events: seq<Event>) {
    var k := Latest(events, Particles);
    k.Some? && events[k.value].count > 0 && events[k.value].count >= limits.minParticles &&
    events[k.value].spread <= limits.maxParticleSpread
  }

  /** What the readings hold after a run, but for the scan. */
  predicate Told(events: seq<Event>, r: Readings) {
    var odom, particles := Latest(events, Odometry), Latest(events, Particles);
    && r.grid == MapBefore(events)
    && (r.haveAmclPose <==> Latest(events, Poses).Some?)
    && (r.haveOdom <==> odom.Some?) && (odom.Some? ==> r.odomStamp == events[odom.value].stamp)
    && (r.haveParticles <==> particles.Some? && events[particles.value].count > 0)
    && (r.haveParticles ==>
          r.particleCount == events[particles.value].count && r.particleSpread == Finite(events[particles.value].spread))
  }

  /** And what they hold of the scan. */
  predicate ScanTold(limits: Limits, events: seq<Event>, r: Readings) {
    var scan := Latest(events, Scans);
    && (r.haveScan <==> scan.Some?) && (scan.Some? ==> r.scanStamp == events[scan.value].stamp)
    && (r.scanTfValid <==> ScanPlaced(events))
    && (r.scanTfValid ==>
          && r.endpointCount == Endpoints(events[scan.value].beams)
          && r.hitRatio == HitRatio(limits, MapBefore(events[..scan.value]).value, events[scan.value].beams))
  }

  lemma LatestStep(events: seq<Event>, kind: Kind)
    requires events != []
    ensures var n := |events| - 1;
            Latest(events, kind) == if Is(events[n], kind) then Some(n) else Latest(events[..n], kind)
  {}

  lemma ToldStep(limits: Limits, events: seq<Event>, r: Readings)
    requires events != [] && Told(events[..|events| - 1], r)
    ensures var e := events[|events| - 1];
            if e.Evaluated? then Told(events, r) else Told(events, Received(limits, r, e))
  {
    hide Latest, HitRatio, Endpoints;
    LatestStep(events, Maps);
    LatestStep(events, Odometry);
    LatestStep(events, Poses);
    LatestStep(events, Particles);
    match events[|events| - 1]
    case MapReceived(_) =>
    case OdomReceived(_) =>
    case AmclPoseReceived =>
    case ParticlesReceived(_, _) =>
    case ScanReceived(_, _, _, _) =>
    case Evaluated(_) =>
  }

  lemma ScanToldStep(limits: Limits, events: seq<Event>, r: Readings)
    requires events != [] && Told(events[..|events| - 1], r) && ScanTold(limits, events[..|events| - 1], r)
    ensures var e := events[|events| - 1];
            if e.Evaluated? then ScanTold(limits, events, r) else ScanTold(limits, events, Received(limits, r, e))
  {
    hide Latest, HitRatio, Endpoints;
    LatestStep(events, Scans);
    var scan := Latest(events[..|events| - 1], Scans);
    if scan.Some? {
      assert events[..|events| - 1][..scan.value] == events[..scan.value];
    }
  }

  lemma {:induction false} ReadingsAreTold(limits: Limits, events: seq<Event>)
    ensures Told(events, Run(limits, events).readings) && ScanTold(limits, events, Run(limits, events).readings)
    decreases |events|
  {
    if events != [] {
      hide Told, ScanTold, Received, Counted, Observe;
      var earlier := events[..|events| - 1];
      ReadingsAreTold(limits, earlier);
      ToldStep(limits, events, Run(limits, earlier).readings);
      ScanToldStep(limits, events, Run(limits, earlier).readings);
    }
  }

  /**
   In every run a cycle is good if and only if a pose, a map and particles enough and close enough have come, the
   last odometry and the last scan are recent, and that scan was placed in the map with enough endpoints, and
   enough of them at occupied cells. Its source chain is valid when all but the counts are right.
   */
  lemma CyclesMean(limits: Limits, events: seq<Event>, now: real)
    ensures var c := Observe(limits, Run(limits, events).readings, now);
            && (c.sourceChainValid <==>
                  Latest(events, Poses).Some? && Recent(limits, events, Scans, now) &&
                  Recent(limits, events, Odometry, now) && ScanPlaced(events))
            && (c.candidate <==>
                  c.sourceChainValid && ScanMatches(limits, events) && ParticlesGathered(limits, events))
  {
    hide Run, Endpoints, Hits;
    ReadingsAreTold(limits, events);
    ScanNeedsMap(limits, events);
    var k := Latest(events, Scans);
    if ScanPlaced(events) {
      var grid, beams := MapBefore(events[..k.value]).value, events[k.value].beams;
      BeamsCounted(limits, grid, beams);
      if Endpoints(beams) > 0 {
        RatioCompares(Hits(limits, grid, beams), Endpoints(beams), limits.minHitRatio);
      }
    }
  }

  lemma RatioCompares(hits: nat, endpoints: nat, ratio: real)
    requires endpoints > 0
    ensures hits as real / endpoints as real >= ratio <==> hits as real >= ratio * endpoints as real
  {
    var q := hits as real / endpoints as real;
    assert q * endpoints as real == hits as real;
    if q >= ratio {
      assert (q - ratio) * endpoints as real >= 0.0;
    } else {
      assert (ratio - q) * endpoints as real > 0.0;
    }
  }

  /** A scan that matches the map nowhere never leads to a good cycle, if any match is asked for. */
  lemma LostMeansNotGood(limits: Limits, events: seq<Event>, now: real)
    requires limits.minHitRatio > 0.0 && ScanPlaced(events)
    requires var k := Latest(events, Scans).value;
             MatchedBeams(limits, MapBefore(events[..k]).value, events[k].beams) == {}
    ensures !Observe(limits, Run(limits, events).readings, now).candidate
  {
    hide Run, MatchedBeams, EndedBeams, Observe;
    CyclesMean(limits, events, now);
    var ended := |EndedBeams(events[Latest(events, Scans).value].beams)|;
    assert ended > 0 ==> limits.minHitRatio * ended as real > 0.0;
  }

  /** After any run, ready says exactly that readiness was earned and not lost since. */
  lemma ReadyMeansEarned(limits: Limits, events: seq<Event>)
    requires limits.requiredHealthyCycles > 0 && limits.requiredFaultCycles > 0
    ensures Run(limits, events).latch.readyLatched <==> Earned(limits, Cycles(limits, events))
  {
    hide Earned, Run, Cycles;
    CandidatesHaveTheirChain(limits, events);
    LatchCharacterised(limits, Cycles(limits, events));
  }

  // ---------------------------------------------------------------- the settings ready needs

  function Repeat<T>(x: T, k: nat): seq<T> {
    if k == 0 then [] else Repeat(x, k - 1) + [x]
  }

  lemma {:induction false} RepeatOnly<T>(x: T, k: nat)
    ensures |Repeat(x, k)| == k && forall i :: 0 <= i < k ==> Repeat(x, k)[i] == x
    ensures k > 0 ==> Repeat(x, k)[..k - 1] == Repeat(x, k - 1)
  {
    if k > 0 {
      RepeatOnly(x, k - 1);
    }
  }

  lemma {:induction false} SteadyGood(limits: Limits, k: nat)
    ensures var l := Latched(limits, Repeat(Cycle(true, true), k));
            l.healthyCycles == k &&
            (k < limits.requiredHealthyCycles ==> !l.readyLatched) &&
            (k > 0 && (k == limits.requiredHealthyCycles || k == 1 >= limits.requiredHealthyCycles) ==> l.readyLatched)
  {
    RepeatOnly(Cycle(true, true), k);
    if k > 0 {
      SteadyGood(limits, k - 1);
    }
  }

  lemma {:induction false} SteadyBad(limits: Limits, k: nat)
    requires limits.requiredHealthyCycles <= 0 < limits.requiredFaultCycles
    ensures var l := Latched(limits, Repeat(Cycle(false, true), k));
            l.faultCycles == k && l.healthyCycles == 0 &&
            (k == 1 || 0 < k < limits.requiredFaultCycles ==> l.readyLatched) &&
            (k == limits.requiredFaultCycles > 1 || k == 2 > limits.requiredFaultCycles ==> !l.readyLatched)
  {
    RepeatOnly(Cycle(false, true), k);
    if k > 0 {
      SteadyBad(limits, k - 1);
    }
  }

  /** Without a positive fault threshold nothing counts as earned, however the latch stands. */
  lemma NothingEarned(limits: Limits, cycles: seq<Cycle>)
    requires limits.requiredFaultCycles <= 0
    ensures !Earned(limits, cycles)
  {
    forall m: nat
      ensures !EarnedAt(limits, cycles, m)
    {
      if m <= |cycles| {
        assert FaultRun(limits, cycles, m);
      }
    }
  }

  /** Good cycles can be seen at all. */
  predicate GoodIsPossible(limits: Limits) {
    limits.maxDataAge >= 0.0 && limits.minHitRatio <= 1.0 && limits.maxParticleSpread >= 0.0
  }

  /** The other limits let no cycle through that the thresholds would misjudge. */
  predicate Harmless(limits: Limits) {
    limits.maxDataAge < 0.0 || (limits.requiredHealthyCycles > 0 && !GoodIsPossible(limits))
  }

  ghost predicate ReadyIsEarned(limits: Limits) {
    forall events :: Run(limits, events).latch.readyLatched <==> Earned(limits, Cycles(limits, events))
  }

  /** A match ratio is never above one, and a spread never below zero. */
  lemma {:induction false} ReadingsInRange(limits: Limits, events: seq<Event>)
    ensures var r := Run(limits, events).readings;
            r.hitRatio <= 1.0 && (r.particleSpread.Finite? ==> r.particleSpread.metres >= 0.0)
    decreases |events|
  {
    if events != [] {
      ReadingsInRange(limits, events[..|events| - 1]);
      var e := events[|events| - 1];
      if e.ScanReceived? && Endpoints(e.beams) > 0 {
        var before := Run(limits, events[..|events| - 1]).readings;
        if before.grid.Some? {
          RatioInRange(Hits(limits, before.grid.value, e.beams), Endpoints(e.beams));
        }
      }
    }
  }

  lemma RatioInRange(hits: nat, endpoints: nat)
    requires hits <= endpoints && endpoints > 0
    ensures hits as real / endpoints as real <= 1.0 && (hits == endpoints ==> hits as real / endpoints as real == 1.0)
  {}

  /** What the limits keep out of every run. */
  lemma {:induction false} HarmlessCycles(limits: Limits, events: seq<Event>, i: nat)
    requires i < |Cycles(limits, events)|
    ensures limits.maxDataAge < 0.0 ==> !Cycles(limits, events)[i].sourceChainValid
    ensures !GoodIsPossible(limits) ==> !Cycles(limits, events)[i].candidate
    decreases |events|
  {
    var earlier, last := events[..|events| - 1], events[|events| - 1];
    ReadingsInRange(limits, earlier);
    if i < |Cycles(limits, earlier)| {
      HarmlessCycles(limits, earlier, i);
    }
  }

  lemma {:induction false} NeverReady(limits: Limits, cycles: seq<Cycle>)
    requires
      || (forall i :: 0 <= i < |cycles| ==> !cycles[i].sourceChainValid)
      || (limits.requiredHealthyCycles > 0 && forall i :: 0 <= i < |cycles| ==> !cycles[i].candidate)
    ensures !Latched(limits, cycles).readyLatched
    ensures limits.requiredHealthyCycles > 0 && NoCandidates(cycles, 0, |cycles|) ==> Latched(limits, cycles).healthyCycles == 0
    decreases |cycles|
  {
    if cycles != [] {
      NeverReady(limits, cycles[..|cycles| - 1]);
    }
  }

  lemma HarmlessNeverEarned(limits: Limits, cycles: seq<Cycle>)
    requires
      || (forall i :: 0 <= i < |cycles| ==> !cycles[i].sourceChainValid)
      || (limits.requiredHealthyCycles > 0 && forall i :: 0 <= i < |cycles| ==> !cycles[i].candidate)
    ensures !Earned(limits, cycles)
  {
    forall m: nat
      ensures !EarnedAt(limits, cycles, m)
    {
      if 1 <= m <= |cycles| {
        assert !cycles[m - 1].sourceChainValid || !cycles[m - 1].candidate;
      }
    }
  }

  /** Evaluating again and again without new messages sees the same cycle each time. */
  lemma {:induction false} Watching(limits: Limits, messages: seq<Event>, k: nat)
    requires Cycles(limits, messages) == []
    ensures var events := messages + Repeat(Evaluated(0.0), k);
            && Run(limits, events).readings == Run(limits, messages).readings
            && Cycles(limits, events) == Repeat(Observe(limits, Run(limits, messages).readings, 0.0), k)
  {
    hide Observe, Received, Counted;
    var again: seq<Event> := Repeat(Evaluated(0.0), k);
    if k == 0 {
      assert messages + again == messages;
    } else {
      Watching(limits, messages, k - 1);
      var events := messages + again;
      assert events[..|events| - 1] == messages + Repeat(Evaluated(0.0), k - 1);
      assert events[|events| - 1] == Evaluated(0.0);
    }
  }

  /** Messages after which the vehicle is placed, but without particles to trust. */
  const GRID := Grid(1.0, 0.0, 0.0, 1, 1, [100])
  const PLACED: seq<Event> := [MapReceived(GRID), AmclPoseReceived, OdomReceived(0.0), ScanReceived(0.0, true, true, [])]

  lemma PlacedReadings(limits: Limits)
    ensures Cycles(limits, PLACED) == []
    ensures Run(limits, PLACED).readings ==
            Readings(Some(GRID), true, true, 0.0, true, 0, 0.0, true, 0.0, false, 0, Infinite)
  {
    hide Run, Cycles, Latest, Hits, GRID;
    var one: seq<Event> := [MapReceived(GRID)];
    var two := one + [AmclPoseReceived];
    var three := two + [OdomReceived(0.0)];
    RunOn(limits, [], MapReceived(GRID));
    assert [] + one == one;
    RunOn(limits, one, AmclPoseReceived);
    RunOn(limits, two, OdomReceived(0.0));
    RunOn(limits, three, ScanReceived(0.0, true, true, []));
    assert three + [ScanReceived(0.0, true, true, [])] == PLACED;
  }

  lemma PlacedIsBad(limits: Limits)
    requires limits.maxDataAge >= 0.0
    ensures Cycles(limits, PLACED) == [] && Observe(limits, Run(limits, PLACED).readings, 0.0) == Cycle(false, true)
  {
    hide Run;
    PlacedReadings(limits);
  }

  lemma RunOn(limits: Limits, events: seq<Event>, e: Event)
    requires !e.Evaluated?
    ensures Run(limits, events + [e]) == After(limits, Run(limits, events), e)
    ensures Cycles(limits, events + [e]) == Cycles(limits, events) && Cycles(limits, []) == [] && Run(limits, []) == START
  {
    assert (events + [e])[..|events|] == events;
  }

  lemma {:induction false} AllHit(limits: Limits, k: nat)
    ensures var beams := Repeat(Endpoint(0.0, 0.0), k);
            Endpoints(beams) == k == Hits(limits, GRID, beams)
  {
    if k > 0 {
      AllHit(limits, k - 1);
      RepeatOnly(Endpoint(0.0, 0.0), k);
      CornerMatches(limits);
    }
  }

  lemma CornerMatches(limits: Limits)
    ensures Matches(limits, GRID, Endpoint(0.0, 0.0))
  {
    assert Truncated((0.0 - GRID.originX) / GRID.resolution) == 0 == Truncated((0.0 - GRID.originY) / GRID.resolution);
    assert Occupied(GRID, 0, 0);
  }

  /** Enough particles close together, and then a scan that matches everywhere. */
  lemma GoodCycle(limits: Limits, r: Readings, particles: nat, k: nat)
    requires GoodIsPossible(limits) && particles > 0 && k > 0
    requires limits.minParticles <= particles && limits.minEndpointCount <= k
    requires r.grid == Some(GRID) && r.haveAmclPose && r.haveOdom && r.odomStamp == 0.0
    ensures var counted := Received(limits, r, ParticlesReceived(particles, 0.0));
            var scanned := Received(limits, counted, ScanReceived(0.0, true, true, Repeat(Endpoint(0.0, 0.0), k)));
            Observe(limits, scanned, 0.0) == Cycle(true, true)
  {
    AllHit(limits, k);
    RatioInRange(k, k);
    hide Hits, Endpoints, Repeat;
  }

  /** Settings under which good cycles are possible have them. */
  lemma GoodHappens(limits: Limits) returns (messages: seq<Event>)
    requires GoodIsPossible(limits)
    ensures Cycles(limits, messages) == [] && Observe(limits, Run(limits, messages).readings, 0.0) == Cycle(true, true)
  {
    hide Run, Cycles, PLACED, GRID, Repeat, Received, Observe, GoodIsPossible;
    var particles := if limits.minParticles < 1 then 1 else limits.minParticles;
    var k := if limits.minEndpointCount < 1 then 1 else limits.minEndpointCount;
    var enough := ParticlesReceived(particles, 0.0);
    var matched := ScanReceived(0.0, true, true, Repeat(Endpoint(0.0, 0.0), k));
    PlacedReadings(limits);
    RunOn(limits, PLACED, enough);
    RunOn(limits, PLACED + [enough], matched);
    GoodCycle(limits, Run(limits, PLACED).readings, particles, k);
    messages := PLACED + [enough] + [matched];
  }

  /** Settings that are neither positive nor harmless break the meaning of ready on some run. */
  lemma ThresholdBreaksReady(limits: Limits) returns (events: seq<Event>)
    requires limits.requiredHealthyCycles <= 0 || limits.requiredFaultCycles <= 0
    requires !Harmless(limits)
    ensures Run(limits, events).latch.readyLatched <==> !Earned(limits, Cycles(limits, events))
  {
    hide Run, Observe, Cycles, Earned, EarnedAt;
    if limits.requiredFaultCycles <= 0 < limits.requiredHealthyCycles {
      var messages := GoodHappens(limits);
      var k := limits.requiredHealthyCycles;
      events := messages + Repeat(Evaluated(0.0), k);
      Watching(limits, messages, k);
      SteadyGood(limits, k);
      NothingEarned(limits, Cycles(limits, events));
    } else {
      var k :=
        if limits.requiredFaultCycles <= 0 then 1
        else if limits.requiredFaultCycles <= 2 then 2 else limits.requiredFaultCycles;
      events := PLACED + Repeat(Evaluated(0.0), k);
      PlacedIsBad(limits);
      Watching(limits, PLACED, k);
      BadMisjudged(limits, k);
    }
    CandidatesHaveTheirChain(limits, events);
  }

  lemma BadMisjudged(limits: Limits, k: nat)
    requires limits.requiredHealthyCycles <= 0
    requires k == if limits.requiredFaultCycles <= 0 then 1
                  else if limits.requiredFaultCycles <= 2 then 2 else limits.requiredFaultCycles
    ensures var cycles := Repeat(Cycle(false, true), k);
            Latched(limits, cycles).readyLatched <==> !Earned(limits, cycles)
  {
    var cycles := Repeat(Cycle(false, true), k);
    RepeatOnly(Cycle(false, true), k);
    if limits.requiredFaultCycles <= 0 {
      NothingEarned(limits, cycles);
      assert cycles == [Cycle(false, true)];
    } else {
      SteadyBad(limits, k);
      EarnedNow(limits, cycles);
      assert EarnedAt(limits, cycles, k);
    }
  }

  /** Ready means earned in every run exactly when both thresholds are positive or the other limits make them harmless. */
  lemma ReadyIsEarnedExactly(limits: Limits)
    ensures ReadyIsEarned(limits) <==>
            (limits.requiredHealthyCycles > 0 && limits.requiredFaultCycles > 0) || Harmless(limits)
  {
    hide Earned, Latched, Run, Cycles;
    if limits.requiredHealthyCycles > 0 && limits.requiredFaultCycles > 0 {
      forall events
        ensures Run(limits, events).latch.readyLatched <==> Earned(limits, Cycles(limits, events))
      {
        ReadyMeansEarned(limits, events);
      }
    } else if Harmless(limits) {
      forall events
        ensures Run(limits, events).latch.readyLatched <==> Earned(limits, Cycles(limits, events))
      {
        var cycles := Cycles(limits, events);
        CandidatesHaveTheirChain(limits, events);
        forall i | 0 <= i < |cycles|
          ensures limits.maxDataAge < 0.0 ==> !cycles[i].sourceChainValid
          ensures !GoodIsPossible(limits) ==> !cycles[i].candidate
        {
          HarmlessCycles(limits, events, i);
        }
        NeverReady(limits, cycles);
        HarmlessNeverEarned(limits, cycles);
      }
    } else {
      var events := ThresholdBreaksReady(limits);
    }
  }

  // ---------------------------------------------------------------- the node

  class LocalizationMonitor {
    const limits: Limits
    var grid: Option<Grid>
    var haveScan: bool
    var haveOdom: bool
    var haveAmclPose: bool
    var haveParticles: bool
    var lastScanStamp: real
    var lastOdomStamp: real
    var lastScanTfValid: bool
    var lastEndpointCount: nat
    var lastHitRatio: real
    var particleCount: nat
    var particleSpread: Spread
    var healthyCycles: nat
    var faultCycles: nat
    var readyLatched: bool

    function Value(): State
      reads this
    {
      State(
        Readings(grid, haveAmclPose, haveScan, lastScanStamp, lastScanTfValid, lastEndpointCount, lastHitRatio,
                 haveOdom, lastOdomStamp, haveParticles, particleCount, particleSpread),
        Latch(healthyCycles, faultCycles, readyLatched))
    }

    constructor (limits: Limits)
      ensures this.limits == limits && Value() == START
    {
      this.limits := limits;
      grid, haveScan, haveOdom, haveAmclPose, haveParticles := None, false, false, false, false;
      lastScanStamp, lastOdomStamp, lastScanTfValid, lastEndpointCount, lastHitRatio := 0.0, 0.0, false, 0, 0.0;
      particleCount, particleSpread := 0, Infinite;
      healthyCycles, faultCycles, readyLatched := 0, 0, false;
    }

    method OnMap(received: Grid)
      modifies this
      ensures Value() == After(limits, old(Value()), MapReceived(received))
    {
      grid := Some(received);
    }

    method OnOdom(stamp: real)
      modifies this
      ensures Value() == After(limits, old(Value()), OdomReceived(stamp))
    {
      haveOdom := true;
      lastOdomStamp := stamp;
    }

    method OnAmclPose()
      modifies this
      ensures Value() == After(limits, old(Value()), AmclPoseReceived)
    {
      haveAmclPose := true;
    }

    method OnParticles(count: nat, spread: Deviation)
      modifies this
      ensures Value() == After(limits, old(Value()), ParticlesReceived(count, spread))
    {
      particleCount := count;
      if count == 0 {
        particleSpread := Infinite;
        haveParticles := false;
        return;
      }
      particleSpread := Finite(spread);
      haveParticles := true;
    }

    /** Counts the endpoints in place and returns how many of them match the map. */
    method ScoreBeams(beams: seq<Beam>) returns (hits: nat)
      requires lastEndpointCount == 0 && grid.Some?
      modifies `lastEndpointCount
      ensures lastEndpointCount == Endpoints(beams) && hits == Hits(limits, grid.value, beams)
    {
      hits := 0;
      var i := 0;
      while i < |beams|
        invariant 0 <= i <= |beams|
        invariant lastEndpointCount == Endpoints(beams[..i]) && hits == Hits(limits, grid.value, beams[..i])
      {
        assert beams[..i + 1][..|beams[..i + 1]| - 1] == beams[..i];
        if beams[i].Endpoint? {
          lastEndpointCount := lastEndpointCount + 1;
          var hit := FindOccupied(grid.value, limits.matchRadius, beams[i].x, beams[i].y);
          if hit {
            hits := hits + 1;
          }
        }
        i := i + 1;
      }
      assert beams[..i] == beams;
    }

    method OnScan(stamp: real, framed: bool, transformed: bool, beams: seq<Beam>)
      modifies this
      ensures Value() == After(limits, old(Value()), ScanReceived(stamp, framed, transformed, beams))
    {
      haveScan := true;
      lastScanStamp := stamp;
      lastScanTfValid := false;
      lastEndpointCount := 0;
      lastHitRatio := 0.0;
      if grid.None? || !framed || !transformed {
        return;
      }
      var hits := ScoreBeams(beams);
      if lastEndpointCount > 0 {
        lastHitRatio := hits as real / lastEndpointCount as real;
      }
      lastScanTfValid := true;
    }

    /** One timer cycle, returning what is published on the ready, fault and recovery topics. */
    method Evaluate(now: real) returns (ready: bool, fault: bool, recoveryAllowed: bool)
      modifies `healthyCycles, `faultCycles, `readyLatched
      ensures Value() == After(limits, old(Value()), Evaluated(now))
      ensures ready == readyLatched && fault == !readyLatched
      ensures recoveryAllowed == Observe(limits, old(Value()).readings, now).sourceChainValid
      ensures ready ==> recoveryAllowed
    {
      var scanFresh := Fresh(haveScan, now - lastScanStamp, limits);
      var odomFresh := Fresh(haveOdom, now - lastOdomStamp, limits);
      var mapAlignment := lastScanTfValid &&
        lastEndpointCount >= limits.minEndpointCount && lastHitRatio >= limits.minHitRatio;
      var particleOk := haveParticles && particleCount >= limits.minParticles &&
        particleSpread.Finite? && particleSpread.metres <= limits.maxParticleSpread;
      hide Fresh;
      ghost var seen := Observe(limits, Value().readings, now);
      var candidate := haveAmclPose && scanFresh && odomFresh && mapAlignment && particleOk;
      var sourceChainValid := haveAmclPose && grid.Some? && scanFresh && odomFresh && lastScanTfValid;
      assert seen == Cycle(candidate, sourceChainValid);
      hide Observe;
      if candidate {
        healthyCycles := healthyCycles + 1;
        faultCycles := 0;
      } else {
        healthyCycles := 0;
        faultCycles := faultCycles + 1;
      }
      if !sourceChainValid {
        readyLatched := false;
      } else if !readyLatched && healthyCycles >= limits.requiredHealthyCycles {
        readyLatched := true;
      } else if readyLatched && faultCycles >= limits.requiredFaultCycles {
        readyLatched := false;
      }
      ready, fault, recoveryAllowed := readyLatched, !readyLatched, sourceChainValid;
    }
  }
}
