/**
 Mecanum kinematics of the base: body commands to wheel targets by motor port, and encoder counts by
 motor port back to body motion. Arithmetic is exact; pi is a positive parameter.
 */
module MecanumKinematics {
  datatype Result<T> = Ok(value: T) | ValueError

  const WHEEL_NAMES: seq<string> := ["left_front", "right_front", "left_rear", "right_rear"]

  function Min(x: real, y: real): real {
    if y < x then y else x
  }

  function Max(x: real, y: real): real {
    if y > x then y else x
  }

  function Clamp(value: real, lower: real, upper: real): real {
    Max(lower, Min(upper, value))
  }

  function Abs(x: real): real {
    if x < 0.0 then -x else x
  }

  /** A dictionary from keys to values in order; a later entry replaces an earlier one. */
  function Dict(keys: seq<string>, values: seq<real>): (m: map<string, real>)
    requires |keys| == |values|
    ensures forall key :: key in m <==> key in keys
  {
    if keys == [] then map[]
    else
      var last := |keys| - 1;
      assert keys == keys[..last] + [keys[last]];
      Dict(keys[..last], values[..last])[keys[last] := values[last]]
  }

  function SetOf(names: seq<string>): set<string> {
    set name | name in names
  }

  /** Every wheel is wired to exactly one of the four ports. */
  predicate GoodPorts(ports: seq<string>) {
    |ports| == 4 && SetOf(ports) == SetOf(WHEEL_NAMES)
  }

  // ---------------------------------------------------------------- commands to targets

  /** The body command relative to full scale. */
  datatype Body = Body(forward: real, left: real, turn: real)

  function Clamped(x: real, y: real, z: real, linearFull: real, angularFull: real): Body
    requires linearFull > 0.0 && angularFull > 0.0
  {
    Body(Clamp(x / linearFull, -1.0, 1.0), Clamp(y / linearFull, -1.0, 1.0), Clamp(z / angularFull, -1.0, 1.0))
  }

  /** The motion of the wheels, in the order of their names. */
  function WheelMotion(b: Body): (w: seq<real>)
    ensures |w| == 4
  {
    [b.forward - b.left - b.turn, b.forward + b.left + b.turn, b.forward + b.left - b.turn, b.forward - b.left + b.turn]
  }

  function Scale(w: seq<real>): (s: real)
    requires |w| == 4
    ensures s >= 1.0 && forall i :: 0 <= i < 4 ==> -s <= w[i] <= s
  {
    Max(1.0, Max(Abs(w[0]), Max(Abs(w[1]), Max(Abs(w[2]), Abs(w[3])))))
  }

  function Share(full: real, value: real, scale: real): real
    requires scale > 0.0
  {
    full * value / scale
  }

  function ByPort(ports: seq<string>, wheels: map<string, real>): (r: seq<real>)
    requires forall i :: 0 <= i < |ports| ==> ports[i] in wheels
    ensures |r| == |ports| && forall i :: 0 <= i < |ports| ==> r[i] == wheels[ports[i]]
  {
    if ports == [] then [] else ByPort(ports[..|ports| - 1], wheels) + [wheels[ports[|ports| - 1]]]
  }

  function Scaled(full: real, values: seq<real>, scale: real): (r: seq<real>)
    requires scale > 0.0
    ensures |r| == |values| && forall i :: 0 <= i < |values| ==> r[i] == Share(full, values[i], scale)
  {
    if values == [] then []
    else Scaled(full, values[..|values| - 1], scale) + [Share(full, values[|values| - 1], scale)]
  }

  function PortTargets(x: real, y: real, z: real, full: real, linearFull: real, angularFull: real, ports: seq<string>):
      Result<seq<real>>
  {
    if !GoodPorts(ports) then ValueError
    else if full <= 0.0 then ValueError
    else if linearFull <= 0.0 || angularFull <= 0.0 then ValueError
    else
      var motion := WheelMotion(Clamped(x, y, z, linearFull, angularFull));
      PortsAreWheels(ports);
      Ok(Scaled(full, ByPort(ports, Dict(WHEEL_NAMES, motion)), Scale(motion)))
  }

  lemma PortsAreWheels(ports: seq<string>)
    requires GoodPorts(ports)
    ensures forall i :: 0 <= i < 4 ==> ports[i] in WHEEL_NAMES
  {
    forall i | 0 <= i < 4
      ensures ports[i] in WHEEL_NAMES
    {
      assert ports[i] in SetOf(ports);
    }
  }

  // ---------------------------------------------------------------- counts to motion

  datatype Calibration = Calibration(
    diameter: real, wheelbase: real, track: real, countsPerRevolution: seq<real>, signs: seq<int>, ports: seq<string>)

  predicate GoodCalibration(c: Calibration) {
    && c.diameter > 0.0 && c.wheelbase > 0.0 && c.track > 0.0
    && |c.countsPerRevolution| == 4 && (forall i :: 0 <= i < 4 ==> c.countsPerRevolution[i] > 0.0)
    && |c.signs| == 4 && (forall i :: 0 <= i < 4 ==> c.signs[i] == -1 || c.signs[i] == 1)
    && GoodPorts(c.ports)
  }

  function Travel(delta: real, sign: int, count: real, circumference: real): real
    requires count > 0.0
  {
    delta * sign as real / count * circumference
  }

  function Travels(deltas: seq<real>, c: Calibration, circumference: real, n: nat): (r: seq<real>)
    requires |deltas| == 4 && GoodCalibration(c) && n <= 4
    ensures |r| == n
    ensures forall i :: 0 <= i < n ==> r[i] == Travel(deltas[i], c.signs[i], c.countsPerRevolution[i], circumference)
  {
    if n == 0 then []
    else Travels(deltas, c, circumference, n - 1) +
         [Travel(deltas[n - 1], c.signs[n - 1], c.countsPerRevolution[n - 1], circumference)]
  }

  function Circumference(c: Calibration, pi: real): real {
    pi * c.diameter
  }

  function Lever(c: Calibration): real {
    (c.wheelbase + c.track) * 0.5
  }

  /** Body-frame motion from the travel of the wheels: forward, left and counter-clockwise. */
  function Mixed(lf: real, rf: real, lr: real, rr: real, lever: real): (real, real, real)
    requires lever > 0.0
  {
    ((lf + rf + lr + rr) * 0.25, (-lf + rf + lr - rr) * 0.25, (-lf + rf - lr + rr) / (4.0 * lever))
  }

  function BodyDelta(deltas: seq<real>, c: Calibration, pi: real): Result<(real, real, real)> {
    if |deltas| != 4 || !GoodCalibration(c) then ValueError
    else
      WiringCovers(c.ports);
      var t := Dict(c.ports, Travels(deltas, c, Circumference(c, pi), 4));
      Ok(Mixed(t[WHEEL_NAMES[0]], t[WHEEL_NAMES[1]], t[WHEEL_NAMES[2]], t[WHEEL_NAMES[3]], Lever(c)))
  }

  lemma WiringCovers(ports: seq<string>)
    requires GoodPorts(ports)
    ensures forall i :: 0 <= i < 4 ==> WHEEL_NAMES[i] in ports
  {
    forall i | 0 <= i < 4
      ensures WHEEL_NAMES[i] in ports
    {
      assert WHEEL_NAMES[i] in SetOf(WHEEL_NAMES);
    }
  }

  // ---------------------------------------------------------------- the wiring is a permutation

  lemma SizeOfFour(s: seq<string>)
    requires |s| == 4
    ensures SetOf(s) == {s[0], s[1], s[2], s[3]}
  {
    assert s == [s[0], s[1], s[2], s[3]];
  }

  lemma AtMostThree(a: string, b: string, c: string)
    ensures |{a, b, c}| <= 3
  {
    assert {a, b, c} == {a, b} + {c} && {a, b} == {a} + {b};
  }

  lemma NamesAreFour()
    ensures |SetOf(WHEEL_NAMES)| == 4
  {
    SizeOfFour(WHEEL_NAMES);
    assert WHEEL_NAMES[0][0] == 'l' && WHEEL_NAMES[1][0] == 'r' && WHEEL_NAMES[2][0] == 'l' && WHEEL_NAMES[3][0] == 'r';
    assert WHEEL_NAMES[0][5] == 'f' && WHEEL_NAMES[2][5] == 'r';
    assert WHEEL_NAMES[1][6] == 'f' && WHEEL_NAMES[3][6] == 'r';
    assert |{WHEEL_NAMES[0], WHEEL_NAMES[1], WHEEL_NAMES[2], WHEEL_NAMES[3]}| == 4;
  }

  /** A repeated name leaves at most three. */
  lemma RepeatsAreFewer(s: seq<string>, i: nat, j: nat)
    requires |s| == 4 && i < j < 4 && s[i] == s[j]
    ensures |SetOf(s)| <= 3
  {
    SizeOfFour(s);
    var a, b, c := s[0], s[if j == 1 then 2 else 1], s[if j == 3 then 2 else 3];
    assert SetOf(s) == {a, b, c};
    AtMostThree(a, b, c);
  }

  lemma PortsDistinct(ports: seq<string>, i: nat, j: nat)
    requires GoodPorts(ports) && i < j < 4
    ensures ports[i] != ports[j]
  {
    NamesAreFour();
    if ports[i] == ports[j] {
      RepeatsAreFewer(ports, i, j);
      assert false;
    }
  }

  lemma {:induction false} DictAt(keys: seq<string>, values: seq<real>, i: nat)
    requires |keys| == |values| && i < |keys|
    requires forall j :: i < j < |keys| ==> keys[j] != keys[i]
    ensures Dict(keys, values)[keys[i]] == values[i]
    decreases |keys|
  {
    if i < |keys| - 1 {
      DictAt(keys[..|keys| - 1], values[..|keys| - 1], i);
    }
  }

  lemma NamesDistinct(i: nat, j: nat)
    requires i < j < 4
    ensures WHEEL_NAMES[i] != WHEEL_NAMES[j]
  {
    PortsDistinct(WHEEL_NAMES, i, j);
  }

  /** The port of each wheel. */
  lemma PortOfWheel(ports: seq<string>, w: nat) returns (p: nat)
    requires GoodPorts(ports) && w < 4
    ensures p < 4 && ports[p] == WHEEL_NAMES[w]
  {
    WiringCovers(ports);
    p :| p < 4 && ports[p] == WHEEL_NAMES[w];
  }

  /** A wiring is good exactly when it names four ports and every wheel is among them. */
  lemma GoodPortsExactly(ports: seq<string>)
    ensures GoodPorts(ports) <==>
            && |ports| == 4 && "left_front" in ports && "right_front" in ports && "left_rear" in ports && "right_rear" in ports
  {
    if GoodPorts(ports) {
      WiringCovers(ports);
      assert WHEEL_NAMES[0] in ports && WHEEL_NAMES[1] in ports && WHEEL_NAMES[2] in ports && WHEEL_NAMES[3] in ports;
    } else if |ports| == 4 && (forall w :: 0 <= w < 4 ==> WHEEL_NAMES[w] in ports) {
      AllFourCover(ports);
    }
  }

  /** Four names among which every wheel is are the wheels' names. */
  lemma AllFourCover(ports: seq<string>)
    requires |ports| == 4 && forall w :: 0 <= w < 4 ==> WHEEL_NAMES[w] in ports
    ensures SetOf(ports) == SetOf(WHEEL_NAMES)
  {
    SizeOfFour(ports);
    NamesAreFour();
    SizeOfFour(WHEEL_NAMES);
    assert SetOf(WHEEL_NAMES) <= SetOf(ports);
    AtMostFour(ports[0], ports[1], ports[2], ports[3]);
    SubsetOfSameSize(SetOf(WHEEL_NAMES), SetOf(ports));
  }

  lemma AtMostFour(a: string, b: string, c: string, d: string)
    ensures |{a, b, c, d}| <= 4
  {
    AtMostThree(a, b, c);
    assert {a, b, c, d} == {a, b, c} + {d};
  }

  lemma SubsetOfSameSize(s: set<string>, t: set<string>)
    requires s <= t && |t| <= |s|
    ensures s == t
  {
    assert |t| == |s| + |t - s| by { assert t == s + (t - s); }
    assert t - s == {};
  }

  /** Targets are computed exactly for a good wiring and positive full scales, odometry for four deltas and a good calibration. */
  lemma AcceptedExactly(x: real, y: real, z: real, full: real, linearFull: real, angularFull: real, ports: seq<string>,
                        deltas: seq<real>, c: Calibration, pi: real)
    ensures PortTargets(x, y, z, full, linearFull, angularFull, ports).Ok? <==>
            GoodPorts(ports) && full > 0.0 && linearFull > 0.0 && angularFull > 0.0
    ensures BodyDelta(deltas, c, pi).Ok? <==> |deltas| == 4 && GoodCalibration(c)
  {
    hide GoodPorts, Clamped, WheelMotion, Scale, Scaled, ByPort, Dict, Travels, Mixed, Circumference;
  }

  // ---------------------------------------------------------------- properties

  /** A port's target is the target of the wheel wired to it, however the ports are wired. */
  lemma TargetOfWheel(x: real, y: real, z: real, full: real, linearFull: real, angularFull: real, ports: seq<string>, p: nat, w: nat)
    requires PortTargets(x, y, z, full, linearFull, angularFull, ports).Ok? && p < 4 && w < 4 && ports[p] == WHEEL_NAMES[w]
    ensures var motion := WheelMotion(Clamped(x, y, z, linearFull, angularFull));
            PortTargets(x, y, z, full, linearFull, angularFull, ports).value[p] == Share(full, motion[w], Scale(motion))
  {
    hide Share, Clamped, Scale;
    var motion := WheelMotion(Clamped(x, y, z, linearFull, angularFull));
    PortsAreWheels(ports);
    forall j | w < j < 4
      ensures WHEEL_NAMES[j] != WHEEL_NAMES[w]
    {
      NamesDistinct(w, j);
    }
    DictAt(WHEEL_NAMES, motion, w);
  }

  lemma Grows(q: real, scale: real)
    requires scale > 0.0 && q > 1.0
    ensures q * scale > scale
  {
    assert (q - 1.0) * scale > 0.0;
  }

  lemma ShareBounded(full: real, value: real, scale: real)
    requires full > 0.0 && scale > 0.0 && -scale <= value <= scale
    ensures -full <= Share(full, value, scale) <= full
  {
    var r := Share(full, value, scale);
    var q := r / full;
    assert r * scale == full * value && q * full == r;
    assert q * scale == value;
    if q > 1.0 {
      Grows(q, scale);
      assert false;
    }
    if q < -1.0 {
      Grows(-q, scale);
      assert false;
    }
    assert -full <= q * full <= full;
  }

  /** No wheel is ever asked for more than full scale. */
  lemma TargetsWithinFullScale(x: real, y: real, z: real, full: real, linearFull: real, angularFull: real, ports: seq<string>)
    requires PortTargets(x, y, z, full, linearFull, angularFull, ports).Ok?
    ensures var t := PortTargets(x, y, z, full, linearFull, angularFull, ports).value;
            |t| == 4 && forall p :: 0 <= p < 4 ==> -full <= t[p] <= full
  {
    hide Share, Clamped, ByPort, Dict;
    var motion := WheelMotion(Clamped(x, y, z, linearFull, angularFull));
    PortsAreWheels(ports);
    var t := PortTargets(x, y, z, full, linearFull, angularFull, ports).value;
    forall p | 0 <= p < 4
      ensures -full <= t[p] <= full
    {
      var w := WheelOfPort(ports, p);
      TargetOfWheel(x, y, z, full, linearFull, angularFull, ports, p, w);
      ShareBounded(full, motion[w], Scale(motion));
    }
  }

  lemma WheelOfPort(ports: seq<string>, p: nat) returns (w: nat)
    requires GoodPorts(ports) && p < 4
    ensures w < 4 && ports[p] == WHEEL_NAMES[w]
  {
    PortsAreWheels(ports);
    w :| w < 4 && ports[p] == WHEEL_NAMES[w];
  }

  /** The count a port reports when its wheel turns in proportion to its target. */
  function Reported(target: real, gain: real, sign: int, count: real): real {
    target * gain * sign as real * count
  }

  /** One motion taken a factor times. */
  function Times(factor: real, motion: real): real {
    factor * motion
  }

  function Rolled(target: real, gain: real, circumference: real): real {
    target * gain * circumference
  }

  function CountsFor(targets: seq<real>, c: Calibration, gain: real): (r: seq<real>)
    requires |targets| == 4 && GoodCalibration(c)
    ensures |r| == 4 && forall i :: 0 <= i < 4 ==> r[i] == Reported(targets[i], gain, c.signs[i], c.countsPerRevolution[i])
  {
    [Reported(targets[0], gain, c.signs[0], c.countsPerRevolution[0]),
     Reported(targets[1], gain, c.signs[1], c.countsPerRevolution[1]),
     Reported(targets[2], gain, c.signs[2], c.countsPerRevolution[2]),
     Reported(targets[3], gain, c.signs[3], c.countsPerRevolution[3])]
  }

  /** Signs and calibration cancel. */
  lemma TravelOfCount(target: real, gain: real, sign: int, count: real, circumference: real)
    requires count > 0.0 && (sign == -1 || sign == 1)
    ensures Travel(Reported(target, gain, sign, count), sign, count, circumference) == Rolled(target, gain, circumference)
  {
    var t := target * gain;
    assert t * sign as real * count * sign as real == t * count;
    assert t * count / count == t;
  }

  /** A wheel's travel is proportional to its target. */
  lemma TravelOfWheel(target: real, targets: seq<real>, c: Calibration, gain: real, circumference: real, w: nat)
    requires |targets| == 4 && GoodCalibration(c) && w < 4
    requires forall p :: 0 <= p < 4 && c.ports[p] == WHEEL_NAMES[w] ==> targets[p] == target
    ensures WHEEL_NAMES[w] in c.ports
    ensures Dict(c.ports, Travels(CountsFor(targets, c, gain), c, circumference, 4))[WHEEL_NAMES[w]] ==
            Rolled(target, gain, circumference)
  {
    hide Travel, Travels, Dict, CountsFor, Reported, Rolled;
    var p := PortOfWheel(c.ports, w);
    var counts := CountsFor(targets, c, gain);
    var travels := Travels(counts, c, circumference, 4);
    forall j | p < j < 4
      ensures c.ports[j] != c.ports[p]
    {
      PortsDistinct(c.ports, p, j);
    }
    DictAt(c.ports, travels, p);
    TravelOfCount(target, gain, c.signs[p], c.countsPerRevolution[p], circumference);
  }

  lemma ShareIsFactor(full: real, value: real, scale: real, gain: real, circumference: real)
    requires scale > 0.0
    ensures Rolled(Share(full, value, scale), gain, circumference) == Times(Rolled(Share(full, 1.0, scale), gain, circumference), value)
  {
    assert full * value / scale == full / scale * value;
  }

  lemma FactorPositive(full: real, scale: real, gain: real, circumference: real)
    requires full > 0.0 && scale > 0.0 && gain > 0.0 && circumference > 0.0
    ensures Rolled(Share(full, 1.0, scale), gain, circumference) > 0.0
  {
    assert full / scale > 0.0;
    assert full / scale * gain > 0.0;
  }

  /** The three sums undo the mixing of the wheels. */
  lemma Unmixed(f: real, b: Body, lever: real)
    requires lever > 0.0
    ensures var w := WheelMotion(b);
            var delta := Mixed(Times(f, w[0]), Times(f, w[1]), Times(f, w[2]), Times(f, w[3]), lever);
            delta.0 == Times(f, b.forward) && delta.1 == Times(f, b.left) && Times(delta.2, lever) == Times(f, b.turn)
  {
    var x, y, z := f * b.forward, f * b.left, f * b.turn;
    var w := WheelMotion(b);
    assert f * w[0] == x - y - z;
    assert f * w[1] == x + y + z;
    assert f * w[2] == x + y - z;
    assert f * w[3] == x - y + z;
    Levered(4.0 * z, lever);
  }

  lemma LeverPositive(c: Calibration)
    requires GoodCalibration(c)
    ensures Lever(c) > 0.0
  {}

  lemma Levered(sum: real, lever: real)
    requires lever > 0.0
    ensures sum / (4.0 * lever) * lever == sum / 4.0
  {}

  /** How far every wheel rolls, for wheels that turn in proportion to their targets. */
  lemma WheelsFollow(x: real, y: real, z: real, full: real, linearFull: real, angularFull: real,
                     c: Calibration, gain: real, circumference: real, w: nat)
    requires PortTargets(x, y, z, full, linearFull, angularFull, c.ports).Ok? && GoodCalibration(c) && w < 4
    ensures var motion := WheelMotion(Clamped(x, y, z, linearFull, angularFull));
            var targets := PortTargets(x, y, z, full, linearFull, angularFull, c.ports).value;
            && |targets| == 4 && WHEEL_NAMES[w] in c.ports
            && Dict(c.ports, Travels(CountsFor(targets, c, gain), c, circumference, 4))[WHEEL_NAMES[w]] ==
               Times(Rolled(Share(full, 1.0, Scale(motion)), gain, circumference), motion[w])
  {
    hide Share, Scale, Clamped, Dict, CountsFor, WheelMotion, Travels, Rolled, Times;
    var motion := WheelMotion(Clamped(x, y, z, linearFull, angularFull));
    hide PortTargets;
    TargetsWithinFullScale(x, y, z, full, linearFull, angularFull, c.ports);
    var targets := PortTargets(x, y, z, full, linearFull, angularFull, c.ports).value;
    forall p | 0 <= p < 4 && c.ports[p] == WHEEL_NAMES[w]
      ensures targets[p] == Share(full, motion[w], Scale(motion))
    {
      TargetOfWheel(x, y, z, full, linearFull, angularFull, c.ports, p, w);
    }
    TravelOfWheel(Share(full, motion[w], Scale(motion)), targets, c, gain, circumference, w);
    ShareIsFactor(full, motion[w], Scale(motion), gain, circumference);
  }

  /**
   Wheels that turn in proportion to their targets move the body in proportion to the clamped command,
   for every command, wiring of the ports, encoder signs and positive calibration.
   */
  lemma CommandsRoundTrip(x: real, y: real, z: real, full: real, linearFull: real, angularFull: real,
                          c: Calibration, gain: real, pi: real) returns (factor: real)
    requires PortTargets(x, y, z, full, linearFull, angularFull, c.ports).Ok? && GoodCalibration(c)
    requires gain > 0.0 && pi > 0.0
    ensures factor > 0.0
    ensures var targets := PortTargets(x, y, z, full, linearFull, angularFull, c.ports).value;
            var body := Clamped(x, y, z, linearFull, angularFull);
            && |targets| == 4
            && BodyDelta(CountsFor(targets, c, gain), c, pi).Ok?
            && var delta := BodyDelta(CountsFor(targets, c, gain), c, pi).value;
               delta.0 == Times(factor, body.forward) && delta.1 == Times(factor, body.left) &&
               Times(delta.2, Lever(c)) == Times(factor, body.turn)
  {
    hide Share, Scale, Clamped, Dict, CountsFor, WheelMotion, Travels, Mixed, Rolled, Times, Lever;
    TargetsWithinFullScale(x, y, z, full, linearFull, angularFull, c.ports);
    var body := Clamped(x, y, z, linearFull, angularFull);
    var motion := WheelMotion(body);
    var circumference := Circumference(c, pi);
    assert circumference > 0.0;
    LeverPositive(c);
    hide Circumference;
    factor := Rolled(Share(full, 1.0, Scale(motion)), gain, circumference);
    FactorPositive(full, Scale(motion), gain, circumference);
    hide PortTargets;
    WheelsFollow(x, y, z, full, linearFull, angularFull, c, gain, circumference, 0);
    WheelsFollow(x, y, z, full, linearFull, angularFull, c, gain, circumference, 1);
    WheelsFollow(x, y, z, full, linearFull, angularFull, c, gain, circumference, 2);
    WheelsFollow(x, y, z, full, linearFull, angularFull, c, gain, circumference, 3);
    Unmixed(factor, body, Lever(c));
  }

  /** A command is taken relative to full scale, and no further than that. */
  predicate Relative(part: real, command: real, full: real) {
    && (-full <= command <= full ==> part * full == command)
    && (command > full ==> part == 1.0) && (command < -full ==> part == -1.0)
  }

  lemma PartIsRelative(command: real, full: real)
    requires full > 0.0
    ensures Relative(Clamp(command / full, -1.0, 1.0), command, full)
  {
    var q := command / full;
    assert q * full == command;
    if q > 1.0 {
      Grows(q, full);
    } else if q < -1.0 {
      Grows(-q, full);
      assert -q * full == -command;
    } else {
      assert (1.0 - q) * full >= 0.0 && (1.0 + q) * full >= 0.0;
    }
  }

  /** A wheel that is asked for the whole scale gets full scale, forwards or backwards. */
  lemma ShareOfScale(full: real, scale: real)
    requires scale > 0.0
    ensures Share(full, scale, scale) == full && Share(full, -scale, scale) == -full && Share(full, scale, 1.0) == full * scale
  {
    assert full * -scale == -(full * scale);
  }

  /** Each part of a command is taken relative to its full scale. */
  lemma CommandIsRelative(x: real, y: real, z: real, linearFull: real, angularFull: real)
    requires linearFull > 0.0 && angularFull > 0.0
    ensures var b := Clamped(x, y, z, linearFull, angularFull);
            Relative(b.forward, x, linearFull) && Relative(b.left, y, linearFull) && Relative(b.turn, z, angularFull)
  {
    hide Relative, Clamp;
    PartIsRelative(x, linearFull);
    PartIsRelative(y, linearFull);
    PartIsRelative(z, angularFull);
  }

  predicate WithinScale(w: seq<real>)
    requires |w| == 4
  {
    forall i :: 0 <= i < 4 ==> -1.0 <= w[i] <= 1.0
  }

  /**
   The targets are the wheels' motions of the relative command: of full scale as they are when none asks for more
   than that, and otherwise shrunk so that the most demanding wheel gets exactly full scale.
   */
  lemma TargetsMean(x: real, y: real, z: real, full: real, linearFull: real, angularFull: real, ports: seq<string>)
    requires PortTargets(x, y, z, full, linearFull, angularFull, ports).Ok?
    ensures var motion := WheelMotion(Clamped(x, y, z, linearFull, angularFull));
            var t := PortTargets(x, y, z, full, linearFull, angularFull, ports).value;
            && |t| == 4
            && (WithinScale(motion) ==>
                  forall p, w :: 0 <= p < 4 && 0 <= w < 4 && ports[p] == WHEEL_NAMES[w] ==> t[p] == Times(full, motion[w]))
            && (!WithinScale(motion) ==> exists p :: 0 <= p < 4 && (t[p] == full || t[p] == -full))
  {
    hide Share, WheelMotion, Clamped, Scale, WithinScale, Times, ByPort, Dict, Scaled;
    var motion := WheelMotion(Clamped(x, y, z, linearFull, angularFull));
    hide PortTargets;
    var t := PortTargets(x, y, z, full, linearFull, angularFull, ports).value;
    ScaleIsLargest(motion);
    TargetsWithinFullScale(x, y, z, full, linearFull, angularFull, ports);
    PortsAreGood(x, y, z, full, linearFull, angularFull, ports);
    if WithinScale(motion) {
      forall p, w | 0 <= p < 4 && 0 <= w < 4 && ports[p] == WHEEL_NAMES[w]
        ensures t[p] == Times(full, motion[w])
      {
        TargetOfWheel(x, y, z, full, linearFull, angularFull, ports, p, w);
        ShareOfOne(full, motion[w]);
      }
    } else {
      var w :| 0 <= w < 4 && (motion[w] == Scale(motion) || motion[w] == -Scale(motion));
      var p := PortOfWheel(ports, w);
      TargetOfWheel(x, y, z, full, linearFull, angularFull, ports, p, w);
      ShareOfScale(full, Scale(motion));
    }
  }

  lemma PortsAreGood(x: real, y: real, z: real, full: real, linearFull: real, angularFull: real, ports: seq<string>)
    requires PortTargets(x, y, z, full, linearFull, angularFull, ports).Ok?
    ensures GoodPorts(ports)
  {}

  lemma ShareOfOne(full: real, value: real)
    ensures Share(full, value, 1.0) == Times(full, value)
  {}

  /** The scale is 1 when no wheel asks for more, and else what the most demanding wheel asks for. */
  lemma ScaleIsLargest(w: seq<real>)
    requires |w| == 4
    ensures WithinScale(w) ==> Scale(w) == 1.0
    ensures !WithinScale(w) ==> exists i :: 0 <= i < 4 && (w[i] == Scale(w) || w[i] == -Scale(w))
  {
    var s := Scale(w);
    if !WithinScale(w) {
      assert w[0] == s || w[0] == -s || w[1] == s || w[1] == -s || w[2] == s || w[2] == -s || w[3] == s || w[3] == -s;
    }
  }

  /**
   Odometry in physical terms: when the wheels have made so many revolutions, whatever the wiring, signs and counts,
   the body has moved by the mean of what they rolled, to the side by their diagonal difference, and the turn, at half
   the sum of wheelbase and track, is their left-right difference.
   */
  lemma OdometryOfRevolutions(turns: seq<real>, targets: seq<real>, c: Calibration, pi: real)
    requires |turns| == 4 && |targets| == 4 && GoodCalibration(c)
    requires forall p, w :: 0 <= p < 4 && 0 <= w < 4 && c.ports[p] == WHEEL_NAMES[w] ==> targets[p] == turns[w]
    ensures BodyDelta(CountsFor(targets, c, 1.0), c, pi).Ok?
    ensures var d := BodyDelta(CountsFor(targets, c, 1.0), c, pi).value;
            && d.0 == Times((turns[0] + turns[1] + turns[2] + turns[3]) / 4.0, pi * c.diameter)
            && d.1 == Times((-turns[0] + turns[1] + turns[2] - turns[3]) / 4.0, pi * c.diameter)
            && Times(d.2, (c.wheelbase + c.track) / 2.0) == Times((-turns[0] + turns[1] - turns[2] + turns[3]) / 4.0, pi * c.diameter)
  {
    hide Rolled, Mixed, Times, Circumference, Lever;
    RevolutionsRoll(turns, targets, c, pi);
    LeverPositive(c);
    MixedRolls(turns, Circumference(c, pi), Lever(c));
    CircumferenceAndLever(c, pi);
  }

  lemma RevolutionsRoll(turns: seq<real>, targets: seq<real>, c: Calibration, pi: real)
    requires |turns| == 4 && |targets| == 4 && GoodCalibration(c)
    requires forall p, w :: 0 <= p < 4 && 0 <= w < 4 && c.ports[p] == WHEEL_NAMES[w] ==> targets[p] == turns[w]
    ensures var around := Circumference(c, pi);
            BodyDelta(CountsFor(targets, c, 1.0), c, pi) ==
            Ok(Mixed(Rolled(turns[0], 1.0, around), Rolled(turns[1], 1.0, around),
                     Rolled(turns[2], 1.0, around), Rolled(turns[3], 1.0, around), Lever(c)))
  {
    hide Travels, Dict, CountsFor, Rolled, Mixed, Circumference;
    var circumference := Circumference(c, pi);
    TravelOfWheel(turns[0], targets, c, 1.0, circumference, 0);
    TravelOfWheel(turns[1], targets, c, 1.0, circumference, 1);
    TravelOfWheel(turns[2], targets, c, 1.0, circumference, 2);
    TravelOfWheel(turns[3], targets, c, 1.0, circumference, 3);
    WiringCovers(c.ports);
  }

  lemma CircumferenceAndLever(c: Calibration, pi: real)
    ensures Circumference(c, pi) == pi * c.diameter && Lever(c) == (c.wheelbase + c.track) / 2.0
  {}

  lemma MixedRolls(turns: seq<real>, circumference: real, lever: real)
    requires |turns| == 4 && lever > 0.0
    ensures var d := Mixed(Rolled(turns[0], 1.0, circumference), Rolled(turns[1], 1.0, circumference),
                           Rolled(turns[2], 1.0, circumference), Rolled(turns[3], 1.0, circumference), lever);
            && d.0 == Times((turns[0] + turns[1] + turns[2] + turns[3]) / 4.0, circumference)
            && d.1 == Times((-turns[0] + turns[1] + turns[2] - turns[3]) / 4.0, circumference)
            && Times(d.2, lever) == Times((-turns[0] + turns[1] - turns[2] + turns[3]) / 4.0, circumference)
  {
    var a, b, e, f := turns[0] * circumference, turns[1] * circumference, turns[2] * circumference, turns[3] * circumference;
    assert (turns[0] + turns[1] + turns[2] + turns[3]) * circumference == a + b + e + f;
    assert (-turns[0] + turns[1] + turns[2] - turns[3]) * circumference == -a + b + e - f;
    assert (-turns[0] + turns[1] - turns[2] + turns[3]) * circumference == -a + b - e + f;
    Levered(-a + b - e + f, lever);
  }

  /** Rewiring the ports moves each wheel's target to its new port and changes nothing else. */
  lemma RewiringMovesTargets(x: real, y: real, z: real, full: real, linearFull: real, angularFull: real,
                             ports: seq<string>, rewired: seq<string>, p: nat, q: nat)
    requires PortTargets(x, y, z, full, linearFull, angularFull, ports).Ok? && GoodPorts(rewired)
    requires p < 4 && q < 4 && ports[p] == rewired[q]
    ensures PortTargets(x, y, z, full, linearFull, angularFull, rewired).Ok?
    ensures PortTargets(x, y, z, full, linearFull, angularFull, rewired).value[q] ==
            PortTargets(x, y, z, full, linearFull, angularFull, ports).value[p]
  {
    hide Share, Scale, Clamped, Dict, WheelMotion;
    var w := WheelOfPort(ports, p);
    TargetOfWheel(x, y, z, full, linearFull, angularFull, ports, p, w);
    TargetOfWheel(x, y, z, full, linearFull, angularFull, rewired, q, w);
  }
}
