/**
 The slab test of the costmap audit: does the usable part of a segment meet a voxel's box?

 Axes the segment hardly moves along are treated as not moving at all.
 */
module SegmentBox {
  import opened VoxelWalk

  const FLAT: real := 0.000000001

  /** One coordinate of the segment and of the box. */
  datatype Slab = Slab(from: real, direction: real, middle: real, size: real) {
    function Lower(): real { middle - size * 0.5 }

    function Upper(): real { middle + size * 0.5 }

    predicate IsFlat() { -FLAT < direction < FLAT }

    /** Where the test takes the segment to be at parameter t. */
    function Seen(t: real): real {
      if IsFlat() then from else Position(Axis(from, from + direction), t)
    }

    /** Where the segment really is. */
    function Real(t: real): real {
      Position(Axis(from, from + direction), t)
    }

    predicate Contains(p: real) { Lower() <= p <= Upper() }

    predicate Holds(t: real) {
      if IsFlat() then Contains(from)
      else Contains(Seen(t)) || Upper() <= Seen(t) <= Lower()
    }
  }

  type Slabs = s: seq<Slab> | |s| == 3 witness [Slab(0.0, 0.0, 0.0, 0.0), Slab(0.0, 0.0, 0.0, 0.0), Slab(0.0, 0.0, 0.0, 0.0)]

  function Min(x: real, y: real): real {
    if y < x then y else x
  }

  function Max(x: real, y: real): real {
    if x < y then y else x
  }

  function Reachable(length: real, usable: real): real
    requires length > 0.0
  {
    Min(1.0, Ratio(usable, length))
  }

  predicate HoldsUpTo(slabs: Slabs, axes: nat, t: real)
    requires axes <= 3
  {
    forall i :: 0 <= i < axes ==> slabs[i].Holds(t)
  }

  predicate InWindow(enter: real, leave: real, t: real) {
    enter <= t <= leave
  }

  /** The two plane crossings of a moving axis bound exactly the parameters inside its slab. */
  lemma CrossingsBoundTheSlab(s: Slab, t: real)
    requires !s.IsFlat()
    ensures var first, second := Ratio(s.Lower() - s.from, s.direction), Ratio(s.Upper() - s.from, s.direction);
            Min(first, second) <= t <= Max(first, second) <==> s.Holds(t)
  {
    hide Ratio, Along;
    Compare(s.Lower() - s.from, s.direction, t);
    Compare(s.Upper() - s.from, s.direction, t);
  }

  /** The usable part of a segment: its own points, no further along it than the usable length. */
  lemma UsablePart(length: real, usable: real, t: real)
    requires length > 0.0
    ensures InWindow(0.0, Reachable(length, usable), t) <==> 0.0 <= t <= 1.0 && Along(t, length) <= usable
  {
    hide Ratio, Along;
    Compare(usable, length, t);
  }

  lemma SomeOfTheSegmentIsUsable(length: real, usable: real)
    requires length > 0.0 && usable > 0.0
    ensures 0.0 < Reachable(length, usable)
  {
    hide Ratio, Along;
    Compare(usable, length, 0.0);
    AlongEnds(length);
  }

  /**
   Accepts exactly when a parameter on the usable part lies in all three slabs; length is the
   Euclidean length of the segment.
   */
  method SegmentCrossesVoxel(slabs: Slabs, length: real, usable: real) returns (crosses: bool)
    requires length >= 0.0
    requires length * length == slabs[0].direction * slabs[0].direction + slabs[1].direction * slabs[1].direction +
                                slabs[2].direction * slabs[2].direction
    ensures crosses <==> length > 0.0 && usable > 0.0 &&
                         exists t: real :: InWindow(0.0, Reachable(length, usable), t) && HoldsUpTo(slabs, 3, t)
  {
    if length <= 0.0 || usable <= 0.0 {
      return false;
    }
    var enter, leave := 0.0, Min(1.0, Ratio(usable, length));
    SomeOfTheSegmentIsUsable(length, usable);
    ghost var all := leave;
    for axis := 0 to 3
      invariant enter <= leave && all == Reachable(length, usable)
      invariant forall t :: InWindow(enter, leave, t) <==> InWindow(0.0, all, t) && HoldsUpTo(slabs, axis, t)
    {
      var s := slabs[axis];
      if s.IsFlat() {
        if s.from < s.Lower() || s.from > s.Upper() {
          assert forall t :: !s.Holds(t);
          return false;
        }
        continue;
      }
      var first := Ratio(s.Lower() - s.from, s.direction);
      var second := Ratio(s.Upper() - s.from, s.direction);
      NarrowsToTheSlab(slabs, axis, enter, leave, all);
      enter := Max(enter, Min(first, second));
      leave := Min(leave, Max(first, second));
      if enter > leave {
        return false;
      }
    }
    assert InWindow(enter, leave, enter);
    return true;
  }

  lemma NarrowsToTheSlab(slabs: Slabs, axis: nat, enter: real, leave: real, all: real)
    requires axis < 3 && !slabs[axis].IsFlat()
    requires forall t :: InWindow(enter, leave, t) <==> InWindow(0.0, all, t) && HoldsUpTo(slabs, axis, t)
    ensures var s := slabs[axis];
            var first, second := Ratio(s.Lower() - s.from, s.direction), Ratio(s.Upper() - s.from, s.direction);
            forall t :: InWindow(Max(enter, Min(first, second)), Min(leave, Max(first, second)), t) <==>
                        InWindow(0.0, all, t) && HoldsUpTo(slabs, axis + 1, t)
  {
    hide Ratio;
    var s := slabs[axis];
    var first, second := Ratio(s.Lower() - s.from, s.direction), Ratio(s.Upper() - s.from, s.direction);
    forall t: real
      ensures InWindow(Max(enter, Min(first, second)), Min(leave, Max(first, second)), t) <==>
              InWindow(0.0, all, t) && HoldsUpTo(slabs, axis + 1, t)
    {
      CrossingsBoundTheSlab(s, t);
      assert InWindow(enter, leave, t) <==> InWindow(0.0, all, t) && HoldsUpTo(slabs, axis, t);
      assert HoldsUpTo(slabs, axis + 1, t) <==> HoldsUpTo(slabs, axis, t) && s.Holds(t);
    }
  }

  // ---------------------------------------------------------------- what acceptance means

  /** The closed box meets the segment within the first part of it. */
  ghost predicate Meets(slabs: Slabs, part: real) {
    exists t: real :: InWindow(0.0, part, t) && forall i :: 0 <= i < 3 ==> slabs[i].Contains(slabs[i].Real(t))
  }

  ghost predicate Accepted(slabs: Slabs, part: real) {
    exists t: real :: InWindow(0.0, part, t) && HoldsUpTo(slabs, 3, t)
  }

  /** For a proper box and components that are zero or not flat, the test is exact. */
  lemma ExactUnlessNearlyFlat(slabs: Slabs, part: real)
    requires forall i :: 0 <= i < 3 ==> slabs[i].size >= 0.0 && (slabs[i].IsFlat() ==> slabs[i].direction == 0.0)
    ensures Accepted(slabs, part) <==> Meets(slabs, part)
  {
    forall t: real, i | 0 <= i < 3
      ensures slabs[i].Holds(t) <==> slabs[i].Contains(slabs[i].Real(t))
    {
      var s := slabs[i];
      assert s.Lower() <= s.Upper();
      assert s.from + s.direction - s.from == s.direction;
    }
    if Accepted(slabs, part) {
      var t: real :| InWindow(0.0, part, t) && HoldsUpTo(slabs, 3, t);
      assert forall i :: 0 <= i < 3 ==> slabs[i].Contains(slabs[i].Real(t));
    }
    if Meets(slabs, part) {
      var t: real :| InWindow(0.0, part, t) && forall i :: 0 <= i < 3 ==> slabs[i].Contains(slabs[i].Real(t));
      assert HoldsUpTo(slabs, 3, t);
    }
  }

  /** Segments of this direction are judged rightly wherever they start and wherever the box is. */
  ghost predicate JudgedRightly(directions: seq<real>, part: real)
    requires |directions| == 3
  {
    forall slabs: Slabs ::
      (forall i :: 0 <= i < 3 ==> slabs[i].direction == directions[i] && slabs[i].size > 0.0) ==>
        (Accepted(slabs, part) <==> Meets(slabs, part))
  }

  predicate ZeroOrSteep(d: real) {
    d == 0.0 || d >= 0.000000001 || -d >= 0.000000001
  }

  /** The test is right about every box exactly when no component of the direction is small but not zero. */
  lemma RightUnlessNearlyFlatExactly(directions: seq<real>, part: real)
    requires |directions| == 3 && 0.0 < part <= 1.0
    ensures JudgedRightly(directions, part) <==> forall i :: 0 <= i < 3 ==> ZeroOrSteep(directions[i])
  {
    hide Accepted, Meets;
    if forall i :: 0 <= i < 3 ==> ZeroOrSteep(directions[i]) {
      forall slabs: Slabs | forall i :: 0 <= i < 3 ==> slabs[i].direction == directions[i] && slabs[i].size > 0.0
        ensures Accepted(slabs, part) <==> Meets(slabs, part)
      {
        ExactUnlessNearlyFlat(slabs, part);
      }
    } else {
      var i :| 0 <= i < 3 && !ZeroOrSteep(directions[i]);
      var slabs := BoxMissed(directions, part, i);
    }
  }

  /** A box around everything a component can reach from zero. */
  function Wide(d: real): Slab {
    Slab(0.0, d, 0.0, 2.0 * (if d < 0.0 then 1.0 - d else 1.0 + d))
  }

  lemma WideContains(d: real, t: real)
    requires 0.0 <= t <= 1.0
    ensures Wide(d).Contains(Wide(d).Real(t))
  {
    hide Along;
    AlongSign(t, d);
  }

  lemma StrictlyAlong(t: real, d: real)
    requires t > 0.0
    ensures d > 0.0 ==> Along(t, d) > 0.0
    ensures d < 0.0 ==> Along(t, d) < 0.0
  {
    if d < 0.0 {
      assert t * -d > 0.0;
      assert t * d == -(t * -d);
    }
  }

  /** Along a small component the segment reaches a box that the test takes it never to come near. */
  lemma BoxMissed(directions: seq<real>, part: real, i: nat) returns (slabs: Slabs)
    requires |directions| == 3 && 0.0 < part <= 1.0 && i < 3 && !ZeroOrSteep(directions[i])
    ensures forall j :: 0 <= j < 3 ==> slabs[j].direction == directions[j] && slabs[j].size > 0.0
    ensures Meets(slabs, part) && !Accepted(slabs, part)
  {
    var d := directions[i];
    var reached := Along(part, d);
    var missed := Slab(0.0, d, reached, if d < 0.0 then -reached else reached);
    StrictlyAlong(part, d);
    hide Along;
    assert missed.size > 0.0 && !missed.Contains(0.0) && missed.Contains(missed.Real(part));
    slabs := [Wide(directions[0]), Wide(directions[1]), Wide(directions[2])][i := missed];
    forall j | 0 <= j < 3
      ensures slabs[j].Contains(slabs[j].Real(part))
    {
      WideContains(directions[j], part);
    }
    assert InWindow(0.0, part, part);
    assert forall t :: !slabs[i].Holds(t);
  }

  function Grow(s: Slab, margin: real): Slab {
    s.(size := s.size + 2.0 * margin)
  }

  function Grown(slabs: Slabs, margin: real): Slabs {
    [Grow(slabs[0], margin), Grow(slabs[1], margin), Grow(slabs[2], margin)]
  }

  lemma MarginCovers(s: Slab, t: real)
    requires 0.0 <= t <= 1.0 && s.size >= 0.0
    ensures s.Holds(t) ==> Grow(s, 0.000000001).Contains(s.Real(t))
    ensures s.Contains(s.Real(t)) ==> Grow(s, 0.000000001).Holds(t)
  {
    hide Along;
    AlongSign(t, s.direction);
    assert s.Real(t) == s.from + Along(t, s.direction) by {
      assert s.from + s.direction - s.from == s.direction;
    }
    assert Grow(s, 0.000000001).Seen(t) == s.Seen(t);
  }

  /** Whatever the components, an accepted box comes within the flatness margin of the segment. */
  lemma NeverFarOff(slabs: Slabs, part: real)
    requires part <= 1.0 && forall i :: 0 <= i < 3 ==> slabs[i].size >= 0.0
    ensures Accepted(slabs, part) ==> Meets(Grown(slabs, 0.000000001), part)
    ensures Meets(slabs, part) ==> Accepted(Grown(slabs, 0.000000001), part)
  {
    hide Slab.Holds, Slab.Contains, Slab.Real;
    var grown := Grown(slabs, 0.000000001);
    if Accepted(slabs, part) {
      var t: real :| InWindow(0.0, part, t) && HoldsUpTo(slabs, 3, t);
      forall i | 0 <= i < 3
        ensures grown[i].Contains(grown[i].Real(t))
      {
        MarginCovers(slabs[i], t);
        SamePoint(slabs[i], t);
      }
    }
    if Meets(slabs, part) {
      var t: real :| InWindow(0.0, part, t) && forall i :: 0 <= i < 3 ==> slabs[i].Contains(slabs[i].Real(t));
      forall i | 0 <= i < 3
        ensures grown[i].Holds(t)
      {
        MarginCovers(slabs[i], t);
      }
      assert HoldsUpTo(grown, 3, t);
    }
  }

  lemma SamePoint(s: Slab, t: real)
    ensures Grow(s, 0.000000001).Real(t) == s.Real(t)
  {}

  // ---------------------------------------------------------------- agreement with the voxel walk

  function SlabOf(a: Axis, res: real, index: int): Slab {
    Slab(a.from, a.to - a.from, Bound(index, res) + res * 0.5, res)
  }

  function SlabsOf(axes: Axes, res: real, v: Voxel): Slabs {
    [SlabOf(axes[0], res, v[0]), SlabOf(axes[1], res, v[1]), SlabOf(axes[2], res, v[2])]
  }

  /** The box test accepts every voxel the walk visits, when the whole segment is usable. */
  lemma AcceptsWhatTheWalkVisits(axes: Axes, res: real, fuel: nat, v: Voxel, length: real, usable: real)
    requires res > 0.0 && v in Path(axes, res, ORIGIN, fuel)
    requires forall i :: 0 <= i < 3 ==> ZeroOrSteep(axes[i].to - axes[i].from)
    requires length > 0.0 && usable >= length
    ensures Accepted(SlabsOf(axes, res, v), Reachable(length, usable))
  {
    hide Path, Along, Bound, Ratio;
    var slabs := SlabsOf(axes, res, v);
    VisitsOnlyTouched(axes, res, fuel, v);
    var t: real :| 0.0 <= t <= 1.0 && InBox(axes, res, v, t);
    Compare(usable, length, 1.0);
    AlongEnds(length);
    forall i | 0 <= i < 3
      ensures slabs[i].Contains(slabs[i].Real(t))
    {
      BoundOrder(v[i], v[i], res);
      assert Bound(v[i], res) <= Position(axes[i], t) <= Bound(v[i] + 1, res);
    }
    assert InWindow(0.0, Reachable(length, usable), t);
    assert Meets(slabs, Reachable(length, usable));
    ExactUnlessNearlyFlat(slabs, Reachable(length, usable));
  }
}
