/**
 The 3-D voxel walk of the clearing audit (Amanatides and Woo), in exact arithmetic.

 Along each axis the segment crosses voxel planes at known parameters; the walk is a three-way merge
 of these crossing times, with ties going to the lower axis.
 */
module VoxelWalk {
  /** One coordinate of a segment. */
  datatype Axis = Axis(from: real, to: real)

  /** Where the running crossing time of an axis stands: infinite when the axis never moves. */
  datatype Time = At(t: real) | Never

  predicate Leq(a: Time, b: Time) {
    b.Never? || (a.At? && a.t <= b.t)
  }

  function AxisIndex(value: real, res: real): int
    requires res > 0.0
  {
    (value / res).Floor
  }

  function Dir(a: Axis): int {
    if a.to > a.from then 1 else if a.to < a.from then -1 else 0
  }

  function Start(a: Axis, res: real): int
    requires res > 0.0
  {
    AxisIndex(a.from, res)
  }

  function End(a: Axis, res: real): int
    requires res > 0.0
  {
    AxisIndex(a.to, res)
  }

  /** The index after n steps. */
  function Index(a: Axis, res: real, n: nat): int
    requires res > 0.0
  {
    Start(a, res) + Dir(a) * n
  }

  /** Steps between the two end voxels. */
  function Need(a: Axis, res: real): nat
    requires res > 0.0
  {
    if End(a, res) >= Start(a, res) then End(a, res) - Start(a, res) else Start(a, res) - End(a, res)
  }

  /** The coordinate of the plane below voxel i. */
  function Bound(i: int, res: real): real {
    i as real * res
  }

  /** The plane crossed by step n. */
  function Plane(a: Axis, res: real, n: nat): real
    requires res > 0.0
  {
    if Dir(a) > 0 then Bound(Index(a, res, n) + 1, res) else Bound(Index(a, res, n), res)
  }

  /** The parameter of that crossing. */
  function Cross(a: Axis, res: real, n: nat): real
    requires res > 0.0 && Dir(a) != 0
  {
    Ratio(Plane(a, res, n) - a.from, a.to - a.from)
  }

  function CrossTime(a: Axis, res: real, n: nat): Time
    requires res > 0.0
  {
    if Dir(a) == 0 then Never else At(Cross(a, res, n))
  }

  function Spacing(a: Axis, res: real): real
    requires res > 0.0 && Dir(a) != 0
  {
    var q := Ratio(res, a.to - a.from);
    if q >= 0.0 then q else -q
  }

  /** The coordinate of the segment's point at parameter t. */
  function Position(a: Axis, t: real): real {
    a.from + Along(t, a.to - a.from)
  }

  function Ratio(p: real, d: real): real
    requires d != 0.0
  {
    p / d
  }

  function Along(t: real, d: real): real {
    t * d
  }

  // ---------------------------------------------------------------- one axis

  lemma BoundOrder(i: int, j: int, res: real)
    requires res > 0.0
    ensures i <= j <==> Bound(i, res) <= Bound(j, res)
    ensures Bound(i + 1, res) == Bound(i, res) + res
  {
    var x, y := i as real, j as real;
    assert (i + 1) as real == x + 1.0;
    Scale(x, y, res);
    Scale(y, x, res);
  }

  lemma Scale(x: real, y: real, k: real)
    requires k > 0.0
    ensures x < y ==> x * k < y * k
    ensures x <= y ==> x * k <= y * k
  {
    if x < y {
      assert (y - x) * k > 0.0;
    }
  }

  lemma FloorBounds(value: real, res: real)
    requires res > 0.0
    ensures Bound(AxisIndex(value, res), res) <= value < Bound(AxisIndex(value, res) + 1, res)
  {
    var k := AxisIndex(value, res);
    var low, high := k as real, (k + 1) as real;
    assert Ratio(value, res) == value / res;
    assert low <= Ratio(value, res) < high;
    Compare(value, res, low);
    Compare(value, res, high);
    Products(k, res);
  }

  lemma Products(k: int, res: real)
    ensures Bound(k, res) == Along(k as real, res) && Bound(k + 1, res) == Along((k + 1) as real, res)
  {}

  lemma IndexUnique(p: real, res: real, v: int)
    requires res > 0.0 && Bound(v, res) <= p < Bound(v + 1, res)
    ensures AxisIndex(p, res) == v
  {
    hide Bound, AxisIndex;
    FloorBounds(p, res);
    var i := AxisIndex(p, res);
    BoundOrder(v + 1, i, res);
    BoundOrder(i + 1, v, res);
  }

  lemma FloorMonotone(x: real, y: real, res: real)
    requires res > 0.0 && x <= y
    ensures AxisIndex(x, res) <= AxisIndex(y, res)
  {
    hide Bound, AxisIndex;
    FloorBounds(x, res);
    FloorBounds(y, res);
    BoundOrder(AxisIndex(y, res) + 1, AxisIndex(x, res), res);
  }

  /** A quotient compared with a number, for either sign of the divisor. */
  lemma Compare(p: real, d: real, t: real)
    requires d != 0.0
    ensures d > 0.0 ==> (Ratio(p, d) <= t <==> p <= Along(t, d)) && (Ratio(p, d) >= t <==> p >= Along(t, d))
    ensures d < 0.0 ==> (Ratio(p, d) <= t <==> p >= Along(t, d)) && (Ratio(p, d) >= t <==> p <= Along(t, d))
  {
    var q := p / d;
    assert q * d == p;
    if d > 0.0 {
      Scale(q, t, d);
      Scale(t, q, d);
    } else {
      Scale(q, t, -d);
      Scale(t, q, -d);
    }
  }

  /** The running time of an axis is its first crossing plus n spacings. */
  lemma CrossStep(a: Axis, res: real, n: nat)
    requires res > 0.0 && Dir(a) != 0
    ensures Cross(a, res, n + 1) == Cross(a, res, n) + Spacing(a, res) && Spacing(a, res) > 0.0
  {
    hide Bound, Start, Ratio, Along;
    var d, i := a.to - a.from, Index(a, res, n);
    AlongEnds(d);
    assert Index(a, res, n + 1) == i + Dir(a);
    BoundOrder(i, i, res);
    BoundOrder(i + 1, i + 1, res);
    BoundOrder(i - 1, i - 1, res);
    Compare(res, d, 0.0);
    Split(Plane(a, res, n) - a.from, if Dir(a) > 0 then res else -res, d);
  }

  lemma Split(p: real, r: real, d: real)
    requires d != 0.0
    ensures Ratio(p + r, d) == Ratio(p, d) + Ratio(r, d)
    ensures Ratio(-r, d) == -Ratio(r, d)
  {}

  lemma AlongEnds(d: real)
    ensures Along(0.0, d) == 0.0 && Along(1.0, d) == d
  {}

  lemma {:induction false} CrossIncreases(a: Axis, res: real, n: nat, m: nat)
    requires res > 0.0 && Dir(a) != 0 && n <= m
    ensures Cross(a, res, n) <= Cross(a, res, m)
    ensures n < m ==> Cross(a, res, n) < Cross(a, res, m)
    decreases m - n
  {
    if n < m {
      CrossStep(a, res, m - 1);
      CrossIncreases(a, res, n, m - 1);
    }
  }

  /** The endpoint lies exactly on a voxel plane of this axis. */
  predicate OnPlane(a: Axis, res: real)
    requires res > 0.0
  {
    a.to == Bound(End(a, res), res)
  }

  /** The endpoint's voxel is reached after exactly Need steps. */
  lemma EndIndex(a: Axis, res: real, n: nat)
    requires res > 0.0
    ensures Dir(a) > 0 ==> End(a, res) == Start(a, res) + Need(a, res)
    ensures Dir(a) < 0 ==> End(a, res) == Start(a, res) - Need(a, res)
    ensures Dir(a) == 0 ==> Need(a, res) == 0
    ensures Dir(a) != 0 ==> (Index(a, res, n) == End(a, res) <==> n == Need(a, res))
  {
    hide AxisIndex;
    if a.to > a.from { FloorMonotone(a.from, a.to, res); }
    if a.to < a.from { FloorMonotone(a.to, a.from, res); }
  }

  /** Needed crossings happen by t = 1 and later ones not before; exactly when they fall on 1. */
  lemma CrossAtEnd(a: Axis, res: real)
    requires res > 0.0 && Dir(a) != 0
    ensures Cross(a, res, Need(a, res)) >= 1.0
    ensures Cross(a, res, Need(a, res)) == 1.0 <==> Dir(a) < 0 && OnPlane(a, res)
    ensures Need(a, res) > 0 ==> Cross(a, res, Need(a, res) - 1) <= 1.0
    ensures Need(a, res) > 0 ==> (Cross(a, res, Need(a, res) - 1) == 1.0 <==> Dir(a) > 0 && OnPlane(a, res))
  {
    hide Bound, AxisIndex, Ratio, Along;
    var d, n := a.to - a.from, Need(a, res);
    AlongEnds(d);
    EndIndex(a, res, n);
    FloorBounds(a.to, res);
    Compare(Plane(a, res, n) - a.from, d, 1.0);
    if n > 0 {
      Compare(Plane(a, res, n - 1) - a.from, d, 1.0);
      assert Index(a, res, n - 1) == End(a, res) - Dir(a);
    }
  }

  /** A positive on-plane endpoint is always a step away. */
  lemma OnPlaneNeedsStep(a: Axis, res: real)
    requires res > 0.0 && Dir(a) > 0 && OnPlane(a, res)
    ensures Need(a, res) > 0
  {
    hide Bound, AxisIndex;
    FloorBounds(a.from, res);
    FloorMonotone(a.from, a.to, res);
  }

  /** Between two consecutive crossings the point is in the closed slab of the current index. */
  lemma BetweenCrossings(a: Axis, res: real, n: nat, t: real)
    requires res > 0.0 && t >= 0.0
    requires Dir(a) == 0 ==> n == 0
    requires Dir(a) != 0 && n > 0 ==> Cross(a, res, n - 1) <= t
    requires Dir(a) != 0 ==> t <= Cross(a, res, n)
    ensures Bound(Index(a, res, n), res) <= Position(a, t) <= Bound(Index(a, res, n) + 1, res)
  {
    hide Bound, AxisIndex, Ratio, Along;
    FloorBounds(a.from, res);
    var d := a.to - a.from;
    AlongSign(t, d);
    if Dir(a) != 0 {
      Compare(Plane(a, res, n) - a.from, d, t);
      if n > 0 {
        Compare(Plane(a, res, n - 1) - a.from, d, t);
      }
    }
  }

  lemma AlongSign(t: real, d: real)
    requires t >= 0.0
    ensures d > 0.0 ==> Along(t, d) >= 0.0
    ensures d < 0.0 ==> Along(t, d) <= 0.0
    ensures d == 0.0 ==> Along(t, d) == 0.0
    ensures t <= 1.0 && d > 0.0 ==> Along(t, d) <= d
    ensures t <= 1.0 && d < 0.0 ==> Along(t, d) >= d
  {
    if d > 0.0 {
      Scale(0.0, t, d);
      Scale(t, 1.0, d);
    } else if d < 0.0 {
      var e := -d;
      Scale(0.0, t, e);
      Scale(t, 1.0, e);
      assert t * d == -(t * e);
    }
  }

  /** Strictly inside a slab, the crossings already made are exactly those of the slab's index. */
  lemma InsideSlab(a: Axis, res: real, v: int, t: real) returns (m: nat)
    requires res > 0.0 && 0.0 <= t <= 1.0
    requires Bound(v, res) < Position(a, t) < Bound(v + 1, res)
    ensures Index(a, res, m) == v && m <= Need(a, res)
    ensures Dir(a) == 0 ==> m == 0
    ensures Dir(a) != 0 && m > 0 ==> Cross(a, res, m - 1) < t
    ensures Dir(a) != 0 ==> t < Cross(a, res, m)
  {
    hide Bound, AxisIndex, Ratio, Along;
    var d, i, p := a.to - a.from, Start(a, res), Position(a, t);
    IndexUnique(p, res, v);
    AlongSign(t, d);
    if Dir(a) == 0 {
      m := 0;
      return;
    }
    EndIndex(a, res, 0);
    if d > 0.0 {
      FloorMonotone(a.from, p, res);
      FloorMonotone(p, a.to, res);
      m := v - i;
    } else {
      FloorMonotone(p, a.from, res);
      FloorMonotone(a.to, p, res);
      m := i - v;
    }
    Compare(Plane(a, res, m) - a.from, d, t);
    if m > 0 {
      Compare(Plane(a, res, m - 1) - a.from, d, t);
    }
  }

  // ---------------------------------------------------------------- the three-way merge

  type Axes = s: seq<Axis> | |s| == 3 witness [Axis(0.0, 0.0), Axis(0.0, 0.0), Axis(0.0, 0.0)]
  type Steps = s: seq<nat> | |s| == 3 witness [0, 0, 0]
  type Voxel = s: seq<int> | |s| == 3 witness [0, 0, 0]

  const ORIGIN: Steps := [0, 0, 0]

  /** Which axis steps next: the earliest crossing, the lower axis on a tie. */
  function Pick(x: Time, y: Time, z: Time): (p: nat)
    ensures p < 3
    ensures forall j :: 0 <= j < 3 ==> Leq([x, y, z][p], [x, y, z][j])
    ensures forall j :: 0 <= j < p ==> !Leq([x, y, z][j], [x, y, z][p])
  {
    if Leq(x, y) && Leq(x, z) then 0 else if Leq(y, z) then 1 else 2
  }

  /** The crossing lies beyond the end of the segment. */
  predicate Beyond(t: Time) {
    t.Never? || t.t > 1.0
  }

  function Cell(axes: Axes, res: real, n: Steps): Voxel
    requires res > 0.0
  {
    [Index(axes[0], res, n[0]), Index(axes[1], res, n[1]), Index(axes[2], res, n[2])]
  }

  function EndCell(axes: Axes, res: real): Voxel
    requires res > 0.0
  {
    [End(axes[0], res), End(axes[1], res), End(axes[2], res)]
  }

  function Next(axes: Axes, res: real, n: Steps): (p: nat)
    requires res > 0.0
    ensures p < 3
  {
    Pick(CrossTime(axes[0], res, n[0]), CrossTime(axes[1], res, n[1]), CrossTime(axes[2], res, n[2]))
  }

  function Advance(n: Steps, p: nat): Steps
    requires p < 3
  {
    n[p := n[p] + 1]
  }

  function After(axes: Axes, res: real, n: Steps): (m: Steps)
    requires res > 0.0
    ensures m == Advance(n, Next(axes, res, n))
  {
    Advance(n, Next(axes, res, n))
  }

  /** The walk ends at this voxel: it is the end voxel, or the next crossing is beyond the segment. */
  predicate Stops(axes: Axes, res: real, n: Steps)
    requires res > 0.0
  {
    Cell(axes, res, n) == EndCell(axes, res) ||
    Beyond(CrossTime(axes[Next(axes, res, n)], res, n[Next(axes, res, n)]))
  }

  /** The voxels the walk visits, in order, when n steps were taken and it may visit fuel more. */
  function Path(axes: Axes, res: real, n: Steps, fuel: nat): seq<Voxel>
    requires res > 0.0
    decreases fuel
  {
    if fuel == 0 then []
    else if Stops(axes, res, n) then [Cell(axes, res, n)]
    else [Cell(axes, res, n)] + Path(axes, res, After(axes, res, n), fuel - 1)
  }

  function Elements(path: seq<Voxel>): set<Voxel> {
    set v | v in path
  }

  /** The axis Next picks really is earliest, and strictly earlier than every lower axis. */
  lemma NextIsEarliest(axes: Axes, res: real, n: Steps, j: nat)
    requires res > 0.0 && j < 3
    ensures var p := Next(axes, res, n);
            Leq(CrossTime(axes[p], res, n[p]), CrossTime(axes[j], res, n[j])) &&
            (j < p ==> !Leq(CrossTime(axes[j], res, n[j]), CrossTime(axes[p], res, n[p])))
  {
    hide CrossTime;
  }

  // ---------------------------------------------------------------- only touched voxels

  predicate InBox(axes: Axes, res: real, v: Voxel, t: real) {
    forall i :: 0 <= i < 3 ==> Bound(v[i], res) <= Position(axes[i], t) <= Bound(v[i] + 1, res)
  }

  predicate InsideBox(axes: Axes, res: real, v: Voxel, t: real) {
    forall i :: 0 <= i < 3 ==> Bound(v[i], res) < Position(axes[i], t) < Bound(v[i] + 1, res)
  }

  /** The closed box of the voxel meets the segment. */
  ghost predicate Touched(axes: Axes, res: real, v: Voxel) {
    exists t: real :: 0.0 <= t <= 1.0 && InBox(axes, res, v, t)
  }

  /** Axis a made exactly n crossings up to t. */
  predicate Between(a: Axis, res: real, n: nat, t: real)
    requires res > 0.0
  {
    if Dir(a) == 0 then n == 0
    else t <= Cross(a, res, n) && (n > 0 ==> Cross(a, res, n - 1) <= t)
  }

  predicate Reach(axes: Axes, res: real, n: Steps, t: real)
    requires res > 0.0
  {
    0.0 <= t <= 1.0 && forall i :: 0 <= i < 3 ==> Between(axes[i], res, n[i], t)
  }

  lemma ReachStart(a: Axis, res: real)
    requires res > 0.0
    ensures Between(a, res, 0, 0.0)
  {
    hide Bound, AxisIndex, Ratio, Along;
    if Dir(a) != 0 {
      FloorBounds(a.from, res);
      AlongSign(0.0, a.to - a.from);
      AlongEnds(a.to - a.from);
      Compare(Plane(a, res, 0) - a.from, a.to - a.from, 0.0);
    }
  }

  lemma ReachInBox(axes: Axes, res: real, n: Steps, t: real)
    requires res > 0.0 && Reach(axes, res, n, t)
    ensures Touched(axes, res, Cell(axes, res, n))
  {
    hide Cross, Bound, Position, Index;
    var v := Cell(axes, res, n);
    forall i | 0 <= i < 3
      ensures Bound(v[i], res) <= Position(axes[i], t) <= Bound(v[i] + 1, res)
    {
      assert v[i] == Index(axes[i], res, n[i]);
      assert Between(axes[i], res, n[i], t);
      BetweenCrossings(axes[i], res, n[i], t);
    }
    assert InBox(axes, res, v, t);
  }

  /** The step moves the witness parameter to the crossing itself. */
  lemma ReachStep(axes: Axes, res: real, n: Steps, t: real) returns (u: real)
    requires res > 0.0 && Reach(axes, res, n, t) && !Stops(axes, res, n)
    ensures Reach(axes, res, After(axes, res, n), u)
  {
    hide Cross, Next, Cell;
    var p := Next(axes, res, n);
    u := Cross(axes[p], res, n[p]);
    assert Between(axes[p], res, n[p], t);
    var m := Advance(n, p);
    forall i | 0 <= i < 3
      ensures Between(axes[i], res, m[i], u)
    {
      assert Between(axes[i], res, n[i], t);
      NextIsEarliest(axes, res, n, i);
      if i == p {
        CrossIncreases(axes[p], res, n[p], n[p] + 1);
      }
    }
  }

  /** Every voxel the walk visits is touched by the segment. */
  lemma {:induction false} TouchesFrom(axes: Axes, res: real, n: Steps, fuel: nat, t: real, v: Voxel)
    requires res > 0.0 && Reach(axes, res, n, t) && v in Path(axes, res, n, fuel)
    ensures Touched(axes, res, v)
    decreases fuel
  {
    hide Reach, Stops, Cell, Next, Touched;
    if v == Cell(axes, res, n) {
      ReachInBox(axes, res, n, t);
    } else {
      var u := ReachStep(axes, res, n, t);
      TouchesFrom(axes, res, After(axes, res, n), fuel - 1, u, v);
    }
  }

  lemma {:induction false} VisitsOnlyTouched(axes: Axes, res: real, fuel: nat, v: Voxel)
    requires res > 0.0 && v in Path(axes, res, ORIGIN, fuel)
    ensures Touched(axes, res, v)
  {
    hide Between, Path, Touched;
    forall i | 0 <= i < 3
      ensures Between(axes[i], res, ORIGIN[i], 0.0)
    {
      ReachStart(axes[i], res);
    }
    TouchesFrom(axes, res, ORIGIN, fuel, 0.0, v);
  }

  // ---------------------------------------------------------------- every crossed voxel

  function Total(n: Steps): nat {
    n[0] + n[1] + n[2]
  }

  function Needs(axes: Axes, res: real): Steps
    requires res > 0.0
  {
    [Need(axes[0], res), Need(axes[1], res), Need(axes[2], res)]
  }

  function Apart(i: int, j: int): nat {
    if i >= j then i - j else j - i
  }

  /** Manhattan distance between two voxels. */
  function Distance(v: Voxel, w: Voxel): nat {
    Apart(v[0], w[0]) + Apart(v[1], w[1]) + Apart(v[2], w[2])
  }

  predicate Below(n: Steps, m: Steps) {
    forall i :: 0 <= i < 3 ==> n[i] <= m[i]
  }

  /** Axis a made exactly n crossings strictly before t and makes no other until after t. */
  predicate StrictlyBetween(a: Axis, res: real, n: nat, t: real)
    requires res > 0.0
  {
    n <= Need(a, res) &&
    if Dir(a) == 0 then n == 0
    else t < Cross(a, res, n) && (n > 0 ==> Cross(a, res, n - 1) < t)
  }

  /** While the target is ahead, the walk goes on and steps towards it. */
  lemma StepTowards(axes: Axes, res: real, n: Steps, m: Steps, t: real)
    requires res > 0.0 && t <= 1.0 && Below(n, m) && n != m
    requires forall i :: 0 <= i < 3 ==> StrictlyBetween(axes[i], res, m[i], t)
    ensures !Stops(axes, res, n) && n[Next(axes, res, n)] < m[Next(axes, res, n)]
  {
    hide Cross, Next, Index, Need, End;
    var i := if n[0] < m[0] then 0 else if n[1] < m[1] then 1 else 2;
    assert n == [n[0], n[1], n[2]] && m == [m[0], m[1], m[2]];
    assert n[i] < m[i];
    assert StrictlyBetween(axes[i], res, m[i], t);
    CrossIncreases(axes[i], res, n[i], m[i] - 1);
    NextIsEarliest(axes, res, n, i);
    var p := Next(axes, res, n);
    assert StrictlyBetween(axes[p], res, m[p], t);
    EndIndex(axes[i], res, n[i]);
    assert Cell(axes, res, n)[i] == Index(axes[i], res, n[i]);
    assert EndCell(axes, res)[i] == End(axes[i], res);
  }

  lemma {:induction false} CompleteFrom(axes: Axes, res: real, n: Steps, m: Steps, t: real, fuel: nat)
    requires res > 0.0 && t <= 1.0 && Below(n, m) && fuel > Total(m) - Total(n)
    requires forall i :: 0 <= i < 3 ==> StrictlyBetween(axes[i], res, m[i], t)
    ensures Cell(axes, res, m) in Path(axes, res, n, fuel)
    decreases fuel
  {
    hide StrictlyBetween, Cell, Next, Stops;
    if n == m {
    } else {
      StepTowards(axes, res, n, m, t);
      CompleteFrom(axes, res, After(axes, res, n), m, t, fuel - 1);
    }
  }

  /** A slab the segment passes strictly inside, with its distance in steps. */
  lemma InsideAxis(a: Axis, res: real, v: int, t: real) returns (m: nat)
    requires res > 0.0 && 0.0 <= t <= 1.0
    requires Bound(v, res) < Position(a, t) < Bound(v + 1, res)
    ensures StrictlyBetween(a, res, m, t) && Index(a, res, m) == v
    ensures m == Apart(Index(a, res, 0), v)
  {
    hide Cross, Bound, Position, Need, Start;
    m := InsideSlab(a, res, v, t);
  }

  /** Every voxel whose interior the segment meets is visited, if the walk may take as many steps as the voxel is away. */
  lemma VisitsEveryCrossed(axes: Axes, res: real, v: Voxel, t: real, fuel: nat)
    requires res > 0.0 && 0.0 <= t <= 1.0 && InsideBox(axes, res, v, t)
    requires fuel > Distance(Cell(axes, res, ORIGIN), v)
    ensures v in Path(axes, res, ORIGIN, fuel)
  {
    hide Bound, Position, StrictlyBetween, Path, Index;
    var m0 := InsideAxis(axes[0], res, v[0], t);
    var m1 := InsideAxis(axes[1], res, v[1], t);
    var m2 := InsideAxis(axes[2], res, v[2], t);
    var m: Steps := [m0, m1, m2];
    assert v == Cell(axes, res, m);
    CompleteFrom(axes, res, ORIGIN, m, t, fuel);
  }

  // ---------------------------------------------------------------- where the walk ends

  /** Two axes reach their last plane together at the endpoint, and the lower one, moving down, goes first. */
  predicate OvershootPair(axes: Axes, res: real, a: nat, b: nat)
    requires res > 0.0
  {
    a < b < 3 && Dir(axes[a]) < 0 && OnPlane(axes[a], res) && Dir(axes[b]) > 0 && OnPlane(axes[b], res)
  }

  predicate Overshoots(axes: Axes, res: real)
    requires res > 0.0
  {
    OvershootPair(axes, res, 0, 1) || OvershootPair(axes, res, 0, 2) || OvershootPair(axes, res, 1, 2)
  }

  lemma CellIsEnd(axes: Axes, res: real, n: Steps)
    requires res > 0.0
    requires forall i :: 0 <= i < 3 && Dir(axes[i]) == 0 ==> n[i] == 0
    ensures Cell(axes, res, n) == EndCell(axes, res) <==> n == Needs(axes, res)
  {
    hide Index, Need, End;
    EndIndex(axes[0], res, n[0]);
    EndIndex(axes[1], res, n[1]);
    EndIndex(axes[2], res, n[2]);
    assert n == [n[0], n[1], n[2]];
    forall i | 0 <= i < 3
      ensures Dir(axes[i]) == 0 ==> Index(axes[i], res, n[i]) == End(axes[i], res)
    {
      StillAxis(axes[i], res);
    }
  }

  lemma StillAxis(a: Axis, res: real)
    requires res > 0.0
    ensures Dir(a) == 0 ==> forall n: nat :: Index(a, res, n) == End(a, res)
  {}

  lemma StepHome(axes: Axes, res: real, n: Steps)
    requires res > 0.0 && Below(n, Needs(axes, res)) && n != Needs(axes, res) && !Overshoots(axes, res)
    ensures !Stops(axes, res, n) && n[Next(axes, res, n)] < Needs(axes, res)[Next(axes, res, n)]
  {
    hide Cross, Next, Cell, Need, OnPlane, EndCell;
    var m := Needs(axes, res);
    var i := if n[0] < m[0] then 0 else if n[1] < m[1] then 1 else 2;
    assert n == [n[0], n[1], n[2]];
    forall j | 0 <= j < 3
      ensures Dir(axes[j]) == 0 ==> m[j] == 0
    {
      EndIndex(axes[j], res, 0);
    }
    CrossIncreases(axes[i], res, n[i], m[i] - 1);
    CrossAtEnd(axes[i], res);
    NextIsEarliest(axes, res, n, i);
    CellIsEnd(axes, res, n);
    var p := Next(axes, res, n);
    if n[p] == m[p] {
      CrossAtEnd(axes[p], res);
      assert false;
    }
  }

  lemma {:induction false} EndsFrom(axes: Axes, res: real, n: Steps, fuel: nat)
    requires res > 0.0 && Below(n, Needs(axes, res)) && !Overshoots(axes, res)
    requires fuel > Total(Needs(axes, res)) - Total(n)
    ensures var path := Path(axes, res, n, fuel);
            |path| == Total(Needs(axes, res)) - Total(n) + 1 && path[|path| - 1] == EndCell(axes, res)
    decreases fuel
  {
    hide Cell, Next, Overshoots, Stops, EndCell, Needs;
    var m := Needs(axes, res);
    if n == m {
      assert Cell(axes, res, n) == EndCell(axes, res) && Stops(axes, res, n) by { EndStops(axes, res); }
    } else {
      StepHome(axes, res, n);
      assert Total(n) < Total(m);
      EndsFrom(axes, res, After(axes, res, n), fuel - 1);
    }
  }

  lemma EndStops(axes: Axes, res: real)
    requires res > 0.0
    ensures Stops(axes, res, Needs(axes, res)) && Cell(axes, res, Needs(axes, res)) == EndCell(axes, res)
  {
    hide Index, Need, End, Next;
    forall j | 0 <= j < 3
      ensures Dir(axes[j]) == 0 ==> Needs(axes, res)[j] == 0
    {
      EndIndex(axes[j], res, 0);
    }
    CellIsEnd(axes, res, Needs(axes, res));
  }

  /** On an overshooting segment axis b is short of its last plane until axis a has gone too far. */
  predicate Missing(axes: Axes, res: real, n: Steps, a: nat, b: nat)
    requires res > 0.0 && a < 3 && b < 3
  {
    n[b] < Need(axes[b], res) || n[a] > Need(axes[a], res)
  }

  lemma MissingStep(axes: Axes, res: real, n: Steps, a: nat, b: nat)
    requires res > 0.0 && OvershootPair(axes, res, a, b) && Missing(axes, res, n, a, b)
    ensures Cell(axes, res, n) != EndCell(axes, res)
    ensures Missing(axes, res, After(axes, res, n), a, b)
  {
    hide Cross, Next, Need, OnPlane, Index, End;
    var p := Next(axes, res, n);
    EndIndex(axes[a], res, n[a]);
    EndIndex(axes[b], res, n[b]);
    if p == b && n[b] + 1 == Need(axes[b], res) && n[a] <= Need(axes[a], res) {
      NextIsEarliest(axes, res, n, a);
      CrossAtEnd(axes[a], res);
      CrossAtEnd(axes[b], res);
      CrossIncreases(axes[a], res, n[a], Need(axes[a], res));
      assert false;
    }
    assert Cell(axes, res, n)[a] == Index(axes[a], res, n[a]) && Cell(axes, res, n)[b] == Index(axes[b], res, n[b]);
    assert EndCell(axes, res)[a] == End(axes[a], res) && EndCell(axes, res)[b] == End(axes[b], res);
  }

  lemma {:induction false} MissesFrom(axes: Axes, res: real, n: Steps, fuel: nat, a: nat, b: nat)
    requires res > 0.0 && OvershootPair(axes, res, a, b) && Missing(axes, res, n, a, b)
    ensures EndCell(axes, res) !in Path(axes, res, n, fuel)
    decreases fuel
  {
    hide Cell, Next, EndCell, Stops, Missing, OvershootPair;
    if fuel > 0 {
      assert OvershootPair(axes, res, a, b) ==> a < 3 && b < 3 by { PairIndices(axes, res, a, b); }
      MissingStep(axes, res, n, a, b);
      MissesFrom(axes, res, After(axes, res, n), fuel - 1, a, b);
    }
  }

  lemma PairIndices(axes: Axes, res: real, a: nat, b: nat)
    requires res > 0.0
    ensures OvershootPair(axes, res, a, b) ==> a < 3 && b < 3
  {}

  /**
   Given steps for the distance, the walk reaches the end voxel exactly when no two axes meet their
   last planes at the endpoint in the wrong order; it then takes exactly that many steps and stops there.
   */
  lemma EndsInEndVoxel(axes: Axes, res: real, fuel: nat)
    requires res > 0.0 && fuel > Total(Needs(axes, res))
    ensures EndCell(axes, res) in Path(axes, res, ORIGIN, fuel) <==> !Overshoots(axes, res)
    ensures !Overshoots(axes, res) ==>
              |Path(axes, res, ORIGIN, fuel)| == Total(Needs(axes, res)) + 1 &&
              Path(axes, res, ORIGIN, fuel)[Total(Needs(axes, res))] == EndCell(axes, res)
  {
    hide Path, Need, OnPlane, EndCell;
    if !Overshoots(axes, res) {
      EndsFrom(axes, res, ORIGIN, fuel);
    } else {
      var a := if OvershootPair(axes, res, 1, 2) then 1 else 0;
      var b := if OvershootPair(axes, res, a, 2) then 2 else 1;
      assert OvershootPair(axes, res, a, b);
      OnPlaneNeedsStep(axes[b], res);
      MissesFrom(axes, res, ORIGIN, fuel, a, b);
    }
  }

  /** A segment that overshoots: down to a plane along x, up to one along y. */
  lemma SomeWalkOvershoots() returns (axes: Axes)
    ensures forall fuel: nat :: fuel > Total(Needs(axes, 1.0)) ==> EndCell(axes, 1.0) !in Path(axes, 1.0, ORIGIN, fuel)
  {
    axes := [Axis(1.5, 1.0), Axis(0.5, 1.0), Axis(0.5, 0.5)];
    assert OvershootPair(axes, 1.0, 0, 1);
    forall fuel: nat | fuel > Total(Needs(axes, 1.0))
      ensures EndCell(axes, 1.0) !in Path(axes, 1.0, ORIGIN, fuel)
    {
      EndsInEndVoxel(axes, 1.0, fuel);
    }
  }

  // ---------------------------------------------------------------- the loop

  function Plus(t: Time, delta: Time): Time {
    if t.At? && delta.At? then At(t.t + delta.t) else Never
  }

  function SpacingTime(a: Axis, res: real): Time
    requires res > 0.0
  {
    if Dir(a) == 0 then Never else At(Spacing(a, res))
  }

  /** The running time kept by the loop is the crossing time of the specification. */
  lemma RunningTime(a: Axis, res: real, n: nat)
    requires res > 0.0
    ensures Plus(CrossTime(a, res, n), SpacingTime(a, res)) == CrossTime(a, res, n + 1)
    ensures Index(a, res, n) + Dir(a) == Index(a, res, n + 1)
  {
    hide Cross, Spacing, Start;
    if Dir(a) != 0 {
      CrossStep(a, res, n);
    }
  }

  /** Walks from origin to endpoint, adding to the visited set every voxel on the way. */
  method TraceLine(origin: seq<real>, endpoint: seq<real>, resolution: real, visited: set<Voxel>, maxSteps: nat := 2000)
      returns (covered: set<Voxel>)
    requires |origin| == |endpoint| == 3 && resolution > 0.0
    ensures var axes := [Axis(origin[0], endpoint[0]), Axis(origin[1], endpoint[1]), Axis(origin[2], endpoint[2])];
            covered == visited + Elements(Path(axes, resolution, ORIGIN, maxSteps))
  {
    hide AxisIndex, Cross, Plane, Spacing, Ratio, Bound, Next;
    var x, y, z := Axis(origin[0], endpoint[0]), Axis(origin[1], endpoint[1]), Axis(origin[2], endpoint[2]);
    ghost var axes: Axes := [x, y, z];
    var ix, iy, iz := AxisIndex(origin[0], resolution), AxisIndex(origin[1], resolution), AxisIndex(origin[2], resolution);
    var ex, ey, ez := AxisIndex(endpoint[0], resolution), AxisIndex(endpoint[1], resolution), AxisIndex(endpoint[2], resolution);
    var stepX, stepY, stepZ := Dir(x), Dir(y), Dir(z);
    var tMaxX, tMaxY, tMaxZ := CrossTime(x, resolution, 0), CrossTime(y, resolution, 0), CrossTime(z, resolution, 0);
    var tDeltaX, tDeltaY, tDeltaZ := SpacingTime(x, resolution), SpacingTime(y, resolution), SpacingTime(z, resolution);
    covered := visited;
    var steps := 0;
    ghost var n := ORIGIN;
    while steps < maxSteps
      invariant steps <= maxSteps
      invariant [ix, iy, iz] == Cell(axes, resolution, n)
      invariant tMaxX == CrossTime(x, resolution, n[0])
      invariant tMaxY == CrossTime(y, resolution, n[1])
      invariant tMaxZ == CrossTime(z, resolution, n[2])
      invariant covered + Elements(Path(axes, resolution, n, maxSteps - steps)) ==
                visited + Elements(Path(axes, resolution, ORIGIN, maxSteps))
    {
      steps := steps + 1;
      covered := covered + {[ix, iy, iz]};
      ghost var p := Next(axes, resolution, n);
      ghost var rest := maxSteps - steps;
      PickedNext(axes, resolution, n);
      PathUnfolds(axes, resolution, n, rest);
      if ix == ex && iy == ey && iz == ez {
        break;
      }
      if Leq(tMaxX, tMaxY) && Leq(tMaxX, tMaxZ) {
        if Beyond(tMaxX) {
          break;
        }
        RunningTime(x, resolution, n[0]);
        ix, tMaxX := ix + stepX, Plus(tMaxX, tDeltaX);
      } else if Leq(tMaxY, tMaxZ) {
        if Beyond(tMaxY) {
          break;
        }
        RunningTime(y, resolution, n[1]);
        iy, tMaxY := iy + stepY, Plus(tMaxY, tDeltaY);
      } else {
        if Beyond(tMaxZ) {
          break;
        }
        RunningTime(z, resolution, n[2]);
        iz, tMaxZ := iz + stepZ, Plus(tMaxZ, tDeltaZ);
      }
      n := Advance(n, p);
    }
  }

  lemma PickedNext(axes: Axes, res: real, n: Steps)
    requires res > 0.0
    ensures Next(axes, res, n) ==
            Pick(CrossTime(axes[0], res, n[0]), CrossTime(axes[1], res, n[1]), CrossTime(axes[2], res, n[2]))
  {}

  lemma PathUnfolds(axes: Axes, res: real, n: Steps, rest: nat)
    requires res > 0.0
    ensures Elements(Path(axes, res, n, rest + 1)) ==
            {Cell(axes, res, n)} +
            (if Stops(axes, res, n) then {} else Elements(Path(axes, res, After(axes, res, n), rest)))
    ensures Path(axes, res, n, 0) == []
  {
    hide Stops, Cell, Next;
  }
}
