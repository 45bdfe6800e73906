/** Whether a scanned point lies at an occupied cell of the map, or near one. */
module MapMatch {
  const OCCUPIED: int := 65

  /** An occupancy grid: the corner of its first cell, its size, and its cells row by row. */
  datatype Grid = Grid(resolution: real, originX: real, originY: real, width: nat, height: nat, data: seq<int>)

  /** A cast to an integer cuts toward zero. */
  function Truncated(x: real): (t: int)
    ensures x >= 0.0 ==> t as real <= x < t as real + 1.0
    ensures x <= 0.0 ==> t as real - 1.0 < x <= t as real
  {
    if x >= 0.0 then x.Floor else -((-x).Floor)
  }

  /** How many cells around the point's own count as near: the fewest that cover the distance, and at least one. */
  function CellRadius(g: Grid, metres: real): (r: nat)
    requires g.resolution > 0.0
    ensures r >= 1 && r as real >= metres / g.resolution
    ensures r > 1 ==> (r - 1) as real < metres / g.resolution
  {
    var cells := -((-(metres / g.resolution)).Floor);
    if cells < 1 then 1 else cells
  }

  predicate InGrid(g: Grid, x: int, y: int) {
    0 <= x < g.width && 0 <= y < g.height
  }

  predicate Occupied(g: Grid, x: int, y: int) {
    InGrid(g, x, y) && 0 <= y * g.width + x < |g.data| && g.data[y * g.width + x] >= OCCUPIED
  }

  /** An occupied cell within so many rows and columns. */
  predicate OccupiedAround(g: Grid, radius: nat, x: int, y: int) {
    exists cx, cy :: x - radius <= cx <= x + radius && y - radius <= cy <= y + radius && Occupied(g, cx, cy)
  }

  predicate OccupiedNear(g: Grid, metres: real, x: real, y: real) {
    g.resolution > 0.0 &&
    OccupiedAround(g, CellRadius(g, metres),
                   Truncated((x - g.originX) / g.resolution), Truncated((y - g.originY) / g.resolution))
  }

  /** A map without an occupied cell, from 65 up, matches no point. */
  lemma FreeMapMatchesNothing(g: Grid, metres: real, x: real, y: real)
    requires forall i :: 0 <= i < |g.data| ==> g.data[i] < 65
    ensures !OccupiedNear(g, metres, x, y)
  {}

  /** Around an occupied cell every point of the grid matches that lies within the distance along both axes. */
  lemma PointsNearMatch(g: Grid, metres: real, cx: nat, cy: nat, x: real, y: real)
    requires g.resolution > 0.0 && cx < g.width && cy < g.height
    requires cy * g.width + cx < |g.data| && g.data[cy * g.width + cx] >= 65
    requires Within((x - g.originX) / g.resolution, cx as real, metres / g.resolution)
    requires Within((y - g.originY) / g.resolution, cy as real, metres / g.resolution)
    ensures OccupiedNear(g, metres, x, y)
  {
    var px, py := Truncated((x - g.originX) / g.resolution), Truncated((y - g.originY) / g.resolution);
    CutWithin((x - g.originX) / g.resolution, cx, metres / g.resolution, CellRadius(g, metres));
    CutWithin((y - g.originY) / g.resolution, cy, metres / g.resolution, CellRadius(g, metres));
    assert cy * g.width >= 0;
    assert Occupied(g, cx, cy);
  }

  predicate Within(a: real, b: real, distance: real) {
    -distance <= a - b <= distance
  }

  lemma CutWithin(a: real, cell: nat, distance: real, radius: nat)
    requires Within(a, cell as real, distance) && radius as real >= distance
    ensures cell - radius <= Truncated(a) <= cell + radius
  {}

  /** Looks through one row of the neighbourhood. */
  method RowOccupied(g: Grid, radius: nat, x: int, y: int) returns (found: bool)
    ensures found <==> exists cx :: x - radius <= cx <= x + radius && Occupied(g, cx, y)
  {
    for cx := x - radius to x + radius + 1
      invariant forall before :: x - radius <= before < cx ==> !Occupied(g, before, y)
    {
      if cx < 0 || y < 0 || cx >= g.width || y >= g.height {
        continue;
      }
      var index := y * g.width + cx;
      if 0 <= index < |g.data| && g.data[index] >= OCCUPIED {
        assert Occupied(g, cx, y);
        return true;
      }
    }
    found := false;
  }

  /** The search of the source: rows outside, columns inside, cells beyond the grid passed over. */
  method FindOccupied(g: Grid, metres: real, x: real, y: real) returns (found: bool)
    ensures found <==> OccupiedNear(g, metres, x, y)
  {
    if g.resolution <= 0.0 || g.data == [] {
      return false;
    }
    var centerX := Truncated((x - g.originX) / g.resolution);
    var centerY := Truncated((y - g.originY) / g.resolution);
    var radius := CellRadius(g, metres);
    for cy := centerY - radius to centerY + radius + 1
      invariant forall cx, before :: centerX - radius <= cx <= centerX + radius && centerY - radius <= before < cy ==>
                  !Occupied(g, cx, before)
    {
      var row := RowOccupied(g, radius, centerX, cy);
      if row {
        return true;
      }
    }
    found := false;
  }
}
