/** World-space geometry of the LiDAR game: points, the cell size of the
    occupancy grid, the truncating float-to-int conversion used to find a
    cell, the sample points of the ray-marching loop and the far endpoint
    of a ray. Floats are modelled as exact reals. */
module Geometry {

  /** A 2-D world point (sf::Vector2f). */
  datatype Point = Point(x: real, y: real)

  /** The value `getRayCollision` returns when no sample hits, (-1, -1). */
  const NoHit: Point := Point(-1.0, -1.0)

  /** World units per grid cell. */
  const CellSize: real := 40.0

  /** Number of samples the marching loop takes: t = 0, 0.0005, ... while t < 1. */
  const SampleCount: nat := 2000

  /** `static_cast<int>` of a real: rounds toward zero, not down. */
  function Trunc(r: real): (t: int)
    ensures 0.0 <= r ==> t as real <= r < t as real + 1.0
    ensures r < 0.0 ==> t as real - 1.0 < r <= t as real
  {
    if r >= 0.0 then r.Floor else -((-r).Floor)
  }

  /** The grid index of one coordinate: `static_cast<int>(coord / 40)`. */
  function CellIndex(coord: real): int
  {
    Trunc(coord / CellSize)
  }

  /** The index a flooring cell lookup would give (the usual "cell of a point"). */
  function FloorCell(coord: real): int
  {
    (coord / CellSize).Floor
  }

  /** Truncation and flooring agree on non-negative coordinates. On (-40, 0)
      the truncating index is 0 where flooring gives -1; from -40 down both
      are negative. */
  lemma CellIndexVersusFloor(coord: real)
    ensures 0.0 <= coord ==> CellIndex(coord) == FloorCell(coord)
    ensures -CellSize < coord < 0.0 ==> CellIndex(coord) == 0 && FloorCell(coord) == -1
    ensures coord <= -CellSize ==> CellIndex(coord) < 0 && FloorCell(coord) < 0
  {
  }

  /** The k-th sample of the segment from a to b, at t = k / 2000. */
  function SamplePoint(a: Point, b: Point, k: nat): Point
  {
    var t := k as real / SampleCount as real;
    Point(a.x + t * (b.x - a.x), a.y + t * (b.y - a.y))
  }

  /** Sample 0 is the start of the segment; the end of the segment would be
      sample 2000, one past the last sample taken. */
  lemma SampleEnds(a: Point, b: Point)
    ensures SamplePoint(a, b, 0) == a
    ensures SamplePoint(a, b, SampleCount) == b
  {
  }

  /** The far endpoint of a ray (`getRayEnd`): `origin + dir * distance`,
      where `dir` stands for (cos angle, sin angle). */
  function RayEnd(origin: Point, dir: Point, distance: real): (e: Point)
    ensures distance == 0.0 || dir == Point(0.0, 0.0) ==> e == origin
  {
    Point(origin.x + dir.x * distance, origin.y + dir.y * distance)
  }

  function SquaredDistance(p: Point, q: Point): real
  {
    (q.x - p.x) * (q.x - p.x) + (q.y - p.y) * (q.y - p.y)
  }

  /** A ray cast along a unit direction ends exactly `distance` away. */
  lemma RayEndAtRange(origin: Point, dir: Point, distance: real)
    requires dir.x * dir.x + dir.y * dir.y == 1.0
    ensures SquaredDistance(origin, RayEnd(origin, dir, distance)) == distance * distance
  {
    var e := RayEnd(origin, dir, distance);
    calc {
      SquaredDistance(origin, e);
      (dir.x * distance) * (dir.x * distance) + (dir.y * distance) * (dir.y * distance);
      (dir.x * dir.x + dir.y * dir.y) * (distance * distance);
    }
  }
}
