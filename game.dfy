/** The LiDAR game object: its occupancy grid, the buffer of rays from the
    last scan, and the operations that build the grid, march a ray, rebuild
    the ray buffer and fade it each frame. The window, input handling and
    drawing are not part of this model. */
module Lidar {
  import opened Geometry
  import opened Cone
  import opened Rays
  import opened OccupancyGrid

  /** The end of a ray cast from `origin` toward `far`: the collision point
      when marching found one (anything but (-1, -1)), otherwise `far`. */
  function ScanEnd(m: GridMap, origin: Point, far: Point): (e: Point)
    requires Valid(m)
    ensures e == far || CheckCollision(m, e)
    ensures (forall k :: 0 <= k < SampleCount ==> !CheckCollision(m, SamplePoint(origin, far, k))) ==> e == far
  {
    RayCollisionIsFirstHit(m, origin, far);
    var hit := RayCollision(m, origin, far);
    if hit != NoHit then hit else far
  }

  /** With cell (0, 0) free, as on the game's map, a ray ends at its first
      wall sample when marching finds one, and at its far endpoint exactly
      when no sample before the far endpoint is in a wall. */
  lemma ScanEndIsFirstHitOrFar(m: GridMap, origin: Point, far: Point)
    requires Valid(m) && !CheckCollision(m, NoHit)
    ensures match FirstHitFrom(m, origin, far, 0)
            case Some(k) => ScanEnd(m, origin, far) == SamplePoint(origin, far, k) &&
                            CheckCollision(m, ScanEnd(m, origin, far))
            case None => ScanEnd(m, origin, far) == far
  {
    NoHitExactlyWhenNoWallSampled(m, origin, far);
  }

  /** A ray along a unit direction that meets no wall ends exactly
      `scanRange` away from the player. */
  lemma UnobstructedRayAtRange(m: GridMap, origin: Point, dir: Point, range: real)
    requires Valid(m) && dir.x * dir.x + dir.y * dir.y == 1.0
    requires forall k :: 0 <= k < SampleCount ==> !CheckCollision(m, SamplePoint(origin, RayEnd(origin, dir, range), k))
    ensures SquaredDistance(origin, ScanEnd(m, origin, RayEnd(origin, dir, range))) == range * range
  {
    RayEndAtRange(origin, dir, range);
  }

  /** The ray a scan stores for a ray cast from `origin` toward `far` at
      clock reading `time`: green, from `origin` to the ray's end. */
  function ScannedRay(m: GridMap, origin: Point, far: Point, time: real): (ray: RayPoint)
    requires Valid(m)
    ensures ray.start == Vertex(origin, Green) && ray.end.color == Green && ray.creationTime == time
    ensures ray.end.position == far || CheckCollision(m, ray.end.position)
  {
    RayPoint(Vertex(origin, Green), Vertex(ScanEnd(m, origin, far), Green), time)
  }

  /** The direction of ray j of a fan of the given width turned to
      `heading`: `dirOf` (cos, sin of an angle in degrees) at the ray's
      angle `heading + Offset(width, j)`. */
  function RayDirection(dirOf: real -> Point, heading: real, width: real, j: nat): Point
  {
    dirOf(heading + Offset(width, j))
  }

  /** The directions of all rays of the fan, in casting order. */
  function FanDirections(dirOf: real -> Point, heading: real, width: real): seq<Point>
  {
    seq(RayCount(width), (j: nat) => RayDirection(dirOf, heading, width, j))
  }

  /** The first n rays a scan stores, in casting order, for rays cast from
      `origin` along the directions `ds` and stamped with `readings`. */
  function FanRays(m: GridMap, origin: Point, range: real, ds: seq<Point>, readings: seq<real>, n: nat): (rays: seq<RayPoint>)
    requires Valid(m) && n <= |ds| && n <= |readings|
    ensures |rays| == n
  {
    if n == 0 then []
    else FanRays(m, origin, range, ds, readings, n - 1) + [ScannedRay(m, origin, RayEnd(origin, ds[n - 1], range), readings[n - 1])]
  }

  /** Ray j of a scan is the green ray from `origin` along direction j,
      stopped at its first wall sample or `range` away, stamped with clock
      reading j. */
  lemma {:induction false} FanRayAt(m: GridMap, origin: Point, range: real, ds: seq<Point>, readings: seq<real>, n: nat, j: nat)
    requires Valid(m) && n <= |ds| && n <= |readings| && j < n
    ensures FanRays(m, origin, range, ds, readings, n)[j] == ScannedRay(m, origin, RayEnd(origin, ds[j], range), readings[j])
    decreases n
  {
    if j < n - 1 {
      FanRayAt(m, origin, range, ds, readings, n - 1, j);
    }
  }

  /** Ray j of a scan with the player at `origin`, heading `heading` and a
      cone of `width` degrees is cast at angle `heading + Offset(width, j)`. */
  lemma ScanRayAt(m: GridMap, origin: Point, range: real, dirOf: real -> Point, heading: real, width: real,
                  readings: seq<real>, j: nat)
    requires Valid(m) && |readings| == RayCount(width) && j < RayCount(width)
    ensures FanRays(m, origin, range, FanDirections(dirOf, heading, width), readings, RayCount(width))[j] ==
      ScannedRay(m, origin, RayEnd(origin, dirOf(heading + Offset(width, j)), range), readings[j])
  {
    FanRayAt(m, origin, range, FanDirections(dirOf, heading, width), readings, RayCount(width), j);
  }

  /** Rays are stamped in casting order: when the clock readings do not
      decrease, neither do the rays' creation times. */
  lemma FanCreationTimesOrdered(m: GridMap, origin: Point, range: real, ds: seq<Point>, readings: seq<real>,
                                n: nat, i: nat, j: nat)
    requires Valid(m) && n <= |ds| && n <= |readings| && i <= j < n
    requires forall a, b :: 0 <= a <= b < |readings| ==> readings[a] <= readings[b]
    ensures FanRays(m, origin, range, ds, readings, n)[i].creationTime <=
            FanRays(m, origin, range, ds, readings, n)[j].creationTime
  {
    FanRayAt(m, origin, range, ds, readings, n, i);
    FanRayAt(m, origin, range, ds, readings, n, j);
  }

  class Game {
    /** `map`, indexed grid[row][column]; 1 is a wall, 0 is free. */
    var grid: seq<seq<int>>
    var mapWidth: int
    var mapHeight: int
    /** The rays of the most recent scan. */
    var rayPoints: seq<RayPoint>
    /** The player's position, heading (degrees) and cone configuration. */
    var position: Point
    var playerAngle: real
    var coneWidth: real
    var scanRange: real

    /** The grid fields as one value. */
    function Occupancy(): GridMap
      reads this`grid, this`mapWidth, this`mapHeight
    {
      GridMap(grid, mapWidth, mapHeight)
    }

    /** Sets up the player and the cone, and builds the grid. No ray has been cast yet. */
    constructor ()
      ensures mapWidth == 20 && mapHeight == 15 && HasInitialLayout(Occupancy())
      ensures rayPoints == []
      ensures position == Point(400.0, 300.0) && playerAngle == 0.0
      ensures coneWidth == 60.0 && scanRange == 200.0
    {
      position := Point(400.0, 300.0);
      playerAngle := 0.0;
      coneWidth := 60.0;
      scanRange := 200.0;
      mapWidth := 20;
      mapHeight := 15;
      grid := [];
      rayPoints := [];
      new;
      CreateMap();
    }

    /** `createMap`: sizes the empty table to mapHeight rows of mapWidth
        zeros, then marks the walls. */
    method CreateMap()
      requires grid == [] && 10 < mapHeight && 12 < mapWidth
      modifies this`grid
      ensures HasInitialLayout(Occupancy())
    {
      var zeros := seq(mapWidth, _ => 0);
      grid := seq(mapHeight, _ => zeros);
      grid := grid[4 := grid[4][5 := 1]];
      grid := grid[4 := grid[4][6 := 1]];
      grid := grid[5 := grid[5][5 := 1]];
      grid := grid[6 := grid[6][5 := 1]];
      grid := grid[10 := grid[10][8 := 1]];
      grid := grid[9 := grid[9][8 := 1]];
      grid := grid[8 := grid[8][8 := 1]];
      var i := 3;
      while i < 13
        invariant 3 <= i <= 13
        invariant Valid(Occupancy())
        invariant forall row, col :: 0 <= row < mapHeight && 0 <= col < mapWidth ==>
          grid[row][col] == (if IsInitialWall(row, col) && (row != 8 || col == 8 || col < i) then 1 else 0)
      {
        grid := grid[8 := grid[8][i := 1]];
        i := i + 1;
      }
    }

    /** `getRayCollision`: marches from rayStart toward rayEnd in 2000 steps
        and returns the first sample in a wall, or (-1, -1). */
    method GetRayCollision(rayStart: Point, rayEnd: Point) returns (p: Point)
      requires Valid(Occupancy())
      ensures p == RayCollision(Occupancy(), rayStart, rayEnd)
    {
      // The grid as a value; the loop reads the fields, the proof speaks of m.
      ghost var m := Occupancy();
      assert m.cells == grid && m.width == mapWidth && m.height == mapHeight;
      var k := 0;
      while k < SampleCount
        invariant 0 <= k <= SampleCount
        invariant FirstHitFrom(m, rayStart, rayEnd, 0) == FirstHitFrom(m, rayStart, rayEnd, k)
      {
        var sample := SamplePoint(rayStart, rayEnd, k);
        var x, y := sample.x, sample.y;
        var gridX := CellIndex(x);
        var gridY := CellIndex(y);
        if 0 <= gridX < mapWidth && 0 <= gridY < mapHeight {
          assert |grid[gridY]| == mapWidth;
          if grid[gridY][gridX] == 1 {
            SearchStopsAtHit(m, rayStart, rayEnd, k);
            return Point(x, y);
          }
        }
        MissedSampleSkipped(m, rayStart, rayEnd, k);
        k := k + 1;
        // The invariant at the new k, stated for the solver.
        assert FirstHitFrom(m, rayStart, rayEnd, 0) == FirstHitFrom(m, rayStart, rayEnd, k);
      }
      SearchExhausted(m, rayStart, rayEnd);
      return NoHit;
    }

    /** `scan`: discards the previous rays and casts one green ray per
        offset of the cone, in increasing-offset order, each from the
        player's position to its collision point or, failing that, to its
        far endpoint at `scanRange`. `dirOf(angle)` is (cos, sin) of an
        angle in degrees, and readings[j] the clock reading taken when the
        j-th ray is stored. */
    method Scan(dirOf: real -> Point, readings: seq<real>)
      requires Valid(Occupancy())
      requires |readings| == RayCount(coneWidth)
      modifies this`rayPoints
      ensures rayPoints == FanRays(Occupancy(), position, scanRange,
        FanDirections(dirOf, playerAngle, coneWidth), readings, RayCount(coneWidth))
    {
      var directions := FanDirections(dirOf, playerAngle, coneWidth);
      ghost var m, origin, range := Occupancy(), position, scanRange;
      rayPoints := [];
      var j := 0;
      while Offset(coneWidth, j) <= coneWidth / 2.0
        invariant j <= RayCount(coneWidth)
        invariant Occupancy() == m && position == origin && scanRange == range
        invariant rayPoints == FanRays(m, origin, range, directions, readings, j)
        decreases RayCount(coneWidth) - j
      {
        var ray := CastRay(directions[j], readings[j]);
        rayPoints := rayPoints + [ray];
        j := j + 1;
      }
    }

    /** One pass of the loop of `scan`: the green ray from the player along
        `direction`, ending at the collision point when marching finds one
        and at the far endpoint `scanRange` away otherwise, stamped with
        clock reading `time`. */
    method CastRay(direction: Point, time: real) returns (ray: RayPoint)
      requires Valid(Occupancy())
      ensures ray == ScannedRay(Occupancy(), position, RayEnd(position, direction, scanRange), time)
    {
      var rayEnd := RayEnd(position, direction, scanRange);
      var collisionPoint := GetRayCollision(position, rayEnd);
      if collisionPoint != NoHit {
        rayEnd := collisionPoint;
      }
      ray := RayPoint(Vertex(position, Green), Vertex(rayEnd, Green), time);
    }

    /** The fading part of `render` at clock reading `now`: every ray of the
        buffer is faded in place (skipped rays stay as they are, none is
        removed), and `drawn` lists, in order, the indices of the rays drawn,
        those whose alpha is positive. */
    method Render(now: real) returns (drawn: seq<nat>)
      modifies this`rayPoints
      ensures |rayPoints| == |old(rayPoints)|
      ensures forall i :: 0 <= i < |rayPoints| ==> rayPoints[i] == Faded(old(rayPoints)[i], now)
      ensures forall i :: i in drawn <==> 0 <= i < |rayPoints| && Alpha(now - rayPoints[i].creationTime) > 0
      ensures forall m, n :: 0 <= m < n < |drawn| ==> drawn[m] < drawn[n]
    {
      drawn := [];
      var i := 0;
      while i < |rayPoints|
        invariant 0 <= i <= |rayPoints| == |old(rayPoints)|
        invariant forall m :: 0 <= m < i ==> rayPoints[m] == Faded(old(rayPoints)[m], now)
        invariant forall m :: i <= m < |rayPoints| ==> rayPoints[m] == old(rayPoints)[m]
        invariant forall m :: m in drawn <==> 0 <= m < i && Alpha(now - rayPoints[m].creationTime) > 0
        invariant forall m :: 0 <= m < |drawn| ==> drawn[m] < i
        invariant forall m, n :: 0 <= m < n < |drawn| ==> drawn[m] < drawn[n]
      {
        var rayPoint := rayPoints[i];
        var elapsed := now - rayPoint.creationTime;
        var alpha := 255 - Trunc(elapsed * 255.0);
        if alpha <= 0 {
          i := i + 1;
          continue;
        }
        rayPoint := rayPoint.(start := rayPoint.start.(color := rayPoint.start.color.(a := ToByte(alpha))));
        rayPoint := rayPoint.(end := rayPoint.end.(color := rayPoint.end.color.(a := ToByte(alpha))));
        rayPoints := rayPoints[i := rayPoint];
        drawn := drawn + [i];
        i := i + 1;
      }
    }
  }
}
