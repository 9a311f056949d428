/** The occupancy grid of the game and the two queries made of it: the
    point lookup of `checkCollision` and the first-hit search along a
    segment of `getRayCollision`. The grid is the value of the game's
    `map`, `mapWidth` and `mapHeight` fields. */
module OccupancyGrid {
  import opened Geometry

  datatype Option<T> = None | Some(value: T)

  /** `map` (indexed cells[row][column], 1 for a wall, 0 for free) together
      with `mapWidth` and `mapHeight`. */
  datatype GridMap = GridMap(cells: seq<seq<int>>, width: int, height: int)

  /** The table has `height` rows of `width` entries each. */
  predicate Valid(m: GridMap)
  {
    |m.cells| == m.height &&
    forall row :: 0 <= row < |m.cells| ==> |m.cells[row]| == m.width
  }

  /** The cells `createMap` marks as walls, as (row, column): an L of four
      cells at rows 4 to 6, column 8 in rows 8 to 10, and row 8 from column 3
      to column 12. */
  predicate IsInitialWall(row: int, col: int)
  {
    (row == 4 && (col == 5 || col == 6)) ||
    ((row == 5 || row == 6) && col == 5) ||
    ((row == 9 || row == 10) && col == 8) ||
    (row == 8 && 3 <= col < 13)
  }

  /** The grid `createMap` builds: 1 on the initial walls, 0 everywhere else. */
  predicate HasInitialLayout(m: GridMap)
  {
    Valid(m) &&
    forall row, col :: 0 <= row < m.height && 0 <= col < m.width ==>
      m.cells[row][col] == (if IsInitialWall(row, col) then 1 else 0)
  }

  /** `checkCollision`: whether the point lies in a wall cell. The cell is
      found by truncating division by 40; a cell outside the table is free,
      and only cells inside the table are read. */
  predicate CheckCollision(m: GridMap, p: Point)
    requires Valid(m)
    ensures !(0 <= CellIndex(p.x) < m.width && 0 <= CellIndex(p.y) < m.height) ==> !CheckCollision(m, p)
  {
    var gridX := CellIndex(p.x);
    var gridY := CellIndex(p.y);
    if 0 <= gridX < m.width && 0 <= gridY < m.height then m.cells[gridY][gridX] == 1
    else false
  }

  /** A colliding point lies strictly inside the box from (-40, -40) to 40
      times the table's size: truncation also sends the strip just left of
      (or above) zero to column (or row) 0, and any cell outside the table
      is free. */
  lemma CollidingPointInBox(m: GridMap, p: Point)
    requires Valid(m) && CheckCollision(m, p)
    ensures -CellSize < p.x < m.width as real * CellSize
    ensures -CellSize < p.y < m.height as real * CellSize
  {
  }

  /** The first sample index from k on whose point is in a wall, if any. */
  function FirstHitFrom(m: GridMap, a: Point, b: Point, k: nat): (r: Option<nat>)
    requires Valid(m) && k <= SampleCount
    ensures r.Some? ==>
      k <= r.value < SampleCount && CheckCollision(m, SamplePoint(a, b, r.value)) &&
      forall j :: k <= j < r.value ==> !CheckCollision(m, SamplePoint(a, b, j))
    ensures r.None? <==> forall j :: k <= j < SampleCount ==> !CheckCollision(m, SamplePoint(a, b, j))
    decreases SampleCount - k
  {
    if k == SampleCount then None
    else if CheckCollision(m, SamplePoint(a, b, k)) then Some(k)
    else FirstHitFrom(m, a, b, k + 1)
  }

  /** A sample outside every wall does not stop the search. */
  lemma MissedSampleSkipped(m: GridMap, a: Point, b: Point, k: nat)
    requires Valid(m) && k < SampleCount && !CheckCollision(m, SamplePoint(a, b, k))
    ensures FirstHitFrom(m, a, b, k) == FirstHitFrom(m, a, b, k + 1)
  {
  }

  /** Sample k of the segment from a to b is its first sample in a wall. */
  predicate IsFirstHit(m: GridMap, a: Point, b: Point, k: int)
    requires Valid(m)
  {
    0 <= k < SampleCount && CheckCollision(m, SamplePoint(a, b, k)) &&
    forall j :: 0 <= j < k ==> !CheckCollision(m, SamplePoint(a, b, j))
  }

  /** What `getRayCollision` returns: the first sampled point of the segment
      from a to b that lies in a wall, or (-1, -1) when there is none. */
  function RayCollision(m: GridMap, a: Point, b: Point): Point
    requires Valid(m)
  {
    match FirstHitFrom(m, a, b, 0)
    case Some(k) => SamplePoint(a, b, k)
    case None => NoHit
  }

  /** The result of `getRayCollision` is determined by the first hit: it is
      the first wall sample when there is one, at a parameter t in [0, 1);
      a result other than (-1, -1) is such a sample; and with no wall sample
      the result is (-1, -1). The end of the segment (t = 1) is never
      sampled. */
  lemma RayCollisionIsFirstHit(m: GridMap, a: Point, b: Point)
    requires Valid(m)
    ensures forall k :: IsFirstHit(m, a, b, k) ==> RayCollision(m, a, b) == SamplePoint(a, b, k)
    ensures RayCollision(m, a, b) != NoHit ==>
      exists k :: IsFirstHit(m, a, b, k) && RayCollision(m, a, b) == SamplePoint(a, b, k)
    ensures (forall k :: 0 <= k < SampleCount ==> !CheckCollision(m, SamplePoint(a, b, k))) ==>
      RayCollision(m, a, b) == NoHit
  {
    forall k | IsFirstHit(m, a, b, k)
      ensures RayCollision(m, a, b) == SamplePoint(a, b, k)
    {
      FirstHitIsUnique(m, a, b, 0, k);
    }
  }

  /** A search that has so far met only misses and now meets a wall sample
      returns that sample. */
  lemma SearchStopsAtHit(m: GridMap, a: Point, b: Point, k: nat)
    requires Valid(m) && k < SampleCount && CheckCollision(m, SamplePoint(a, b, k))
    requires FirstHitFrom(m, a, b, 0) == FirstHitFrom(m, a, b, k)
    ensures RayCollision(m, a, b) == SamplePoint(a, b, k)
  {
  }

  /** A search that has met only misses up to the last sample returns (-1, -1). */
  lemma SearchExhausted(m: GridMap, a: Point, b: Point)
    requires Valid(m) && FirstHitFrom(m, a, b, 0) == FirstHitFrom(m, a, b, SampleCount)
    ensures RayCollision(m, a, b) == NoHit
  {
  }

  /** A first hit is unique: a wall sample with no wall sample before it is
      the one the search returns. */
  lemma FirstHitIsUnique(m: GridMap, a: Point, b: Point, k: nat, i: nat)
    requires Valid(m) && k <= i < SampleCount
    requires CheckCollision(m, SamplePoint(a, b, i))
    requires forall j :: k <= j < i ==> !CheckCollision(m, SamplePoint(a, b, j))
    ensures FirstHitFrom(m, a, b, k) == Some(i)
  {
  }

  /** On the game's map, looking a point up with truncating division gives
      the same answer as the usual flooring lookup, because the only cells
      where the two differ (column 0 or row 0 reached from just below zero)
      hold no wall. */
  lemma InitialLookupAgreesWithFloor(m: GridMap, p: Point)
    requires HasInitialLayout(m)
    ensures CheckCollision(m, p) <==>
      var col, row := FloorCell(p.x), FloorCell(p.y);
      0 <= col < m.width && 0 <= row < m.height && m.cells[row][col] == 1
  {
    CellIndexVersusFloor(p.x);
    CellIndexVersusFloor(p.y);
    assert forall row :: !IsInitialWall(row, 0) && !IsInitialWall(0, row);
  }

  /** With a free cell (0, 0), as on the game's map, the sentinel (-1, -1)
      is never a genuine hit, so (-1, -1) is returned exactly when no
      sample lies in a wall. */
  lemma NoHitExactlyWhenNoWallSampled(m: GridMap, a: Point, b: Point)
    requires Valid(m) && !CheckCollision(m, NoHit)
    ensures RayCollision(m, a, b) == NoHit <==>
      forall k :: 0 <= k < SampleCount ==> !CheckCollision(m, SamplePoint(a, b, k))
  {
    match FirstHitFrom(m, a, b, 0)
    case Some(k) =>
      assert SamplePoint(a, b, k) != NoHit;
    case None =>
  }

  /** The sentinel point lies in cell (0, 0), which the game's map leaves free. */
  lemma SentinelFreeInInitialLayout(m: GridMap)
    requires HasInitialLayout(m)
    ensures !CheckCollision(m, NoHit)
  {
    assert CellIndex(NoHit.x) == 0;
  }

  /** A ray cast straight down from (200, 120) toward (200, 320) first hits
      at (200, 160): sample 400 is the first to reach cell row 4, column 5,
      a wall, while every earlier sample is in the free cell row 3, column 5. */
  lemma WorkedExample(m: GridMap)
    requires HasInitialLayout(m) && m.width == 20 && m.height == 15
    ensures RayCollision(m, Point(200.0, 120.0), Point(200.0, 320.0)) == Point(200.0, 160.0)
  {
    var a, b := Point(200.0, 120.0), Point(200.0, 320.0);
    forall j | 0 <= j < 400
      ensures !CheckCollision(m, SamplePoint(a, b, j))
    {
      var s := SamplePoint(a, b, j);
      assert s.x == 200.0 && 120.0 <= s.y < 160.0;
      assert CellIndex(s.x) == 5 && CellIndex(s.y) == 3;
    }
    var hit := SamplePoint(a, b, 400);
    assert hit == Point(200.0, 160.0);
    assert CellIndex(hit.x) == 5 && CellIndex(hit.y) == 4;
    FirstHitIsUnique(m, a, b, 0, 400);
  }
}
