# LiDAR proof of concept — occupancy-grid ray tracer

This project models the core of a small SFML game in which a player sweeps a
simulated LiDAR cone through a 2-D occupancy grid. The game object owns:

- a 15 × 20 table of 0/1 cells (`map`), each cell 40 world units square;
- a buffer of rays from the most recent scan (`rayPoints`).

The modelled operations are:

- `createMap` builds the table.
- `checkCollision` looks a world point up in the table.
- `getRayCollision` marches along a segment in 2000 steps and returns the
  first sample inside a wall, or the sentinel (-1, -1).
- `scan` clears the ray buffer and casts one ray every 0.05 degrees across
  the cone.
- The ray loop of `render` fades each ray with
  `alpha = 255 - trunc(elapsed · 255)`. It skips rays whose alpha is not
  positive and overwrites the vertex alphas of the others in place.

Modules:

- `Geometry` (geometry.dfy) holds points, the truncating cell index, the
  sample points of the marching loop and the far endpoint of a ray.
- `Cone` (cone.dfy) holds the ray offsets and the number of rays per scan.
- `Rays` (rays.dfy) holds colours, vertices, ray records, the alpha formula
  and the fade of one ray.
- `OccupancyGrid` (occupancy.dfy) holds the grid as a value, the point lookup
  and the first-hit search, with their lemmas.
- `Lidar` (game.dfy) holds the `Game` class with the source's fields. Its
  methods change those fields in place.

Floats are modelled as exact reals. The loops use integer counters:

- sample `k` lies at `t = k / 2000`, for `k < 2000`;
- ray `j` has offset `-coneWidth/2 + j · 0.05`, for as long as that offset is
  at most `coneWidth/2`.

`static_cast<int>` is modelled explicitly as truncation toward zero (`Trunc`).
So a coordinate in (-40, 0) falls in column or row 0.

Behaviour of the code that the model keeps:

- Cells are found by truncating division by 40. A point just left of or
  above zero therefore lands in column or row 0. `InitialLookupAgreesWithFloor`
  proves that on the game's map this gives the same answers as a flooring
  lookup, because row 0 and column 0 hold no wall.
- The search tests `t = 0`, the start point itself, so a hit may lie at the
  start. It never tests `t = 1`, the end point.
- `render` removes no ray. Faded-out rays stay in the buffer until the next
  `scan` clears it, and each scan replaces all previous rays.
- A ray fades out one second after it was cast, since alpha is
  `255 - trunc(elapsed · 255)`.
- `scan` accepts any cone width. A negative `coneWidth` yields no rays.
- A genuine hit at exactly (-1, -1) would be taken for "no hit". This cannot
  happen on the game's map, because (-1, -1) lies in the free cell (0, 0)
  (`SentinelFreeInInitialLayout`, `NoHitExactlyWhenNoWallSampled`).

## Model

| member | source | states |
|---|---|---|
| Geometry.Trunc | main.cpp:126-127 | `static_cast<int>` rounds toward zero: for r ≥ 0 the result is the largest integer ≤ r; for r < 0 it is the smallest integer ≥ r |
| Geometry.CellIndexVersusFloor | main.cpp:126-127 | the truncating cell index equals the floored one for coordinates ≥ 0; on (-40, 0) it is 0 where flooring gives -1; at -40 and below both are negative |
| Geometry.SamplePoint | main.cpp:171-173 | the k-th sample of the marching loop, `start + t·(end − start)` at t = k/2000, the value the float `t` holds after k steps of 0.0005 under exact arithmetic |
| Geometry.SampleEnds | main.cpp:171-173 | sample 0 is the start point itself; the end point would be sample 2000, one past the last sample taken |
| Geometry.RayEnd | main.cpp:187-192 | the far endpoint of a ray, `position + (cos, sin) · distance`; a zero distance or zero direction leaves it at the position |
| Geometry.RayEndAtRange | main.cpp:187-192 | the far endpoint `position + (cos, sin) · distance` lies exactly `distance` from the position when (cos, sin) is a unit vector |
| Cone.RayCount | main.cpp:145 | the number of rays per scan is exactly the number of counters j whose offset `-coneWidth/2 + j·0.05` is ≤ `coneWidth/2` (iff, for every j) |
| Cone.OffsetsIncrease | main.cpp:145 | rays are cast in strictly increasing offset order |
| Cone.DefaultFan | main.cpp:145 | the game's 60-degree cone casts 1201 rays, the first at -30 and the last at +30 |
| Rays.ToByte | main.cpp:226-227 | storing an int in a Uint8 colour channel yields a value in 0..255 that is congruent to the int modulo 256, and equal to it when it already lies in 0..255 |
| Rays.Alpha | main.cpp:219-224 | alpha is positive exactly when elapsed < 1 s; it is at most 255 once elapsed ≥ 0, lies in 1..255 for 0 ≤ elapsed < 1, and is 255 at elapsed 0 |
| Rays.AlphaNonIncreasing | main.cpp:219-220 | for 0 ≤ e1 ≤ e2, alpha at e2 is at most alpha at e1 |
| Rays.SkippedStaysSkipped | main.cpp:219-224 | a ray skipped at one frame is skipped at every later frame |
| Rays.Faded | main.cpp:217-228 | after a frame a ray keeps its endpoints and creation time; a ray at least 1 s old is unchanged; a ray younger than 1 s (and not from the future) has both vertex alphas set to its alpha |
| OccupancyGrid.CheckCollision | main.cpp:124-136 | the body is the lookup (truncated cell, range test, cell read equal to 1); the contract adds that a point whose truncated cell lies outside [0, mapWidth) × [0, mapHeight) never collides |
| OccupancyGrid.CollidingPointInBox | main.cpp:124-136 | every colliding point lies strictly between -40 and 40 · mapWidth in x and between -40 and 40 · mapHeight in y; the strip (-40, 0) is included because truncation sends it to column or row 0 |
| OccupancyGrid.FirstHitFrom | main.cpp:171-182 | the search from sample k returns the first sample index in [k, 2000) whose point collides, with no colliding sample before it; it returns none exactly when no sample in [k, 2000) collides |
| OccupancyGrid.MissedSampleSkipped | main.cpp:175-182 | a sample outside every wall does not stop the loop: searching from it and from the next sample gives the same result |
| OccupancyGrid.RayCollision | main.cpp:166-185 | what `getRayCollision` returns, computed from the first-hit search: the first colliding sample, or (-1, -1) when there is none |
| OccupancyGrid.RayCollisionIsFirstHit | main.cpp:171-184 | when sample k collides and no earlier sample does, the result is sample k, whatever the map; a result other than (-1, -1) is such a first colliding sample, at t = k/2000 < 1; when no sample collides the result is (-1, -1) |
| OccupancyGrid.SearchStopsAtHit | main.cpp:175-180 | once every sample before k has missed, a colliding sample k is the result |
| OccupancyGrid.SearchExhausted | main.cpp:175-184 | when all 2000 samples have missed, the result is (-1, -1) |
| OccupancyGrid.FirstHitIsUnique | main.cpp:171-181 | a colliding sample with no colliding sample before it is the one the search returns |
| OccupancyGrid.InitialLookupAgreesWithFloor | main.cpp:124-136 | on the map `createMap` builds, the truncating lookup gives the same answer as a flooring lookup for every point |
| OccupancyGrid.NoHitExactlyWhenNoWallSampled | main.cpp:175-184 | when cell (0, 0) is free, the result is (-1, -1) exactly when no sample collides |
| OccupancyGrid.SentinelFreeInInitialLayout | main.cpp:55-70 | on the map `createMap` builds, (-1, -1) does not collide |
| OccupancyGrid.WorkedExample | main.cpp:166-185 | on that map, the segment from (200, 120) to (200, 320) first hits at (200, 160): sample 400 is in wall cell (row 4, column 5) and every earlier sample is in free cell (row 3, column 5) |
| Lidar.ScanEnd | main.cpp:149-153 | the end of a ray cast toward its far endpoint: the collision point when marching returns one other than (-1, -1), otherwise the far endpoint; so it is either the far endpoint or a point in a wall, and it is the far endpoint when no sample collides |
| Lidar.ScanEndIsFirstHitOrFar | main.cpp:149-153 | with cell (0, 0) free, a ray ends at its first colliding sample (which collides) when there is one, and at its far endpoint when there is none |
| Lidar.UnobstructedRayAtRange | main.cpp:147-153 | a ray along a unit direction whose samples meet no wall ends exactly `scanRange` away from the player |
| Lidar.ScannedRay | main.cpp:155-158 | the ray record a scan stores: a green start vertex at the player's position, a green end vertex at the ray's end (the far endpoint or a point in a wall), and the clock reading as creation time |
| Lidar.RayDirection | main.cpp:145-147 | ray j of the cone points along `dirOf` (cos, sin) of the angle `playerAngle + (-coneWidth/2 + j·0.05)` |
| Lidar.FanDirections | main.cpp:145-147 | the directions of a scan, one per ray of the cone in casting order: the `RayCount(coneWidth)` values `RayDirection` of j (a definition with no contract; `ScanRayAt` states the angle of each ray) |
| Lidar.FanRays | main.cpp:142-161 | the first n rays a scan stores, in casting order: exactly n of them |
| Lidar.FanRayAt | main.cpp:147-160 | ray j of the buffer is the ray cast along the j-th direction, stopped at its first wall sample or at its far endpoint, stamped with the j-th clock reading |
| Lidar.ScanRayAt | main.cpp:145-158 | ray j of a full scan is cast at angle `playerAngle + (-coneWidth/2 + j·0.05)`, i.e. ray j belongs to offset j, in increasing-offset order |
| Lidar.FanCreationTimesOrdered | main.cpp:158-160 | rays are stamped in casting order: when the clock readings do not decrease, neither do the creation times along the buffer |
| Lidar.Game.constructor | main.cpp:19-34 | the game starts at (400, 300) with heading 0, a 60-degree cone of range 200, a 20 × 15 map laid out as `createMap` lays it out, and no rays |
| Lidar.Game.CreateMap | main.cpp:55-70 | afterwards the table has mapHeight rows of mapWidth entries; an entry is 1 exactly at (4,5), (4,6), (5,5), (6,5), (8,8), (9,8), (10,8) and row 8 columns 3..12, and 0 everywhere else |
| Lidar.Game.GetRayCollision | main.cpp:166-185 | the marching loop returns exactly `RayCollision` of the grid: the first colliding sample, or (-1, -1) |
| Lidar.Game.CastRay | main.cpp:147-160 | one pass of the scan loop: the stored ray is `ScannedRay` of the player's position and the far endpoint `scanRange` along the given direction, at the given clock reading |
| Lidar.Game.Scan | main.cpp:142-164 | the old buffer is discarded; afterwards it is exactly `FanRays` of the cone: `RayCount(coneWidth)` rays, ray j cast along `dirOf(playerAngle + Offset(coneWidth, j))` from the player's position to its first wall sample or its far endpoint, green, created at the j-th clock reading |
| Lidar.Game.Render | main.cpp:215-230 | the buffer keeps its length; each ray becomes `Faded` of its old value, so skipped rays stay unchanged and are not removed; the drawn rays, listed in increasing index order, are exactly those whose alpha is positive |

## Left out

- The window, event loop, drawing of walls, player and rays, and the console
  output (main.cpp:19-42, 72-80, 163, 194-213, 229-232). These are I/O
  through the SFML library.
- Keyboard movement, rotation and scan triggering in `handleInput`
  (main.cpp:82-122). This is input plumbing; the `checkCollision` it calls is
  modelled.
- The global `IsBlind` toggle (main.cpp:9, 114-121, 202-207). It only
  chooses a wall colour.
- `cos` and `sin` in `getRayEnd`, and the conversion from degrees to
  radians. `Scan` receives them as one function `dirOf` from an angle in
  degrees to its direction (cos, sin), and casts ray j along
  `dirOf(playerAngle + Offset(coneWidth, j))`. Nothing is assumed of `dirOf`;
  only `UnobstructedRayAtRange` asks for a unit direction. The translation
  and scaling by `scanRange` are modelled (`RayEnd`).
- `sf::Clock` and `sf::Time`. `Scan` receives the clock reading taken for
  each ray, and `Render` receives the current reading, as real seconds.
  Microsecond resolution is not modelled.
- Float rounding of the accumulating loops (`t += 0.0005f`,
  `i += 0.05f`), which can change the number of iterations by one.
  Arithmetic is exact. The float-to-int conversion is modelled only for
  values in `int` range; overflow of `static_cast<int>` is not modelled.
- Lidar.Game.CreateMap: modelled for its one call, from the constructor, on
  the empty table. `resize` on a table that already has rows is not modelled.
