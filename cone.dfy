/** The fan of rays `scan` casts: angle offsets from -coneWidth/2 upward in
    steps of 0.05 degrees while the offset is at most +coneWidth/2. The
    float accumulator of the source is replaced by an integer counter j. */
module Cone {

  /** Degrees between neighbouring rays. */
  const AngleStep: real := 0.05

  /** The offset of the j-th ray: -coneWidth/2 + j * 0.05. */
  function Offset(coneWidth: real, j: nat): real
  {
    -coneWidth / 2.0 + j as real * AngleStep
  }

  /** How many rays one scan casts: exactly the counters j whose offset is
      still within the cone, so the loop stops at the first one outside. */
  function RayCount(coneWidth: real): (n: nat)
    ensures forall j: nat :: j < n <==> Offset(coneWidth, j) <= coneWidth / 2.0
  {
    if coneWidth < 0.0 then 0 else (coneWidth / AngleStep).Floor + 1
  }

  /** Offsets grow with the counter, so rays are cast in increasing-offset order. */
  lemma OffsetsIncrease(coneWidth: real, i: nat, j: nat)
    requires i < j
    ensures Offset(coneWidth, i) < Offset(coneWidth, j)
  {
  }

  /** The game's cone of 60 degrees casts 1201 rays, from -30 to +30 inclusive. */
  lemma DefaultFan()
    ensures RayCount(60.0) == 1201
    ensures Offset(60.0, 0) == -30.0 && Offset(60.0, 1200) == 30.0
  {
  }
}
