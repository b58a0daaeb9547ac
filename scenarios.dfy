/**
 * Worked placements on the 5 x 1 x 5 base block with the default settings
 * (tolerance 0.1). The first moving block travels on Z, one level up.
 */
module Scenarios {
  import opened Geometry
  import Placement

  const Base: Block := Block(Vec3(0.0, -0.5, 0.0), Vec3(5.0, 1.0, 5.0))

  /** 0.05 off is a perfect hit: snapped to z = 0, size kept; 4.9 off on the next block leaves 0.1. */
  lemma PerfectThenPartial()
    ensures Placement.Resolve(Block(Vec3(0.0, 0.5, 0.05), Base.scale), Base, false, 0.1)
         == Placement.Perfect(Block(Vec3(0.0, 0.5, 0.0), Base.scale))
    ensures var r := Placement.Resolve(Block(Vec3(4.9, 1.5, 0.0), Base.scale), Block(Vec3(0.0, 0.5, 0.0), Base.scale), true, 0.1);
      r.Partial? && r.placed.scale == Vec3(0.1, 1.0, 5.0) && r.rubble.scale == Vec3(4.9, 1.0, 5.0) &&
      r.placed.position == Vec3(2.45, 1.5, 0.0) && r.rubble.position == Vec3(4.95, 1.5, 0.0)
  {
  }

  /** A misalignment equal to the size is a miss: the test is inclusive. */
  lemma ExactSizeIsMiss()
    ensures Placement.Resolve(Block(Vec3(0.0, 0.5, 5.0), Base.scale), Base, false, 0.1).Miss?
    ensures Placement.Resolve(Block(Vec3(0.0, 0.5, -5.0), Base.scale), Base, false, 0.1).Miss?
  {
  }
}
