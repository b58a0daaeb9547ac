/**
 * Overlap resolution: how PlaceBlock classifies a placement as a miss, a
 * perfect hit or a partial hit, and what block (and rubble) it produces.
 */
module Placement {
  import opened Geometry

  /** What a placement produces. `placed` is the block that stays on the stack; `rubble` the part cut off. */
  datatype Outcome = Miss | Perfect(placed: Block) | Partial(placed: Block, rubble: Block)

  /** Signed misalignment of the moving block against the block below, on the active axis. */
  function Delta(current: Block, prev: Block, onX: bool): real
  {
    Along(current.position, onX) - Along(prev.position, onX)
  }

  /**
   * The arithmetic of PlaceBlock. The miss test is inclusive (`absDelta >= size`),
   * the perfect test too (`absDelta <= tolerance`); a partial hit shrinks the
   * block to the overlap, re-centres it at `prev + delta / 2`, and puts the cut
   * part flush against it on the side of the sign of `delta`.
   */
  function Resolve(current: Block, prev: Block, onX: bool, tolerance: real): (r: Outcome)
    ensures r.Miss? <==> Abs(Delta(current, prev, onX)) >= Along(current.scale, onX)
    ensures r.Perfect? <==>
      Abs(Delta(current, prev, onX)) < Along(current.scale, onX) && Abs(Delta(current, prev, onX)) <= tolerance
    ensures r.Perfect? ==>
      Along(r.placed.position, onX) == Along(prev.position, onX) &&
      Across(r.placed.position, onX) == Across(current.position, onX) &&
      r.placed.position.y == current.position.y &&
      r.placed.scale == current.scale
    ensures r.Partial? ==>
      var size := Along(current.scale, onX);
      var newSize := Along(r.placed.scale, onX);
      var rubbleSize := Along(r.rubble.scale, onX);
      newSize == size - Abs(Delta(current, prev, onX)) && 0.0 < newSize &&
      rubbleSize == Abs(Delta(current, prev, onX)) && newSize + rubbleSize == size &&
      Across(r.placed.scale, onX) == Across(current.scale, onX) && r.placed.scale.y == current.scale.y &&
      Across(r.rubble.scale, onX) == Across(current.scale, onX) && r.rubble.scale.y == current.scale.y &&
      Across(r.placed.position, onX) == Across(current.position, onX) && r.placed.position.y == current.position.y &&
      Across(r.rubble.position, onX) == Across(current.position, onX) && r.rubble.position.y == current.position.y
  {
    var delta := Delta(current, prev, onX);
    var size := Along(current.scale, onX);
    var absDelta := Abs(delta);
    if absDelta >= size then
      Miss
    else if absDelta <= tolerance then
      Perfect(Block(WithAlong(current.position, onX, Along(prev.position, onX)), current.scale))
    else
      var newSize := size - absDelta;
      var rubbleSize := absDelta;
      var newScale := WithAlong(current.scale, onX, newSize);
      var middle := Along(prev.position, onX) + delta / 2.0;
      var rubbleCentre :=
        if delta > 0.0 then middle + newSize / 2.0 + rubbleSize / 2.0
        else middle - newSize / 2.0 - rubbleSize / 2.0;
      Partial(
        Block(WithAlong(current.position, onX, middle), newScale),
        Block(WithAlong(current.position, onX, rubbleCentre), WithAlong(newScale, onX, rubbleSize)))
  }

  /**
   * The cut is exact on the active axis: `survivor` spans the intersection of the
   * pre-cut block with the block below, and `rubble` spans the rest of the pre-cut
   * block, touching the survivor on the side of the sign of the misalignment.
   */
  ghost predicate CutAtOverlap(current: Block, prev: Block, onX: bool, survivor: Block, rubble: Block)
  {
    var c, cs := Along(current.position, onX), Along(current.scale, onX);
    var p, ps := Along(prev.position, onX), Along(prev.scale, onX);
    var s, ss := Along(survivor.position, onX), Along(survivor.scale, onX);
    var b, bs := Along(rubble.position, onX), Along(rubble.scale, onX);
    Lo(s, ss) == Max(Lo(c, cs), Lo(p, ps)) && Hi(s, ss) == Min(Hi(c, cs), Hi(p, ps)) &&
    (c > p ==> Lo(b, bs) == Hi(s, ss) && Hi(b, bs) == Hi(c, cs)) &&
    (c <= p ==> Hi(b, bs) == Lo(s, ss) && Lo(b, bs) == Lo(c, cs))
  }

  /**
   * When the moving block and the block below have the same size on the active
   * axis (which the game keeps true), a partial hit cuts exactly at the overlap.
   */
  lemma PartialCutsAtOverlap(current: Block, prev: Block, onX: bool, tolerance: real)
    requires Along(current.scale, onX) == Along(prev.scale, onX)
    requires Resolve(current, prev, onX, tolerance).Partial?
    ensures var r := Resolve(current, prev, onX, tolerance); CutAtOverlap(current, prev, onX, r.placed, r.rubble)
  {
  }

  /** A perfect hit with equal sizes leaves the placed block exactly on top of the block below. */
  lemma PerfectCoversBelow(current: Block, prev: Block, onX: bool, tolerance: real)
    requires Along(current.scale, onX) == Along(prev.scale, onX)
    requires Resolve(current, prev, onX, tolerance).Perfect?
    ensures var s := Resolve(current, prev, onX, tolerance).placed;
      Lo(Along(s.position, onX), Along(s.scale, onX)) == Lo(Along(prev.position, onX), Along(prev.scale, onX)) &&
      Hi(Along(s.position, onX), Along(s.scale, onX)) == Hi(Along(prev.position, onX), Along(prev.scale, onX))
  {
  }
}
