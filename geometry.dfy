/** Option, for the block that may not exist yet and for the rubble a placement may emit. */
module Wrappers {
  datatype Option<+T> = None | Some(value: T)
}

/**
 * The vector arithmetic the game core uses: Unity's Vector3 over exact reals,
 * a block's transform (centre position and local scale), the absolute value
 * (Mathf.Abs), and the two horizontal axes a block can move along.
 */
module Geometry {

  /** A Unity Vector3, with exact real components instead of single-precision floats. */
  datatype Vec3 = Vec3(x: real, y: real, z: real)

  /** The part of a block's Transform the core reads and writes: its centre and its scale (full extents). */
  datatype Block = Block(position: Vec3, scale: Vec3)

  /** Mathf.Abs. */
  function Abs(x: real): (r: real)
    ensures r >= 0.0
    ensures r == x || r == -x
  {
    if x < 0.0 then -x else x
  }

  function Min(a: real, b: real): (r: real)
    ensures r <= a && r <= b && (r == a || r == b)
  {
    if a <= b then a else b
  }

  function Max(a: real, b: real): (r: real)
    ensures r >= a && r >= b && (r == a || r == b)
  {
    if a <= b then b else a
  }

  /** The component on the active horizontal axis: x while moving on X, z otherwise. */
  function Along(v: Vec3, onX: bool): real
  {
    if onX then v.x else v.z
  }

  /** The component on the other, inactive horizontal axis. */
  function Across(v: Vec3, onX: bool): real
  {
    if onX then v.z else v.x
  }

  /** `v` with its active-axis component overwritten by `c` (the `pos.x = …` / `pos.z = …` idiom). */
  function WithAlong(v: Vec3, onX: bool, c: real): (w: Vec3)
    ensures Along(w, onX) == c
    ensures Across(w, onX) == Across(v, onX) && w.y == v.y
  {
    if onX then v.(x := c) else v.(z := c)
  }

  /** Lower end of the extent of a block centred at `centre` with size `size` on one axis. */
  function Lo(centre: real, size: real): real
  {
    centre - size / 2.0
  }

  /** Upper end of that extent. */
  function Hi(centre: real, size: real): real
  {
    centre + size / 2.0
  }
}
