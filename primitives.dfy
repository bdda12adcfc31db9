/** Shared value types: the crate's `Point` (src/lib.rs), pixel positions held as `[i32; 2]`,
    the `i32::MIN` sentinel, and the floor/ceil/min/max operations the core applies to `f32`. */
module Primitives {

  /** `i32::MIN`, used as the "not pressed" coordinate of a button's down position. */
  const I32_MIN: int := -0x8000_0000

  datatype Option<T> = None | Some(value: T)

  /** A world-space point (`[f32; 2]`), modelled over the reals. */
  datatype Point = Point(x: real, y: real)

  /** A screen-space pixel position (`[i32; 2]`), modelled over unbounded integers. */
  datatype Px = Px(x: int, y: int)

  function Abs(v: int): (r: nat)
    ensures r == v || r == -v
  {
    if v < 0 then -v else v
  }

  /** `f32::max` for non-NaN operands. */
  function MaxReal(a: real, b: real): (r: real)
    ensures r >= a && r >= b && (r == a || r == b)
  {
    if a < b then b else a
  }

  /** `f32::min` for non-NaN operands. */
  function MinReal(a: real, b: real): (r: real)
    ensures r <= a && r <= b && (r == a || r == b)
  {
    if a < b then a else b
  }

  /** `f32::floor`: the largest integer not above `v`. */
  function Floor(v: real): (r: int)
    ensures r as real <= v < r as real + 1.0
  {
    v.Floor
  }

  /** `f32::ceil`, written through floor: the smallest integer not below `v`. */
  function Ceil(v: real): (r: int)
    ensures v <= r as real < v + 1.0
  {
    -((-v).Floor)
  }
}
