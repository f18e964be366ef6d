/**
 * character/Firemonster.java: the fire-monster animations, a position, and
 * no assignment of the facing flag.
 */
module Firemonsters {
  import opened Wrappers
  import opened Vectors
  import opened Entities

  /** `Firemonster(x, y)`: the fire-monster animations and the coordinates; facing and stats are not assigned. */
  function FiremonsterInit(x: real, y: real): (r: Setup)
    ensures r.animations == Some(["monster/firemonster/"])
    ensures r.coordinates == Some(Vec(x, y)) && r.isFacingLeft.None? && r.stats.None?
  {
    Setup(Some(["monster/firemonster/"]), Some(Vec(x, y)), None, None)
  }

  /** `Firemonster()`: the same monster at the origin. */
  function FiremonsterDefault(): (r: Setup)
    ensures r.coordinates == Some(Zero)
    ensures forall x: real, y: real :: r == FiremonsterInit(x, y) <==> x == 0.0 && y == 0.0
  {
    FiremonsterInit(0.0, 0.0)
  }

  /** `getOffset()`. */
  function FiremonsterOffset(isAttacking: bool, isFacingLeft: bool): (r: Vec)
    ensures !IsNull(r) <==> isAttacking && isFacingLeft
    ensures !IsNull(r) ==> r == Vec(-32.0, 0.0)
  {
    if isAttacking && isFacingLeft then Vec(-32.0, 0.0) else Vec(0.0, 0.0)
  }
}
