/**
 * character/Mage.java: a character with the mage animations whose attacking
 * sprite, when facing left, is drawn 32 pixels further left.
 */
module Mages {
  import opened Wrappers
  import opened Vectors
  import opened Entities

  /** `Mage(x, y)`: the mage animations, facing right; no stats are assigned. */
  function MageInit(x: real, y: real): (r: Setup)
    ensures r.animations == Some(["mage/"])
    ensures r.coordinates == Some(Vec(x, y)) && r.isFacingLeft == Some(false) && !FacingLeftAfter(r)
    ensures r.stats.None?
  {
    Setup(Some(["mage/"]), Some(Vec(x, y)), Some(false), None)
  }

  /** `Mage()`: the same mage at the origin. */
  function MageDefault(): (r: Setup)
    ensures r.coordinates == Some(Zero)
    ensures forall x: real, y: real :: r == MageInit(x, y) <==> x == 0.0 && y == 0.0
  {
    MageInit(0.0, 0.0)
  }

  /** `getOffset()`. */
  function MageOffset(isAttacking: bool, isFacingLeft: bool): (r: Vec)
    ensures !IsNull(r) <==> isAttacking && isFacingLeft
    ensures !IsNull(r) ==> r == Vec(-32.0, 0.0)
  {
    if isAttacking && isFacingLeft then Vec(-32.0, 0.0) else Vec(0.0, 0.0)
  }
}
