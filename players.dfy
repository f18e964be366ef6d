/**
 * character/Player.java: the player's starting values and its render
 * offset, which shifts an attacking sprite by 16 pixels against its facing.
 */
module Players {
  import opened Wrappers
  import opened Vectors
  import opened Stats
  import opened Entities

  /** `Player(x, y)`: the player animations, facing right, stats (100, 100, 10, 1, 1, 1). */
  function PlayerInit(x: real, y: real): (r: Setup)
    ensures r.animations == Some(["player/"])
    ensures r.coordinates == Some(Vec(x, y)) && r.isFacingLeft == Some(false) && !FacingLeftAfter(r)
    ensures r.stats.Some? && Healthy(r.stats.value)
    ensures r.stats.value.health.current == r.stats.value.health.max == 100
    ensures r.stats.value.ether.current == r.stats.value.ether.max == 100
    ensures r.stats.value.speed == 10.0 && r.stats.value.attack == 1.0
    ensures r.stats.value.power == 1.0 && r.stats.value.defence == 1.0
  {
    Setup(Some(["player/"]), Some(Vec(x, y)), Some(false), Some(Initial(100, 100, 10.0, 1.0, 1.0, 1.0)))
  }

  /** `Player()`: the same player at the origin. */
  function PlayerDefault(): (r: Setup)
    ensures r.coordinates == Some(Zero)
    ensures forall x: real, y: real :: r == PlayerInit(x, y) <==> x == 0.0 && y == 0.0
  {
    PlayerInit(0.0, 0.0)
  }

  /** `getOffset()`. */
  function PlayerOffset(isAttacking: bool, isFacingLeft: bool): (r: Vec)
    ensures !isAttacking <==> IsNull(r)
    ensures r.y == 0.0
    ensures isAttacking && isFacingLeft ==> r.x == 16.0
    ensures isAttacking && !isFacingLeft ==> r.x == -16.0
  {
    if isAttacking then Vec(if isFacingLeft then 16.0 else -16.0, 0.0) else Vec(0.0, 0.0)
  }

  /** The two attacking offsets mirror each other, and facing does not matter when not attacking. */
  lemma PlayerOffsetMirror(isFacingLeft: bool)
    ensures PlayerOffset(true, isFacingLeft) == Negated(PlayerOffset(true, !isFacingLeft))
    ensures PlayerOffset(false, isFacingLeft) == PlayerOffset(false, !isFacingLeft) == Zero
  {
  }
}
