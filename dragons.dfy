/**
 * character/Dragon.java: a monster whose attack, speed and defence are
 * rolled from the player's level and capped by the zone, and whose xp is a
 * weighted sum of the three.  The three `Math.random()` draws are
 * parameters in `[0, 1)`; Java `int` arithmetic wraps.
 */
module Dragons {
  import opened Wrappers
  import opened JavaNum
  import opened Vectors
  import opened Stats
  import opened Entities

  /** `(int)Math.floor(draw * (level + 5))`. */
  function Floored(draw: real, level: Int32): Int32 {
    DoubleToInt((draw * (Wrap32(level + 5) as real)).Floor as real)
  }

  /** `k + (zone - 1) * 4 + 3` in `int` arithmetic. */
  function Shifted(k: Int32, zone: Int32): Int32 {
    Wrap32(Wrap32(k + Wrap32(Wrap32(zone - 1) * 4)) + 3)
  }

  /** `Math.min((int)Math.floor(draw * (level + 5)) + (zone - 1) * 4 + 3, zone * 15)`. */
  function Roll(draw: real, level: Int32, zone: Int32): (r: Int32)
    ensures r <= Wrap32(zone * 15)
  {
    var rolled := Shifted(Floored(draw, level), zone);
    var cap := Wrap32(zone * 15);
    if rolled <= cap then rolled else cap
  }

  /** What the Dragon constructor assigns besides the Setup fields. */
  datatype DragonInit = DragonInit(setup: Setup, zone: Int32, xp: Int32)

  /** `Dragon(x, y, player, zone)` for a player of level `level`, with the three draws in order attack, speed, defence. */
  function NewDragon(x: real, y: real, level: Int32, zone: Int32,
                     attackDraw: real, speedDraw: real, defenceDraw: real): (r: DragonInit)
    ensures r.zone == zone && r.setup.animations == Some(["dragon/"])
    ensures r.setup.coordinates == Some(Vec(x, y)) && r.setup.isFacingLeft == Some(false)
    ensures r.setup.stats.Some?
    ensures r.setup.stats.value.attack == Roll(attackDraw, level, zone) as real
    ensures r.setup.stats.value.speed == Roll(speedDraw, level, zone) as real
    ensures r.setup.stats.value.defence == Roll(defenceDraw, level, zone) as real
    ensures r.setup.stats.value.power == 1.0
    ensures r.setup.stats.value.health.max == r.setup.stats.value.health.current == Wrap32(Wrap32(zone + 1) * 250)
    ensures r.setup.stats.value.ether.max == r.setup.stats.value.ether.current == 100
  {
    var attack := Roll(attackDraw, level, zone);
    var speed := Roll(speedDraw, level, zone);
    var defence := Roll(defenceDraw, level, zone);
    var stats := Initial(Wrap32(Wrap32(zone + 1) * 250), 100, speed as real, attack as real, 1.0, defence as real);
    var xp := Wrap32(Wrap32(Wrap32(20 * defence) + Wrap32(30 * attack)) + Wrap32(15 * speed));
    DragonInit(Setup(Some(["dragon/"]), Some(Vec(x, y)), Some(false), Some(stats)), zone, xp)
  }

  function Min(a: int, b: int): int {
    if a <= b then a else b
  }

  /**
   * For a level and zone small enough that nothing wraps, a roll is
   * `min(floor(draw * (level + 5)) + 4 (zone - 1) + 3, 15 zone)`, at most
   * `15 zone` and at least `min(4 (zone - 1) + 3, 15 zone)`.
   */
  lemma RollBounds(draw: real, level: Int32, zone: Int32)
    requires 0.0 <= draw < 1.0 && 0 <= level <= 1_000_000 && 1 <= zone <= 1_000_000
    ensures Roll(draw, level, zone) == Min((draw * ((level + 5) as real)).Floor + 4 * (zone - 1) + 3, 15 * zone)
    ensures Min(4 * (zone - 1) + 3, 15 * zone) <= Roll(draw, level, zone) <= 15 * zone
  {
    var f := FlooredExact(draw, level);
    ShiftedExact(f, zone);
    assert Wrap32(zone * 15) == zone * 15;
  }

  /** Without wrap-around, the floored roll is `floor(draw * (level + 5))`, in `[0, level + 5]`. */
  lemma FlooredExact(draw: real, level: Int32) returns (f: int)
    requires 0.0 <= draw < 1.0 && 0 <= level <= 1_000_000
    ensures f == Floored(draw, level) == (draw * ((level + 5) as real)).Floor && 0 <= f <= level + 5
  {
    f := ScaledDrawFloor(draw, level + 5);
    assert Wrap32(level + 5) == level + 5;
    assert DoubleToInt(f as real) == f;
  }

  /** Without wrap-around, the shift adds `4 (zone - 1) + 3`. */
  lemma ShiftedExact(k: Int32, zone: Int32)
    requires 0 <= k <= 1_000_005 && 1 <= zone <= 1_000_000
    ensures Shifted(k, zone) == k + 4 * (zone - 1) + 3
  {
    assert Wrap32(zone - 1) == zone - 1;
    assert Wrap32((zone - 1) * 4) == (zone - 1) * 4;
    assert Wrap32(k + (zone - 1) * 4) == k + (zone - 1) * 4;
  }

  /** `floor(draw * n)` for a draw in `[0, 1)` lies in `[0, n]`. */
  lemma ScaledDrawFloor(draw: real, n: nat) returns (f: int)
    requires 0.0 <= draw < 1.0
    ensures f == (draw * (n as real)).Floor && 0 <= f <= n
  {
    f := (draw * (n as real)).Floor;
    assert 0.0 <= draw * (n as real) <= n as real;
  }

  /** In zone 1 every roll lies in [3, 15]. */
  lemma FirstZoneRolls(draw: real, level: Int32)
    requires 0.0 <= draw < 1.0 && 0 <= level <= 1_000_000
    ensures 3 <= Roll(draw, level, 1) <= 15
  {
    RollBounds(draw, level, 1);
  }

  /** Without wrap-around the xp is `20 defence + 30 attack + 15 speed`, so it lies between 65 and 65 times the cap of a roll. */
  lemma DragonXp(x: real, y: real, level: Int32, zone: Int32, attackDraw: real, speedDraw: real, defenceDraw: real)
    requires 0.0 <= attackDraw < 1.0 && 0.0 <= speedDraw < 1.0 && 0.0 <= defenceDraw < 1.0
    requires 0 <= level <= 1_000_000 && 1 <= zone <= 1_000_000
    ensures var d := NewDragon(x, y, level, zone, attackDraw, speedDraw, defenceDraw);
            d.xp == 20 * Roll(defenceDraw, level, zone) + 30 * Roll(attackDraw, level, zone) + 15 * Roll(speedDraw, level, zone)
            && 65 * Min(4 * (zone - 1) + 3, 15 * zone) <= d.xp <= 65 * 15 * zone
            && d.setup.stats.value.health.max == (zone + 1) * 250
            && Healthy(d.setup.stats.value)
  {
    RollBounds(attackDraw, level, zone);
    RollBounds(speedDraw, level, zone);
    RollBounds(defenceDraw, level, zone);
  }
}
