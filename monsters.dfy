/**
 * character/Monster.java: the monster's starting values, its render offset
 * and `tryAttack`, whose cooldown timer is a static field shared by every
 * monster.  `Math.random()` is the parameter `draw` in `[0, 1)` and the
 * distance to the player is given.
 */
module Monsters {
  import opened Wrappers
  import opened Vectors
  import opened Stats
  import opened Entities

  /** `Monster(x, y)`: the monster animations, facing right, stats (100, 100, 1, 1, 1, 1). */
  function MonsterInit(x: real, y: real): (r: Setup)
    ensures r.animations == Some(["monster/"])
    ensures r.coordinates == Some(Vec(x, y)) && r.isFacingLeft == Some(false) && !FacingLeftAfter(r)
    ensures r.stats.Some? && Healthy(r.stats.value)
    ensures r.stats.value.health.current == r.stats.value.health.max == 100
    ensures r.stats.value.ether.current == r.stats.value.ether.max == 100
    ensures r.stats.value.speed == r.stats.value.attack == r.stats.value.power == r.stats.value.defence == 1.0
  {
    Setup(Some(["monster/"]), Some(Vec(x, y)), Some(false), Some(Initial(100, 100, 1.0, 1.0, 1.0, 1.0)))
  }

  /** `Monster()`: the same monster at the origin. */
  function MonsterDefault(): (r: Setup)
    ensures r.coordinates == Some(Zero)
    ensures forall x: real, y: real :: r == MonsterInit(x, y) <==> x == 0.0 && y == 0.0
  {
    MonsterInit(0.0, 0.0)
  }

  /** `getOffset()`: both branches build the zero vector. */
  function MonsterOffset(isAttacking: bool, isFacingLeft: bool): (r: Vec)
    ensures IsNull(r)
  {
    if isAttacking then Vec(if isFacingLeft then 0.0 else 0.0, 0.0) else Vec(0.0, 0.0)
  }

  /** `attackRadius`. */
  const AttackRadius: real := 150.0

  /**
   * Whether `tryAttack` makes the monster attack: timer run out, player near, and
   * the draw below the probability. A probability of 0 never attacks, and one of
   * 100 always attacks a near player once the timer has run out.
   */
  predicate Attacks(timer: real, distance: real, draw: real, attackProbability: real)
    ensures 0.0 <= draw && attackProbability <= 0.0 ==> !Attacks(timer, distance, draw, attackProbability)
    ensures timer <= 0.0 && distance <= AttackRadius && 0.0 <= draw < 1.0 && attackProbability >= 100.0
            ==> Attacks(timer, distance, draw, attackProbability)
  {
    timer <= 0.0 && distance <= AttackRadius && draw * 100.0 < attackProbability
  }

  /** The shared timer after one `tryAttack` call. */
  function TimerAfter(timer: real, distance: real, draw: real, attackProbability: real, cooldown: real): (r: real)
    ensures Attacks(timer, distance, draw, attackProbability) && cooldown > 0.0 ==> r == cooldown - 1.0
    ensures Attacks(timer, distance, draw, attackProbability) && cooldown <= 0.0 ==> r == cooldown
    ensures !Attacks(timer, distance, draw, attackProbability) && timer > 0.0 ==> r == timer - 1.0
    ensures !Attacks(timer, distance, draw, attackProbability) && timer <= 0.0 ==> r == timer
  {
    var t := if Attacks(timer, distance, draw, attackProbability) then cooldown else timer;
    if t > 0.0 then t - 1.0 else t
  }

  /** The arguments of one `tryAttack` call, from any monster. */
  datatype Call = Call(distance: real, draw: real, attackProbability: real, cooldown: real)

  /** Which of a sequence of calls attack, starting from the shared timer `timer`. */
  function AttackRun(timer: real, calls: seq<Call>): (r: seq<bool>)
    ensures |r| == |calls|
    decreases |calls|
  {
    if calls == [] then []
    else
      var c := calls[0];
      [Attacks(timer, c.distance, c.draw, c.attackProbability)]
      + AttackRun(TimerAfter(timer, c.distance, c.draw, c.attackProbability, c.cooldown), calls[1..])
  }

  /** A timer at `t > 0` blocks the next calls, from whichever monster, for as long as `i < t`. */
  lemma {:induction false} CooldownSuppressesAll(timer: real, calls: seq<Call>)
    ensures forall i :: 0 <= i < |calls| && (i as real) < timer ==> !AttackRun(timer, calls)[i]
    decreases |calls|
  {
    if calls != [] {
      var c := calls[0];
      var next := TimerAfter(timer, c.distance, c.draw, c.attackProbability, c.cooldown);
      CooldownSuppressesAll(next, calls[1..]);
      forall i | 0 <= i < |calls| && (i as real) < timer
        ensures !AttackRun(timer, calls)[i]
      {
        if i > 0 {
          assert ((i - 1) as real) < next;
          assert AttackRun(timer, calls)[i] == AttackRun(next, calls[1..])[i - 1];
        }
      }
    }
  }

  /** After an attack with cooldown `c > 0`, call number `i` after it fails, whichever monster makes it, while `i < c`. */
  lemma AttackThenCooldown(timer: real, c: Call, rest: seq<Call>)
    requires Attacks(timer, c.distance, c.draw, c.attackProbability) && c.cooldown > 0.0
    ensures AttackRun(timer, [c] + rest)[0]
    ensures forall i :: 1 <= i <= |rest| && (i as real) < c.cooldown ==> !AttackRun(timer, [c] + rest)[i]
  {
    var calls := [c] + rest;
    assert calls[0] == c && calls[1..] == rest;
    var next := TimerAfter(timer, c.distance, c.draw, c.attackProbability, c.cooldown);
    assert next == c.cooldown - 1.0;
    var tail := AttackRun(next, rest);
    assert AttackRun(timer, calls) == [true] + tail;
    CooldownSuppressesAll(next, rest);
    forall i | 1 <= i <= |rest| && (i as real) < c.cooldown
      ensures !AttackRun(timer, calls)[i]
    {
      assert ((i - 1) as real) < next;
      assert AttackRun(timer, calls)[i] == tail[i - 1];
    }
  }

  /** `monster.attack()` when `attacks` holds. */
  method AttackWhen(monster: Entity, attacks: bool)
    requires monster.Valid()
    modifies monster, monster.Repr()
    ensures monster.Valid()
    ensures monster.Snap() == if attacks then DoAttack(old(monster.Snap())) else old(monster.Snap())
  {
    if attacks {
      monster.Attack();
    }
  }

  /** The static `attackCooldownTimer`, shared by every monster. */
  class AttackCooldown {
    var timer: real

    /** The field's Java default. */
    constructor ()
      ensures timer == 0.0
    {
      timer := 0.0;
    }

    /** `tryAttack(monster, player, difference, attackProbability, cooldown)` with `|difference|` and the draw given. */
    method TryAttack(monster: Entity, distance: real, draw: real, attackProbability: real, cooldown: real)
      requires monster.Valid()
      modifies this, monster, monster.Repr()
      ensures monster.Valid()
      ensures monster.Snap() == if Attacks(old(timer), distance, draw, attackProbability) then DoAttack(old(monster.Snap())) else old(monster.Snap())
      ensures timer == TimerAfter(old(timer), distance, draw, attackProbability, cooldown)
    {
      var attacks := false;
      var t := timer;
      if t <= 0.0 && distance <= AttackRadius {
        var randomValue := draw * 100.0;
        if randomValue < attackProbability {
          attacks := true;
          t := cooldown;
        }
      }
      if t > 0.0 {
        t := t - 1.0;
      }
      // The timer's new value is kept in `t` and stored after the attack, which touches only the monster.
      AttackWhen(monster, attacks);
      timer := t;
    }
  }
}
