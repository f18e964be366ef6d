/**
 * character/EntityStats.java: health and ether as Range objects, four real
 * stats, the upgrade trade-offs and the damage formula.  Java `int`
 * arithmetic wraps (Wrap32); doubles are reals.
 */
module Stats {
  import opened JavaNum
  import opened Ranges

  /** `UP` and `DOWN`, the upgrade step sizes. */
  const Up: real := 1.0
  const Down: real := 0.25

  /** The value of an EntityStats object. */
  datatype StatsValue = StatsValue(
    health: Bounded, ether: Bounded,
    speed: real, attack: real, power: real, defence: real)

  /** The four stats an `upgradeX` method can raise. */
  datatype Stat = Speed | Attack | Power | Defence

  /** Health and ether are the ranges `[0, max]`; the values every constructor and every `setMax*` produce. */
  predicate Healthy(s: StatsValue) {
    0 == s.health.min <= s.health.current <= s.health.max
    && 0 == s.ether.min <= s.ether.current <= s.ether.max
  }

  function StatValue(s: StatsValue, k: Stat): real {
    match k
    case Speed => s.speed
    case Attack => s.attack
    case Power => s.power
    case Defence => s.defence
  }

  function StatSum(s: StatsValue): real {
    s.speed + s.attack + s.power + s.defence
  }

  /** The constructor `EntityStats(health, ether, speed, attack, power, defence)`. */
  function Initial(health: Int32, ether: Int32, speed: real, attack: real, power: real, defence: real): (r: StatsValue)
    ensures r.health.min == 0 && r.health.max == r.health.current == health
    ensures r.ether.min == 0 && r.ether.max == r.ether.current == ether
    ensures r.speed == speed && r.attack == attack && r.power == power && r.defence == defence
    ensures 0 <= health && 0 <= ether ==> Healthy(r)
  {
    StatsValue(Bounded(0, health, health), Bounded(0, ether, ether), speed, attack, power, defence)
  }

  /** `setMaxHealth(newMax)`: a new range `[0, newMax]`, then the old health is set into it. */
  function WithMaxHealth(s: StatsValue, newMax: Int32): (r: StatsValue)
    ensures r.health.min == 0 && r.health.max == newMax
    ensures r == s.(health := r.health)
    ensures 0 <= newMax ==> r.health.current == if s.health.current < 0 then 0
                                                else if s.health.current > newMax then newMax
                                                else s.health.current
  {
    s.(health := Assigned(Bounded(0, newMax, newMax), s.health.current))
  }

  /** `setMaxEther(newMax)`. */
  function WithMaxEther(s: StatsValue, newMax: Int32): (r: StatsValue)
    ensures r.ether.min == 0 && r.ether.max == newMax
    ensures r == s.(ether := r.ether)
    ensures 0 <= newMax ==> r.ether.current == if s.ether.current < 0 then 0
                                              else if s.ether.current > newMax then newMax
                                              else s.ether.current
  {
    s.(ether := Assigned(Bounded(0, newMax, newMax), s.ether.current))
  }

  /** `takeDamage(amount)`: a negative amount counts as 0. */
  function Damaged(s: StatsValue, amount: Int32): (r: StatsValue)
    ensures r == s.(health := r.health)
    ensures r.health.min == s.health.min && r.health.max == s.health.max
    ensures Healthy(s) ==> Healthy(r)
    ensures Healthy(s) ==> r.health.current == if amount <= 0 then s.health.current
                                               else if s.health.current - amount < 0 then 0
                                               else s.health.current - amount
  {
    var a := if amount < 0 then 0 else amount;
    s.(health := Assigned(s.health, Wrap32(s.health.current - a)))
  }

  /** `heal(amount)` as written: the Java `int` sum `current + amount` may wrap around. */
  function Healed(s: StatsValue, amount: Int32): (r: StatsValue)
    ensures r == s.(health := r.health)
    ensures r.health.min == s.health.min && r.health.max == s.health.max
    ensures Healthy(s) ==> Healthy(r)
    ensures Healthy(s) && s.health.current + amount <= MaxInt32 ==>
      r.health.current == HealedExact(s, amount).health.current
  {
    s.(health := Assigned(s.health, Wrap32(s.health.current + amount)))
  }

  /** `heal(amount)` with the sum taken exactly: health becomes `current + amount` clipped to `[0, max]`. */
  function HealedExact(s: StatsValue, amount: Int32): (r: StatsValue)
    requires Healthy(s)
    ensures r == s.(health := r.health) && Healthy(r)
    ensures r.health.min == s.health.min && r.health.max == s.health.max
    ensures amount >= 0 ==> s.health.current <= r.health.current
    ensures r.health.current == if s.health.current + amount < 0 then 0
                                else if s.health.current + amount > s.health.max then s.health.max
                                else s.health.current + amount
  {
    var sum := s.health.current + amount;
    var v: Int32 := if sum > MaxInt32 then MaxInt32 else sum;
    s.(health := Assigned(s.health, v))
  }

  /** `spendEther(amount)`: no check that enough ether is left; the result is clipped at 0. */
  function Spent(s: StatsValue, amount: Int32): (r: StatsValue)
    ensures r == s.(ether := r.ether)
    ensures r.ether.min == s.ether.min && r.ether.max == s.ether.max
    ensures Healthy(s) ==> Healthy(r)
    ensures Healthy(s) && 0 <= amount ==> r.ether.current == if s.ether.current < amount then 0
                                                             else s.ether.current - amount
  {
    s.(ether := Assigned(s.ether, Wrap32(s.ether.current - amount)))
  }

  /** `retrieveEther(amount)`. */
  function Retrieved(s: StatsValue, amount: Int32): (r: StatsValue)
    ensures r == s.(ether := r.ether)
    ensures r.ether.min == s.ether.min && r.ether.max == s.ether.max
    ensures Healthy(s) ==> Healthy(r)
    ensures Healthy(s) && 0 <= amount && s.ether.current + amount <= MaxInt32 ==>
      r.ether.current == if s.ether.current + amount > s.ether.max
                                                             then s.ether.max
                                                             else s.ether.current + amount
  {
    s.(ether := Assigned(s.ether, Wrap32(s.ether.current + amount)))
  }

  /** `isDead()`: `health.isMin()`. */
  predicate Dead(s: StatsValue) {
    AtMin(s.health)
  }

  /** `hasEtherFor(amount)` as written: the comparison is strict. */
  predicate MoreEtherThan(s: StatsValue, amount: Int32) {
    amount < s.ether.current
  }

  /** What `hasEtherFor` documents ("enough ether points"): the amount does not exceed the current ether. */
  predicate HasEnoughEther(s: StatsValue, amount: Int32) {
    amount <= s.ether.current
  }

  /** `upgradeX()`: X rises by UP, the three others fall by DOWN, then max health is reset from the new defence. */
  function Upgraded(s: StatsValue, k: Stat): (r: StatsValue)
    ensures StatValue(r, k) == StatValue(s, k) + Up
    ensures forall o: Stat :: o != k ==> StatValue(r, o) == StatValue(s, o) - Down
    ensures r.ether == s.ether
    ensures r.health.min == 0 && r.health.max == Wrap32(70 + DoubleToInt(10.0 * r.defence))
    ensures 0 <= r.health.max ==> r.health.current == if s.health.current < 0 then 0
                                                       else if s.health.current > r.health.max then r.health.max
                                                       else s.health.current
  {
    var t := match k
      case Speed => s.(speed := s.speed + Up, attack := s.attack - Down, power := s.power - Down, defence := s.defence - Down)
      case Attack => s.(attack := s.attack + Up, speed := s.speed - Down, power := s.power - Down, defence := s.defence - Down)
      case Power => s.(power := s.power + Up, attack := s.attack - Down, speed := s.speed - Down, defence := s.defence - Down)
      case Defence => s.(defence := s.defence + Up, attack := s.attack - Down, power := s.power - Down, speed := s.speed - Down);
    WithMaxHealth(t, Wrap32(70 + DoubleToInt(10.0 * t.defence)))
  }

  /**
   * `computeDamage(attack, defence)`: `floor(25 (attack - defence) / (defence + 1) + 15)` cast to `int`.
   * At `defence == -1` the double division gives NaN (cast to 0) when the
   * numerator is 0, and an infinity (cast to the int bound of its sign) otherwise.
   */
  function ComputeDamage(attack: real, defence: real): (r: Int32)
    ensures attack == defence && defence != -1.0 ==> r == 15
    ensures defence > -1.0 && attack >= defence ==> r >= 15
    ensures defence > -1.0 && attack < defence ==> r <= 14
    ensures defence == -1.0 ==> r == if attack == -1.0 then 0 else if attack > -1.0 then MaxInt32 else MinInt32
  {
    if defence == -1.0 then
      if attack == -1.0 then 0 else if attack > -1.0 then MaxInt32 else MinInt32
    else
      var num, den := 25.0 * (attack - defence), defence + 1.0;
      QuotientSign(num, den);
      Saturate((num / den + 15.0).Floor)
  }

  /** The sign of a real quotient: the denominator's sign times the numerator's. */
  lemma QuotientSign(n: real, d: real)
    requires d != 0.0
    ensures n / d * d == n
    ensures d > 0.0 ==> (0.0 <= n <==> 0.0 <= n / d)
  {
    if d > 0.0 && 0.0 <= n / d {
      assert n == n / d * d;
    }
  }

  lemma QuotientUnique(x: real, n: real, d: real)
    requires d != 0.0 && x * d == n
    ensures x == n / d
  {
    QuotientSign(n, d);
    assert (x - n / d) * d == 0.0;
  }

  /** For positive denominators, a larger numerator and a smaller denominator give a larger quotient. */
  lemma QuotientMonotone(n1: real, n2: real, d1: real, d2: real)
    requires 0.0 < d1 <= d2 && 0.0 <= n1 <= n2
    ensures n1 / d2 <= n2 / d1
  {
    QuotientSign(n1, d2);
    QuotientSign(n2, d1);
    var q1, q2 := n1 / d2, n2 / d1;
    assert q1 * d2 == n1 && q2 * d1 == n2 && 0.0 <= q2;
    assert q2 * d1 <= q2 * d2;
    assert (q2 - q1) * d2 >= 0.0;
  }

  lemma FloorMonotone(x: real, y: real)
    requires x <= y
    ensures x.Floor <= y.Floor
  {
  }

  lemma SaturateMonotone(m: int, n: int)
    requires m <= n
    ensures Saturate(m) <= Saturate(n)
  {
  }

  /** Against a defence above -1, more attack never deals less damage. */
  lemma {:induction false} DamageMonotoneInAttack(a1: real, a2: real, d: real)
    requires d > -1.0 && a1 <= a2
    ensures ComputeDamage(a1, d) <= ComputeDamage(a2, d)
  {
    var den := d + 1.0;
    var q1, q2 := 25.0 * (a1 - d) / den, 25.0 * (a2 - d) / den;
    QuotientSign(25.0 * (a2 - a1), den);
    QuotientSign(25.0 * (a1 - d), den);
    QuotientSign(25.0 * (a2 - d), den);
    assert (q2 - q1) * den == 25.0 * (a2 - a1);
    assert q2 - q1 == 25.0 * (a2 - a1) / den;
    FloorMonotone(q1 + 15.0, q2 + 15.0);
    SaturateMonotone((q1 + 15.0).Floor, (q2 + 15.0).Floor);
  }

  /** For an attack of at least -1, more defence (above -1) never lets more damage through. */
  lemma {:induction false} DamageAntitoneInDefence(a: real, d1: real, d2: real)
    requires -1.0 < d1 <= d2 && a >= -1.0
    ensures ComputeDamage(a, d2) <= ComputeDamage(a, d1)
  {
    var n := 25.0 * (a + 1.0);
    var q1 := 25.0 * (a - d1) / (d1 + 1.0);
    var q2 := 25.0 * (a - d2) / (d2 + 1.0);
    QuotientSign(25.0 * (a - d1), d1 + 1.0);
    QuotientSign(25.0 * (a - d2), d2 + 1.0);
    QuotientSign(n, d1 + 1.0);
    QuotientSign(n, d2 + 1.0);
    assert (q1 + 25.0) * (d1 + 1.0) == n;
    QuotientUnique(q1 + 25.0, n, d1 + 1.0);
    assert (q2 + 25.0) * (d2 + 1.0) == n;
    QuotientUnique(q2 + 25.0, n, d2 + 1.0);
    QuotientMonotone(n, n, d1 + 1.0, d2 + 1.0);
    FloorMonotone(q2 + 15.0, q1 + 15.0);
    SaturateMonotone((q2 + 15.0).Floor, (q1 + 15.0).Floor);
  }

  /** A hit of `amount` kills exactly when it is at least the current health. */
  lemma DeadAfterDamage(s: StatsValue, amount: Int32)
    requires Healthy(s) && amount >= 0
    ensures Dead(Damaged(s, amount)) <==> amount >= s.health.current
  {
  }

  /** Healing what a non-lethal hit took off restores the health. */
  lemma HealUndoesDamage(s: StatsValue, amount: Int32)
    requires Healthy(s) && 0 <= amount <= s.health.current
    ensures Healed(Damaged(s, amount), amount) == s
  {
  }

  /** Retrieving what was spent restores the ether, when the spend was not clipped. */
  lemma RetrieveUndoesSpend(s: StatsValue, amount: Int32)
    requires Healthy(s) && 0 <= amount <= s.ether.current
    ensures Retrieved(Spent(s, amount), amount) == s
  {
  }

  /** The as-written `hasEtherFor` implies an exact spend, but refuses the case of spending all ether. */
  lemma HasEtherForIsStrict(s: StatsValue, amount: Int32)
    requires Healthy(s) && 0 <= amount
    ensures MoreEtherThan(s, amount) ==> Spent(s, amount).ether.current == s.ether.current - amount > 0
    ensures amount == s.ether.current ==> !MoreEtherThan(s, amount) && Spent(s, amount).ether.current == 0
  {
  }

  /** The corrected test holds exactly when spending the amount takes it off in full. */
  lemma HasEnoughEtherIsExactSpend(s: StatsValue, amount: Int32)
    requires Healthy(s) && 0 <= amount
    ensures HasEnoughEther(s, amount) <==> Spent(s, amount).ether.current == s.ether.current - amount
  {
  }

  /** Every upgrade raises the sum of the four stats by `UP - 3 DOWN = 0.25`. */
  lemma {:induction false} UpgradeRaisesSum(s: StatsValue, k: Stat)
    ensures StatSum(Upgraded(s, k)) == StatSum(s) + 0.25
  {
    var r := Upgraded(s, k);
    assert StatValue(r, k) == StatValue(s, k) + Up;
    match k
    case Speed =>
      assert StatValue(r, Attack) == s.attack - Down && StatValue(r, Power) == s.power - Down && StatValue(r, Defence) == s.defence - Down;
    case Attack =>
      assert StatValue(r, Speed) == s.speed - Down && StatValue(r, Power) == s.power - Down && StatValue(r, Defence) == s.defence - Down;
    case Power =>
      assert StatValue(r, Attack) == s.attack - Down && StatValue(r, Speed) == s.speed - Down && StatValue(r, Defence) == s.defence - Down;
    case Defence =>
      assert StatValue(r, Attack) == s.attack - Down && StatValue(r, Power) == s.power - Down && StatValue(r, Speed) == s.speed - Down;
  }

  /** An upgrade keeps health and ether well-formed when the new max health is not negative. */
  lemma UpgradeKeepsHealthy(s: StatsValue, k: Stat)
    requires Healthy(s) && Upgraded(s, k).health.max >= 0
    ensures Healthy(Upgraded(s, k))
    ensures Upgraded(s, k).health.current == if s.health.current > Upgraded(s, k).health.max
                                             then Upgraded(s, k).health.max else s.health.current
  {
  }

  /** Starting from defence 1 (every shipped character), upgrading defence gives max health 70 + 10 * 2 = 90. */
  lemma UpgradeDefenceFromOne(s: StatsValue)
    requires s.defence == 1.0
    ensures Upgraded(s, Defence).health.max == 90
    ensures Upgraded(s, Speed).health.max == 77
  {
  }

  /** Counterexample: `heal(Integer.MAX_VALUE)` on 100 of 100 health wraps the sum negative and empties the health. */
  lemma HealOverflowKills()
    ensures Healed(Initial(100, 100, 1.0, 1.0, 1.0, 1.0), MaxInt32).health.current == 0
    ensures HealedExact(Initial(100, 100, 1.0, 1.0, 1.0, 1.0), MaxInt32).health.current == 100
  {
  }

  /** The mutable stats object; `health` and `ether` are distinct Range objects. */
  class EntityStats {
    var health: Range
    var ether: Range
    var speed: real
    var attack: real
    var power: real
    var defence: real

    predicate Valid()
      reads this
    {
      health != ether
    }

    function Value(): StatsValue
      reads this, health, ether
    {
      StatsValue(health.Value(), ether.Value(), speed, attack, power, defence)
    }

    constructor (health: Int32, ether: Int32, speed: real, attack: real, power: real, defence: real)
      ensures Valid() && Value() == Initial(health, ether, speed, attack, power, defence)
    {
      this.health := new Range.UpTo(health);
      this.ether := new Range.UpTo(ether);
      this.speed, this.attack, this.power, this.defence := speed, attack, power, defence;
    }

    method SetMaxHealth(newMax: Int32)
      requires Valid()
      modifies this
      ensures Valid() && Value() == WithMaxHealth(old(Value()), newMax) && ether == old(ether)
    {
      var current := health.Get();
      health := new Range.UpTo(newMax);
      health.Set(current);
    }

    method TakeDamage(amount: Int32)
      requires Valid()
      modifies health
      ensures Valid() && Value() == Damaged(old(Value()), amount)
    {
      var a := if amount < 0 then 0 else amount;
      health.Set(Wrap32(health.Get() - a));
    }

    method Heal(amount: Int32)
      requires Valid()
      modifies health
      ensures Valid() && Value() == Healed(old(Value()), amount)
    {
      health.Set(Wrap32(health.Get() + amount));
    }

    /** `isDead()`: with health kept in `[0, max]`, dead exactly when health has dropped to 0 or below. */
    function IsDead(): (r: bool)
      reads this, health, ether
      ensures Healthy(Value()) ==> (r <==> health.current <= 0)
    {
      Dead(Value())
    }

    method SetMaxEther(newMax: Int32)
      requires Valid()
      modifies this
      ensures Valid() && Value() == WithMaxEther(old(Value()), newMax) && health == old(health)
    {
      var current := ether.Get();
      ether := new Range.UpTo(newMax);
      ether.Set(current);
    }

    method SpendEther(amount: Int32)
      requires Valid()
      modifies ether
      ensures Valid() && Value() == Spent(old(Value()), amount)
    {
      ether.Set(Wrap32(ether.Get() - amount));
    }

    method RetrieveEther(amount: Int32)
      requires Valid()
      modifies ether
      ensures Valid() && Value() == Retrieved(old(Value()), amount)
    {
      ether.Set(Wrap32(ether.Get() + amount));
    }

    /**
     * `hasEtherFor(amount)`: for a non-negative amount and ether in `[0, max]`,
     * true exactly when spending it takes off the whole amount and leaves some ether.
     */
    function HasEtherFor(amount: Int32): (r: bool)
      reads this, health, ether
      ensures Healthy(Value()) && 0 <= amount ==>
                (r <==> Spent(Value(), amount).ether.current == ether.current - amount > 0)
    {
      MoreEtherThan(Value(), amount)
    }

    method UpgradeSpeed()
      requires Valid()
      modifies this
      ensures Valid() && Value() == Upgraded(old(Value()), Speed)
    {
      speed := speed + Up;
      attack := attack - Down;
      power := power - Down;
      defence := defence - Down;
      SetMaxHealth(Wrap32(70 + DoubleToInt(10.0 * defence)));
    }

    method UpgradeAttack()
      requires Valid()
      modifies this
      ensures Valid() && Value() == Upgraded(old(Value()), Attack)
    {
      attack := attack + Up;
      speed := speed - Down;
      power := power - Down;
      defence := defence - Down;
      SetMaxHealth(Wrap32(70 + DoubleToInt(10.0 * defence)));
    }

    method UpgradePower()
      requires Valid()
      modifies this
      ensures Valid() && Value() == Upgraded(old(Value()), Power)
    {
      power := power + Up;
      attack := attack - Down;
      speed := speed - Down;
      defence := defence - Down;
      SetMaxHealth(Wrap32(70 + DoubleToInt(10.0 * defence)));
    }

    method UpgradeDefence()
      requires Valid()
      modifies this
      ensures Valid() && Value() == Upgraded(old(Value()), Defence)
    {
      defence := defence + Up;
      attack := attack - Down;
      power := power - Down;
      speed := speed - Down;
      SetMaxHealth(Wrap32(70 + DoubleToInt(10.0 * defence)));
    }
  }
}
