/**
 * graphics/Canvas.java: the per-tick closure of the main loop and the tile
 * window of `paintComponent`.  The pressed keys are the set KeyStack keeps;
 * the calls the tick makes on the player and the monsters are returned as a
 * log of events, in order.  Monsters are known by their identity; the
 * distance to the player and `isDead` are given per monster.
 */
module Canvases {
  import opened JavaNum
  import opened Wrappers
  import opened Vectors

  /** The keys the constructor listens to; KeyStack only ever holds these. */
  const Listened: set<string> := {"Z", "S", "Q", "D", "SPACE", "O", "I", "P"}

  const AggroRange: real := 500.0
  const MinDistance: real := 70.0

  /** The movement vector built from the pressed keys. */
  function Movement(pressed: set<string>): (r: Vec)
    ensures r.x == (if "D" in pressed then 1.0 else 0.0) - (if "Q" in pressed then 1.0 else 0.0)
  {
    var y := (if "C" in pressed then -1.0 else 0.0) + (if "Z" in pressed then -1.0 else 0.0)
             + (if "S" in pressed then 1.0 else 0.0);
    var x := (if "Q" in pressed then -1.0 else 0.0) + (if "D" in pressed then 1.0 else 0.0);
    Vec(x, y)
  }

  /** With only the listened keys pressed, "C" plays no part and each component is -1, 0 or 1. */
  lemma MovementOfListenedKeys(pressed: set<string>)
    requires pressed <= Listened
    ensures Movement(pressed).y == (if "S" in pressed then 1.0 else 0.0) - (if "Z" in pressed then 1.0 else 0.0)
    ensures Movement(pressed).x in {-1.0, 0.0, 1.0} && Movement(pressed).y in {-1.0, 0.0, 1.0}
    ensures !("Q" in pressed || "D" in pressed || "Z" in pressed || "S" in pressed) ==> IsNull(Movement(pressed))
  {
    assert "C" !in Listened;
  }

  /**
   * A key whose action fires on the press edge: `(latch, fired)` after one
   * tick, where `latch` is the `wasReleased` field and `allowed` any extra
   * condition (used by O: not dodging and not blocking).
   */
  function PressEdge(wasReleased: bool, pressed: bool, allowed: bool): (r: (bool, bool))
    ensures r.1 <==> pressed && wasReleased && allowed
    ensures pressed && r.1 ==> !r.0
    ensures !pressed ==> r.0
  {
    if pressed then
      if wasReleased && allowed then (false, true) else (wasReleased, false)
    else (true, false)
  }

  /** The I key: `block()` on the press edge, `stopBlocking()` on the release edge. */
  function BlockEdge(wasReleased: bool, pressed: bool): (r: (bool, Option<bool>))
    ensures r.1 == Some(true) <==> pressed && wasReleased
    ensures r.1 == Some(false) <==> !pressed && !wasReleased
    ensures r.0 == !pressed
  {
    if pressed && wasReleased then (false, Some(true))
    else if !pressed && !wasReleased then (true, Some(false))
    else (wasReleased, None)
  }

  /** Attacks over consecutive ticks of O, each with whether the player may attack: at most one per tick, none without a press. */
  function Attacks(wasReleased: bool, ticks: seq<(bool, bool)>): (r: nat)
    ensures r <= |ticks|
    ensures (forall k :: 0 <= k < |ticks| ==> !ticks[k].0) ==> r == 0
    decreases |ticks|
  {
    if ticks == [] then 0
    else
      var step := PressEdge(wasReleased, ticks[0].0, ticks[0].1);
      (if step.1 then 1 else 0) + Attacks(step.0, ticks[1..])
  }

  /** While O stays held, the player attacks at most once, and not at all if it was held before. */
  lemma {:induction false} AttackOncePerHold(wasReleased: bool, ticks: seq<(bool, bool)>)
    requires forall k :: 0 <= k < |ticks| ==> ticks[k].0
    ensures Attacks(wasReleased, ticks) <= (if wasReleased then 1 else 0)
    decreases |ticks|
  {
    if ticks != [] {
      AttackOncePerHold(PressEdge(wasReleased, ticks[0].0, ticks[0].1).0, ticks[1..]);
    }
  }

  /** SPACE and P fire only on the first tick of a press: a tick with the key pressed leaves the latch down. */
  lemma FiresOnlyOnFirstTick(wasReleased: bool)
    ensures !PressEdge(PressEdge(wasReleased, true, true).0, true, true).1
  {
  }

  /** The block (true) and stopBlocking (false) calls made over consecutive ticks of I. */
  function BlockCalls(wasReleased: bool, ticks: seq<bool>): seq<bool>
    decreases |ticks|
  {
    if ticks == [] then []
    else
      var step := BlockEdge(wasReleased, ticks[0]);
      (if step.1.Some? then [step.1.value] else []) + BlockCalls(step.0, ticks[1..])
  }

  /** The calls alternate, the first being `first`. */
  predicate Alternates(calls: seq<bool>, first: bool) {
    forall k :: 0 <= k < |calls| ==> calls[k] == (if k % 2 == 0 then first else !first)
  }

  /** `block()` and `stopBlocking()` strictly alternate, starting with `block()` when I was released. */
  lemma {:induction false} BlockCallsAlternate(wasReleased: bool, ticks: seq<bool>)
    ensures Alternates(BlockCalls(wasReleased, ticks), wasReleased)
    decreases |ticks|
  {
    if ticks != [] {
      var step := BlockEdge(wasReleased, ticks[0]);
      BlockCallsAlternate(step.0, ticks[1..]);
      var rest := BlockCalls(step.0, ticks[1..]);
      var calls := BlockCalls(wasReleased, ticks);
      if step.1.Some? {
        assert step.0 == !wasReleased && Alternates(rest, !wasReleased);
        assert calls == [wasReleased] + rest;
        forall k | 1 <= k < |calls|
          ensures calls[k] == (if k % 2 == 0 then wasReleased else !wasReleased)
        {
          assert calls[k] == rest[k - 1];
          assert (k - 1) % 2 == 0 <==> k % 2 != 0;
        }
      } else {
        assert step.0 == wasReleased;
        assert calls == [] + rest;
      }
    }
  }

  /** What the tick does with a monster, by its distance to the player. */
  datatype Decision = Chase | StopAndTryAttack | Wander

  function Decide(distance: real): (r: Decision)
    ensures r == Chase <==> MinDistance < distance < AggroRange
    ensures r == StopAndTryAttack <==> distance <= MinDistance
    ensures r == Wander <==> AggroRange <= distance
  {
    if distance < AggroRange then
      if distance > MinDistance then Chase else StopAndTryAttack
    else Wander
  }

  datatype EntityRef = PlayerRef | MonsterRef(id: nat)

  /** A call the tick makes on the player or a monster. */
  datatype Event =
    | PlayerAttack
    | PlayerDodge
    | Spawn(id: nat, x: real, y: real)
    | PlayerBlock
    | PlayerStopBlocking
    | PlayerMove(movement: Vec)
    | Monster(id: nat, decision: Decision)

  /** The monsters' events, in list order. */
  function Decisions(badguys: seq<nat>, distance: nat -> real): (r: seq<Event>)
    ensures |r| == |badguys|
    ensures forall k :: 0 <= k < |badguys| ==> r[k] == Monster(badguys[k], Decide(distance(badguys[k])))
  {
    if badguys == [] then []
    else Decisions(badguys[..|badguys| - 1], distance)
         + [Monster(badguys[|badguys| - 1], Decide(distance(badguys[|badguys| - 1])))]
  }

  /** The monsters of the list that are not dead, in list order. */
  function Alive(s: seq<nat>, isDead: nat -> bool): (r: seq<nat>)
    ensures |r| <= |s|
    ensures forall x :: x in r <==> x in s && !isDead(x)
  {
    if s == [] then []
    else Alive(s[..|s| - 1], isDead) + (if isDead(s[|s| - 1]) then [] else [s[|s| - 1]])
  }

  /** The monsters of the list that are dead, in list order. */
  function Dead(s: seq<nat>, isDead: nat -> bool): (r: seq<nat>)
    ensures forall x :: x in r <==> x in s && isDead(x)
  {
    if s == [] then []
    else Dead(s[..|s| - 1], isDead) + (if isDead(s[|s| - 1]) then [s[|s| - 1]] else [])
  }

  /** Removal keeps the survivors' relative order: the survivors of a concatenation are those of each part, concatenated. */
  lemma {:induction false} AliveAppend(a: seq<nat>, b: seq<nat>, isDead: nat -> bool)
    ensures Alive(a + b, isDead) == Alive(a, isDead) + Alive(b, isDead)
  {
    if b == [] {
      assert a + b == a;
    } else {
      var b' := b[..|b| - 1];
      assert (a + b)[..|a + b| - 1] == a + b';
      AliveAppend(a, b', isDead);
    }
  }

  /** `list.remove(o)`: the first element equal to `o` taken out. */
  function RemoveFirst<T(==)>(s: seq<T>, o: T): (r: seq<T>)
    ensures o !in s ==> r == s
    ensures o in s ==> |r| == |s| - 1
  {
    if s == [] then []
    else if s[0] == o then s[1..]
    else [s[0]] + RemoveFirst<T>(s[1..], o)
  }

  function Elements(s: seq<nat>): set<nat> {
    set x | x in s
  }

  lemma ElementsSnoc(s: seq<nat>, x: nat)
    ensures Elements(s + [x]) == Elements(s) + {x}
  {
  }

  /** `remove` called for each element of `dead` in turn. */
  function RemoveAll(s: seq<nat>, dead: seq<nat>): seq<nat>
  {
    if dead == [] then s else RemoveFirst<nat>(RemoveAll(s, dead[..|dead| - 1]), dead[|dead| - 1])
  }

  /** On a list without repeats, removing each of `dead` in turn keeps exactly the elements not in `dead`, in order. */
  lemma {:induction false} RemoveAllIsKeep(s: seq<nat>, dead: seq<nat>)
    requires Distinct(s)
    ensures RemoveAll(s, dead) == Keep(s, Elements(dead))
  {
    if dead == [] {
      KeepNone(s, {});
      assert Elements(dead) == {};
    } else {
      var init, last := dead[..|dead| - 1], dead[|dead| - 1];
      RemoveAllIsKeep(s, init);
      RemoveAllStep(s, init, last);
      assert dead == init + [last];
    }
  }

  /** The step of RemoveAllIsKeep: one more removal. */
  lemma RemoveAllStep(s: seq<nat>, init: seq<nat>, last: nat)
    requires Distinct(s) && RemoveAll(s, init) == Keep(s, Elements(init))
    ensures RemoveAll(s, init + [last]) == Keep(s, Elements(init + [last]))
  {
    var dead := init + [last];
    assert dead[..|dead| - 1] == init && dead[|dead| - 1] == last;
    assert RemoveAll(s, dead) == RemoveFirst<nat>(Keep(s, Elements(init)), last);
    RemoveFirstDistinct(s, Elements(init), last);
    ElementsSnoc(init, last);
  }

  predicate Distinct(s: seq<nat>) {
    forall i, j :: 0 <= i < j < |s| ==> s[i] != s[j]
  }

  /** The elements of `s` outside `gone`, in order. */
  function Keep(s: seq<nat>, gone: set<nat>): (r: seq<nat>)
    ensures forall x {:trigger x in r} :: x in r <==> x in s && x !in gone
  {
    if s == [] then []
    else Keep(s[..|s| - 1], gone) + (if s[|s| - 1] in gone then [] else [s[|s| - 1]])
  }

  /** The entity list that mirrors a monster list: the player, then the monsters. */
  function Refs(s: seq<nat>): (r: seq<EntityRef>)
    ensures |r| == |s| && forall k :: 0 <= k < |s| ==> r[k] == MonsterRef(s[k])
  {
    seq(|s|, k requires 0 <= k < |s| => MonsterRef(s[k]))
  }

  lemma {:induction false} KeepDistinct(s: seq<nat>, gone: set<nat>)
    requires Distinct(s)
    ensures Distinct(Keep(s, gone))
  {
    if s != [] {
      var init, last := s[..|s| - 1], s[|s| - 1];
      KeepDistinct(init, gone);
      var kept := Keep(init, gone);
      if last !in gone {
        assert last !in kept;
        assert Keep(s, gone) == kept + [last];
      }
    }
  }

  /** In a list without repeats, `remove(o)` takes out exactly `o`. */
  lemma {:induction false} RemoveFirstDistinct(s: seq<nat>, gone: set<nat>, o: nat)
    requires Distinct(s)
    ensures RemoveFirst<nat>(Keep(s, gone), o) == Keep(s, gone + {o})
  {
    KeepDistinct(s, gone);
    RemoveFromDistinct(Keep(s, gone), o);
    KeepTwice(s, gone, o);
  }

  /** In a list without repeats, `remove(o)` is the list without `o`. */
  lemma {:induction false} RemoveFromDistinct(s: seq<nat>, o: nat)
    requires Distinct(s)
    ensures RemoveFirst<nat>(s, o) == Keep(s, {o})
  {
    if s != [] {
      var t := s[1..];
      assert Distinct(t) by {
        forall i, j | 0 <= i < j < |t|
          ensures t[i] != t[j]
        {
          assert t[i] == s[i + 1] && t[j] == s[j + 1];
        }
      }
      KeepFront(s, {o});
      if s[0] == o {
        assert RemoveFirst<nat>(s, o) == t;
        assert o !in t by {
          forall j | 0 <= j < |t|
            ensures t[j] != o
          {
            assert t[j] == s[j + 1];
          }
        }
        KeepNone(t, {o});
      } else {
        RemoveFromDistinct(t, o);
        assert RemoveFirst<nat>(s, o) == [s[0]] + RemoveFirst<nat>(t, o);
      }
    }
  }

  /** Keep looked at from the front. */
  lemma {:induction false} KeepFront(s: seq<nat>, gone: set<nat>)
    requires s != []
    ensures Keep(s, gone) == (if s[0] in gone then [] else [s[0]]) + Keep(s[1..], gone)
  {
    if |s| > 1 {
      var init, last, tail := s[..|s| - 1], s[|s| - 1], s[1..];
      var front := if s[0] in gone then [] else [s[0]];
      var back := if last in gone then [] else [last];
      var middle := Keep(init[1..], gone);
      assert init[0] == s[0];
      assert tail[..|tail| - 1] == init[1..] && tail[|tail| - 1] == last;
      KeepFront(init, gone);
      assert Keep(tail, gone) == middle + back;
      assert (front + middle) + back == front + (middle + back);
    } else {
      assert s[..|s| - 1] == [] && s[1..] == [];
    }
  }

  /** Nothing to remove leaves the list as it is. */
  lemma {:induction false} KeepNone(s: seq<nat>, gone: set<nat>)
    requires forall x :: x in s ==> x !in gone
    ensures Keep(s, gone) == s
  {
    if s != [] {
      var init, last := s[..|s| - 1], s[|s| - 1];
      assert s == init + [last];
      forall x | x in init
        ensures x !in gone
      {
        assert x in s;
      }
      KeepNone(init, gone);
      assert last !in gone by {
        assert last in s;
      }
    }
  }

  lemma {:induction false} KeepTwice(s: seq<nat>, gone: set<nat>, o: nat)
    ensures Keep(Keep(s, gone), {o}) == Keep(s, gone + {o})
  {
    if s != [] {
      var init, last := s[..|s| - 1], s[|s| - 1];
      KeepTwice(init, gone, o);
      var k := Keep(init, gone);
      if last !in gone {
        KeepSnoc(k, {o}, last);
      } else {
        assert Keep(s, gone) == k;
      }
    }
  }

  /** Keep of a list with one more element at the end. */
  lemma KeepSnoc(s: seq<nat>, gone: set<nat>, x: nat)
    ensures Keep(s + [x], gone) == Keep(s, gone) + (if x in gone then [] else [x])
  {
    assert (s + [x])[..|s|] == s;
  }

  /** Removing a monster from the entity list mirrors removing it from the monster list. */
  lemma {:induction false} RemoveRef(s: seq<nat>, o: nat)
    ensures RemoveFirst<EntityRef>([PlayerRef] + Refs(s), MonsterRef(o)) == [PlayerRef] + Refs(RemoveFirst<nat>(s, o))
  {
    var l := [PlayerRef] + Refs(s);
    assert l[1..] == Refs(s);
    RemoveRefTail(s, o);
  }

  lemma {:induction false} RemoveRefTail(s: seq<nat>, o: nat)
    ensures RemoveFirst<EntityRef>(Refs(s), MonsterRef(o)) == Refs(RemoveFirst<nat>(s, o))
  {
    if s != [] {
      var t := s[1..];
      assert s == [s[0]] + t;
      RefsCons(s[0], t);
      var refs := [MonsterRef(s[0])] + Refs(t);
      assert refs[0] == MonsterRef(s[0]) && refs[1..] == Refs(t);
      RemoveRefTail(t, o);
      if s[0] != o {
        RefsCons(s[0], RemoveFirst<nat>(t, o));
      }
    }
  }

  lemma RefsCons(a: nat, t: seq<nat>)
    ensures Refs([a] + t) == [MonsterRef(a)] + Refs(t)
  {
  }

  /** One removal from both lists keeps the monster list free of repeats, below `next`, and mirrored in the entity list. */
  lemma RemoveKeepsLists(s: seq<nat>, o: nat, next: nat)
    requires Distinct(s) && forall x :: x in s ==> x < next
    ensures Distinct(RemoveFirst<nat>(s, o)) && forall x :: x in RemoveFirst<nat>(s, o) ==> x < next
    ensures RemoveFirst<EntityRef>([PlayerRef] + Refs(s), MonsterRef(o)) == [PlayerRef] + Refs(RemoveFirst<nat>(s, o))
  {
    RemoveFromDistinct(s, o);
    var r := Keep(s, {o});
    assert RemoveFirst<nat>(s, o) == r;
    KeepDistinct(s, {o});
    forall x | x in r
      ensures x < next
    {
      assert x in s;
    }
    RemoveRef(s, o);
  }

  /** Removing exactly the dead ones leaves the survivors. */
  lemma {:induction false} KeepDeadIsAlive(s: seq<nat>, isDead: nat -> bool, gone: set<nat>)
    requires forall x :: x in s ==> (x in gone <==> isDead(x))
    ensures Keep(s, gone) == Alive(s, isDead)
  {
    if s != [] {
      KeepDeadIsAlive(s[..|s| - 1], isDead, gone);
    }
  }

  /** The four `wasReleased` fields. */
  datatype Latches = Latches(o: bool, space: bool, i: bool, p: bool)

  /**
   * The key part of a tick: O (attack), SPACE (dodge), P (spawn `spawn`), then
   * I (block / stop blocking). SPACE, P and I end the tick latched open exactly
   * when they are up; a held O stays latched open only while attacks are
   * refused. Each key gives at most one event, and the attack happens exactly
   * on a fresh press of O when attacking is allowed.
   */
  function KeyStep(l: Latches, pressed: set<string>, canAttack: bool, spawn: Event): (r: (Latches, seq<Event>))
    ensures r.0.space == ("SPACE" !in pressed) && r.0.p == ("P" !in pressed) && r.0.i == ("I" !in pressed)
    ensures r.0.o <==> "O" !in pressed || (l.o && !canAttack)
    ensures |r.1| <= 4
    ensures spawn.Spawn? ==> (PlayerAttack in r.1 <==> "O" in pressed && l.o && canAttack)
  {
    var o := PressEdge(l.o, "O" in pressed, canAttack);
    var space := PressEdge(l.space, "SPACE" in pressed, true);
    var p := PressEdge(l.p, "P" in pressed, true);
    var i := BlockEdge(l.i, "I" in pressed);
    (Latches(o.0, space.0, i.0, p.0),
     (if o.1 then [PlayerAttack] else []) + (if space.1 then [PlayerDodge] else []) + (if p.1 then [spawn] else [])
     + (if i.1 == Some(true) then [PlayerBlock] else if i.1 == Some(false) then [PlayerStopBlocking] else []))
  }

  /** The first press of P after start-up spawns nothing, because its latch starts false. */
  lemma FirstPressSpawnsNothing(pressed: set<string>, canAttack: bool, spawn: Event)
    requires spawn.Spawn?
    ensures spawn !in KeyStep(Latches(true, true, true, false), pressed, canAttack, spawn).1
  {
  }

  /** `SCALE` in `paintComponent`. */
  const TileScale: int := 2

  /** The window size outside fullscreen mode. */
  const WindowedSize: (Int32, Int32) := (800, 600)

  /** `getPreferredSize()`: the screen size in fullscreen mode, 800x600 otherwise. */
  function PreferredSize(isFullscreen: bool, screenSize: (Int32, Int32)): (r: (Int32, Int32))
    ensures !isFullscreen ==> r == (800, 600)
    ensures isFullscreen ==> r == screenSize
  {
    if isFullscreen then screenSize else WindowedSize
  }

  /** The focused entity's position cast to `int`, or the origin when nothing is focused. */
  function Focus(focused: Option<Vec>): (r: (Int32, Int32))
    ensures focused.None? ==> r == (0, 0)
    ensures focused.Some? ==> r == (DoubleToInt(focused.value.x), DoubleToInt(focused.value.y))
  {
    match focused
    case None => (0, 0)
    case Some(p) => (DoubleToInt(p.x), DoubleToInt(p.y))
  }

  /** The first clamp of one axis: a range starting below 0 is shifted to start at 0. */
  function RaisedLower(lower: Int32, upper: Int32): (Int32, Int32)
  {
    if lower < 0 then (0, Wrap32(upper - lower)) else (lower, upper)
  }

  /** The second clamp of one axis: a range reaching `size` is shifted to end at `size`. */
  function LoweredUpper(lower: Int32, upper: Int32, size: Int32): (Int32, Int32)
  {
    if upper >= size then
      var excess := Wrap32(upper - size);
      (Wrap32(lower - excess), Wrap32(upper - excess))
    else (lower, upper)
  }

  /** Both clamps of one axis: a range already on the map is kept (ClampedWindow says where any other range goes). */
  function Clamped(lower: Int32, upper: Int32, size: Int32): (r: (Int32, Int32))
    ensures 0 <= lower && upper < size ==> r == (lower, upper)
  {
    var raised := RaisedLower(lower, upper);
    LoweredUpper(raised.0, raised.1, size)
  }

  /** The range before clamping: `focus / cell - tiles / 2 - 1` up to `focus / cell + tiles / 2 + 2`, `tiles` being `screen / cell`. */
  function Unclamped(focus: Int32, cell: Int32, screen: Int32): (r: (Int32, Int32))
    requires cell != 0
    ensures 0 < cell && -1_000_000_000 <= focus <= 1_000_000_000 && 0 <= screen <= 100_000_000 ==>
              r.0 < JavaDiv(focus, cell) < r.1 && r.1 - r.0 == 2 * (screen / cell / 2) + 3
  {
    var tiles := Wrap32(JavaDiv(screen, cell));
    var half := Wrap32(JavaDiv(tiles, 2));
    var center := Wrap32(JavaDiv(focus, cell));
    if 0 < cell && -1_000_000_000 <= focus <= 1_000_000_000 && 0 <= screen <= 100_000_000 then
      DivAtMost(screen, cell);
      DivAtMost(screen / cell, 2);
      JavaDivMagnitude(focus, cell);
      (Wrap32(Wrap32(center - half) - 1), Wrap32(Wrap32(center + half) + 2))
    else
      (Wrap32(Wrap32(center - half) - 1), Wrap32(Wrap32(center + half) + 2))
  }

  /**
   * The tile range `[lower, upper)` drawn along one axis, or None for the
   * ArithmeticException of a zero `tileSize * SCALE`.
   */
  function Window(focus: Int32, tileSize: Int32, screen: Int32, size: Int32): (r: Option<(Int32, Int32)>)
    ensures r.None? <==> Wrap32(tileSize * TileScale) == 0
  {
    var cell := Wrap32(tileSize * TileScale);
    if cell == 0 then None
    else
      var range := Unclamped(focus, cell, screen);
      Some(Clamped(range.0, range.1, size))
  }

  /**
   * Clamping keeps the span, never goes past `size`, starts at or above 0
   * exactly when the span fits in `size`, and keeps every on-map tile `t`
   * that the unclamped range held.
   */
  lemma ClampedWindow(lower: Int32, upper: Int32, size: Int32, t: int)
    requires -1_200_000_000 <= lower <= upper <= 1_200_000_000
    requires upper - lower <= 300_000_000 && 0 <= size <= 1_000_000_000
    ensures var (lo, hi) := Clamped(lower, upper, size);
            hi - lo == upper - lower && hi <= size
            && (0 <= lo <==> upper - lower <= size)
            && (lower <= t < upper && 0 <= t < size ==> lo <= t < hi)
  {
  }

  /**
   * With a positive tile size and coordinates of a sensible magnitude, each
   * axis draws `2 * (screen / cell / 2) + 3` tiles, never past the map's far
   * edge, never before its near edge when the map is that large, and always
   * the tile under the focused point when that tile is on the map.
   */
  lemma WindowOnMap(focus: Int32, tileSize: Int32, screen: Int32, size: Int32)
    requires 1 <= tileSize <= 1_000_000 && -1_000_000_000 <= focus <= 1_000_000_000
    requires 0 <= screen <= 100_000_000 && 0 <= size <= 1_000_000_000
    ensures Window(focus, tileSize, screen, size).Some?
    ensures var (lo, hi) := Window(focus, tileSize, screen, size).value;
            var span := 2 * (screen / (2 * tileSize) / 2) + 3;
            var center := JavaDiv(focus, 2 * tileSize);
            hi - lo == span && hi <= size
            && (0 <= lo <==> span <= size)
            && (0 <= center < size ==> lo <= center < hi)
  {
    var center, half := WindowUnwrapped(focus, tileSize, screen, size);
    ClampedWindow(center - half - 1, center + half + 2, size, center);
  }

  /** Under the bounds of WindowOnMap no int operation of the window wraps. */
  lemma WindowUnwrapped(focus: Int32, tileSize: Int32, screen: Int32, size: Int32) returns (center: int, half: int)
    requires 1 <= tileSize <= 1_000_000 && -1_000_000_000 <= focus <= 1_000_000_000
    requires 0 <= screen <= 100_000_000 && 0 <= size <= 1_000_000_000
    ensures center == JavaDiv(focus, 2 * tileSize) && half == screen / (2 * tileSize) / 2
    ensures -1_000_000_000 <= center <= 1_000_000_000 && 0 <= half <= 100_000_000
    ensures Window(focus, tileSize, screen, size) == Some(Clamped(center - half - 1, center + half + 2, size))
  {
    var cell := 2 * tileSize;
    assert Wrap32(tileSize * TileScale) == cell;
    DivAtMost(screen, cell);
    var tiles := screen / cell;
    assert Wrap32(JavaDiv(screen, cell)) == tiles;
    DivAtMost(tiles, 2);
    half := tiles / 2;
    assert Wrap32(JavaDiv(tiles, 2)) == half;
    JavaDivMagnitude(focus, cell);
    center := JavaDiv(focus, cell);
    assert Wrap32(JavaDiv(focus, cell)) == center;
    assert Wrap32(Wrap32(center - half) - 1) == center - half - 1;
    assert Wrap32(Wrap32(center + half) + 2) == center + half + 2;
    assert Unclamped(focus, cell, screen) == (center - half - 1, center + half + 2);
  }

  /** `drawTile(i, j)` for `j` from `ly` up to `uy`, at a fixed `i`. */
  function Column(i: int, ly: int, uy: int): (r: seq<(int, int)>)
    decreases uy - ly
  {
    if uy <= ly then [] else Column(i, ly, uy - 1) + [(i, uy - 1)]
  }

  /** The `drawTile` calls of the nested loops: column after column, each from top to bottom. */
  function Grid(lx: int, ux: int, ly: int, uy: int): (r: seq<(int, int)>)
    decreases ux - lx
  {
    if ux <= lx then [] else Grid(lx, ux - 1, ly, uy) + Column(ux - 1, ly, uy)
  }

  lemma {:induction false} ColumnCells(i: int, ly: int, uy: int)
    ensures |Column(i, ly, uy)| == if uy <= ly then 0 else uy - ly
    ensures forall k :: 0 <= k < |Column(i, ly, uy)| ==> Column(i, ly, uy)[k] == (i, ly + k)
    decreases uy - ly
  {
    if ly < uy {
      ColumnCells(i, ly, uy - 1);
    }
  }

  lemma ColumnMembers(i: int, ly: int, uy: int, a: int, b: int)
    ensures (a, b) in Column(i, ly, uy) <==> a == i && ly <= b < uy
  {
    ColumnCells(i, ly, uy);
    if a == i && ly <= b < uy {
      assert Column(i, ly, uy)[b - ly] == (a, b);
    }
  }

  /** Every tile of the rectangle is drawn and nothing outside it. */
  lemma {:induction false} GridMembers(lx: int, ux: int, ly: int, uy: int, a: int, b: int)
    ensures (a, b) in Grid(lx, ux, ly, uy) <==> lx <= a < ux && ly <= b < uy
    decreases ux - lx
  {
    if lx < ux {
      GridMembers(lx, ux - 1, ly, uy, a, b);
      ColumnMembers(ux - 1, ly, uy, a, b);
    }
  }

  /** One call per tile of the rectangle, so no tile is drawn twice. */
  lemma {:induction false} GridLength(lx: int, ux: int, ly: int, uy: int)
    ensures |Grid(lx, ux, ly, uy)| == (if ux <= lx then 0 else ux - lx) * (if uy <= ly then 0 else uy - ly)
    decreases ux - lx
  {
    if lx < ux {
      GridLength(lx, ux - 1, ly, uy);
      ColumnCells(ux - 1, ly, uy);
      var h := if uy <= ly then 0 else uy - ly;
      assert (ux - lx) * h == (ux - 1 - lx) * h + h;
    }
  }

  /** What `paintComponent` draws of the map: the `drawTile` calls, or None for an ArithmeticException. */
  function TileCalls(isFullscreen: bool, screenSize: (Int32, Int32), focused: Option<Vec>,
                     tileSize: Int32, mapWidth: Int32, mapHeight: Int32): Option<seq<(int, int)>>
  {
    var (screenWidth, screenHeight) := PreferredSize(isFullscreen, screenSize);
    var (focusX, focusY) := Focus(focused);
    match (Window(focusX, tileSize, screenWidth, mapWidth), Window(focusY, tileSize, screenHeight, mapHeight))
    case (Some((lx, ux)), Some((ly, uy))) => Some(Grid(lx, ux, ly, uy))
    case _ => None
  }

  /**
   * Under the bounds of WindowOnMap, `paintComponent` draws no tile past the
   * map's right or bottom edge, none left of or above the map when the map
   * holds the whole window, and always the tile under the focused point.
   */
  lemma PaintedTiles(isFullscreen: bool, screenSize: (Int32, Int32), focused: Option<Vec>,
                     tileSize: Int32, mapWidth: Int32, mapHeight: Int32, i: int, j: int)
    requires 1 <= tileSize <= 1_000_000
    requires var (fx, fy) := Focus(focused);
             -1_000_000_000 <= fx <= 1_000_000_000 && -1_000_000_000 <= fy <= 1_000_000_000
    requires 0 <= screenSize.0 <= 100_000_000 && 0 <= screenSize.1 <= 100_000_000
    requires 0 <= mapWidth <= 1_000_000_000 && 0 <= mapHeight <= 1_000_000_000
    ensures TileCalls(isFullscreen, screenSize, focused, tileSize, mapWidth, mapHeight).Some?
    ensures var drawn := TileCalls(isFullscreen, screenSize, focused, tileSize, mapWidth, mapHeight).value;
            var (sw, sh) := PreferredSize(isFullscreen, screenSize);
            var cell := 2 * tileSize;
            ((i, j) in drawn ==> i < mapWidth && j < mapHeight)
            && ((i, j) in drawn && 2 * (sw / cell / 2) + 3 <= mapWidth ==> 0 <= i)
            && ((i, j) in drawn && 2 * (sh / cell / 2) + 3 <= mapHeight ==> 0 <= j)
            && (var (fx, fy) := Focus(focused);
                i == JavaDiv(fx, cell) && j == JavaDiv(fy, cell) && 0 <= i < mapWidth && 0 <= j < mapHeight
                ==> (i, j) in drawn)
  {
    var (sw, sh) := PreferredSize(isFullscreen, screenSize);
    var (fx, fy) := Focus(focused);
    WindowOnMap(fx, tileSize, sw, mapWidth);
    WindowOnMap(fy, tileSize, sh, mapHeight);
    var (lx, ux) := Window(fx, tileSize, sw, mapWidth).value;
    var (ly, uy) := Window(fy, tileSize, sh, mapHeight).value;
    assert TileCalls(isFullscreen, screenSize, focused, tileSize, mapWidth, mapHeight) == Some(Grid(lx, ux, ly, uy));
    GridMembers(lx, ux, ly, uy, i, j);
  }

  class Canvas {
    const isFullscreen: bool
    var wasReleasedO: bool
    var wasReleasedSpace: bool
    var wasReleasedI: bool
    var wasReleasedP: bool
    var badguys: seq<nat>
    var allEntities: seq<EntityRef>
    /** The identity the next `new Monster` gets. */
    var nextMonster: nat

    function Latched(): Latches
      reads this
    {
      Latches(wasReleasedO, wasReleasedSpace, wasReleasedI, wasReleasedP)
    }

    /** Each monster is listed once, in both lists, after the player. */
    predicate Valid()
      reads this
    {
      Distinct(badguys)
      && allEntities == [PlayerRef] + Refs(badguys)
      && forall x :: x in badguys ==> x < nextMonster
    }

    /** The game set-up of the constructor; `wasReleasedP` is never assigned, so it starts false. */
    constructor (isFullscreen: bool)
      ensures Valid() && Latched() == Latches(true, true, true, false)
      ensures badguys == [] && allEntities == [PlayerRef] && this.isFullscreen == isFullscreen
    {
      this.isFullscreen := isFullscreen;
      wasReleasedO, wasReleasedSpace, wasReleasedI, wasReleasedP := true, true, true, false;
      badguys, allEntities := [], [PlayerRef];
      nextMonster := 0;
    }

    /** One run of the `loop` closure. */
    method Tick(pressed: set<string>, isDodging: bool, isBlocking: bool, position: Vec,
                distance: nat -> real, isDead: nat -> bool) returns (log: seq<Event>)
      requires Valid()
      modifies this
      ensures Valid()
      ensures var spawned := PressEdge(old(wasReleasedP), "P" in pressed, true).1;
              var before := old(badguys) + (if spawned then [old(nextMonster)] else []);
              var keys := KeyStep(old(Latched()), pressed, !isDodging && !isBlocking,
                                  Spawn(old(nextMonster), position.x + 100.0, position.y));
              Latched() == keys.0
              && log == keys.1 + [PlayerMove(Movement(pressed))] + Decisions(before, distance)
              && badguys == Alive(before, isDead)
              && nextMonster == old(nextMonster) + (if spawned then 1 else 0)
    {
      var movement := ReadMovement(pressed);
      log := ReadKeys(pressed, isDodging, isBlocking, position);
      log := log + [PlayerMove(movement)];
      var decisions, deadguys := Pass(badguys, distance, isDead);
      log := log + decisions;
      ghost var listed := badguys;
      RemoveDead(deadguys);
      RemoveAllIsKeep(listed, deadguys);
      KeepDeadIsAlive(listed, isDead, Elements(deadguys));
    }

    /** The movement vector, built by `+=` and `-=` on its components. */
    static method ReadMovement(pressed: set<string>) returns (movement: Vec)
      ensures movement == Movement(pressed)
    {
      movement := Vec(0.0, 0.0);
      if "C" in pressed {
        movement := movement.(y := movement.y - 1.0);
      }
      if "Z" in pressed {
        movement := movement.(y := movement.y - 1.0);
      }
      if "S" in pressed {
        movement := movement.(y := movement.y + 1.0);
      }
      if "Q" in pressed {
        movement := movement.(x := movement.x - 1.0);
      }
      if "D" in pressed {
        movement := movement.(x := movement.x + 1.0);
      }
    }

    /** The edge-triggered keys, in the closure's order. */
    method ReadKeys(pressed: set<string>, isDodging: bool, isBlocking: bool, position: Vec) returns (log: seq<Event>)
      requires Valid()
      modifies this
      ensures Valid()
      ensures var spawned := PressEdge(old(wasReleasedP), "P" in pressed, true).1;
              Latched() == KeyStep(old(Latched()), pressed, !isDodging && !isBlocking,
                                   Spawn(old(nextMonster), position.x + 100.0, position.y)).0
              && log == KeyStep(old(Latched()), pressed, !isDodging && !isBlocking,
                                Spawn(old(nextMonster), position.x + 100.0, position.y)).1
              && badguys == old(badguys) + (if spawned then [old(nextMonster)] else [])
              && nextMonster == old(nextMonster) + (if spawned then 1 else 0)
    {
      var attack := KeyO(pressed, !isDodging && !isBlocking);
      var dodge := KeySpace(pressed);
      var spawn := KeyP(pressed, position);
      var block := KeyI(pressed);
      log := attack + dodge + spawn + block;
    }

    /** O: `player.attack()` on the press edge, unless dodging or blocking. */
    method KeyO(pressed: set<string>, canAttack: bool) returns (log: seq<Event>)
      modifies this
      ensures var edge := PressEdge(old(wasReleasedO), "O" in pressed, canAttack);
              wasReleasedO == edge.0 && log == (if edge.1 then [PlayerAttack] else [])
      ensures wasReleasedSpace == old(wasReleasedSpace) && wasReleasedI == old(wasReleasedI)
              && wasReleasedP == old(wasReleasedP)
      ensures badguys == old(badguys) && allEntities == old(allEntities) && nextMonster == old(nextMonster)
    {
      log := [];
      if "O" in pressed {
        if wasReleasedO && canAttack {
          log := [PlayerAttack];
          wasReleasedO := false;
        }
      } else {
        wasReleasedO := true;
      }
    }

    /** SPACE: `player.dodge()` on the press edge. */
    method KeySpace(pressed: set<string>) returns (log: seq<Event>)
      modifies this
      ensures var edge := PressEdge(old(wasReleasedSpace), "SPACE" in pressed, true);
              wasReleasedSpace == edge.0 && log == (if edge.1 then [PlayerDodge] else [])
      ensures wasReleasedO == old(wasReleasedO) && wasReleasedI == old(wasReleasedI)
              && wasReleasedP == old(wasReleasedP)
      ensures badguys == old(badguys) && allEntities == old(allEntities) && nextMonster == old(nextMonster)
    {
      log := [];
      if "SPACE" in pressed {
        if wasReleasedSpace {
          log := [PlayerDodge];
          wasReleasedSpace := false;
        }
      } else {
        wasReleasedSpace := true;
      }
    }

    /** P: a new monster 100 to the right of the player, added to both lists, on the press edge. */
    method KeyP(pressed: set<string>, position: Vec) returns (log: seq<Event>)
      requires Valid()
      modifies this
      ensures Valid()
      ensures var edge := PressEdge(old(wasReleasedP), "P" in pressed, true);
              wasReleasedP == edge.0
              && log == (if edge.1 then [Spawn(old(nextMonster), position.x + 100.0, position.y)] else [])
              && badguys == old(badguys) + (if edge.1 then [old(nextMonster)] else [])
              && nextMonster == old(nextMonster) + (if edge.1 then 1 else 0)
      ensures wasReleasedO == old(wasReleasedO) && wasReleasedSpace == old(wasReleasedSpace)
              && wasReleasedI == old(wasReleasedI)
    {
      log := [];
      if "P" in pressed {
        if wasReleasedP {
          var monster := nextMonster;
          nextMonster := nextMonster + 1;
          allEntities := allEntities + [MonsterRef(monster)];
          assert monster !in badguys;
          badguys := badguys + [monster];
          assert Refs(badguys) == Refs(old(badguys)) + [MonsterRef(monster)];
          log := [Spawn(monster, position.x + 100.0, position.y)];
          wasReleasedP := false;
        }
      } else {
        wasReleasedP := true;
      }
    }

    /** I: `player.block()` on the press edge, `player.stopBlocking()` on the release edge. */
    method KeyI(pressed: set<string>) returns (log: seq<Event>)
      modifies this
      ensures var edge := BlockEdge(old(wasReleasedI), "I" in pressed);
              wasReleasedI == edge.0
              && log == (if edge.1 == Some(true) then [PlayerBlock]
                         else if edge.1 == Some(false) then [PlayerStopBlocking] else [])
      ensures wasReleasedO == old(wasReleasedO) && wasReleasedSpace == old(wasReleasedSpace)
              && wasReleasedP == old(wasReleasedP)
      ensures badguys == old(badguys) && allEntities == old(allEntities) && nextMonster == old(nextMonster)
    {
      log := [];
      if "I" in pressed && wasReleasedI {
        log := [PlayerBlock];
        wasReleasedI := false;
      }
      if !("I" in pressed) && !wasReleasedI {
        log := [PlayerStopBlocking];
        wasReleasedI := true;
      }
    }

    /** The loop over the monsters: each one's decision, and the dead ones collected in order. */
    static method Pass(badguys: seq<nat>, distance: nat -> real, isDead: nat -> bool)
      returns (log: seq<Event>, deadguys: seq<nat>)
      ensures log == Decisions(badguys, distance) && deadguys == Dead(badguys, isDead)
    {
      log, deadguys := [], [];
      for k := 0 to |badguys|
        invariant log == Decisions(badguys[..k], distance) && deadguys == Dead(badguys[..k], isDead)
      {
        assert badguys[..k + 1][..k] == badguys[..k];
        var badguy := badguys[k];
        var d := distance(badguy);
        if d < AggroRange {
          if d > MinDistance {
            log := log + [Monster(badguy, Chase)];
          } else if d <= MinDistance {
            log := log + [Monster(badguy, StopAndTryAttack)];
          }
        } else {
          log := log + [Monster(badguy, Wander)];
        }
        if isDead(badguy) {
          deadguys := deadguys + [badguy];
        }
      }
      assert badguys[..|badguys|] == badguys;
    }

    /** The second loop: each dead monster removed from both lists. */
    method RemoveDead(deadguys: seq<nat>)
      requires Valid()
      modifies this
      ensures Valid() && nextMonster == old(nextMonster) && Latched() == old(Latched())
      ensures badguys == RemoveAll(old(badguys), deadguys)
    {
      ghost var before := badguys;
      assert deadguys[..0] == [];
      for k := 0 to |deadguys|
        invariant Valid() && nextMonster == old(nextMonster) && Latched() == old(Latched())
        invariant badguys == RemoveAll(before, deadguys[..k])
      {
        assert deadguys[..k + 1][..k] == deadguys[..k];
        RemoveOne(deadguys[k]);
      }
      assert deadguys[..|deadguys|] == deadguys;
    }

    /** `badguys.remove(deadguy); allEntities.remove(deadguy);` */
    method RemoveOne(deadguy: nat)
      requires Valid()
      modifies this
      ensures Valid() && nextMonster == old(nextMonster) && Latched() == old(Latched())
      ensures badguys == RemoveFirst<nat>(old(badguys), deadguy)
    {
      RemoveKeepsLists(badguys, deadguy, nextMonster);
      badguys := RemoveFirst<nat>(badguys, deadguy);
      allEntities := RemoveFirst<EntityRef>(allEntities, MonsterRef(deadguy));
    }

    /**
     * The map part of `paintComponent`: the tile window around the focused
     * entity, clamped to the map, then one `drawTile(i, j)` per tile.  The
     * screen size, the focused position and the map's tile size and
     * dimensions are parameters; None is the ArithmeticException of a zero
     * `tileSize * SCALE`.
     */
    method PaintTiles(screenSize: (Int32, Int32), focused: Option<Vec>,
                      tileSize: Int32, mapWidth: Int32, mapHeight: Int32) returns (drawn: Option<seq<(int, int)>>)
      ensures drawn == TileCalls(isFullscreen, screenSize, focused, tileSize, mapWidth, mapHeight)
    {
      var (focusX, focusY) := Focus(focused);
      var (screenWidth, screenHeight) := PreferredSize(isFullscreen, screenSize);
      var cell := Wrap32(tileSize * TileScale);
      if cell == 0 {
        return None;
      }
      var lowerX, upperX := AxisRange(focusX, cell, screenWidth);
      var lowerY, upperY := AxisRange(focusY, cell, screenHeight);
      lowerX, upperX := Clamp(lowerX, upperX, mapWidth);
      lowerY, upperY := Clamp(lowerY, upperY, mapHeight);
      var calls := DrawGrid(lowerX, upperX, lowerY, upperY);
      return Some(calls);
    }

    /** `width = screen / cell`, then the lower and upper tile indices around `focus / cell`. */
    static method AxisRange(focus: Int32, cell: Int32, screen: Int32) returns (lower: Int32, upper: Int32)
      requires cell != 0
      ensures (lower, upper) == Unclamped(focus, cell, screen)
    {
      var width := Wrap32(JavaDiv(screen, cell));
      lower := Wrap32(Wrap32(Wrap32(JavaDiv(focus, cell)) - Wrap32(JavaDiv(width, 2))) - 1);
      upper := Wrap32(Wrap32(Wrap32(JavaDiv(focus, cell)) + Wrap32(JavaDiv(width, 2))) + 2);
    }

    /** The two clamps of one axis, by compound assignment. */
    static method Clamp(lower: Int32, upper: Int32, size: Int32) returns (lo: Int32, hi: Int32)
      ensures (lo, hi) == Clamped(lower, upper, size)
    {
      lo, hi := lower, upper;
      if lo < 0 {
        hi := Wrap32(hi - lo);
        lo := 0;
      }
      assert (lo, hi) == RaisedLower(lower, upper);
      if hi >= size {
        lo := Wrap32(lo - Wrap32(hi - size));
        hi := Wrap32(hi - Wrap32(hi - size));
      }
    }

    /** The two nested `for` loops over the clamped window. */
    static method DrawGrid(lowerX: Int32, upperX: Int32, lowerY: Int32, upperY: Int32) returns (calls: seq<(int, int)>)
      ensures calls == Grid(lowerX, upperX, lowerY, upperY)
    {
      calls := [];
      var i: Int32 := lowerX;
      while i < upperX
        invariant lowerX <= i && (i <= upperX || i == lowerX)
        invariant calls == Grid(lowerX, i, lowerY, upperY)
        decreases upperX - i
      {
        var j: Int32 := lowerY;
        while j < upperY
          invariant lowerY <= j && (j <= upperY || j == lowerY)
          invariant calls == Grid(lowerX, i, lowerY, upperY) + Column(i, lowerY, j)
          decreases upperY - j
        {
          calls := calls + [(i as int, j as int)];
          j := j + 1;
        }
        i := i + 1;
      }
    }
  }
}
