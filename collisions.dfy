/**
 * graphics/Collision.java: integer hitboxes, the 3x3 wall scan of
 * `checkCollision`, entity-versus-entity blocking, and the attack gates.
 * Positions are doubles (reals) cast to `int`; `java.awt.Rectangle` is the
 * Rect datatype with the JDK's `intersects`.  Map queries the model cannot
 * see (`isWall`, `getTileSize`) are parameters.
 */
module Collisions {
  import opened JavaNum
  import opened Wrappers
  import opened Vectors
  import opened Entities

  /** `SCALE`. */
  const Scale: Int32 := 2

  /** A `java.awt.Rectangle`. */
  datatype Rect = Rect(x: Int32, y: Int32, width: Int32, height: Int32)

  /**
   * `java.awt.Rectangle.intersects(r)` as the JDK computes it: false for an
   * empty rectangle, otherwise the four edge tests on the wrapped far edges.
   */
  predicate Intersects(t: Rect, r: Rect) {
    if r.width <= 0 || r.height <= 0 || t.width <= 0 || t.height <= 0 then false
    else
      var rw := Wrap32(r.width + r.x);
      var rh := Wrap32(r.height + r.y);
      var tw := Wrap32(t.width + t.x);
      var th := Wrap32(t.height + t.y);
      (rw < r.x || rw > t.x) && (rh < r.y || rh > t.y) && (tw < t.x || tw > r.x) && (th < t.y || th > r.y)
  }

  /** The far edges of the rectangle fit an `int`. */
  predicate NoOverflow(r: Rect) {
    r.x + r.width <= MaxInt32 && r.y + r.height <= MaxInt32
  }

  /** Two non-empty rectangles share interior points: the strict-overlap rule. */
  predicate Overlap(t: Rect, r: Rect) {
    t.width > 0 && t.height > 0 && r.width > 0 && r.height > 0
    && r.x < t.x + t.width && t.x < r.x + r.width
    && r.y < t.y + t.height && t.y < r.y + r.height
  }

  /** Without overflow, `intersects` is exactly strict overlap; it is symmetric in any case. */
  lemma IntersectsIsOverlap(t: Rect, r: Rect)
    requires NoOverflow(t) && NoOverflow(r)
    ensures Intersects(t, r) <==> Overlap(t, r)
    ensures Intersects(t, r) <==> Intersects(r, t)
  {
  }

  /** Rectangles that only touch along an edge do not intersect. */
  lemma TouchingDoNotIntersect(t: Rect)
    requires t.width > 0 && t.height > 0 && NoOverflow(t) && t.x + 2 * t.width <= MaxInt32
    ensures !Intersects(t, t.(x := t.x + t.width))
    ensures Intersects(t, t)
  {
  }

  /** `(int) (64 * SCALE / 2.25)` and `(int) (64 * SCALE / 1.6)`. */
  function BodyWidth(): Int32 {
    DoubleToInt((64 * Scale) as real / 2.25)
  }

  function BodyHeight(): Int32 {
    DoubleToInt((64 * Scale) as real / 1.6)
  }

  /** `getPlayerHitbox` and `getMonsterHitbox`, which compute the same rectangle. */
  function BodyHitbox(position: Vec): (r: Rect)
    ensures r.width == 56 && r.height == 80
    ensures r.x == DoubleToInt(position.x) && r.y == DoubleToInt(position.y)
  {
    assert BodyWidth() == 56 && BodyHeight() == 80;
    Rect(DoubleToInt(position.x), DoubleToInt(position.y), BodyWidth(), BodyHeight())
  }

  /** `(int) (spriteHeight * SCALE / 4)`: an `int` product, then truncating division. */
  function SwordHeight(spriteHeight: Int32): (h: Int32)
    ensures 0 <= spriteHeight <= MaxInt32 / 2 ==> h == spriteHeight / 2
  {
    Wrap32(JavaDiv(Wrap32(spriteHeight * Scale), 4))
  }

  /**
   * `getSwordHitbox(entity)`: null unless attacking; otherwise a box as wide
   * as the sprite, 64 pixels ahead of the offset position in the facing
   * direction and 10 pixels below the doubled vertical offset.
   */
  function SwordHitbox(position: Vec, offset: Vec, isFacingLeft: bool, isAttacking: bool,
                       spriteWidth: Int32, spriteHeight: Int32): (r: Option<Rect>)
    ensures r.Some? <==> isAttacking
    ensures r.Some? ==> r.value.width == spriteWidth && r.value.height == SwordHeight(spriteHeight)
    ensures r.Some? ==> r.value.y == DoubleToInt(position.y - offset.y * (Scale as real) + 10.0)
    ensures r.Some? && isFacingLeft ==> r.value.x == DoubleToInt(position.x - offset.x - 64.0)
    ensures r.Some? && !isFacingLeft ==> r.value.x == DoubleToInt(position.x - offset.x + 64.0)
  {
    if isAttacking then
      var direction := if isFacingLeft then -1.0 else 1.0;
      Some(Rect(DoubleToInt(position.x - offset.x + direction * 64.0),
                DoubleToInt(position.y - offset.y * (Scale as real) + 10.0),
                spriteWidth, SwordHeight(spriteHeight)))
    else None
  }

  /** `getSwordHitboxMonster(entity)`: the same with a reach of 45 and a width of 64 / 2. */
  function MonsterSwordHitbox(position: Vec, offset: Vec, isFacingLeft: bool, isAttacking: bool,
                              spriteHeight: Int32): (r: Option<Rect>)
    ensures r.Some? <==> isAttacking
    ensures r.Some? ==> r.value.width == 32 && r.value.height == SwordHeight(spriteHeight)
    ensures r.Some? ==> r.value.y == DoubleToInt(position.y - offset.y * (Scale as real) + 10.0)
    ensures r.Some? && isFacingLeft ==> r.value.x == DoubleToInt(position.x - offset.x - 45.0)
    ensures r.Some? && !isFacingLeft ==> r.value.x == DoubleToInt(position.x - offset.x + 45.0)
  {
    if isAttacking then
      var direction := if isFacingLeft then -1.0 else 1.0;
      Some(Rect(DoubleToInt(position.x - offset.x + direction * 45.0),
                DoubleToInt(position.y - offset.y * (Scale as real) + 10.0),
                Wrap32(JavaDiv(64, 2)), SwordHeight(spriteHeight)))
    else None
  }

  /** `getTileHitbox(i, j, tileSize)`. */
  function TileHitbox(i: Int32, j: Int32, tileSize: Int32): (r: Rect)
    ensures MinInt32 <= i * tileSize <= MaxInt32 ==> r.x == i * tileSize
    ensures MinInt32 <= j * tileSize <= MaxInt32 ==> r.y == j * tileSize
    ensures r.width == r.height == tileSize
  {
    Rect(Wrap32(i * tileSize), Wrap32(j * tileSize), tileSize, tileSize)
  }

  /** The first index of the scanned window: `((int) p - tileSize) / tileSize`. */
  function TopLeft(p: Int32, tileSize: Int32): Int32
    requires tileSize != 0
  {
    Wrap32(JavaDiv(Wrap32(p - tileSize), tileSize))
  }

  /** Some wall tile of the 3x3 window starting at `(topX, topY)` intersects `rect`. */
  predicate WallInWindow(rect: Rect, topX: Int32, topY: Int32, tileSize: Int32, isWall: (Int32, Int32) -> bool) {
    exists i: Int32, j: Int32 :: topX <= i < Wrap32(topX + 3) && topY <= j < Wrap32(topY + 3)
      && isWall(i, j) && Intersects(rect, TileHitbox(i, j, tileSize))
  }

  /** What `checkCollision` needs to know of an entry of `others`. */
  datatype Other = Other(isSelf: bool, position: Vec)

  /** A non-dodging entity is blocked by any other entity whose body it intersects. */
  predicate EntityBlocks(rect: Rect, isDodging: bool, others: seq<Other>) {
    exists k :: 0 <= k < |others| && !others[k].isSelf && !isDodging && Intersects(rect, BodyHitbox(others[k].position))
  }

  /** The exception of a division by a zero tile size. */
  datatype ArithmeticException = DivisionByZero

  /** The answer of `checkCollision`, with `tileSize = map.getTileSize() * SCALE`. */
  function Collides(newPosition: Vec, mapTileSize: Int32, isWall: (Int32, Int32) -> bool,
                    isDodging: bool, others: Option<seq<Other>>): (r: Result<bool, ArithmeticException>)
    ensures r.Failure? <==> Wrap32(mapTileSize * Scale) == 0
  {
    var tileSize := Wrap32(mapTileSize * Scale);
    if tileSize == 0 then Failure(DivisionByZero)
    else
      var rect := BodyHitbox(newPosition);
      var topX := TopLeft(rect.x, tileSize);
      var topY := TopLeft(rect.y, tileSize);
      Success(WallInWindow(rect, topX, topY, tileSize, isWall)
              || (others.Some? && EntityBlocks(rect, isDodging, others.value)))
  }

  /** The entries of `others` as seen from `entity`: reference equality and current position. */
  ghost function View(entity: Entity, others: seq<Entity>): (r: seq<Other>)
    reads set k | 0 <= k < |others| :: others[k]
    reads set k | 0 <= k < |others| :: others[k].coordinates
    ensures |r| == |others|
    ensures forall k :: 0 <= k < |others| ==> r[k] == Other(others[k] == entity, others[k].coordinates.Value())
    decreases |others|
  {
    if others == [] then []
    else
      var last := others[|others| - 1];
      View(entity, others[..|others| - 1]) + [Other(last == entity, last.coordinates.Value())]
  }

  /** The two nested loops of `checkCollision` over the 3x3 window, returning on the first wall hit. */
  method ScanWalls(rect: Rect, topX: Int32, topY: Int32, tileSize: Int32, isWall: (Int32, Int32) -> bool)
    returns (hit: bool)
    ensures hit == WallInWindow(rect, topX, topY, tileSize, isWall)
  {
    var endX, endY := Wrap32(topX + 3), Wrap32(topY + 3);
    var i := topX;
    while i < endX
      invariant topX <= i && (i <= endX || i == topX)
      invariant forall i': Int32, j': Int32 :: (topX <= i' < i && topY <= j' < endY
        ==> !(isWall(i', j') && Intersects(rect, TileHitbox(i', j', tileSize))))
    {
      var j := topY;
      while j < endY
        invariant topY <= j && (j <= endY || j == topY)
        invariant forall j': Int32 :: (topY <= j' < j
          ==> !(isWall(i, j') && Intersects(rect, TileHitbox(i, j', tileSize))))
      {
        if isWall(i, j) {
          var tileRect := TileHitbox(i, j, tileSize);
          if Intersects(rect, tileRect) {
            return true;
          }
        }
        j := j + 1;
      }
      i := i + 1;
    }
    return false;
  }

  /** The loop of `checkCollision` over `others`, skipping the entity itself. */
  method ScanOthers(entity: Entity, rect: Rect, others: seq<Entity>) returns (hit: bool)
    ensures hit == EntityBlocks(rect, entity.isDodging, View(entity, others))
  {
    ghost var view := View(entity, others);
    for k := 0 to |others|
      invariant forall k' :: 0 <= k' < k ==> !(!view[k'].isSelf && !entity.isDodging
                                               && Intersects(rect, BodyHitbox(view[k'].position)))
    {
      if others[k] == entity {
        continue;
      }
      var otherHitbox := BodyHitbox(others[k].coordinates.Value());
      if !entity.isDodging && Intersects(rect, otherHitbox) {
        return true;
      }
    }
    return false;
  }

  /** `checkCollision(entity, newPosition, others)`; `None` stands for a null list. */
  method CheckCollision(entity: Entity, newPosition: Vec, others: Option<seq<Entity>>,
                        mapTileSize: Int32, isWall: (Int32, Int32) -> bool)
    returns (r: Result<bool, ArithmeticException>)
    ensures r == Collides(newPosition, mapTileSize, isWall, entity.isDodging,
                          if others.None? then None else Some(View(entity, others.value)))
  {
    var tileSize := Wrap32(mapTileSize * Scale);
    if tileSize == 0 {
      return Failure(DivisionByZero);
    }
    var rect := BodyHitbox(newPosition);
    var topX := TopLeft(rect.x, tileSize);
    var topY := TopLeft(rect.y, tileSize);
    var hit := ScanWalls(rect, topX, topY, tileSize, isWall);
    if hit {
      return Success(true);
    }
    if others.Some? {
      hit := ScanOthers(entity, rect, others.value);
      if hit {
        return Success(true);
      }
    }
    return Success(false);
  }

  /** An entity never blocks itself, and a dodging entity is blocked by walls only. */
  lemma OnlyWallsBlock(newPosition: Vec, mapTileSize: Int32, isWall: (Int32, Int32) -> bool,
                       isDodging: bool, others: seq<Other>)
    requires Wrap32(mapTileSize * Scale) != 0
    requires isDodging || forall k :: 0 <= k < |others| ==> others[k].isSelf
    ensures Collides(newPosition, mapTileSize, isWall, isDodging, Some(others))
         == Collides(newPosition, mapTileSize, isWall, isDodging, None)
  {
  }

  /** One axis of a body of length `len` starting at `p` overlaps tile `i` of side `ts`. */
  predicate AxisOverlap(p: int, len: int, i: int, ts: int) {
    i * ts < p + len && p < i * ts + ts
  }

  lemma MulLess(a: int, b: int, ts: int)
    requires ts > 0 && a * ts < b * ts
    ensures a < b
  {
  }

  /**
   * On one axis, with a tile side at least the body length and no
   * wrap-around, every tile the body overlaps lies in the three scanned.
   */
  lemma {:induction false} AxisCovered(p: Int32, len: int, i: int, ts: Int32)
    requires 0 < len <= ts <= 1_000_000 && -1_000_000_000 <= p <= 1_000_000_000
    requires AxisOverlap(p, len, i, ts)
    ensures TopLeft(p, ts) <= i <= TopLeft(p, ts) + 2
  {
    var a := p - ts;
    assert Wrap32(a) == a;
    var q, rem := QuotientRemainder(a, ts);
    assert TopLeft(p, ts) == q;
    assert p == q * ts + rem + ts;
    if a >= 0 {
      assert q * ts < i * ts;
      MulLess(q, i, ts);
      assert (q + 3) * ts == q * ts + 3 * ts;
      assert i * ts < (q + 3) * ts;
      MulLess(i, q + 3, ts);
    } else {
      assert (i + 1) * ts == i * ts + ts;
      assert q * ts < (i + 1) * ts;
      MulLess(q, i + 1, ts);
      assert (q + 2) * ts == q * ts + 2 * ts;
      assert i * ts < (q + 2) * ts;
      MulLess(i, q + 2, ts);
    }
  }

  /** Java's quotient of `a` by a positive `ts`, its remainder, and the remainder's sign rule. */
  lemma QuotientRemainder(a: Int32, ts: Int32) returns (q: int, rem: int)
    requires ts > 0
    ensures q == JavaDiv(a, ts) && Wrap32(q) == q && q * ts + rem == a
    ensures 0 <= a ==> 0 <= rem < ts
    ensures a < 0 ==> -ts < rem <= 0
  {
    q, rem := JavaDiv(a, ts), JavaRem(a, ts);
    QuotientBound(a, ts);
  }

  /**
   * With `tileSize * SCALE >= 80` (the body height) the scan is complete:
   * any wall tile intersecting the body, anywhere on the map, is in the
   * scanned window, so `checkCollision` finds every wall the body touches.
   */
  lemma WindowCoversBody(newPosition: Vec, ts: Int32, isWall: (Int32, Int32) -> bool, i: Int32, j: Int32)
    requires 80 <= ts <= 1_000_000
    requires -1_000_000_000.0 <= newPosition.x <= 1_000_000_000.0
    requires -1_000_000_000.0 <= newPosition.y <= 1_000_000_000.0
    requires MinInt32 <= i * ts && i * ts + ts <= MaxInt32 && MinInt32 <= j * ts && j * ts + ts <= MaxInt32
    requires isWall(i, j) && Intersects(BodyHitbox(newPosition), TileHitbox(i, j, ts))
    ensures WallInWindow(BodyHitbox(newPosition), TopLeft(BodyHitbox(newPosition).x, ts),
                         TopLeft(BodyHitbox(newPosition).y, ts), ts, isWall)
  {
    var rect := BodyHitbox(newPosition);
    var tile := TileHitbox(i, j, ts);
    assert -1_000_000_000 <= rect.x <= 1_000_000_000 && -1_000_000_000 <= rect.y <= 1_000_000_000;
    assert tile == Rect(i * ts, j * ts, ts, ts);
    IntersectsIsOverlap(rect, tile);
    assert AxisOverlap(rect.x, 56, i, ts);
    assert AxisOverlap(rect.y, 80, j, ts);
    AxisCovered(rect.x, 56, i, ts);
    AxisCovered(rect.y, 80, j, ts);
    var topX, topY := TopLeft(rect.x, ts), TopLeft(rect.y, ts);
    WindowEnd(rect.x, ts);
    WindowEnd(rect.y, ts);
    assert topX <= i < Wrap32(topX + 3) && topY <= j < Wrap32(topY + 3);
  }

  /** Without wrap-around the window end is three past its start. */
  lemma WindowEnd(p: Int32, ts: Int32)
    requires 0 < ts <= 1_000_000 && -1_000_000_000 <= p <= 1_000_000_000
    ensures Wrap32(TopLeft(p, ts) + 3) == TopLeft(p, ts) + 3
  {
    var q, rem := QuotientRemainder(p - ts, ts);
    assert TopLeft(p, ts) == q;
    var n: nat := if p - ts < 0 then -(p - ts) else p - ts;
    DivAtMost(n, ts);
  }

  /**
   * With a map tile size of 32 (side 64) the window can miss a wall: a body
   * at y = 120 spans rows 1 to 3, but the scan covers rows 0 to 2.
   */
  lemma SmallTilesMissWalls()
    ensures var rect := BodyHitbox(Vec(0.0, 120.0));
            Intersects(rect, TileHitbox(0, 3, 64))
            && TopLeft(rect.y, 64) == 0
            && !WallInWindow(rect, TopLeft(rect.x, 64), TopLeft(rect.y, 64), 64, (i: Int32, j: Int32) => i == 0 && j == 3)
  {
    var rect := BodyHitbox(Vec(0.0, 120.0));
    assert rect == Rect(0, 120, 56, 80);
    assert TopLeft(120, 64) == 0;
  }

  /**
   * `checkPlayerAttack`: the player's sword exists and intersects the monster's body.
   * The test does not depend on which of the two boxes is asked, and only a
   * sword of positive size can land.
   */
  predicate PlayerAttackLands(sword: Option<Rect>, monsterPosition: Vec)
    ensures PlayerAttackLands(sword, monsterPosition) <==>
              sword.Some? && Intersects(BodyHitbox(monsterPosition), sword.value)
    ensures PlayerAttackLands(sword, monsterPosition) ==> sword.value.width > 0 && sword.value.height > 0
  {
    sword.Some? && Intersects(sword.value, BodyHitbox(monsterPosition))
  }

  /** `checkMonsterAttack`: the monster's sword exists and intersects the player's body, tested either way round. */
  predicate MonsterAttackLands(sword: Option<Rect>, playerPosition: Vec)
    ensures MonsterAttackLands(sword, playerPosition) <==>
              sword.Some? && Intersects(BodyHitbox(playerPosition), sword.value)
    ensures MonsterAttackLands(sword, playerPosition) ==> sword.value.width > 0 && sword.value.height > 0
  {
    sword.Some? && Intersects(sword.value, BodyHitbox(playerPosition))
  }

  /** A character that is not attacking never lands a hit. */
  lemma NoSwordNoHit(position: Vec, offset: Vec, isFacingLeft: bool, spriteWidth: Int32, spriteHeight: Int32, target: Vec)
    ensures !PlayerAttackLands(SwordHitbox(position, offset, isFacingLeft, false, spriteWidth, spriteHeight), target)
    ensures !MonsterAttackLands(MonsterSwordHitbox(position, offset, isFacingLeft, false, spriteHeight), target)
  {
  }

  /** The state a `HITSTUN` guard compares with; the two static fields holding it are never assigned. */
  datatype EntityState = Hitstun | OtherState

  /** `currentState` and `currentStateMonster`: never assigned, so null. */
  const CurrentState: Option<EntityState> := None
  const CurrentStateMonster: Option<EntityState> := None

  /**
   * `handlePlayerAttack`: whether `monster.getDamage(player)` is called. Only an
   * attacking player with a sword damages, and never a monster that blocks,
   * dodges or attacks itself.
   */
  predicate PlayerDamagesMonster(currentState: Option<EntityState>, sword: Option<Rect>,
                                 playerAttacking: bool, playerBeingHit: bool,
                                 monsterBlocking: bool, monsterDodging: bool, monsterAttacking: bool)
    ensures PlayerDamagesMonster(currentState, sword, playerAttacking, playerBeingHit,
                                 monsterBlocking, monsterDodging, monsterAttacking)
            ==> playerAttacking && sword.Some? && !(monsterBlocking || monsterDodging || monsterAttacking)
  {
    currentState != Some(Hitstun) && sword.Some?
    && playerAttacking && !playerBeingHit && !monsterBlocking && !monsterDodging && !monsterAttacking
  }

  /**
   * `handleMonsterAttack`: whether `player.getDamage(monster)` is called. Only an
   * attacking monster with a sword damages, and never a player that dodges or
   * attacks itself.
   */
  predicate MonsterDamagesPlayer(currentState: Option<EntityState>, sword: Option<Rect>,
                                 monsterAttacking: bool, monsterBeingHit: bool,
                                 playerDodging: bool, playerAttacking: bool)
    ensures MonsterDamagesPlayer(currentState, sword, monsterAttacking, monsterBeingHit, playerDodging, playerAttacking)
            ==> monsterAttacking && sword.Some? && !(playerDodging || playerAttacking)
  {
    currentState != Some(Hitstun) && sword.Some?
    && monsterAttacking && !monsterBeingHit && !playerDodging && !playerAttacking
  }

  /**
   * With the never-assigned state, the HITSTUN guard is vacuous, and the
   * player damages the monster exactly when it attacks, is not being hit,
   * and the monster neither blocks, dodges nor attacks; the sword need not
   * reach the monster.
   */
  lemma PlayerDamageGate(position: Vec, offset: Vec, isFacingLeft: bool, spriteWidth: Int32, spriteHeight: Int32,
                       playerAttacking: bool, playerBeingHit: bool,
                       monsterBlocking: bool, monsterDodging: bool, monsterAttacking: bool)
    ensures PlayerDamagesMonster(CurrentState,
              SwordHitbox(position, offset, isFacingLeft, playerAttacking, spriteWidth, spriteHeight),
              playerAttacking, playerBeingHit, monsterBlocking, monsterDodging, monsterAttacking)
        <==> playerAttacking && !playerBeingHit && !monsterBlocking && !monsterDodging && !monsterAttacking
  {
  }

  /** The same for `handleMonsterAttack`: the monster damages the player exactly when the player is neither dodging nor attacking. */
  lemma MonsterDamageGate(position: Vec, offset: Vec, isFacingLeft: bool, spriteHeight: Int32,
                          monsterAttacking: bool, monsterBeingHit: bool, playerDodging: bool, playerAttacking: bool)
    ensures MonsterDamagesPlayer(CurrentStateMonster,
              MonsterSwordHitbox(position, offset, isFacingLeft, monsterAttacking, spriteHeight),
              monsterAttacking, monsterBeingHit, playerDodging, playerAttacking)
        <==> monsterAttacking && !monsterBeingHit && !playerDodging && !playerAttacking
  {
  }

  /** A player and a monster never damage each other in the same exchange: each handler needs the other side not to attack. */
  lemma NoMutualDamage(playerSword: Option<Rect>, monsterSword: Option<Rect>,
                       playerAttacking: bool, playerBeingHit: bool, playerDodging: bool,
                       monsterBlocking: bool, monsterDodging: bool, monsterAttacking: bool,
                       monsterBeingHit: bool)
    ensures !(PlayerDamagesMonster(CurrentState, playerSword, playerAttacking, playerBeingHit,
                                   monsterBlocking, monsterDodging, monsterAttacking)
              && MonsterDamagesPlayer(CurrentStateMonster, monsterSword, monsterAttacking, monsterBeingHit,
                                      playerDodging, playerAttacking))
  {
  }
}
