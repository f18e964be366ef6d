# Projet-POO game core in Dafny

This project models the core of a small Java 2D action game. It covers:

- the bounded values and statistics of the characters: `Range`, `EntityStats`;
- the plane vectors: `Vector2D`;
- the frame animations driven by Swing timers: `Animation`;
- the action state machine every character shares: `character/Entity`, with attacking, dodging, buffered movement and animation swapping;
- the character subclasses (`Player`, `Mage`, `Firemonster`, `Crystal`, `Monster`, `Dragon`) and the monsters' shared attack cooldown;
- the collision checks: `Collision`;
- the map file reader and the tile lookup of the map: `map/Reader`, `map/Map`;
- one tick of the game loop and the tile window painted around the camera focus: `Canvas`;
- the old top-level `Entity`.

One Dafny module stands for each Java file. Pure logic is written as functions and lemmas. Every Java class whose fields change in place is a Dafny class. Each of its methods is proved against a pure function of the old state, for example `ensures Value() == Assigned(old(Value()), value)`, and the lemmas state what the source promises about those functions.

Java's numbers are modelled explicitly (module `JavaNum`):

- `int` arithmetic wraps modulo 2^32 (`Wrap32`);
- `(int)` of a `double` truncates toward zero and saturates (`DoubleToInt`);
- `/` and `%` on `int` truncate toward zero (`JavaDiv`, `JavaRem`);
- `double` values are Dafny reals.

`LinkedHashMap` is modelled as a sequence of key/value pairs in insertion order (`OrderedMaps`). `String.split` with a literal separator and `Integer.parseInt` are defined in `JavaStrings`.

The following are parameters of the operations that use them:

- random draws;
- square roots and norms;
- image files: a directory listing, and a function from a file name to the picture's size;
- the keys held down;
- the members of the callees whose code is not part of the model.

The Canvas tick returns the calls it makes on the player and the monsters as a log of events.

## Model

| member | source | states |
|---|---|---|
| Ranges.Clip | src/main/java/geometry/Range.java:88-96 | with ordered bounds the result lies in them; a value inside is kept; a value below or above goes to the nearer bound |
| Ranges.Assigned | src/main/java/geometry/Range.java:88-96 | `set` keeps the bounds, and with ordered bounds the new current value lies between them |
| Ranges.SetTwice | src/main/java/geometry/Range.java:88-96 | setting the same value twice is the same as setting it once |
| Ranges.ClipIdempotent | src/main/java/geometry/Range.java:88-96 | clipping twice is clipping once |
| Ranges.SetGetInBounds | src/main/java/geometry/Range.java:88-102 | `set(get())` changes nothing on a range whose value is in bounds |
| Ranges.SetGetUnorderedBounds | src/main/java/geometry/Range.java:88-96 | with min > max, `set` is order-dependent: a concrete range where `set(-1)` gives 0 and `set(0)` then gives -5 |
| Ranges.SetLandsInRange | src/main/java/geometry/Range.java:88-143 | after `set` the value `isIn` the range, and `set(v)` stores `v` exactly when `v` was in the range |
| Ranges.IsMaxAsWrittenIsIsMin | src/main/java/geometry/Range.java:122-132 | `isMax` as written is true exactly when `isMin` is; a full range (0,10,10) is not reported as at max |
| Ranges.AtMaxAfterSetAbove | src/main/java/geometry/Range.java:88-132 | setting a value above max makes the corrected `isMax` true, and the as-written one false on a non-trivial range |
| Ranges.Range.UpTo | src/main/java/geometry/Range.java:42-45 | `Range(max)` is 0..max, full, and in bounds when max >= 0 |
| Ranges.Range.Between | src/main/java/geometry/Range.java:59-62 | `Range(min, max)` starts at max, in bounds when min <= max |
| Ranges.Range.constructor | src/main/java/geometry/Range.java:75-79 | the three-argument constructor stores its arguments unchecked |
| Ranges.Range.Set | src/main/java/geometry/Range.java:88-96 | the new state is `Assigned` of the old one |
| Ranges.Range.Get | src/main/java/geometry/Range.java:102-104 | on an in-bounds range the value is within the bounds and setting it back changes nothing |
| Ranges.Range.IsMin | src/main/java/geometry/Range.java:122-124 | with ordered bounds, true exactly when `set(min)` would change nothing |
| Ranges.Range.IsMax | src/main/java/geometry/Range.java:130-132 | as written: with ordered bounds, true exactly when `set(min)` would change nothing, so a full range with `max` above `min` answers false |
| Stats.Initial | src/main/java/character/EntityStats.java:52-59 | health and ether start full with min 0; the four stats are stored; the value is healthy for non-negative maxima |
| Stats.WithMaxHealth | src/main/java/character/EntityStats.java:113-117 | only health changes: a new range 0..newMax whose current value is the old one clipped into it |
| Stats.WithMaxEther | src/main/java/character/EntityStats.java:148-152 | the same for ether, health untouched |
| Stats.Damaged | src/main/java/character/EntityStats.java:123-126 | only the current health changes, by `-amount` clipped to the bounds; healthiness is kept |
| Stats.Healed | src/main/java/character/EntityStats.java:132-134 | only the current health changes, by `+amount` in 32-bit arithmetic, then clipped |
| Stats.HealedExact | src/main/java/character/EntityStats.java:132-134 | the corrected heal, without wrap-around: never lowers health for `amount >= 0` and stays in bounds |
| Stats.Spent | src/main/java/character/EntityStats.java:158-160 | only ether changes, lowered by `amount` and clipped at 0 |
| Stats.Retrieved | src/main/java/character/EntityStats.java:166-168 | only ether changes, raised by `amount` and clipped at the maximum |
| Stats.Upgraded | src/main/java/character/EntityStats.java:182-225 | the chosen stat grows by UP = 1; each other stat drops by DOWN = 0.25; ether is kept; the health maximum becomes `70 + (int)(10 * defence)` |
| Stats.ComputeDamage | src/main/java/character/EntityStats.java:233-236 | equal attack and defence deal 15 (defence not -1); for defence above -1, a stronger attack deals at least 15 and a weaker one at most 14; the division by zero at defence -1 is spelled out; below -1 nothing is promised |
| Stats.DamageMonotoneInAttack | src/main/java/character/EntityStats.java:233-236 | damage never decreases as attack grows (defence > -1) |
| Stats.DamageAntitoneInDefence | src/main/java/character/EntityStats.java:233-236 | for an attack of at least -1, damage never increases as defence grows (defence > -1) |
| Stats.DeadAfterDamage | src/main/java/character/EntityStats.java:123-142 | `isDead` after `takeDamage(amount)` exactly when amount reached the current health |
| Stats.HealUndoesDamage | src/main/java/character/EntityStats.java:123-134 | healing by the amount just taken, when that did not hit a bound, restores the stats |
| Stats.RetrieveUndoesSpend | src/main/java/character/EntityStats.java:158-168 | retrieving the ether just spent, when that did not hit a bound, restores the stats |
| Stats.HasEtherForIsStrict | src/main/java/character/EntityStats.java:158-177 | `hasEtherFor` as written guarantees a spend leaves ether above 0, and rejects spending exactly all of it |
| Stats.HasEnoughEtherIsExactSpend | src/main/java/character/EntityStats.java:158-177 | the corrected check holds exactly when spending subtracts the whole amount |
| Stats.UpgradeRaisesSum | src/main/java/character/EntityStats.java:26-28 | an upgrade raises the sum of the four stats by UP - 3 DOWN = 0.25 |
| Stats.UpgradeKeepsHealthy | src/main/java/character/EntityStats.java:182-225 | after an upgrade health stays in bounds, current health clipped to the new maximum |
| Stats.UpgradeDefenceFromOne | src/main/java/character/EntityStats.java:218-225 | from all stats at 1.0, upgrading defence gives max health 90 and upgrading speed gives 77 |
| Stats.HealOverflowKills | src/main/java/character/EntityStats.java:132-134 | `heal(Integer.MAX_VALUE)` at health 100 wraps and leaves health 0, while the corrected heal leaves 100 |
| Stats.EntityStats.constructor | src/main/java/character/EntityStats.java:52-59 | the state is `Initial` of the arguments |
| Stats.EntityStats.SetMaxHealth | src/main/java/character/EntityStats.java:113-117 | the new state is `WithMaxHealth` of the old one |
| Stats.EntityStats.TakeDamage | src/main/java/character/EntityStats.java:123-126 | the new state is `Damaged` of the old one |
| Stats.EntityStats.Heal | src/main/java/character/EntityStats.java:132-134 | the new state is `Healed` of the old one |
| Stats.EntityStats.IsDead | src/main/java/character/EntityStats.java:140-142 | with health kept in `[0, max]`, dead exactly when health is at or below 0 |
| Stats.EntityStats.SetMaxEther | src/main/java/character/EntityStats.java:148-152 | the new state is `WithMaxEther` of the old one |
| Stats.EntityStats.SpendEther | src/main/java/character/EntityStats.java:158-160 | the new state is `Spent` of the old one |
| Stats.EntityStats.RetrieveEther | src/main/java/character/EntityStats.java:166-168 | the new state is `Retrieved` of the old one |
| Stats.EntityStats.HasEtherFor | src/main/java/character/EntityStats.java:175-177 | as written: for a non-negative amount and ether in `[0, max]`, true exactly when spending it takes off the whole amount and leaves some ether |
| Stats.EntityStats.UpgradeSpeed | src/main/java/character/EntityStats.java:182-189 | the new state is `Upgraded(old, Speed)` |
| Stats.EntityStats.UpgradeAttack | src/main/java/character/EntityStats.java:194-201 | the new state is `Upgraded(old, Attack)` |
| Stats.EntityStats.UpgradePower | src/main/java/character/EntityStats.java:206-213 | the new state is `Upgraded(old, Power)` |
| Stats.EntityStats.UpgradeDefence | src/main/java/character/EntityStats.java:218-225 | the new state is `Upgraded(old, Defence)` |
| Vectors.Negated | src/main/java/geometry/Vector2D.java:76-79 | the negation is null exactly when the vector is, and adds up with it to zero |
| Vectors.Scale | src/main/java/geometry/Vector2D.java:131-133 | scaling by 1 is the identity, by 0 (or of the null vector) gives null, and by -1 is negation |
| Vectors.Dot | src/main/java/geometry/Vector2D.java:146-148 | a vector's dot product with itself is non-negative, and zero exactly for the null vector |
| Vectors.DotSymmetric | src/main/java/geometry/Vector2D.java:146-148 | the dot product is symmetric |
| Vectors.NegateTwice | src/main/java/geometry/Vector2D.java:76-79 | negating twice gives the vector back |
| Vectors.DotScale | src/main/java/geometry/Vector2D.java:131-148 | scaling a factor scales the dot product |
| Vectors.NormalizedIsUnit | src/main/java/geometry/Vector2D.java:90-110 | dividing a non-null vector by its norm gives a unit vector |
| Vectors.SumConcat | src/main/java/geometry/Vector2D.java:162-172 | the sum of a concatenation is the sum of the sums |
| Vectors.RemoveTerm | src/main/java/geometry/Vector2D.java:162-172 | taking any one term out of a sum and adding it back gives the same sum |
| Vectors.SumPermutation | src/main/java/geometry/Vector2D.java:162-172 | the order of the vectors given to `add` does not change the result |
| Vectors.Add | src/main/java/geometry/Vector2D.java:162-172 | the loop over the variadic arguments returns the sum of all the vectors |
| Vectors.Vector2D.Null | src/main/java/geometry/Vector2D.java:34-37 | the default vector is null |
| Vectors.Vector2D.constructor | src/main/java/geometry/Vector2D.java:50-53 | the vector holds the given coordinates |
| Vectors.Vector2D.Copy | src/main/java/geometry/Vector2D.java:64-67 | `copy` makes a fresh vector equal to its argument |
| Vectors.Vector2D.Negate | src/main/java/geometry/Vector2D.java:76-79 | in place, the new value is the negation of the old |
| Vectors.Vector2D.Normalize | src/main/java/geometry/Vector2D.java:90-96 | a null vector is left alone; any other is divided by its positive norm and becomes a unit vector |
| Animations.Created | src/main/java/graphics/Animation.java:105-124 | a new animation shows frame 0, is not playing, and no timer runs |
| Animations.LoopStep | src/main/java/graphics/Animation.java:113-115 | the loop timer advances to the next frame and wraps from the last to 0, changing nothing else |
| Animations.OnceStep | src/main/java/graphics/Animation.java:117-124 | the once timer advances; on passing the last frame it goes back to 0 and stops itself and the playing flag |
| Animations.Started | src/main/java/graphics/Animation.java:134-137 | `play` starts the loop timer and keeps the frame |
| Animations.StartedOnce | src/main/java/graphics/Animation.java:144-148 | `playOnce` rewinds to frame 0 and starts the once timer |
| Animations.Stopped | src/main/java/graphics/Animation.java:155-158 | `stop` stops only the loop timer and keeps the frame |
| Animations.OnceTicks | src/main/java/graphics/Animation.java:117-124 | any number of once firings keep the frame index in bounds |
| Animations.LoopTicks | src/main/java/graphics/Animation.java:113-115 | any number of loop firings keep the frame index in bounds |
| Animations.PlayOnceShowsEachFrame | src/main/java/graphics/Animation.java:117-148 | after `playOnce`, firing k (k below the frame count) shows frame k while still playing |
| Animations.PlayOnceEnds | src/main/java/graphics/Animation.java:117-148 | exactly frame-count firings after `playOnce` end on frame 0, stopped |
| Animations.LoopTicksAdvance | src/main/java/graphics/Animation.java:113-115 | loop firings that do not pass the last frame advance the index one by one |
| Animations.LoopTicksCompose | src/main/java/graphics/Animation.java:113-115 | n + m loop firings are n firings followed by m |
| Animations.LoopTicksRound | src/main/java/graphics/Animation.java:113-115 | a full round of frame-count loop firings returns to the same state |
| Animations.CountPrefixed | src/main/java/graphics/Animation.java:93-97 | the count is at most the number of files, and zero exactly when no file name starts with the frame name |
| Animations.CountFrames | src/main/java/graphics/Animation.java:93-97 | the counting loop returns the number of matching file names |
| Animations.Animation.Frames | src/main/java/graphics/Animation.java:110-124 | with the frames read, the animation is valid and in the created state |
| Animations.Animation.ReadFrames | src/main/java/graphics/Animation.java:104-107 | reads frames 1 to n in order: fails exactly when some file number in 1..n is unreadable, with the exception of the first such file; otherwise frame i holds file number i + 1 |
| Animations.Animation.New | src/main/java/graphics/Animation.java:87-125 | an unlisted folder throws NullPointerException; no matching file throws IOException; otherwise the constructor throws exactly when some counted frame file is unreadable, naming the first; a success is a fresh, valid, created animation |
| Animations.Animation.Load | src/main/java/graphics/Animation.java:67-75 | `load` gives null exactly when the constructor throws an IOException (no matching file or an unreadable frame); the NullPointerException of an unlisted folder propagates |
| Animations.Animation.LoopTick | src/main/java/graphics/Animation.java:113-115 | the new state is `LoopStep` of the old one |
| Animations.Animation.OnceTick | src/main/java/graphics/Animation.java:117-124 | the new state is `OnceStep` of the old one |
| Animations.Animation.Play | src/main/java/graphics/Animation.java:134-137 | the new state is `Started` of the old one |
| Animations.Animation.PlayOnce | src/main/java/graphics/Animation.java:144-148 | the new state is `StartedOnce` of the old one |
| Animations.Animation.Stop | src/main/java/graphics/Animation.java:155-158 | the new state is `Stopped` of the old one |
| Animations.Animation.GetCurrentFrame | src/main/java/graphics/Animation.java:171-173 | the frame returned is always in range: file number frameIndex + 1 |
| Entities.FacingLeftAfter | src/main/java/character/Entity.java:47-49 | an entity faces left after construction only if its constructor set the flag to true |
| Entities.Switch | src/main/java/character/Entity.java:218-242 | switching stops the current animation and starts the target, changing only the animations and the current slot |
| Entities.Swap | src/main/java/character/Entity.java:218-242 | `swapAnimation` keeps position, buffer and action flags, and keeps the entity's invariant |
| Entities.DoAttack | src/main/java/character/Entity.java:137-142 | an attack while attacking or dodging does nothing; otherwise it sets the flag and plays the attack animation of the facing side once |
| Entities.DoDodge | src/main/java/character/Entity.java:155-160 | the same for the dodge, with the dodge animation |
| Entities.Settle | src/main/java/character/Entity.java:94-101 | an action flag is cleared once its animation has stopped playing, and nothing else changes |
| Entities.Moved | src/main/java/character/Entity.java:92-124 | `move` is defined unless dodging with a null buffer (the NullPointerException); it keeps the invariant and never sets an action flag |
| Entities.TimerFires | src/main/java/graphics/Animation.java:113-124 | a timer firing changes only the animations and keeps the entity's invariant |
| Entities.Spawned | src/main/java/character/Entity.java:182-193 | after `setAnimations` the standing animation is current and playing, no action runs, and there is no buffer |
| Entities.SwapToRunNoOp | src/main/java/character/Entity.java:218-232 | swapping to standing or running is a no-op while acting or when already current |
| Entities.SwapFacing | src/main/java/character/Entity.java:223-232 | facing changes only when a run animation is swapped in, and then matches the run's direction |
| Entities.MoveWalks | src/main/java/character/Entity.java:112-123 | a move while not dodging adds (dx, dy), buffers it, and shows the run matching dx (standing when still) |
| Entities.DodgeIgnoresInput | src/main/java/character/Entity.java:103-110 | during a dodge the input is ignored: the entity moves by three times the buffer, which is kept |
| Entities.Moves | src/main/java/character/Entity.java:92-124 | a sequence of moves keeps the animations well-formed |
| Entities.DodgeDisplacementConstant | src/main/java/character/Entity.java:103-110 | n moves through a dodge go 3n times the buffer |
| Entities.DodgeFromNullBuffer | src/main/java/character/Entity.java:103-110 | a dodge from a zero buffer goes 4 units toward the facing side, keeping the caller's dy |
| Entities.AttackEndsAfterItsFrames | src/main/java/character/Entity.java:92-142 | the attack animation stops after its frame count of once firings, and the next move clears the attacking flag |
| Entities.Entity.constructor | src/main/java/character/Entity.java:182-193 | the state is `Spawned` of the position, facing and loaded animations |
| Entities.Entity.AnimValid | src/main/java/character/Entity.java:58-71 | each of the seven animations of a well-formed entity is valid |
| Entities.Entity.StopCurrent | src/main/java/character/Entity.java:218-242 | stops the current animation only |
| Entities.Entity.StartAt | src/main/java/character/Entity.java:218-242 | makes a slot current and starts it looped or once, nothing else |
| Entities.Entity.PlayCurrent | src/main/java/character/Entity.java:218-242 | plays the current animation looped or once; the other six keep their states |
| Entities.Entity.SwitchTo | src/main/java/character/Entity.java:218-242 | the new state is `Switch` of the old |
| Entities.Entity.SwapAnimation | src/main/java/character/Entity.java:218-242 | the new state is `Swap` of the old |
| Entities.Entity.SwitchWhenIdle | src/main/java/character/Entity.java:221-235 | unless the slot is already current or the entity attacks or dodges, a run turns the entity and the slot's animation loops; otherwise nothing changes |
| Entities.Entity.Attack | src/main/java/character/Entity.java:137-142 | the new state is `DoAttack` of the old |
| Entities.Entity.Dodge | src/main/java/character/Entity.java:155-160 | the new state is `DoDodge` of the old |
| Entities.Entity.CurrentState | src/main/java/character/Entity.java:56 | the `current` reference is the animation of the current slot |
| Entities.Entity.SettleFlags | src/main/java/character/Entity.java:94-101 | the new state is `Settle` of the old |
| Entities.Entity.Displace | src/main/java/character/Entity.java:121-123 | the position grows in place by (dx, dy) and the buffer is a fresh vector holding (dx, dy) |
| Entities.Entity.Translate | src/main/java/character/Entity.java:122-123 | the position object moves by the step in place; nothing else in the entity changes |
| Entities.Entity.Move | src/main/java/character/Entity.java:92-124 | `Moved` of the old state is the new state |
| Entities.Entity.MoveBy | src/main/java/character/Entity.java:130-132 | `move(Vector2D)` is `move(x, y)` of the vector's coordinates |
| Entities.Entity.GetSprite | src/main/java/character/Entity.java:199-201 | the sprite is the current animation's current frame |
| Entities.Entity.IsAttacking | src/main/java/character/Entity.java:148-150 | a well-formed entity that attacks is not dodging |
| Entities.Entity.IsDodging | src/main/java/character/Entity.java:166-168 | a well-formed entity that dodges is not attacking |
| Entities.Entity.IsFacingLeft | src/main/java/character/Entity.java:174-176 | a well-formed entity showing the left run faces left, and one showing the right run faces right |
| Players.PlayerInit | src/main/java/character/Player.java:43-48 | a player at (x, y) facing right with 100 health and ether, speed 10, and the other stats 1 |
| Players.PlayerDefault | src/main/java/character/Player.java:31-33 | `Player()` is the player at the origin |
| Players.PlayerOffset | src/main/java/character/Player.java:54-60 | the offset is null unless attacking, and then 16 units away from the facing side |
| Players.PlayerOffsetMirror | src/main/java/character/Player.java:54-60 | facing the other way mirrors the offset |
| Mages.MageInit | src/main/java/character/Mage.java:22-26 | a mage at (x, y) facing right, its stats left null |
| Mages.MageDefault | src/main/java/character/Mage.java:11-13 | `Mage()` is the mage at the origin |
| Mages.MageOffset | src/main/java/character/Mage.java:61-67 | the offset is (-32, 0) exactly when attacking facing left, else null |
| Firemonsters.FiremonsterInit | src/main/java/character/Firemonster.java:12-15 | a fire monster at (x, y) with neither facing nor stats assigned |
| Firemonsters.FiremonsterDefault | src/main/java/character/Firemonster.java:8-10 | `Firemonster()` is the one at the origin |
| Firemonsters.FiremonsterOffset | src/main/java/character/Firemonster.java:44-50 | the offset is (-32, 0) exactly when attacking facing left, else null |
| Crystals.CrystalInit | src/main/java/character/Crystal.java:34-46 | "blue" and "purple" choose the animation variant and place the crystal; any other colour assigns nothing |
| Crystals.CrystalOffset | src/main/java/character/Crystal.java:55-57 | the offset is the zero vector |
| Crystals.CrystalPlacedIffKnownColour | src/main/java/character/Crystal.java:34-46 | a crystal has coordinates exactly for the two known colours |
| Monsters.MonsterInit | src/main/java/character/Monster.java:33-38 | a monster at (x, y) facing right with 100 health and ether and all stats 1 |
| Monsters.MonsterDefault | src/main/java/character/Monster.java:19-21 | `Monster()` is the monster at the origin |
| Monsters.MonsterOffset | src/main/java/character/Monster.java:50-56 | the offset is null |
| Monsters.TimerAfter | src/main/java/character/Monster.java:90-104 | an attack resets the shared timer to the cooldown; a positive timer then drops by one per call, and one at or below 0 stays; a cooldown between 0 and 1 leaves it negative |
| Monsters.Attacks | src/main/java/character/Monster.java:94-96 | a probability of 0 never attacks; one of 100 always attacks a player within 150 once the timer has run out |
| Monsters.AttackRun | src/main/java/character/Monster.java:74-104 | one result per call of a run of `tryAttack` calls |
| Monsters.CooldownSuppressesAll | src/main/java/character/Monster.java:74-104 | while the shared timer is positive, the next calls from any monster fail |
| Monsters.AttackThenCooldown | src/main/java/character/Monster.java:74-104 | after an attack with cooldown c, the next calls below c fail, whichever monster makes them |
| Monsters.AttackCooldown.constructor | src/main/java/character/Monster.java:74 | the static timer starts at 0 |
| Monsters.AttackCooldown.TryAttack | src/main/java/character/Monster.java:90-104 | the monster attacks exactly when the timer has run out, the player is within 150 and the draw is below the probability; the timer becomes `TimerAfter` |
| Monsters.AttackWhen | src/main/java/character/Monster.java:95-98 | the monster's new state is `DoAttack` of the old when it attacks, the old state otherwise |
| Dragons.Roll | src/main/java/character/Dragon.java:25-27 | a stat roll never exceeds the zone's cap, 15 times the zone |
| Dragons.NewDragon | src/main/java/character/Dragon.java:18-31 | the dragon's attack, speed and defence are its rolls; health is 250 (zone + 1); ether is 100 |
| Dragons.RollBounds | src/main/java/character/Dragon.java:25-27 | without wrap-around a roll is `min(floor(draw (level + 5)) + 4 (zone - 1) + 3, 15 zone)`, between its floor and the cap |
| Dragons.ScaledDrawFloor | src/main/java/character/Dragon.java:25-27 | a draw in [0, 1) scaled by n floors to 0..n |
| Dragons.FirstZoneRolls | src/main/java/character/Dragon.java:25-27 | in zone 1 every roll lies between 3 and 15 |
| Dragons.DragonXp | src/main/java/character/Dragon.java:29-30 | the xp is 20 defence + 30 attack + 15 speed, bounded by the rolls' bounds, and the dragon's stats are healthy |
| Collisions.IntersectsIsOverlap | src/main/java/graphics/Collision.java:185-227 | `Rectangle.intersects` (no overflow) is strict overlap on both axes, and symmetric |
| Collisions.TouchingDoNotIntersect | src/main/java/graphics/Collision.java:185-227 | rectangles that only share an edge do not intersect; a non-empty rectangle intersects itself |
| Collisions.BodyHitbox | src/main/java/graphics/Collision.java:62-83 | the body box is 56 by 80 at the position truncated to int |
| Collisions.SwordHeight | src/main/java/graphics/Collision.java:97-113 | the sword is half the sprite's height |
| Collisions.SwordHitbox | src/main/java/graphics/Collision.java:97-113 | there is a sword box exactly while attacking; it is sprite-wide and lies 64 units to the facing side |
| Collisions.MonsterSwordHitbox | src/main/java/graphics/Collision.java:131-148 | the same for monsters: 32 wide, 45 units to the facing side |
| Collisions.TileHitbox | src/main/java/graphics/Collision.java:162-166 | tile (i, j) is the square of side tileSize at (i tileSize, j tileSize) |
| Collisions.Collides | src/main/java/graphics/Collision.java:185-227 | the check throws exactly when the scaled tile size is 0; otherwise it reports a wall in the 3x3 window or another entity's body |
| Collisions.View | src/main/java/graphics/Collision.java:185-227 | each entry of `others` is seen through its identity and current position |
| Collisions.ScanWalls | src/main/java/graphics/Collision.java:185-227 | the nested loop over the 3x3 window finds a wall exactly when one intersects the body |
| Collisions.ScanOthers | src/main/java/graphics/Collision.java:185-227 | the loop over the other entities finds a blocking one exactly when `EntityBlocks` holds |
| Collisions.CheckCollision | src/main/java/graphics/Collision.java:185-227 | `checkCollision` returns `Collides` of its inputs |
| Collisions.OnlyWallsBlock | src/main/java/graphics/Collision.java:185-227 | an entity never blocks itself, and a dodging entity is blocked by walls only |
| Collisions.MulLess | src/main/java/graphics/Collision.java:185-227 | a product comparison step of the window proof |
| Collisions.AxisCovered | src/main/java/graphics/Collision.java:185-227 | on one axis, a tile that overlaps the body lies within three tiles of the window's first tile |
| Collisions.QuotientRemainder | src/main/java/graphics/Collision.java:185-227 | the truncating division of the window start has the remainder sign Java gives it |
| Collisions.WindowCoversBody | src/main/java/graphics/Collision.java:185-227 | with a scaled tile size of at least 80, every wall tile that the body touches is in the scanned window |
| Collisions.WindowEnd | src/main/java/graphics/Collision.java:185-227 | without wrap-around, the window ends three tiles after its start |
| Collisions.SmallTilesMissWalls | src/main/java/graphics/Collision.java:185-227 | with a scaled tile size of 64 the window misses a wall the body touches: a body at y = 120 covers rows 1 to 3, but rows 0 to 2 are scanned |
| Collisions.NoSwordNoHit | src/main/java/graphics/Collision.java:244-274 | a character that is not attacking never lands a hit |
| Collisions.PlayerAttackLands | src/main/java/graphics/Collision.java:244-250 | the player hits only with a sword of positive size, and the test is the same whichever box asks |
| Collisions.MonsterAttackLands | src/main/java/graphics/Collision.java:268-274 | the monster hits only with a sword of positive size, and the test is the same whichever box asks |
| Collisions.PlayerDamageGate | src/main/java/graphics/Collision.java:293-304 | the HITSTUN guard never fires, because the state is never assigned; the player damages the monster exactly when attacking, not being hit, and the monster neither blocks, dodges nor attacks |
| Collisions.MonsterDamageGate | src/main/java/graphics/Collision.java:323-333 | the monster damages the player exactly when attacking, not being hit, and the player neither dodges nor attacks |
| Collisions.PlayerDamagesMonster | src/main/java/graphics/Collision.java:293-304 | the monster is damaged only by an attacking player with a sword, and never while it blocks, dodges or attacks |
| Collisions.MonsterDamagesPlayer | src/main/java/graphics/Collision.java:323-333 | the player is damaged only by an attacking monster with a sword, and never while dodging or attacking |
| Collisions.NoMutualDamage | src/main/java/graphics/Collision.java:293-333 | a player and a monster never damage each other in the same exchange |
| MapReader.Dataflag | src/main/java/map/Reader.java:59-63 | the three header lines map to flags 1, 2 and 4; every other line has no flag |
| MapReader.Step | src/main/java/map/Reader.java:86-130 | one line of the loop: a blank line changes nothing, a header switches the section and stores nothing, a data line keeps the section and flags, a data line before any header is an IOException |
| MapReader.Run | src/main/java/map/Reader.java:86-130 | after any lines the section is unset or a header's flag, and while it is unset nothing has been stored |
| MapReader.TilesetEntry | src/main/java/map/Reader.java:146-154 | a line splitting into no pieces is an index error; otherwise a first piece that does not parse is a NumberFormat error, and only then a missing second piece an index error; a success had both parts, the first parsed and the file present |
| MapReader.Constant | src/main/java/map/Reader.java:111-124 | a meta line without the separator is an index error; the other failures are number-format errors; a success changes only the named constant |
| MapReader.ParseAll | src/main/java/map/Reader.java:170-172 | parsing fails exactly when one piece is not an integer; otherwise there is one id per piece |
| MapReader.Layer | src/main/java/map/Reader.java:160-176 | a line with no closing '#' is an index error; the layer name holds no '#' |
| MapReader.Read | src/main/java/map/Reader.java:70-138 | a reader that is built has its height, width and tile size all set |
| MapReader.FailureSticks | src/main/java/map/Reader.java:86-130 | once a line fails, the lines after it are never read |
| MapReader.BlankLineIgnored | src/main/java/map/Reader.java:88-90 | a blank line anywhere changes nothing |
| MapReader.DataBeforeHeader | src/main/java/map/Reader.java:100-103 | a file whose first non-blank line is not a header is rejected |
| MapReader.BlanksKeepStart | src/main/java/map/Reader.java:72-90 | blank lines alone leave the reader in its start state |
| MapReader.Occurrences | src/main/java/map/Reader.java:93-97 | a header occurs at most once per line |
| MapReader.TogglesAreParities | src/main/java/map/Reader.java:93-97 | each header's bit of the XOR of all flags is the parity of how often that header occurs |
| MapReader.ToggleBitParity | src/main/java/map/Reader.java:93-97 | one header's bit of the XOR of all flags is the parity of that header's occurrences |
| MapReader.RunTracksToggles | src/main/java/map/Reader.java:83-97 | after a successful scan, `dataflags` is 7 XOR the toggles |
| MapReader.ReadNeedsOddHeaders | src/main/java/map/Reader.java:135-137 | a file is accepted only if every header occurs an odd number of times |
| MapReader.ConstantRoundTrip | src/main/java/map/Reader.java:111-124 | `HEIGHT - n`, `WIDTH - n` and `TILESIZE - n` set that constant to n |
| MapReader.TilesetRoundTrip | src/main/java/map/Reader.java:146-154 | `start - name` loads the image `name` under its first index |
| MapReader.Rendered | src/main/java/map/Reader.java:170-172 | each id is written as its decimal text |
| MapReader.LayerRoundTrip | src/main/java/map/Reader.java:160-176 | a layer line written from a name and ids parses back to that name and those ids |
| MapReader.ParseAllRendered | src/main/java/map/Reader.java:170-172 | the decimal texts of ids parse back to the ids |
| MapReader.LayerLineParts | src/main/java/map/Reader.java:160-176 | the name and the body of a layer line are found where the writer put them |
| MapReader.LayerReplaced | src/main/java/map/Reader.java:175 | a layer line stores its ids under its name, replacing any earlier layer of that name, and leaves other layers alone |
| MapReader.Abandon | src/main/java/map/Reader.java:100-103 | a failure at line k is the outcome of the whole file |
| MapReader.Reader.Empty | src/main/java/map/Reader.java:72-76 | the fields start with the unset values (-1 and empty) |
| MapReader.Reader.LoadTileset | src/main/java/map/Reader.java:146-154 | either the error of `TilesetEntry`, or the entry stored under its first index |
| MapReader.Reader.ReadConstant | src/main/java/map/Reader.java:111-124 | either the error of `Constant`, or its new state |
| MapReader.Reader.LoadTileMap | src/main/java/map/Reader.java:160-176 | either the error of `Layer`, or the layer stored under its name |
| MapReader.Reader.ParseLayer | src/main/java/map/Reader.java:161-172 | the layer name and its parsed ids, or the exception `loadTileMap` throws, agree with `Layer` |
| MapReader.Reader.ParseTiles | src/main/java/map/Reader.java:170-172 | the array is null exactly when parsing fails, else it holds the parsed ids |
| MapReader.Reader.Open | src/main/java/map/Reader.java:70-138 | a missing `.MAPDATA` file is an IOException; otherwise the constructor builds a reader holding `Read` of the lines, or fails with its error |
| MapReader.Reader.ReadLines | src/main/java/map/Reader.java:82-137 | the loop and the final validation give a reader holding `Read` of the lines, or its error |
| Maps.Below | src/main/java/map/Map.java:93-101 | the loop stops at the first tileset whose first index is not below the id |
| Maps.Chosen | src/main/java/map/Map.java:93-101 | when no tileset is below the id, nothing is chosen (null) |
| Maps.Cut | src/main/java/map/Map.java:104-113 | a null tileset throws NullPointerException and a zero tile size throws ArithmeticException; a tile cut out lies inside its picture |
| Maps.TileById | src/main/java/map/Map.java:88-116 | an id below every tileset throws; a tile found has the map's tile size and comes from the chosen tileset |
| Maps.LayerTiles | src/main/java/map/Map.java:72-77 | a position outside the layer is an index error; id 0 draws nothing; a layer draws at most one tile |
| Maps.Compose | src/main/java/map/Map.java:72-77 | the layers draw at most one tile each |
| Maps.TileAt | src/main/java/map/Map.java:60-81 | off the map the result is null, and only there; a map without a positive tile size throws |
| Maps.CellIndexInGrid | src/main/java/map/Map.java:65 | on a map of fewer than 2^31 cells, `y * width + x` is in the grid and distinct for distinct cells |
| Maps.CellIndex | src/main/java/map/Map.java:65 | for a cell in a grid row with `y * width + x` below 2^31, the 32-bit index does not wrap |
| Maps.RowMajor | src/main/java/map/Map.java:65 | a row-major index lies inside the grid |
| Maps.RowsApart | src/main/java/map/Map.java:65 | distinct cells have distinct row-major indices |
| Maps.RowBelow | src/main/java/map/Map.java:65 | a lower row starts past the end of any row above it |
| Maps.ZeroDrawsNothing | src/main/java/map/Map.java:72-77 | a layer holding 0 at the cell adds nothing to the composed tile |
| Maps.ComposeAppend | src/main/java/map/Map.java:72-77 | composing two groups of layers composes each in order and concatenates the tiles |
| Maps.ChosenTileset | src/main/java/map/Map.java:93-101 | the chosen tileset is the last one whose first index is below the id |
| Maps.CellRoundTrip | src/main/java/map/Map.java:104-105 | the column and row of a tile index give it back as `row * cols + column` |
| Maps.FirstFailureWins | src/main/java/map/Map.java:72-77 | a layer that throws decides the outcome, whatever the later layers hold |
| Maps.Map.New | src/main/java/map/Map.java:40-48 | the map holds the reader when the file reads; a missing file or any other IOException is caught and leaves the reader null; other exceptions propagate |
| Maps.Map.GetTileById | src/main/java/map/Map.java:88-116 | `getTileById` returns `TileById` of the reader's contents |
| Maps.Map.GetTile | src/main/java/map/Map.java:60-81 | a null reader throws; otherwise `getTile` returns `TileAt` |
| Maps.Map.ComposeAt | src/main/java/map/Map.java:72-77 | the loop over the layers gives `Compose` of the layers in insertion order, the first exception included |
| OrderedMaps.Find | src/main/java/map/Reader.java:153 | the key's first position, or the end exactly when the key is absent |
| OrderedMaps.Get | src/main/java/map/Reader.java:175 | `get` is null exactly for an absent key, else a stored value of the key |
| OrderedMaps.Put | src/main/java/map/Reader.java:175 | `put` keeps the key order and appends a new key at the end |
| OrderedMaps.PutKeepsDistinct | src/main/java/map/Reader.java:175 | keys stay distinct under `put` |
| OrderedMaps.GetPut | src/main/java/map/Reader.java:175 | after `put(k, v)`, `get(k)` is v and every other key is unchanged |
| OrderedMaps.PutPut | src/main/java/map/Reader.java:175 | a second `put` of the same key overwrites the first |
| Canvases.Movement | src/main/java/graphics/Canvas.java:131-146 | x is D minus Q, and y is S minus Z minus C (C is read although it is never listened to) |
| Canvases.MovementOfListenedKeys | src/main/java/graphics/Canvas.java:131-146 | with only the listened keys held, C plays no part: y is S minus Z, each component lies in {-1, 0, 1}, and no movement key gives the null vector |
| Canvases.PressEdge | src/main/java/graphics/Canvas.java:147-174 | the action fires exactly on a press with the latch released and the action allowed; the latch closes when it fires and reopens on release |
| Canvases.KeyStep | src/main/java/graphics/Canvas.java:147-185 | SPACE, P and I end the tick latched open exactly when up, a held O stays open only while attacks are refused; at most four events; the attack happens exactly on a fresh, allowed press of O |
| Canvases.BlockEdge | src/main/java/graphics/Canvas.java:177-185 | `block` fires on a press with the latch open, `stopBlocking` on a release with it closed; the latch follows the key |
| Canvases.AttackOncePerHold | src/main/java/graphics/Canvas.java:147-154 | holding O over any number of ticks attacks at most once |
| Canvases.Attacks | src/main/java/graphics/Canvas.java:147-154 | at most one attack per tick, and none over ticks without O held |
| Canvases.FiresOnlyOnFirstTick | src/main/java/graphics/Canvas.java:147-174 | a held key does not fire again on the next tick |
| Canvases.BlockCallsAlternate | src/main/java/graphics/Canvas.java:177-185 | block and stopBlocking calls strictly alternate |
| Canvases.Decide | src/main/java/graphics/Canvas.java:201-222 | a monster chases between 70 and 500, stops and tries to attack within 70, and wanders from 500 on |
| Canvases.Decisions | src/main/java/graphics/Canvas.java:201-232 | one decision per monster, in list order |
| Canvases.Alive | src/main/java/graphics/Canvas.java:229-237 | the survivors are the monsters of the list that are not dead |
| Canvases.Dead | src/main/java/graphics/Canvas.java:229-231 | the collected monsters are the dead ones |
| Canvases.AliveAppend | src/main/java/graphics/Canvas.java:229-237 | survivors distribute over concatenation |
| Canvases.RemoveFirst | src/main/java/graphics/Canvas.java:234-237 | `ArrayList.remove(Object)` leaves a list without the element alone, and otherwise removes one entry |
| Canvases.ElementsSnoc | src/main/java/graphics/Canvas.java:234-237 | the removed set grows by one element per dead monster |
| Canvases.RemoveAllIsKeep | src/main/java/graphics/Canvas.java:234-237 | on a list without duplicates, removing the dead one by one keeps exactly the others, in order |
| Canvases.Keep | src/main/java/graphics/Canvas.java:234-237 | the kept entries are those not removed |
| Canvases.Refs | src/main/java/graphics/Canvas.java:106-109 | each monster of `badguys` appears in `allEntities` at the same place after the player |
| Canvases.KeepDistinct | src/main/java/graphics/Canvas.java:234-237 | filtering keeps a list free of duplicates |
| Canvases.RemoveFirstDistinct | src/main/java/graphics/Canvas.java:234-237 | removing after filtering is filtering by one more element |
| Canvases.RemoveFromDistinct | src/main/java/graphics/Canvas.java:234-237 | on a list without duplicates, `remove(o)` removes every occurrence of o |
| Canvases.KeepFront | src/main/java/graphics/Canvas.java:234-237 | filtering a list is filtering its head, then its tail |
| Canvases.KeepNone | src/main/java/graphics/Canvas.java:234-237 | filtering out nothing present leaves the list unchanged |
| Canvases.KeepTwice | src/main/java/graphics/Canvas.java:234-237 | two filters are one filter by the union |
| Canvases.KeepSnoc | src/main/java/graphics/Canvas.java:234-237 | filtering distributes over appending one element |
| Canvases.RemoveRef | src/main/java/graphics/Canvas.java:234-237 | removing a monster from `allEntities` mirrors removing it from `badguys` |
| Canvases.RemoveRefTail | src/main/java/graphics/Canvas.java:234-237 | the same without the player at the front |
| Canvases.KeepDeadIsAlive | src/main/java/graphics/Canvas.java:229-237 | removing the collected dead monsters leaves exactly the survivors |
| Canvases.FirstPressSpawnsNothing | src/main/java/graphics/Canvas.java:165-174 | the first press of P after start-up spawns no monster, because the constructor never sets its latch |
| Canvases.PreferredSize | src/main/java/graphics/Canvas.java:259-265 | 800 by 600 in a window, the screen size in fullscreen |
| Canvases.Focus | src/main/java/graphics/Canvas.java:291-292 | the focus is the origin without a focused entity, else its position truncated to int |
| Canvases.Window | src/main/java/graphics/Canvas.java:295-324 | painting throws exactly when the scaled tile size is 0 |
| Canvases.Unclamped | src/main/java/graphics/Canvas.java:295-304 | for a positive cell size and sane magnitudes, the unclamped window holds the focused tile and spans `2 * (screen / cell / 2) + 3` tiles |
| Canvases.Clamped | src/main/java/graphics/Canvas.java:306-324 | a window already on the map is left as it is |
| Canvases.ClampedWindow | src/main/java/graphics/Canvas.java:306-324 | the clamps keep the window's span, bring its end inside the map, start it at 0 or above exactly when it fits, and keep a map tile it held |
| Canvases.WindowOnMap | src/main/java/graphics/Canvas.java:295-324 | for sane sizes the window spans `2 (screen / cell / 2) + 3` tiles, ends inside the map, starts inside it when it fits, and holds the focus tile when that is on the map |
| Canvases.WindowUnwrapped | src/main/java/graphics/Canvas.java:300-304 | for sane sizes no 32-bit step wraps: the window is centre - half - 1 to centre + half + 2, clamped |
| Canvases.ColumnCells | src/main/java/graphics/Canvas.java:326-330 | the inner loop draws the cells of one column, top to bottom |
| Canvases.ColumnMembers | src/main/java/graphics/Canvas.java:326-330 | a cell is drawn in column i exactly when its row is in range |
| Canvases.GridMembers | src/main/java/graphics/Canvas.java:326-330 | a cell is drawn exactly when both coordinates lie in the window |
| Canvases.GridLength | src/main/java/graphics/Canvas.java:326-330 | the number of tiles drawn is the window's width times its height |
| Canvases.PaintedTiles | src/main/java/graphics/Canvas.java:283-330 | for sane sizes every drawn tile is on the map's right and bottom side, on the left and top side when the window fits, and the focus tile is drawn when on the map |
| Canvases.Canvas.constructor | src/main/java/graphics/Canvas.java:98-126 | no monsters, the player alone among the entities, the O, SPACE and I latches open and the P latch closed |
| Canvases.Canvas.Tick | src/main/java/graphics/Canvas.java:129-240 | the key events, then the player's move, then one decision per monster (a spawned one included); the dead monsters leave both lists, which stay in step |
| Canvases.Canvas.ReadMovement | src/main/java/graphics/Canvas.java:131-146 | the movement is `Movement` of the keys held |
| Canvases.Canvas.ReadKeys | src/main/java/graphics/Canvas.java:147-185 | the latches and events are those of `KeyStep`; a spawned monster joins both lists |
| Canvases.Canvas.KeyO | src/main/java/graphics/Canvas.java:147-154 | O attacks on its press edge when the player neither dodges nor blocks |
| Canvases.Canvas.KeySpace | src/main/java/graphics/Canvas.java:155-162 | SPACE dodges on its press edge |
| Canvases.Canvas.KeyP | src/main/java/graphics/Canvas.java:165-174 | P spawns a fresh monster 100 units right of the player on its press edge, added to both lists |
| Canvases.Canvas.KeyI | src/main/java/graphics/Canvas.java:177-185 | I blocks on press and stops blocking on release |
| Canvases.Canvas.Pass | src/main/java/graphics/Canvas.java:199-232 | the monster loop returns each one's decision and the dead ones in order |
| Canvases.Canvas.RemoveDead | src/main/java/graphics/Canvas.java:234-237 | the removal loop removes each dead monster from both lists |
| Canvases.Canvas.RemoveOne | src/main/java/graphics/Canvas.java:234-237 | one removal from both lists, keeping them in step |
| Canvases.Canvas.PaintTiles | src/main/java/graphics/Canvas.java:283-330 | the tiles drawn are `TileCalls` of the inputs |
| Canvases.Canvas.AxisRange | src/main/java/graphics/Canvas.java:295-304 | one axis's unclamped window, in 32-bit arithmetic |
| Canvases.Canvas.Clamp | src/main/java/graphics/Canvas.java:306-324 | the compound assignments compute `Clamped` |
| Canvases.Canvas.DrawGrid | src/main/java/graphics/Canvas.java:326-330 | the nested loops draw the window column by column |
| LegacyEntities.Moved | src/main/java/Entity.java:14-17 | a move shifts each coordinate by exactly its argument |
| LegacyEntities.MovedByZero | src/main/java/Entity.java:14-17 | moving by (0, 0) changes nothing |
| LegacyEntities.MovedTwice | src/main/java/Entity.java:14-17 | two moves add up, in either order |
| LegacyEntities.MovedBack | src/main/java/Entity.java:14-17 | a move is undone by the opposite move |
| LegacyEntities.LegacyEntity.constructor | src/main/java/Entity.java:4-7 | every field holds its Java default |
| LegacyEntities.LegacyEntity.Move | src/main/java/Entity.java:14-17 | a null position throws; otherwise the shared position vector is moved in place |

## Left out

- Swing timers are not modelled as timers. Each firing is an explicit call (`LoopTick`, `OnceTick`, `TimerFires`), so frame rates and timer delays do not appear.
- Reading images (`ImageIO.read`) is not modelled beyond whether it succeeds: an animation frame file is readable or not (`Animations.Animation.New`), and a tileset file is present, without a decoder, or decoded. A picture is given by its size, and `getSubimage` by the check `Maps.Fits`, where a square outside the picture counts as no tile. The pixels of a composed tile are not modelled: a composed tile is the list of tiles drawn into it, and drawing a null tile draws nothing.
- The directory listing and the `mapDir` prefix of file names are parameters. Line terminators and `BufferedReader` are not modelled: a file is its list of lines, or `None` when it does not exist. A missing `.MAPDATA` file is the `FileNotFoundException` of `new FileReader` (an IOException), which `Maps.Map.New` catches like the reader's own.
- `Integer.parseInt` is modelled on ASCII digits with an optional sign and 32-bit range. Non-ASCII Unicode digits are not modelled.
- Randomness (`Random`, `Math.random`) becomes draws in [0, 1) passed as parameters. `Math.sqrt` and `norm()` become given norms and distances.
- `Monster.randMovement` and the movement calls of the tick are left out. These are `move` with a speed, `move` with the entity list, and `stopMoving`. They call overloads that `Entity` does not declare.
- Members that the source calls but that none of its files declare become parameters or log events of the tick. On the characters these are `getStats`, `isDead`, `isBeingHit`, `isBlocking`, `block`, `stopBlocking` and `getDamage` (only `EntityStats` declares an `isDead`). On the map they are `drawTile`, `getTileSize`, `getWidth`, `getHeight` and `isWall`: `Map` declares none of the five, and only the reader declares `getWidth`, `getHeight` and `getTileSize`, whose fields the model reads from the reader.
- `Dragon` calls a four-argument superclass constructor that `Monster` does not declare. `Dragons.NewDragon` models the fields the body assigns, on the set-up of `Monster(x, y)`.
- The collision and attack handling inside the tick are modelled on their own in `Collisions`. The tick's log records each monster's decision but not the outcome of its attack.
- The `Camera` and the drawing of entities and health bars in `paintComponent` are left out. Only the tiles drawn are modelled.
- `Collisions.EntityState`: none of the source files declares the `EntityState` enum whose `HITSTUN` constant the handlers compare with. The model gives that enum a `Hitstun` value and one other value. The static fields holding it are never assigned, so they are null. Nor does any file declare the static `Entity.isMonster` that `checkCollision` calls; both branches of that test build the same 56 by 80 box, so the model needs no answer from it.
- `Collisions.Collides` returns whether the move collides. No collision is resolved or position corrected, because the code only returns a boolean.
- `Collisions.IntersectsIsOverlap`: `Rectangle.intersects` is modelled with the JDK's wrapped edge arithmetic. The plain-overlap reading is proved only when no edge overflows.
- `MapReader.Read`: `dataflags` is a 3-bit set; the Java `int` never holds more than those bits.
- `Entities.Entity.Move` requires the buffered movement to be non-null while dodging. The NullPointerException path is modelled in the function `Entities.Moved` as `None`.
- `Entities.Entity.constructor` assumes all seven frame folders load. `setAnimations` stores the null that `Animation.load` gives for a folder that does not load. A null `standing` throws a NullPointerException at `current.play()`, and any other null slot throws one the first time `swapAnimation` switches to it, after the old animation was stopped and, for a run, after the facing changed. These null paths are not modelled.
- `LegacyEntities.LegacyEntity.constructor`: no class extends the old top-level `Entity`, so its fields keep their Java defaults.
- `Canvases.WindowOnMap` and `Canvases.PaintedTiles` are proved only under magnitude bounds where no 32-bit step wraps. Outside those bounds only `Canvases.Window`'s definition applies.
- `Collisions.WindowCoversBody` is proved only for a scaled tile size of at least 80 and bounded positions. `Collisions.SmallTilesMissWalls` shows that the scan is incomplete below that size.
- `Stats.ComputeDamage` models the `double` division with reals. The NaN and infinity results at defence -1 are given their Java `(int)` conversions, and no other floating-point rounding is modelled.
- Aliasing between entities is modelled only where the source shares objects: the legacy position vector, and the seven animations of an entity, which are distinct objects.

## Findings

| source | as written | input that shows it | evidently intended | confidence | as-written member | corrected member |
|---|---|---|---|---|---|---|
| src/main/java/geometry/Range.java:130-132 | `isMax` compares the current value with `min` | `Range(0, 10, 10)`: `isMax()` is false and `isMin()` is false | `isMax` compares with `max` | not executed | Ranges.IsMaxAsWrittenIsIsMin | Ranges.AtMaxAfterSetAbove |
| src/main/java/character/EntityStats.java:175-177 | `hasEtherFor(amount)` tests `ether > amount` | ether 10, amount 10: spending is refused although it would leave exactly 0 | `ether >= amount` | not executed | Stats.HasEtherForIsStrict | Stats.HasEnoughEtherIsExactSpend |
| src/main/java/character/EntityStats.java:132-134 | `heal` adds in 32-bit arithmetic before clipping | health 100 of 100, `heal(Integer.MAX_VALUE)`: the sum wraps negative and health becomes 0 | healing never lowers health | not executed | Stats.HealOverflowKills | Stats.HealedExact |
