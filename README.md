# Tank game engine and colour classifier, modelled in Dafny

This project models the entity-component engine of a small browser tank game,
plus the colour-format classifier of a colour-converter widget.

- **Store.** The `World` is a table of entity tables. Entity 0 is the root and
  holds the `Player` and `Level` singletons. The other ids come from a counter
  that starts at 1. Each entity table maps a component's class name to the
  component.
- **Components.** The records the game files in the store, with their
  mutators `hit`, `add` and `increment`.
- **Geometry and levels.** The strict box-overlap test, the "valid position"
  test against walls and the world bounds, and `generateLevel`. That function
  clears the walls, lays a steel border and drops random interior tiles.
- **Systems.** Each runs once per tick over snapshots of the store:
  - movement and shooting;
  - collision, a bullet pass and then an enemy pass;
  - powerups;
  - enemy spawning, which keeps `lastSpawnTime`;
  - the explosion animation;
  - the director that starts a game.
- **Colour classifier.** `detectFormat` trims and lower-cases a string, then
  names its format by prefix.

How the model is built:

- **Store as a value.** `Worlds.Store` is the abstract value of a `World`:
  - `entities`: entity id to type tag to component;
  - `order`: the insertion order in which a JavaScript `Map` enumerates its
    keys;
  - `nextId`: the id counter.
- **Store operations.** Functions on `Store` specify them. The class
  `Worlds.World` implements them with methods whose contracts tie the new
  state to those functions. `Worlds.WellFormed` is what every reachable store
  satisfies: the counter is at least 1, the order lists exactly the live
  entities in increasing id order, every live id is below the counter, and
  every component is filed under its own tag. It does not say the root
  exists: `removeEntity(0)` deletes it, and so does `generateLevel` when the
  root holds a `Wall`.
- **Systems.** Every system is a class holding its `World`. Its `update`
  method is a loop over the snapshot the source takes. The loop is proved
  equal to a fold given as a function over the snapshot. Lemmas about that
  fold state what the system does. Their usual shape:
  - the store stays well formed;
  - which entities appear or disappear, which fields change and to what;
  - everything else stays as it was.
- **Errors.** JavaScript would throw a `TypeError` at each point where the
  source dereferences a component that is not there: a missing `Player`, the
  position of a wall or enemy removed earlier in the same pass, or a missing
  `DirectionChange` or `Health`. The model makes each of these an explicit
  outcome, `Worlds.Outcome.Fault(store)`, whose store holds the writes made
  before the throw. No precondition excludes them.
- **Randomness.** Every `Math.random()` value is a parameter `r` with
  `0 <= r < 1`. It is mapped to a choice exactly as the source maps it, by
  `floor(r * n)` or a threshold.
- **Timers.** A `setTimeout` removal is returned as a `Effects.Removal`
  record instead of being performed.
- **Numbers.** Coordinates, speeds and times are `real`, so arithmetic is
  exact.
- **Component fields.** The systems mutate component objects in place. Each
  such mutation becomes a read-modify-write of the entity's table.
- **Undeclared fields.** `Movement.isMoving` and `Tank.isShooting` are used
  but never declared, so in JavaScript they start `undefined`. Here they are
  booleans that start `false`.

Two behaviours of the source are worth noting:

- **Dead level-advance block.** `EnemySpawnSystem.update` has a "level
  advance" block that can never run. Its condition implies the spawn
  condition. The spawn branch has just set `lastSpawnTime` to the current
  time, so the block's test of elapsed time fails.
  `Spawning.LevelAdvanceUnreachable` proves this, and the `Update` method
  carries it as an assertion on that branch.
- **Whitespace in `detectFormat`.** JavaScript's `trim` strips the full
  ECMAScript white-space and line-terminator set. The model uses that set,
  not ASCII blanks only. `toLowerCase` is modelled for ASCII letters only.

## Model

| member | source | states |
|---|---|---|
| Worlds.Init | src/games/worlds.ts:5-9 | a new world holds only the root entity 0, with an empty table, the counter at 1, and is well formed |
| Worlds.World.constructor | src/games/worlds.ts:4-9 | the new `World` has the state `Init()`: root only, counter 1 |
| Worlds.CreateKeeps | src/games/worlds.ts:19-23 | the fresh id is the counter, never the root, above every id in use; creating keeps the store well formed |
| Worlds.World.CreateEntity | src/games/worlds.ts:19-23 | returns the old counter, advances it by one, and adds that id with an empty table at the end of the enumeration order |
| Worlds.IdsFresh | src/games/worlds.ts:9-23 | ids are never 0, strictly increase from call to call, and are never handed out again after a removal |
| Worlds.CreatedIsEmpty | src/games/worlds.ts:21 | a freshly created entity exists and holds no component |
| Worlds.World.RemoveEntity | src/games/worlds.ts:25-27 | deletes exactly that entity and its table, and removes it from the enumeration order |
| Worlds.RemoveIdempotent | src/games/worlds.ts:25-27 | removing twice is removing once, and every other entity is unchanged |
| Worlds.World.AddComponent | src/games/worlds.ts:29-34 | files the component under its own tag in a live entity's table; a missing entity is left missing |
| Worlds.PutLookup | src/games/worlds.ts:29-34 | after `addComponent` only the component's own slot of a live entity changes, to that component; every other slot reads as before; nothing happens to a missing entity |
| Worlds.PutSame | src/games/worlds.ts:29-34 | filing a component that is already in its slot leaves the store unchanged |
| Worlds.World.AddComponents | src/games/worlds.ts:36-43 | files the list in order (the state is `PutAll`), with no effect on a missing entity |
| Worlds.LastOfTag | src/games/worlds.ts:39-41 | the chosen component is in the list and has the tag asked for; none exactly when no component of the list has it |
| Worlds.PutAllLookup | src/games/worlds.ts:36-43 | after `addComponents` each slot holds the last component of the list with that tag, or its old value when the list has none; a missing entity stays missing |
| Worlds.PutAllLive | src/games/worlds.ts:36-43 | on a live entity, `addComponents` rewrites that entity's table and nothing else |
| Worlds.SpawnFramed | src/games/worlds.ts:19-43 | `createEntity` then `addComponents` adds one entity at the counter and leaves every live entity as it was |
| Worlds.Lookup | src/games/worlds.ts:45-51 | `None` exactly when the entity or the slot is missing, otherwise the stored component, whose tag on a well-formed store is the one asked for |
| Worlds.World.GetComponent | src/games/worlds.ts:45-51 | returns `Lookup` of the current state and changes nothing |
| Worlds.PositionOf | src/games/worlds.ts:45-51 | `getComponent(id, Position)` read as a box: some position exactly when the entity holds one |
| Worlds.Holds | src/games/worlds.ts:66-72 | true exactly when the entity exists and its table has the tag |
| Worlds.World.HasComponent | src/games/worlds.ts:66-72 | returns `Holds` of the current state and changes nothing |
| Worlds.Query | src/games/worlds.ts:53-64 | every pair yielded is a live entity holding the tag, with that component |
| Worlds.World.GetComponents | src/games/worlds.ts:53-64 | returns `Query` of the current state and changes nothing |
| Worlds.Enumerate | src/games/worlds.ts:56-63 | the loop over the map's keys pushes exactly the pairs the enumeration `QueryFrom` yields for those keys |
| Worlds.QueryFromSound | src/games/worlds.ts:57-62 | each pair the enumeration yields is a live entity of the order with its component of that tag |
| Worlds.QueryFromComplete | src/games/worlds.ts:57-62 | each live entity of the order that holds the tag is yielded |
| Worlds.QueryFromIncreasing | src/games/worlds.ts:57-62 | over an increasing order the yielded ids increase |
| Worlds.QueryComplete | src/games/worlds.ts:19-64 | on a well-formed store `getComponents(T)` yields every live entity holding `T` exactly once, in increasing id order |
| Worlds.QueryAgree | src/games/worlds.ts:53-64 | two stores with the same order that agree on every slot of tag `T` enumerate `T` alike |
| Worlds.QuerySpawn | src/games/worlds.ts:19-64 | after a spawn `getComponents(T)` yields what it did before, then the new entity when its list holds a `T` |
| Worlds.World.CreatePlayer | src/games/worlds.ts:11-17 | creates an entity and files `Player(newId, num)` on the root |
| Worlds.CreatePlayerEffect | src/games/worlds.ts:11-17 | the root's `Player` becomes `(newId, num)` whatever it held before, the new id is the old counter, and every other old entity is unchanged |
| Components.Hit | src/games/components.ts:37-39 | `current` drops by exactly `value`, `max` is kept, with no clamping |
| Components.Add | src/games/components.ts:45-47 | `value` grows by exactly the amount added |
| Components.Increment | src/games/components.ts:13-15 | `index` grows by exactly 1 |
| Components.MutatorsKeepTag | src/games/components.ts:13-47 | each mutator keeps the record's class, so it stays in its slot |
| Components.HitKills | src/games/components.ts:33-39 | after `hit(v)`, `isDead()` holds exactly when `current <= v`, and `max` stays |
| Components.Defaults | src/games/components.ts:22-60 | an omitted `lastChange` is 0, an omitted `damage` is 1, and the undeclared `isMoving` and `isShooting` start false |
| Util.CollisionSymmetric | src/games/util.ts:7-14 | the overlap test gives the same answer with its arguments swapped |
| Util.EdgeContactIsNoCollision | src/games/util.ts:7-14 | boxes that only share an edge, or lie farther apart, on either axis do not collide |
| Util.CollisionIsSharedPoint | src/games/util.ts:7-14 | for boxes of positive size, overlap holds exactly when some point lies strictly inside both |
| Util.ScanClear | src/games/util.ts:21-29 | the wall scan finds nothing exactly when every remaining entry is a bush or has a position that misses the box |
| Util.FirstHitFound | src/games/util.ts:21-29 | a blocked scan names a snapshot entry that is a non-bush wall overlapping the box, and every entry before it passes |
| Util.ValidityBlocked | src/games/util.ts:18-29 | a non-bush wall entity whose position overlaps the box makes the position invalid, or the search throws first |
| Util.ValidityClear | src/games/util.ts:18-32 | when no non-bush wall overlaps the box, bushes and non-wall entities never matter, and the answer is true exactly when the box lies in [0, width] x [0, height], bounds included |
| Util.ValidityUndefined | src/games/util.ts:21-26 | the search throws only on reaching a non-bush wall with no position |
| Util.ValidityPut | src/games/util.ts:17-33 | writing a component that is neither a wall nor a position changes no validity answer |
| Util.IsValidPosition | src/games/util.ts:17-33 | the read-only loop with early return returns the answer of the specification `Validity`, or reports the throw, and changes nothing |
| Util.TilesCollide | src/games/util.ts:55-84 | two grid tiles overlap exactly when they sit on the same cell |
| Util.RemoveAllEffect | src/games/util.ts:37-39 | removing a snapshot deletes exactly the listed entities and keeps every other entity as it was |
| Util.RemoveEach | src/games/util.ts:39 | the `forEach` loop leaves the state `RemoveAll` of the snapshot |
| Util.ClearedEffect | src/games/util.ts:37-39 | clearing removes exactly the entities that hold a `Wall` and keeps every other entity as it was |
| Util.ClearedKeeps | src/games/util.ts:37-39 | clearing keeps the store well formed and the counter where it was |
| Util.PlacedByCreateAndAdd | src/games/util.ts:50-87 | `createEntity` then `addComponents([Position, Wall])` gives the entity exactly the tile's box and wall type |
| Util.PlaceTile | src/games/util.ts:50-87 | one tile: the state becomes `Placed` of the tile |
| Util.PlacedAllEffect | src/games/util.ts:46-87 | placing a list of tiles creates one entity per tile, with consecutive ids from the counter, each holding exactly its tile; nothing else changes |
| Util.BorderStep | src/games/util.ts:49-59 | one cell of the border loop: a border cell adds the next tile of the list, any other cell adds nothing |
| Util.BorderLayout | src/games/util.ts:46-61 | the border is 48 distinct steel tiles, one on every cell of the left column, the right column and the top row; the bottom row is open between the corners |
| Util.PlacedBorderDomain | src/games/util.ts:46-61 | the border adds exactly the ids from the counter on, one per remaining tile |
| Util.PlacedBorderNew | src/games/util.ts:46-61 | the entity `k + i` ids after the counter holds exactly the `i`-th remaining border tile |
| Util.PlacedBorderKeepsOld | src/games/util.ts:46-61 | the border leaves every entity below the counter as it was |
| Util.PlaceBorder | src/games/util.ts:46-61 | the nested loop, column by column, leaves the state `PlacedBorder` |
| Util.BorderedEffect | src/games/util.ts:46-61 | bordering adds the 48 border tiles under the next ids and keeps the rest |
| Util.DrawnTileRange | src/games/util.ts:68-69 | a drawn cell lies in columns 1..18 and rows 1..12 |
| Util.InteriorShape | src/games/util.ts:67-88 | the interior loop adds at most `40 + 5 * level` tiles, each a drawn cell in columns 1..18 and rows 1..12, none near the player |
| Util.InteriorFromStart | src/games/util.ts:67-75 | with the player at its start row (y = 448) no drawn cell is near it, so every pass adds a tile |
| Util.InteriorClear | src/games/util.ts:68-69 | no interior tile overlaps a border tile or the player's start box at (304, 448) |
| Util.PlaceInterior | src/games/util.ts:67-88 | the loop leaves the state `Interior` of its draws: one pass per draw, skipping the cells near the player |
| Util.FurnishedEffect | src/games/util.ts:63-88 | the part after the border keeps the store well formed and only adds entities above the counter |
| Util.FurnishedKeepsBorder | src/games/util.ts:63-88 | the part after the border leaves the border tiles, placed below the counter, where they were |
| Util.Furnish | src/games/util.ts:43-88 | leaves the state and the throw flag of `Furnished`: it throws when the root has no `Player` or no `Level`, or when there are tiles to place and the player has no `Position` |
| Util.GenerateKeeps | src/games/util.ts:36-89 | `generateLevel` keeps the store well formed, whether or not it throws |
| Util.GenerateClears | src/games/util.ts:37-39 | after `generateLevel`, thrown or not, no old wall is left and every other old entity is unchanged |
| Util.GenerateBorders | src/games/util.ts:46-61 | after `generateLevel`, thrown or not, the 48 ids after the old counter are the steel border tiles |
| Util.GenerateLevel | src/games/util.ts:36-89 | the method's outcome is `Generate` of the old state and the draws |
| Effects.ThenQueued | src/games/systems.ts:182-305 | a throw inside a `for ... of` loop ends the loop with the removals queued so far; otherwise the rest of the loop queues after them |
| Effects.RandomDirection | src/games/systems.ts:26-28 | up, down, left or right exactly when `r` lies in the first, second, third or last quarter of [0, 1) |
| Effects.RandomCooldown | src/games/systems.ts:30-32 | the cooldown lies in [1000, 3000) |
| Effects.RandomPowerup | src/games/systems.ts:49 | helmet, star or extra life exactly when `3r` lies in [0, 1), [1, 2) or [2, 3) |
| Effects.OthersMembers | src/games/systems.ts:302 | the filter keeps exactly the entries of entities other than the player (the same filter as at lines 244 and 466) |
| Effects.OthersAscending | src/games/systems.ts:302 | the filter keeps the order, so increasing ids stay increasing (the same filter as at lines 244 and 466) |
| Effects.ExplodedEffect | src/games/systems.ts:34-44 | an explosion is one new entity at the counter. It holds exactly an `Explosion` owned by `owner` at frame 0, with 8 or 12 frames of 80 ms, and a box of half the size whose top-left corner is the centre of the given box. Every other entity is as it was |
| Effects.CreateExplosion | src/games/systems.ts:34-44 | the state becomes `Exploded` of the old state |
| Effects.DroppedEffect | src/games/systems.ts:46-59 | a dropped powerup is one new entity at the counter, holding exactly a 32x32 box at the given place and a powerup of the drawn kind that lasts 10 s from the timestamp; every other entity is as it was |
| Effects.CreatePowerup | src/games/systems.ts:46-59 | the state becomes `Dropped` of the old state |
| Movement.MoveOneStill | src/games/systems.ts:70-101 | an entity without `Movement`, or not moving, keeps its box; `deltaTime` plays no part |
| Movement.MoveOneAxis | src/games/systems.ts:73-101 | a moving entity moves only along its direction's axis, and only to the candidate one `speed` away. It takes that step whenever the candidate box is valid, and moves only if it is valid; the other coordinate, the width and the height stay |
| Movement.MoveOneFrame | src/games/systems.ts:69-102 | one step writes nothing but the entity's own `Position` |
| Movement.MoveFromStill | src/games/systems.ts:69-102 | over a snapshot of distinct, current entries, a standing entity keeps its box to the end of the pass |
| Movement.MoveFromSizes | src/games/systems.ts:67-101 | over a snapshot of increasing ids whose entries are current, the rest of the pass leaves every box with the width and height it had |
| Movement.MovedEffect | src/games/systems.ts:66-103 | the pass keeps the store well formed, changes only `Position` components, keeps every size, and leaves an entity without a moving `Movement` where it was |
| Movement.MovementSystem.Update | src/games/systems.ts:66-103 | the state and the throw flag are those of `Moved` of the old state |
| Movement.MovementSystem.MoveEntity | src/games/systems.ts:70-101 | one snapshot entry: the outcome is `MoveOne` |
| Movement.MovementSystem.TryAxis | src/games/systems.ts:95-101 | moves the box to the candidate exactly when it is valid, and reports a throw from the validity search |
| Shooting.MuzzleFlush | src/games/systems.ts:126-148 | the 8x8 bullet box touches the tank along its facing side, is centred on that side, and does not overlap the tank |
| Shooting.ShootOneEffect | src/games/systems.ts:115-162 | a tank fires only when `isShooting`, `currentTime - lastShot >= shootCooldown`, and it has a `Position` and a `Movement`. It then adds one fresh entity holding exactly the bullet box, a `Movement` at speed 5 for the player and 4 otherwise, and `Bullet(tank, 1)`, and resets `isShooting` and sets `lastShot` |
| Shooting.ShootFromListed | src/games/systems.ts:114-163 | over increasing, current snapshot entries each listed tank ends the pass as `AfterShot` says |
| Shooting.ShootFromUnlisted | src/games/systems.ts:114-163 | a tank the rest of the snapshot does not list is kept |
| Shooting.ShotEffect | src/games/systems.ts:110-164 | the pass throws exactly when there is no `Player`. Otherwise each tank's record becomes `AfterShot`, nothing else of an existing entity changes, and every new entity is a bullet |
| Shooting.ShootingSystem.Update | src/games/systems.ts:110-164 | the state and the throw flag are those of `Shot` of the old state |
| Shooting.ShootingSystem.Shoot | src/games/systems.ts:115-162 | one snapshot entry: the state becomes `ShootOne` |
| Bullets.BulletLeaves | src/games/systems.ts:188-212 | a bullet whose candidate point leaves [0, width] x [0, height] is removed and nothing else changes |
| Bullets.BulletHitsWall | src/games/systems.ts:214-236 | the first snapshot wall that is neither bush nor water and overlaps the bullet's current box removes the bullet, and removes that wall exactly when it is brick; nothing else changes and nothing is scheduled |
| Bullets.PlayerBulletHits | src/games/systems.ts:243-266 | a player bullet clear of walls that overlaps an enemy kills the first such enemy of the snapshot and scores 100; it schedules nothing |
| Bullets.KilledEffect | src/games/systems.ts:251-260 | the enemy and the bullet are gone, the next entity is a large explosion owned by the enemy, and the one after it is a powerup at the enemy's place exactly when the roll is under 0.4 |
| Bullets.ScoredEffect | src/games/systems.ts:261 | scoring throws exactly when the player has no `Score`, and otherwise adds exactly 100 |
| Bullets.EnemyBulletHits | src/games/systems.ts:267-291 | an enemy bullet clear of walls changes nothing unless it overlaps the player and the player has no `Invincible`; then it wounds the player |
| Bullets.WoundedEffect | src/games/systems.ts:274-287 | the bullet is gone. With no `Health` the pass throws. On the last life the `Health` stays, a large explosion follows, and the player's removal is scheduled 2 s later. Otherwise a small explosion follows and `Health` drops by exactly 1 |
| Bullets.BulletOneFrame | src/games/systems.ts:182-296 | one bullet writes no field of an existing entity except the player's `Score` and `Health`; in particular no `Position`. Only the player's removal is scheduled |
| Bullets.BulletsUpdatedEffect | src/games/systems.ts:176-297 | the pass keeps the store well formed. Surviving entities change only in the player's `Score` and `Health`, so no bullet's `Position` is written. New entities get fresh ids, and the only removal scheduled is the player's, 2 s later |
| Enemies.SteeredEffect | src/games/systems.ts:317-352 | steering throws iff an `isValidPosition` call throws. Otherwise the position is not written. A blocked x turns the enemy and restamps `lastChange`, and a blocked y does the same again. Speed, `isMoving` and the cooldown are kept |
| Enemies.EnemyOneSteers | src/games/systems.ts:305-359 | for an enemy that survives its step: a timed turn when the cooldown ran out, then both probes and the gun timer. The position is never written, and nothing is scheduled |
| Enemies.ContactEffect | src/games/systems.ts:361-386 | an enemy overlapping the player always gets a large explosion it owns and is always removed. The player is rammed unless `Invincible`. Without overlap nothing happens |
| Enemies.RammedEffect | src/games/systems.ts:369-383 | ramming throws exactly when the player has no `Health`. On the last life a small explosion follows, the removal is scheduled 1 s later and `Health` stays. Otherwise `Health` drops by exactly 1 |
| Enemies.ContactSurvivor | src/games/systems.ts:365-386 | an enemy still present after its contact test did not touch the player, and that test changed nothing |
| Enemies.EnemyOneFrame | src/games/systems.ts:304-387 | one enemy writes nothing of an existing entity but its own `Movement`, `DirectionChange` and `Tank` and the player's `Health`; only the player's removal, 1 s later, is scheduled |
| Enemies.EnemiesUpdatedEffect | src/games/systems.ts:299-388 | without a `Player` the pass throws exactly when there is a tank, and changes nothing. With one, it keeps the store well formed and schedules only the player's removal. Survivors change only in the other tanks' steering and gun records and the player's `Health` |
| Enemies.TouchedTanks | src/games/systems.ts:299-388 | a store the enemy pass produces differs from the old one only on tanks other than the player and on the player's `Health` |
| Collision.PlayerIdKept | src/games/systems.ts:180-301 | the bullet pass never gives the root a `Player` it did not have, so the enemy pass re-reads the same player |
| Collision.CollisionUpdatedEffect | src/games/systems.ts:171-174 | bullets then enemies keep the store well formed and schedule only the player's removal. Survivors change only in the player's `Score` and `Health` and the other tanks' `Movement`, `DirectionChange` and `Tank`. No entity moves, and no wall or powerup changes |
| Collision.FindHit | src/games/systems.ts:216-266 | the `for ... of` search stops at the first overlapping entry, skipping the passable kinds, and reports a missing position as a throw |
| Collision.CollisionSystem.Update | src/games/systems.ts:171-174 | the state, the removals scheduled and the throw flag are those of `CollisionUpdated` |
| Collision.CollisionSystem.UpdateBullets | src/games/systems.ts:176-297 | the state and removals are those of the bullet fold over the snapshots taken at the start |
| Collision.CollisionSystem.UpdateBulletList | src/games/systems.ts:182-296 | the loop over the bullet snapshot ends in the state, with the removals and the throw flag, of the fold `BulletsFrom` from entry 0 |
| Collision.CollisionSystem.UpdateBullet | src/games/systems.ts:182-296 | one bullet: the step `BulletOne` |
| Collision.CollisionSystem.Fly | src/games/systems.ts:214-291 | a bullet in bounds: the wall search, then the tank check |
| Collision.CollisionSystem.HitEnemy | src/games/systems.ts:243-266 | a player bullet: the step `StrikeEnemy` |
| Collision.CollisionSystem.HitPlayer | src/games/systems.ts:267-291 | an enemy bullet: the step `StrikePlayer` |
| Collision.CollisionSystem.UpdateEnemies | src/games/systems.ts:299-388 | the state and removals are those of the enemy fold over a fresh snapshot of the tanks |
| Collision.CollisionSystem.UpdateEnemyList | src/games/systems.ts:305-386 | the loop over the enemy list ends in the state, with the removals and the throw flag, of the fold `EnemiesFrom` from entry 0 |
| Collision.CollisionSystem.UpdateEnemy | src/games/systems.ts:305-386 | one enemy: the step `EnemyOne` |
| Collision.CollisionSystem.ProbeEnemy | src/games/systems.ts:317-386 | steering, the gun timer and the contact check: the step `Probe` |
| Collision.CollisionSystem.Steer | src/games/systems.ts:336-349 | the two validity probes: the step `Steered` |
| Collision.CollisionSystem.Ram | src/games/systems.ts:361-386 | the contact check: the step `Contact` |
| Powerups.Min | src/games/systems.ts:447 | `Math.min`: the result is one of the two and below both |
| Powerups.Boost | src/games/systems.ts:433-451 | what `applyPowerup` writes back: nothing without a `Tank` or for a helmet, the `Tank` for a star, the `Health` for an extra life |
| Powerups.BoostedEffect | src/games/systems.ts:433-451 | a helmet changes nothing. A star halves `shootCooldown`, with no floor, and keeps the rest of the `Tank`. An extra life sets `current` to `min(current + 1, max)`. Without a `Tank` nothing happens, and only that tank's `Tank` and `Health` can change |
| Powerups.ExtraLifeBounded | src/games/systems.ts:447 | an extra life never lifts `Health` above `max` when it was not above it already |
| Powerups.PowerupsFromFault | src/games/systems.ts:398-410 | the pass throws only when there is no `Player` and the tank snapshot is not empty |
| Powerups.CollectFromEffect | src/games/systems.ts:409-420 | the tank loop throws exactly when there is no `Player` and a tank is left. Otherwise only the player collects; collecting applies the powerup and removes it, and no collection changes nothing |
| Powerups.PowerupOneEffect | src/games/systems.ts:400-420 | an expired powerup (age above its duration) is removed before any collection test, even with no `Player`; a live one is collected only by the player |
| Powerups.PowerupsFromExpired | src/games/systems.ts:400-404 | a pass that does not throw removes every expired powerup it lists |
| Powerups.PowerupsUpdatedEffect | src/games/systems.ts:395-422 | the pass keeps the store well formed and creates nothing. Only powerups are removed, and every expired one is. Survivors change only in the player's `Tank` and `Health` |
| Powerups.PowerupSystem.Update | src/games/systems.ts:395-422 | the state and the throw flag are those of `PowerupsUpdated` |
| Powerups.PowerupSystem.UpdateList | src/games/systems.ts:400-421 | the loop over the powerup snapshot ends in the state, with the throw flag, of the fold `PowerupsFrom` from entry 0 |
| Powerups.PowerupSystem.Tick | src/games/systems.ts:401-420 | one pass of the loop body (expiry removal, skip without a position, the tank loop) ends as `PowerupOne` says |
| Powerups.PowerupSystem.Collect | src/games/systems.ts:409-420 | the tank loop with its `break`: the outcome is `CollectFrom` |
| Powerups.PowerupSystem.ApplyPowerup | src/games/systems.ts:433-451 | the state becomes `Boosted` |
| Spawning.SpawnTile | src/games/systems.ts:494-500 | the tile at (32, 32), (576, 32) or (320, 32) exactly when `3r` lies in [0, 1), [1, 2) or [2, 3) |
| Spawning.ClearTile | src/games/systems.ts:502-513 | the occupancy loop finds no entry exactly when no positioned entity overlaps the tile |
| Spawning.SpawnedParts | src/games/systems.ts:515-533 | the enemy is one new entity at the counter, appended to the order, whose table is exactly its box, `Movement(1 + 0.5r, direction)`, `DirectionChange(cooldown, 0)`, `Tank("#F44336", 0, 1500 + 1500r)` and `Health(1, 1)`; every other entity is as it was |
| Spawning.EnemySpawnEffect | src/games/systems.ts:486-534 | `spawnEnemy` throws exactly when there is no `Player`. Otherwise it adds one enemy on the chosen tile exactly when fewer than five enemies exist and no positioned entity overlaps that tile, and leaves the store as it was when it does not |
| Spawning.SpawnCount | src/games/systems.ts:468-534 | a spawn adds at most one entity to the count of enemies |
| Spawning.SpawnUpdatedEffect | src/games/systems.ts:462-471 | `update` throws exactly when there is no `Player`, changing nothing. Otherwise an enemy is added only when more than 3000 ms have passed and fewer than five exist, at most one and never above five. `lastSpawnTime` becomes `currentTime` exactly then, even when the tile is occupied |
| Spawning.LevelAdvanceUnreachable | src/games/systems.ts:468-482 | when no enemy is alive and more than 6000 ms have passed, the spawn branch has just run and reset `lastSpawnTime`, so the level-advance test is false |
| Spawning.EnemySpawnSystem.constructor | src/games/systems.ts:455-460 | starts with `lastSpawnTime` 0 on the given world |
| Spawning.EnemySpawnSystem.Update | src/games/systems.ts:462-483 | the state, `lastSpawnTime` and the throw flag are those of `SpawnUpdated` |
| Spawning.EnemySpawnSystem.SpawnEnemy | src/games/systems.ts:486-534 | the state and the throw flag are those of `EnemySpawn` |
| Explosions.NextFrame | src/games/systems.ts:546-547 | the record stays an `Explosion` in its slot |
| Explosions.ExplosionOneEffect | src/games/systems.ts:544-553 | one entry changes only its own entity, as `AfterTick` says, and creates nothing |
| Explosions.ExplosionsFromEffect | src/games/systems.ts:544-553 | over increasing, current entries the loop applies `AfterTick` to each listed entity and leaves every other entity alone |
| Explosions.ExplosionsUpdatedEffect | src/games/systems.ts:541-554 | only an explosion older than `frameTime` changes. Its frame grows by exactly 1 and `lastFrameUpdate` becomes `currentTime`, and it is removed exactly when the new frame reaches `maxFrames`. Nothing else changes and nothing is created |
| Explosions.ExplosionSystem.Update | src/games/systems.ts:541-554 | the state becomes `ExplosionsUpdated` of the old state |
| Director.StartBox | src/games/systems.ts:1062-1067 | the player's box is the middle tile of the bottom row, (304, 448), 32x32 |
| Director.PlayerPartsFiled | src/games/systems.ts:1059-1073 | the player's table is exactly its box, `Movement(3, up)`, `Tank`, `Health(3, 3)` and `Score(0)` |
| Director.SetupEffect | src/games/systems.ts:1057-1075 | before the level, the player is the new entity at the counter with its five components. The root holds `Player(id, 1)` and `Level(0)`, and every other entity is unchanged |
| Director.SetupOthers | src/games/systems.ts:1057-1075 | the setup writes only the root and the new entity |
| Director.GenerateAtStart | src/games/systems.ts:1078 | from the state after the setup `generateLevel` does not throw, and adds all 40 level-0 tiles after the border |
| Director.GenerateKeepsOld | src/games/util.ts:37-39 | from a well-formed store `generateLevel` removes old walls and keeps every other old entity |
| Director.StartedOk | src/games/systems.ts:1056-1081 | `startGame` never throws on a well-formed store whose root exists and holds no `Wall`; it returns the old counter as the player's id and leaves a well-formed store |
| Director.StartedEntities | src/games/systems.ts:1056-1081 | afterwards the player has exactly its five components and the root holds `Player(id, 1)` and `Level(0)`; every old wall is gone and every other old entity is as it was |
| Director.StartedTiles | src/games/systems.ts:1078 | afterwards the 48 ids after the player are the steel border and the 40 after them the level-0 tiles drawn; nothing else is new |
| Director.StartClear | src/games/systems.ts:1062-1078 | afterwards no wall overlaps the player's start box, neither a border tile nor an interior tile |
| Director.DirectorSystem.StartGame | src/games/systems.ts:1056-1081 | the state, the returned id and the throw flag are those of `Started` |
| ColorFormat.Lowercase | src/components/ColorConverter.tsx:31 | same length, each character lower-cased, ASCII capitals only |
| ColorFormat.DetectFormat | src/components/ColorConverter.tsx:30-38 | the answer is null or one of the five ids hex, rgb, hsl, cmyk, oklch |
| ColorFormat.FirstMatchSpec | src/components/ColorConverter.tsx:32-37 | the rule found matches and no earlier rule does; none is found exactly when no rule matches |
| ColorFormat.DetectIsFirstMatch | src/components/ColorConverter.tsx:30-38 | `detectFormat` is the id of the first rule of the table that matches the normalised text |
| ColorFormat.DetectNoneIff | src/components/ColorConverter.tsx:32-37 | null exactly when no rule matches; otherwise the id of a matching rule that no earlier rule pre-empts |
| ColorFormat.HexIff | src/components/ColorConverter.tsx:32 | "hex" exactly when the normalised text starts with `#` and has more than two characters |
| ColorFormat.ShortHash | src/components/ColorConverter.tsx:32-37 | `#` and `#x` give null; `#` with two non-blank characters gives hex |
| ColorFormat.AlphaForms | src/components/ColorConverter.tsx:33-34 | `rgba(` is rgb and `hsla(` is hsl, in either case |
| ColorFormat.TrimPadded | src/components/ColorConverter.tsx:31 | surrounding white space does not change the trimmed text |
| ColorFormat.NormalizeLowerFirst | src/components/ColorConverter.tsx:31 | trimming and lower-casing commute |
| ColorFormat.DetectIgnoresCase | src/components/ColorConverter.tsx:31 | texts that lower-case alike are classified alike |
| ColorFormat.DetectIgnoresSpace | src/components/ColorConverter.tsx:31 | surrounding white space does not change the result |

## Left out

- RenderSystem: the drawing code in src/games/systems.ts and src/games/render.ts is canvas drawing. It is not modelled, and neither is its second explosion clock driven by `Date.now()`.
- KeyboardSystem: DOM event listeners and an `AbortController`, not modelled.
- `setTimeout`: the deferred removal of the player is returned as a `Removal` record (entity and delay); the timer and the later removal do not run.
- `Math.random`: every draw is an input in [0, 1), passed by the caller; distributions are not modelled.
- `console.log` in `MovementSystem.update`: output only, left out.
- Floating point: coordinates and times are exact reals, so IEEE rounding is not modelled; entity ids are unbounded `nat`s, while JavaScript numbers lose integer precision above 2^53.
- Frame loop: the order in which the game calls the systems lives outside these files; each `update` is modelled on its own. The one fixed order, bullets then enemies inside `CollisionSystem.update`, is modelled.
- Spawning.EnemySpawnSystem.Update: the body of the level-advance block (level increment, bonus score, new level) is not modelled, because that block is proved unreachable.
- Spawning.SpawnCount: states at most one more enemy rather than exactly one, because the root's `Player` may name an id that the new entity receives.
- src/games/TankGame.tsx is not part of this model: it is the older single-component version of the game, driven by React state and the browser clock.
- src/games/types.ts holds interfaces only. src/games/constants.ts is copied as constants (`TILE_SIZE`, `GRID_WIDTH`, `GRID_HEIGHT`, `EXPLOSION_FRAME_TIME`, `POWERUP_CHANCE`, `POWERUP_DURATION`).
- The rest of src/components/ColorConverter.tsx (colour conversion through a library, CMYK rounding, regex parsing, DOM and clipboard) is not part of this model, and neither are the other UI, network and build files.
- ColorFormat.Lowercase: lower-cases ASCII capitals only; JavaScript's full Unicode case mapping is not modelled.
- ColorFormat.DetectFormat: length is counted in characters, not UTF-16 code units, so a text with characters outside the basic plane can differ from JavaScript's `length`.
- PowerupSystem's private `checkCollision` is the same test as the one in src/games/util.ts and is modelled by `Util.CheckCollision`.
- Object identity: components are values, so two entities never share one component object; the source never shares one either.
