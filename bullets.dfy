/**
 * The bullet pass of `CollisionSystem` (`updateBullets`, src/games/systems.ts).
 * Bullets, tanks and walls are read once, before the loop; the loop keeps
 * using those snapshots after it removes entities, so a later bullet can
 * meet a wall or an enemy that is gone and `checkCollision` throws on the
 * missing position (the `Fault` outcomes below).
 */
module Bullets {
  import opened Wrappers
  import opened Components
  import opened Constants
  import opened Worlds
  import opened Util
  import opened Effects
  import opened Movement

  /** The two draws a bullet that kills an enemy makes: the drop roll and the powerup kind. */
  datatype PowerupDraw = PowerupDraw(chance: real, kind: real) {
    predicate InRange() {
      Unit(chance) && Unit(kind)
    }
  }

  /** The slots of the player a collision pass may write: its `Score` and its `Health`. */
  function PlayerSlots(player: Option<EntityId>): set<(EntityId, Tag)> {
    match player
    case None => {}
    case Some(playerId) => {(playerId, ScoreTag), (playerId, HealthTag)}
  }

  /** The bounds test on the bullet's next point: [0, width] x [0, height], inclusive. */
  predicate OutOfBounds(x: real, y: real) {
    x < 0.0 || x > WORLD_WIDTH || y < 0.0 || y > WORLD_HEIGHT
  }

  /**
   * The enemy a player bullet killed: it explodes, a powerup drops at its
   * place when the roll is under the drop chance, and then the enemy and the
   * bullet are removed.
   */
  function Killed(s: Store, enemyId: EntityId, enemyPos: Box, id: EntityId, timestamp: real, roll: PowerupDraw): Store
    requires roll.InRange()
  {
    Remove(Remove(Haul(s, enemyId, enemyPos, timestamp, roll), enemyId), id)
  }

  /** `score.add(points)` on the player's `Score`, which throws when there is none. */
  function Scored(s: Store, playerId: EntityId, points: int): Outcome {
    match Lookup(s, playerId, ScoreTag)
    case Some(score) => if score.Score? then Ok(Put(s, playerId, score.Add(points))) else Fault(s)
    case None => Fault(s)
  }

  /**
   * A player bullet at `box` against the enemy snapshot: the first enemy it
   * overlaps is killed and the player scores 100.
   */
  function StrikeEnemy(s: Store, playerId: EntityId, enemies: seq<(EntityId, Component)>, id: EntityId,
                       box: Box, timestamp: real, roll: PowerupDraw): Step
    requires roll.InRange()
  {
    match FirstHit(s, enemies, 0, box, {})
    case Undefined => Step(Fault(s), [])
    case Clear => Step(Ok(s), [])
    case Hit(enemyId, _, enemyPos) => Step(Scored(Killed(s, enemyId, enemyPos, id, timestamp, roll), playerId, 100), [])
  }

  /**
   * The player hit by an enemy bullet, read before the bullet `id` is removed:
   * the last life makes a large explosion and schedules the player's removal
   * in 2 s; any other hit makes a small one and costs one life.
   */
  function Wounded(s: Store, playerId: EntityId, playerPos: Box, id: EntityId, timestamp: real): Step {
    var s1 := Remove(s, id);
    match Lookup(s, playerId, HealthTag)
    case Some(health) =>
      if !health.Health? then Step(Fault(s1), [])
      else if health.current <= 1 then
        Step(Ok(Exploded(s1, playerId, playerPos, timestamp, false)), [Removal(playerId, 2000.0)])
      else Step(Ok(Put(Exploded(s1, playerId, playerPos, timestamp, true), playerId, health.Hit(1))), [])
    case None => Step(Fault(s1), [])
  }

  /** An enemy bullet at `box` against the player: contact without `Invincible` wounds. */
  function StrikePlayer(s: Store, playerId: EntityId, id: EntityId, box: Box, timestamp: real): Step {
    match PositionOf(s, playerId)
    case None => Step(Fault(s), [])
    case Some(playerPos) =>
      if !CheckCollision(box, playerPos) || Holds(s, playerId, InvincibleTag) then Step(Ok(s), [])
      else Wounded(s, playerId, playerPos, id, timestamp)
  }

  /** A bullet that is in bounds and clear of walls: the player's own bullets hunt enemies, all others the player. */
  function Strike(s: Store, playerId: EntityId, tanks: seq<(EntityId, Component)>, id: EntityId, bullet: Component,
                  box: Box, timestamp: real, roll: PowerupDraw): Step
    requires roll.InRange()
  {
    if bullet.Bullet? && bullet.ownerId == playerId
    then StrikeEnemy(s, playerId, Others(tanks, playerId), id, box, timestamp, roll)
    else StrikePlayer(s, playerId, id, box, timestamp)
  }

  /**
   * The body of the loop for the snapshot entry `(id, bullet)`. `player` is
   * the root's `Player` id as read before the loop (`None` when there is none,
   * which throws once a bullet gets as far as comparing owners).
   */
  function BulletOne(s: Store, player: Option<EntityId>, walls: seq<(EntityId, Component)>,
                     tanks: seq<(EntityId, Component)>, id: EntityId, bullet: Component,
                     timestamp: real, roll: PowerupDraw): Step
    requires roll.InRange()
  {
    match (Lookup(s, id, MovementTag), PositionOf(s, id))
    case (Some(Movement(speed, direction, _)), Some(bulletPos)) =>
      var (nx, ny) := Advance(bulletPos.x, bulletPos.y, direction, speed);
      if OutOfBounds(nx, ny) then Step(Ok(Remove(s, id)), [])
      else Flight(s, player, walls, tanks, id, bullet, bulletPos, timestamp, roll)
    case _ => Step(Ok(s), [])
  }

  /** A bullet at `bulletPos` whose next point is inside the world: walls first, then tanks. */
  function Flight(s: Store, player: Option<EntityId>, walls: seq<(EntityId, Component)>,
                  tanks: seq<(EntityId, Component)>, id: EntityId, bullet: Component,
                  bulletPos: Box, timestamp: real, roll: PowerupDraw): Step
    requires roll.InRange()
  {
    match FirstHit(s, walls, 0, bulletPos, {Bush, Water})
    case Undefined => Step(Fault(s), [])
    case Hit(wallId, wall, _) => Step(Ok(Remove(if wall == Wall(Brick) then Remove(s, wallId) else s, id)), [])
    case Clear =>
      (match player
       case None => Step(Fault(s), [])
       case Some(playerId) => Strike(s, playerId, tanks, id, bullet, bulletPos, timestamp, roll))
  }

  /** The loop from entry `i`; `rolls(i)` are the draws of the `i`-th bullet. */
  function BulletsFrom(s: Store, player: Option<EntityId>, walls: seq<(EntityId, Component)>,
                       tanks: seq<(EntityId, Component)>, bullets: seq<(EntityId, Component)>, i: nat,
                       timestamp: real, rolls: nat -> PowerupDraw): Step
    requires forall k :: rolls(k).InRange()
    decreases |bullets| - i
  {
    if i >= |bullets| then Step(Ok(s), [])
    else
      var step := BulletOne(s, player, walls, tanks, bullets[i].0, bullets[i].1, timestamp, rolls(i));
      Then(step, BulletsFrom(step.outcome.store, player, walls, tanks, bullets, i + 1, timestamp, rolls))
  }

  /** `updateBullets(timestamp)`. */
  function BulletsUpdated(s: Store, timestamp: real, rolls: nat -> PowerupDraw): Step
    requires forall k :: rolls(k).InRange()
  {
    BulletsFrom(s, PlayerId(s), Query(s, WallTag), Query(s, TankTag), Query(s, BulletTag), 0, timestamp, rolls)
  }

  // ---------------------------------------------------------------- frames

  lemma ExplodedFramed(s: Store, owner: EntityId, pos: Box, timestamp: real, isSmall: bool)
    requires Below(s)
    ensures Framed(s, Exploded(s, owner, pos, timestamp, isSmall), {})
  {
    SpawnFramed(s, ExplosionParts(owner, pos, timestamp, isSmall));
  }

  lemma KilledFramed(s: Store, enemyId: EntityId, enemyPos: Box, id: EntityId, timestamp: real, roll: PowerupDraw)
    requires Below(s) && roll.InRange()
    ensures Framed(s, Killed(s, enemyId, enemyPos, id, timestamp, roll), {})
  {
    var s1 := Exploded(s, enemyId, enemyPos, timestamp, false);
    var s2 := Haul(s, enemyId, enemyPos, timestamp, roll);
    assert Framed(s, s2, {}) by {
      ExplodedFramed(s, enemyId, enemyPos, timestamp, false);
      if roll.chance < POWERUP_CHANCE {
        SpawnFramed(s1, PowerupParts(enemyPos, timestamp, roll.kind));
        FramedTrans(s, s1, s2, {}, {});
      }
    }
    assert Framed(s, Remove(s2, enemyId), {}) by {
      RemoveFramed(s2, enemyId);
      FramedTrans(s, s2, Remove(s2, enemyId), {}, {});
    }
    RemoveFramed(Remove(s2, enemyId), id);
    FramedTrans(s, Remove(s2, enemyId), Remove(Remove(s2, enemyId), id), {}, {});
  }

  lemma ScoredFramed(s: Store, playerId: EntityId, points: int)
    requires Below(s)
    ensures Framed(s, Scored(s, playerId, points).store, {(playerId, ScoreTag)})
  {
    FramedSame(s);
    FramedWider(s, s, {}, {(playerId, ScoreTag)});
    if Lookup(s, playerId, ScoreTag).Some? && Lookup(s, playerId, ScoreTag).value.Score? {
      PutFramed(s, playerId, Lookup(s, playerId, ScoreTag).value.Add(points));
    }
  }

  /** A player bullet changes no existing entity but the player's `Score`, and schedules nothing. */
  lemma StrikeEnemyFrame(s: Store, playerId: EntityId, enemies: seq<(EntityId, Component)>, id: EntityId,
                         box: Box, timestamp: real, roll: PowerupDraw)
    requires Below(s) && roll.InRange()
    ensures var step := StrikeEnemy(s, playerId, enemies, id, box, timestamp, roll);
      Framed(s, step.outcome.store, {(playerId, ScoreTag)}) && step.scheduled == []
  {
    match FirstHit(s, enemies, 0, box, {}) {
      case Undefined =>
        FramedSame(s);
        FramedWider(s, s, {}, {(playerId, ScoreTag)});
      case Clear =>
        FramedSame(s);
        FramedWider(s, s, {}, {(playerId, ScoreTag)});
      case Hit(enemyId, _, enemyPos) =>
        var s3 := Killed(s, enemyId, enemyPos, id, timestamp, roll);
        KilledFramed(s, enemyId, enemyPos, id, timestamp, roll);
        ScoredFramed(s3, playerId, 100);
        FramedTrans(s, s3, Scored(s3, playerId, 100).store, {}, {(playerId, ScoreTag)});
    }
  }

  lemma WoundedFramed(s: Store, playerId: EntityId, playerPos: Box, id: EntityId, timestamp: real)
    requires Below(s)
    ensures var step := Wounded(s, playerId, playerPos, id, timestamp);
      && Framed(s, step.outcome.store, {(playerId, HealthTag)})
      && (forall rm :: rm in step.scheduled ==> rm == Removal(playerId, 2000.0))
  {
    var s1 := Remove(s, id);
    RemoveFramed(s, id);
    FramedWider(s, s1, {}, {(playerId, HealthTag)});
    var health := Lookup(s, playerId, HealthTag);
    if health.Some? && health.value.Health? {
      if health.value.current <= 1 {
        LastLifeFramed(s, s1, playerId, playerPos, timestamp);
      } else {
        LifeLostFramed(s, s1, playerId, playerPos, timestamp, health.value);
      }
    }
  }

  lemma LastLifeFramed(s: Store, s1: Store, playerId: EntityId, playerPos: Box, timestamp: real)
    requires Framed(s, s1, {})
    ensures Framed(s, Exploded(s1, playerId, playerPos, timestamp, false), {(playerId, HealthTag)})
  {
    ExplodedFramed(s1, playerId, playerPos, timestamp, false);
    FramedTrans(s, s1, Exploded(s1, playerId, playerPos, timestamp, false), {}, {});
    FramedWider(s, Exploded(s1, playerId, playerPos, timestamp, false), {}, {(playerId, HealthTag)});
  }

  lemma LifeLostFramed(s: Store, s1: Store, playerId: EntityId, playerPos: Box, timestamp: real, health: Component)
    requires Framed(s, s1, {}) && health.Health?
    ensures Framed(s, Put(Exploded(s1, playerId, playerPos, timestamp, true), playerId, health.Hit(1)), {(playerId, HealthTag)})
  {
    var small := Exploded(s1, playerId, playerPos, timestamp, true);
    ExplodedFramed(s1, playerId, playerPos, timestamp, true);
    FramedTrans(s, s1, small, {}, {});
    PutFramed(small, playerId, health.Hit(1));
    MutatorsKeepTag(health, 1);
    FramedTrans(s, small, Put(small, playerId, health.Hit(1)), {}, {(playerId, HealthTag)});
  }

  /**
   * An enemy bullet changes no existing entity but the player's `Health`, and
   * schedules at most the player's removal, 2 s later.
   */
  lemma StrikePlayerFrame(s: Store, playerId: EntityId, id: EntityId, box: Box, timestamp: real)
    requires Below(s)
    ensures var step := StrikePlayer(s, playerId, id, box, timestamp);
      && Framed(s, step.outcome.store, {(playerId, HealthTag)})
      && (forall rm :: rm in step.scheduled ==> rm == Removal(playerId, 2000.0))
  {
    FramedSame(s);
    FramedWider(s, s, {}, {(playerId, HealthTag)});
    if PositionOf(s, playerId).Some? {
      WoundedFramed(s, playerId, PositionOf(s, playerId).value, id, timestamp);
    }
  }

  lemma StrikeFrame(s: Store, playerId: EntityId, tanks: seq<(EntityId, Component)>, id: EntityId, bullet: Component,
                    box: Box, timestamp: real, roll: PowerupDraw)
    requires Below(s) && roll.InRange()
    ensures var step := Strike(s, playerId, tanks, id, bullet, box, timestamp, roll);
      && Framed(s, step.outcome.store, PlayerSlots(Some(playerId)))
      && (forall rm :: rm in step.scheduled ==> rm == Removal(playerId, 2000.0))
  {
    if bullet.Bullet? && bullet.ownerId == playerId {
      StrikeEnemyFrame(s, playerId, Others(tanks, playerId), id, box, timestamp, roll);
      FramedWider(s, StrikeEnemy(s, playerId, Others(tanks, playerId), id, box, timestamp, roll).outcome.store,
                  {(playerId, ScoreTag)}, PlayerSlots(Some(playerId)));
    } else {
      StrikePlayerFrame(s, playerId, id, box, timestamp);
      FramedWider(s, StrikePlayer(s, playerId, id, box, timestamp).outcome.store,
                  {(playerId, HealthTag)}, PlayerSlots(Some(playerId)));
    }
  }

  /**
   * One bullet removes entities and adds new ones, but of an existing entity
   * it changes nothing except the player's `Score` and `Health`: in
   * particular no `Position` is written. Only the player's removal is ever
   * scheduled.
   */
  lemma BulletOneFrame(s: Store, player: Option<EntityId>, walls: seq<(EntityId, Component)>,
                       tanks: seq<(EntityId, Component)>, id: EntityId, bullet: Component,
                       timestamp: real, roll: PowerupDraw)
    requires Below(s) && roll.InRange()
    ensures var step := BulletOne(s, player, walls, tanks, id, bullet, timestamp, roll);
      && Framed(s, step.outcome.store, PlayerSlots(player))
      && (forall rm :: rm in step.scheduled ==> player.Some? && rm == Removal(player.value, 2000.0))
  {
    FramedSame(s);
    FramedWider(s, s, {}, PlayerSlots(player));
    match (Lookup(s, id, MovementTag), PositionOf(s, id)) {
      case (Some(Movement(speed, direction, _)), Some(bulletPos)) =>
        RemoveFramed(s, id);
        FramedWider(s, Remove(s, id), {}, PlayerSlots(player));
        FlightFrame(s, player, walls, tanks, id, bullet, bulletPos, timestamp, roll);
      case _ =>
    }
  }

  lemma FlightFrame(s: Store, player: Option<EntityId>, walls: seq<(EntityId, Component)>,
                    tanks: seq<(EntityId, Component)>, id: EntityId, bullet: Component,
                    bulletPos: Box, timestamp: real, roll: PowerupDraw)
    requires Below(s) && roll.InRange()
    ensures var step := Flight(s, player, walls, tanks, id, bullet, bulletPos, timestamp, roll);
      && Framed(s, step.outcome.store, PlayerSlots(player))
      && (forall rm :: rm in step.scheduled ==> player.Some? && rm == Removal(player.value, 2000.0))
  {
    FramedSame(s);
    FramedWider(s, s, {}, PlayerSlots(player));
    match FirstHit(s, walls, 0, bulletPos, {Bush, Water}) {
      case Undefined =>
      case Hit(wallId, wall, _) =>
        RemoveFramed(s, id);
        FramedWider(s, Remove(s, id), {}, PlayerSlots(player));
        RemoveFramed(s, wallId);
        RemoveFramed(Remove(s, wallId), id);
        FramedTrans(s, Remove(s, wallId), Remove(Remove(s, wallId), id), {}, {});
        FramedWider(s, Remove(Remove(s, wallId), id), {}, PlayerSlots(player));
      case Clear =>
        if player.Some? {
          StrikeFrame(s, player.value, tanks, id, bullet, bulletPos, timestamp, roll);
        }
    }
  }

  // --------------------------------------------------------------- effects

  /**
   * A kill: the enemy and the bullet are gone, the next entity is a large
   * explosion owned by the enemy, and the entity after it is a 10 s powerup
   * at the enemy's place exactly when the roll is under the drop chance.
   */
  lemma KilledEffect(s: Store, enemyId: EntityId, enemyPos: Box, id: EntityId, timestamp: real, roll: PowerupDraw)
    requires Below(s) && enemyId < s.nextId && id < s.nextId && roll.InRange()
    ensures var r := Killed(s, enemyId, enemyPos, id, timestamp, roll);
      && r.nextId == s.nextId + (if roll.chance < POWERUP_CHANCE then 2 else 1)
      && (forall e :: e in r.entities <==> (e in s.entities && e != enemyId && e != id) || s.nextId <= e < r.nextId)
      && (forall e :: e in s.entities && e != enemyId && e != id ==> r.entities[e] == s.entities[e])
      && Lookup(r, s.nextId, ExplosionTag) == Some(Explosion(0, 12, EXPLOSION_FRAME_TIME, timestamp, enemyId))
      && (roll.chance < POWERUP_CHANCE ==>
            && Lookup(r, s.nextId + 1, PowerupTag) == Some(Powerup(RandomPowerup(roll.kind), POWERUP_DURATION, timestamp))
            && PositionOf(r, s.nextId + 1) == Some(Position(enemyPos.x, enemyPos.y, 32.0, 32.0)))
  {
    var s2 := Haul(s, enemyId, enemyPos, timestamp, roll);
    HaulEffect(s, enemyId, enemyPos, timestamp, roll);
    RemovedPair(s, s2, enemyId, id);
  }

  /** Removing two entities below the counter from a store that only added entities to `s`. */
  lemma RemovedPair(s: Store, s2: Store, a: EntityId, b: EntityId)
    requires a < s.nextId && b < s.nextId && s.nextId <= s2.nextId
    requires forall e :: e in s2.entities <==> e in s.entities || s.nextId <= e < s2.nextId
    requires forall e :: e in s.entities ==> s2.entities[e] == s.entities[e]
    ensures var r := Remove(Remove(s2, a), b);
      && r.nextId == s2.nextId
      && (forall e :: e in r.entities <==> (e in s.entities && e != a && e != b) || s.nextId <= e < r.nextId)
      && (forall e :: e in s.entities && e != a && e != b ==> r.entities[e] == s.entities[e])
      && (forall e, t :: s.nextId <= e ==> Lookup(r, e, t) == Lookup(s2, e, t))
  {
    var r := Remove(Remove(s2, a), b);
    assert r.entities == s2.entities - {a} - {b};
  }

  /** The new entities of a kill, before the removals. */
  function Haul(s: Store, enemyId: EntityId, enemyPos: Box, timestamp: real, roll: PowerupDraw): Store
    requires roll.InRange()
  {
    var s1 := Exploded(s, enemyId, enemyPos, timestamp, false);
    if roll.chance < POWERUP_CHANCE then Dropped(s1, enemyPos, timestamp, roll.kind) else s1
  }

  lemma HaulEffect(s: Store, enemyId: EntityId, enemyPos: Box, timestamp: real, roll: PowerupDraw)
    requires Below(s) && roll.InRange()
    ensures var s2 := Haul(s, enemyId, enemyPos, timestamp, roll);
      && s2.nextId == s.nextId + (if roll.chance < POWERUP_CHANCE then 2 else 1)
      && (forall e :: e in s2.entities <==> e in s.entities || s.nextId <= e < s2.nextId)
      && (forall e :: e in s.entities ==> s2.entities[e] == s.entities[e])
      && Lookup(s2, s.nextId, ExplosionTag) == Some(Explosion(0, 12, EXPLOSION_FRAME_TIME, timestamp, enemyId))
      && (roll.chance < POWERUP_CHANCE ==>
            && Lookup(s2, s.nextId + 1, PowerupTag) == Some(Powerup(RandomPowerup(roll.kind), POWERUP_DURATION, timestamp))
            && Lookup(s2, s.nextId + 1, PositionTag) == Some(Position(enemyPos.x, enemyPos.y, 32.0, 32.0)))
  {
    var s1 := Exploded(s, enemyId, enemyPos, timestamp, false);
    ExplodedEffect(s, enemyId, enemyPos, timestamp, false);
    if roll.chance < POWERUP_CHANCE {
      DroppedEffect(s1, enemyPos, timestamp, roll.kind);
      var s2 := Dropped(s1, enemyPos, timestamp, roll.kind);
      assert s2.entities[s.nextId] == s1.entities[s.nextId];
    }
  }

  /** Scoring throws exactly when the player has no `Score`; otherwise the score grows by `points`. */
  lemma ScoredEffect(s: Store, playerId: EntityId, points: int)
    ensures var score := Lookup(s, playerId, ScoreTag);
      Scored(s, playerId, points).Ok? <==> score.Some? && score.value.Score?
    ensures Scored(s, playerId, points).Fault? ==> Scored(s, playerId, points).store == s
    ensures var score := Lookup(s, playerId, ScoreTag);
      Scored(s, playerId, points).Ok? ==>
        Lookup(Scored(s, playerId, points).store, playerId, ScoreTag) == Some(Score(score.value.value + points))
  {
  }

  /**
   * A wounded player: the bullet is gone; with no `Health` the pass throws;
   * on the last life the player stays as it was, a large explosion is the
   * next entity and the player's removal is scheduled 2 s later; otherwise a
   * small explosion is the next entity and the player has one life less.
   */
  lemma WoundedEffect(s: Store, playerId: EntityId, playerPos: Box, id: EntityId, timestamp: real)
    requires Below(s) && playerId != id && id < s.nextId
    ensures var step := Wounded(s, playerId, playerPos, id, timestamp);
      var health := Lookup(s, playerId, HealthTag);
      && id !in step.outcome.store.entities
      && (step.outcome.Fault? <==> health.None? || !health.value.Health?)
      && (step.outcome.Ok? ==>
            var r := step.outcome.store;
            var lastLife := health.value.current <= 1;
            && r.nextId == s.nextId + 1
            && Lookup(r, s.nextId, ExplosionTag) == Some(Explosion(0, if lastLife then 12 else 8, EXPLOSION_FRAME_TIME, timestamp, playerId))
            && step.scheduled == (if lastLife then [Removal(playerId, 2000.0)] else [])
            && Lookup(r, playerId, HealthTag) == Some(if lastLife then health.value else Health(health.value.current - 1, health.value.max)))
  {
    var s1 := Remove(s, id);
    var health := Lookup(s, playerId, HealthTag);
    if health.Some? && health.value.Health? {
      ExplodedEffect(s1, playerId, playerPos, timestamp, health.value.current > 1);
      MutatorsKeepTag(health.value, 1);
    }
  }

  /** A bullet whose next point leaves the world is removed, and nothing else changes. */
  lemma BulletLeaves(s: Store, player: Option<EntityId>, walls: seq<(EntityId, Component)>,
                     tanks: seq<(EntityId, Component)>, id: EntityId, bullet: Component,
                     timestamp: real, roll: PowerupDraw, speed: real, direction: Direction, p: Box)
    requires roll.InRange()
    requires Lookup(s, id, MovementTag).Some? && Lookup(s, id, MovementTag).value.Movement?
    requires speed == Lookup(s, id, MovementTag).value.speed && direction == Lookup(s, id, MovementTag).value.direction
    requires PositionOf(s, id) == Some(p) && OutOfBounds(Advance(p.x, p.y, direction, speed).0, Advance(p.x, p.y, direction, speed).1)
    ensures var step := BulletOne(s, player, walls, tanks, id, bullet, timestamp, roll);
      && step.outcome.Ok? && step.scheduled == []
      && step.outcome.store.entities == s.entities - {id}
  {
  }

  /** The bullet has its `Movement` and its `Position` `p`, and its next point is inside the world. */
  predicate Flying(s: Store, id: EntityId, p: Box) {
    && Lookup(s, id, MovementTag).Some? && Lookup(s, id, MovementTag).value.Movement?
    && PositionOf(s, id) == Some(p)
    && var m := Lookup(s, id, MovementTag).value;
       !OutOfBounds(Advance(p.x, p.y, m.direction, m.speed).0, Advance(p.x, p.y, m.direction, m.speed).1)
  }

  /**
   * A flying bullet stopped by a wall of the snapshot (the first one, in
   * snapshot order, that is neither bush nor water and overlaps the bullet's
   * current box) is removed, the wall with it exactly when it is brick.
   */
  lemma BulletHitsWall(s: Store, player: Option<EntityId>, walls: seq<(EntityId, Component)>,
                       tanks: seq<(EntityId, Component)>, id: EntityId, bullet: Component,
                       timestamp: real, roll: PowerupDraw, p: Box, wallId: EntityId, wall: Component, at: Box)
    requires roll.InRange() && Flying(s, id, p)
    requires FirstHit(s, walls, 0, p, {Bush, Water}) == Hit(wallId, wall, at)
    ensures var step := BulletOne(s, player, walls, tanks, id, bullet, timestamp, roll);
      && step.outcome.Ok? && step.scheduled == []
      && step.outcome.store.entities == s.entities - {id} - (if wall == Wall(Brick) then {wallId} else {})
    ensures (wallId, wall) in walls && !Skipped(wall, {Bush, Water})
    ensures PositionOf(s, wallId) == Some(at) && CheckCollision(p, at)
  {
    FirstHitFound(s, walls, 0, p, {Bush, Water});
    if wall == Wall(Brick) {
      assert Remove(Remove(s, wallId), id).entities == s.entities - {id} - {wallId};
    }
  }

  /**
   * A flying player bullet clear of walls that meets an enemy (the first
   * tank of the snapshot, other than the player, whose box overlaps it)
   * kills that enemy and scores 100 for the player (see `KilledEffect`,
   * `ScoredEffect`); it schedules nothing.
   */
  lemma PlayerBulletHits(s: Store, playerId: EntityId, walls: seq<(EntityId, Component)>,
                         tanks: seq<(EntityId, Component)>, id: EntityId, bullet: Component,
                         timestamp: real, roll: PowerupDraw, p: Box, enemyId: EntityId, enemy: Component, at: Box)
    requires roll.InRange() && Flying(s, id, p)
    requires FirstHit(s, walls, 0, p, {Bush, Water}) == Clear
    requires bullet.Bullet? && bullet.ownerId == playerId
    requires FirstHit(s, Others(tanks, playerId), 0, p, {}) == Hit(enemyId, enemy, at)
    ensures BulletOne(s, Some(playerId), walls, tanks, id, bullet, timestamp, roll) ==
            Step(Scored(Killed(s, enemyId, at, id, timestamp, roll), playerId, 100), [])
    ensures (enemyId, enemy) in tanks && enemyId != playerId && PositionOf(s, enemyId) == Some(at) && CheckCollision(p, at)
  {
    FirstHitFound(s, Others(tanks, playerId), 0, p, {});
    OthersMembers(tanks, playerId);
  }

  /**
   * A flying enemy bullet clear of walls leaves everything as it is unless
   * it overlaps the player and the player is not `Invincible`; then it
   * wounds the player (see `WoundedEffect`).
   */
  lemma EnemyBulletHits(s: Store, playerId: EntityId, walls: seq<(EntityId, Component)>,
                        tanks: seq<(EntityId, Component)>, id: EntityId, bullet: Component,
                        timestamp: real, roll: PowerupDraw, p: Box, playerPos: Box)
    requires roll.InRange() && Flying(s, id, p)
    requires FirstHit(s, walls, 0, p, {Bush, Water}) == Clear
    requires !(bullet.Bullet? && bullet.ownerId == playerId)
    requires PositionOf(s, playerId) == Some(playerPos)
    ensures var step := BulletOne(s, Some(playerId), walls, tanks, id, bullet, timestamp, roll);
      if CheckCollision(p, playerPos) && !Holds(s, playerId, InvincibleTag)
      then step == Wounded(s, playerId, playerPos, id, timestamp)
      else step == Step(Ok(s), [])
  {
  }

  // ------------------------------------------------------------- the pass

  lemma KilledKeeps(s: Store, enemyId: EntityId, enemyPos: Box, id: EntityId, timestamp: real, roll: PowerupDraw)
    requires WellFormed(s) && roll.InRange()
    ensures WellFormed(Killed(s, enemyId, enemyPos, id, timestamp, roll))
  {
    var s1 := Exploded(s, enemyId, enemyPos, timestamp, false);
    var s2 := Haul(s, enemyId, enemyPos, timestamp, roll);
    assert WellFormed(s2) by {
      SpawnKeeps(s, ExplosionParts(enemyId, enemyPos, timestamp, false));
      if roll.chance < POWERUP_CHANCE {
        SpawnKeeps(s1, PowerupParts(enemyPos, timestamp, roll.kind));
      }
    }
    RemoveKeeps(s2, enemyId);
    RemoveKeeps(Remove(s2, enemyId), id);
  }

  lemma ScoredKeeps(s: Store, playerId: EntityId, points: int)
    requires WellFormed(s)
    ensures WellFormed(Scored(s, playerId, points).store)
  {
    if Lookup(s, playerId, ScoreTag).Some? {
      PutKeeps(s, playerId, Lookup(s, playerId, ScoreTag).value.Add(points));
    }
  }

  lemma WoundedKeeps(s: Store, playerId: EntityId, playerPos: Box, id: EntityId, timestamp: real)
    requires WellFormed(s)
    ensures WellFormed(Wounded(s, playerId, playerPos, id, timestamp).outcome.store)
  {
    var s1 := Remove(s, id);
    RemoveKeeps(s, id);
    var health := Lookup(s, playerId, HealthTag);
    if health.Some? && health.value.Health? {
      SpawnKeeps(s1, ExplosionParts(playerId, playerPos, timestamp, health.value.current > 1));
      if health.value.current > 1 {
        PutKeeps(Exploded(s1, playerId, playerPos, timestamp, true), playerId, health.value.Hit(1));
      }
    }
  }

  lemma StrikeKeeps(s: Store, playerId: EntityId, tanks: seq<(EntityId, Component)>, id: EntityId, bullet: Component,
                    box: Box, timestamp: real, roll: PowerupDraw)
    requires WellFormed(s) && roll.InRange()
    ensures WellFormed(Strike(s, playerId, tanks, id, bullet, box, timestamp, roll).outcome.store)
  {
    var step := Strike(s, playerId, tanks, id, bullet, box, timestamp, roll);
    if bullet.Bullet? && bullet.ownerId == playerId {
      var scan := FirstHit(s, Others(tanks, playerId), 0, box, {});
      if scan.Hit? {
        var killed := Killed(s, scan.hitId, scan.at, id, timestamp, roll);
        KilledKeeps(s, scan.hitId, scan.at, id, timestamp, roll);
        ScoredKeeps(killed, playerId, 100);
        assert step.outcome == Scored(killed, playerId, 100);
      } else {
        assert step.outcome.store == s;
      }
    } else {
      assert step == StrikePlayer(s, playerId, id, box, timestamp);
      if PositionOf(s, playerId).Some? {
        WoundedKeeps(s, playerId, PositionOf(s, playerId).value, id, timestamp);
      }
    }
  }

  lemma FlightKeeps(s: Store, player: Option<EntityId>, walls: seq<(EntityId, Component)>,
                    tanks: seq<(EntityId, Component)>, id: EntityId, bullet: Component,
                    bulletPos: Box, timestamp: real, roll: PowerupDraw)
    requires WellFormed(s) && roll.InRange()
    ensures WellFormed(Flight(s, player, walls, tanks, id, bullet, bulletPos, timestamp, roll).outcome.store)
  {
    var step := Flight(s, player, walls, tanks, id, bullet, bulletPos, timestamp, roll);
    match FirstHit(s, walls, 0, bulletPos, {Bush, Water}) {
      case Undefined =>
      case Hit(wallId, wall, _) =>
        if wall == Wall(Brick) {
          RemoveKeeps(s, wallId);
          RemoveKeeps(Remove(s, wallId), id);
          assert step.outcome.store == Remove(Remove(s, wallId), id);
        } else {
          RemoveKeeps(s, id);
          assert step.outcome.store == Remove(s, id);
        }
      case Clear =>
        if player.Some? {
          StrikeKeeps(s, player.value, tanks, id, bullet, bulletPos, timestamp, roll);
          assert step == Strike(s, player.value, tanks, id, bullet, bulletPos, timestamp, roll);
        }
    }
  }

  lemma BulletOneKeeps(s: Store, player: Option<EntityId>, walls: seq<(EntityId, Component)>,
                       tanks: seq<(EntityId, Component)>, id: EntityId, bullet: Component,
                       timestamp: real, roll: PowerupDraw)
    requires WellFormed(s) && roll.InRange()
    ensures WellFormed(BulletOne(s, player, walls, tanks, id, bullet, timestamp, roll).outcome.store)
  {
    var step := BulletOne(s, player, walls, tanks, id, bullet, timestamp, roll);
    match (Lookup(s, id, MovementTag), PositionOf(s, id)) {
      case (Some(Movement(speed, direction, _)), Some(bulletPos)) =>
        var (nx, ny) := Advance(bulletPos.x, bulletPos.y, direction, speed);
        if OutOfBounds(nx, ny) {
          RemoveKeeps(s, id);
          assert step.outcome.store == Remove(s, id);
        } else {
          FlightKeeps(s, player, walls, tanks, id, bullet, bulletPos, timestamp, roll);
          assert step == Flight(s, player, walls, tanks, id, bullet, bulletPos, timestamp, roll);
        }
      case _ =>
    }
  }

  lemma {:induction false} BulletsFromKeeps(s: Store, player: Option<EntityId>, walls: seq<(EntityId, Component)>,
                                            tanks: seq<(EntityId, Component)>, bullets: seq<(EntityId, Component)>, i: nat,
                                            timestamp: real, rolls: nat -> PowerupDraw)
    requires WellFormed(s) && forall k :: rolls(k).InRange()
    ensures WellFormed(BulletsFrom(s, player, walls, tanks, bullets, i, timestamp, rolls).outcome.store)
    decreases |bullets| - i
  {
    if i < |bullets| {
      BulletOneKeeps(s, player, walls, tanks, bullets[i].0, bullets[i].1, timestamp, rolls(i));
      var step := BulletOne(s, player, walls, tanks, bullets[i].0, bullets[i].1, timestamp, rolls(i));
      if step.outcome.Ok? {
        BulletsFromKeeps(step.outcome.store, player, walls, tanks, bullets, i + 1, timestamp, rolls);
      }
    }
  }

  lemma {:induction false} BulletsFromFrame(s: Store, player: Option<EntityId>, walls: seq<(EntityId, Component)>,
                                            tanks: seq<(EntityId, Component)>, bullets: seq<(EntityId, Component)>, i: nat,
                                            timestamp: real, rolls: nat -> PowerupDraw)
    requires Below(s) && forall k :: rolls(k).InRange()
    ensures var step := BulletsFrom(s, player, walls, tanks, bullets, i, timestamp, rolls);
      && Framed(s, step.outcome.store, PlayerSlots(player))
      && (forall rm :: rm in step.scheduled ==> player.Some? && rm == Removal(player.value, 2000.0))
    decreases |bullets| - i
  {
    if i >= |bullets| {
      FramedSame(s);
      FramedWider(s, s, {}, PlayerSlots(player));
    } else {
      BulletOneFrame(s, player, walls, tanks, bullets[i].0, bullets[i].1, timestamp, rolls(i));
      var step := BulletOne(s, player, walls, tanks, bullets[i].0, bullets[i].1, timestamp, rolls(i));
      if step.outcome.Ok? {
        var s1 := step.outcome.store;
        BulletsFromFrame(s1, player, walls, tanks, bullets, i + 1, timestamp, rolls);
        var rest := BulletsFrom(s1, player, walls, tanks, bullets, i + 1, timestamp, rolls);
        FramedTrans(s, s1, rest.outcome.store, PlayerSlots(player), PlayerSlots(player));
        assert PlayerSlots(player) + PlayerSlots(player) == PlayerSlots(player);
      }
    }
  }

  /**
   * `updateBullets`: the store stays well formed; of the entities that
   * survive, nothing but the player's `Score` and `Health` changes (no
   * `Position`, `Tank` or `Movement` is written); new entities get fresh ids;
   * and the only removal scheduled is the player's, 2 s later.
   */
  lemma BulletsUpdatedEffect(s: Store, timestamp: real, rolls: nat -> PowerupDraw)
    requires WellFormed(s) && forall k :: rolls(k).InRange()
    ensures var step := BulletsUpdated(s, timestamp, rolls);
      && WellFormed(step.outcome.store)
      && Framed(s, step.outcome.store, PlayerSlots(PlayerId(s)))
      && (forall rm :: rm in step.scheduled ==> PlayerId(s).Some? && rm == Removal(PlayerId(s).value, 2000.0))
  {
    var player := PlayerId(s);
    BulletsFromKeeps(s, player, Query(s, WallTag), Query(s, TankTag), Query(s, BulletTag), 0, timestamp, rolls);
    BulletsFromFrame(s, player, Query(s, WallTag), Query(s, TankTag), Query(s, BulletTag), 0, timestamp, rolls);
  }
}
