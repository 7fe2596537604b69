/**
 * `CollisionSystem` (src/games/systems.ts): one `update` runs the bullet
 * pass and then the enemy pass. The passes are specified by `BulletsUpdated`
 * and `EnemiesUpdated`; the class below implements them over a `World` and
 * is proved to compute exactly those functions, and `CollisionUpdatedEffect`
 * states what a whole update may change.
 */
module Collision {
  import opened Wrappers
  import opened Components
  import opened Constants
  import opened Worlds
  import opened Util
  import opened Effects
  import opened Movement
  import opened Bullets
  import opened Enemies

  /**
   * `update(timestamp)`: the bullet pass, then the enemy pass on the store it
   * left. A throwing bullet pass skips the enemy pass.
   */
  function CollisionUpdated(s: Store, timestamp: real, rolls: nat -> PowerupDraw, draws: nat -> EnemyDraw): Step
    requires forall k :: rolls(k).InRange()
    requires forall k :: draws(k).InRange()
  {
    var bullets := BulletsUpdated(s, timestamp, rolls);
    if bullets.outcome.Fault? then bullets
    else
      var enemies := EnemiesUpdated(bullets.outcome.store, timestamp, draws);
      Step(enemies.outcome, bullets.scheduled + enemies.scheduled)
  }

  /** Removing entities and adding fresh ones never gives the root a `Player` it did not have. */
  lemma PlayerIdKept(s: Store, r: Store, touched: set<(EntityId, Tag)>)
    requires WellFormed(s) && Framed(s, r, touched) && (ROOT, PlayerTag) !in touched
    ensures PlayerId(r) == PlayerId(s) || PlayerId(r).None?
  {
    if ROOT in r.entities {
      assert ROOT in s.entities;
    }
  }

  /**
   * Of the entities of `s` still in `r`, only the player's `Score` and
   * `Health` and the `Movement`, `DirectionChange` and `Tank` of the other
   * tanks differ.
   */
  predicate CollisionTouched(s: Store, r: Store) {
    forall e, t :: e in s.entities && e in r.entities && Lookup(r, e, t) != Lookup(s, e, t) ==>
      PlayerId(s).Some? &&
      if e == PlayerId(s).value then t == ScoreTag || t == HealthTag
      else Holds(s, e, TankTag) && (t == MovementTag || t == DirectionChangeTag || t == TankTag)
  }

  /**
   * A whole update keeps the store well formed and schedules only the
   * player's removal (2 s after a fatal shot, 1 s after a fatal ram). Of the
   * entities that stay, it changes only the player's `Score` and `Health`
   * and the `Movement`, `DirectionChange` and `Tank` of the other tanks: no
   * entity moves, and no wall or powerup changes.
   */
  lemma CollisionUpdatedEffect(s: Store, timestamp: real, rolls: nat -> PowerupDraw, draws: nat -> EnemyDraw)
    requires WellFormed(s) && (forall k :: rolls(k).InRange()) && (forall k :: draws(k).InRange())
    ensures var step := CollisionUpdated(s, timestamp, rolls, draws);
      var r := step.outcome.store;
      && WellFormed(r)
      && (forall rm :: rm in step.scheduled ==>
            PlayerId(s).Some? && (rm == Removal(PlayerId(s).value, 2000.0) || rm == Removal(PlayerId(s).value, 1000.0)))
      && CollisionTouched(s, r)
  {
    var b := BulletsUpdated(s, timestamp, rolls);
    BulletsUpdatedEffect(s, timestamp, rolls);
    var e := EnemiesUpdated(b.outcome.store, timestamp, draws);
    if b.outcome.Ok? {
      EnemiesUpdatedEffect(b.outcome.store, timestamp, draws);
    }
    ComposedEffect(s, b, e);
  }

  /**
   * The bullet pass `b` then the enemy pass `e`, each with what it may
   * write: together they keep to what the whole update may write.
   */
  lemma ComposedEffect(s: Store, b: Step, e: Step)
    requires WellFormed(s) && WellFormed(b.outcome.store) && Framed(s, b.outcome.store, PlayerSlots(PlayerId(s)))
    requires forall rm :: rm in b.scheduled ==> PlayerId(s).Some? && rm == Removal(PlayerId(s).value, 2000.0)
    requires var s1 := b.outcome.store;
      var r := e.outcome.store;
      b.outcome.Ok? ==>
        && WellFormed(r)
        && s1.nextId <= r.nextId && (forall e :: e in r.entities && e !in s1.entities ==> s1.nextId <= e)
        && (forall rm :: rm in e.scheduled ==> PlayerId(s1).Some? && rm == Removal(PlayerId(s1).value, 1000.0))
        && EnemiesTouched(s1, r)
    ensures var step := if b.outcome.Fault? then b else Step(e.outcome, b.scheduled + e.scheduled);
      var r := step.outcome.store;
      && WellFormed(r)
      && (forall rm :: rm in step.scheduled ==>
            PlayerId(s).Some? && (rm == Removal(PlayerId(s).value, 2000.0) || rm == Removal(PlayerId(s).value, 1000.0)))
      && CollisionTouched(s, r)
  {
    if b.outcome.Ok? {
      var s1 := b.outcome.store;
      assert (ROOT, PlayerTag) !in PlayerSlots(PlayerId(s));
      PlayerIdKept(s, s1, PlayerSlots(PlayerId(s)));
      assert forall rm :: rm in e.scheduled ==> PlayerId(s).Some? && rm == Removal(PlayerId(s).value, 1000.0);
      assert forall rm :: rm in b.scheduled + e.scheduled ==> rm in b.scheduled || rm in e.scheduled;
      ComposeTouched(s, s1, e.outcome.store);
    } else {
      BulletsTouched(s, b.outcome.store);
    }
  }

  /** What the bullet pass may write is within what the whole update may write. */
  lemma BulletsTouched(s: Store, r: Store)
    requires Framed(s, r, PlayerSlots(PlayerId(s)))
    ensures CollisionTouched(s, r)
  {
  }

  /** The changes of the two passes together. */
  lemma ComposeTouched(s: Store, s1: Store, r: Store)
    requires WellFormed(s) && Framed(s, s1, PlayerSlots(PlayerId(s)))
    requires PlayerId(s1) == PlayerId(s) || PlayerId(s1).None?
    requires forall e :: e in r.entities && e !in s1.entities ==> s1.nextId <= e
    requires EnemiesTouched(s1, r)
    ensures CollisionTouched(s, r)
  {
    forall e, t | e in s.entities && e in r.entities && Lookup(r, e, t) != Lookup(s, e, t)
      ensures PlayerId(s).Some? &&
              if e == PlayerId(s).value then t == ScoreTag || t == HealthTag
              else Holds(s, e, TankTag) && (t == MovementTag || t == DirectionChangeTag || t == TankTag)
    {
      assert e in s1.entities;
      if Lookup(s1, e, t) == Lookup(s, e, t) {
        assert PlayerId(s).Some? && e != PlayerId(s).value ==> Lookup(s1, e, TankTag) == Lookup(s, e, TankTag);
      }
    }
  }

  /**
   * The `for ... of` loops that stop at the first overlapping entry: over
   * the walls (skipping the `passable` types) and over the enemies.
   */
  method FindHit(world: World, entries: seq<(EntityId, Component)>, box: Box, passable: set<WallType>) returns (scan: Scan)
    ensures scan == FirstHit(world.State(), entries, 0, box, passable)
  {
    var i := 0;
    while i < |entries|
      invariant i <= |entries|
      invariant FirstHit(world.State(), entries, i, box, passable) == FirstHit(world.State(), entries, 0, box, passable)
    {
      var (entryId, entry) := entries[i];
      if !Skipped(entry, passable) {
        var entryPos := world.GetComponent(entryId, PositionTag);
        if !(entryPos.Some? && entryPos.value.Position?) {
          return Undefined;
        }
        if CheckCollision(box, entryPos.value) {
          return Hit(entryId, entry, entryPos.value);
        }
      }
      i := i + 1;
    }
    return Clear;
  }

  class CollisionSystem {
    const world: World

    constructor (world: World)
      ensures this.world == world
    {
      this.world := world;
    }

    /**
     * `update(timestamp)`. `rolls(i)` are the draws of the `i`-th bullet,
     * `draws(i)` those of the `i`-th enemy; `scheduled` lists the
     * `setTimeout` removals the update queued, and `crashed` whether it
     * ended by throwing.
     */
    method Update(timestamp: real, rolls: nat -> PowerupDraw, draws: nat -> EnemyDraw)
      returns (crashed: bool, scheduled: seq<Removal>)
      requires (forall k :: rolls(k).InRange()) && (forall k :: draws(k).InRange())
      modifies world
      ensures var step := CollisionUpdated(old(world.State()), timestamp, rolls, draws);
        world.State() == step.outcome.store && crashed == step.outcome.Fault? && scheduled == step.scheduled
    {
      crashed, scheduled := UpdateBullets(timestamp, rolls);
      if crashed {
        return;
      }
      var later;
      crashed, later := UpdateEnemies(timestamp, draws);
      scheduled := scheduled + later;
    }

    /** `updateBullets(timestamp)`. */
    method UpdateBullets(timestamp: real, rolls: nat -> PowerupDraw) returns (crashed: bool, scheduled: seq<Removal>)
      requires forall k :: rolls(k).InRange()
      modifies world
      ensures var step := BulletsUpdated(old(world.State()), timestamp, rolls);
        world.State() == step.outcome.store && crashed == step.outcome.Fault? && scheduled == step.scheduled
    {
      var bullets := world.GetComponents(BulletTag);
      var tanks := world.GetComponents(TankTag);
      var walls := world.GetComponents(WallTag);
      var root := world.GetComponent(world.id, PlayerTag);
      var player := if root.Some? && root.value.Player? then Some(root.value.id) else None;
      assert player == PlayerId(world.State());
      crashed, scheduled := UpdateBulletList(player, walls, tanks, bullets, timestamp, rolls);
    }

    /** The loop of `updateBullets` over the snapshot `bullets`. */
    method UpdateBulletList(player: Option<EntityId>, walls: seq<(EntityId, Component)>, tanks: seq<(EntityId, Component)>,
                            bullets: seq<(EntityId, Component)>, timestamp: real, rolls: nat -> PowerupDraw)
      returns (crashed: bool, scheduled: seq<Removal>)
      requires forall k :: rolls(k).InRange()
      modifies world
      ensures var step := BulletsFrom(old(world.State()), player, walls, tanks, bullets, 0, timestamp, rolls);
        world.State() == step.outcome.store && crashed == step.outcome.Fault? && scheduled == step.scheduled
    {
      scheduled := [];
      var i := 0;
      while i < |bullets|
        invariant i <= |bullets|
        invariant var rest := BulletsFrom(world.State(), player, walls, tanks, bullets, i, timestamp, rolls);
          BulletsFrom(old(world.State()), player, walls, tanks, bullets, 0, timestamp, rolls) ==
          Step(rest.outcome, scheduled + rest.scheduled)
        decreases |bullets| - i
      {
        var queued;
        crashed, queued := UpdateBulletAt(player, walls, tanks, bullets, i, timestamp, rolls, scheduled,
                                          BulletsFrom(old(world.State()), player, walls, tanks, bullets, 0, timestamp, rolls));
        scheduled := scheduled + queued;
        if crashed {
          return;
        }
        i := i + 1;
      }
      crashed := false;
    }

    /**
     * Entry `i` of the loop, which is to end as `total` and has queued
     * `done` so far: either the bullet throws and the loop ends there, or the
     * loop goes on from entry `i + 1` towards the same end.
     */
    method UpdateBulletAt(player: Option<EntityId>, walls: seq<(EntityId, Component)>, tanks: seq<(EntityId, Component)>,
                          bullets: seq<(EntityId, Component)>, i: nat, timestamp: real, rolls: nat -> PowerupDraw,
                          ghost done: seq<Removal>, ghost total: Step)
      returns (crashed: bool, queued: seq<Removal>)
      requires i < |bullets| && forall k :: rolls(k).InRange()
      requires var rest := BulletsFrom(world.State(), player, walls, tanks, bullets, i, timestamp, rolls);
        total == Step(rest.outcome, done + rest.scheduled)
      modifies world
      ensures crashed ==> world.State() == total.outcome.store && total.outcome.Fault? && done + queued == total.scheduled
      ensures !crashed ==> var rest := BulletsFrom(world.State(), player, walls, tanks, bullets, i + 1, timestamp, rolls);
        total == Step(rest.outcome, (done + queued) + rest.scheduled)
    {
      ghost var step := BulletOne(world.State(), player, walls, tanks, bullets[i].0, bullets[i].1, timestamp, rolls(i));
      ThenQueued(step, BulletsFrom(step.outcome.store, player, walls, tanks, bullets, i + 1, timestamp, rolls), done, total);
      crashed, queued := UpdateBullet(player, walls, tanks, bullets[i].0, bullets[i].1, timestamp, rolls(i));
    }

    /** The loop body of `updateBullets` for one bullet. */
    method UpdateBullet(player: Option<EntityId>, walls: seq<(EntityId, Component)>, tanks: seq<(EntityId, Component)>,
                        bulletId: EntityId, bullet: Component, timestamp: real, roll: PowerupDraw)
      returns (crashed: bool, scheduled: seq<Removal>)
      requires roll.InRange()
      modifies world
      ensures var step := BulletOne(old(world.State()), player, walls, tanks, bulletId, bullet, timestamp, roll);
        world.State() == step.outcome.store && crashed == step.outcome.Fault? && scheduled == step.scheduled
    {
      var movement := world.GetComponent(bulletId, MovementTag);
      var bulletPos := world.GetComponent(bulletId, PositionTag);
      if !(movement.Some? && movement.value.Movement?) || !(bulletPos.Some? && bulletPos.value.Position?) {
        return false, [];
      }
      var (newX, newY) := Advance(bulletPos.value.x, bulletPos.value.y, movement.value.direction, movement.value.speed);
      if OutOfBounds(newX, newY) {
        world.RemoveEntity(bulletId);
        return false, [];
      }
      crashed, scheduled := Fly(player, walls, tanks, bulletId, bullet, bulletPos.value, timestamp, roll);
    }

    /** A bullet in bounds: the wall loop, then the tank checks. */
    method Fly(player: Option<EntityId>, walls: seq<(EntityId, Component)>, tanks: seq<(EntityId, Component)>,
               bulletId: EntityId, bullet: Component, bulletPos: Box, timestamp: real, roll: PowerupDraw)
      returns (crashed: bool, scheduled: seq<Removal>)
      requires roll.InRange()
      modifies world
      ensures var step := Flight(old(world.State()), player, walls, tanks, bulletId, bullet, bulletPos, timestamp, roll);
        world.State() == step.outcome.store && crashed == step.outcome.Fault? && scheduled == step.scheduled
    {
      var wallHit := FindHit(world, walls, bulletPos, {Bush, Water});
      match wallHit {
        case Undefined =>
          return true, [];
        case Hit(wallId, wall, _) =>
          if wall == Wall(Brick) {
            world.RemoveEntity(wallId);
          }
          world.RemoveEntity(bulletId);
          return false, [];
        case Clear =>
      }
      if player.None? {
        return true, [];
      }
      var playerId := player.value;
      if bullet.Bullet? && bullet.ownerId == playerId {
        crashed := HitEnemy(playerId, Others(tanks, playerId), bulletId, bulletPos, timestamp, roll);
        scheduled := [];
      } else {
        crashed, scheduled := HitPlayer(playerId, bulletId, bulletPos, timestamp);
      }
    }

    /** A player bullet against the enemies: the first one hit explodes, may drop a powerup, and scores 100. */
    method HitEnemy(playerId: EntityId, enemies: seq<(EntityId, Component)>, bulletId: EntityId, bulletPos: Box,
                    timestamp: real, roll: PowerupDraw) returns (crashed: bool)
      requires roll.InRange()
      modifies world
      ensures var step := StrikeEnemy(old(world.State()), playerId, enemies, bulletId, bulletPos, timestamp, roll);
        world.State() == step.outcome.store && crashed == step.outcome.Fault? && step.scheduled == []
    {
      var enemyHit := FindHit(world, enemies, bulletPos, {});
      match enemyHit {
        case Undefined =>
          return true;
        case Clear =>
          return false;
        case Hit(enemyId, _, enemyPos) =>
          CreateExplosion(world, enemyId, enemyPos, timestamp, false);
          if roll.chance < POWERUP_CHANCE {
            CreatePowerup(world, enemyPos, timestamp, roll.kind);
          }
          world.RemoveEntity(enemyId);
          world.RemoveEntity(bulletId);
          var score := world.GetComponent(playerId, ScoreTag);
          if !(score.Some? && score.value.Score?) {
            return true;
          }
          world.AddComponent(playerId, score.value.Add(100));
          return false;
      }
    }

    /** An enemy bullet against the player, which it wounds on contact unless the player is `Invincible`. */
    method HitPlayer(playerId: EntityId, bulletId: EntityId, bulletPos: Box, timestamp: real)
      returns (crashed: bool, scheduled: seq<Removal>)
      modifies world
      ensures var step := StrikePlayer(old(world.State()), playerId, bulletId, bulletPos, timestamp);
        world.State() == step.outcome.store && crashed == step.outcome.Fault? && scheduled == step.scheduled
    {
      var invincible := world.GetComponent(playerId, InvincibleTag);
      var playerPos := world.GetComponent(playerId, PositionTag);
      var playerHealth := world.GetComponent(playerId, HealthTag);
      if !(playerPos.Some? && playerPos.value.Position?) {
        return true, [];
      }
      if !CheckCollision(bulletPos, playerPos.value) || invincible.Some? {
        return false, [];
      }
      world.RemoveEntity(bulletId);
      if !(playerHealth.Some? && playerHealth.value.Health?) {
        return true, [];
      }
      if playerHealth.value.current <= 1 {
        CreateExplosion(world, playerId, playerPos.value, timestamp, false);
        scheduled := [Removal(playerId, 2000.0)];
      } else {
        CreateExplosion(world, playerId, playerPos.value, timestamp, true);
        world.AddComponent(playerId, playerHealth.value.Hit(1));
        scheduled := [];
      }
      crashed := false;
    }

    /** `updateEnemies(timestamp)`. */
    method UpdateEnemies(timestamp: real, draws: nat -> EnemyDraw) returns (crashed: bool, scheduled: seq<Removal>)
      requires forall k :: draws(k).InRange()
      modifies world
      ensures var step := EnemiesUpdated(old(world.State()), timestamp, draws);
        world.State() == step.outcome.store && crashed == step.outcome.Fault? && scheduled == step.scheduled
    {
      var tanks := world.GetComponents(TankTag);
      var root := world.GetComponent(world.id, PlayerTag);
      if !(root.Some? && root.value.Player?) {
        return tanks != [], [];
      }
      var playerId := root.value.id;
      crashed, scheduled := UpdateEnemyList(playerId, Others(tanks, playerId), timestamp, draws);
    }

    /** The loop of `updateEnemies` over the snapshot `enemies`. */
    method UpdateEnemyList(playerId: EntityId, enemies: seq<(EntityId, Component)>, timestamp: real, draws: nat -> EnemyDraw)
      returns (crashed: bool, scheduled: seq<Removal>)
      requires forall k :: draws(k).InRange()
      modifies world
      ensures var step := EnemiesFrom(old(world.State()), playerId, enemies, 0, timestamp, draws);
        world.State() == step.outcome.store && crashed == step.outcome.Fault? && scheduled == step.scheduled
    {
      scheduled := [];
      var i := 0;
      while i < |enemies|
        invariant i <= |enemies|
        invariant var rest := EnemiesFrom(world.State(), playerId, enemies, i, timestamp, draws);
          EnemiesFrom(old(world.State()), playerId, enemies, 0, timestamp, draws) ==
          Step(rest.outcome, scheduled + rest.scheduled)
        decreases |enemies| - i
      {
        var queued;
        crashed, queued := UpdateEnemyAt(playerId, enemies, i, timestamp, draws, scheduled,
                                         EnemiesFrom(old(world.State()), playerId, enemies, 0, timestamp, draws));
        scheduled := scheduled + queued;
        if crashed {
          return;
        }
        i := i + 1;
      }
      crashed := false;
    }

    /**
     * Entry `i` of the loop, which is to end as `total` and has queued
     * `done` so far: either the enemy throws and the loop ends there, or the
     * loop goes on from entry `i + 1` towards the same end.
     */
    method UpdateEnemyAt(playerId: EntityId, enemies: seq<(EntityId, Component)>, i: nat, timestamp: real,
                         draws: nat -> EnemyDraw, ghost done: seq<Removal>, ghost total: Step)
      returns (crashed: bool, queued: seq<Removal>)
      requires i < |enemies| && forall k :: draws(k).InRange()
      requires var rest := EnemiesFrom(world.State(), playerId, enemies, i, timestamp, draws);
        total == Step(rest.outcome, done + rest.scheduled)
      modifies world
      ensures crashed ==> world.State() == total.outcome.store && total.outcome.Fault? && done + queued == total.scheduled
      ensures !crashed ==> var rest := EnemiesFrom(world.State(), playerId, enemies, i + 1, timestamp, draws);
        total == Step(rest.outcome, (done + queued) + rest.scheduled)
    {
      ghost var step := EnemyOne(world.State(), playerId, enemies[i].0, enemies[i].1, timestamp, draws(i));
      ThenQueued(step, EnemiesFrom(step.outcome.store, playerId, enemies, i + 1, timestamp, draws), done, total);
      crashed, queued := UpdateEnemy(playerId, enemies[i].0, enemies[i].1, timestamp, draws(i));
    }

    /** The loop body of `updateEnemies` for one enemy: the timed turn, then the probe. */
    method UpdateEnemy(playerId: EntityId, enemyId: EntityId, enemy: Component, timestamp: real, draw: EnemyDraw)
      returns (crashed: bool, scheduled: seq<Removal>)
      requires draw.InRange()
      modifies world
      ensures var step := EnemyOne(old(world.State()), playerId, enemyId, enemy, timestamp, draw);
        world.State() == step.outcome.store && crashed == step.outcome.Fault? && scheduled == step.scheduled
    {
      var directionChange := world.GetComponent(enemyId, DirectionChangeTag);
      var movement := world.GetComponent(enemyId, MovementTag);
      if !(directionChange.Some? && directionChange.value.DirectionChange?) || !(movement.Some? && movement.value.Movement?) {
        return true, [];
      }
      ghost var s0 := world.State();
      EnemyOneTurned(s0, playerId, enemyId, enemy, timestamp, draw, movement.value, directionChange.value);
      var m, dc := movement.value, directionChange.value;
      var turn := timestamp - dc.lastChange > dc.changeCooldown;
      if turn {
        m := m.(direction := RandomDirection(draw.turn));
        dc := DirectionChange(RandomCooldown(draw.cooldown), timestamp);
        world.AddComponent(enemyId, m);
        world.AddComponent(enemyId, dc);
      }
      assert world.State() == if turn then Put(Put(s0, enemyId, m), enemyId, dc) else s0;
      var enemyPos := world.GetComponent(enemyId, PositionTag);
      if !(enemyPos.Some? && enemyPos.value.Position?) {
        return true, [];
      }
      crashed, scheduled := ProbeEnemy(playerId, enemyId, enemy, m, dc, enemyPos.value, timestamp, draw);
    }

    /** Steering, the gun timer and the contact check of one enemy. */
    method ProbeEnemy(playerId: EntityId, enemyId: EntityId, enemy: Component, m: Component, dc: Component,
                      enemyPos: Box, timestamp: real, draw: EnemyDraw)
      returns (crashed: bool, scheduled: seq<Removal>)
      requires m.Movement? && dc.DirectionChange? && draw.InRange()
      modifies world
      ensures var step := Probe(old(world.State()), playerId, enemyId, enemy, m, dc, enemyPos, timestamp, draw);
        world.State() == step.outcome.store && crashed == step.outcome.Fault? && scheduled == step.scheduled
    {
      crashed := Steer(enemyId, m, dc, enemyPos, timestamp, draw);
      if crashed {
        return true, [];
      }
      if enemy.Tank? && timestamp - enemy.lastShot > enemy.shootCooldown {
        world.AddComponent(enemyId, enemy.(isShooting := true, lastShot := timestamp));
      }
      crashed, scheduled := Ram(playerId, enemyId, enemyPos, timestamp);
    }

    /** The two `isValidPosition` checks; a blocked axis turns the enemy and restamps its timer. */
    method Steer(enemyId: EntityId, m: Component, dc: Component, enemyPos: Box, timestamp: real, draw: EnemyDraw)
      returns (crashed: bool)
      requires m.Movement? && dc.DirectionChange? && draw.InRange()
      modifies world
      ensures var o := Steered(old(world.State()), enemyId, m, dc, enemyPos, timestamp, draw);
        world.State() == o.store && crashed == o.Fault?
    {
      var (newX, newY) := Advance(enemyPos.x, enemyPos.y, m.direction, m.speed);
      var m2, dc2 := m, dc;
      var validX;
      crashed, validX := IsValidPosition(world, Position(newX, enemyPos.y, enemyPos.width, enemyPos.height));
      if crashed {
        return;
      }
      if !validX {
        m2, dc2 := Swerve(m, draw.turnX), Retimed(dc, timestamp);
        world.AddComponent(enemyId, m2);
        world.AddComponent(enemyId, dc2);
      }
      var validY;
      crashed, validY := IsValidPosition(world, Position(enemyPos.x, newY, enemyPos.width, enemyPos.height));
      if crashed {
        return;
      }
      if !validY {
        world.AddComponent(enemyId, Swerve(m2, draw.turnY));
        world.AddComponent(enemyId, Retimed(dc2, timestamp));
      }
    }

    /** The contact check of one enemy with the player. */
    method Ram(playerId: EntityId, enemyId: EntityId, enemyPos: Box, timestamp: real)
      returns (crashed: bool, scheduled: seq<Removal>)
      modifies world
      ensures var step := Contact(old(world.State()), playerId, enemyId, enemyPos, timestamp);
        world.State() == step.outcome.store && crashed == step.outcome.Fault? && scheduled == step.scheduled
    {
      ghost var s0 := world.State();
      var playerPos := world.GetComponent(playerId, PositionTag);
      if !(playerPos.Some? && playerPos.value.Position?) {
        return true, [];
      }
      if !CheckCollision(playerPos.value, enemyPos) {
        return false, [];
      }
      CreateExplosion(world, enemyId, enemyPos, timestamp, false);
      ghost var s1 := world.State();
      ghost var rammed := if Holds(s1, playerId, InvincibleTag) then Step(Ok(s1), []) else Rammed(s1, playerId, playerPos.value, timestamp);
      assert Contact(s0, playerId, enemyId, enemyPos, timestamp) ==
        if rammed.outcome.Fault? then rammed else Step(Ok(Remove(rammed.outcome.store, enemyId)), rammed.scheduled);
      var invincible := world.GetComponent(playerId, InvincibleTag);
      var playerHealth := world.GetComponent(playerId, HealthTag);
      scheduled := [];
      if invincible.None? {
        if !(playerHealth.Some? && playerHealth.value.Health?) {
          return true, [];
        }
        if playerHealth.value.current <= 1 {
          CreateExplosion(world, playerId, playerPos.value, timestamp, true);
          scheduled := [Removal(playerId, 1000.0)];
        } else {
          world.AddComponent(playerId, playerHealth.value.Hit(1));
        }
      }
      assert world.State() == rammed.outcome.store && scheduled == rammed.scheduled;
      world.RemoveEntity(enemyId);
      crashed := false;
    }
  }
}
