/**
 * The enemy pass of `CollisionSystem` (`updateEnemies`, src/games/systems.ts).
 * Each enemy tank, in the order of a snapshot taken after the bullet pass,
 * may turn on its timer, turns again when either axis of its next step is
 * blocked, arms its gun on its own timer, and rams the player on contact.
 * The position updates are commented out in the source, so no enemy moves
 * here; the pass only steers.
 */
module Enemies {
  import opened Wrappers
  import opened Components
  import opened Constants
  import opened Worlds
  import opened Util
  import opened Effects
  import opened Movement

  /**
   * The draws of one enemy, in the order `Math.random()` is called: the
   * timed turn and its new cooldown, then the turns on a blocked x and a
   * blocked y axis. Draws of a branch not taken are ignored.
   */
  datatype EnemyDraw = EnemyDraw(turn: real, cooldown: real, turnX: real, turnY: real) {
    predicate InRange() {
      Unit(turn) && Unit(cooldown) && Unit(turnX) && Unit(turnY)
    }
  }

  /** `movement.direction = randomDirection()`. */
  function Swerve(m: Component, r: real): Component
    requires m.Movement? && Unit(r)
  {
    m.(direction := RandomDirection(r))
  }

  /** `directionChange.lastChange = timestamp`. */
  function Retimed(dc: Component, timestamp: real): Component
    requires dc.DirectionChange?
  {
    dc.(lastChange := timestamp)
  }

  /**
   * The gun timer: once `shootCooldown` has passed since the last shot the
   * enemy's `Tank`, the record of the snapshot, becomes shooting, stamped
   * `timestamp`.
   */
  function Aimed(s: Store, id: EntityId, enemy: Component, timestamp: real): Store {
    if enemy.Tank? && timestamp - enemy.lastShot > enemy.shootCooldown
    then Put(s, id, enemy.(isShooting := true, lastShot := timestamp))
    else s
  }

  /**
   * The player rammed while not `Invincible`: with no `Health` the pass
   * throws; on the last life a small explosion marks the player and its
   * removal is scheduled 1 s later; otherwise it loses one life.
   */
  function Rammed(s: Store, playerId: EntityId, playerPos: Box, timestamp: real): Step {
    match Lookup(s, playerId, HealthTag)
    case Some(Health(current, max)) =>
      if current <= 1 then Step(Ok(Exploded(s, playerId, playerPos, timestamp, true)), [Removal(playerId, 1000.0)])
      else Step(Ok(Put(s, playerId, Health(current, max).Hit(1))), [])
    case _ => Step(Fault(s), [])
  }

  /**
   * The contact check of the enemy `id` at `enemyPos` against the player:
   * the player's `Position` must exist (or `checkCollision` throws); on
   * overlap the enemy explodes, rams the player unless it is `Invincible`,
   * and is removed.
   */
  function Contact(s: Store, playerId: EntityId, id: EntityId, enemyPos: Box, timestamp: real): Step {
    match PositionOf(s, playerId)
    case None => Step(Fault(s), [])
    case Some(playerPos) =>
      if !CheckCollision(playerPos, enemyPos) then Step(Ok(s), [])
      else
        var s1 := Exploded(s, id, enemyPos, timestamp, false);
        var rammed := if Holds(s1, playerId, InvincibleTag) then Step(Ok(s1), []) else Rammed(s1, playerId, playerPos, timestamp);
        if rammed.outcome.Fault? then rammed
        else Step(Ok(Remove(rammed.outcome.store, id)), rammed.scheduled)
  }

  /**
   * The axis checks of the enemy `id` at `enemyPos`, after the timed turn
   * left its records at `m` and `dc`: both candidate boxes are computed from
   * the direction in `m`; a blocked x turns the enemy and restamps its timer,
   * then a blocked y does the same again. `isValidPosition` throwing ends the
   * pass.
   */
  function Steered(s: Store, id: EntityId, m: Component, dc: Component, enemyPos: Box,
                   timestamp: real, draw: EnemyDraw): Outcome
    requires m.Movement? && dc.DirectionChange? && draw.InRange()
  {
    var (nx, ny) := Advance(enemyPos.x, enemyPos.y, m.direction, m.speed);
    match Validity(s, Position(nx, enemyPos.y, enemyPos.width, enemyPos.height))
    case None => Fault(s)
    case Some(okX) =>
      var m2 := if okX then m else Swerve(m, draw.turnX);
      var dc2 := if okX then dc else Retimed(dc, timestamp);
      var s2 := if okX then s else Put(Put(s, id, m2), id, dc2);
      match Validity(s2, Position(enemyPos.x, ny, enemyPos.width, enemyPos.height))
      case None => Fault(s2)
      case Some(okY) =>
        Ok(if okY then s2 else Put(Put(s2, id, Swerve(m2, draw.turnY)), id, Retimed(dc2, timestamp)))
  }

  /** Steering, then the gun, then the contact check. */
  function Probe(s: Store, playerId: EntityId, id: EntityId, enemy: Component, m: Component, dc: Component,
                 enemyPos: Box, timestamp: real, draw: EnemyDraw): Step
    requires m.Movement? && dc.DirectionChange? && draw.InRange()
  {
    match Steered(s, id, m, dc, enemyPos, timestamp, draw)
    case Fault(s3) => Step(Fault(s3), [])
    case Ok(s3) => Contact(Aimed(s3, id, enemy, timestamp), playerId, id, enemyPos, timestamp)
  }

  /**
   * The body of the loop for the snapshot entry `(id, enemy)`: a missing
   * `DirectionChange` or `Movement` throws before anything is written, a
   * missing `Position` right after the timed turn.
   */
  function EnemyOne(s: Store, playerId: EntityId, id: EntityId, enemy: Component, timestamp: real, draw: EnemyDraw): Step
    requires draw.InRange()
  {
    match (Lookup(s, id, DirectionChangeTag), Lookup(s, id, MovementTag))
    case (Some(DirectionChange(cooldown, last)), Some(Movement(speed, direction, moving))) =>
      var turn := timestamp - last > cooldown;
      var m := Movement(speed, if turn then RandomDirection(draw.turn) else direction, moving);
      var dc := if turn then DirectionChange(RandomCooldown(draw.cooldown), timestamp) else DirectionChange(cooldown, last);
      var s1 := if turn then Put(Put(s, id, m), id, dc) else s;
      (match PositionOf(s1, id)
       case None => Step(Fault(s1), [])
       case Some(enemyPos) => Probe(s1, playerId, id, enemy, m, dc, enemyPos, timestamp, draw))
    case _ => Step(Fault(s), [])
  }

  /** The loop from entry `i`; `draws(i)` are the draws of the `i`-th enemy. */
  function EnemiesFrom(s: Store, playerId: EntityId, enemies: seq<(EntityId, Component)>, i: nat,
                       timestamp: real, draws: nat -> EnemyDraw): Step
    requires forall k :: draws(k).InRange()
    decreases |enemies| - i
  {
    if i >= |enemies| then Step(Ok(s), [])
    else
      var step := EnemyOne(s, playerId, enemies[i].0, enemies[i].1, timestamp, draws(i));
      Then(step, EnemiesFrom(step.outcome.store, playerId, enemies, i + 1, timestamp, draws))
  }

  /**
   * `updateEnemies(timestamp)`. Filtering the tanks dereferences the
   * player, so a missing `Player` throws exactly when there is a tank.
   */
  function EnemiesUpdated(s: Store, timestamp: real, draws: nat -> EnemyDraw): Step
    requires forall k :: draws(k).InRange()
  {
    var tanks := Query(s, TankTag);
    match PlayerId(s)
    case None => if tanks == [] then Step(Ok(s), []) else Step(Fault(s), [])
    case Some(playerId) => EnemiesFrom(s, playerId, Others(tanks, playerId), 0, timestamp, draws)
  }

  /**
   * One enemy with a `DirectionChange` and a `Movement`: the timed turn, then
   * a throw when the enemy has no `Position`, otherwise the probe from the
   * turned store.
   */
  lemma EnemyOneTurned(s: Store, playerId: EntityId, id: EntityId, enemy: Component, timestamp: real,
                       draw: EnemyDraw, m0: Component, dc0: Component)
    requires draw.InRange() && m0.Movement? && dc0.DirectionChange?
    requires Lookup(s, id, DirectionChangeTag) == Some(dc0) && Lookup(s, id, MovementTag) == Some(m0)
    ensures var turn := timestamp - dc0.lastChange > dc0.changeCooldown;
      var m := if turn then m0.(direction := RandomDirection(draw.turn)) else m0;
      var dc := if turn then DirectionChange(RandomCooldown(draw.cooldown), timestamp) else dc0;
      var s1 := if turn then Put(Put(s, id, m), id, dc) else s;
      EnemyOne(s, playerId, id, enemy, timestamp, draw) ==
        if PositionOf(s1, id).None? then Step(Fault(s1), [])
        else Probe(s1, playerId, id, enemy, m, dc, PositionOf(s1, id).value, timestamp, draw)
  {
  }

  // ---------------------------------------------------------------- frames

  /** The records one enemy's step may write on the enemy itself. */
  function Steering(id: EntityId): set<(EntityId, Tag)> {
    {(id, MovementTag), (id, DirectionChangeTag), (id, TankTag)}
  }

  /** The records the steps from entry `i` on may write on the enemies. */
  function SteeringFrom(enemies: seq<(EntityId, Component)>, i: nat): set<(EntityId, Tag)>
    decreases |enemies| - i
  {
    if i >= |enemies| then {} else Steering(enemies[i].0) + SteeringFrom(enemies, i + 1)
  }

  /** Only enemies of the snapshot, and only their `Movement`, `DirectionChange` and `Tank`, are steered. */
  lemma {:induction false} SteeringFromTags(enemies: seq<(EntityId, Component)>, i: nat, e: EntityId, t: Tag)
    requires (e, t) in SteeringFrom(enemies, i)
    ensures t in {MovementTag, DirectionChangeTag, TankTag}
    ensures exists k :: i <= k < |enemies| && enemies[k].0 == e
    decreases |enemies| - i
  {
    if (e, t) !in Steering(enemies[i].0) {
      SteeringFromTags(enemies, i + 1, e, t);
    }
  }

  lemma AimedFramed(s: Store, id: EntityId, enemy: Component, timestamp: real)
    requires Below(s)
    ensures Framed(s, Aimed(s, id, enemy, timestamp), {(id, TankTag)})
  {
    FramedSame(s);
    FramedWider(s, s, {}, {(id, TankTag)});
    if enemy.Tank? && timestamp - enemy.lastShot > enemy.shootCooldown {
      PutFramed(s, id, enemy.(isShooting := true, lastShot := timestamp));
    }
  }

  lemma RammedFramed(s: Store, playerId: EntityId, playerPos: Box, timestamp: real)
    requires Below(s)
    ensures var step := Rammed(s, playerId, playerPos, timestamp);
      && Framed(s, step.outcome.store, {(playerId, HealthTag)})
      && (forall rm :: rm in step.scheduled ==> rm == Removal(playerId, 1000.0))
  {
    FramedSame(s);
    FramedWider(s, s, {}, {(playerId, HealthTag)});
    match Lookup(s, playerId, HealthTag) {
      case Some(Health(current, max)) =>
        if current <= 1 {
          SpawnFramed(s, ExplosionParts(playerId, playerPos, timestamp, true));
          FramedWider(s, Exploded(s, playerId, playerPos, timestamp, true), {}, {(playerId, HealthTag)});
        } else {
          PutFramed(s, playerId, Health(current, max).Hit(1));
          MutatorsKeepTag(Health(current, max), 1);
        }
      case _ =>
    }
  }

  lemma ContactFramed(s: Store, playerId: EntityId, id: EntityId, enemyPos: Box, timestamp: real)
    requires Below(s)
    ensures var step := Contact(s, playerId, id, enemyPos, timestamp);
      && Framed(s, step.outcome.store, {(playerId, HealthTag)})
      && (forall rm :: rm in step.scheduled ==> rm == Removal(playerId, 1000.0))
  {
    FramedSame(s);
    FramedWider(s, s, {}, {(playerId, HealthTag)});
    if PositionOf(s, playerId).Some? && CheckCollision(PositionOf(s, playerId).value, enemyPos) {
      var playerPos := PositionOf(s, playerId).value;
      var s1 := Exploded(s, id, enemyPos, timestamp, false);
      SpawnFramed(s, ExplosionParts(id, enemyPos, timestamp, false));
      var rammed := if Holds(s1, playerId, InvincibleTag) then Step(Ok(s1), []) else Rammed(s1, playerId, playerPos, timestamp);
      assert Framed(s, rammed.outcome.store, {(playerId, HealthTag)}) by {
        if Holds(s1, playerId, InvincibleTag) {
          FramedWider(s, s1, {}, {(playerId, HealthTag)});
        } else {
          RammedFramed(s1, playerId, playerPos, timestamp);
          FramedTrans(s, s1, rammed.outcome.store, {}, {(playerId, HealthTag)});
        }
      }
      if rammed.outcome.Ok? {
        RemoveFramed(rammed.outcome.store, id);
        FramedTrans(s, rammed.outcome.store, Remove(rammed.outcome.store, id), {(playerId, HealthTag)}, {});
      }
    }
  }

  lemma SteeredFramed(s: Store, id: EntityId, m: Component, dc: Component, enemyPos: Box, timestamp: real, draw: EnemyDraw)
    requires Below(s) && m.Movement? && dc.DirectionChange? && draw.InRange()
    ensures Framed(s, Steered(s, id, m, dc, enemyPos, timestamp, draw).store, {(id, MovementTag), (id, DirectionChangeTag)})
  {
    var slots := {(id, MovementTag), (id, DirectionChangeTag)};
    FramedSame(s);
    FramedWider(s, s, {}, slots);
    var (nx, ny) := Advance(enemyPos.x, enemyPos.y, m.direction, m.speed);
    var vx := Validity(s, Position(nx, enemyPos.y, enemyPos.width, enemyPos.height));
    if vx.Some? {
      var m2 := if vx.value then m else Swerve(m, draw.turnX);
      var dc2 := if vx.value then dc else Retimed(dc, timestamp);
      var s2 := if vx.value then s else Put(Put(s, id, m2), id, dc2);
      assert Framed(s, s2, slots) by {
        if !vx.value {
          TwoPutsFramed(s, s, id, m2, dc2, slots);
        }
      }
      var vy := Validity(s2, Position(enemyPos.x, ny, enemyPos.width, enemyPos.height));
      if vy.Some? && !vy.value {
        TwoPutsFramed(s, s2, id, Swerve(m2, draw.turnY), Retimed(dc2, timestamp), slots);
      }
    }
  }

  /** Writing a `Movement` and then a `DirectionChange` of `id` after a framed run stays in the frame. */
  lemma TwoPutsFramed(s0: Store, s: Store, id: EntityId, m: Component, dc: Component, slots: set<(EntityId, Tag)>)
    requires m.Movement? && dc.DirectionChange?
    requires Framed(s0, s, slots) && (id, MovementTag) in slots && (id, DirectionChangeTag) in slots
    ensures Framed(s0, Put(Put(s, id, m), id, dc), slots)
  {
    PutFramed(s, id, m);
    PutFramed(Put(s, id, m), id, dc);
    FramedTrans(s, Put(s, id, m), Put(Put(s, id, m), id, dc), {(id, MovementTag)}, {(id, DirectionChangeTag)});
    FramedTrans(s0, s, Put(Put(s, id, m), id, dc), slots, {(id, MovementTag)} + {(id, DirectionChangeTag)});
    FramedWider(s0, Put(Put(s, id, m), id, dc), slots + ({(id, MovementTag)} + {(id, DirectionChangeTag)}), slots);
  }

  lemma ProbeFramed(s: Store, playerId: EntityId, id: EntityId, enemy: Component, m: Component, dc: Component,
                    enemyPos: Box, timestamp: real, draw: EnemyDraw)
    requires Below(s) && m.Movement? && dc.DirectionChange? && draw.InRange()
    ensures var step := Probe(s, playerId, id, enemy, m, dc, enemyPos, timestamp, draw);
      && Framed(s, step.outcome.store, Steering(id) + {(playerId, HealthTag)})
      && (forall rm :: rm in step.scheduled ==> rm == Removal(playerId, 1000.0))
  {
    var slots := Steering(id) + {(playerId, HealthTag)};
    var s3 := Steered(s, id, m, dc, enemyPos, timestamp, draw).store;
    SteeredFramed(s, id, m, dc, enemyPos, timestamp, draw);
    FramedWider(s, s3, {(id, MovementTag), (id, DirectionChangeTag)}, slots);
    if Steered(s, id, m, dc, enemyPos, timestamp, draw).Ok? {
      var s4 := Aimed(s3, id, enemy, timestamp);
      AimedFramed(s3, id, enemy, timestamp);
      FramedTrans(s, s3, s4, slots, {(id, TankTag)});
      FramedWider(s, s4, slots + {(id, TankTag)}, slots);
      ContactFramed(s4, playerId, id, enemyPos, timestamp);
      FramedTrans(s, s4, Contact(s4, playerId, id, enemyPos, timestamp).outcome.store, slots, {(playerId, HealthTag)});
      FramedWider(s, Contact(s4, playerId, id, enemyPos, timestamp).outcome.store, slots + {(playerId, HealthTag)}, slots);
    }
  }

  /**
   * One enemy's step writes nothing of an existing entity but the enemy's
   * own `Movement`, `DirectionChange` and `Tank` and the player's `Health`;
   * in particular no `Position`. Only the player's removal, 1 s later, is
   * ever scheduled.
   */
  lemma EnemyOneFrame(s: Store, playerId: EntityId, id: EntityId, enemy: Component, timestamp: real, draw: EnemyDraw)
    requires Below(s) && draw.InRange()
    ensures var step := EnemyOne(s, playerId, id, enemy, timestamp, draw);
      && Framed(s, step.outcome.store, Steering(id) + {(playerId, HealthTag)})
      && (forall rm :: rm in step.scheduled ==> rm == Removal(playerId, 1000.0))
  {
    var slots := Steering(id) + {(playerId, HealthTag)};
    FramedSame(s);
    FramedWider(s, s, {}, slots);
    match (Lookup(s, id, DirectionChangeTag), Lookup(s, id, MovementTag)) {
      case (Some(DirectionChange(cooldown, last)), Some(Movement(speed, direction, moving))) =>
        TurnedFramed(s, playerId, id, enemy, timestamp, draw, cooldown, last, speed, direction, moving);
      case _ =>
    }
  }

  /** `EnemyOneFrame` once the enemy's records are known to be there. */
  lemma TurnedFramed(s: Store, playerId: EntityId, id: EntityId, enemy: Component, timestamp: real, draw: EnemyDraw,
                     cooldown: real, last: real, speed: real, direction: Direction, moving: bool)
    requires Below(s) && draw.InRange()
    requires Lookup(s, id, DirectionChangeTag) == Some(DirectionChange(cooldown, last))
    requires Lookup(s, id, MovementTag) == Some(Movement(speed, direction, moving))
    ensures var step := EnemyOne(s, playerId, id, enemy, timestamp, draw);
      && Framed(s, step.outcome.store, Steering(id) + {(playerId, HealthTag)})
      && (forall rm :: rm in step.scheduled ==> rm == Removal(playerId, 1000.0))
  {
    var slots := Steering(id) + {(playerId, HealthTag)};
    var turn := timestamp - last > cooldown;
    var m := Movement(speed, if turn then RandomDirection(draw.turn) else direction, moving);
    var dc := if turn then DirectionChange(RandomCooldown(draw.cooldown), timestamp) else DirectionChange(cooldown, last);
    var s1 := if turn then Put(Put(s, id, m), id, dc) else s;
    assert Framed(s, s1, slots) by {
      FramedSame(s);
      FramedWider(s, s, {}, slots);
      if turn {
        TwoPutsFramed(s, s, id, m, dc, slots);
      }
    }
    if PositionOf(s1, id).Some? {
      var step := Probe(s1, playerId, id, enemy, m, dc, PositionOf(s1, id).value, timestamp, draw);
      ProbeFramed(s1, playerId, id, enemy, m, dc, PositionOf(s1, id).value, timestamp, draw);
      FramedTrans(s, s1, step.outcome.store, slots, slots);
      assert slots + slots == slots;
    }
  }

  lemma {:induction false} EnemiesFromFrame(s: Store, playerId: EntityId, enemies: seq<(EntityId, Component)>, i: nat,
                                            timestamp: real, draws: nat -> EnemyDraw)
    requires Below(s) && forall k :: draws(k).InRange()
    ensures var step := EnemiesFrom(s, playerId, enemies, i, timestamp, draws);
      && Framed(s, step.outcome.store, SteeringFrom(enemies, i) + {(playerId, HealthTag)})
      && (forall rm :: rm in step.scheduled ==> rm == Removal(playerId, 1000.0))
    decreases |enemies| - i
  {
    var slots := SteeringFrom(enemies, i) + {(playerId, HealthTag)};
    if i >= |enemies| {
      FramedSame(s);
      FramedWider(s, s, {}, slots);
    } else {
      var id := enemies[i].0;
      EnemyOneFrame(s, playerId, id, enemies[i].1, timestamp, draws(i));
      var step := EnemyOne(s, playerId, id, enemies[i].1, timestamp, draws(i));
      FramedWider(s, step.outcome.store, Steering(id) + {(playerId, HealthTag)}, slots);
      if step.outcome.Ok? {
        var s1 := step.outcome.store;
        EnemiesFromFrame(s1, playerId, enemies, i + 1, timestamp, draws);
        var rest := EnemiesFrom(s1, playerId, enemies, i + 1, timestamp, draws);
        FramedWider(s1, rest.outcome.store, SteeringFrom(enemies, i + 1) + {(playerId, HealthTag)}, slots);
        FramedTrans(s, s1, rest.outcome.store, slots, slots);
        assert slots + slots == slots;
      }
    }
  }

  // ------------------------------------------------------------- wellformed

  lemma AimedKeeps(s: Store, id: EntityId, enemy: Component, timestamp: real)
    requires WellFormed(s)
    ensures WellFormed(Aimed(s, id, enemy, timestamp))
  {
    if enemy.Tank? && timestamp - enemy.lastShot > enemy.shootCooldown {
      PutKeeps(s, id, enemy.(isShooting := true, lastShot := timestamp));
    }
  }

  lemma RammedKeeps(s: Store, playerId: EntityId, playerPos: Box, timestamp: real)
    requires WellFormed(s)
    ensures WellFormed(Rammed(s, playerId, playerPos, timestamp).outcome.store)
  {
    match Lookup(s, playerId, HealthTag) {
      case Some(Health(current, max)) =>
        SpawnKeeps(s, ExplosionParts(playerId, playerPos, timestamp, true));
        PutKeeps(s, playerId, Health(current, max).Hit(1));
      case _ =>
    }
  }

  lemma ContactKeeps(s: Store, playerId: EntityId, id: EntityId, enemyPos: Box, timestamp: real)
    requires WellFormed(s)
    ensures WellFormed(Contact(s, playerId, id, enemyPos, timestamp).outcome.store)
  {
    if PositionOf(s, playerId).Some? {
      var playerPos := PositionOf(s, playerId).value;
      var s1 := Exploded(s, id, enemyPos, timestamp, false);
      SpawnKeeps(s, ExplosionParts(id, enemyPos, timestamp, false));
      RammedKeeps(s1, playerId, playerPos, timestamp);
      RemoveKeeps(s1, id);
      RemoveKeeps(Rammed(s1, playerId, playerPos, timestamp).outcome.store, id);
    }
  }

  lemma TwoPutsKeeps(s: Store, id: EntityId, a: Component, b: Component)
    requires WellFormed(s)
    ensures WellFormed(Put(Put(s, id, a), id, b))
  {
    PutKeeps(s, id, a);
    PutKeeps(Put(s, id, a), id, b);
  }

  lemma SteeredKeeps(s: Store, id: EntityId, m: Component, dc: Component, enemyPos: Box, timestamp: real, draw: EnemyDraw)
    requires WellFormed(s) && m.Movement? && dc.DirectionChange? && draw.InRange()
    ensures WellFormed(Steered(s, id, m, dc, enemyPos, timestamp, draw).store)
  {
    var (nx, ny) := Advance(enemyPos.x, enemyPos.y, m.direction, m.speed);
    var vx := Validity(s, Position(nx, enemyPos.y, enemyPos.width, enemyPos.height));
    if vx.Some? {
      var m2 := if vx.value then m else Swerve(m, draw.turnX);
      var dc2 := if vx.value then dc else Retimed(dc, timestamp);
      var s2 := if vx.value then s else Put(Put(s, id, m2), id, dc2);
      assert WellFormed(s2) by {
        TwoPutsKeeps(s, id, m2, dc2);
      }
      var vy := Validity(s2, Position(enemyPos.x, ny, enemyPos.width, enemyPos.height));
      var s3 := if vy == Some(false) then Put(Put(s2, id, Swerve(m2, draw.turnY)), id, Retimed(dc2, timestamp)) else s2;
      assert Steered(s, id, m, dc, enemyPos, timestamp, draw).store == s3;
      TwoPutsKeeps(s2, id, Swerve(m2, draw.turnY), Retimed(dc2, timestamp));
    } else {
      assert Steered(s, id, m, dc, enemyPos, timestamp, draw).store == s;
    }
  }

  lemma ProbeKeeps(s: Store, playerId: EntityId, id: EntityId, enemy: Component, m: Component, dc: Component,
                   enemyPos: Box, timestamp: real, draw: EnemyDraw)
    requires WellFormed(s) && m.Movement? && dc.DirectionChange? && draw.InRange()
    ensures WellFormed(Probe(s, playerId, id, enemy, m, dc, enemyPos, timestamp, draw).outcome.store)
  {
    var s3 := Steered(s, id, m, dc, enemyPos, timestamp, draw).store;
    SteeredKeeps(s, id, m, dc, enemyPos, timestamp, draw);
    AimedKeeps(s3, id, enemy, timestamp);
    ContactKeeps(Aimed(s3, id, enemy, timestamp), playerId, id, enemyPos, timestamp);
  }

  lemma EnemyOneKeeps(s: Store, playerId: EntityId, id: EntityId, enemy: Component, timestamp: real, draw: EnemyDraw)
    requires WellFormed(s) && draw.InRange()
    ensures WellFormed(EnemyOne(s, playerId, id, enemy, timestamp, draw).outcome.store)
  {
    match (Lookup(s, id, DirectionChangeTag), Lookup(s, id, MovementTag)) {
      case (Some(DirectionChange(cooldown, last)), Some(Movement(speed, direction, moving))) =>
        TurnedKeeps(s, playerId, id, enemy, timestamp, draw, cooldown, last, speed, direction, moving);
      case _ =>
    }
  }

  lemma TurnedKeeps(s: Store, playerId: EntityId, id: EntityId, enemy: Component, timestamp: real, draw: EnemyDraw,
                    cooldown: real, last: real, speed: real, direction: Direction, moving: bool)
    requires WellFormed(s) && draw.InRange()
    requires Lookup(s, id, DirectionChangeTag) == Some(DirectionChange(cooldown, last))
    requires Lookup(s, id, MovementTag) == Some(Movement(speed, direction, moving))
    ensures WellFormed(EnemyOne(s, playerId, id, enemy, timestamp, draw).outcome.store)
  {
    var m0, dc0 := Movement(speed, direction, moving), DirectionChange(cooldown, last);
    EnemyOneTurned(s, playerId, id, enemy, timestamp, draw, m0, dc0);
    var turn := timestamp - dc0.lastChange > dc0.changeCooldown;
    var m := if turn then m0.(direction := RandomDirection(draw.turn)) else m0;
    var dc := if turn then DirectionChange(RandomCooldown(draw.cooldown), timestamp) else dc0;
    var s1 := if turn then Put(Put(s, id, m), id, dc) else s;
    if turn {
      TwoPutsKeeps(s, id, m, dc);
    }
    if PositionOf(s1, id).Some? {
      ProbeKeeps(s1, playerId, id, enemy, m, dc, PositionOf(s1, id).value, timestamp, draw);
    }
  }

  lemma {:induction false} EnemiesFromKeeps(s: Store, playerId: EntityId, enemies: seq<(EntityId, Component)>, i: nat,
                                            timestamp: real, draws: nat -> EnemyDraw)
    requires WellFormed(s) && forall k :: draws(k).InRange()
    ensures WellFormed(EnemiesFrom(s, playerId, enemies, i, timestamp, draws).outcome.store)
    decreases |enemies| - i
  {
    if i < |enemies| {
      EnemyOneKeeps(s, playerId, enemies[i].0, enemies[i].1, timestamp, draws(i));
      var step := EnemyOne(s, playerId, enemies[i].0, enemies[i].1, timestamp, draws(i));
      if step.outcome.Ok? {
        EnemiesFromKeeps(step.outcome.store, playerId, enemies, i + 1, timestamp, draws);
      }
    }
  }

  // --------------------------------------------------------------- effects

  lemma TwoPutsValidity(s: Store, id: EntityId, m: Component, dc: Component, pos: Box)
    requires m.Movement? && dc.DirectionChange?
    ensures Validity(Put(Put(s, id, m), id, dc), pos) == Validity(s, pos)
  {
    ValidityPut(s, id, m, pos);
    ValidityPut(Put(s, id, m), id, dc, pos);
  }

  /**
   * Steering throws exactly when one of the two `isValidPosition` calls
   * throws. Otherwise speed, `isMoving` and the cooldown are kept; a blocked
   * x turns the enemy to `turnX`, a blocked y then to `turnY`, and either
   * restamps the timer with `timestamp`; with both axes open nothing changes.
   * Both answers are those of the store before steering.
   */
  lemma SteeredEffect(s: Store, id: EntityId, m: Component, dc: Component, enemyPos: Box, timestamp: real, draw: EnemyDraw)
    requires m.Movement? && dc.DirectionChange? && draw.InRange()
    requires Lookup(s, id, MovementTag) == Some(m) && Lookup(s, id, DirectionChangeTag) == Some(dc)
    ensures var (nx, ny) := Advance(enemyPos.x, enemyPos.y, m.direction, m.speed);
      var vx := Validity(s, Position(nx, enemyPos.y, enemyPos.width, enemyPos.height));
      var vy := Validity(s, Position(enemyPos.x, ny, enemyPos.width, enemyPos.height));
      var r := Steered(s, id, m, dc, enemyPos, timestamp, draw);
      && (r.Ok? <==> vx.Some? && vy.Some?)
      && (r.Ok? ==>
            && Lookup(r.store, id, MovementTag) ==
                 Some(m.(direction := if vy == Some(false) then RandomDirection(draw.turnY)
                                      else if vx == Some(false) then RandomDirection(draw.turnX)
                                      else m.direction))
            && Lookup(r.store, id, DirectionChangeTag) ==
                 Some(if vx == Some(false) || vy == Some(false) then dc.(lastChange := timestamp) else dc)
            && (vx == Some(true) && vy == Some(true) ==> r.store == s))
  {
    var (nx, ny) := Advance(enemyPos.x, enemyPos.y, m.direction, m.speed);
    var boxY := Position(enemyPos.x, ny, enemyPos.width, enemyPos.height);
    var vx := Validity(s, Position(nx, enemyPos.y, enemyPos.width, enemyPos.height));
    if vx.Some? {
      var m2 := if vx.value then m else Swerve(m, draw.turnX);
      var dc2 := if vx.value then dc else Retimed(dc, timestamp);
      var s2 := if vx.value then s else Put(Put(s, id, m2), id, dc2);
      assert Validity(s2, boxY) == Validity(s, boxY) && Lookup(s2, id, MovementTag) == Some(m2)
          && Lookup(s2, id, DirectionChangeTag) == Some(dc2) by {
        if !vx.value {
          TwoPutsValidity(s, id, m2, dc2, boxY);
          TwoPutsRecords(s, id, m2, dc2);
        }
      }
      if Validity(s2, boxY) == Some(false) {
        TwoPutsRecords(s2, id, Swerve(m2, draw.turnY), Retimed(dc2, timestamp));
      }
    }
  }

  /** Filing a `Movement` and a `DirectionChange` on an existing entity: both are then its records. */
  lemma TwoPutsRecords(s: Store, id: EntityId, m: Component, dc: Component)
    requires m.Movement? && dc.DirectionChange? && id in s.entities
    ensures var r := Put(Put(s, id, m), id, dc);
      Lookup(r, id, MovementTag) == Some(m) && Lookup(r, id, DirectionChangeTag) == Some(dc) && id in r.entities
  {
  }

  /**
   * Ramming throws exactly when the player has no `Health`. On the last life
   * a small explosion owned by the player is the next entity, the removal is
   * scheduled 1 s later and the life count stays; otherwise one life is
   * lost. Every other record of an existing entity stays.
   */
  lemma RammedEffect(s: Store, playerId: EntityId, playerPos: Box, timestamp: real)
    requires Below(s)
    ensures var step := Rammed(s, playerId, playerPos, timestamp);
      var health := Lookup(s, playerId, HealthTag);
      var r := step.outcome.store;
      && (step.outcome.Fault? <==> health.None? || !health.value.Health?)
      && (step.outcome.Fault? ==> r == s)
      && (forall e, t :: e in s.entities && (e, t) != (playerId, HealthTag) ==> Lookup(r, e, t) == Lookup(s, e, t))
      && (step.outcome.Ok? && health.value.current <= 1 ==>
            && step.scheduled == [Removal(playerId, 1000.0)]
            && Lookup(r, s.nextId, ExplosionTag) == Some(Explosion(0, 8, EXPLOSION_FRAME_TIME, timestamp, playerId))
            && Lookup(r, playerId, HealthTag) == health)
      && (step.outcome.Ok? && health.value.current > 1 ==>
            && step.scheduled == []
            && Lookup(r, playerId, HealthTag) == Some(Health(health.value.current - 1, health.value.max)))
  {
    var health := Lookup(s, playerId, HealthTag);
    if health.Some? && health.value.Health? {
      if health.value.current <= 1 {
        ExplodedEffect(s, playerId, playerPos, timestamp, true);
      } else {
        MutatorsKeepTag(health.value, 1);
      }
    }
  }

  /**
   * An enemy that overlaps the player explodes (a large explosion it owns is
   * the next entity) and is removed; the player is spared when `Invincible`
   * and otherwise rammed (see `RammedEffect`) in the store that already
   * holds the explosion. Without overlap nothing happens.
   */
  lemma ContactEffect(s: Store, playerId: EntityId, id: EntityId, enemyPos: Box, timestamp: real, playerPos: Box)
    requires Below(s) && id < s.nextId && playerId != id
    requires PositionOf(s, playerId) == Some(playerPos)
    ensures var step := Contact(s, playerId, id, enemyPos, timestamp);
      !CheckCollision(playerPos, enemyPos) ==> step == Step(Ok(s), [])
    ensures var step := Contact(s, playerId, id, enemyPos, timestamp);
      var r := step.outcome.store;
      var s1 := Exploded(s, id, enemyPos, timestamp, false);
      var rammed := Rammed(s1, playerId, playerPos, timestamp);
      CheckCollision(playerPos, enemyPos) ==>
        && (step.outcome.Ok? ==> id !in r.entities && Lookup(r, s.nextId, ExplosionTag) == Some(Explosion(0, 12, EXPLOSION_FRAME_TIME, timestamp, id)))
        && (Holds(s, playerId, InvincibleTag) ==> step.outcome.Ok? && step.scheduled == [] && Lookup(r, playerId, HealthTag) == Lookup(s, playerId, HealthTag))
        && (!Holds(s, playerId, InvincibleTag) ==>
              && step.outcome.Fault? == rammed.outcome.Fault? && step.scheduled == rammed.scheduled
              && forall e, t :: e != id ==> Lookup(r, e, t) == Lookup(rammed.outcome.store, e, t))
        && Lookup(s1, playerId, HealthTag) == Lookup(s, playerId, HealthTag) && Below(s1)
  {
    if CheckCollision(playerPos, enemyPos) {
      ContactExplodes(s, playerId, id, enemyPos, timestamp, playerPos);
      if Holds(s, playerId, InvincibleTag) {
        ContactSpared(s, playerId, id, enemyPos, timestamp, playerPos);
      } else {
        ContactRams(s, playerId, id, enemyPos, timestamp, playerPos);
      }
    }
  }

  /** An overlapping enemy: the explosion it owns is the next entity, and it is gone unless the ramming threw. */
  lemma ContactExplodes(s: Store, playerId: EntityId, id: EntityId, enemyPos: Box, timestamp: real, playerPos: Box)
    requires Below(s) && id < s.nextId && playerId != id
    requires PositionOf(s, playerId) == Some(playerPos) && CheckCollision(playerPos, enemyPos)
    ensures var step := Contact(s, playerId, id, enemyPos, timestamp);
      var r := step.outcome.store;
      var s1 := Exploded(s, id, enemyPos, timestamp, false);
      && (step.outcome.Ok? ==> id !in r.entities && Lookup(r, s.nextId, ExplosionTag) == Some(Explosion(0, 12, EXPLOSION_FRAME_TIME, timestamp, id)))
      && Lookup(s1, playerId, HealthTag) == Lookup(s, playerId, HealthTag) && Below(s1)
  {
    var s1 := Exploded(s, id, enemyPos, timestamp, false);
    ExplodedEffect(s, id, enemyPos, timestamp, false);
    var rammed := if Holds(s1, playerId, InvincibleTag) then Step(Ok(s1), []) else Rammed(s1, playerId, playerPos, timestamp);
    assert playerId in s.entities;
    if !Holds(s1, playerId, InvincibleTag) {
      RammedEffect(s1, playerId, playerPos, timestamp);
    }
    var r1 := rammed.outcome.store;
    assert Lookup(r1, s.nextId, ExplosionTag) == Lookup(s1, s.nextId, ExplosionTag);
    assert Lookup(Remove(r1, id), s.nextId, ExplosionTag) == Lookup(r1, s.nextId, ExplosionTag);
  }

  /** An overlapping enemy and an `Invincible` player: nothing is scheduled and the player's `Health` stays. */
  lemma ContactSpared(s: Store, playerId: EntityId, id: EntityId, enemyPos: Box, timestamp: real, playerPos: Box)
    requires Below(s) && id < s.nextId && playerId != id
    requires PositionOf(s, playerId) == Some(playerPos) && CheckCollision(playerPos, enemyPos)
    requires Holds(s, playerId, InvincibleTag)
    ensures var step := Contact(s, playerId, id, enemyPos, timestamp);
      var r := step.outcome.store;
      step.outcome.Ok? && step.scheduled == [] && Lookup(r, playerId, HealthTag) == Lookup(s, playerId, HealthTag)
  {
    var s1 := Exploded(s, id, enemyPos, timestamp, false);
    ExplodedEffect(s, id, enemyPos, timestamp, false);
    assert Holds(s1, playerId, InvincibleTag);
  }

  /** An overlapping enemy and a player who is not `Invincible`: the outcome is the ramming's, less the enemy. */
  lemma ContactRams(s: Store, playerId: EntityId, id: EntityId, enemyPos: Box, timestamp: real, playerPos: Box)
    requires Below(s) && id < s.nextId && playerId != id
    requires PositionOf(s, playerId) == Some(playerPos) && CheckCollision(playerPos, enemyPos)
    requires !Holds(s, playerId, InvincibleTag)
    ensures var step := Contact(s, playerId, id, enemyPos, timestamp);
      var r := step.outcome.store;
      var s1 := Exploded(s, id, enemyPos, timestamp, false);
      var rammed := Rammed(s1, playerId, playerPos, timestamp);
      && step.outcome.Fault? == rammed.outcome.Fault? && step.scheduled == rammed.scheduled
      && forall e, t :: e != id ==> Lookup(r, e, t) == Lookup(rammed.outcome.store, e, t)
  {
    var s1 := Exploded(s, id, enemyPos, timestamp, false);
    ExplodedEffect(s, id, enemyPos, timestamp, false);
    assert !Holds(s1, playerId, InvincibleTag);
  }

  /** An enemy still there after its contact test did not touch the player: that test changed nothing. */
  lemma ContactSurvivor(s: Store, playerId: EntityId, id: EntityId, enemyPos: Box, timestamp: real)
    ensures var step := Contact(s, playerId, id, enemyPos, timestamp);
      step.outcome.Ok? && id in step.outcome.store.entities ==> step == Step(Ok(s), [])
  {
  }

  /**
   * What one step does to an enemy that survives it. The timed turn (when
   * more than `changeCooldown` has passed since `lastChange`) points it in
   * the `turn` direction with a fresh cooldown; then both axes are probed
   * from the current position in that direction against the store as it was
   * before the step: a blocked x turns it to `turnX`, a blocked y to
   * `turnY`, and either restamps `lastChange`. Speed and `isMoving` are
   * kept, the gun is armed when its timer ran out, the position does not
   * change, and nothing is scheduled. A throwing `isValidPosition` ends the
   * pass.
   */
  lemma EnemyOneSteers(s: Store, playerId: EntityId, id: EntityId, enemy: Component, timestamp: real, draw: EnemyDraw,
                       cooldown: real, last: real, speed: real, direction: Direction, moving: bool, enemyPos: Box)
    requires Below(s) && draw.InRange()
    requires Lookup(s, id, DirectionChangeTag) == Some(DirectionChange(cooldown, last))
    requires Lookup(s, id, MovementTag) == Some(Movement(speed, direction, moving))
    requires PositionOf(s, id) == Some(enemyPos)
    ensures var turn := timestamp - last > cooldown;
      var heading := if turn then RandomDirection(draw.turn) else direction;
      var dc1 := if turn then DirectionChange(RandomCooldown(draw.cooldown), timestamp) else DirectionChange(cooldown, last);
      var (nx, ny) := Advance(enemyPos.x, enemyPos.y, heading, speed);
      var vx := Validity(s, Position(nx, enemyPos.y, enemyPos.width, enemyPos.height));
      var vy := Validity(s, Position(enemyPos.x, ny, enemyPos.width, enemyPos.height));
      var step := EnemyOne(s, playerId, id, enemy, timestamp, draw);
      var r := step.outcome.store;
      && (vx.None? || vy.None? ==> step.outcome.Fault?)
      && (step.outcome.Ok? && id in r.entities ==>
            && step.scheduled == []
            && Lookup(r, id, MovementTag) ==
                 Some(Movement(speed, if vy == Some(false) then RandomDirection(draw.turnY)
                                      else if vx == Some(false) then RandomDirection(draw.turnX)
                                      else heading, moving))
            && Lookup(r, id, DirectionChangeTag) ==
                 Some(if vx == Some(false) || vy == Some(false) then dc1.(lastChange := timestamp) else dc1)
            && Lookup(r, id, TankTag) ==
                 (if enemy.Tank? && timestamp - enemy.lastShot > enemy.shootCooldown
                  then Some(enemy.(isShooting := true, lastShot := timestamp)) else Lookup(s, id, TankTag))
            && PositionOf(r, id) == Some(enemyPos))
  {
    var turn := timestamp - last > cooldown;
    var m1 := Movement(speed, if turn then RandomDirection(draw.turn) else direction, moving);
    var dc1 := if turn then DirectionChange(RandomCooldown(draw.cooldown), timestamp) else DirectionChange(cooldown, last);
    var s1 := if turn then Put(Put(s, id, m1), id, dc1) else s;
    var (nx, ny) := Advance(enemyPos.x, enemyPos.y, m1.direction, m1.speed);
    var boxX := Position(nx, enemyPos.y, enemyPos.width, enemyPos.height);
    var boxY := Position(enemyPos.x, ny, enemyPos.width, enemyPos.height);
    assert Below(s1) && Lookup(s1, id, TankTag) == Lookup(s, id, TankTag) && PositionOf(s1, id) == Some(enemyPos)
        && Lookup(s1, id, MovementTag) == Some(m1) && Lookup(s1, id, DirectionChangeTag) == Some(dc1)
        && Validity(s1, boxX) == Validity(s, boxX) && Validity(s1, boxY) == Validity(s, boxY) by {
      if turn {
        TwoPutsSteer(s, id, m1, dc1, boxX, boxY);
      }
    }
    assert EnemyOne(s, playerId, id, enemy, timestamp, draw) == Probe(s1, playerId, id, enemy, m1, dc1, enemyPos, timestamp, draw);
    SurvivorProbe(s1, playerId, id, enemy, m1, dc1, enemyPos, timestamp, draw);
  }

  /** The timed turn writes the enemy's two steering records and nothing a later check reads. */
  lemma TwoPutsSteer(s: Store, id: EntityId, m: Component, dc: Component, boxX: Box, boxY: Box)
    requires Below(s) && m.Movement? && dc.DirectionChange? && id in s.entities
    ensures var s1 := Put(Put(s, id, m), id, dc);
      && Below(s1) && Lookup(s1, id, TankTag) == Lookup(s, id, TankTag) && PositionOf(s1, id) == PositionOf(s, id)
      && Lookup(s1, id, MovementTag) == Some(m) && Lookup(s1, id, DirectionChangeTag) == Some(dc)
      && Validity(s1, boxX) == Validity(s, boxX) && Validity(s1, boxY) == Validity(s, boxY)
  {
    PutLookup(s, id, m);
    PutLookup(Put(s, id, m), id, dc);
    TwoPutsValidity(s, id, m, dc, boxX);
    TwoPutsValidity(s, id, m, dc, boxY);
  }

  /** `EnemyOneSteers` from the store after the timed turn. */
  lemma SurvivorProbe(s: Store, playerId: EntityId, id: EntityId, enemy: Component, m: Component, dc: Component,
                      enemyPos: Box, timestamp: real, draw: EnemyDraw)
    requires Below(s) && m.Movement? && dc.DirectionChange? && draw.InRange()
    requires Lookup(s, id, MovementTag) == Some(m) && Lookup(s, id, DirectionChangeTag) == Some(dc)
    requires PositionOf(s, id) == Some(enemyPos)
    ensures var (nx, ny) := Advance(enemyPos.x, enemyPos.y, m.direction, m.speed);
      var vx := Validity(s, Position(nx, enemyPos.y, enemyPos.width, enemyPos.height));
      var vy := Validity(s, Position(enemyPos.x, ny, enemyPos.width, enemyPos.height));
      var step := Probe(s, playerId, id, enemy, m, dc, enemyPos, timestamp, draw);
      var r := step.outcome.store;
      && (vx.None? || vy.None? ==> step.outcome.Fault?)
      && (step.outcome.Ok? && id in r.entities ==>
            && step.scheduled == []
            && Lookup(r, id, MovementTag) ==
                 Some(m.(direction := if vy == Some(false) then RandomDirection(draw.turnY)
                                      else if vx == Some(false) then RandomDirection(draw.turnX)
                                      else m.direction))
            && Lookup(r, id, DirectionChangeTag) ==
                 Some(if vx == Some(false) || vy == Some(false) then dc.(lastChange := timestamp) else dc)
            && Lookup(r, id, TankTag) ==
                 (if enemy.Tank? && timestamp - enemy.lastShot > enemy.shootCooldown
                  then Some(enemy.(isShooting := true, lastShot := timestamp)) else Lookup(s, id, TankTag))
            && PositionOf(r, id) == Some(enemyPos))
  {
    var st := Steered(s, id, m, dc, enemyPos, timestamp, draw);
    ProbeSurvivor(s, playerId, id, enemy, m, dc, enemyPos, timestamp, draw);
    assert st.Fault? ==> Probe(s, playerId, id, enemy, m, dc, enemyPos, timestamp, draw).outcome.Fault?;
    SteeredEffect(s, id, m, dc, enemyPos, timestamp, draw);
    SteeredSurvivor(s, id, enemy, m, dc, enemyPos, timestamp, draw);
  }

  /** Steering adds and removes no entity. */
  lemma SteeredKeys(s: Store, id: EntityId, m: Component, dc: Component, enemyPos: Box, timestamp: real, draw: EnemyDraw)
    requires m.Movement? && dc.DirectionChange? && draw.InRange()
    ensures Steered(s, id, m, dc, enemyPos, timestamp, draw).store.entities.Keys == s.entities.Keys
  {
    var (nx, ny) := Advance(enemyPos.x, enemyPos.y, m.direction, m.speed);
    var vx := Validity(s, Position(nx, enemyPos.y, enemyPos.width, enemyPos.height));
    if vx.Some? {
      var m2 := if vx.value then m else Swerve(m, draw.turnX);
      var dc2 := if vx.value then dc else Retimed(dc, timestamp);
      var s2 := if vx.value then s else Put(Put(s, id, m2), id, dc2);
      assert s2.entities.Keys == s.entities.Keys by {
        PutLookup(s, id, m2);
        PutLookup(Put(s, id, m2), id, dc2);
      }
      var vy := Validity(s2, Position(enemyPos.x, ny, enemyPos.width, enemyPos.height));
      var s3 := if vy == Some(false) then Put(Put(s2, id, Swerve(m2, draw.turnY)), id, Retimed(dc2, timestamp)) else s2;
      assert Steered(s, id, m, dc, enemyPos, timestamp, draw).store == s3;
      PutLookup(s2, id, Swerve(m2, draw.turnY));
      PutLookup(Put(s2, id, Swerve(m2, draw.turnY)), id, Retimed(dc2, timestamp));
    } else {
      assert Steered(s, id, m, dc, enemyPos, timestamp, draw).store == s;
    }
  }

  /** `SurvivorProbe` for the store after steering and arming. */
  lemma SteeredSurvivor(s: Store, id: EntityId, enemy: Component, m: Component, dc: Component,
                        enemyPos: Box, timestamp: real, draw: EnemyDraw)
    requires Below(s) && m.Movement? && dc.DirectionChange? && draw.InRange()
    requires Lookup(s, id, MovementTag) == Some(m) && Lookup(s, id, DirectionChangeTag) == Some(dc)
    requires PositionOf(s, id) == Some(enemyPos)
    ensures var st := Steered(s, id, m, dc, enemyPos, timestamp, draw);
      var r := Aimed(st.store, id, enemy, timestamp);
      && Lookup(r, id, MovementTag) == Lookup(st.store, id, MovementTag)
      && Lookup(r, id, DirectionChangeTag) == Lookup(st.store, id, DirectionChangeTag)
      && Lookup(r, id, TankTag) ==
           (if enemy.Tank? && timestamp - enemy.lastShot > enemy.shootCooldown
            then Some(enemy.(isShooting := true, lastShot := timestamp)) else Lookup(s, id, TankTag))
      && PositionOf(r, id) == Some(enemyPos)
  {
    var st := Steered(s, id, m, dc, enemyPos, timestamp, draw);
    SteeredFramed(s, id, m, dc, enemyPos, timestamp, draw);
    SteeredKeys(s, id, m, dc, enemyPos, timestamp, draw);
    SteerAimed(s, st.store, id, enemy, timestamp, enemyPos);
  }

  /** Arming after a step that wrote at most the steering records of `id`. */
  lemma SteerAimed(s: Store, st: Store, id: EntityId, enemy: Component, timestamp: real, enemyPos: Box)
    requires Framed(s, st, {(id, MovementTag), (id, DirectionChangeTag)}) && st.entities.Keys == s.entities.Keys
    requires PositionOf(s, id) == Some(enemyPos)
    ensures var r := Aimed(st, id, enemy, timestamp);
      && Lookup(r, id, MovementTag) == Lookup(st, id, MovementTag)
      && Lookup(r, id, DirectionChangeTag) == Lookup(st, id, DirectionChangeTag)
      && Lookup(r, id, TankTag) ==
           (if enemy.Tank? && timestamp - enemy.lastShot > enemy.shootCooldown
            then Some(enemy.(isShooting := true, lastShot := timestamp)) else Lookup(s, id, TankTag))
      && PositionOf(r, id) == Some(enemyPos)
  {
    assert id in s.entities && id in st.entities;
    assert Lookup(st, id, TankTag) == Lookup(s, id, TankTag);
    assert Lookup(st, id, PositionTag) == Lookup(s, id, PositionTag);
    AimedLookup(st, id, enemy, timestamp);
  }

  /** An enemy that survives its probe steered without throwing, and only its gun was touched after that. */
  lemma ProbeSurvivor(s: Store, playerId: EntityId, id: EntityId, enemy: Component, m: Component, dc: Component,
                      enemyPos: Box, timestamp: real, draw: EnemyDraw)
    requires m.Movement? && dc.DirectionChange? && draw.InRange()
    ensures var step := Probe(s, playerId, id, enemy, m, dc, enemyPos, timestamp, draw);
      var st := Steered(s, id, m, dc, enemyPos, timestamp, draw);
      step.outcome.Ok? && id in step.outcome.store.entities ==>
        st.Ok? && step == Step(Ok(Aimed(st.store, id, enemy, timestamp)), [])
  {
    var st := Steered(s, id, m, dc, enemyPos, timestamp, draw);
    if st.Ok? {
      ContactSurvivor(Aimed(st.store, id, enemy, timestamp), playerId, id, enemyPos, timestamp);
    }
  }

  /** Arming the gun writes the `Tank` slot of `id` only. */
  lemma AimedLookup(s: Store, id: EntityId, enemy: Component, timestamp: real)
    requires id in s.entities
    ensures var r := Aimed(s, id, enemy, timestamp);
      && r.entities.Keys == s.entities.Keys
      && Lookup(r, id, MovementTag) == Lookup(s, id, MovementTag)
      && Lookup(r, id, DirectionChangeTag) == Lookup(s, id, DirectionChangeTag)
      && PositionOf(r, id) == PositionOf(s, id)
      && Lookup(r, id, TankTag) ==
           (if enemy.Tank? && timestamp - enemy.lastShot > enemy.shootCooldown
            then Some(enemy.(isShooting := true, lastShot := timestamp)) else Lookup(s, id, TankTag))
  {
    if enemy.Tank? {
      PutLookup(s, id, enemy.(isShooting := true, lastShot := timestamp));
    }
  }

  /**
   * The enemy pass as a whole. Without a `Player` it throws exactly when
   * there is a tank, and changes nothing. With one, it keeps the store well
   * formed, schedules only the player's removal 1 s later, and of the
   * entities that stay it changes only the `Movement`, `DirectionChange`
   * and `Tank` of tanks other than the player and the player's `Health`:
   * no position, score, wall or powerup is written.
   */
  lemma EnemiesUpdatedEffect(s: Store, timestamp: real, draws: nat -> EnemyDraw)
    requires WellFormed(s) && forall k :: draws(k).InRange()
    ensures var step := EnemiesUpdated(s, timestamp, draws);
      var r := step.outcome.store;
      && WellFormed(r)
      && s.nextId <= r.nextId && (forall e :: e in r.entities && e !in s.entities ==> s.nextId <= e)
      && (PlayerId(s).None? ==> r == s && step.scheduled == [] && (step.outcome.Fault? <==> Query(s, TankTag) != []))
      && (forall rm :: rm in step.scheduled ==> PlayerId(s).Some? && rm == Removal(PlayerId(s).value, 1000.0))
      && EnemiesTouched(s, r)
  {
    match PlayerId(s) {
      case None =>
        FramedSame(s);
      case Some(playerId) =>
        var enemies := Others(Query(s, TankTag), playerId);
        var r := EnemiesFrom(s, playerId, enemies, 0, timestamp, draws).outcome.store;
        EnemiesFromKeeps(s, playerId, enemies, 0, timestamp, draws);
        EnemiesFromFrame(s, playerId, enemies, 0, timestamp, draws);
        TouchedTanks(s, r, playerId);
    }
  }

  /**
   * Of the entities of `s` still in `r`, only the player's `Health` and the
   * `Movement`, `DirectionChange` and `Tank` of the other tanks differ.
   */
  predicate EnemiesTouched(s: Store, r: Store) {
    forall e, t :: e in s.entities && e in r.entities && Lookup(r, e, t) != Lookup(s, e, t) ==>
      PlayerId(s).Some? &&
      if e == PlayerId(s).value then t == HealthTag
      else Holds(s, e, TankTag) && (t == MovementTag || t == DirectionChangeTag || t == TankTag)
  }

  /** A store framed by the enemy pass differs from `s` only on tanks other than the player and on the player's `Health`. */
  lemma TouchedTanks(s: Store, r: Store, playerId: EntityId)
    requires PlayerId(s) == Some(playerId)
    requires Framed(s, r, SteeringFrom(Others(Query(s, TankTag), playerId), 0) + {(playerId, HealthTag)})
    ensures EnemiesTouched(s, r)
  {
    var enemies := Others(Query(s, TankTag), playerId);
    OthersMembers(Query(s, TankTag), playerId);
    forall e, t | e in s.entities && e in r.entities && Lookup(r, e, t) != Lookup(s, e, t)
      ensures if e == playerId then t == HealthTag
              else Holds(s, e, TankTag) && (t == MovementTag || t == DirectionChangeTag || t == TankTag)
    {
      if (e, t) != (playerId, HealthTag) {
        SteeringFromTags(enemies, 0, e, t);
        var k :| 0 <= k < |enemies| && enemies[k].0 == e;
        assert enemies[k] in Query(s, TankTag);
      }
    }
  }
}
