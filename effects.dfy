/**
 * The module-level helpers of the systems (src/games/systems.ts): the two
 * random choosers and the two entity factories used when something blows up.
 * Each `Math.random()` value is a parameter `r` with 0 <= r < 1.
 */
module Effects {
  import opened Components
  import opened Constants
  import opened Worlds
  import opened Util

  /**
   * `setTimeout(() => world.removeEntity(entityId), delay)`: a removal the
   * pass schedules but does not perform.
   */
  datatype Removal = Removal(entityId: EntityId, delay: real)

  /** How a pass ends, with the removals it scheduled up to that point. */
  datatype Step = Step(outcome: Outcome, scheduled: seq<Removal>)

  /**
   * One entry of a loop over a snapshot, then the entries after it: a throw
   * ends the loop there, otherwise the removals of both add up in order.
   */
  function Then(step: Step, rest: Step): (r: Step)
    ensures step.outcome.Fault? ==> r == step
    ensures step.outcome.Ok? ==> r.outcome == rest.outcome && r.scheduled == step.scheduled + rest.scheduled
  {
    if step.outcome.Fault? then step else Step(rest.outcome, step.scheduled + rest.scheduled)
  }

  /**
   * A loop that has queued `done` so far and will end as `total`: handling
   * one more entry moves its removals from the rest onto `done`.
   */
  lemma ThenQueued(step: Step, rest: Step, done: seq<Removal>, total: Step)
    requires total == Step(Then(step, rest).outcome, done + Then(step, rest).scheduled)
    ensures step.outcome.Fault? ==> total == Step(step.outcome, done + step.scheduled)
    ensures step.outcome.Ok? ==> total == Step(rest.outcome, (done + step.scheduled) + rest.scheduled)
  {
    assert done + (step.scheduled + rest.scheduled) == (done + step.scheduled) + rest.scheduled;
  }

  /** `tanks.filter(([entityId]) => entityId !== playerId)`. */
  function Others(tanks: seq<(EntityId, Component)>, playerId: EntityId): seq<(EntityId, Component)> {
    if tanks == [] then []
    else (if tanks[0].0 != playerId then [tanks[0]] else []) + Others(tanks[1..], playerId)
  }

  /** The filter keeps exactly the entries of other entities. */
  lemma {:induction false} OthersMembers(tanks: seq<(EntityId, Component)>, playerId: EntityId)
    ensures forall p :: p in Others(tanks, playerId) <==> p in tanks && p.0 != playerId
  {
    if tanks != [] {
      OthersMembers(tanks[1..], playerId);
      assert tanks == [tanks[0]] + tanks[1..];
    }
  }

  /** Filtering a snapshot with one more entry at the end. */
  lemma {:induction false} OthersSnoc(tanks: seq<(EntityId, Component)>, x: (EntityId, Component), playerId: EntityId)
    ensures Others(tanks + [x], playerId) == Others(tanks, playerId) + (if x.0 != playerId then [x] else [])
  {
    if tanks != [] {
      assert (tanks + [x])[1..] == tanks[1..] + [x];
      OthersSnoc(tanks[1..], x, playerId);
    }
  }

  /** The filter keeps the order: increasing ids stay increasing. */
  lemma {:induction false} OthersAscending(tanks: seq<(EntityId, Component)>, playerId: EntityId)
    requires Ascending(tanks)
    ensures Ascending(Others(tanks, playerId))
  {
    if tanks != [] {
      assert Ascending(tanks[1..]) by {
        forall a, b | 0 <= a < b < |tanks[1..]| ensures tanks[1..][a].0 < tanks[1..][b].0 {
          assert tanks[1..][a] == tanks[a + 1] && tanks[1..][b] == tanks[b + 1];
        }
      }
      OthersAscending(tanks[1..], playerId);
      OthersMembers(tanks[1..], playerId);
      var rest := Others(tanks[1..], playerId);
      if tanks[0].0 != playerId {
        forall k | 0 <= k < |rest| ensures tanks[0].0 < rest[k].0 {
          assert rest[k] in tanks[1..];
          var j :| 0 <= j < |tanks[1..]| && tanks[1..][j] == rest[k];
          assert tanks[1..][j] == tanks[j + 1];
        }
        AscendingCons(tanks[0], rest);
      }
    }
  }

  /** `randomDirection()`: `["up", "down", "left", "right"][floor(r * 4)]`. */
  function RandomDirection(r: real): (d: Direction)
    requires Unit(r)
    ensures d == Up <==> r < 0.25
    ensures d == Down <==> 0.25 <= r < 0.5
    ensures d == Left <==> 0.5 <= r < 0.75
    ensures d == Right <==> 0.75 <= r
  {
    [Up, Down, Left, Right][(r * 4.0).Floor]
  }

  /** `randomCooldown()`: uniform on [1000, 3000) milliseconds. */
  function RandomCooldown(r: real): (c: real)
    requires Unit(r)
    ensures 1000.0 <= c < 3000.0
  {
    1000.0 + r * 2000.0
  }

  /** The powerup kind `createPowerup` picks: `["helmet", "star", "tank"][floor(r * 3)]`. */
  function RandomPowerup(r: real): (p: PowerupType)
    requires Unit(r)
    ensures p == Helmet <==> 3.0 * r < 1.0
    ensures p == Star <==> 1.0 <= 3.0 * r < 2.0
    ensures p == ExtraLife <==> 2.0 <= 3.0 * r
  {
    [Helmet, Star, ExtraLife][(r * 3.0).Floor]
  }

  /**
   * The components of `createExplosion(world, owner, pos, timestamp, isSmall)`:
   * an animation of 8 (small) or 12 frames, and a box of half the size whose
   * corner is the centre of `pos`.
   */
  function ExplosionParts(owner: EntityId, pos: Box, timestamp: real, isSmall: bool): seq<Component> {
    [ Explosion(0, if isSmall then 8 else 12, EXPLOSION_FRAME_TIME, timestamp, owner),
      Position(pos.x + pos.width / 2.0, pos.y + pos.height / 2.0, pos.width * 0.5, pos.height * 0.5) ]
  }

  /** `createExplosion`. */
  function Exploded(s: Store, owner: EntityId, pos: Box, timestamp: real, isSmall: bool): Store {
    Spawn(s, ExplosionParts(owner, pos, timestamp, isSmall))
  }

  /** The components of `createPowerup(world, pos, timestamp)`: a tile-sized box at `pos` and a 10 s powerup. */
  function PowerupParts(pos: Box, timestamp: real, r: real): seq<Component>
    requires Unit(r)
  {
    [ Position(pos.x, pos.y, TILE_SIZE as real, TILE_SIZE as real),
      Powerup(RandomPowerup(r), POWERUP_DURATION, timestamp) ]
  }

  /** `createPowerup`. */
  function Dropped(s: Store, pos: Box, timestamp: real, r: real): Store
    requires Unit(r)
  {
    Spawn(s, PowerupParts(pos, timestamp, r))
  }

  /**
   * An explosion is one new entity, the counter, holding exactly an
   * `Explosion` owned by `owner` at frame 0 and a `Position`; every other
   * entity is as it was.
   */
  lemma ExplodedEffect(s: Store, owner: EntityId, pos: Box, timestamp: real, isSmall: bool)
    ensures Exploded(s, owner, pos, timestamp, isSmall).nextId == s.nextId + 1
    ensures Exploded(s, owner, pos, timestamp, isSmall).entities ==
      s.entities[s.nextId := map[
        ExplosionTag := Explosion(0, if isSmall then 8 else 12, EXPLOSION_FRAME_TIME, timestamp, owner),
        PositionTag := Position(pos.x + pos.width / 2.0, pos.y + pos.height / 2.0, pos.width / 2.0, pos.height / 2.0)]]
  {
    var cs := ExplosionParts(owner, pos, timestamp, isSmall);
    assert cs[1..] == [cs[1]] && cs[1..][1..] == [];
    assert AddAll(map[], cs) == AddAll(map[ExplosionTag := cs[0]], [cs[1]]);
  }

  /**
   * A dropped powerup is one new entity, the counter, holding exactly a
   * 32x32 `Position` at `pos` and a `Powerup` that lasts 10 s from
   * `timestamp`; every other entity is as it was.
   */
  lemma DroppedEffect(s: Store, pos: Box, timestamp: real, r: real)
    requires Unit(r)
    ensures Dropped(s, pos, timestamp, r).nextId == s.nextId + 1
    ensures Dropped(s, pos, timestamp, r).entities ==
      s.entities[s.nextId := map[
        PositionTag := Position(pos.x, pos.y, 32.0, 32.0),
        PowerupTag := Powerup(RandomPowerup(r), 10000.0, timestamp)]]
  {
    var cs := PowerupParts(pos, timestamp, r);
    assert cs[1..] == [cs[1]] && cs[1..][1..] == [];
    assert AddAll(map[], cs) == AddAll(map[PositionTag := cs[0]], [cs[1]]);
    assert [cs[1]][1..] == [];
    assert AddAll(map[PositionTag := cs[0]], [cs[1]]) == AddAll(map[PositionTag := cs[0], PowerupTag := cs[1]], []);
    assert (TILE_SIZE as real) == 32.0;
  }

  /** `createExplosion(world, owner, pos, timestamp, isSmall)`. */
  method CreateExplosion(world: World, owner: EntityId, pos: Box, timestamp: real, isSmall: bool)
    modifies world
    ensures world.State() == Exploded(old(world.State()), owner, pos, timestamp, isSmall)
  {
    SpawnByCreateAndAdd(world.State(), ExplosionParts(owner, pos, timestamp, isSmall));
    var explosionId := world.CreateEntity();
    world.AddComponents(explosionId, [
      Explosion(0, if isSmall then 8 else 12, EXPLOSION_FRAME_TIME, timestamp, owner),
      Position(pos.x + pos.width / 2.0, pos.y + pos.height / 2.0, pos.width * 0.5, pos.height * 0.5)]);
  }

  /** `createPowerup(world, pos, timestamp)`, with `r` the value of `Math.random()`. */
  method CreatePowerup(world: World, pos: Box, timestamp: real, r: real)
    requires Unit(r)
    modifies world
    ensures world.State() == Dropped(old(world.State()), pos, timestamp, r)
  {
    SpawnByCreateAndAdd(world.State(), PowerupParts(pos, timestamp, r));
    var powerupId := world.CreateEntity();
    var kind := [Helmet, Star, ExtraLife][(r * 3.0).Floor];
    world.AddComponents(powerupId, [
      Position(pos.x, pos.y, TILE_SIZE as real, TILE_SIZE as real),
      Powerup(kind, POWERUP_DURATION, timestamp)]);
  }
}
