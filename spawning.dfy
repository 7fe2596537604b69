/**
 * `EnemySpawnSystem` (src/games/systems.ts): every 3000 ms, while fewer than
 * five enemies are alive, one enemy tank is placed at one of three spawn
 * tiles on the top row, unless something already stands there.
 */
module Spawning {
  import opened Wrappers
  import opened Components
  import opened Constants
  import opened Worlds
  import opened Util
  import opened Effects

  /** Milliseconds between two spawn attempts. */
  const SPAWN_INTERVAL: real := 3000.0
  /** Enemies alive above which nothing spawns. */
  const MAX_ENEMIES: nat := 5

  /**
   * The `Math.random()` values of one spawn, in the order drawn: the spawn
   * point, the direction, the speed, the direction-change cooldown and the
   * shot cooldown.
   */
  datatype SpawnDraw = SpawnDraw(point: real, direction: real, speed: real, cooldown: real, shoot: real) {
    predicate InRange() {
      Unit(point) && Unit(direction) && Unit(speed) && Unit(cooldown) && Unit(shoot)
    }
  }

  /**
   * `spawnPoints[floor(r * 3)]` as a tile-sized box: the second column, the
   * second-to-last column and the middle column of the second row.
   */
  function SpawnTile(r: real): (box: Box)
    requires Unit(r)
    ensures box.y == 32.0 && box.width == 32.0 && box.height == 32.0
    ensures box.x == 32.0 <==> 3.0 * r < 1.0
    ensures box.x == 576.0 <==> 1.0 <= 3.0 * r < 2.0
    ensures box.x == 320.0 <==> 2.0 <= 3.0 * r
  {
    var points := [(TILE_SIZE, TILE_SIZE), ((GRID_WIDTH - 2) * TILE_SIZE, TILE_SIZE), ((GRID_WIDTH / 2) * TILE_SIZE, TILE_SIZE)];
    var point := points[(r * 3.0).Floor];
    Position(point.0 as real, point.1 as real, TILE_SIZE as real, TILE_SIZE as real)
  }

  /** Some positioned entity of the snapshot overlaps the spawn tile. */
  predicate Occupied(positions: seq<(EntityId, Component)>, box: Box) {
    exists k :: 0 <= k < |positions| && positions[k].1.Position? && CheckCollision(box, positions[k].1)
  }

  /** The components the new enemy gets, in the order they are added. */
  function EnemyParts(box: Box, draw: SpawnDraw): seq<Component>
    requires draw.InRange()
  {
    [ box,
      Movement(1.0 + draw.speed * 0.5, RandomDirection(draw.direction)),
      DirectionChange(RandomCooldown(draw.cooldown), 0.0),
      Tank("#F44336", 0.0, 1500.0 + draw.shoot * 1500.0),
      Health(1, 1) ]
  }

  /** `getComponents(Tank).filter(([entityId]) => entityId !== playerId)`. */
  function Enemies(s: Store, playerId: EntityId): seq<(EntityId, Component)> {
    Others(Query(s, TankTag), playerId)
  }

  /** `spawnEnemy()`. */
  function EnemySpawn(s: Store, draw: SpawnDraw): Outcome
    requires draw.InRange()
  {
    match PlayerId(s)
    case None => Fault(s)
    case Some(playerId) =>
      if |Enemies(s, playerId)| >= MAX_ENEMIES then Ok(s)
      else if Occupied(Query(s, PositionTag), SpawnTile(draw.point)) then Ok(s)
      else Ok(Spawn(s, EnemyParts(SpawnTile(draw.point), draw)))
  }

  /** What an update leaves: the store and the new `lastSpawnTime`. */
  datatype Spawner = Spawner(outcome: Outcome, lastSpawnTime: real)

  /**
   * `update(currentTime)` up to its level-advance block, which
   * `LevelAdvanceUnreachable` shows can never run.
   */
  function SpawnUpdated(s: Store, lastSpawnTime: real, currentTime: real, draw: SpawnDraw): Spawner
    requires draw.InRange()
  {
    match PlayerId(s)
    case None => Spawner(Fault(s), lastSpawnTime)
    case Some(playerId) =>
      if currentTime - lastSpawnTime > SPAWN_INTERVAL && |Enemies(s, playerId)| < MAX_ENEMIES then
        Spawner(EnemySpawn(s, draw), currentTime)
      else Spawner(Ok(s), lastSpawnTime)
  }

  /**
   * The enemy as it is filed: a new entity at the counter holding exactly
   * the five components, with a speed in [1, 1.5), a direction-change
   * cooldown in [1000, 3000) and a shot cooldown in [1500, 3000); every
   * other entity is as it was.
   */
  predicate Spawned(s: Store, r: Store, box: Box, draw: SpawnDraw)
    requires draw.InRange()
  {
    && r.nextId == s.nextId + 1 && r.order == s.order + [s.nextId]
    && r.entities == s.entities[s.nextId := map[
         PositionTag := box,
         MovementTag := Movement(1.0 + draw.speed * 0.5, RandomDirection(draw.direction)),
         DirectionChangeTag := DirectionChange(RandomCooldown(draw.cooldown), 0.0),
         TankTag := Tank("#F44336", 0.0, 1500.0 + draw.shoot * 1500.0),
         HealthTag := Health(1, 1)]]
  }

  lemma EnemyRanges(draw: SpawnDraw)
    requires draw.InRange()
    ensures 1.0 <= 1.0 + draw.speed * 0.5 < 1.5
    ensures 1500.0 <= 1500.0 + draw.shoot * 1500.0 < 3000.0
  {
  }

  /** Creating the enemy and adding its parts files exactly the five components. */
  lemma SpawnedParts(s: Store, box: Box, draw: SpawnDraw)
    requires draw.InRange()
    ensures Spawned(s, Spawn(s, EnemyParts(box, draw)), box, draw)
  {
    var cs := EnemyParts(box, draw);
    var m0: Table := map[];
    assert AddAll(m0, cs) == AddAll(m0[PositionTag := cs[0]], cs[1..]);
    var m1 := m0[PositionTag := cs[0]];
    assert AddAll(m1, cs[1..]) == AddAll(m1[MovementTag := cs[1]], cs[2..]);
    var m2 := m1[MovementTag := cs[1]];
    assert AddAll(m2, cs[2..]) == AddAll(m2[DirectionChangeTag := cs[2]], cs[3..]);
    var m3 := m2[DirectionChangeTag := cs[2]];
    assert AddAll(m3, cs[3..]) == AddAll(m3[TankTag := cs[3]], cs[4..]);
    var m4 := m3[TankTag := cs[3]];
    assert AddAll(m4, cs[4..]) == AddAll(m4[HealthTag := cs[4]], cs[5..]);
    assert cs[5..] == [];
  }

  /** A tile that is not occupied overlaps no positioned entity of the store. */
  lemma ClearTile(s: Store, box: Box)
    requires WellFormed(s) && !Occupied(Query(s, PositionTag), box)
    ensures forall e :: PositionOf(s, e).Some? ==> !CheckCollision(box, PositionOf(s, e).value)
  {
    QueryComplete(s, PositionTag);
    forall e | PositionOf(s, e).Some? ensures !CheckCollision(box, PositionOf(s, e).value) {
      assert Holds(s, e, PositionTag);
      var k :| 0 <= k < |Query(s, PositionTag)| && Query(s, PositionTag)[k].0 == e;
      assert Query(s, PositionTag)[k].1 == PositionOf(s, e).value;
    }
  }

  /** A spawn adds at most one enemy to the count (none if the counter is the player's stale id). */
  lemma SpawnCount(s: Store, box: Box, draw: SpawnDraw, playerId: EntityId)
    requires WellFormed(s) && draw.InRange() && PlayerId(s) == Some(playerId)
    ensures var r := Spawn(s, EnemyParts(box, draw));
      PlayerId(r) == Some(playerId) && |Enemies(r, playerId)| <= |Enemies(s, playerId)| + 1
  {
    var cs := EnemyParts(box, draw);
    var r := Spawn(s, cs);
    SpawnedParts(s, box, draw);
    assert Lookup(r, ROOT, PlayerTag) == Lookup(s, ROOT, PlayerTag);
    QuerySpawn(s, cs, TankTag);
    assert r.entities[s.nextId] == AddAll(map[], cs);
    assert TankTag in AddAll(map[], cs);
    OthersSnoc(Query(s, TankTag), (s.nextId, AddAll(map[], cs)[TankTag]), playerId);
  }

  /**
   * `spawnEnemy`: it throws exactly when there is no `Player`; otherwise it
   * spawns one enemy, with the five components and on the chosen tile,
   * exactly when fewer than five enemies are alive and no positioned entity
   * overlaps that tile, and leaves the store as it was when it does not.
   */
  lemma EnemySpawnEffect(s: Store, draw: SpawnDraw)
    requires WellFormed(s) && draw.InRange()
    ensures var o := EnemySpawn(s, draw);
      var box := SpawnTile(draw.point);
      && WellFormed(o.store)
      && (o.Fault? <==> PlayerId(s).None?)
      && match PlayerId(s)
         case None => o.store == s
         case Some(playerId) =>
           if |Enemies(s, playerId)| < MAX_ENEMIES && !Occupied(Query(s, PositionTag), box) then
             && Spawned(s, o.store, box, draw)
             && (forall e :: PositionOf(s, e).Some? ==> !CheckCollision(box, PositionOf(s, e).value))
             && |Enemies(o.store, playerId)| <= MAX_ENEMIES
           else o.store == s
  {
    var box := SpawnTile(draw.point);
    SpawnKeeps(s, EnemyParts(box, draw));
    SpawnedParts(s, box, draw);
    if PlayerId(s).Some? && !Occupied(Query(s, PositionTag), box) {
      ClearTile(s, box);
      SpawnCount(s, box, draw, PlayerId(s).value);
    }
  }

  /**
   * `EnemySpawnSystem.update`: it throws exactly when there is no `Player`,
   * leaving the store and `lastSpawnTime` as they were. Otherwise an enemy
   * is added only when more than 3000 ms have passed and fewer than five
   * enemies are alive, at most one, never above five; `lastSpawnTime` moves
   * to `currentTime` exactly then, also when the tile is occupied and
   * nothing spawns.
   */
  lemma SpawnUpdatedEffect(s: Store, lastSpawnTime: real, currentTime: real, draw: SpawnDraw)
    requires WellFormed(s) && draw.InRange()
    ensures var st := SpawnUpdated(s, lastSpawnTime, currentTime, draw);
      var r := st.outcome.store;
      && WellFormed(r)
      && (st.outcome.Fault? <==> PlayerId(s).None?)
      && match PlayerId(s)
         case None => r == s && st.lastSpawnTime == lastSpawnTime
         case Some(playerId) =>
           var due := currentTime - lastSpawnTime > SPAWN_INTERVAL && |Enemies(s, playerId)| < MAX_ENEMIES;
           && st.lastSpawnTime == (if due then currentTime else lastSpawnTime)
           && (r == s || (due && Spawned(s, r, SpawnTile(draw.point), draw)))
           && (due && Occupied(Query(s, PositionTag), SpawnTile(draw.point)) ==> r == s)
           && (due && !Occupied(Query(s, PositionTag), SpawnTile(draw.point)) ==> Spawned(s, r, SpawnTile(draw.point), draw))
           && PlayerId(r) == Some(playerId)
           && (|Enemies(s, playerId)| <= MAX_ENEMIES ==> |Enemies(r, playerId)| <= MAX_ENEMIES)
  {
    EnemySpawnEffect(s, draw);
    if PlayerId(s).Some? {
      var box := SpawnTile(draw.point);
      SpawnCount(s, box, draw, PlayerId(s).value);
    }
  }

  /**
   * The level-advance block of `update` can never run: when no enemy is
   * alive and more than twice the interval has passed, the spawn branch
   * has just set `lastSpawnTime` to `currentTime`.
   */
  lemma LevelAdvanceUnreachable(s: Store, lastSpawnTime: real, currentTime: real, draw: SpawnDraw, playerId: EntityId)
    requires draw.InRange() && PlayerId(s) == Some(playerId)
    ensures var st := SpawnUpdated(s, lastSpawnTime, currentTime, draw);
      !(|Enemies(s, playerId)| == 0 && currentTime - st.lastSpawnTime > SPAWN_INTERVAL * 2.0)
  {
  }

  class EnemySpawnSystem {
    var lastSpawnTime: real
    const world: World

    constructor (world: World)
      ensures this.world == world && lastSpawnTime == 0.0
    {
      this.world := world;
      lastSpawnTime := 0.0;
    }

    /** `update(currentTime)`, with the `Math.random()` values `draw`; returns whether it threw. */
    method Update(currentTime: real, draw: SpawnDraw) returns (crashed: bool)
      requires draw.InRange()
      modifies this, world
      ensures var st := SpawnUpdated(old(world.State()), old(lastSpawnTime), currentTime, draw);
        world.State() == st.outcome.store && lastSpawnTime == st.lastSpawnTime && crashed == st.outcome.Fault?
    {
      var root := world.GetComponent(world.id, PlayerTag);
      if root.None? || !root.value.Player? {
        return true;
      }
      var playerId := root.value.id;
      var tanks := world.GetComponents(TankTag);
      var enemies := Others(tanks, playerId);
      if currentTime - lastSpawnTime > SPAWN_INTERVAL && |enemies| < MAX_ENEMIES {
        crashed := SpawnEnemy(draw);
        if crashed {
          return;
        }
        lastSpawnTime := currentTime;
      }
      if |enemies| == 0 && currentTime - lastSpawnTime > SPAWN_INTERVAL * 2.0 {
        assert false;
      }
      crashed := false;
    }

    /** `spawnEnemy()`, with the `Math.random()` values `draw`; returns whether it threw. */
    method SpawnEnemy(draw: SpawnDraw) returns (crashed: bool)
      requires draw.InRange()
      modifies world
      ensures world.State() == EnemySpawn(old(world.State()), draw).store
      ensures crashed == EnemySpawn(old(world.State()), draw).Fault?
    {
      var root := world.GetComponent(world.id, PlayerTag);
      if root.None? || !root.value.Player? {
        return true;
      }
      var tanks := world.GetComponents(TankTag);
      var enemies := Others(tanks, root.value.id);
      if |enemies| >= MAX_ENEMIES {
        return false;
      }
      var spawnPoint := SpawnTile(draw.point);
      var positions := world.GetComponents(PositionTag);
      var i := 0;
      while i < |positions|
        invariant i <= |positions|
        invariant forall k :: 0 <= k < i ==> !(positions[k].1.Position? && CheckCollision(spawnPoint, positions[k].1))
        decreases |positions| - i
      {
        var (_, pos) := positions[i];
        if pos.Position? && CheckCollision(spawnPoint, pos) {
          return false;
        }
        i := i + 1;
      }
      SpawnByCreateAndAdd(world.State(), EnemyParts(spawnPoint, draw));
      var enemyId := world.CreateEntity();
      world.AddComponents(enemyId, EnemyParts(spawnPoint, draw));
      crashed := false;
    }
  }
}
