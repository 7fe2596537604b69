/**
 * `ShootingSystem` (src/games/systems.ts): every tank that asked to shoot and
 * whose cooldown has run out fires one bullet from the middle of its facing
 * side, then clears its request and restarts its cooldown.
 */
module Shooting {
  import opened Wrappers
  import opened Components
  import opened Worlds
  import opened Util

  const BULLET_SIZE: real := 8.0

  /** The 8×8 box of a bullet fired from `p` towards `d`, centred on that side. */
  function Muzzle(p: Box, d: Direction): Box {
    match d
    case Up => Position(p.x + p.width / 2.0 - BULLET_SIZE / 2.0, p.y - BULLET_SIZE, BULLET_SIZE, BULLET_SIZE)
    case Down => Position(p.x + p.width / 2.0 - BULLET_SIZE / 2.0, p.y + p.height, BULLET_SIZE, BULLET_SIZE)
    case Left => Position(p.x - BULLET_SIZE, p.y + p.height / 2.0 - BULLET_SIZE / 2.0, BULLET_SIZE, BULLET_SIZE)
    case Right => Position(p.x + p.width, p.y + p.height / 2.0 - BULLET_SIZE / 2.0, BULLET_SIZE, BULLET_SIZE)
  }

  /**
   * The bullet box touches the tank along the facing side, is centred on it,
   * and does not overlap the tank.
   */
  lemma MuzzleFlush(p: Box, d: Direction)
    ensures var b := Muzzle(p, d);
      && b.width == 8.0 && b.height == 8.0
      && !CheckCollision(b, p)
      && (d == Up ==> b.y + b.height == p.y && b.x + b.width / 2.0 == p.x + p.width / 2.0)
      && (d == Down ==> b.y == p.y + p.height && b.x + b.width / 2.0 == p.x + p.width / 2.0)
      && (d == Left ==> b.x + b.width == p.x && b.y + b.height / 2.0 == p.y + p.height / 2.0)
      && (d == Right ==> b.x == p.x + p.width && b.y + b.height / 2.0 == p.y + p.height / 2.0)
  {
  }

  /** The components of the bullet `entityId` fires: speed 5 for the player, 4 otherwise, damage 1. */
  function BulletParts(owner: EntityId, p: Box, d: Direction, isPlayer: bool): seq<Component> {
    [Muzzle(p, d), Movement(if isPlayer then 5.0 else 4.0, d), Bullet(owner, 1)]
  }

  /** Whether the snapshot entry `(id, tank)` fires at `currentTime`. */
  predicate Fires(s: Store, id: EntityId, tank: Component, currentTime: real) {
    && tank.Tank? && tank.isShooting
    && !(currentTime - tank.lastShot < tank.shootCooldown)
    && PositionOf(s, id).Some?
    && Lookup(s, id, MovementTag).Some? && Lookup(s, id, MovementTag).value.Movement?
  }

  /** The tank record after the pass: reset and restarted when it fired, as it was otherwise. */
  function AfterShot(s: Store, id: EntityId, tank: Component, currentTime: real): Component {
    if Fires(s, id, tank, currentTime) then tank.(isShooting := false, lastShot := currentTime) else tank
  }

  /** The body of the loop for the snapshot entry `(id, tank)`. */
  function ShootOne(s: Store, playerId: EntityId, id: EntityId, tank: Component, currentTime: real): Store {
    if Fires(s, id, tank, currentTime) then
      var p := PositionOf(s, id).value;
      var d := Lookup(s, id, MovementTag).value.direction;
      Put(Spawn(s, BulletParts(id, p, d, id == playerId)), id, AfterShot(s, id, tank, currentTime))
    else s
  }

  function ShootFrom(s: Store, tanks: seq<(EntityId, Component)>, i: nat, playerId: EntityId, currentTime: real): Store
    decreases |tanks| - i
  {
    if i >= |tanks| then s
    else ShootFrom(ShootOne(s, playerId, tanks[i].0, tanks[i].1, currentTime), tanks, i + 1, playerId, currentTime)
  }

  /** `ShootingSystem.update(currentTime)`: throws when the root holds no `Player`. */
  function Shot(s: Store, currentTime: real): Outcome {
    var tanks := Query(s, TankTag);
    match PlayerId(s)
    case None => Fault(s)
    case Some(playerId) => Ok(ShootFrom(s, tanks, 0, playerId, currentTime))
  }

  /**
   * One entry: a tank that fires adds one fresh entity holding exactly the
   * bullet box, a `Movement` in its direction and `Bullet(id, 1)`, and its
   * own record is reset; otherwise nothing changes.
   */
  lemma ShootOneEffect(s: Store, playerId: EntityId, id: EntityId, tank: Component, currentTime: real)
    requires Below(s)
    ensures var r := ShootOne(s, playerId, id, tank, currentTime);
      && (!Fires(s, id, tank, currentTime) ==> r == s)
      && (Fires(s, id, tank, currentTime) ==>
            var p := PositionOf(s, id).value;
            var d := Lookup(s, id, MovementTag).value.direction;
            && r.nextId == s.nextId + 1 && r.order == s.order + [s.nextId]
            && r.entities == s.entities[id := s.entities[id][TankTag := tank.(isShooting := false, lastShot := currentTime)]]
                                       [s.nextId := map[PositionTag := Muzzle(p, d),
                                                        MovementTag := Movement(if id == playerId then 5.0 else 4.0, d),
                                                        BulletTag := Bullet(id, 1)]])
  {
    if Fires(s, id, tank, currentTime) {
      var p := PositionOf(s, id).value;
      var d := Lookup(s, id, MovementTag).value.direction;
      var cs := BulletParts(id, p, d, id == playerId);
      assert cs[1..] == [cs[1], cs[2]] && [cs[1], cs[2]][1..] == [cs[2]] && [cs[2]][1..] == [];
      calc {
        AddAll(map[], cs);
        AddAll(map[PositionTag := cs[0]], [cs[1], cs[2]]);
        AddAll(map[PositionTag := cs[0], MovementTag := cs[1]], [cs[2]]);
        AddAll(map[PositionTag := cs[0], MovementTag := cs[1], BulletTag := cs[2]], []);
      }
    }
  }

  /** One entry keeps the store well formed. */
  lemma ShootOneKeeps(s: Store, playerId: EntityId, id: EntityId, tank: Component, currentTime: real)
    requires WellFormed(s)
    ensures WellFormed(ShootOne(s, playerId, id, tank, currentTime))
  {
    if Fires(s, id, tank, currentTime) {
      var p := PositionOf(s, id).value;
      var d := Lookup(s, id, MovementTag).value.direction;
      var cs := BulletParts(id, p, d, id == playerId);
      SpawnKeeps(s, cs);
      PutKeeps(Spawn(s, cs), id, AfterShot(s, id, tank, currentTime));
    }
  }

  /** What one entry does, seen from the existing entities and the new one. */
  lemma ShootOneFrame(s: Store, playerId: EntityId, id: EntityId, tank: Component, currentTime: real)
    requires Below(s)
    ensures var r := ShootOne(s, playerId, id, tank, currentTime);
      && Below(r) && s.nextId <= r.nextId
      && (forall e :: e in s.entities ==> e in r.entities)
      && (forall e, t :: e in s.entities ==>
            Lookup(r, e, t) == if e == id && t == TankTag && Fires(s, id, tank, currentTime)
                               then Some(AfterShot(s, id, tank, currentTime)) else Lookup(s, e, t))
      && (forall e :: e in r.entities && e !in s.entities ==>
            && Holds(r, e, PositionTag) && Holds(r, e, MovementTag)
            && Lookup(r, e, BulletTag) == Some(Bullet(id, 1)))
  {
    ShootOneEffect(s, playerId, id, tank, currentTime);
  }

  lemma {:induction false} ShootFromKeeps(s: Store, tanks: seq<(EntityId, Component)>, i: nat, playerId: EntityId, currentTime: real)
    requires WellFormed(s)
    ensures WellFormed(ShootFrom(s, tanks, i, playerId, currentTime))
    decreases |tanks| - i
  {
    if i < |tanks| {
      ShootOneKeeps(s, playerId, tanks[i].0, tanks[i].1, currentTime);
      ShootFromKeeps(ShootOne(s, playerId, tanks[i].0, tanks[i].1, currentTime), tanks, i + 1, playerId, currentTime);
    }
  }

  /** Existing entities stay and keep everything but their `Tank`; new entities are bullets. */
  lemma {:induction false} ShootFromFrame(s: Store, tanks: seq<(EntityId, Component)>, i: nat, playerId: EntityId, currentTime: real)
    requires Below(s)
    ensures var r := ShootFrom(s, tanks, i, playerId, currentTime);
      && Below(r) && s.nextId <= r.nextId
      && (forall e :: e in s.entities ==> e in r.entities)
      && (forall e, t :: e in s.entities && t != TankTag ==> Lookup(r, e, t) == Lookup(s, e, t))
      && (forall e :: e in r.entities && e !in s.entities ==>
            && Holds(r, e, PositionTag) && Holds(r, e, MovementTag)
            && Lookup(r, e, BulletTag).Some? && Lookup(r, e, BulletTag).value.Bullet?
            && (exists j :: i <= j < |tanks| && tanks[j].0 == Lookup(r, e, BulletTag).value.ownerId)
            && Lookup(r, e, BulletTag).value.damage == 1)
    decreases |tanks| - i
  {
    if i < |tanks| {
      ShootOneFrame(s, playerId, tanks[i].0, tanks[i].1, currentTime);
      var s1 := ShootOne(s, playerId, tanks[i].0, tanks[i].1, currentTime);
      ShootFromFrame(s1, tanks, i + 1, playerId, currentTime);
      var r := ShootFrom(s1, tanks, i + 1, playerId, currentTime);
      forall e | e in r.entities && e !in s.entities
        ensures Lookup(r, e, BulletTag).Some? && Lookup(r, e, BulletTag).value.Bullet?
        ensures exists j :: i <= j < |tanks| && tanks[j].0 == Lookup(r, e, BulletTag).value.ownerId
      {
        if e in s1.entities {
          assert Lookup(r, e, BulletTag) == Lookup(s1, e, BulletTag);
          assert tanks[i].0 == Lookup(r, e, BulletTag).value.ownerId;
        } else {
          var j :| i + 1 <= j < |tanks| && tanks[j].0 == Lookup(r, e, BulletTag).value.ownerId;
        }
      }
    }
  }

  /**
   * Over a snapshot whose ids increase and whose entries are current, the
   * listed tank `tanks[k]` ends up as `AfterShot` says.
   */
  lemma {:induction false} ShootFromListed(s: Store, tanks: seq<(EntityId, Component)>, i: nat, k: nat, playerId: EntityId, currentTime: real)
    requires Below(s) && i <= k < |tanks|
    requires forall a, b :: i <= a < b < |tanks| ==> tanks[a].0 < tanks[b].0
    requires forall j :: i <= j < |tanks| ==> Lookup(s, tanks[j].0, TankTag) == Some(tanks[j].1)
    ensures Lookup(ShootFrom(s, tanks, i, playerId, currentTime), tanks[k].0, TankTag) ==
            Some(AfterShot(s, tanks[k].0, tanks[k].1, currentTime))
    decreases |tanks| - i
  {
    var (id, tank) := tanks[i];
    var s1 := ShootOne(s, playerId, id, tank, currentTime);
    assert ShootFrom(s, tanks, i, playerId, currentTime) == ShootFrom(s1, tanks, i + 1, playerId, currentTime);
    if k == i {
      ShootOneFrame(s, playerId, id, tank, currentTime);
      ShootFromUnlisted(s1, tanks, i + 1, id, playerId, currentTime);
    } else {
      var e := tanks[k].0;
      forall j | i + 1 <= j < |tanks| ensures Lookup(s1, tanks[j].0, TankTag) == Some(tanks[j].1) {
        assert tanks[i].0 < tanks[j].0;
        ShootOneOther(s, playerId, id, tank, currentTime, tanks[j].0);
      }
      ShootOneOther(s, playerId, id, tank, currentTime, e);
      ShootFromListed(s1, tanks, i + 1, k, playerId, currentTime);
      assert Fires(s1, e, tanks[k].1, currentTime) == Fires(s, e, tanks[k].1, currentTime);
    }
  }

  /** An existing entity other than the shooter keeps every record through one entry. */
  lemma ShootOneOther(s: Store, playerId: EntityId, id: EntityId, tank: Component, currentTime: real, e: EntityId)
    requires Below(s) && e in s.entities && e != id
    ensures var r := ShootOne(s, playerId, id, tank, currentTime);
      Below(r) && e in r.entities && forall t :: Lookup(r, e, t) == Lookup(s, e, t)
  {
    ShootOneFrame(s, playerId, id, tank, currentTime);
  }

  /** A `Tank` of an existing entity the rest of the snapshot does not list is kept. */
  lemma {:induction false} ShootFromUnlisted(s: Store, tanks: seq<(EntityId, Component)>, i: nat, e: EntityId, playerId: EntityId, currentTime: real)
    requires Below(s) && e in s.entities
    requires forall j :: i <= j < |tanks| ==> tanks[j].0 != e
    ensures Lookup(ShootFrom(s, tanks, i, playerId, currentTime), e, TankTag) == Lookup(s, e, TankTag)
    decreases |tanks| - i
  {
    if i < |tanks| {
      ShootOneFrame(s, playerId, tanks[i].0, tanks[i].1, currentTime);
      ShootFromUnlisted(ShootOne(s, playerId, tanks[i].0, tanks[i].1, currentTime), tanks, i + 1, e, playerId, currentTime);
    }
  }

  /**
   * `ShootingSystem.update`: throws exactly when there is no `Player`;
   * otherwise each tank's record becomes `AfterShot`, nothing else of an
   * existing entity changes, and each new entity is a bullet.
   */
  lemma ShotEffect(s: Store, currentTime: real)
    requires WellFormed(s)
    ensures Shot(s, currentTime).Fault? <==> PlayerId(s).None?
    ensures Shot(s, currentTime).Fault? ==> Shot(s, currentTime).store == s
    ensures WellFormed(Shot(s, currentTime).store)
    ensures var r := Shot(s, currentTime).store;
      Shot(s, currentTime).Ok? ==>
      && (forall e :: e in s.entities ==> e in r.entities)
      && (forall e, t :: e in s.entities ==>
            Lookup(r, e, t) == if t == TankTag && Lookup(s, e, t).Some?
                               then Some(AfterShot(s, e, Lookup(s, e, t).value, currentTime))
                               else Lookup(s, e, t))
      && (forall e :: e in r.entities && e !in s.entities ==>
            && Holds(r, e, PositionTag) && Holds(r, e, MovementTag)
            && Lookup(r, e, BulletTag).Some? && Lookup(r, e, BulletTag).value.Bullet?
            && Holds(s, Lookup(r, e, BulletTag).value.ownerId, TankTag)
            && Lookup(r, e, BulletTag).value.damage == 1)
  {
    if PlayerId(s).Some? {
      var tanks := Query(s, TankTag);
      var playerId := PlayerId(s).value;
      QueryComplete(s, TankTag);
      ShootFromKeeps(s, tanks, 0, playerId, currentTime);
      ShootFromFrame(s, tanks, 0, playerId, currentTime);
      var r := ShootFrom(s, tanks, 0, playerId, currentTime);
      assert Shot(s, currentTime).store == r;
      forall e | e in s.entities
        ensures Lookup(r, e, TankTag) == if Lookup(s, e, TankTag).Some?
                                         then Some(AfterShot(s, e, Lookup(s, e, TankTag).value, currentTime))
                                         else Lookup(s, e, TankTag)
      {
        if Lookup(s, e, TankTag).Some? {
          assert Holds(s, e, TankTag);
          var k :| 0 <= k < |tanks| && tanks[k].0 == e;
          ShootFromListed(s, tanks, 0, k, playerId, currentTime);
        } else {
          forall j | 0 <= j < |tanks| ensures tanks[j].0 != e {
            assert Lookup(s, tanks[j].0, TankTag) == Some(tanks[j].1);
          }
          ShootFromUnlisted(s, tanks, 0, e, playerId, currentTime);
        }
      }
      forall e, t | e in s.entities
        ensures Lookup(r, e, t) == if t == TankTag && Lookup(s, e, t).Some?
                                   then Some(AfterShot(s, e, Lookup(s, e, t).value, currentTime))
                                   else Lookup(s, e, t)
      {
        if t != TankTag {
          assert Lookup(r, e, t) == Lookup(s, e, t);
        }
      }
      forall e | e in r.entities && e !in s.entities
        ensures Holds(s, Lookup(r, e, BulletTag).value.ownerId, TankTag)
      {
        var j :| 0 <= j < |tanks| && tanks[j].0 == Lookup(r, e, BulletTag).value.ownerId;
        assert Lookup(s, tanks[j].0, TankTag) == Some(tanks[j].1);
      }
    }
  }

  class ShootingSystem {
    const world: World

    constructor (world: World)
      ensures this.world == world
    {
      this.world := world;
    }

    /** `update(currentTime)`: returns whether it threw. */
    method Update(currentTime: real) returns (crashed: bool)
      modifies world
      ensures world.State() == Shot(old(world.State()), currentTime).store
      ensures crashed == Shot(old(world.State()), currentTime).Fault?
    {
      var tanks := world.GetComponents(TankTag);
      var player := world.GetComponent(world.id, PlayerTag);
      if player.None? || !player.value.Player? {
        return true;
      }
      var playerId := player.value.id;
      for i := 0 to |tanks|
        invariant ShootFrom(world.State(), tanks, i, playerId, currentTime) == ShootFrom(old(world.State()), tanks, 0, playerId, currentTime)
      {
        var (entityId, tank) := tanks[i];
        Shoot(playerId, entityId, tank, currentTime);
      }
      crashed := false;
    }

    /** The loop body for the snapshot entry `(entityId, tank)`. */
    method Shoot(playerId: EntityId, entityId: EntityId, tank: Component, currentTime: real)
      modifies world
      ensures world.State() == ShootOne(old(world.State()), playerId, entityId, tank, currentTime)
    {
      if !tank.Tank? || !tank.isShooting {
        return;
      }
      if currentTime - tank.lastShot < tank.shootCooldown {
        return;
      }
      var position := world.GetComponent(entityId, PositionTag);
      if position.None? || !position.value.Position? {
        return;
      }
      var movement := world.GetComponent(entityId, MovementTag);
      if movement.None? || !movement.value.Movement? {
        return;
      }
      var isPlayer := playerId == entityId;
      var bullet := Muzzle(position.value, movement.value.direction);
      SpawnByCreateAndAdd(world.State(), BulletParts(entityId, position.value, movement.value.direction, isPlayer));
      var bulletId := world.CreateEntity();
      world.AddComponents(bulletId, [bullet, Movement(if isPlayer then 5.0 else 4.0, movement.value.direction), Bullet(entityId, 1)]);
      world.AddComponent(entityId, tank.(isShooting := false, lastShot := currentTime));
    }
  }
}
