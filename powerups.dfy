/**
 * `PowerupSystem` (src/games/systems.ts): a powerup older than its duration
 * disappears; otherwise the player's tank collects it on contact, gets its
 * effect (`applyPowerup`) and the powerup is removed.
 */
module Powerups {
  import opened Wrappers
  import opened Components
  import opened Worlds
  import opened Util

  /** `Math.min` on integers. */
  function Min(a: int, b: int): (m: int)
    ensures m <= a && m <= b && (m == a || m == b)
  {
    if a < b then a else b
  }

  /** The slots a powerup may write: the collecting player's `Tank` and `Health`. */
  function BoostSlots(player: Option<EntityId>): set<(EntityId, Tag)> {
    match player
    case None => {}
    case Some(playerId) => {(playerId, TankTag), (playerId, HealthTag)}
  }

  /** `currentTime - powerup.spawnTime > powerup.duration`. */
  predicate Expired(c: Component, currentTime: real) {
    c.Powerup? && currentTime - c.spawnTime > c.duration
  }

  /**
   * What `applyPowerup(tankId, powerup)` writes back: nothing without a
   * `Tank`; a helmet writes nothing, a star the `Tank` with its shot
   * cooldown halved, an extra life the `Health` one higher but at most
   * `max`, when there is a `Health`.
   */
  function Boost(s: Store, tankId: EntityId, powerup: Component): (w: Option<Component>)
    ensures w.Some? ==> w.value.Tag() == TankTag || w.value.Tag() == HealthTag
  {
    match Lookup(s, tankId, TankTag)
    case None => None
    case Some(tank) =>
      if !powerup.Powerup? then None
      else match powerup.powerupType
        case Helmet => None
        case Star => if tank.Tank? then Some(tank.(shootCooldown := tank.shootCooldown * 0.5)) else None
        case ExtraLife =>
          (match Lookup(s, tankId, HealthTag)
           case Some(health) =>
             if health.Health? then Some(health.(current := Min(health.current + 1, health.max))) else None
           case None => None)
  }

  /** `applyPowerup(tankId, powerup)`. */
  function Boosted(s: Store, tankId: EntityId, powerup: Component): Store {
    match Boost(s, tankId, powerup)
    case None => s
    case Some(c) => Put(s, tankId, c)
  }

  /**
   * The inner loop over the tank snapshot from entry `j`: only the player's
   * entry is looked at (reading `player.id` throws when there is no
   * `Player`), one without a `Position` is skipped, and on contact the
   * powerup is applied and removed.
   */
  function CollectFrom(s: Store, player: Option<EntityId>, tanks: seq<(EntityId, Component)>, j: nat,
                       powerupId: EntityId, powerup: Component, powerupPos: Box): Outcome
    decreases |tanks| - j
  {
    if j >= |tanks| then Ok(s)
    else if player.None? then Fault(s)
    else if tanks[j].0 != player.value then CollectFrom(s, player, tanks, j + 1, powerupId, powerup, powerupPos)
    else match PositionOf(s, tanks[j].0)
      case None => CollectFrom(s, player, tanks, j + 1, powerupId, powerup, powerupPos)
      case Some(tankPos) =>
        if CheckCollision(powerupPos, tankPos) then Ok(Remove(Boosted(s, tanks[j].0, powerup), powerupId))
        else CollectFrom(s, player, tanks, j + 1, powerupId, powerup, powerupPos)
  }

  /** The loop body for the snapshot entry `(id, powerup)`: expiry first, then collection. */
  function PowerupOne(s: Store, player: Option<EntityId>, tanks: seq<(EntityId, Component)>,
                      id: EntityId, powerup: Component, currentTime: real): Outcome {
    if Expired(powerup, currentTime) then Ok(Remove(s, id))
    else match PositionOf(s, id)
      case None => Ok(s)
      case Some(powerupPos) => CollectFrom(s, player, tanks, 0, id, powerup, powerupPos)
  }

  /** The loop from entry `i`; a throw ends the pass. */
  function PowerupsFrom(s: Store, player: Option<EntityId>, tanks: seq<(EntityId, Component)>,
                        powerups: seq<(EntityId, Component)>, i: nat, currentTime: real): Outcome
    decreases |powerups| - i
  {
    if i >= |powerups| then Ok(s)
    else match PowerupOne(s, player, tanks, powerups[i].0, powerups[i].1, currentTime)
      case Fault(r) => Fault(r)
      case Ok(r) => PowerupsFrom(r, player, tanks, powerups, i + 1, currentTime)
  }

  /** `update(currentTime)`. */
  function PowerupsUpdated(s: Store, currentTime: real): Outcome {
    PowerupsFrom(s, PlayerId(s), Query(s, TankTag), Query(s, PowerupTag), 0, currentTime)
  }

  // ---------------------------------------------------------- applyPowerup

  /**
   * The effect of each kind exactly: a helmet changes nothing; a star halves
   * `shootCooldown` (no lower bound) and keeps the rest of the `Tank`; an
   * extra life sets `current` to `min(current + 1, max)`. Nothing happens
   * without a `Tank`, and only the tank's `Tank` and `Health` can change.
   */
  lemma BoostedEffect(s: Store, tankId: EntityId, powerup: Component)
    requires powerup.Powerup?
    ensures var r := Boosted(s, tankId, powerup);
      && r.entities.Keys == s.entities.Keys && r.order == s.order && r.nextId == s.nextId
      && (forall e: EntityId, t: Tag :: (e, t) != (tankId, TankTag) && (e, t) != (tankId, HealthTag) ==> Lookup(r, e, t) == Lookup(s, e, t))
      && (Lookup(s, tankId, TankTag).None? || powerup.powerupType == Helmet ==> r == s)
      && (powerup.powerupType == Star ==>
            Lookup(r, tankId, HealthTag) == Lookup(s, tankId, HealthTag) &&
            match Lookup(s, tankId, TankTag)
            case Some(Tank(color, lastShot, shootCooldown, shooting)) =>
              Lookup(r, tankId, TankTag) == Some(Tank(color, lastShot, shootCooldown / 2.0, shooting))
            case _ => r == s)
      && (powerup.powerupType == ExtraLife ==>
            Lookup(r, tankId, TankTag) == Lookup(s, tankId, TankTag) &&
            match Lookup(s, tankId, HealthTag)
            case Some(Health(current, max)) =>
              Lookup(r, tankId, HealthTag) ==
                (if Holds(s, tankId, TankTag) then Some(Health(Min(current + 1, max), max)) else Some(Health(current, max)))
            case _ => r == s)
  {
    if Boost(s, tankId, powerup).Some? {
      PutLookup(s, tankId, Boost(s, tankId, powerup).value);
    }
  }

  /** An extra life never takes `Health` above `max` when it was not above already. */
  lemma ExtraLifeBounded(s: Store, tankId: EntityId, powerup: Component, current: int, max: int)
    requires powerup.Powerup? && powerup.powerupType == ExtraLife
    requires Lookup(s, tankId, HealthTag) == Some(Health(current, max)) && current <= max
    ensures match Lookup(Boosted(s, tankId, powerup), tankId, HealthTag)
      case Some(h) => h.Health? && h.current <= h.max && h.max == max && current <= h.current
      case None => false
  {
    BoostedEffect(s, tankId, powerup);
  }

  // ------------------------------------------------------------ collection

  /** The player appears in the tank snapshot from entry `j` on. */
  predicate PlayerListed(tanks: seq<(EntityId, Component)>, j: nat, playerId: EntityId) {
    exists k :: j <= k < |tanks| && tanks[k].0 == playerId
  }

  /** The player is in the snapshot and its `Position` overlaps the powerup's; no other tank collects. */
  predicate Collects(s: Store, playerId: EntityId, tanks: seq<(EntityId, Component)>, j: nat, powerupPos: Box) {
    PlayerListed(tanks, j, playerId) && PositionOf(s, playerId).Some? && CheckCollision(powerupPos, PositionOf(s, playerId).value)
  }

  /**
   * The tank loop has a closed form: it throws exactly when there is no
   * `Player` and a tank is left to look at; otherwise the powerup is applied
   * to the player and removed when the player collects it, and nothing
   * happens when it does not.
   */
  lemma {:induction false} CollectFromEffect(s: Store, player: Option<EntityId>, tanks: seq<(EntityId, Component)>, j: nat,
                                             powerupId: EntityId, powerup: Component, powerupPos: Box)
    ensures CollectFrom(s, player, tanks, j, powerupId, powerup, powerupPos) ==
      match player
      case None => if j < |tanks| then Fault(s) else Ok(s)
      case Some(playerId) =>
        if Collects(s, playerId, tanks, j, powerupPos) then Ok(Remove(Boosted(s, playerId, powerup), powerupId))
        else Ok(s)
    decreases |tanks| - j
  {
    if j < |tanks| && player.Some? {
      CollectFromEffect(s, player, tanks, j + 1, powerupId, powerup, powerupPos);
      var playerId := player.value;
      assert PlayerListed(tanks, j, playerId) <==> tanks[j].0 == playerId || PlayerListed(tanks, j + 1, playerId) by {
        if PlayerListed(tanks, j, playerId) && tanks[j].0 != playerId {
          var k :| j <= k < |tanks| && tanks[k].0 == playerId;
          assert j + 1 <= k;
        }
      }
    }
  }

  /**
   * A powerup that has expired is removed, even with no `Player`, before
   * any collection test. A live one is collected only by the player.
   */
  lemma PowerupOneEffect(s: Store, player: Option<EntityId>, tanks: seq<(EntityId, Component)>,
                         id: EntityId, powerup: Component, currentTime: real)
    ensures var o := PowerupOne(s, player, tanks, id, powerup, currentTime);
      && (Expired(powerup, currentTime) ==> o == Ok(Remove(s, id)))
      && (!Expired(powerup, currentTime) ==>
            match (player, PositionOf(s, id))
            case (_, None) => o == Ok(s)
            case (None, Some(_)) => o == (if tanks == [] then Ok(s) else Fault(s))
            case (Some(playerId), Some(powerupPos)) =>
              o == if Collects(s, playerId, tanks, 0, powerupPos) then Ok(Remove(Boosted(s, playerId, powerup), id)) else Ok(s))
  {
    if !Expired(powerup, currentTime) && PositionOf(s, id).Some? {
      CollectFromEffect(s, player, tanks, 0, id, powerup, PositionOf(s, id).value);
    }
  }

  // ---------------------------------------------------------------- frames

  lemma BoostedKeeps(s: Store, tankId: EntityId, powerup: Component)
    requires WellFormed(s)
    ensures WellFormed(Boosted(s, tankId, powerup))
  {
    if Boost(s, tankId, powerup).Some? {
      PutKeeps(s, tankId, Boost(s, tankId, powerup).value);
    }
  }

  /** A powerup writes at most the collecting tank's `Tank` and `Health` and keeps every id. */
  lemma BoostedFramed(s: Store, tankId: EntityId, powerup: Component)
    requires Below(s)
    ensures var r := Boosted(s, tankId, powerup);
      Framed(s, r, BoostSlots(Some(tankId))) && r.entities.Keys == s.entities.Keys && r.nextId == s.nextId
  {
    var w := Boost(s, tankId, powerup);
    if w.Some? {
      PutFramed(s, tankId, w.value);
      PutLookup(s, tankId, w.value);
      FramedWider(s, Boosted(s, tankId, powerup), {(tankId, w.value.Tag())}, BoostSlots(Some(tankId)));
    } else {
      FramedSame(s);
      FramedWider(s, s, {}, BoostSlots(Some(tankId)));
    }
  }

  /**
   * One powerup step removes at most that powerup, creates nothing and, of
   * the rest, writes at most the player's `Tank` and `Health`.
   */
  lemma PowerupOneFrame(s: Store, player: Option<EntityId>, tanks: seq<(EntityId, Component)>,
                        id: EntityId, powerup: Component, currentTime: real)
    requires WellFormed(s)
    ensures var r := PowerupOne(s, player, tanks, id, powerup, currentTime).store;
      && WellFormed(r) && Framed(s, r, BoostSlots(player)) && r.nextId == s.nextId
      && (forall e :: e in r.entities ==> e in s.entities)
      && (forall e :: e in s.entities && e !in r.entities ==> e == id)
  {
    var o := PowerupOne(s, player, tanks, id, powerup, currentTime);
    PowerupOneEffect(s, player, tanks, id, powerup, currentTime);
    if o.store == s {
      FramedSame(s);
      FramedWider(s, s, {}, BoostSlots(player));
    } else if Expired(powerup, currentTime) {
      RemoveKeeps(s, id);
      RemoveFramed(s, id);
      FramedWider(s, o.store, {}, BoostSlots(player));
    } else {
      var s1 := Boosted(s, player.value, powerup);
      assert o.store == Remove(s1, id);
      BoostedFramed(s, player.value, powerup);
      BoostedKeeps(s, player.value, powerup);
      RemoveKeeps(s1, id);
      RemoveFramed(s1, id);
      FramedTrans(s, s1, o.store, BoostSlots(player), {});
      assert BoostSlots(player) + {} == BoostSlots(player);
    }
  }

  /** The pass from entry `i`: removes only powerups of the snapshot, creates nothing, writes only the player's slots. */
  lemma {:induction false} PowerupsFromFrame(s: Store, player: Option<EntityId>, tanks: seq<(EntityId, Component)>,
                                             powerups: seq<(EntityId, Component)>, i: nat, currentTime: real)
    requires WellFormed(s)
    ensures var r := PowerupsFrom(s, player, tanks, powerups, i, currentTime).store;
      && WellFormed(r) && Framed(s, r, BoostSlots(player)) && r.nextId == s.nextId
      && (forall e :: e in r.entities ==> e in s.entities)
      && (forall e :: e in s.entities && e !in r.entities ==> exists k :: i <= k < |powerups| && powerups[k].0 == e)
    decreases |powerups| - i
  {
    if i >= |powerups| {
      FramedSame(s);
      FramedWider(s, s, {}, BoostSlots(player));
    } else {
      var o := PowerupOne(s, player, tanks, powerups[i].0, powerups[i].1, currentTime);
      PowerupOneFrame(s, player, tanks, powerups[i].0, powerups[i].1, currentTime);
      if o.Ok? {
        var s1 := o.store;
        PowerupsFromFrame(s1, player, tanks, powerups, i + 1, currentTime);
        FramedTrans(s, s1, PowerupsFrom(s1, player, tanks, powerups, i + 1, currentTime).store, BoostSlots(player), BoostSlots(player));
        assert BoostSlots(player) + BoostSlots(player) == BoostSlots(player);
      }
    }
  }

  /**
   * Over ids that strictly increase and entries that are current, a pass
   * that does not throw removes every expired powerup that is listed.
   */
  lemma {:induction false} PowerupsFromExpired(s: Store, player: Option<EntityId>, tanks: seq<(EntityId, Component)>,
                                               powerups: seq<(EntityId, Component)>, i: nat, currentTime: real)
    requires WellFormed(s)
    requires forall a, b :: i <= a < b < |powerups| ==> powerups[a].0 < powerups[b].0
    requires forall k :: i <= k < |powerups| ==> Lookup(s, powerups[k].0, PowerupTag) == Some(powerups[k].1)
    ensures var o := PowerupsFrom(s, player, tanks, powerups, i, currentTime);
      o.Ok? ==> forall k :: i <= k < |powerups| && Expired(powerups[k].1, currentTime) ==> powerups[k].0 !in o.store.entities
    decreases |powerups| - i
  {
    if i < |powerups| {
      var id := powerups[i].0;
      var o := PowerupOne(s, player, tanks, id, powerups[i].1, currentTime);
      PowerupOneFrame(s, player, tanks, id, powerups[i].1, currentTime);
      if o.Ok? {
        var s1 := o.store;
        forall k | i + 1 <= k < |powerups|
          ensures Lookup(s1, powerups[k].0, PowerupTag) == Some(powerups[k].1)
        {
          assert powerups[i].0 < powerups[k].0;
          assert (powerups[k].0, PowerupTag) !in BoostSlots(player);
        }
        PowerupsFromExpired(s1, player, tanks, powerups, i + 1, currentTime);
        PowerupsFromFrame(s1, player, tanks, powerups, i + 1, currentTime);
        if Expired(powerups[i].1, currentTime) {
          PowerupOneEffect(s, player, tanks, id, powerups[i].1, currentTime);
          assert id !in s1.entities;
        }
      }
    }
  }

  /**
   * `PowerupSystem.update`: the store stays well formed and nothing is
   * created; only powerups are removed, and every expired one is; of the
   * entities that stay, only the player's `Tank` and `Health` can change.
   * The pass throws only when there is no `Player` and there is a tank.
   */
  lemma PowerupsUpdatedEffect(s: Store, currentTime: real)
    requires WellFormed(s)
    ensures var o := PowerupsUpdated(s, currentTime);
      var r := o.store;
      && WellFormed(r) && r.nextId == s.nextId
      && Framed(s, r, BoostSlots(PlayerId(s)))
      && (forall e :: e in r.entities ==> e in s.entities)
      && (forall e :: e in s.entities && e !in r.entities ==> Holds(s, e, PowerupTag))
      && (o.Ok? ==> forall e, c :: Lookup(s, e, PowerupTag) == Some(c) && Expired(c, currentTime) ==> e !in r.entities)
      && (o.Fault? ==> PlayerId(s).None? && Query(s, TankTag) != [])
  {
    var powerups := Query(s, PowerupTag);
    var tanks := Query(s, TankTag);
    QueryComplete(s, PowerupTag);
    PowerupsFromFrame(s, PlayerId(s), tanks, powerups, 0, currentTime);
    PowerupsFromExpired(s, PlayerId(s), tanks, powerups, 0, currentTime);
    PowerupsFromFault(s, PlayerId(s), tanks, powerups, 0, currentTime);
    var o := PowerupsUpdated(s, currentTime);
    forall e | e in s.entities && e !in o.store.entities ensures Holds(s, e, PowerupTag) {
      var k :| 0 <= k < |powerups| && powerups[k].0 == e;
      assert Lookup(s, powerups[k].0, PowerupTag) == Some(powerups[k].1);
    }
    if o.Ok? {
      forall e, c | Lookup(s, e, PowerupTag) == Some(c) && Expired(c, currentTime) ensures e !in o.store.entities {
        assert Holds(s, e, PowerupTag);
        var k :| 0 <= k < |powerups| && powerups[k].0 == e;
        assert powerups[k].1 == c;
      }
    }
  }

  /** Only a missing `Player` with a tank to compare against makes the pass throw. */
  lemma {:induction false} PowerupsFromFault(s: Store, player: Option<EntityId>, tanks: seq<(EntityId, Component)>,
                                             powerups: seq<(EntityId, Component)>, i: nat, currentTime: real)
    ensures PowerupsFrom(s, player, tanks, powerups, i, currentTime).Fault? ==> player.None? && tanks != []
    decreases |powerups| - i
  {
    if i < |powerups| {
      var o := PowerupOne(s, player, tanks, powerups[i].0, powerups[i].1, currentTime);
      PowerupOneEffect(s, player, tanks, powerups[i].0, powerups[i].1, currentTime);
      if o.Ok? {
        PowerupsFromFault(o.store, player, tanks, powerups, i + 1, currentTime);
      }
    }
  }

  class PowerupSystem {
    const world: World

    constructor (world: World)
      ensures this.world == world
    {
      this.world := world;
    }

    /** `update(currentTime)`: returns whether the pass ended by throwing. */
    method Update(currentTime: real) returns (crashed: bool)
      modifies world
      ensures world.State() == PowerupsUpdated(old(world.State()), currentTime).store
      ensures crashed == PowerupsUpdated(old(world.State()), currentTime).Fault?
    {
      var powerups := world.GetComponents(PowerupTag);
      var tanks := world.GetComponents(TankTag);
      var root := world.GetComponent(world.id, PlayerTag);
      var player := if root.Some? && root.value.Player? then Some(root.value.id) else None;
      assert player == PlayerId(world.State());
      crashed := UpdateList(player, tanks, powerups, currentTime);
    }

    /** The loop over the powerup snapshot. */
    method UpdateList(player: Option<EntityId>, tanks: seq<(EntityId, Component)>,
                      powerups: seq<(EntityId, Component)>, currentTime: real) returns (crashed: bool)
      modifies world
      ensures var o := PowerupsFrom(old(world.State()), player, tanks, powerups, 0, currentTime);
        world.State() == o.store && crashed == o.Fault?
    {
      var i := 0;
      while i < |powerups|
        invariant i <= |powerups|
        invariant PowerupsFrom(world.State(), player, tanks, powerups, i, currentTime) ==
                  PowerupsFrom(old(world.State()), player, tanks, powerups, 0, currentTime)
        decreases |powerups| - i
      {
        ghost var s := world.State();
        crashed := Tick(player, tanks, powerups[i].0, powerups[i].1, currentTime);
        if crashed {
          return;
        }
        assert PowerupsFrom(s, player, tanks, powerups, i, currentTime) ==
               PowerupsFrom(world.State(), player, tanks, powerups, i + 1, currentTime);
        i := i + 1;
      }
      crashed := false;
    }

    /** The body of the loop for the snapshot entry `(powerupId, powerup)`. */
    method Tick(player: Option<EntityId>, tanks: seq<(EntityId, Component)>, powerupId: EntityId,
                powerup: Component, currentTime: real) returns (crashed: bool)
      modifies world
      ensures var o := PowerupOne(old(world.State()), player, tanks, powerupId, powerup, currentTime);
        world.State() == o.store && crashed == o.Fault?
    {
      crashed := false;
      if powerup.Powerup? && currentTime - powerup.spawnTime > powerup.duration {
        world.RemoveEntity(powerupId);
      } else {
        var powerupPos := world.GetComponent(powerupId, PositionTag);
        if powerupPos.Some? && powerupPos.value.Position? {
          crashed := Collect(player, tanks, powerupId, powerup, powerupPos.value);
        }
      }
    }

    /** The loop over the tanks for one live powerup, with its `break` on collection. */
    method Collect(player: Option<EntityId>, tanks: seq<(EntityId, Component)>, powerupId: EntityId,
                   powerup: Component, powerupPos: Box) returns (crashed: bool)
      modifies world
      ensures var o := CollectFrom(old(world.State()), player, tanks, 0, powerupId, powerup, powerupPos);
        world.State() == o.store && crashed == o.Fault?
    {
      var j := 0;
      while j < |tanks|
        invariant j <= |tanks| && world.State() == old(world.State())
        invariant CollectFrom(world.State(), player, tanks, j, powerupId, powerup, powerupPos) ==
                  CollectFrom(world.State(), player, tanks, 0, powerupId, powerup, powerupPos)
        decreases |tanks| - j
      {
        var (tankId, _) := tanks[j];
        if player.None? {
          return true;
        }
        if tankId == player.value {
          var tankPos := world.GetComponent(tankId, PositionTag);
          if tankPos.Some? && tankPos.value.Position? && CheckCollision(powerupPos, tankPos.value) {
            ApplyPowerup(tankId, powerup);
            world.RemoveEntity(powerupId);
            return false;
          }
        }
        j := j + 1;
      }
      crashed := false;
    }

    /** `applyPowerup(tankId, powerup)`. */
    method ApplyPowerup(tankId: EntityId, powerup: Component)
      modifies world
      ensures world.State() == Boosted(old(world.State()), tankId, powerup)
    {
      var tank := world.GetComponent(tankId, TankTag);
      if tank.None? || !powerup.Powerup? {
        return;
      }
      match powerup.powerupType {
        case Helmet =>
        case Star =>
          if tank.value.Tank? {
            world.AddComponent(tankId, tank.value.(shootCooldown := tank.value.shootCooldown * 0.5));
          }
        case ExtraLife =>
          var health := world.GetComponent(tankId, HealthTag);
          if health.Some? && health.value.Health? {
            world.AddComponent(tankId, health.value.(current := Min(health.value.current + 1, health.value.max)));
          }
      }
    }
  }
}
