/**
 * `ExplosionSystem` (src/games/systems.ts): every explosion whose frame time
 * has run out shows its next frame, stamped with the current time, and is
 * removed once that frame reaches `maxFrames`.
 */
module Explosions {
  import opened Wrappers
  import opened Components
  import opened Worlds

  /** More than `frameTime` has passed since the last frame. */
  predicate Due(c: Component, currentTime: real) {
    c.Explosion? && currentTime - c.lastFrameUpdate > c.frameTime
  }

  /** `explosion.frame++; explosion.lastFrameUpdate = currentTime`. */
  function NextFrame(c: Component, currentTime: real): (n: Component)
    requires c.Explosion?
    ensures n.Explosion? && n.Tag() == ExplosionTag
  {
    c.(frame := c.frame + 1, lastFrameUpdate := currentTime)
  }

  /** The loop body for the snapshot entry `(id, explosion)`. */
  function ExplosionOne(s: Store, id: EntityId, explosion: Component, currentTime: real): Store {
    if !Due(explosion, currentTime) then s
    else
      var s1 := Put(s, id, NextFrame(explosion, currentTime));
      if explosion.frame + 1 >= explosion.maxFrames then Remove(s1, id) else s1
  }

  /** The loop from entry `i` of the snapshot. */
  function ExplosionsFrom(s: Store, snapshot: seq<(EntityId, Component)>, i: nat, currentTime: real): Store
    decreases |snapshot| - i
  {
    if i >= |snapshot| then s
    else ExplosionsFrom(ExplosionOne(s, snapshot[i].0, snapshot[i].1, currentTime), snapshot, i + 1, currentTime)
  }

  /** `update(currentTime)`. */
  function ExplosionsUpdated(s: Store, currentTime: real): Store {
    ExplosionsFrom(s, Query(s, ExplosionTag), 0, currentTime)
  }

  /**
   * What one update makes of an entity's table: `None` when the entity is
   * removed. Only an explosion that is due changes.
   */
  function AfterTick(t: Table, currentTime: real): Option<Table> {
    if ExplosionTag in t && Due(t[ExplosionTag], currentTime) then
      if t[ExplosionTag].frame + 1 >= t[ExplosionTag].maxFrames then None
      else Some(t[ExplosionTag := NextFrame(t[ExplosionTag], currentTime)])
    else Some(t)
  }

  /** `e` is listed in the snapshot from entry `i` on. */
  predicate ListedFrom(snapshot: seq<(EntityId, Component)>, i: nat, e: EntityId) {
    exists k :: i <= k < |snapshot| && snapshot[k].0 == e
  }

  lemma ExplosionOneKeeps(s: Store, id: EntityId, explosion: Component, currentTime: real)
    requires WellFormed(s)
    ensures WellFormed(ExplosionOne(s, id, explosion, currentTime))
  {
    if Due(explosion, currentTime) {
      PutKeeps(s, id, NextFrame(explosion, currentTime));
      RemoveKeeps(Put(s, id, NextFrame(explosion, currentTime)), id);
    }
  }

  lemma {:induction false} ExplosionsFromKeeps(s: Store, snapshot: seq<(EntityId, Component)>, i: nat, currentTime: real)
    requires WellFormed(s)
    ensures WellFormed(ExplosionsFrom(s, snapshot, i, currentTime))
    decreases |snapshot| - i
  {
    if i < |snapshot| {
      ExplosionOneKeeps(s, snapshot[i].0, snapshot[i].1, currentTime);
      ExplosionsFromKeeps(ExplosionOne(s, snapshot[i].0, snapshot[i].1, currentTime), snapshot, i + 1, currentTime);
    }
  }

  /**
   * One step on an entry that is current changes that entity as `AfterTick`
   * says and no other; it creates nothing.
   */
  lemma ExplosionOneEffect(s: Store, id: EntityId, explosion: Component, currentTime: real)
    requires Lookup(s, id, ExplosionTag) == Some(explosion)
    ensures var r := ExplosionOne(s, id, explosion, currentTime);
      && r.nextId == s.nextId
      && (forall e :: e in r.entities ==> e in s.entities)
      && (forall e :: e in s.entities && e != id ==> e in r.entities && r.entities[e] == s.entities[e])
      && (match AfterTick(s.entities[id], currentTime)
          case None => id !in r.entities
          case Some(t) => id in r.entities && r.entities[id] == t)
  {
  }

  /**
   * From entry `i` on, over ids that strictly increase and entries that are
   * current, the loop applies `AfterTick` to the listed entities and leaves
   * every other entity alone.
   */
  lemma {:induction false} ExplosionsFromEffect(s: Store, snapshot: seq<(EntityId, Component)>, i: nat, currentTime: real)
    requires forall a, b :: i <= a < b < |snapshot| ==> snapshot[a].0 < snapshot[b].0
    requires forall k :: i <= k < |snapshot| ==> Lookup(s, snapshot[k].0, ExplosionTag) == Some(snapshot[k].1)
    ensures var r := ExplosionsFrom(s, snapshot, i, currentTime);
      && r.nextId == s.nextId
      && (forall e :: e in r.entities ==> e in s.entities)
      && (forall e :: e in s.entities && !ListedFrom(snapshot, i, e) ==> e in r.entities && r.entities[e] == s.entities[e])
      && (forall e :: e in s.entities && ListedFrom(snapshot, i, e) ==>
            match AfterTick(s.entities[e], currentTime)
            case None => e !in r.entities
            case Some(t) => e in r.entities && r.entities[e] == t)
    decreases |snapshot| - i
  {
    if i < |snapshot| {
      var (id, explosion) := snapshot[i];
      var s1 := ExplosionOne(s, id, explosion, currentTime);
      ExplosionOneEffect(s, id, explosion, currentTime);
      forall k | i + 1 <= k < |snapshot|
        ensures Lookup(s1, snapshot[k].0, ExplosionTag) == Some(snapshot[k].1)
      {
        assert snapshot[i].0 < snapshot[k].0;
      }
      ExplosionsFromEffect(s1, snapshot, i + 1, currentTime);
      var r := ExplosionsFrom(s1, snapshot, i + 1, currentTime);
      forall e | e in s.entities
        ensures !ListedFrom(snapshot, i, e) ==> e in r.entities && r.entities[e] == s.entities[e]
        ensures ListedFrom(snapshot, i, e) ==>
          match AfterTick(s.entities[e], currentTime)
          case None => e !in r.entities
          case Some(t) => e in r.entities && r.entities[e] == t
      {
        if e == id {
          assert !ListedFrom(snapshot, i + 1, e) by {
            forall k | i + 1 <= k < |snapshot| ensures snapshot[k].0 != e {
              assert snapshot[i].0 < snapshot[k].0;
            }
          }
        } else {
          assert ListedFrom(snapshot, i, e) <==> ListedFrom(snapshot, i + 1, e) by {
            if ListedFrom(snapshot, i, e) {
              var k :| i <= k < |snapshot| && snapshot[k].0 == e;
              assert k != i;
            }
          }
        }
      }
    }
  }

  /**
   * `ExplosionSystem.update`: the store stays well formed, nothing is
   * created, and every entity becomes what `AfterTick` makes of it. In
   * particular an explosion that is due advances by exactly one frame and
   * is stamped `currentTime`, or is removed when that frame reaches
   * `maxFrames`; every other entity, explosion or not, is left as it was.
   */
  lemma ExplosionsUpdatedEffect(s: Store, currentTime: real)
    requires WellFormed(s)
    ensures var r := ExplosionsUpdated(s, currentTime);
      && WellFormed(r) && r.nextId == s.nextId
      && (forall e :: e in r.entities ==> e in s.entities)
      && (forall e :: e in s.entities ==>
            match AfterTick(s.entities[e], currentTime)
            case None => e !in r.entities
            case Some(t) => e in r.entities && r.entities[e] == t)
  {
    var snapshot := Query(s, ExplosionTag);
    QueryComplete(s, ExplosionTag);
    ExplosionsFromKeeps(s, snapshot, 0, currentTime);
    ExplosionsFromEffect(s, snapshot, 0, currentTime);
    forall e | e in s.entities && !ListedFrom(snapshot, 0, e)
      ensures AfterTick(s.entities[e], currentTime) == Some(s.entities[e])
    {
      assert !Holds(s, e, ExplosionTag);
    }
  }

  class ExplosionSystem {
    const world: World

    constructor (world: World)
      ensures this.world == world
    {
      this.world := world;
    }

    /** `update(currentTime)`. */
    method Update(currentTime: real)
      modifies world
      ensures world.State() == ExplosionsUpdated(old(world.State()), currentTime)
    {
      var explosions := world.GetComponents(ExplosionTag);
      for i := 0 to |explosions|
        invariant ExplosionsFrom(world.State(), explosions, i, currentTime) ==
                  ExplosionsFrom(old(world.State()), explosions, 0, currentTime)
      {
        var (explosionId, explosion) := explosions[i];
        if explosion.Explosion? && currentTime - explosion.lastFrameUpdate > explosion.frameTime {
          world.AddComponent(explosionId, NextFrame(explosion, currentTime));
          if explosion.frame + 1 >= explosion.maxFrames {
            world.RemoveEntity(explosionId);
          }
        }
      }
    }
  }
}
