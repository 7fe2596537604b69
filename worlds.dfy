/**
 * The component store (src/games/worlds.ts).
 *
 * `Store` is the abstract value of a `World`: the table of tables `entities`
 * (entity id -> type tag -> component), `order`, the insertion order in which
 * the JavaScript `Map` enumerates its keys, and the id counter `nextId`.
 * The functions on `Store` specify the operations; the class `World` carries
 * the same three fields and implements the operations as methods.
 */
module Worlds {
  import opened Wrappers
  import opened Components
  import opened Constants

  type EntityId = nat
  type Table = map<Tag, Component>

  /** The root entity that holds the `Player` and `Level` singletons. */
  const ROOT: EntityId := 0

  datatype Store = Store(entities: map<EntityId, Table>, order: seq<EntityId>, nextId: nat)

  /**
   * How an operation ends: normally, or by throwing a `TypeError` when it
   * dereferences a component that is not there. Either way `store` is the
   * state at that point; writes made before the throw stay.
   */
  datatype Outcome = Ok(store: Store) | Fault(store: Store)

  predicate Increasing(s: seq<EntityId>) {
    forall i, j :: 0 <= i < j < |s| ==> s[i] < s[j]
  }

  /** Putting a smaller id in front of an increasing order keeps it increasing. */
  lemma ConsIncreasing(x: EntityId, s: seq<EntityId>)
    requires Increasing(s) && forall e :: e in s ==> x < e
    ensures Increasing([x] + s)
  {
    forall i, j | 0 <= i < j < |[x] + s| ensures ([x] + s)[i] < ([x] + s)[j] {
      if i > 0 {
        assert ([x] + s)[i] == s[i - 1];
      }
      assert ([x] + s)[j] == s[j - 1] && s[j - 1] in s;
    }
  }

  /** Appending an id above every id keeps an order increasing. */
  lemma SnocIncreasing(s: seq<EntityId>, x: EntityId)
    requires Increasing(s) && forall e :: e in s ==> e < x
    ensures Increasing(s + [x])
  {
    forall i, j | 0 <= i < j < |s + [x]| ensures (s + [x])[i] < (s + [x])[j] {
      assert (s + [x])[i] == s[i] && s[i] in s;
      if j < |s| {
        assert (s + [x])[j] == s[j];
      }
    }
  }

  /** In an increasing order the head is below everything after it. */
  lemma HeadBelowTail(s: seq<EntityId>)
    requires Increasing(s) && s != []
    ensures Increasing(s[1..])
    ensures forall e :: e in s[1..] ==> s[0] < e
  {
    forall e | e in s[1..] ensures s[0] < e {
      var j :| 0 <= j < |s[1..]| && s[1..][j] == e;
      assert s[1 + j] == e;
    }
  }

  /**
   * What every reachable store satisfies: the enumeration order lists exactly
   * the live entities, in increasing id order (ids are handed out fresh and
   * a JavaScript `Map` appends new keys), every id is below the counter, and
   * every component is filed under its own tag.
   */
  ghost predicate WellFormed(s: Store) {
    && 1 <= s.nextId
    && Increasing(s.order)
    && (forall e :: e in s.order <==> e in s.entities)
    && (forall e :: e in s.entities ==> e < s.nextId)
    && (forall e, t :: e in s.entities && t in s.entities[e] ==> s.entities[e][t].Tag() == t)
  }

  /** Every live id is below the counter (part of `WellFormed`). */
  predicate Below(s: Store) {
    forall e :: e in s.entities ==> e < s.nextId
  }

  /**
   * `r` comes from `s` by removing entities, adding entities at fresh ids,
   * and writing at most the slots `touched` of the entities that stay.
   */
  predicate Framed(s: Store, r: Store, touched: set<(EntityId, Tag)>) {
    && Below(s) && Below(r) && s.nextId <= r.nextId
    && (forall e :: e in r.entities && e !in s.entities ==> s.nextId <= e)
    && (forall e, t :: e in s.entities && e in r.entities && (e, t) !in touched ==> Lookup(r, e, t) == Lookup(s, e, t))
  }

  lemma FramedTrans(a: Store, b: Store, c: Store, x: set<(EntityId, Tag)>, y: set<(EntityId, Tag)>)
    requires Framed(a, b, x) && Framed(b, c, y)
    ensures Framed(a, c, x + y)
  {
    forall e | e in c.entities && e !in a.entities ensures a.nextId <= e {
      if e in b.entities {
        assert a.nextId <= e;
      }
    }
    forall e, t | e in a.entities && e in c.entities && (e, t) !in x + y
      ensures Lookup(c, e, t) == Lookup(a, e, t)
    {
      assert e in b.entities;
    }
  }

  lemma FramedWider(s: Store, r: Store, x: set<(EntityId, Tag)>, y: set<(EntityId, Tag)>)
    requires Framed(s, r, x) && x <= y
    ensures Framed(s, r, y)
  {
  }

  lemma FramedSame(s: Store)
    requires Below(s)
    ensures Framed(s, s, {})
  {
  }

  /** A new world: only the root entity, with no components, and the counter at 1. */
  function Init(): (s: Store)
    ensures WellFormed(s)
    ensures s.entities.Keys == {ROOT} && s.entities[ROOT] == map[]
  {
    Store(map[ROOT := map[]], [ROOT], 1)
  }

  /** `getComponent`: the stored component, or `None` when the entity or the component is missing. */
  function Lookup(s: Store, id: EntityId, t: Tag): (r: Option<Component>)
    ensures r.Some? <==> id in s.entities && t in s.entities[id]
    ensures r.Some? ==> r.value == s.entities[id][t]
    ensures WellFormed(s) && r.Some? ==> r.value.Tag() == t
  {
    if id in s.entities && t in s.entities[id] then Some(s.entities[id][t]) else None
  }

  /** `getComponent(id, Position)`, read as a box. */
  function PositionOf(s: Store, id: EntityId): (r: Option<Box>)
    ensures r.Some? ==> Lookup(s, id, PositionTag) == Some(r.value)
    ensures WellFormed(s) ==> (r.Some? <==> Lookup(s, id, PositionTag).Some?)
  {
    match Lookup(s, id, PositionTag)
    case Some(p) => if p.Position? then Some(p) else None
    case None => None
  }

  /** `world.getComponent(world.id, Player).id`: the player's id, `None` where that read throws. */
  function PlayerId(s: Store): Option<EntityId> {
    match Lookup(s, ROOT, PlayerTag)
    case Some(Player(id, _)) => Some(id)
    case _ => None
  }

  /** `hasComponent`: the entity exists and holds a component with that tag. */
  function Holds(s: Store, id: EntityId, t: Tag): (b: bool)
    ensures b <==> Lookup(s, id, t).Some?
  {
    id in s.entities && t in s.entities[id]
  }

  /** `createEntity`: the counter is the new id and is bumped; the new entity has an empty table. */
  function Create(s: Store): (Store, EntityId) {
    (Store(s.entities[s.nextId := map[]], s.order + [s.nextId], s.nextId + 1), s.nextId)
  }

  /** A fresh id is the counter, is not the root, and is above every id in use. */
  lemma CreateKeeps(s: Store)
    requires WellFormed(s)
    ensures WellFormed(Create(s).0)
    ensures Create(s).1 != ROOT && Create(s).1 !in s.entities
    ensures forall e :: e in s.entities ==> e < Create(s).1
  {
    SnocIncreasing(s.order, s.nextId);
  }

  /** The enumeration order with one key deleted. */
  function Without(order: seq<EntityId>, id: EntityId): (r: seq<EntityId>)
    ensures forall e :: e in r <==> e in order && e != id
    ensures Increasing(order) ==> Increasing(r)
    ensures id !in order ==> r == order
  {
    if order == [] then []
    else if order[0] == id then Without(order[1..], id)
    else
      var rest := Without(order[1..], id);
      if Increasing(order) then
        HeadBelowTail(order);
        ConsIncreasing(order[0], rest);
        [order[0]] + rest
      else [order[0]] + rest
  }

  /** `removeEntity`: the entity and all its components are gone, nothing else changes. */
  function Remove(s: Store, id: EntityId): Store {
    Store(s.entities - {id}, Without(s.order, id), s.nextId)
  }

  lemma RemoveFramed(s: Store, id: EntityId)
    requires Below(s)
    ensures Framed(s, Remove(s, id), {})
    ensures id !in Remove(s, id).entities
  {
  }

  lemma RemoveKeeps(s: Store, id: EntityId)
    requires WellFormed(s)
    ensures WellFormed(Remove(s, id))
  {
  }

  /**
   * `addComponent`: the component is filed under its own tag, replacing only a
   * component of the same type; a missing entity is left missing.
   */
  function Put(s: Store, id: EntityId, c: Component): Store {
    if id in s.entities then
      Store(s.entities[id := s.entities[id][c.Tag() := c]], s.order, s.nextId)
    else s
  }

  /** `addComponent` changes exactly one slot, the component's own tag of a live entity. */
  lemma PutLookup(s: Store, id: EntityId, c: Component)
    ensures Put(s, id, c).nextId == s.nextId && Put(s, id, c).entities.Keys == s.entities.Keys
    ensures forall e, t :: Lookup(Put(s, id, c), e, t) ==
                          (if e == id && t == c.Tag() && id in s.entities then Some(c) else Lookup(s, e, t))
  {
  }

  /** Filing a component that is already there changes nothing. */
  lemma PutSame(s: Store, id: EntityId, c: Component)
    requires Lookup(s, id, c.Tag()) == Some(c)
    ensures Put(s, id, c) == s
  {
    assert s.entities[id][c.Tag() := c] == s.entities[id];
    assert s.entities[id := s.entities[id]] == s.entities;
  }

  lemma PutFramed(s: Store, id: EntityId, c: Component)
    requires Below(s)
    ensures Framed(s, Put(s, id, c), {(id, c.Tag())})
  {
  }

  lemma PutKeeps(s: Store, id: EntityId, c: Component)
    requires WellFormed(s)
    ensures WellFormed(Put(s, id, c))
  {
  }

  /** The last component of `cs` with tag `t`, if any. */
  function LastOfTag(cs: seq<Component>, t: Tag): (r: Option<Component>)
    ensures r.Some? ==> r.value in cs && r.value.Tag() == t
    ensures r.None? <==> forall k :: 0 <= k < |cs| ==> cs[k].Tag() != t
  {
    if cs == [] then None
    else match LastOfTag(cs[1..], t)
      case Some(c) => Some(c)
      case None => if cs[0].Tag() == t then Some(cs[0]) else None
  }

  /** `addComponents`. */
  function PutAll(s: Store, id: EntityId, cs: seq<Component>): Store
    decreases |cs|
  {
    if cs == [] then s else PutAll(Put(s, id, cs[0]), id, cs[1..])
  }

  /**
   * `addComponents`: the list is filed in order, so of two components with the
   * same tag the later one is kept; a missing entity is left missing.
   */
  lemma {:induction false} PutAllLookup(s: Store, id: EntityId, cs: seq<Component>)
    ensures PutAll(s, id, cs).nextId == s.nextId && PutAll(s, id, cs).entities.Keys == s.entities.Keys
    ensures id !in s.entities ==> PutAll(s, id, cs) == s
    ensures forall e, t :: Lookup(PutAll(s, id, cs), e, t) ==
              (if e == id && id in s.entities && LastOfTag(cs, t).Some? then LastOfTag(cs, t) else Lookup(s, e, t))
    decreases |cs|
  {
    if cs != [] {
      PutLookup(s, id, cs[0]);
      PutAllLookup(Put(s, id, cs[0]), id, cs[1..]);
    }
  }

  lemma {:induction false} PutAllKeeps(s: Store, id: EntityId, cs: seq<Component>)
    requires WellFormed(s)
    ensures WellFormed(PutAll(s, id, cs))
    decreases |cs|
  {
    if cs != [] {
      PutKeeps(s, id, cs[0]);
      PutAllKeeps(Put(s, id, cs[0]), id, cs[1..]);
    }
  }

  /** The table `addComponents(id, cs)` leaves when the entity held `m`. */
  function AddAll(m: Table, cs: seq<Component>): Table
    decreases |cs|
  {
    if cs == [] then m else AddAll(m[cs[0].Tag() := cs[0]], cs[1..])
  }

  /** On a live entity, `addComponents` rewrites that entity's table and nothing else. */
  lemma {:induction false} PutAllLive(s: Store, id: EntityId, cs: seq<Component>)
    requires id in s.entities
    ensures PutAll(s, id, cs) == Store(s.entities[id := AddAll(s.entities[id], cs)], s.order, s.nextId)
    decreases |cs|
  {
    if cs != [] {
      var s1 := Put(s, id, cs[0]);
      PutAllLive(s1, id, cs[1..]);
      assert s1.entities[id := AddAll(s1.entities[id], cs[1..])] == s.entities[id := AddAll(s.entities[id], cs)];
    }
  }

  /**
   * `createEntity` followed by `addComponents(id, cs)`: one new entity under
   * the counter, holding `cs` filed by tag; nothing else changes.
   */
  function Spawn(s: Store, cs: seq<Component>): Store {
    Store(s.entities[s.nextId := AddAll(map[], cs)], s.order + [s.nextId], s.nextId + 1)
  }

  lemma SpawnByCreateAndAdd(s: Store, cs: seq<Component>)
    ensures PutAll(Create(s).0, Create(s).1, cs) == Spawn(s, cs)
  {
    PutAllLive(Create(s).0, Create(s).1, cs);
  }

  /** A spawn adds one entity, at the counter, and leaves every live entity as it was. */
  lemma SpawnFramed(s: Store, cs: seq<Component>)
    requires Below(s)
    ensures Framed(s, Spawn(s, cs), {})
    ensures Spawn(s, cs).nextId == s.nextId + 1 && s.nextId in Spawn(s, cs).entities
  {
  }

  lemma SpawnKeeps(s: Store, cs: seq<Component>)
    requires WellFormed(s)
    ensures WellFormed(Spawn(s, cs))
  {
    CreateKeeps(s);
    PutAllKeeps(Create(s).0, Create(s).1, cs);
    SpawnByCreateAndAdd(s, cs);
  }

  /** The pairs the enumeration of `order` yields for tag `t`, in that order. */
  function QueryFrom(entities: map<EntityId, Table>, order: seq<EntityId>, t: Tag): seq<(EntityId, Component)>
  {
    if order == [] then []
    else
      var head := if order[0] in entities && t in entities[order[0]] then [(order[0], entities[order[0]][t])] else [];
      head + QueryFrom(entities, order[1..], t)
  }

  lemma QueryFromUnfold(entities: map<EntityId, Table>, order: seq<EntityId>, i: nat, t: Tag)
    requires i < |order|
    ensures QueryFrom(entities, order[i..], t) ==
      (if order[i] in entities && t in entities[order[i]] then [(order[i], entities[order[i]][t])] else [])
      + QueryFrom(entities, order[i + 1..], t)
  {
    assert order[i..][1..] == order[i + 1..];
  }

  /** One key further: what key `i` yields joins the pairs collected before it. */
  lemma QueryFromStep(entities: map<EntityId, Table>, order: seq<EntityId>, i: nat, t: Tag,
                      done: seq<(EntityId, Component)>, found: seq<(EntityId, Component)>)
    requires i < |order| && done + QueryFrom(entities, order[i..], t) == QueryFrom(entities, order, t)
    requires found == if order[i] in entities && t in entities[order[i]] then [(order[i], entities[order[i]][t])] else []
    ensures (done + found) + QueryFrom(entities, order[i + 1..], t) == QueryFrom(entities, order, t)
  {
    QueryFromUnfold(entities, order, i, t);
    Regrouped(done, found, QueryFrom(entities, order[i + 1..], t), QueryFrom(entities, order[i..], t));
  }

  lemma Regrouped<T>(done: seq<T>, found: seq<T>, rest: seq<T>, tail: seq<T>)
    requires tail == found + rest
    ensures done + tail == (done + found) + rest
  {
  }

  /** Every pair yielded is a live entity of `order` with its component of tag `t`. */
  lemma {:induction false} QueryFromSound(entities: map<EntityId, Table>, order: seq<EntityId>, t: Tag)
    ensures forall k :: 0 <= k < |QueryFrom(entities, order, t)| ==>
      var p := QueryFrom(entities, order, t)[k];
      p.0 in order && p.0 in entities && t in entities[p.0] && p.1 == entities[p.0][t]
  {
    if order != [] {
      QueryFromSound(entities, order[1..], t);
      var r := QueryFrom(entities, order, t);
      var rest := QueryFrom(entities, order[1..], t);
      var n := |r| - |rest|;
      assert forall k :: n <= k < |r| ==> r[k] == rest[k - n];
      assert forall e :: e in order[1..] ==> e in order;
    }
  }

  /** Every live entity of `order` holding `t` is yielded. */
  lemma {:induction false} QueryFromComplete(entities: map<EntityId, Table>, order: seq<EntityId>, t: Tag, e: EntityId)
    requires e in order && e in entities && t in entities[e]
    ensures exists k :: 0 <= k < |QueryFrom(entities, order, t)| && QueryFrom(entities, order, t)[k].0 == e
  {
    var r := QueryFrom(entities, order, t);
    if order[0] == e {
      assert r[0].0 == e;
    } else {
      assert e in order[1..];
      QueryFromComplete(entities, order[1..], t, e);
      var rest := QueryFrom(entities, order[1..], t);
      var k :| 0 <= k < |rest| && rest[k].0 == e;
      var n := |r| - |rest|;
      assert r[k + n] == rest[k];
    }
  }

  /** Over an increasing order the yielded ids increase. */
  lemma {:induction false} QueryFromIncreasing(entities: map<EntityId, Table>, order: seq<EntityId>, t: Tag)
    requires Increasing(order)
    ensures forall i, j :: 0 <= i < j < |QueryFrom(entities, order, t)| ==>
      QueryFrom(entities, order, t)[i].0 < QueryFrom(entities, order, t)[j].0
  {
    if order != [] {
      HeadBelowTail(order);
      QueryFromIncreasing(entities, order[1..], t);
      QueryFromSound(entities, order[1..], t);
      var r := QueryFrom(entities, order, t);
      var rest := QueryFrom(entities, order[1..], t);
      var n := |r| - |rest|;
      assert forall k :: n <= k < |r| ==> r[k] == rest[k - n];
      forall i, j | 0 <= i < j < |r| ensures r[i].0 < r[j].0 {
        if i < n {
          assert r[i].0 == order[0] && rest[j - n].0 in order[1..];
        }
      }
    }
  }

  /** A snapshot whose ids strictly increase (so no entity is listed twice). */
  predicate Ascending(snapshot: seq<(EntityId, Component)>) {
    forall a, b :: 0 <= a < b < |snapshot| ==> snapshot[a].0 < snapshot[b].0
  }

  lemma AscendingCons(x: (EntityId, Component), snapshot: seq<(EntityId, Component)>)
    requires Ascending(snapshot) && forall k :: 0 <= k < |snapshot| ==> x.0 < snapshot[k].0
    ensures Ascending([x] + snapshot)
  {
    forall a, b | 0 <= a < b < |[x] + snapshot| ensures ([x] + snapshot)[a].0 < ([x] + snapshot)[b].0 {
      assert ([x] + snapshot)[b] == snapshot[b - 1];
      if a > 0 {
        assert ([x] + snapshot)[a] == snapshot[a - 1];
      }
    }
  }

  /**
   * `getComponents(T)`: pairs of a live entity holding `T` and that component,
   * in the enumeration order of the store.
   */
  function Query(s: Store, t: Tag): (r: seq<(EntityId, Component)>)
    ensures forall k :: 0 <= k < |r| ==> Lookup(s, r[k].0, t) == Some(r[k].1)
    ensures WellFormed(s) ==> forall k :: 0 <= k < |r| ==> r[k].1.Tag() == t
  {
    QueryFromSound(s.entities, s.order, t);
    QueryFrom(s.entities, s.order, t)
  }

  /**
   * `getComponents(T)` yields every live entity holding `T` exactly once, in
   * increasing id order.
   */
  lemma QueryComplete(s: Store, t: Tag)
    requires WellFormed(s)
    ensures forall e :: Holds(s, e, t) ==> exists k :: 0 <= k < |Query(s, t)| && Query(s, t)[k].0 == e
    ensures forall i, j :: 0 <= i < j < |Query(s, t)| ==> Query(s, t)[i].0 < Query(s, t)[j].0
  {
    QueryFromIncreasing(s.entities, s.order, t);
    forall e | Holds(s, e, t) ensures exists k :: 0 <= k < |Query(s, t)| && Query(s, t)[k].0 == e {
      QueryFromComplete(s.entities, s.order, t, e);
      var k :| 0 <= k < |QueryFrom(s.entities, s.order, t)| && QueryFrom(s.entities, s.order, t)[k].0 == e;
      assert Query(s, t)[k].0 == e;
    }
  }

  /** The enumeration for tag `t` depends only on the order and on the components filed under `t`. */
  lemma {:induction false} QueryFromAgree(a: map<EntityId, Table>, b: map<EntityId, Table>, order: seq<EntityId>, t: Tag)
    requires forall e :: e in order ==>
      (e in a && t in a[e]) == (e in b && t in b[e]) && (e in a && t in a[e] ==> a[e][t] == b[e][t])
    ensures QueryFrom(a, order, t) == QueryFrom(b, order, t)
  {
    if order != [] {
      assert forall e :: e in order[1..] ==> e in order;
      QueryFromAgree(a, b, order[1..], t);
    }
  }

  /** Two stores with the same order that agree on every `t` slot enumerate `t` alike. */
  lemma QueryAgree(s: Store, r: Store, t: Tag)
    requires s.order == r.order && forall e :: Lookup(r, e, t) == Lookup(s, e, t)
    ensures Query(r, t) == Query(s, t)
  {
    forall e | e in s.order
      ensures (e in s.entities && t in s.entities[e]) == (e in r.entities && t in r.entities[e])
      ensures e in s.entities && t in s.entities[e] ==> s.entities[e][t] == r.entities[e][t]
    {
      assert Lookup(r, e, t) == Lookup(s, e, t);
    }
    QueryFromAgree(s.entities, r.entities, s.order, t);
  }

  /** Enumerating one more id at the end of the order yields at most one more pair, at the end. */
  lemma {:induction false} QueryFromSnoc(entities: map<EntityId, Table>, order: seq<EntityId>, n: EntityId, t: Tag)
    ensures QueryFrom(entities, order + [n], t) ==
      QueryFrom(entities, order, t) + (if n in entities && t in entities[n] then [(n, entities[n][t])] else [])
  {
    if order != [] {
      assert (order + [n])[1..] == order[1..] + [n];
      QueryFromSnoc(entities, order[1..], n, t);
    }
  }

  /**
   * After `createEntity` and `addComponents(id, cs)`, `getComponents(T)`
   * yields what it yielded before and then the new entity, if `cs` holds a `T`.
   */
  lemma QuerySpawn(s: Store, cs: seq<Component>, t: Tag)
    requires WellFormed(s)
    ensures Query(Spawn(s, cs), t) ==
      Query(s, t) + (if t in AddAll(map[], cs) then [(s.nextId, AddAll(map[], cs)[t])] else [])
  {
    var r := Spawn(s, cs);
    QueryFromSnoc(r.entities, s.order, s.nextId, t);
    QueryFromAgree(s.entities, r.entities, s.order, t);
  }

  /** `createPlayer(num)`: a new entity, registered as the root's `Player`. */
  function NewPlayer(s: Store, num: int): (Store, EntityId) {
    var (s1, id) := Create(s);
    (Put(s1, ROOT, Player(id, num)), id)
  }

  /** Ids are never 0, strictly increase, and are never handed out again after a removal. */
  lemma {:induction false} IdsFresh(s: Store, gone: EntityId)
    requires WellFormed(s) && gone in s.entities
    ensures Create(s).1 >= 1
    ensures Create(Create(s).0).1 > Create(s).1
    ensures Create(Remove(s, gone)).1 != gone
    ensures Create(Remove(Create(s).0, Create(s).1)).1 != Create(s).1
  {
  }

  /** A fresh entity exists and holds no component. */
  lemma CreatedIsEmpty(s: Store, t: Tag)
    requires WellFormed(s)
    ensures Create(s).1 in Create(s).0.entities
    ensures !Holds(Create(s).0, Create(s).1, t)
    ensures forall e :: e in s.entities ==> Create(s).0.entities[e] == s.entities[e]
  {
    CreateKeeps(s);
  }

  lemma {:induction false} WithoutTwice(order: seq<EntityId>, id: EntityId)
    ensures Without(Without(order, id), id) == Without(order, id)
  {
    if order != [] {
      WithoutTwice(order[1..], id);
      if order[0] != id {
        assert ([order[0]] + Without(order[1..], id))[1..] == Without(order[1..], id);
      }
    }
  }

  /** `removeEntity` is idempotent and removes nothing else. */
  lemma RemoveIdempotent(s: Store, id: EntityId)
    requires WellFormed(s)
    ensures Remove(Remove(s, id), id) == Remove(s, id)
    ensures forall e, t :: e != id ==> Lookup(Remove(s, id), e, t) == Lookup(s, e, t)
    ensures forall t :: !Holds(Remove(s, id), id, t)
  {
    WithoutTwice(s.order, id);
  }

  /** `createPlayer` replaces any earlier `Player` by the new entity and the slot number. */
  lemma CreatePlayerEffect(s: Store, num: int)
    requires WellFormed(s) && ROOT in s.entities
    ensures Lookup(NewPlayer(s, num).0, ROOT, PlayerTag) == Some(Player(Create(s).1, num))
    ensures NewPlayer(s, num).1 == s.nextId
    ensures NewPlayer(s, num).0.entities[NewPlayer(s, num).1] == map[]
    ensures forall e, t :: e != ROOT && e in s.entities ==> Lookup(NewPlayer(s, num).0, e, t) == Lookup(s, e, t)
  {
    CreateKeeps(s);
    var (s1, id) := Create(s);
    PutLookup(s1, ROOT, Player(id, num));
  }

  /**
   * The store of one game (`World`). `order` is the insertion order of the
   * `entities` map. Each method is specified by the `Store` function it
   * implements; that those functions keep a store `WellFormed` is proved
   * about the functions (`CreateKeeps`, `RemoveKeeps`, `PutKeeps`,
   * `PutAllKeeps`), so it holds of every state reached from the constructor.
   */
  class World {
    const id: EntityId := ROOT
    const width: real := WORLD_WIDTH
    const height: real := WORLD_HEIGHT
    var entities: map<EntityId, Table>
    var order: seq<EntityId>
    var nextEntityId: nat

    function State(): Store
      reads this
    {
      Store(entities, order, nextEntityId)
    }

    constructor ()
      ensures State() == Init()
    {
      entities := map[ROOT := map[]];
      order := [ROOT];
      nextEntityId := 1;
    }

    method CreatePlayer(num: int) returns (playerId: EntityId)
      modifies this
      ensures (State(), playerId) == NewPlayer(old(State()), num)
    {
      playerId := CreateEntity();
      AddComponent(id, Player(playerId, num));
    }

    method CreateEntity() returns (newId: EntityId)
      modifies this
      ensures (State(), newId) == Create(old(State()))
    {
      newId := nextEntityId;
      nextEntityId := nextEntityId + 1;
      entities := entities[newId := map[]];
      order := order + [newId];
    }

    method RemoveEntity(entityId: EntityId)
      modifies this
      ensures State() == Remove(old(State()), entityId)
    {
      entities := entities - {entityId};
      order := RemoveKey(order, entityId);
    }

    method AddComponent(entityId: EntityId, component: Component)
      modifies this
      ensures State() == Put(old(State()), entityId, component)
    {
      if entityId in entities {
        entities := entities[entityId := entities[entityId][component.Tag() := component]];
      }
    }

    method AddComponents(entityId: EntityId, components: seq<Component>)
      modifies this
      ensures State() == PutAll(old(State()), entityId, components)
    {
      PutAllLookup(State(), entityId, components);
      if entityId in entities {
        for i := 0 to |components|
          invariant PutAll(State(), entityId, components[i..]) == PutAll(old(State()), entityId, components)
        {
          assert components[i..][1..] == components[i + 1..];
          AddComponent(entityId, components[i]);
        }
      }
    }

    method GetComponent(entityId: EntityId, t: Tag) returns (component: Option<Component>)
      ensures component == Lookup(State(), entityId, t)
    {
      if entityId in entities && t in entities[entityId] {
        component := Some(entities[entityId][t]);
      } else {
        component := None;
      }
    }

    method GetComponents(t: Tag) returns (result: seq<(EntityId, Component)>)
      ensures result == Query(State(), t)
    {
      result := Enumerate(entities, order, t);
    }

    method HasComponent(entityId: EntityId, t: Tag) returns (b: bool)
      ensures b == Holds(State(), entityId, t)
    {
      b := entityId in entities && t in entities[entityId];
    }
  }

  /**
   * The `for (const [id, components] of this.entities)` loop of
   * `getComponents`: walks the keys in enumeration order and collects the
   * components of tag `t`.
   */
  method Enumerate(es: map<EntityId, Table>, keys: seq<EntityId>, t: Tag) returns (result: seq<(EntityId, Component)>)
    ensures result == QueryFrom(es, keys, t)
  {
    result := [];
    var i := 0;
    while i < |keys|
      invariant i <= |keys|
      invariant result + QueryFrom(es, keys[i..], t) == QueryFrom(es, keys, t)
    {
      var id := keys[i];
      var found := [];
      if id in es && t in es[id] {
        found := [(id, es[id][t])];
      }
      QueryFromStep(es, keys, i, t, result, found);
      result := result + found;
      i := i + 1;
    }
  }

  /** Deletes one key from an enumeration order (what `Map.delete` does to it). */
  method RemoveKey(order: seq<EntityId>, key: EntityId) returns (r: seq<EntityId>)
    ensures r == Without(order, key)
  {
    r := [];
    var i := |order|;
    while i > 0
      invariant 0 <= i <= |order|
      invariant Without(order[i..], key) == r
    {
      i := i - 1;
      assert order[i..][1..] == order[i + 1..];
      if order[i] != key {
        r := [order[i]] + r;
      }
    }
  }
}
