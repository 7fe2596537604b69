/**
 * `MovementSystem` (src/games/systems.ts): every entity with a `Position` and
 * a `Movement` that is moving tries one step of `speed` in its direction,
 * first along x, then along y, each axis kept only when `isValidPosition`
 * accepts the box. The source writes the coordinate into the `Position`
 * object it got from the store; the model files the updated record under
 * the same entity, which is the same thing because that object is the one
 * the store holds.
 */
module Movement {
  import opened Wrappers
  import opened Components
  import opened Worlds
  import opened Util

  /** The point one step of `speed` away from (x, y) in `direction` (y grows downwards). */
  function Advance(x: real, y: real, direction: Direction, speed: real): (real, real) {
    match direction
    case Up => (x, y - speed)
    case Down => (x, y + speed)
    case Left => (x - speed, y)
    case Right => (x + speed, y)
  }

  /** Whether an entity is standing: it has no `Movement`, or its `Movement` is not moving. */
  predicate Standing(s: Store, e: EntityId) {
    match Lookup(s, e, MovementTag)
    case Some(Movement(_, _, moving)) => !moving
    case _ => true
  }

  /** One axis of the step: `box` is filed when `isValidPosition` accepts it. */
  function TryMove(s: Store, id: EntityId, box: Box): Outcome {
    match Validity(s, box)
    case None => Fault(s)
    case Some(ok) => Ok(if ok then Put(s, id, box) else s)
  }

  /** The body of the loop for the snapshot entry `(id, position)`. */
  function MoveOne(s: Store, id: EntityId, position: Component): Outcome {
    match (position, Lookup(s, id, MovementTag))
    case (Position(x, y, w, h), Some(Movement(speed, direction, moving))) =>
      var (nx, ny) := if moving then Advance(x, y, direction, speed) else (x, y);
      (match TryMove(s, id, Position(nx, y, w, h))
       case Fault(s1) => Fault(s1)
       case Ok(s1) =>
         var x1 := if Validity(s, Position(nx, y, w, h)) == Some(true) then nx else x;
         TryMove(s1, id, Position(x1, ny, w, h)))
    case _ => Ok(s)
  }

  /** An axis step changes at most the entity's box, to `box`, and keeps the store well formed. */
  lemma TryMoveFrame(s: Store, id: EntityId, box: Box)
    ensures var r := TryMove(s, id, box).store;
      && r.entities.Keys == s.entities.Keys && r.order == s.order && r.nextId == s.nextId
      && (forall e, t :: (e != id || t != PositionTag) ==> Lookup(r, e, t) == Lookup(s, e, t))
      && (Lookup(r, id, PositionTag) != Lookup(s, id, PositionTag) ==> Lookup(r, id, PositionTag) == Some(box))
      && (Validity(s, box) == Some(true) ==> r == Put(s, id, box))
      && (Validity(s, box) != Some(true) ==> r == s)
      && (WellFormed(s) ==> WellFormed(r))
  {
    PutLookup(s, id, box);
    if WellFormed(s) {
      PutKeeps(s, id, box);
    }
  }

  /** The loop over the `Position` snapshot from entry `i` on; a throw ends it. */
  function MoveFrom(s: Store, snapshot: seq<(EntityId, Component)>, i: nat): Outcome
    decreases |snapshot| - i
  {
    if i >= |snapshot| then Ok(s)
    else match MoveOne(s, snapshot[i].0, snapshot[i].1)
      case Fault(s1) => Fault(s1)
      case Ok(s1) => MoveFrom(s1, snapshot, i + 1)
  }

  /** `MovementSystem.update(deltaTime)`; `deltaTime` is not used by the source. */
  function Moved(s: Store): Outcome {
    MoveFrom(s, Query(s, PositionTag), 0)
  }

  /**
   * One step touches nothing but the `Position` of its own entity, which
   * keeps its width and height.
   */
  lemma MoveOneFrame(s: Store, id: EntityId, position: Component)
    ensures var r := MoveOne(s, id, position).store;
      && r.entities.Keys == s.entities.Keys && r.order == s.order && r.nextId == s.nextId
      && (forall e, t :: (e != id || t != PositionTag) ==> Lookup(r, e, t) == Lookup(s, e, t))
      && (Lookup(r, id, PositionTag) != Lookup(s, id, PositionTag) ==>
            && position.Position? && Lookup(r, id, PositionTag).Some?
            && Lookup(r, id, PositionTag).value.Position?
            && Lookup(r, id, PositionTag).value.width == position.width
            && Lookup(r, id, PositionTag).value.height == position.height)
  {
    match (position, Lookup(s, id, MovementTag))
    case (Position(x, y, w, h), Some(Movement(speed, direction, moving))) =>
      var (nx, ny) := if moving then Advance(x, y, direction, speed) else (x, y);
      TryMoveFrame(s, id, Position(nx, y, w, h));
      var x1 := if Validity(s, Position(nx, y, w, h)) == Some(true) then nx else x;
      TryMoveFrame(TryMove(s, id, Position(nx, y, w, h)).store, id, Position(x1, ny, w, h));
    case _ =>
  }

  /** A standing entity whose snapshot entry is current keeps its box. */
  lemma MoveOneStill(s: Store, id: EntityId, position: Component)
    requires Lookup(s, id, PositionTag) == Some(position) && Standing(s, id)
    ensures MoveOne(s, id, position).store == s
  {
    match (position, Lookup(s, id, MovementTag))
    case (Position(x, y, w, h), Some(Movement(speed, direction, moving))) =>
      PutSame(s, id, Position(x, y, w, h));
      TryMoveFrame(s, id, Position(x, y, w, h));
    case _ =>
  }

  /**
   * The axis law: a moving entity moves only along its direction's axis, by
   * exactly `speed` or not at all, and it takes the step exactly when
   * `isValidPosition` accepts the stepped box.
   */
  lemma MoveOneAxis(s: Store, id: EntityId, position: Component, speed: real, direction: Direction)
    requires position.Position? && Lookup(s, id, PositionTag) == Some(position)
    requires Lookup(s, id, MovementTag) == Some(Movement(speed, direction, true))
    requires MoveOne(s, id, position).Ok?
    ensures var r := MoveOne(s, id, position).store;
      var (nx, ny) := Advance(position.x, position.y, direction, speed);
      var p := position;
      && Lookup(r, id, PositionTag).Some?
      && var q := Lookup(r, id, PositionTag).value;
      && q.Position? && q.width == p.width && q.height == p.height
      && (direction == Left || direction == Right ==>
            && q.y == p.y
            && (q.x == nx <== Validity(s, Position(nx, p.y, p.width, p.height)) == Some(true))
            && (q.x != p.x ==> q.x == nx && Validity(s, Position(nx, p.y, p.width, p.height)) == Some(true)))
      && (direction == Up || direction == Down ==>
            && q.x == p.x
            && (q.y == ny <== Validity(s, Position(p.x, ny, p.width, p.height)) == Some(true))
            && (q.y != p.y ==> q.y == ny && Validity(s, Position(p.x, ny, p.width, p.height)) == Some(true)))
  {
    var Position(x, y, w, h) := position;
    var (nx, ny) := Advance(x, y, direction, speed);
    TryMoveFrame(s, id, Position(nx, y, w, h));
    var s1 := TryMove(s, id, Position(nx, y, w, h)).store;
    var x1 := if Validity(s, Position(nx, y, w, h)) == Some(true) then nx else x;
    TryMoveFrame(s1, id, Position(x1, ny, w, h));
    PutLookup(s, id, Position(nx, y, w, h));
    PutLookup(s1, id, Position(x1, ny, w, h));
    if direction == Up || direction == Down {
      PutSame(s, id, Position(x, y, w, h));
      assert s1 == s;
    }
  }

  /** The whole pass touches only `Position` components. */
  lemma {:induction false} MoveFromFrame(s: Store, snapshot: seq<(EntityId, Component)>, i: nat)
    ensures var r := MoveFrom(s, snapshot, i).store;
      && r.entities.Keys == s.entities.Keys && r.order == s.order && r.nextId == s.nextId
      && forall e, t :: t != PositionTag ==> Lookup(r, e, t) == Lookup(s, e, t)
    decreases |snapshot| - i
  {
    if i < |snapshot| {
      MoveOneFrame(s, snapshot[i].0, snapshot[i].1);
      var o := MoveOne(s, snapshot[i].0, snapshot[i].1);
      if o.Ok? {
        MoveFromFrame(o.store, snapshot, i + 1);
      }
    }
  }

  /** One step keeps the store well formed. */
  lemma MoveOneKeeps(s: Store, id: EntityId, position: Component)
    requires WellFormed(s)
    ensures WellFormed(MoveOne(s, id, position).store)
  {
    match (position, Lookup(s, id, MovementTag))
    case (Position(x, y, w, h), Some(Movement(speed, direction, moving))) =>
      var (nx, ny) := if moving then Advance(x, y, direction, speed) else (x, y);
      TryMoveFrame(s, id, Position(nx, y, w, h));
      var x1 := if Validity(s, Position(nx, y, w, h)) == Some(true) then nx else x;
      TryMoveFrame(TryMove(s, id, Position(nx, y, w, h)).store, id, Position(x1, ny, w, h));
    case _ =>
  }

  lemma {:induction false} MoveFromKeeps(s: Store, snapshot: seq<(EntityId, Component)>, i: nat)
    requires WellFormed(s)
    ensures WellFormed(MoveFrom(s, snapshot, i).store)
    decreases |snapshot| - i
  {
    if i < |snapshot| {
      MoveOneKeeps(s, snapshot[i].0, snapshot[i].1);
      var o := MoveOne(s, snapshot[i].0, snapshot[i].1);
      if o.Ok? {
        MoveFromKeeps(o.store, snapshot, i + 1);
      }
    }
  }

  /**
   * Over a snapshot of distinct ids whose entries are current, a standing
   * entity keeps its box through the rest of the pass.
   */
  lemma {:induction false} MoveFromStill(s: Store, snapshot: seq<(EntityId, Component)>, i: nat, e: EntityId)
    requires forall a, b :: i <= a < b < |snapshot| ==> snapshot[a].0 < snapshot[b].0
    requires forall j :: i <= j < |snapshot| ==> Lookup(s, snapshot[j].0, PositionTag) == Some(snapshot[j].1)
    requires Standing(s, e)
    ensures Lookup(MoveFrom(s, snapshot, i).store, e, PositionTag) == Lookup(s, e, PositionTag)
    decreases |snapshot| - i
  {
    if i < |snapshot| {
      var (id, p) := snapshot[i];
      MoveOneFrame(s, id, p);
      var o := MoveOne(s, id, p);
      if e == id {
        MoveOneStill(s, id, p);
      }
      assert Lookup(o.store, e, PositionTag) == Lookup(s, e, PositionTag);
      if o.Ok? {
        assert Lookup(o.store, e, MovementTag) == Lookup(s, e, MovementTag);
        forall j | i + 1 <= j < |snapshot|
          ensures Lookup(o.store, snapshot[j].0, PositionTag) == Some(snapshot[j].1)
        {
          assert snapshot[i].0 < snapshot[j].0;
        }
        MoveFromStill(o.store, snapshot, i + 1, e);
      }
    }
  }

  /** Every box of `r` is a box of `s` with the same width and height. */
  ghost predicate SizesKept(s: Store, r: Store) {
    forall e :: Lookup(r, e, PositionTag).Some? && Lookup(r, e, PositionTag).value.Position? ==>
      && Lookup(s, e, PositionTag).Some? && Lookup(s, e, PositionTag).value.Position?
      && Lookup(r, e, PositionTag).value.width == Lookup(s, e, PositionTag).value.width
      && Lookup(r, e, PositionTag).value.height == Lookup(s, e, PositionTag).value.height
  }

  /**
   * Over a snapshot of distinct ids whose entries are current, the rest of
   * the pass changes no box's width or height.
   */
  lemma {:induction false} MoveFromSizes(s: Store, snapshot: seq<(EntityId, Component)>, i: nat)
    requires forall a, b :: i <= a < b < |snapshot| ==> snapshot[a].0 < snapshot[b].0
    requires forall j :: i <= j < |snapshot| ==> Lookup(s, snapshot[j].0, PositionTag) == Some(snapshot[j].1)
    ensures SizesKept(s, MoveFrom(s, snapshot, i).store)
    decreases |snapshot| - i
  {
    if i < |snapshot| {
      var (id, p) := snapshot[i];
      MoveOneFrame(s, id, p);
      var o := MoveOne(s, id, p);
      assert SizesKept(s, o.store);
      if o.Ok? {
        forall j | i + 1 <= j < |snapshot|
          ensures Lookup(o.store, snapshot[j].0, PositionTag) == Some(snapshot[j].1)
        {
          assert snapshot[i].0 < snapshot[j].0;
        }
        MoveFromSizes(o.store, snapshot, i + 1);
        assert MoveFrom(s, snapshot, i) == MoveFrom(o.store, snapshot, i + 1);
      }
    }
  }

  /**
   * `MovementSystem.update`: the store stays well formed, only boxes change,
   * no box changes its width or height, and an entity without a moving
   * `Movement` stays where it is.
   */
  lemma MovedEffect(s: Store)
    requires WellFormed(s)
    ensures WellFormed(Moved(s).store)
    ensures var r := Moved(s).store;
      && r.entities.Keys == s.entities.Keys && r.order == s.order && r.nextId == s.nextId
      && (forall e, t :: t != PositionTag ==> Lookup(r, e, t) == Lookup(s, e, t))
      && SizesKept(s, r)
      && (forall e :: Standing(s, e) ==> Lookup(r, e, PositionTag) == Lookup(s, e, PositionTag))
  {
    var snapshot := Query(s, PositionTag);
    MoveFromKeeps(s, snapshot, 0);
    MoveFromFrame(s, snapshot, 0);
    QueryComplete(s, PositionTag);
    MoveFromSizes(s, snapshot, 0);
    forall e | Standing(s, e) ensures Lookup(Moved(s).store, e, PositionTag) == Lookup(s, e, PositionTag) {
      MoveFromStill(s, snapshot, 0, e);
    }
  }

  class MovementSystem {
    const world: World

    constructor (world: World)
      ensures this.world == world
    {
      this.world := world;
    }

    /** `update(deltaTime)`: returns whether the pass ended by throwing. */
    method Update(deltaTime: real) returns (crashed: bool)
      modifies world
      ensures world.State() == Moved(old(world.State())).store
      ensures crashed == Moved(old(world.State())).Fault?
    {
      var entities := world.GetComponents(PositionTag);
      var i := 0;
      while i < |entities|
        invariant i <= |entities|
        invariant MoveFrom(world.State(), entities, i) == MoveFrom(old(world.State()), entities, 0)
        decreases |entities| - i
      {
        var (entityId, position) := entities[i];
        crashed := MoveEntity(entityId, position);
        if crashed {
          return;
        }
        i := i + 1;
      }
      crashed := false;
    }

    /** The loop body for one entry of the snapshot. */
    method MoveEntity(entityId: EntityId, position: Component) returns (crashed: bool)
      modifies world
      ensures world.State() == MoveOne(old(world.State()), entityId, position).store
      ensures crashed == MoveOne(old(world.State()), entityId, position).Fault?
    {
      var movement := world.GetComponent(entityId, MovementTag);
      if !position.Position? || movement.None? || !movement.value.Movement? {
        return false;
      }
      var m := movement.value;
      var newX, newY := position.x, position.y;
      if m.isMoving {
        match m.direction
        case Up => newY := newY - m.speed;
        case Down => newY := newY + m.speed;
        case Left => newX := newX - m.speed;
        case Right => newX := newX + m.speed;
      }
      assert (newX, newY) == if m.isMoving then Advance(position.x, position.y, m.direction, m.speed) else (position.x, position.y);
      ghost var s0 := world.State();
      var valid;
      crashed, valid := TryAxis(entityId, Position(newX, position.y, position.width, position.height));
      if crashed {
        return;
      }
      var x := if valid then newX else position.x;
      assert world.State() == TryMove(s0, entityId, Position(newX, position.y, position.width, position.height)).store;
      crashed, valid := TryAxis(entityId, Position(x, newY, position.width, position.height));
    }

    /** `if (isValidPosition(world, box)) position.<axis> = ...` for one axis. */
    method TryAxis(entityId: EntityId, box: Box) returns (crashed: bool, valid: bool)
      modifies world
      ensures world.State() == TryMove(old(world.State()), entityId, box).store
      ensures crashed == TryMove(old(world.State()), entityId, box).Fault?
      ensures !crashed ==> (valid <==> Validity(old(world.State()), box) == Some(true))
    {
      crashed, valid := IsValidPosition(world, box);
      if !crashed && valid {
        world.AddComponent(entityId, box);
      }
    }
  }
}
