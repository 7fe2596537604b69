/**
 * Geometry and level generation (src/games/util.ts): the box overlap test,
 * the "may a tank stand here" test against the walls and the world bounds,
 * and the level builder that replaces all walls by a steel border and random
 * interior tiles.
 */
module Util {
  import opened Wrappers
  import opened Components
  import opened Constants
  import opened Worlds

  /** A value such as `Math.random()` returns. */
  predicate Unit(r: real) {
    0.0 <= r < 1.0
  }

  function Abs(r: real): real {
    if r < 0.0 then -r else r
  }

  // ---------------------------------------------------------------- collision

  /** `checkCollision`: the boxes overlap on both axes, comparisons strict. */
  predicate CheckCollision(a: Box, b: Box) {
    && a.x < b.x + b.width
    && a.x + a.width > b.x
    && a.y < b.y + b.height
    && a.y + a.height > b.y
  }

  /** The overlap test does not depend on the order of its arguments. */
  lemma CollisionSymmetric(a: Box, b: Box)
    ensures CheckCollision(a, b) == CheckCollision(b, a)
  {
  }

  /** Boxes that only share an edge (or lie farther apart) do not collide. */
  lemma EdgeContactIsNoCollision(a: Box, b: Box)
    requires a.x + a.width <= b.x || b.x + b.width <= a.x || a.y + a.height <= b.y || b.y + b.height <= a.y
    ensures !CheckCollision(a, b)
  {
  }

  predicate Inside(px: real, py: real, b: Box) {
    b.x < px < b.x + b.width && b.y < py < b.y + b.height
  }

  /**
   * For boxes of positive size, the overlap test holds exactly when some
   * point lies strictly inside both boxes.
   */
  lemma CollisionIsSharedPoint(a: Box, b: Box)
    requires a.width > 0.0 && a.height > 0.0 && b.width > 0.0 && b.height > 0.0
    ensures CheckCollision(a, b) <==> exists px: real, py: real :: Inside(px, py, a) && Inside(px, py, b)
  {
    if CheckCollision(a, b) {
      var lx := if a.x < b.x then b.x else a.x;
      var hx := if a.x + a.width < b.x + b.width then a.x + a.width else b.x + b.width;
      var ly := if a.y < b.y then b.y else a.y;
      var hy := if a.y + a.height < b.y + b.height then a.y + a.height else b.y + b.height;
      assert Inside((lx + hx) / 2.0, (ly + hy) / 2.0, a) && Inside((lx + hx) / 2.0, (ly + hy) / 2.0, b);
    }
  }

  // ------------------------------------------------------------- wall search

  /**
   * The result of walking a snapshot (of walls, or of enemy tanks) and
   * testing each entry's position against a box.
   */
  datatype Scan =
    | Clear                                          // no entry that is examined overlaps
    | Hit(hitId: EntityId, hit: Component, at: Box)  // the first examined entry whose position `at` overlaps
    | Undefined                                      // an examined entry had no `Position`: `checkCollision` throws

  /** Walls whose type is in `passable` are skipped without looking at their position. */
  predicate Skipped(c: Component, passable: set<WallType>) {
    c.Wall? && c.wallType in passable
  }

  /**
   * The loop over a snapshot from index `i`: skip passable walls, throw on a
   * missing position, stop at the first entry whose position overlaps `box`.
   */
  function FirstHit(s: Store, walls: seq<(EntityId, Component)>, i: nat, box: Box, passable: set<WallType>): Scan
    decreases |walls| - i
  {
    if i >= |walls| then Clear
    else if Skipped(walls[i].1, passable) then FirstHit(s, walls, i + 1, box, passable)
    else match PositionOf(s, walls[i].0)
      case None => Undefined
      case Some(p) =>
        if CheckCollision(box, p) then Hit(walls[i].0, walls[i].1, p)
        else FirstHit(s, walls, i + 1, box, passable)
  }

  /** An entry that neither blocks nor throws. */
  predicate Passes(s: Store, entry: (EntityId, Component), box: Box, passable: set<WallType>) {
    || Skipped(entry.1, passable)
    || (PositionOf(s, entry.0).Some? && !CheckCollision(box, PositionOf(s, entry.0).value))
  }

  /** The scan is clear exactly when every remaining entry passes. */
  lemma {:induction false} ScanClear(s: Store, walls: seq<(EntityId, Component)>, i: nat, box: Box, passable: set<WallType>)
    ensures FirstHit(s, walls, i, box, passable) == Clear <==>
            forall k :: i <= k < |walls| ==> Passes(s, walls[k], box, passable)
    decreases |walls| - i
  {
    if i < |walls| {
      ScanClear(s, walls, i + 1, box, passable);
    }
  }

  /**
   * A blocked scan names an entry of the snapshot: a blocking wall whose
   * position overlaps the box, with every entry before it passing.
   */
  lemma {:induction false} FirstHitFound(s: Store, walls: seq<(EntityId, Component)>, i: nat, box: Box, passable: set<WallType>)
    requires FirstHit(s, walls, i, box, passable).Hit?
    ensures exists k :: (
      && i <= k < |walls|
      && walls[k] == (FirstHit(s, walls, i, box, passable).hitId, FirstHit(s, walls, i, box, passable).hit)
      && !Skipped(walls[k].1, passable)
      && PositionOf(s, walls[k].0) == Some(FirstHit(s, walls, i, box, passable).at)
      && CheckCollision(box, FirstHit(s, walls, i, box, passable).at)
      && forall j :: i <= j < k ==> Passes(s, walls[j], box, passable))
    decreases |walls| - i
  {
    if Skipped(walls[i].1, passable) || !CheckCollision(box, PositionOf(s, walls[i].0).value) {
      FirstHitFound(s, walls, i + 1, box, passable);
    }
  }

  // ------------------------------------------------------- isValidPosition

  /** The bounds test of `isValidPosition`: inclusive, against the world size. */
  predicate InBounds(b: Box) {
    !(b.x < 0.0 || b.x + b.width > WORLD_WIDTH || b.y < 0.0 || b.y + b.height > WORLD_HEIGHT)
  }

  /**
   * `isValidPosition(world, pos)`: `None` when the search throws, otherwise
   * whether no non-bush wall overlaps `pos` and `pos` is in bounds.
   */
  function Validity(s: Store, pos: Box): Option<bool> {
    match FirstHit(s, Query(s, WallTag), 0, pos, {Bush})
    case Undefined => None
    case Hit(_, _, _) => Some(false)
    case Clear => Some(InBounds(pos))
  }

  /** `w` holds a `Wall` whose type the scan does not skip. */
  predicate Blocking(s: Store, w: EntityId, passable: set<WallType>) {
    Lookup(s, w, WallTag).Some? && !Skipped(Lookup(s, w, WallTag).value, passable)
  }

  /** The scan reads nothing but the positions of the entries. */
  lemma {:induction false} FirstHitAgree(s: Store, r: Store, walls: seq<(EntityId, Component)>, i: nat, box: Box, passable: set<WallType>)
    requires forall e :: PositionOf(r, e) == PositionOf(s, e)
    ensures FirstHit(r, walls, i, box, passable) == FirstHit(s, walls, i, box, passable)
    decreases |walls| - i
  {
    if i < |walls| {
      FirstHitAgree(s, r, walls, i + 1, box, passable);
    }
  }

  /** `isValidPosition` reads nothing but the walls, their order and the positions. */
  lemma ValidityAgree(s: Store, r: Store, pos: Box)
    requires s.order == r.order
    requires forall e :: Lookup(r, e, WallTag) == Lookup(s, e, WallTag) && Lookup(r, e, PositionTag) == Lookup(s, e, PositionTag)
    ensures Validity(r, pos) == Validity(s, pos)
  {
    QueryAgree(s, r, WallTag);
    forall e ensures PositionOf(r, e) == PositionOf(s, e) {
      assert Lookup(r, e, PositionTag) == Lookup(s, e, PositionTag);
    }
    FirstHitAgree(s, r, Query(s, WallTag), 0, pos, {Bush});
  }

  /** Writing a component that is neither a wall nor a position leaves every validity answer as it was. */
  lemma ValidityPut(s: Store, id: EntityId, c: Component, pos: Box)
    requires c.Tag() != WallTag && c.Tag() != PositionTag
    ensures Validity(Put(s, id, c), pos) == Validity(s, pos)
  {
    PutLookup(s, id, c);
    ValidityAgree(s, Put(s, id, c), pos);
  }

  /** A non-bush wall entity whose position overlaps `pos` makes the position invalid (or the search throws). */
  lemma ValidityBlocked(s: Store, pos: Box, w: EntityId)
    requires WellFormed(s) && Blocking(s, w, {Bush})
    requires PositionOf(s, w).Some? && CheckCollision(pos, PositionOf(s, w).value)
    ensures Validity(s, pos) != Some(true)
  {
    var walls := Query(s, WallTag);
    QueryComplete(s, WallTag);
    assert Holds(s, w, WallTag);
    var k :| 0 <= k < |walls| && walls[k].0 == w;
    assert !Passes(s, walls[k], pos, {Bush});
    ScanClear(s, walls, 0, pos, {Bush});
  }

  /**
   * When every non-bush wall has a position that misses `pos`, walls do not
   * matter; bushes and entities without `Wall` never do. The position is
   * then valid exactly when it lies in [0, width] x [0, height].
   */
  lemma ValidityClear(s: Store, pos: Box)
    requires WellFormed(s)
    requires forall w :: Blocking(s, w, {Bush}) ==> PositionOf(s, w).Some? && !CheckCollision(pos, PositionOf(s, w).value)
    ensures Validity(s, pos) == Some(0.0 <= pos.x && pos.x + pos.width <= WORLD_WIDTH && 0.0 <= pos.y && pos.y + pos.height <= WORLD_HEIGHT)
  {
    var walls := Query(s, WallTag);
    forall k | 0 <= k < |walls| ensures Passes(s, walls[k], pos, {Bush}) {
      assert Lookup(s, walls[k].0, WallTag) == Some(walls[k].1);
    }
    ScanClear(s, walls, 0, pos, {Bush});
  }

  /** The search throws only on reaching a non-bush wall without a position. */
  lemma ValidityUndefined(s: Store, pos: Box)
    requires WellFormed(s)
    requires forall w :: Blocking(s, w, {Bush}) ==> PositionOf(s, w).Some?
    ensures Validity(s, pos).Some?
  {
    var walls := Query(s, WallTag);
    if FirstHit(s, walls, 0, pos, {Bush}).Undefined? {
      UndefinedNeedsMissing(s, walls, 0, pos, {Bush});
    }
  }

  lemma {:induction false} UndefinedNeedsMissing(s: Store, walls: seq<(EntityId, Component)>, i: nat, box: Box, passable: set<WallType>)
    requires FirstHit(s, walls, i, box, passable).Undefined?
    ensures exists k :: i <= k < |walls| && !Skipped(walls[k].1, passable) && PositionOf(s, walls[k].0).None?
    decreases |walls| - i
  {
    if Skipped(walls[i].1, passable) || PositionOf(s, walls[i].0).Some? {
      UndefinedNeedsMissing(s, walls, i + 1, box, passable);
    }
  }

  /** `isValidPosition`: a read-only search with an early return. */
  method IsValidPosition(world: World, pos: Box) returns (crashed: bool, valid: bool)
    ensures Validity(world.State(), pos) == if crashed then None else Some(valid)
  {
    var walls := world.GetComponents(WallTag);
    var i := 0;
    while i < |walls|
      invariant i <= |walls|
      invariant FirstHit(world.State(), walls, i, pos, {Bush}) == FirstHit(world.State(), walls, 0, pos, {Bush})
    {
      var (wallId, wall) := walls[i];
      if !(wall.Wall? && wall.wallType == Bush) {
        var wallPos := world.GetComponent(wallId, PositionTag);
        if !(wallPos.Some? && wallPos.value.Position?) {
          return true, false;
        }
        if CheckCollision(pos, wallPos.value) {
          return false, false;
        }
      }
      i := i + 1;
    }
    return false, InBounds(pos);
  }

  // ---------------------------------------------------------- generateLevel

  /** A 32x32 wall tile at a grid cell. */
  datatype Tile = Tile(col: int, row: int, wallType: WallType)

  function TileBox(t: Tile): Box {
    Position((t.col * TILE_SIZE) as real, (t.row * TILE_SIZE) as real, TILE_SIZE as real, TILE_SIZE as real)
  }

  /** Two tiles overlap exactly when they sit on the same cell. */
  lemma TilesCollide(a: Tile, b: Tile)
    ensures CheckCollision(TileBox(a), TileBox(b)) <==> a.col == b.col && a.row == b.row
  {
  }

  /** The removal loop `walls.forEach(([wallId]) => world.removeEntity(wallId))`. */
  function RemoveAll(s: Store, snapshot: seq<(EntityId, Component)>): Store
    decreases |snapshot|
  {
    if snapshot == [] then s else RemoveAll(Remove(s, snapshot[0].0), snapshot[1..])
  }

  /** `e` is the id of some entry of the snapshot. */
  predicate Listed(snapshot: seq<(EntityId, Component)>, e: EntityId) {
    exists k :: 0 <= k < |snapshot| && snapshot[k].0 == e
  }

  /** Removing a snapshot deletes exactly the listed entities and keeps the rest as they were. */
  /** Removing entities never moves the counter. */
  lemma {:induction false} RemoveAllCounter(s: Store, snapshot: seq<(EntityId, Component)>)
    ensures RemoveAll(s, snapshot).nextId == s.nextId
    decreases |snapshot|
  {
    if snapshot != [] {
      RemoveAllCounter(Remove(s, snapshot[0].0), snapshot[1..]);
    }
  }

  lemma {:induction false} RemoveAllEffect(s: Store, snapshot: seq<(EntityId, Component)>)
    requires WellFormed(s)
    ensures WellFormed(RemoveAll(s, snapshot)) && RemoveAll(s, snapshot).nextId == s.nextId
    ensures forall e :: e in RemoveAll(s, snapshot).entities <==> e in s.entities && !Listed(snapshot, e)
    ensures forall e :: e in RemoveAll(s, snapshot).entities ==> RemoveAll(s, snapshot).entities[e] == s.entities[e]
    decreases |snapshot|
  {
    if snapshot != [] {
      RemoveKeeps(s, snapshot[0].0);
      RemoveAllEffect(Remove(s, snapshot[0].0), snapshot[1..]);
      forall e ensures Listed(snapshot, e) <==> e == snapshot[0].0 || Listed(snapshot[1..], e) {
        if Listed(snapshot, e) && e != snapshot[0].0 {
          var k :| 0 <= k < |snapshot| && snapshot[k].0 == e;
          assert snapshot[1..][k - 1].0 == e;
        }
        if Listed(snapshot[1..], e) {
          var k :| 0 <= k < |snapshot[1..]| && snapshot[1..][k].0 == e;
          assert snapshot[k + 1].0 == e;
        }
      }
    }
  }

  /** The table a placed tile gets. */
  function TileTable(t: Tile): Table {
    map[PositionTag := TileBox(t), WallTag := Wall(t.wallType)]
  }

  /** A placed tile: one new entity, the counter, holding exactly the tile's position and wall. */
  function Placed(s: Store, t: Tile): Store {
    Store(s.entities[s.nextId := TileTable(t)], s.order + [s.nextId], s.nextId + 1)
  }

  /** `createEntity` followed by `addComponents(id, [Position(...), Wall(type)])` places the tile. */
  lemma PlacedByCreateAndAdd(s: Store, t: Tile)
    ensures PutAll(Create(s).0, Create(s).1, [TileBox(t), Wall(t.wallType)]) == Placed(s, t)
  {
    var cs := [TileBox(t), Wall(t.wallType)];
    SpawnByCreateAndAdd(s, cs);
    assert cs[1..] == [Wall(t.wallType)] && cs[1..][1..] == [];
    assert AddAll(map[], cs) == AddAll(map[PositionTag := TileBox(t)], [Wall(t.wallType)]);
    assert AddAll(map[], cs) == map[PositionTag := TileBox(t)][WallTag := Wall(t.wallType)];
  }

  lemma PlacedKeeps(s: Store, t: Tile)
    requires WellFormed(s)
    ensures WellFormed(Placed(s, t))
  {
    var (s1, id) := Create(s);
    CreateKeeps(s);
    PutAllKeeps(s1, id, [TileBox(t), Wall(t.wallType)]);
    PlacedByCreateAndAdd(s, t);
  }

  /** Tiles placed one after another, in list order. */
  function PlacedAll(s: Store, tiles: seq<Tile>): Store
    decreases |tiles|
  {
    if tiles == [] then s else PlacedAll(Placed(s, tiles[0]), tiles[1..])
  }

  lemma {:induction false} PlacedAllKeeps(s: Store, tiles: seq<Tile>)
    requires WellFormed(s)
    ensures WellFormed(PlacedAll(s, tiles))
    decreases |tiles|
  {
    if tiles != [] {
      PlacedKeeps(s, tiles[0]);
      PlacedAllKeeps(Placed(s, tiles[0]), tiles[1..]);
    }
  }

  /**
   * Placing tiles creates one entity per tile, with consecutive ids from the
   * counter, each holding exactly its tile; nothing else changes.
   */
  lemma {:induction false} PlacedAllEffect(s: Store, tiles: seq<Tile>)
    ensures PlacedAll(s, tiles).nextId == s.nextId + |tiles|
    ensures forall e :: e in PlacedAll(s, tiles).entities <==> e in s.entities || s.nextId <= e < s.nextId + |tiles|
    ensures forall e :: e in s.entities && e < s.nextId ==> PlacedAll(s, tiles).entities[e] == s.entities[e]
    ensures forall k :: 0 <= k < |tiles| ==> PlacedAll(s, tiles).entities[s.nextId + k] == TileTable(tiles[k])
    decreases |tiles|
  {
    if tiles != [] {
      var s1 := Placed(s, tiles[0]);
      PlacedAllEffect(s1, tiles[1..]);
      forall k | 0 < k < |tiles| ensures tiles[1..][k - 1] == tiles[k] {
      }
    }
  }

  predicate OnBorder(x: int, y: int) {
    x == 0 || x == GRID_WIDTH - 1 || y == 0
  }

  /** How many tiles the border has: two full columns and the top row between them (48 on 20x15). */
  const BORDER_COUNT: int := 2 * GRID_HEIGHT + GRID_WIDTH - 2

  /**
   * The `k`-th tile the nested border loop creates: the left column from the
   * top, then the top row, then the right column from the top.
   */
  function BorderTile(k: int): Tile {
    if k < GRID_HEIGHT then Tile(0, k, Steel)
    else if k < GRID_HEIGHT + GRID_WIDTH - 2 then Tile(k - GRID_HEIGHT + 1, 0, Steel)
    else Tile(GRID_WIDTH - 1, k - (GRID_HEIGHT + GRID_WIDTH - 2), Steel)
  }

  /** The border tiles from the `k`-th on, placed one after another. */
  function PlacedBorder(s: Store, k: int): Store
    decreases BORDER_COUNT - k
  {
    if k >= BORDER_COUNT then s else PlacedBorder(Placed(s, BorderTile(k)), k + 1)
  }

  lemma {:induction false} PlacedBorderKeeps(s: Store, k: int)
    requires WellFormed(s)
    ensures WellFormed(PlacedBorder(s, k))
    decreases BORDER_COUNT - k
  {
    if k < BORDER_COUNT {
      PlacedKeeps(s, BorderTile(k));
      PlacedBorderKeeps(Placed(s, BorderTile(k)), k + 1);
    }
  }

  /** Placing the border from the `k`-th tile advances the counter once per remaining tile. */
  lemma {:induction false} PlacedBorderCount(s: Store, k: int)
    requires 0 <= k <= BORDER_COUNT
    ensures PlacedBorder(s, k).nextId == s.nextId + (BORDER_COUNT - k)
    decreases BORDER_COUNT - k
  {
    if k < BORDER_COUNT {
      PlacedBorderCount(Placed(s, BorderTile(k)), k + 1);
    }
  }

  /** The border adds exactly the ids from the counter on, one per remaining tile. */
  lemma {:induction false} PlacedBorderDomain(s: Store, k: int)
    requires 0 <= k <= BORDER_COUNT
    ensures forall e :: e in PlacedBorder(s, k).entities <==> e in s.entities || s.nextId <= e < s.nextId + (BORDER_COUNT - k)
    decreases BORDER_COUNT - k
  {
    if k < BORDER_COUNT {
      PlacedBorderDomain(Placed(s, BorderTile(k)), k + 1);
    }
  }

  /** The border leaves every entity below the counter as it was. */
  lemma {:induction false} PlacedBorderKeepsOld(s: Store, k: int)
    requires 0 <= k <= BORDER_COUNT
    ensures forall e :: e in s.entities && e < s.nextId ==> e in PlacedBorder(s, k).entities && PlacedBorder(s, k).entities[e] == s.entities[e]
    decreases BORDER_COUNT - k
  {
    if k < BORDER_COUNT {
      PlacedBorderKeepsOld(Placed(s, BorderTile(k)), k + 1);
    }
  }

  /** The entity `k + i` ids after the counter holds exactly the `i`-th remaining border tile. */
  lemma {:induction false} PlacedBorderNew(s: Store, k: int)
    requires 0 <= k <= BORDER_COUNT
    ensures forall e :: s.nextId <= e < s.nextId + (BORDER_COUNT - k) ==>
      e in PlacedBorder(s, k).entities && PlacedBorder(s, k).entities[e] == TileTable(BorderTile(k + e - s.nextId))
    decreases BORDER_COUNT - k
  {
    if k < BORDER_COUNT {
      var s1 := Placed(s, BorderTile(k));
      PlacedBorderKeepsOld(s1, k + 1);
      PlacedBorderNew(s1, k + 1);
      var r := PlacedBorder(s1, k + 1);
      assert PlacedBorder(s, k) == r;
      forall e | s1.nextId <= e < s.nextId + (BORDER_COUNT - k)
        ensures e in r.entities && r.entities[e] == TileTable(BorderTile(k + e - s.nextId))
      {
        assert k + 1 + e - s1.nextId == k + e - s.nextId;
      }
    }
  }

  /** How many border tiles the loop has created before it reaches cell (x, y). */
  function BorderBefore(x: int, y: int): int {
    if x <= 0 then y
    else if x < GRID_WIDTH - 1 then GRID_HEIGHT + (x - 1) + (if y > 0 then 1 else 0)
    else if x == GRID_WIDTH - 1 then GRID_HEIGHT + GRID_WIDTH - 2 + y
    else BORDER_COUNT
  }

  /** One cell of the border loop: a border cell is the next tile of the list, any other cell adds nothing. */
  lemma BorderStep(x: int, y: int)
    requires 0 <= x < GRID_WIDTH && 0 <= y < GRID_HEIGHT
    ensures 0 <= BorderBefore(x, y) <= BorderBefore(x, y + 1) <= BORDER_COUNT
    ensures OnBorder(x, y) ==> (BorderBefore(x, y + 1) == BorderBefore(x, y) + 1
      && BorderTile(BorderBefore(x, y)) == Tile(x, y, Steel))
    ensures !OnBorder(x, y) ==> BorderBefore(x, y + 1) == BorderBefore(x, y)
    ensures y + 1 == GRID_HEIGHT ==> BorderBefore(x, y + 1) == BorderBefore(x + 1, 0)
  {
  }

  /**
   * The border: 48 different steel tiles, one on every cell of the left
   * column, the right column and the top row; the bottom row is open between
   * the corners.
   */
  lemma BorderLayout()
    ensures BORDER_COUNT == 48
    ensures forall k :: 0 <= k < BORDER_COUNT ==> (var t := BorderTile(k);
      t.wallType == Steel && 0 <= t.col < GRID_WIDTH && 0 <= t.row < GRID_HEIGHT && OnBorder(t.col, t.row))
    ensures forall x, y :: 0 <= x < GRID_WIDTH && 0 <= y < GRID_HEIGHT && OnBorder(x, y) ==>
      0 <= BorderBefore(x, y) < BORDER_COUNT && BorderTile(BorderBefore(x, y)) == Tile(x, y, Steel)
    ensures forall j, k :: 0 <= j < k < BORDER_COUNT ==> BorderTile(j) != BorderTile(k)
    ensures forall k :: 0 <= k < BORDER_COUNT && BorderTile(k).row == GRID_HEIGHT - 1 ==>
      BorderTile(k).col == 0 || BorderTile(k).col == GRID_WIDTH - 1
  {
  }

  /** The random choices of one pass of the interior loop: column, row and up to three type rolls. */
  datatype TileDraw = TileDraw(col: real, row: real, kind1: real, kind2: real, kind3: real) {
    predicate InRange() {
      Unit(col) && Unit(row) && Unit(kind1) && Unit(kind2) && Unit(kind3)
    }
  }

  /** The wall type chooser: brick 70%, then water, bush and steel by halves. */
  function DrawnWallType(d: TileDraw): WallType {
    if d.kind1 < 0.7 then Brick
    else if d.kind2 < 0.5 then Water
    else if d.kind3 < 0.5 then Bush
    else Steel
  }

  function DrawnTile(d: TileDraw): Tile {
    Tile((d.col * (GRID_WIDTH - 2) as real).Floor + 1, (d.row * (GRID_HEIGHT - 3) as real).Floor + 1, DrawnWallType(d))
  }

  /** Random cells land in columns 1..18 and rows 1..12. */
  lemma DrawnTileRange(d: TileDraw)
    requires d.InRange()
    ensures 1 <= DrawnTile(d).col <= GRID_WIDTH - 2 && 1 <= DrawnTile(d).row <= GRID_HEIGHT - 3
  {
  }

  /** The "don't place walls near player spawn" test. */
  predicate NearSpawn(t: Tile, px: real, py: real) {
    Abs((t.col * TILE_SIZE) as real - px) < (TILE_SIZE * 2) as real && Abs((t.row * TILE_SIZE) as real - py) < (TILE_SIZE * 2) as real
  }

  /** The interior tiles passes `i` up to `n` add, given the player's position. */
  function InteriorTiles(draws: nat -> TileDraw, i: nat, n: int, px: real, py: real): seq<Tile>
    decreases n - i
  {
    if i >= n then []
    else
      var t := DrawnTile(draws(i));
      (if NearSpawn(t, px, py) then [] else [t]) + InteriorTiles(draws, i + 1, n, px, py)
  }

  /**
   * At most `n - i` interior tiles, each a drawn cell in columns 1..18 and
   * rows 1..12, none near the player.
   */
  lemma {:induction false} InteriorShape(draws: nat -> TileDraw, i: nat, n: int, px: real, py: real)
    requires forall j :: draws(j).InRange()
    ensures |InteriorTiles(draws, i, n, px, py)| <= if n > i then n - i else 0
    ensures forall t :: t in InteriorTiles(draws, i, n, px, py) ==>
      1 <= t.col <= GRID_WIDTH - 2 && 1 <= t.row <= GRID_HEIGHT - 3 && !NearSpawn(t, px, py)
    decreases n - i
  {
    if i < n {
      DrawnTileRange(draws(i));
      InteriorShape(draws, i + 1, n, px, py);
    }
  }

  /**
   * Seen from the start position of `DirectorSystem` (y = 448, the bottom
   * row), no drawn cell is near the player, so every pass adds a tile.
   */
  lemma {:induction false} InteriorFromStart(draws: nat -> TileDraw, i: nat, n: int, px: real)
    requires forall j :: draws(j).InRange()
    ensures |InteriorTiles(draws, i, n, px, ((GRID_HEIGHT - 1) * TILE_SIZE) as real)| == if n > i then n - i else 0
    decreases n - i
  {
    if i < n {
      DrawnTileRange(draws(i));
      InteriorFromStart(draws, i + 1, n, px);
    }
  }

  /** Interior tiles miss every border tile and the player's start box at (304, 448). */
  lemma InteriorClear(t: Tile, b: Tile)
    requires 1 <= t.col <= GRID_WIDTH - 2 && 1 <= t.row <= GRID_HEIGHT - 3
    requires b.row == 0 || b.col == 0 || b.col == GRID_WIDTH - 1
    ensures !CheckCollision(TileBox(t), TileBox(b))
    ensures !CheckCollision(TileBox(t), Position(304.0, 448.0, 32.0, 32.0))
  {
    TilesCollide(t, b);
  }

  /** The first stage of `generateLevel`: every wall of the snapshot removed. */
  function Cleared(s: Store): Store {
    RemoveAll(s, Query(s, WallTag))
  }

  /** The second stage: the steel border built. */
  function Bordered(s: Store): Store {
    PlacedBorder(s, 0)
  }

  /**
   * The last stage, given the `Level` read after clearing: `player.id`
   * throws if there is no `Player`, the loop test throws if there is no
   * `Level`, and the first pass throws if the player has no `Position`.
   */
  function Furnished(s: Store, level: Option<Component>, draws: nat -> TileDraw): Outcome {
    match Lookup(s, ROOT, PlayerTag)
    case Some(Player(playerId, _)) =>
      var playerPos := PositionOf(s, playerId);
      (match level
       case Some(Level(index)) =>
         var n := 40 + index * 5;
         if n <= 0 then Ok(s)
         else if playerPos.None? then Fault(s)
         else Ok(PlacedAll(s, InteriorTiles(draws, 0, n, playerPos.value.x, playerPos.value.y)))
       case _ => Fault(s))
    case _ => Fault(s)
  }

  /** `generateLevel`. */
  function Generate(s: Store, draws: nat -> TileDraw): Outcome {
    Furnished(Bordered(Cleared(s)), Lookup(Cleared(s), ROOT, LevelTag), draws)
  }

  /** Clearing keeps the store well-formed and the counter where it was. */
  lemma ClearedKeeps(s: Store)
    requires WellFormed(s)
    ensures WellFormed(Cleared(s)) && Cleared(s).nextId == s.nextId
  {
    RemoveAllEffect(s, Query(s, WallTag));
  }

  /** Clearing removes exactly the entities holding a `Wall` and keeps every other entity as it was. */
  lemma ClearedEffect(s: Store)
    requires WellFormed(s)
    ensures WellFormed(Cleared(s)) && Cleared(s).nextId == s.nextId
    ensures forall e :: e in Cleared(s).entities <==> e in s.entities && !Holds(s, e, WallTag)
    ensures forall e :: e in Cleared(s).entities ==> Cleared(s).entities[e] == s.entities[e]
  {
    var walls := Query(s, WallTag);
    QueryComplete(s, WallTag);
    RemoveAllEffect(s, walls);
    forall e ensures Listed(walls, e) <==> Holds(s, e, WallTag) {
      if Listed(walls, e) {
        var k :| 0 <= k < |walls| && walls[k].0 == e;
        assert Lookup(s, walls[k].0, WallTag) == Some(walls[k].1);
      }
    }
  }

  /** Bordering adds the 48 border tiles under the next ids and keeps the rest. */
  lemma BorderedEffect(s: Store)
    ensures Bordered(s).nextId == s.nextId + BORDER_COUNT
    ensures forall e :: e in Bordered(s).entities <==> e in s.entities || s.nextId <= e < s.nextId + BORDER_COUNT
    ensures forall e :: e in s.entities && e < s.nextId ==> Bordered(s).entities[e] == s.entities[e]
    ensures forall e :: s.nextId <= e < s.nextId + BORDER_COUNT ==> Bordered(s).entities[e] == TileTable(BorderTile(e - s.nextId))
  {
    PlacedBorderCount(s, 0);
    PlacedBorderDomain(s, 0);
    PlacedBorderKeepsOld(s, 0);
    PlacedBorderNew(s, 0);
  }

  /** The border's 48 tiles are the entities from the old counter on. */
  lemma BorderedTiles(s: Store, at: int)
    requires at == s.nextId
    ensures Bordered(s).nextId == at + BORDER_COUNT
    ensures forall e :: at <= e < at + BORDER_COUNT ==>
      e in Bordered(s).entities && Bordered(s).entities[e] == TileTable(BorderTile(e - at))
  {
    PlacedBorderCount(s, 0);
    PlacedBorderNew(s, 0);
    forall e | at <= e < at + BORDER_COUNT
      ensures e in Bordered(s).entities && Bordered(s).entities[e] == TileTable(BorderTile(e - at))
    {
      assert 0 + e - s.nextId == e - at;
    }
  }

  lemma BorderedKeeps(s: Store)
    requires WellFormed(s)
    ensures WellFormed(Bordered(s))
  {
    PlacedBorderKeeps(s, 0);
  }

  /**
   * Furnishing keeps a store well-formed and, when it places interior
   * tiles, only adds entities above the counter.
   */
  lemma FurnishedEffect(s: Store, level: Option<Component>, draws: nat -> TileDraw)
    requires WellFormed(s)
    ensures WellFormed(Furnished(s, level, draws).store)
    ensures forall e :: e in s.entities ==> e in Furnished(s, level, draws).store.entities && Furnished(s, level, draws).store.entities[e] == s.entities[e]
    ensures forall e :: e in Furnished(s, level, draws).store.entities ==> e in s.entities || e >= s.nextId
  {
    var r := Furnished(s, level, draws).store;
    if r != s {
      var playerId := Lookup(s, ROOT, PlayerTag).value.id;
      var index := level.value.index;
      var pos := PositionOf(s, playerId).value;
      var tiles := InteriorTiles(draws, 0, 40 + index * 5, pos.x, pos.y);
      assert r == PlacedAll(s, tiles);
      PlacedAllEffect(s, tiles);
      PlacedAllKeeps(s, tiles);
    }
  }

  /** `generateLevel` keeps the store well-formed, whether or not it throws. */
  lemma GenerateKeeps(s: Store, draws: nat -> TileDraw)
    requires WellFormed(s)
    ensures WellFormed(Generate(s, draws).store)
  {
    var s1 := Cleared(s);
    ClearedKeeps(s);
    BorderedKeeps(s1);
    FurnishedEffect(Bordered(s1), Lookup(s1, ROOT, LevelTag), draws);
  }

  /** Furnishing leaves a border placed below the counter, from id `base` on, where it was. */
  lemma FurnishedKeepsBorder(s: Store, base: int, level: Option<Component>, draws: nat -> TileDraw)
    requires base + BORDER_COUNT <= s.nextId
    requires forall e :: base <= e < base + BORDER_COUNT ==> e in s.entities && s.entities[e] == TileTable(BorderTile(e - base))
    ensures forall e :: base <= e < base + BORDER_COUNT ==>
      e in Furnished(s, level, draws).store.entities && Furnished(s, level, draws).store.entities[e] == TileTable(BorderTile(e - base))
  {
    var r := Furnished(s, level, draws).store;
    if r != s {
      var playerId := Lookup(s, ROOT, PlayerTag).value.id;
      var index := level.value.index;
      var pos := PositionOf(s, playerId).value;
      var tiles := InteriorTiles(draws, 0, 40 + index * 5, pos.x, pos.y);
      assert r == PlacedAll(s, tiles);
      PlacedAllEffect(s, tiles);
    }
  }

  /**
   * After `generateLevel`, thrown or not, no old wall is left and every other
   * old entity is unchanged.
   */
  lemma GenerateClears(s: Store, draws: nat -> TileDraw)
    requires WellFormed(s)
    ensures forall e :: e in s.entities ==> (e in Generate(s, draws).store.entities <==> !Holds(s, e, WallTag))
    ensures forall e :: e in s.entities && !Holds(s, e, WallTag) ==> Generate(s, draws).store.entities[e] == s.entities[e]
  {
    var s1 := Cleared(s);
    ClearedEffect(s);
    var s2 := Bordered(s1);
    BorderedEffect(s1);
    BorderedKeeps(s1);
    var level := Lookup(s1, ROOT, LevelTag);
    FurnishedEffect(s2, level, draws);
    var s3 := Furnished(s2, level, draws).store;
    assert s3 == Generate(s, draws).store;
    forall e | e in s.entities
      ensures e in s3.entities <==> !Holds(s, e, WallTag)
      ensures !Holds(s, e, WallTag) ==> s3.entities[e] == s.entities[e]
    {
      assert e < s.nextId;
      if !Holds(s, e, WallTag) {
        assert e in s1.entities && s1.entities[e] == s.entities[e];
        assert s2.entities[e] == s1.entities[e];
      } else {
        assert e !in s1.entities;
        assert e !in s2.entities;
      }
    }
  }

  /**
   * After `generateLevel`, thrown or not, the 48 ids after the old counter
   * are the steel border tiles.
   */
  lemma GenerateBorders(s: Store, draws: nat -> TileDraw)
    ensures forall e :: s.nextId <= e < s.nextId + BORDER_COUNT ==>
      e in Generate(s, draws).store.entities && Generate(s, draws).store.entities[e] == TileTable(BorderTile(e - s.nextId))
  {
    var s1 := Cleared(s);
    RemoveAllCounter(s, Query(s, WallTag));
    BorderedFurnished(s1, Lookup(s1, ROOT, LevelTag), draws, s.nextId);
  }

  /** The border, then the interior: the border's tiles are still the entities from the old counter on. */
  lemma BorderedFurnished(s: Store, level: Option<Component>, draws: nat -> TileDraw, at: int)
    requires at == s.nextId
    ensures forall e :: at <= e < at + BORDER_COUNT ==>
      e in Furnished(Bordered(s), level, draws).store.entities &&
      Furnished(Bordered(s), level, draws).store.entities[e] == TileTable(BorderTile(e - at))
  {
    BorderedTiles(s, at);
    FurnishedKeepsBorder(Bordered(s), at, level, draws);
  }

  /** One tile: `createEntity` and `addComponents`. */
  method PlaceTile(world: World, t: Tile)
    modifies world
    ensures world.State() == Placed(old(world.State()), t)
  {
    PlacedByCreateAndAdd(world.State(), t);
    var wallId := world.CreateEntity();
    world.AddComponents(wallId, [TileBox(t), Wall(t.wallType)]);
  }

  /** The nested border loop over every cell, column by column. */
  method PlaceBorder(world: World)
    modifies world
    ensures world.State() == Bordered(old(world.State()))
  {
    for x := 0 to GRID_WIDTH
      invariant PlacedBorder(world.State(), BorderBefore(x, 0)) == Bordered(old(world.State()))
    {
      for y := 0 to GRID_HEIGHT
        invariant 0 <= BorderBefore(x, y) <= BORDER_COUNT
        invariant PlacedBorder(world.State(), BorderBefore(x, y)) == Bordered(old(world.State()))
      {
        BorderStep(x, y);
        if OnBorder(x, y) {
          PlaceTile(world, Tile(x, y, Steel));
        }
      }
    }
  }

  /** The interior loop: `n` passes, each drawing a cell and placing it unless it is near the player. */
  method PlaceInterior(world: World, draws: nat -> TileDraw, n: int, px: real, py: real)
    modifies world
    ensures world.State() == PlacedAll(old(world.State()), InteriorTiles(draws, 0, n, px, py))
  {
    var i := 0;
    while i < n
      invariant 0 <= i
      invariant PlacedAll(world.State(), InteriorTiles(draws, i, n, px, py)) == PlacedAll(old(world.State()), InteriorTiles(draws, 0, n, px, py))
      decreases n - i
    {
      var t := DrawnTile(draws(i));
      var rest := InteriorTiles(draws, i + 1, n, px, py);
      assert InteriorTiles(draws, i, n, px, py) == (if NearSpawn(t, px, py) then [] else [t]) + rest;
      if !NearSpawn(t, px, py) {
        assert ([t] + rest)[1..] == rest;
        PlaceTile(world, t);
      } else {
        assert [] + rest == rest;
      }
      i := i + 1;
    }
  }

  /** `walls.forEach(([wallId]) => world.removeEntity(wallId))`. */
  method RemoveEach(world: World, walls: seq<(EntityId, Component)>)
    modifies world
    ensures world.State() == RemoveAll(old(world.State()), walls)
  {
    for i := 0 to |walls|
      invariant RemoveAll(world.State(), walls[i..]) == RemoveAll(old(world.State()), walls)
    {
      assert walls[i..][1..] == walls[i + 1..];
      world.RemoveEntity(walls[i].0);
    }
    assert walls[|walls|..] == [];
  }

  /** The part of `generateLevel` after the border loop. */
  method Furnish(world: World, level: Option<Component>, draws: nat -> TileDraw) returns (crashed: bool)
    modifies world
    ensures world.State() == Furnished(old(world.State()), level, draws).store
    ensures crashed == Furnished(old(world.State()), level, draws).Fault?
  {
    var player := world.GetComponent(world.id, PlayerTag);
    if !(player.Some? && player.value.Player?) {
      return true;
    }
    var playerPos := world.GetComponent(player.value.id, PositionTag);
    if !(level.Some? && level.value.Level?) {
      return true;
    }
    var n := 40 + level.value.index * 5;
    if n <= 0 {
      return false;
    }
    if !(playerPos.Some? && playerPos.value.Position?) {
      return true;
    }
    PlaceInterior(world, draws, n, playerPos.value.x, playerPos.value.y);
    return false;
  }

  /** `generateLevel(world)`, with `Math.random()` replaced by `draws`. */
  method GenerateLevel(world: World, draws: nat -> TileDraw) returns (crashed: bool)
    requires forall i :: draws(i).InRange()
    modifies world
    ensures world.State() == Generate(old(world.State()), draws).store
    ensures crashed == Generate(old(world.State()), draws).Fault?
  {
    var walls := world.GetComponents(WallTag);
    RemoveEach(world, walls);
    var level := world.GetComponent(world.id, LevelTag);
    PlaceBorder(world);
    crashed := Furnish(world, level, draws);
  }
}
