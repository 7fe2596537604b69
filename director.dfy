/**
 * `DirectorSystem.startGame` (src/games/systems.ts): creates the player with
 * its tank at the bottom-centre tile, sets the level to 0 and generates the
 * first level.
 */
module Director {
  import opened Wrappers
  import opened Components
  import opened Constants
  import opened Worlds
  import opened Util

  /** Where the player starts: the middle of the bottom row, one tile large. */
  function StartBox(): (box: Box)
    ensures box == Position(304.0, 448.0, 32.0, 32.0)
  {
    Position(((GRID_WIDTH * TILE_SIZE) as real) / 2.0 - (TILE_SIZE as real) / 2.0,
             ((GRID_HEIGHT - 1) * TILE_SIZE) as real, TILE_SIZE as real, TILE_SIZE as real)
  }

  /** The components `startGame` adds to the player, in order. */
  function PlayerParts(): seq<Component> {
    [StartBox(), Movement(3.0, Up), Tank("#4CAF50", 0.0, 300.0), Health(3, 3), Score(0)]
  }

  /** The player's table after `startGame`: the five components, filed by tag. */
  function PlayerTable(): Table {
    map[PositionTag := Position(304.0, 448.0, 32.0, 32.0), MovementTag := Movement(3.0, Up),
        TankTag := Tank("#4CAF50", 0.0, 300.0), HealthTag := Health(3, 3), ScoreTag := Score(0)]
  }

  /** An entity with the player's table stands at the start position. */
  lemma PlayerPositioned(s: Store, id: EntityId)
    requires id in s.entities && s.entities[id] == PlayerTable()
    ensures PositionOf(s, id) == Some(Position(304.0, 448.0, 32.0, 32.0))
  {
    assert PositionTag in s.entities[id];
  }

  /** `startGame` up to `generateLevel`: the store and the player's id. */
  function Setup(s: Store): (Store, EntityId) {
    var (s1, playerId) := NewPlayer(s, 1);
    (Put(PutAll(s1, playerId, PlayerParts()), ROOT, Level(0)), playerId)
  }

  /** What `startGame` leaves: how `generateLevel` ended, and the returned id. */
  datatype Start = Start(outcome: Outcome, playerId: EntityId)

  /** `startGame()`. */
  function Started(s: Store, draws: nat -> TileDraw): Start {
    Start(Generate(Setup(s).0, draws), Setup(s).1)
  }

  /** Adding the player's parts to its empty table files exactly the five components. */
  lemma PlayerPartsFiled()
    ensures AddAll(map[], PlayerParts()) == PlayerTable()
  {
    var cs := PlayerParts();
    var m0: Table := map[];
    assert AddAll(m0, cs) == AddAll(m0[PositionTag := cs[0]], cs[1..]);
    var m1 := m0[PositionTag := cs[0]];
    assert AddAll(m1, cs[1..]) == AddAll(m1[MovementTag := cs[1]], cs[2..]);
    var m2 := m1[MovementTag := cs[1]];
    assert AddAll(m2, cs[2..]) == AddAll(m2[TankTag := cs[2]], cs[3..]);
    var m3 := m2[TankTag := cs[2]];
    assert AddAll(m3, cs[3..]) == AddAll(m3[HealthTag := cs[3]], cs[4..]);
    var m4 := m3[HealthTag := cs[3]];
    assert AddAll(m4, cs[4..]) == AddAll(m4[ScoreTag := cs[4]], cs[5..]);
    assert cs[5..] == [];
  }

  /**
   * Before the level is generated: the player is the new entity at the
   * counter with its five components, the root holds `Player(id, 1)` and
   * `Level(0)`, and every other entity is as it was.
   */
  lemma SetupEffect(s: Store)
    requires ROOT in s.entities && s.nextId != ROOT
    ensures Setup(s) ==
      (Store(s.entities[s.nextId := PlayerTable()][ROOT := s.entities[ROOT][PlayerTag := Player(s.nextId, 1)][LevelTag := Level(0)]],
             s.order + [s.nextId], s.nextId + 1),
       s.nextId)
  {
    var n := s.nextId;
    var s1 := NewPlayer(s, 1).0;
    SetupPlayerPlaced(s);
    var m := s.entities[n := PlayerTable()][ROOT := s.entities[ROOT][PlayerTag := Player(n, 1)]];
    assert ROOT in m && m[ROOT] == s.entities[ROOT][PlayerTag := Player(n, 1)];
    assert Put(Store(m, s.order + [n], n + 1), ROOT, Level(0)) == Store(m[ROOT := m[ROOT][LevelTag := Level(0)]], s.order + [n], n + 1);
    assert m[ROOT := m[ROOT][LevelTag := Level(0)]] ==
      s.entities[n := PlayerTable()][ROOT := s.entities[ROOT][PlayerTag := Player(n, 1)][LevelTag := Level(0)]];
  }

  /** `newPlayer` and the five components: the player's table is filed and the root holds `Player(id, 1)`. */
  lemma SetupPlayerPlaced(s: Store)
    requires ROOT in s.entities && s.nextId != ROOT
    ensures NewPlayer(s, 1).1 == s.nextId
    ensures PutAll(NewPlayer(s, 1).0, s.nextId, PlayerParts()) ==
      Store(s.entities[s.nextId := PlayerTable()][ROOT := s.entities[ROOT][PlayerTag := Player(s.nextId, 1)]], s.order + [s.nextId], s.nextId + 1)
  {
    var n := s.nextId;
    var c := Create(s).0;
    assert c == Store(s.entities[n := map[]], s.order + [n], n + 1);
    var s1 := Put(c, ROOT, Player(n, 1));
    assert s1 == Store(s.entities[n := map[]][ROOT := s.entities[ROOT][PlayerTag := Player(n, 1)]], s.order + [n], n + 1);
    assert NewPlayer(s, 1) == (s1, n);
    PutAllLive(s1, n, PlayerParts());
    PlayerPartsFiled();
  }

  lemma SetupKeeps(s: Store)
    requires WellFormed(s)
    ensures WellFormed(Setup(s).0)
  {
    var (s1, playerId) := NewPlayer(s, 1);
    var c := Create(s).0;
    CreateKeeps(s);
    PutKeeps(c, ROOT, Player(playerId, 1));
    PutAllKeeps(s1, playerId, PlayerParts());
    PutKeeps(PutAll(s1, playerId, PlayerParts()), ROOT, Level(0));
  }

  /** The level-0 interior tiles drawn around the start position. */
  function StartTiles(draws: nat -> TileDraw): seq<Tile> {
    InteriorTiles(draws, 0, 40, 304.0, 448.0)
  }

  /**
   * What `startGame` has set up when it calls `generateLevel`: the player
   * with its five components, `Player(playerId, 1)` and `Level(0)` on the
   * root, and neither of the two a wall.
   */
  predicate ReadyAt(s: Store, playerId: EntityId) {
    && ROOT in s.entities && playerId in s.entities && s.entities[playerId] == PlayerTable()
    && Lookup(s, ROOT, PlayerTag) == Some(Player(playerId, 1)) && Lookup(s, ROOT, LevelTag) == Some(Level(0))
    && !Holds(s, ROOT, WallTag) && !Holds(s, playerId, WallTag)
  }

  /** The 48 ids from `base` on hold the border tiles, in order. */
  predicate BorderAt(r: Store, base: int) {
    forall e :: base <= e < base + BORDER_COUNT ==> e in r.entities && r.entities[e] == TileTable(BorderTile(e - base))
  }

  /** The ids from `base` on hold `tiles`, in order. */
  predicate TilesAt(r: Store, base: int, tiles: seq<Tile>) {
    forall e :: base <= e < base + |tiles| ==> e in r.entities && r.entities[e] == TileTable(tiles[e - base])
  }

  /** Every entity of `r` that `s` does not have has an id in `[lo, hi)`. */
  predicate NewWithin(s: Store, r: Store, lo: int, hi: int) {
    forall e :: e in r.entities && e !in s.entities ==> lo <= e < hi
  }

  /** The setup leaves a well-formed store, ready for the level, with the counter one past the player. */
  lemma SetupFacts(s: Store, s3: Store)
    requires WellFormed(s) && ROOT in s.entities && !Holds(s, ROOT, WallTag) && s3 == Setup(s).0
    ensures WellFormed(s3) && s3.nextId == s.nextId + 1 && Setup(s).1 == s.nextId && ReadyAt(s3, s.nextId)
  {
    SetupKeeps(s);
    SetupReady(s, s3);
  }

  lemma SetupReady(s: Store, s3: Store)
    requires ROOT in s.entities && s.nextId != ROOT && !Holds(s, ROOT, WallTag) && s3 == Setup(s).0
    ensures s3.nextId == s.nextId + 1 && Setup(s).1 == s.nextId && ReadyAt(s3, s.nextId)
  {
    SetupEffect(s);
    var n := s.nextId;
    var root := s.entities[ROOT][PlayerTag := Player(n, 1)][LevelTag := Level(0)];
    assert s3.entities == s.entities[n := PlayerTable()][ROOT := root];
    assert s3.entities[ROOT] == root && s3.entities[n] == PlayerTable();
    assert WallTag !in root && WallTag !in PlayerTable();
  }

  /** Setting up the player writes only the root and the new entity. */
  lemma SetupOthers(s: Store, s3: Store)
    requires WellFormed(s) && ROOT in s.entities && s3 == Setup(s).0
    ensures forall e :: e in s.entities && e != ROOT ==> e in s3.entities && s3.entities[e] == s.entities[e]
    ensures NewWithin(s, s3, s.nextId, s.nextId + 1)
  {
    SetupEffect(s);
  }

  /** With a `Player` at the start box and `Level(0)`, furnishing places the 40 tiles. */
  lemma FurnishedAtStart(s: Store, level: Option<Component>, playerId: EntityId, draws: nat -> TileDraw)
    requires Lookup(s, ROOT, PlayerTag) == Some(Player(playerId, 1)) && level == Some(Level(0))
    requires PositionOf(s, playerId) == Some(Position(304.0, 448.0, 32.0, 32.0))
    ensures Furnished(s, level, draws) == Ok(PlacedAll(s, StartTiles(draws)))
  {
  }

  /** Clearing keeps an entity that is not a wall as it was. */
  lemma ClearedKeepsOne(s: Store, e: EntityId)
    requires WellFormed(s) && e in s.entities && !Holds(s, e, WallTag)
    ensures e in Cleared(s).entities && Cleared(s).entities[e] == s.entities[e]
    ensures Cleared(s).nextId == s.nextId && Below(Cleared(s))
  {
    ClearedEffect(s);
  }

  /** Bordering keeps an entity below the counter as it was. */
  lemma BorderedKeepsOne(s: Store, e: EntityId)
    requires e in s.entities && e < s.nextId
    ensures e in Bordered(s).entities && Bordered(s).entities[e] == s.entities[e]
  {
    BorderedEffect(s);
  }

  /**
   * From a store ready for the level `generateLevel` does not throw: the
   * player and the level survive the clearing, so it adds all 40 level-0
   * tiles after the border.
   */
  lemma GenerateAtStart(s: Store, playerId: EntityId, draws: nat -> TileDraw, s2: Store, o: Outcome)
    requires WellFormed(s) && ReadyAt(s, playerId)
    requires s2 == Bordered(Cleared(s)) && o == Generate(s, draws)
    ensures o == Ok(PlacedAll(s2, StartTiles(draws)))
  {
    var s1 := Cleared(s);
    ClearedKeepsOne(s, ROOT);
    ClearedKeepsOne(s, playerId);
    BorderedKeepsOne(s1, ROOT);
    BorderedKeepsOne(s1, playerId);
    assert s2.entities[ROOT] == s.entities[ROOT] && s2.entities[playerId] == PlayerTable();
    assert Lookup(s1, ROOT, LevelTag) == Some(Level(0));
    assert Lookup(s2, ROOT, PlayerTag) == Some(Player(playerId, 1));
    PlayerPositioned(s2, playerId);
    FurnishedAtStart(s2, Lookup(s1, ROOT, LevelTag), playerId, draws);
  }

  /** `startGame` never throws on a store whose root exists and is not a wall, and returns the counter. */
  lemma StartedOk(s: Store, draws: nat -> TileDraw)
    requires WellFormed(s) && ROOT in s.entities && !Holds(s, ROOT, WallTag)
    ensures Started(s, draws).outcome.Ok? && Started(s, draws).playerId == s.nextId
    ensures WellFormed(Started(s, draws).outcome.store)
  {
    var s3 := Setup(s).0;
    SetupFacts(s, s3);
    GenerateAtStart(s3, s.nextId, draws, Bordered(Cleared(s3)), Generate(s3, draws));
    GenerateKeeps(s3, draws);
  }

  /**
   * `generateLevel` from a well-formed store: old walls go and every other
   * old entity stays as it was.
   */
  lemma GenerateKeepsOld(s: Store, draws: nat -> TileDraw, r: Store)
    requires WellFormed(s) && r == Generate(s, draws).store
    ensures forall e :: e in s.entities ==> (e in r.entities <==> !Holds(s, e, WallTag))
    ensures forall e :: e in s.entities && !Holds(s, e, WallTag) ==> r.entities[e] == s.entities[e]
    ensures forall e :: e in s.entities && e in r.entities ==> !Holds(r, e, WallTag)
  {
    GenerateClears(s, draws);
  }

  /** Chaining the setup with `generateLevel` for the entities that were there before. */
  lemma ComposeOld(s: Store, s3: Store, r: Store)
    requires forall e :: e in s.entities && e != ROOT ==> e in s3.entities && s3.entities[e] == s.entities[e]
    requires forall e :: e in s3.entities ==> (e in r.entities <==> !Holds(s3, e, WallTag))
    requires forall e :: e in s3.entities && !Holds(s3, e, WallTag) ==> r.entities[e] == s3.entities[e]
    ensures forall e :: e in s.entities && e != ROOT ==> (e in r.entities <==> !Holds(s, e, WallTag))
    ensures forall e :: e in s.entities && e != ROOT && !Holds(s, e, WallTag) ==> r.entities[e] == s.entities[e]
  {
    forall e | e in s.entities && e != ROOT ensures Holds(s3, e, WallTag) == Holds(s, e, WallTag) {
    }
  }

  /**
   * After `startGame` the player has exactly its five components, the root
   * holds `Player(id, 1)` and `Level(0)`, every old wall is gone and every
   * other old entity is as it was.
   */
  lemma StartedEntities(s: Store, draws: nat -> TileDraw)
    requires WellFormed(s) && ROOT in s.entities && !Holds(s, ROOT, WallTag)
    ensures var r := Started(s, draws).outcome.store;
      var playerId := s.nextId;
      && playerId in r.entities && r.entities[playerId] == PlayerTable()
      && Lookup(r, ROOT, PlayerTag) == Some(Player(playerId, 1)) && Lookup(r, ROOT, LevelTag) == Some(Level(0))
      && (forall e :: e in s.entities && e != ROOT ==> (e in r.entities <==> !Holds(s, e, WallTag)))
      && (forall e :: e in s.entities && e != ROOT && !Holds(s, e, WallTag) ==> r.entities[e] == s.entities[e])
  {
    var s3 := Setup(s).0;
    var playerId := s.nextId;
    var r := Generate(s3, draws).store;
    assert Started(s, draws).outcome.store == r;
    SetupFacts(s, s3);
    SetupOthers(s, s3);
    GenerateKeepsOld(s3, draws, r);
    ComposeOld(s, s3, r);
  }

  /** Bordering puts the 48 border tiles at the counter and nothing else new. */
  lemma BorderedAt(s: Store, s2: Store)
    requires s2 == Bordered(s)
    ensures s2.nextId == s.nextId + BORDER_COUNT && BorderAt(s2, s.nextId)
    ensures NewWithin(s, s2, s.nextId, s.nextId + BORDER_COUNT)
  {
    BorderedEffect(s);
  }

  /** Placing tiles keeps a border placed below the counter, puts the tiles at the counter and nothing else new. */
  lemma PlacedAt(s: Store, tiles: seq<Tile>, base: int, at: int, r: Store)
    requires at == s.nextId && base + BORDER_COUNT <= at && BorderAt(s, base) && r == PlacedAll(s, tiles)
    ensures r.nextId == at + |tiles| && BorderAt(r, base) && TilesAt(r, at, tiles)
    ensures NewWithin(s, r, at, at + |tiles|)
  {
    PlacedTilesAt(s, tiles, r);
    PlacedKeepsBorder(s, tiles, base, r);
  }

  /** Placing tiles puts them at the counter, in order, and nothing else new. */
  lemma PlacedTilesAt(s: Store, tiles: seq<Tile>, r: Store)
    requires r == PlacedAll(s, tiles)
    ensures r.nextId == s.nextId + |tiles| && TilesAt(r, s.nextId, tiles)
    ensures NewWithin(s, r, s.nextId, s.nextId + |tiles|)
  {
    PlacedAllEffect(s, tiles);
    forall e | s.nextId <= e < s.nextId + |tiles|
      ensures e in r.entities && r.entities[e] == TileTable(tiles[e - s.nextId])
    {
      var k := e - s.nextId;
      assert r.entities[s.nextId + k] == TileTable(tiles[k]);
    }
  }

  /** Placing tiles keeps a border that lies below the counter. */
  lemma PlacedKeepsBorder(s: Store, tiles: seq<Tile>, base: int, r: Store)
    requires base + BORDER_COUNT <= s.nextId && BorderAt(s, base) && r == PlacedAll(s, tiles)
    ensures BorderAt(r, base)
  {
    PlacedAllEffect(s, tiles);
    forall e | base <= e < base + BORDER_COUNT
      ensures e in r.entities && r.entities[e] == TileTable(BorderTile(e - base))
    {
      assert e in s.entities && e < s.nextId;
    }
  }

  /** New entities of two steps lie in the union of their ranges. */
  lemma NewWithinTrans(s: Store, s1: Store, s2: Store, r: Store, a: int, b: int, c: int)
    requires forall e :: e in s1.entities ==> e in s.entities
    requires NewWithin(s1, s2, a, b) && NewWithin(s2, r, b, c) && a <= b <= c
    ensures NewWithin(s, r, a, c)
  {
  }

  /** Clearing creates nothing and keeps the counter. */
  lemma ClearedWithin(s: Store, s1: Store)
    requires WellFormed(s) && s1 == Cleared(s)
    ensures s1.nextId == s.nextId && forall e :: e in s1.entities ==> e in s.entities
  {
    ClearedEffect(s);
  }

  /** Bordering a store that only lost entities and then placing `tiles`, as ids go. */
  lemma LevelPlaced(s: Store, s1: Store, s2: Store, tiles: seq<Tile>, r: Store)
    requires s1.nextId == s.nextId && (forall e :: e in s1.entities ==> e in s.entities)
    requires s2 == Bordered(s1) && r == PlacedAll(s2, tiles)
    ensures r.nextId == s.nextId + BORDER_COUNT + |tiles|
    ensures BorderAt(r, s.nextId) && TilesAt(r, s.nextId + BORDER_COUNT, tiles)
    ensures NewWithin(s, r, s.nextId, s.nextId + BORDER_COUNT + |tiles|)
  {
    BorderedAt(s1, s2);
    PlacedAt(s2, tiles, s.nextId, s.nextId + BORDER_COUNT, r);
    NewWithinTrans(s, s1, s2, r, s.nextId, s.nextId + BORDER_COUNT, s.nextId + BORDER_COUNT + |tiles|);
  }

  /**
   * `generateLevel` from a store ready for the level: the 48 ids after the
   * counter are the steel border and the 40 after them the interior tiles
   * drawn; nothing else is new.
   */
  lemma GenerateTilesAtStart(s: Store, playerId: EntityId, draws: nat -> TileDraw, r: Store)
    requires WellFormed(s) && ReadyAt(s, playerId) && (forall i :: draws(i).InRange())
    requires r == Generate(s, draws).store
    ensures |StartTiles(draws)| == 40 && r.nextId == s.nextId + BORDER_COUNT + 40
    ensures BorderAt(r, s.nextId) && TilesAt(r, s.nextId + BORDER_COUNT, StartTiles(draws))
    ensures NewWithin(s, r, s.nextId, s.nextId + BORDER_COUNT + 40)
  {
    var s1 := Cleared(s);
    var s2 := Bordered(s1);
    GenerateAtStart(s, playerId, draws, s2, Generate(s, draws));
    ClearedWithin(s, s1);
    InteriorFromStart(draws, 0, 40, 304.0);
    LevelPlaced(s, s1, s2, StartTiles(draws), r);
  }

  /**
   * What `generateLevel` leaves from a store ready for the level: the
   * border at the old counter, the 40 level-0 tiles after it, nothing else
   * new, and no wall among the entities that were there.
   */
  predicate LevelAtStart(s: Store, r: Store, draws: nat -> TileDraw) {
    && |StartTiles(draws)| == 40 && r.nextId == s.nextId + BORDER_COUNT + 40
    && BorderAt(r, s.nextId) && TilesAt(r, s.nextId + BORDER_COUNT, StartTiles(draws))
    && NewWithin(s, r, s.nextId, s.nextId + BORDER_COUNT + 40)
    && (forall e :: e in s.entities && e in r.entities ==> !Holds(r, e, WallTag))
  }

  lemma GenerateLevelAtStart(s: Store, playerId: EntityId, draws: nat -> TileDraw, r: Store)
    requires WellFormed(s) && ReadyAt(s, playerId) && (forall i :: draws(i).InRange())
    requires r == Generate(s, draws).store
    ensures LevelAtStart(s, r, draws)
  {
    GenerateKeepsOld(s, draws, r);
    GenerateTilesAtStart(s, playerId, draws, r);
  }

  /**
   * After `startGame` the 48 ids after the player are the steel border, the
   * level-0 loop has added all 40 interior tiles after them, and nothing
   * else is new.
   */
  lemma StartedTiles(s: Store, draws: nat -> TileDraw)
    requires WellFormed(s) && ROOT in s.entities && !Holds(s, ROOT, WallTag)
    requires forall i :: draws(i).InRange()
    ensures var r := Started(s, draws).outcome.store;
      && |StartTiles(draws)| == 40 && r.nextId == s.nextId + 1 + BORDER_COUNT + 40
      && BorderAt(r, s.nextId + 1) && TilesAt(r, s.nextId + 1 + BORDER_COUNT, StartTiles(draws))
      && NewWithin(s, r, s.nextId, s.nextId + 1 + BORDER_COUNT + 40)
  {
    var s3 := Setup(s).0;
    var r := Generate(s3, draws).store;
    assert Started(s, draws).outcome.store == r;
    SetupFacts(s, s3);
    SetupOthers(s, s3);
    GenerateLevelAtStart(s3, s.nextId, draws, r);
    SetupThenLevel(s, s3, r, draws);
  }

  /** The setup adds only the player, so the level's tiles follow it. */
  lemma SetupThenLevel(s: Store, s3: Store, r: Store, draws: nat -> TileDraw)
    requires s3.nextId == s.nextId + 1 && NewWithin(s, s3, s.nextId, s.nextId + 1) && LevelAtStart(s3, r, draws)
    ensures |StartTiles(draws)| == 40 && r.nextId == s.nextId + 1 + BORDER_COUNT + 40
    ensures BorderAt(r, s.nextId + 1) && TilesAt(r, s.nextId + 1 + BORDER_COUNT, StartTiles(draws))
    ensures NewWithin(s, r, s.nextId, s.nextId + 1 + BORDER_COUNT + 40)
  {
    SetupThenBorder(s, s3, r);
    SetupThenTiles(s, s3, r, StartTiles(draws));
    SetupThenNew(s, s3, r, draws);
  }

  /**
   * The border placed after the setup's one entity starts one past the old
   * counter. Kept apart from `SetupThenLevel`, whose context holds the drawn
   * tiles, so that the solver meets this equation alone.
   */
  lemma SetupThenBorder(s: Store, s3: Store, r: Store)
    requires s3.nextId == s.nextId + 1 && BorderAt(r, s3.nextId)
    ensures BorderAt(r, s.nextId + 1)
  {
  }

  /** The same for the interior tiles, over any tile list. */
  lemma SetupThenTiles(s: Store, s3: Store, r: Store, tiles: seq<Tile>)
    requires s3.nextId == s.nextId + 1 && TilesAt(r, s3.nextId + BORDER_COUNT, tiles)
    ensures TilesAt(r, s.nextId + 1 + BORDER_COUNT, tiles)
  {
  }

  lemma SetupThenNew(s: Store, s3: Store, r: Store, draws: nat -> TileDraw)
    requires s3.nextId == s.nextId + 1 && NewWithin(s, s3, s.nextId, s.nextId + 1) && LevelAtStart(s3, r, draws)
    ensures NewWithin(s, r, s.nextId, s.nextId + 1 + BORDER_COUNT + 40)
  {
    assert NewWithin(s3, r, s.nextId + 1, s.nextId + 1 + BORDER_COUNT + 40);
    NewWithinTrans(s, s, s3, r, s.nextId, s.nextId + 1, s.nextId + 1 + BORDER_COUNT + 40);
  }

  /** A tile entity's box is the tile's. */
  lemma TileClear(r: Store, e: EntityId, t: Tile, box: Box)
    requires e in r.entities && r.entities[e] == TileTable(t) && !CheckCollision(TileBox(t), box)
    ensures PositionOf(r, e).Some? && !CheckCollision(PositionOf(r, e).value, box)
  {
  }

  /** No border tile overlaps the start box. */
  lemma BorderClear(r: Store, base: int, e: EntityId)
    requires BorderAt(r, base) && base <= e < base + BORDER_COUNT
    ensures ClearOfStart(r, e)
  {
    var b := BorderTile(e - base);
    assert b.row == 0 || b.col == 0 || b.col == GRID_WIDTH - 1;
    InteriorClear(Tile(1, 1, Brick), b);
    TileClear(r, e, b, Position(304.0, 448.0, 32.0, 32.0));
  }

  /** No interior tile overlaps the start box. */
  lemma InteriorTileClear(r: Store, base: int, tiles: seq<Tile>, e: EntityId)
    requires forall t :: t in tiles ==> 1 <= t.col <= GRID_WIDTH - 2 && 1 <= t.row <= GRID_HEIGHT - 3
    requires TilesAt(r, base, tiles) && base <= e < base + |tiles|
    ensures ClearOfStart(r, e)
  {
    var t := tiles[e - base];
    assert t in tiles;
    InteriorClear(t, Tile(0, 0, Steel));
    TileClear(r, e, t, Position(304.0, 448.0, 32.0, 32.0));
  }

  /** Entity `e` has a position, and it does not overlap the player's start box. */
  predicate ClearOfStart(r: Store, e: EntityId) {
    PositionOf(r, e).Some? && !CheckCollision(PositionOf(r, e).value, Position(304.0, 448.0, 32.0, 32.0))
  }

  /** No tile that `generateLevel` adds at the start overlaps the start box. */
  lemma NewTileClear(r: Store, base: int, draws: nat -> TileDraw, e: EntityId)
    requires forall i :: draws(i).InRange()
    requires BorderAt(r, base) && TilesAt(r, base + BORDER_COUNT, StartTiles(draws))
    requires base <= e < base + BORDER_COUNT + |StartTiles(draws)|
    ensures ClearOfStart(r, e)
  {
    if e < base + BORDER_COUNT {
      BorderClear(r, base, e);
    } else {
      StartTileClear(r, base + BORDER_COUNT, draws, e);
    }
  }

  /** A level-0 interior tile does not overlap the start box. */
  lemma StartTileClear(r: Store, at: int, draws: nat -> TileDraw, e: EntityId)
    requires forall i :: draws(i).InRange()
    requires TilesAt(r, at, StartTiles(draws)) && at <= e < at + |StartTiles(draws)|
    ensures ClearOfStart(r, e)
  {
    InteriorShape(draws, 0, 40, 304.0, 448.0);
    InteriorTileClear(r, at, StartTiles(draws), e);
  }

  /**
   * When the only new entities of `r` are the border and the level-0 tiles
   * and no old entity is a wall, no wall overlaps the start box.
   */
  lemma NewWallsClear(s: Store, r: Store, base: int, draws: nat -> TileDraw)
    requires forall i :: draws(i).InRange()
    requires BorderAt(r, base) && TilesAt(r, base + BORDER_COUNT, StartTiles(draws))
    requires |StartTiles(draws)| == 40 && NewWithin(s, r, base, base + BORDER_COUNT + 40)
    requires forall e :: e in s.entities && e in r.entities ==> !Holds(r, e, WallTag)
    ensures forall e :: Holds(r, e, WallTag) ==>
      ClearOfStart(r, e)
  {
    forall e: EntityId | Holds(r, e, WallTag)
      ensures ClearOfStart(r, e)
    {
      NewTileClear(r, base, draws, e);
    }
  }

  /**
   * Nothing blocks the player at the start: every wall of the generated
   * level has a position, and none overlaps the player's box, neither a
   * border tile nor an interior tile.
   */
  lemma GenerateClearAtStart(s: Store, playerId: EntityId, draws: nat -> TileDraw, r: Store)
    requires WellFormed(s) && ReadyAt(s, playerId) && (forall i :: draws(i).InRange())
    requires r == Generate(s, draws).store
    ensures forall e :: Holds(r, e, WallTag) ==>
      ClearOfStart(r, e)
  {
    GenerateLevelAtStart(s, playerId, draws, r);
    WallsClear(s, r, draws);
  }

  /** No wall of a level generated at the start overlaps the start box. */
  lemma WallsClear(s: Store, r: Store, draws: nat -> TileDraw)
    requires (forall i :: draws(i).InRange()) && LevelAtStart(s, r, draws)
    ensures forall e :: Holds(r, e, WallTag) ==>
      ClearOfStart(r, e)
  {
    NewWallsClear(s, r, s.nextId, draws);
  }

  /** After `startGame` no wall overlaps the player's start box. */
  lemma StartClear(s: Store, draws: nat -> TileDraw)
    requires WellFormed(s) && ROOT in s.entities && !Holds(s, ROOT, WallTag)
    requires forall i :: draws(i).InRange()
    ensures var r := Started(s, draws).outcome.store;
      forall e :: Holds(r, e, WallTag) ==>
        ClearOfStart(r, e)
  {
    var s3 := Setup(s).0;
    var r := Generate(s3, draws).store;
    assert Started(s, draws).outcome.store == r;
    SetupFacts(s, s3);
    GenerateClearAtStart(s3, s.nextId, draws, r);
  }

  class DirectorSystem {
    const world: World

    constructor (world: World)
      ensures this.world == world
    {
      this.world := world;
    }

    /** `startGame()`: returns the player's id and whether `generateLevel` threw. */
    method StartGame(draws: nat -> TileDraw) returns (playerId: EntityId, crashed: bool)
      requires forall i :: draws(i).InRange()
      modifies world
      ensures var st := Started(old(world.State()), draws);
        world.State() == st.outcome.store && playerId == st.playerId && crashed == st.outcome.Fault?
    {
      playerId := world.CreatePlayer(1);
      world.AddComponents(playerId, [
        Position(((GRID_WIDTH * TILE_SIZE) as real) / 2.0 - (TILE_SIZE as real) / 2.0,
                 ((GRID_HEIGHT - 1) * TILE_SIZE) as real, TILE_SIZE as real, TILE_SIZE as real),
        Movement(3.0, Up),
        Tank("#4CAF50", 0.0, 300.0),
        Health(3, 3),
        Score(0)]);
      world.AddComponent(world.id, Level(0));
      crashed := GenerateLevel(world, draws);
    }
  }
}
