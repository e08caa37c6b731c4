/**
 * The sparse room grid (Adventure::room_map in src/main.rs): x, then y,
 * then z, each level a map, filled in lazily by get_room.
 *
 * get_room as written does not compile: room is never assigned when the room
 * already exists or when creation is switched off, so it is possibly
 * uninitialised where it is returned. Were that fixed, the three unwrap
 * calls on HashMap::insert (which returns the previous value, None on the
 * insertion path) would panic. The functions here follow the evident reading:
 * the missing x and y levels are inserted empty, the existing room is
 * returned, a missing room with creation off gives Room::default() (valid is
 * false), and creation stores Room::default() and returns a copy of it whose
 * biome (at y == 0 only) and tree flag are then randomised.
 */
module RoomGrid {
  import opened Wrappers
  import opened Biomes
  import opened Rooms

  type RoomMap = map<i32, map<i32, map<i32, Room>>>

  /** The room stored at (x, y, z), if any. */
  function RoomAt(m: RoomMap, x: i32, y: i32, z: i32): Option<Room> {
    if x in m && y in m[x] && z in m[x][y] then Some(m[x][y][z]) else Option.None
  }

  /**
   * m' is m with at most the x level and the (x, y) level added, each empty,
   * and at most the room at (x, y, z) added: no stored room is replaced.
   */
  ghost predicate GrowsOnly(m: RoomMap, m': RoomMap, x: i32, y: i32, z: i32) {
    && (forall a :: a in m ==> a in m')
    && (forall a :: a in m' ==> a in m || a == x)
    && (forall a, b :: a in m && b in m[a] ==> b in m'[a])
    && (forall a, b :: a in m' && b in m'[a] ==> (a in m && b in m[a]) || (a == x && b == y))
    && (forall a, b, c :: RoomAt(m, a, b, c).Some? ==> RoomAt(m', a, b, c) == RoomAt(m, a, b, c))
    && (forall a, b, c :: RoomAt(m', a, b, c).Some? && RoomAt(m, a, b, c).None? ==> a == x && b == y && c == z)
  }

  /** The x and y levels that get_room inserts, empty, when they are missing. */
  function WithLevels(m: RoomMap, x: i32, y: i32): (m': RoomMap)
    ensures x in m' && y in m'[x]
    ensures forall a :: a in m' <==> a in m || a == x
    ensures forall a, b :: a in m' && b in m'[a] <==> (a in m && b in m[a]) || (a == x && b == y)
    ensures forall a, b, c :: RoomAt(m', a, b, c) == RoomAt(m, a, b, c)
    ensures x in m && y in m[x] ==> m' == m
  {
    if x in m && y in m[x] then m
    else
      var xs := if x in m then m[x] else map[];
      m[x := xs[y := map[]]]
  }

  /** The room a fresh ground-level room becomes once its biome is drawn. */
  function Randomised(room: Room, y: i32, draw: int): Room
    requires 0 <= draw <= 6
  {
    if y == 0 then
      var b := SampleBiome(draw);
      room.(biome := b, trees := HasTrees(b))
    else room
  }

  /** The grid get_room leaves behind. */
  function StoredAfter(m: RoomMap, x: i32, y: i32, z: i32, dontCreate: bool): (m': RoomMap)
    ensures GrowsOnly(m, m', x, y, z)
    ensures x in m' && y in m'[x]
  {
    var m1 := WithLevels(m, x, y);
    if z in m1[x][y] || dontCreate then m1
    else m1[x := m1[x][y := m1[x][y][z := DefaultRoom()]]]
  }

  /** The room get_room returns. */
  function Fetched(m: RoomMap, x: i32, y: i32, z: i32, dontCreate: bool, draw: int): Room
    requires 0 <= draw <= 6
  {
    match RoomAt(m, x, y, z)
    case Some(room) => room
    case None => if dontCreate then DefaultRoom() else Randomised(DefaultRoom(), y, draw)
  }

  /**
   * With creation switched off, get_room leaves every stored room as it was
   * and stores none: only empty x and y levels may appear.
   */
  lemma DontCreateKeepsRooms(m: RoomMap, x: i32, y: i32, z: i32)
    ensures forall a, b, c :: RoomAt(StoredAfter(m, x, y, z, true), a, b, c) == RoomAt(m, a, b, c)
  {
  }

  /**
   * At an empty coordinate with creation on, get_room stores Room::default()
   * there and changes no other coordinate's room.
   */
  lemma CreateStoresDefault(m: RoomMap, x: i32, y: i32, z: i32)
    requires RoomAt(m, x, y, z).None?
    ensures RoomAt(StoredAfter(m, x, y, z, false), x, y, z) == Some(DefaultRoom())
    ensures forall a, b, c :: (a, b, c) != (x, y, z) ==>
      RoomAt(StoredAfter(m, x, y, z, false), a, b, c) == RoomAt(m, a, b, c)
  {
  }

  /** An existing room is returned as stored, and the grid keeps it. */
  lemma ExistingRoomReturned(m: RoomMap, x: i32, y: i32, z: i32, dontCreate: bool, draw: int)
    requires 0 <= draw <= 6
    requires RoomAt(m, x, y, z).Some?
    ensures Fetched(m, x, y, z, dontCreate, draw) == RoomAt(m, x, y, z).value
    ensures forall a, b, c :: RoomAt(StoredAfter(m, x, y, z, dontCreate), a, b, c) == RoomAt(m, a, b, c)
  {
  }

  /** With creation off at an empty coordinate, the answer is the invalid default room. */
  lemma MissingRoomIsInvalid(m: RoomMap, x: i32, y: i32, z: i32, draw: int)
    requires 0 <= draw <= 6
    requires RoomAt(m, x, y, z).None?
    ensures Fetched(m, x, y, z, true, draw) == DefaultRoom()
    ensures !Fetched(m, x, y, z, true, draw).valid
  {
  }

  /**
   * A newly created room has a biome exactly when it is on the ground
   * (y == 0), that biome is the drawn one, and it has trees exactly when
   * its biome grows them.
   */
  lemma NewRoomTerrain(m: RoomMap, x: i32, y: i32, z: i32, draw: int)
    requires 0 <= draw <= 6
    requires RoomAt(m, x, y, z).None?
    ensures var room := Fetched(m, x, y, z, false, draw);
      && (room.biome != Biome.None <==> y == 0)
      && (y == 0 ==> room.biome == SampleBiome(draw))
      && room.trees == HasTrees(room.biome)
      && room.items == [] && room.exits == DefaultRoom().exits && !room.dark && room.monsters == 0
  {
  }

  /**
   * Finding, as written: the drawn biome lives only in the returned copy.
   * On an empty grid, creating the ground room at the origin with draw 0
   * returns a forest, yet asking again for that room returns a room with no
   * biome.
   */
  lemma RandomBiomeNotStored()
    ensures Fetched(map[], 0, 0, 0, false, 0).biome == Forest
    ensures Fetched(StoredAfter(map[], 0, 0, 0, false), 0, 0, 0, false, 0).biome == Biome.None
  {
  }

  /**
   * Finding, as written: every room get_room creates is Room::default(),
   * whose valid flag is false, so valid cannot tell a created room from the
   * "no room" answer.
   */
  lemma CreatedRoomIsInvalid(m: RoomMap, x: i32, y: i32, z: i32, draw: int)
    requires 0 <= draw <= 6
    requires RoomAt(m, x, y, z).None?
    ensures !Fetched(m, x, y, z, false, draw).valid
    ensures !RoomAt(StoredAfter(m, x, y, z, false), x, y, z).value.valid
    ensures Fetched(m, x, y, z, false, draw).valid == Fetched(m, x, y, z, true, draw).valid
  {
  }

  /** The room the corrected get_room creates: randomised, marked valid. */
  function Created(y: i32, draw: int): (room: Room)
    requires 0 <= draw <= 6
    ensures room.valid
    ensures room.biome != Biome.None <==> y == 0
    ensures y == 0 ==> room.biome == SampleBiome(draw)
    ensures room.trees == HasTrees(room.biome)
    ensures room.items == [] && room.exits == DefaultRoom().exits && !room.dark && room.monsters == 0
  {
    Randomised(DefaultRoom(), y, draw).(valid := true)
  }

  /** Corrected get_room: the created room is written back to the grid. */
  function StoredAfterPersisted(m: RoomMap, x: i32, y: i32, z: i32, dontCreate: bool, draw: int): (m': RoomMap)
    requires 0 <= draw <= 6
    ensures GrowsOnly(m, m', x, y, z)
    ensures x in m' && y in m'[x]
    ensures !dontCreate ==> RoomAt(m', x, y, z).Some?
  {
    var m1 := WithLevels(m, x, y);
    if z in m1[x][y] || dontCreate then m1
    else m1[x := m1[x][y := m1[x][y][z := Created(y, draw)]]]
  }

  /** Corrected get_room: the room returned. */
  function FetchedPersisted(m: RoomMap, x: i32, y: i32, z: i32, dontCreate: bool, draw: int): (room: Room)
    requires 0 <= draw <= 6
    ensures RoomAt(StoredAfterPersisted(m, x, y, z, dontCreate, draw), x, y, z) ==
      if room.valid || RoomAt(m, x, y, z).Some? then Some(room) else Option.None
    ensures dontCreate && RoomAt(m, x, y, z).None? ==> room == DefaultRoom()
  {
    match RoomAt(m, x, y, z)
    case Some(room) => room
    case None => if dontCreate then DefaultRoom() else Created(y, draw)
  }

  /** Every stored room is marked valid. */
  ghost predicate AllValid(m: RoomMap) {
    forall a, b, c :: RoomAt(m, a, b, c).Some? ==> RoomAt(m, a, b, c).value.valid
  }

  /**
   * Corrected get_room keeps every stored room valid, and then the valid
   * flag of its answer says exactly whether a room exists there afterwards.
   */
  lemma PersistedValidIffStored(m: RoomMap, x: i32, y: i32, z: i32, dontCreate: bool, draw: int)
    requires 0 <= draw <= 6
    requires AllValid(m)
    ensures AllValid(StoredAfterPersisted(m, x, y, z, dontCreate, draw))
    ensures FetchedPersisted(m, x, y, z, dontCreate, draw).valid <==>
      RoomAt(StoredAfterPersisted(m, x, y, z, dontCreate, draw), x, y, z).Some?
  {
  }

  /**
   * Corrected get_room is stable: once a room exists, asking again (with
   * any draw, creation on or off) returns the same room and leaves the grid
   * as it is; in particular the biome drawn at creation is kept.
   */
  lemma PersistedIsStable(m: RoomMap, x: i32, y: i32, z: i32, draw: int, dontCreate: bool, draw2: int)
    requires 0 <= draw <= 6 && 0 <= draw2 <= 6
    ensures var m' := StoredAfterPersisted(m, x, y, z, false, draw);
      && FetchedPersisted(m', x, y, z, dontCreate, draw2) == FetchedPersisted(m, x, y, z, false, draw)
      && StoredAfterPersisted(m', x, y, z, dontCreate, draw2) == m'
  {
  }
}
