# adventurecraft: a verified model of the game core

This project models the core of adventurecraft, a small text adventure written in Rust. It covers:

- the exit flags of a room and the ordered list of open exits;
- the biomes: their descriptions, which grow trees, and the 0..=6 draw that picks one;
- the sparse x → y → z room grid that `get_room` fills in lazily;
- the command dispatcher `do_command`, which matches a line of input against a table of regular-expression phrasings and calls the handler of the first phrasing that fires.

Modules, one per component:

- `Wrappers` (wrappers.dfy): `Option` and `Result`.
- `RoomExits` (exits.dfy): `Exits`, `GetExit`, `SetExit`, and `ExitNames`, the list `get_exits` builds.
- `Biomes` (biomes.dfy): `Biome`, `HasTrees`, `SampleBiome` (the draw), `Description`.
- `Rooms` (rooms.dfy): `Room`, `Item`, `ToolType`, `Room::default()` and the `GetExits` method.
- `RoomGrid` (grid.dfy): the grid as `map<i32, map<i32, map<i32, Room>>>`, what `get_room` stores and returns, and the corrected version.
- `Dispatcher` (dispatcher.dfy): the pattern table, the registry, `Dispatch`, and the handlers' effects.
- `Setup` (setup.dfy): the tables that `Adventure::new` installs, and what they can reach.
- `Game` (adventure.dfy): the class `Adventure` with `DoCommand`, `PlayTurn`, `GetRoom` and `GetRoomPersisted`. These methods update the session in place.

Modelling choices:

- The regular-expression crate is a `Regex` value passed in. It says whether an anchored pattern `^p$` compiles, and what capture slots its match of a text has. Slot 0 is the whole match, and a slot is `None` when its group took no part.
- Handlers are a tagged datatype (`BadInput`, `NoInput`, `Exit`, `Look`). The closures are not run. `RunHandler` states their effect: only `exit` clears the running flag, and every handler returns an empty list.
- `Exits` and `Room` are Rust value types (`#[derive(Clone)]`), and `get_room` hands out copies. So both are datatypes, and `set_exit` yields the updated value.
- The pattern table is an ordered sequence. The source keeps it in a `HashMap` with unspecified order. Every dispatch property is stated for an arbitrary table, by position ("the first phrasing that fires"). `Setup.PlainLookHasNoArgument` is stated for any table that holds look's entry at any position, so it does not depend on the iteration order either.
- `rand::random()` for the biome becomes a `draw` parameter in 0..=6, the range of `gen_range(0..=6)`.
- The model follows the code where it departs from its evident design, in two places. A second `get_room` of a created ground room does not return the biome drawn the first time. And of the sixteen commands in the table, only `look` and `exit` have handlers, so matching any other command is the fatal "command not found" error (`Setup.UnhandledCommandFails`).

`get_room` as written does not compile: `room` is never assigned when the room exists or when creation is off, so it is possibly uninitialised where it is returned (src/main.rs:337). Were that fixed, each `HashMap::insert(..).unwrap()` would panic, since it unwraps the previous value, which is `None` on every insertion path. The model follows the evident reading:

- missing x and y levels are inserted empty, whatever `dont_create` says;
- an existing room is returned as stored;
- a missing room with creation off gives `Room::default()`, whose `valid` is false;
- creation stores `Room::default()` and returns a copy, whose biome (at y == 0 only) and tree flag are randomised.

## Model

| member | source | states |
|---|---|---|
| `RoomExits.GetExit` | src/main.rs:476-486 | a flag reads true only for one of the six direction names; any other name reads false |
| `RoomExits.SetExit` | src/main.rs:488-498 | after setting direction d to v, d reads back as v and every other name reads as before; an unknown name changes nothing |
| `RoomExits.ExitNamesSpec` | src/main.rs:353-381 | the exit list holds exactly the open directions, at most six, ordered north, south, west, east, up, down, none twice |
| `RoomExits.SetExitThenList` | src/main.rs:353-381 | opening an exit puts its name in the exit list, closing removes it, and no other name's presence changes |
| `Rooms.GetExits` | src/main.rs:353-381 | the list built by successive pushes is the ordered exit list, with exactly the open directions, at most six, in rank order |
| `Biomes.SampleBiome` | src/main.rs:412-424 | every draw in 0..=6 gives a biome other than None |
| `Biomes.SampleRoundTrip` | src/main.rs:412-424 | the draw and its inverse round-trip both ways, so the draw reaches all seven real biomes |
| `Biomes.SampleInjective` | src/main.rs:412-424 | two draws give the same biome only if they are equal |
| `Biomes.OneDrawPerBiome` | src/main.rs:412-424 | each real biome is reached by exactly one of the seven draws, so each has weight 1/7 |
| `Biomes.HasTreesExactly` | src/main.rs:426-435 | has_trees holds exactly for Forest, PineForest and Swamp |
| `Biomes.TreesForDraw` | src/main.rs:412-435 | a drawn biome has trees exactly for draws 0, 1 and 2 |
| `Biomes.DescriptionsDistinct` | src/main.rs:397-410 | each biome has its own description, and only None has the empty one |
| `RoomGrid.WithLevels` | src/main.rs:307-317 | afterwards the x and (x, y) levels exist, every existing level is kept, no level other than x and (x, y) is added, no room changed, and a grid that had both levels is unchanged |
| `RoomGrid.StoredAfter` | src/main.rs:306-338 | get_room only adds empty x and y levels and at most the room at (x, y, z), and never replaces a stored room |
| `RoomGrid.DontCreateKeepsRooms` | src/main.rs:319-335 | with dont_create every stored room is unchanged and no room is added |
| `RoomGrid.CreateStoresDefault` | src/main.rs:325-328 | at an empty coordinate with creation on, Room::default() is stored there and no other coordinate's room changes |
| `RoomGrid.ExistingRoomReturned` | src/main.rs:321-324 | an existing room is returned as stored and the grid's rooms are unchanged |
| `RoomGrid.MissingRoomIsInvalid` | src/main.rs:319-337 | with creation off at an empty coordinate the answer is Room::default(), whose valid flag is false |
| `RoomGrid.NewRoomTerrain` | src/main.rs:327-332 | a created room has a biome exactly when y == 0, the drawn one, trees exactly when that biome grows them, and default other fields |
| `RoomGrid.RandomBiomeNotStored` | src/main.rs:327-332 | as written, a ground room created with draw 0 is returned as a forest, but asking for it again gives no biome |
| `RoomGrid.CreatedRoomIsInvalid` | src/main.rs:327 | as written, a created room is invalid both as returned and as stored, like the "no room" answer |
| `RoomGrid.Created` | src/main.rs:327-332 | the corrected created room is valid, has a biome exactly at y == 0 and then the drawn one, has trees exactly when its biome grows them, and otherwise has Room::default()'s fields |
| `RoomGrid.StoredAfterPersisted` | src/main.rs:306-338 | corrected get_room only adds levels and the one room, never replaces one, and with creation on leaves a room at (x, y, z) |
| `RoomGrid.FetchedPersisted` | src/main.rs:306-338 | the corrected answer is what the grid holds at (x, y, z) afterwards, or, when nothing is there, invalid; with creation off at an empty coordinate it is Room::default() |
| `RoomGrid.PersistedValidIffStored` | src/main.rs:306-338 | corrected get_room keeps every stored room valid, and its answer is valid exactly when a room exists there |
| `RoomGrid.PersistedIsStable` | src/main.rs:306-338 | after corrected creation, any later call at the same coordinate returns the same room, biome included, and leaves the grid unchanged |
| `Dispatcher.Unwrapped` | src/main.rs:87 | unwrapping every slot keeps the slots' values, one argument per slot, in order |
| `Dispatcher.EmptyInputConsultsNoPattern` | src/main.rs:56-65 | empty input calls noinput with no arguments, or fails if it is unregistered, whatever the table and regex engine |
| `Dispatcher.NoMatchGoesToBadInput` | src/main.rs:105-108 | input that no phrasing stops calls badinput with no arguments, or fails if it is unregistered |
| `Dispatcher.FirstFiringDecides` | src/main.rs:67-103 | the first phrasing in table order that stops the search gives do_command's answer |
| `Dispatcher.SilentOrFires` | src/main.rs:67-103 | either no phrasing stops the search or there is a first one that does |
| `Dispatcher.DispatchOk` | src/main.rs:55-109 | a called handler is registered under its name: noinput for empty input, badinput when nothing fired, else the first firing command, with [] only on a verbatim zero-group match and otherwise every slot, whole match first |
| `Dispatcher.DispatchErr` | src/main.rs:55-109 | each failure has its cause: a missing special handler, or at the first firing phrasing an unregistered command, a pattern that does not compile, a missing slot 0, or a group that took no part |
| `Dispatcher.NonVerbatimMatchSkipped` | src/main.rs:75-81 | a zero-group match whose whole match is not the phrasing itself does not fire: the search goes on |
| `Dispatcher.RunHandler` | src/main.rs:247-297 | handlers return no output lines, and only exit changes the running flag, clearing it |
| `Setup.OnlyLookAndExitHandled` | src/main.rs:244-300 | of the sixteen commands in the table, only look and exit have a handler |
| `Setup.OnlyRegisteredHandlersRun` | src/main.rs:244-300 | with the installed tables, only badinput, noinput, exit and look can ever be called |
| `Setup.UnhandledCommandFails` | src/main.rs:90-92 | when a phrasing of an unhandled command fires first, do_command fails with that command not found |
| `Setup.PlainLookHasNoArgument` | src/main.rs:293-294 | in any table order, when no other phrasing stops the search, plain "look" reaches look's zero-group phrasing and hands the look handler an empty list, which it cannot index |
| `Game.Adventure.constructor` | src/main.rs:29-37 | a new session has the installed tables, no history, the running flag set and an empty grid |
| `Game.Adventure.DoCommand` | src/main.rs:55-109 | the nested search loops give Dispatch's answer; on success only exit changes the running flag, and on failure nothing changes |
| `Game.Adventure.PlayTurn` | src/main.rs:46-49 | one game-loop turn appends the line to the history and then dispatches it, ending with do_command's error if it fails |
| `Game.Adventure.GetRoom` | src/main.rs:306-338 | the grid becomes StoredAfter of the old grid, and the room returned is Fetched of it |
| `Game.Adventure.GetRoomPersisted` | src/main.rs:306-338 | the corrected get_room updates the grid and answers as StoredAfterPersisted and FetchedPersisted |

## Left out

- Regular-expression compilation and matching come from the foreign `regex` crate. They are the `Regex` parameter; regex semantics are not modelled.
- The error text of a pattern that fails to compile (`e.to_string()`) is not kept. `PatternError` records the phrasing instead. The other error strings are the cases of `DispatchError`, apart from `GroupUnmatched`, which stands for a panic (see below).
- The iteration order of the `HashMap` tables is unspecified. No cross-command precedence is claimed.
- Randomness (`rand::random`, `thread_rng`, `choose`) is left out. The biome draw is a parameter, and the canned responses that badinput and noinput print are not modelled.
- Console I/O is left out: the prompt, `read!`, and the colours. The `while self.running` loop of `run` is also left out. `PlayTurn` models one pass of its body.
- `simulate` is empty and is not modelled. `Item` and `ToolType` are data only, and no operation uses them.
- The body of the look handler beyond its read of `args[0]` is not modelled.
- `Game.Adventure.DoCommand`: requires that the dispatch does not hand the look handler an empty list. The source indexes `args[0]` there and panics. This happens for plain "look" and "inspect", including the "look" that `run` dispatches before its first prompt (`Setup.PlainLookHasNoArgument`).
- `Game.Adventure.PlayTurn`: has the same requirement as `DoCommand`, for the same reason.
- `Game.Adventure.GetRoom`: models the reading above, not the code as written. As written, `get_room` does not compile, because `room` is possibly uninitialised at src/main.rs:337. If it did compile, each `insert(..).unwrap()` would panic.
- `Dispatcher.Dispatch`: the `val.unwrap()` on a capture group that took no part (src/main.rs:87) panics in the source. The model returns it as the error value `GroupUnmatched`. The look handler's `args[0]` panic is modelled differently, as a precondition of `DoCommand`.
- Coordinates and the monster count are `i32`. The model does no arithmetic on them, so wrap-around does not arise.

## Findings

| source | as written | input that shows it | evidently intended | confidence | as-written member | corrected member |
|---|---|---|---|---|---|---|
| src/main.rs:327-332 | the biome and tree flag are set only on the returned clone; the grid keeps `Room::default()` | on an empty grid, `get_room(0, 0, 0, false)` with draw 0 returns a forest; the same call again returns a room with no biome | the created room is stored with its drawn biome, so later calls return it | not executed; high | `RoomGrid.RandomBiomeNotStored` | `RoomGrid.PersistedIsStable` |
| src/main.rs:327 | a created room is `Room::default()`, with `valid` false, just like the "no room" answer | any `get_room(x, y, z, false)` at an empty coordinate | created rooms are valid, so `valid` tells a room from no room | not executed; medium | `RoomGrid.CreatedRoomIsInvalid` | `RoomGrid.PersistedValidIffStored` |
