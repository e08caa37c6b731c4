/**
 * Rooms (struct Room in src/main.rs) and the inert item data they hold.
 */
module Rooms {
  import Wrappers
  import opened Biomes
  import opened RoomExits

  /** Rust's i32: room coordinates and the monster count. */
  newtype i32 = x: int | -0x8000_0000 <= x < 0x8000_0000

  datatype ToolType = NoTool | Pick | Sword | Shovel

  /** struct Item: data only, no operation reads or writes it. */
  datatype Item = Item(
    droppable: bool,
    desc: string,
    heavy: bool,
    creature: bool,
    drops: seq<string>,
    aliases: seq<string>,
    hitDrops: seq<string>,
    monster: bool,
    nocturnal: bool,
    material: bool,
    tool: bool,
    toolLevel: Wrappers.Option<i32>,
    toolType: Wrappers.Option<ToolType>,
    ore: bool,
    infinite: bool,
    food: bool)

  datatype Room = Room(
    biome: Biome,
    trees: bool,
    items: seq<Item>,
    exits: Exits,
    dark: bool,
    monsters: i32,
    valid: bool)

  /** Room::default(): no biome, no trees, nothing in it, no exits, not valid. */
  function DefaultRoom(): Room {
    Room(Biome.None, false, [], NoExits(), false, 0, false)
  }

  /**
   * Room::get_exits: pushes each open direction in turn. The result is the
   * ordered exit list, so it holds exactly the open directions, at most six,
   * each once, in the order north, south, west, east, up, down.
   */
  method GetExits(room: Room) returns (exits: seq<string>)
    ensures exits == ExitNames(room.exits)
    ensures |exits| <= 6
    ensures forall d :: d in exits <==> d in Directions && GetExit(room.exits, d)
    ensures forall i, j :: 0 <= i < j < |exits| ==> Rank(exits[i]) < Rank(exits[j])
  {
    var e := room.exits;
    exits := [];
    if e.north {
      exits := exits + ["north"];
    }
    assert exits == (if e.north then ["north"] else []);
    if e.south {
      exits := exits + ["south"];
    }
    assert exits == (if e.north then ["north"] else []) + (if e.south then ["south"] else []);
    ghost var two := exits;
    if e.west {
      exits := exits + ["west"];
    }
    assert exits == two + (if e.west then ["west"] else []);
    ghost var three := exits;
    if e.east {
      exits := exits + ["east"];
    }
    assert exits == three + (if e.east then ["east"] else []);
    ghost var four := exits;
    if e.up {
      exits := exits + ["up"];
    }
    assert exits == four + (if e.up then ["up"] else []);
    ghost var five := exits;
    if e.down {
      exits := exits + ["down"];
    }
    assert exits == five + (if e.down then ["down"] else []);
    ExitNamesUnfolded(room.exits);
    ExitNamesSpec(room.exits);
  }

  /** The exit list written out flag by flag, as get_exits pushes them. */
  lemma ExitNamesUnfolded(e: Exits)
    ensures ExitNames(e) ==
      (if e.north then ["north"] else []) + (if e.south then ["south"] else []) +
      (if e.west then ["west"] else []) + (if e.east then ["east"] else []) +
      (if e.up then ["up"] else []) + (if e.down then ["down"] else [])
  {
    var l5 := ListedCons(e, "down", [], []);
    var l4 := ListedCons(e, "up", ["down"], l5);
    var l3 := ListedCons(e, "east", ["up", "down"], l4);
    var l2 := ListedCons(e, "west", ["east", "up", "down"], l3);
    var l1 := ListedCons(e, "south", ["west", "east", "up", "down"], l2);
    var l0 := ListedCons(e, "north", ["south", "west", "east", "up", "down"], l1);
    assert ["north", "south", "west", "east", "up", "down"] == Directions;
    Reassociate(
      if e.north then ["north"] else [], if e.south then ["south"] else [],
      if e.west then ["west"] else [], if e.east then ["east"] else [],
      if e.up then ["up"] else [], if e.down then ["down"] else []);
  }

  /** One step of Listed on a list given head first. */
  lemma ListedCons(e: Exits, d: string, ds: seq<string>, rest: seq<string>) returns (r: seq<string>)
    requires rest == Listed(e, ds)
    ensures r == Listed(e, [d] + ds)
    ensures r == (if GetExit(e, d) then [d] else []) + rest
  {
    assert ([d] + ds)[1..] == ds;
    r := Listed(e, [d] + ds);
  }

  lemma Reassociate(a: seq<string>, b: seq<string>, c: seq<string>, d: seq<string>, e: seq<string>, f: seq<string>)
    ensures a + b + c + d + e + f == a + (b + (c + (d + (e + (f + [])))))
  {
  }
}
