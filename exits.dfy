/**
 * The six exit flags of a room (struct Exits in src/main.rs), reached by
 * direction name, and the ordered list of open exits that Room::get_exits
 * builds.
 */
module RoomExits {

  /** One flag per direction; Rust's #[derive(Default)] makes them all false. */
  datatype Exits = Exits(north: bool, south: bool, east: bool, west: bool, down: bool, up: bool)

  function NoExits(): Exits {
    Exits(false, false, false, false, false, false)
  }

  /** The direction names, in the order get_exits lists them. */
  const Directions: seq<string> := ["north", "south", "west", "east", "up", "down"]

  /** Position of a direction name in Directions; 6 for any other string. */
  function Rank(d: string): nat {
    if d == "north" then 0
    else if d == "south" then 1
    else if d == "west" then 2
    else if d == "east" then 3
    else if d == "up" then 4
    else if d == "down" then 5
    else 6
  }

  /** Exits::get_exit: the flag named by d; false for any name that is not a direction. */
  function GetExit(e: Exits, d: string): (open: bool)
    ensures open ==> d in Directions
  {
    if d == "north" then e.north
    else if d == "south" then e.south
    else if d == "west" then e.west
    else if d == "east" then e.east
    else if d == "up" then e.up
    else if d == "down" then e.down
    else false
  }

  /**
   * Exits::set_exit. The Rust method updates one field of a value struct in
   * place; here it yields the updated value. Setting a direction makes its
   * flag read back as v and leaves the five others alone; any other name
   * changes nothing.
   */
  function SetExit(e: Exits, d: string, v: bool): (r: Exits)
    ensures d in Directions ==> GetExit(r, d) == v
    ensures forall d' :: d' != d ==> GetExit(r, d') == GetExit(e, d')
    ensures d !in Directions ==> r == e
  {
    if d == "north" then e.(north := v)
    else if d == "south" then e.(south := v)
    else if d == "west" then e.(west := v)
    else if d == "east" then e.(east := v)
    else if d == "up" then e.(up := v)
    else if d == "down" then e.(down := v)
    else e
  }

  /** The names in ds whose flag is set, in the order of ds. */
  function Listed(e: Exits, ds: seq<string>): seq<string> {
    if ds == [] then []
    else (if GetExit(e, ds[0]) then [ds[0]] else []) + Listed(e, ds[1..])
  }

  /** What Room::get_exits returns for a room with exits e. */
  function ExitNames(e: Exits): seq<string> {
    Listed(e, Directions)
  }

  lemma RankOfDirection(k: nat)
    requires k < |Directions|
    ensures Rank(Directions[k]) == k
  {
  }

  /**
   * On the suffix of Directions from position k, Listed keeps exactly the
   * set directions, and their ranks rise strictly from at least k.
   */
  lemma {:induction false} ListedSuffix(e: Exits, k: nat)
    requires k <= |Directions|
    decreases |Directions| - k
    ensures var r := Listed(e, Directions[k..]);
      && |r| <= |Directions| - k
      && (forall d :: d in r <==> d in Directions[k..] && GetExit(e, d))
      && (forall i :: 0 <= i < |r| ==> k <= Rank(r[i]))
      && (forall i, j :: 0 <= i < j < |r| ==> Rank(r[i]) < Rank(r[j]))
  {
    if k < |Directions| {
      var ds := Directions[k..];
      assert ds[0] == Directions[k];
      assert ds[1..] == Directions[k + 1..];
      RankOfDirection(k);
      ListedSuffix(e, k + 1);
      var rest := Listed(e, Directions[k + 1..]);
      assert Listed(e, ds) == (if GetExit(e, ds[0]) then [ds[0]] else []) + rest;
      forall d ensures d in ds <==> d == Directions[k] || d in Directions[k + 1..] {
        assert ds == [Directions[k]] + Directions[k + 1..];
      }
    }
  }

  /**
   * get_exits lists exactly the directions whose flag is set, at most six of
   * them, in the order north, south, west, east, up, down, so never one twice.
   */
  lemma ExitNamesSpec(e: Exits)
    ensures var r := ExitNames(e);
      && |r| <= 6
      && (forall d :: d in r <==> d in Directions && GetExit(e, d))
      && (forall i, j :: 0 <= i < j < |r| ==> Rank(r[i]) < Rank(r[j]))
      && (forall i, j :: 0 <= i < j < |r| ==> r[i] != r[j])
  {
    ListedSuffix(e, 0);
    assert Directions[0..] == Directions;
  }

  /**
   * Opening an exit adds its name to the list; closing one removes it; no
   * other name's presence changes.
   */
  lemma SetExitThenList(e: Exits, d: string, v: bool)
    requires d in Directions
    ensures d in ExitNames(SetExit(e, d, v)) <==> v
    ensures forall d' :: d' != d ==> (d' in ExitNames(SetExit(e, d, v)) <==> d' in ExitNames(e))
  {
    ExitNamesSpec(e);
    ExitNamesSpec(SetExit(e, d, v));
  }
}
