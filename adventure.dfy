/**
 * The game session (struct Adventure in src/main.rs): its tables, the
 * running flag, the command history and the room grid, with do_command,
 * get_room and one turn of the game loop as methods that update it in place.
 */
module Game {
  import opened Wrappers
  import opened Rooms
  import opened RoomGrid
  import opened Dispatcher
  import opened Setup

  class Adventure {
    const commands: Registry
    const matches: Table
    var commandHistory: seq<string>
    var running: bool
    var roomMap: RoomMap

    /** Adventure::new. */
    constructor ()
      ensures commands == SetupCommands() && matches == SetupMatches()
      ensures commandHistory == [] && running && roomMap == map[]
    {
      commands := SetupCommands();
      matches := SetupMatches();
      commandHistory := [];
      running := true;
      roomMap := map[];
    }

    /**
     * Adventure::do_command: dispatches text and runs the handler it
     * reaches. The answer is that of Dispatch; on success the output list
     * (always empty) is returned and only exit changes the running flag; on
     * failure nothing changes. The look handler must not be handed an empty
     * list.
     */
    method DoCommand(text: string, re: Regex) returns (r: Result<seq<string>, DispatchError>)
      requires Runnable(Dispatch(matches, commands, re, text))
      modifies this`running
      ensures var d := Dispatch(matches, commands, re, text);
        && (d.Err? ==> r == Err(d.error) && running == old(running))
        && (d.Ok? ==> r == Ok([]) && running == (old(running) && d.value.handler != Exit))
    {
      if text == "" {
        if "noinput" in commands {
          var reply := RunHandler(commands["noinput"], running, []);
          running := reply.running;
          return Ok(reply.output);
        } else {
          return Err(CommandNotFound("noinput"));
        }
      }

      var i := 0;
      while i < |matches|
        invariant 0 <= i <= |matches|
        invariant running == old(running)
        invariant SearchTable(matches, commands, re, text) == SearchTable(matches[i..], commands, re, text)
      {
        var (command, phrasings) := matches[i];
        assert matches[i..][0] == matches[i] && matches[i..][1..] == matches[i + 1..];
        var j := 0;
        while j < |phrasings|
          invariant 0 <= j <= |phrasings|
          invariant running == old(running)
          invariant SearchPhrasings(command, phrasings, commands, re, text) ==
            SearchPhrasings(command, phrasings[j..], commands, re, text)
        {
          var phrasing := phrasings[j];
          assert phrasings[j..][0] == phrasing && phrasings[j..][1..] == phrasings[j + 1..];
          var pattern := Anchored(phrasing);
          if !re.compiles(pattern) {
            return Err(PatternError(phrasing));
          }
          match re.captures(pattern, text) {
            case None =>
            case Some(caps) =>
              if command !in commands {
                return Err(CommandNotFound(command));
              }
              var handler := commands[command];
              if |caps| == 1 {
                match caps[0] {
                  case None =>
                    return Err(CaptureError);
                  case Some(whole) =>
                    if whole == phrasing {
                      var reply := RunHandler(handler, running, []);
                      running := reply.running;
                      return Ok(reply.output);
                    }
                }
              } else {
                var args: seq<string> := [];
                var k := 0;
                while k < |caps|
                  invariant 0 <= k <= |caps|
                  invariant |args| == k
                  invariant forall n :: 0 <= n < k ==> caps[n] == Some(args[n])
                {
                  if caps[k].None? {
                    return Err(GroupUnmatched);
                  }
                  args := args + [caps[k].value];
                  k := k + 1;
                }
                assert args == Unwrapped(caps);
                var reply := RunHandler(handler, running, args);
                running := reply.running;
                return Ok(reply.output);
              }
          }
          j := j + 1;
        }
        i := i + 1;
      }

      if "badinput" in commands {
        var reply := RunHandler(commands["badinput"], running, []);
        running := reply.running;
        return Ok(reply.output);
      } else {
        return Err(CommandNotFound("badinput"));
      }
    }

    /**
     * One pass of the loop in Adventure::run, after the line is read: the
     * line is appended to the history, then dispatched; a failure ends the
     * loop with that error (the ? operator), and simulate does nothing.
     */
    method PlayTurn(line: string, re: Regex) returns (r: Result<(), DispatchError>)
      requires Runnable(Dispatch(matches, commands, re, line))
      modifies this`commandHistory, this`running
      ensures commandHistory == old(commandHistory) + [line]
      ensures var d := Dispatch(matches, commands, re, line);
        && (d.Err? ==> r == Err(d.error) && running == old(running))
        && (d.Ok? ==> r == Ok(()) && running == (old(running) && d.value.handler != Exit))
    {
      commandHistory := commandHistory + [line];
      var outcome := DoCommand(line, re);
      if outcome.Err? {
        return Err(outcome.error);
      }
      r := Ok(());
    }

    /**
     * Adventure::get_room, as read in RoomGrid: draw stands for the
     * rand::random() biome draw. The grid afterwards and the room returned
     * are StoredAfter and Fetched of the grid before.
     */
    method GetRoom(x: i32, y: i32, z: i32, dontCreate: bool, draw: int) returns (room: Room)
      requires 0 <= draw <= 6
      modifies this`roomMap
      ensures roomMap == StoredAfter(old(roomMap), x, y, z, dontCreate)
      ensures room == Fetched(old(roomMap), x, y, z, dontCreate, draw)
    {
      if x !in roomMap {
        roomMap := roomMap[x := map[]];
      }
      var xVal := roomMap[x];
      if y !in xVal {
        xVal := xVal[y := map[]];
        roomMap := roomMap[x := xVal];
      }
      var yVal := xVal[y];
      assert roomMap == WithLevels(old(roomMap), x, y);

      room := DefaultRoom();
      if z in yVal {
        room := yVal[z];
      } else if !dontCreate {
        roomMap := roomMap[x := xVal[y := yVal[z := DefaultRoom()]]];
        room := Randomised(DefaultRoom(), y, draw);
      }
    }

    /**
     * get_room as evidently intended: a created room is marked valid and
     * stored with the biome and tree flag it was given, so later calls see
     * the same room.
     */
    method GetRoomPersisted(x: i32, y: i32, z: i32, dontCreate: bool, draw: int) returns (room: Room)
      requires 0 <= draw <= 6
      modifies this`roomMap
      ensures roomMap == StoredAfterPersisted(old(roomMap), x, y, z, dontCreate, draw)
      ensures room == FetchedPersisted(old(roomMap), x, y, z, dontCreate, draw)
    {
      if x !in roomMap {
        roomMap := roomMap[x := map[]];
      }
      var xVal := roomMap[x];
      if y !in xVal {
        xVal := xVal[y := map[]];
        roomMap := roomMap[x := xVal];
      }
      var yVal := xVal[y];
      assert roomMap == WithLevels(old(roomMap), x, y);

      room := DefaultRoom();
      if z in yVal {
        room := yVal[z];
      } else if !dontCreate {
        room := Created(y, draw);
        roomMap := roomMap[x := xVal[y := yVal[z := room]]];
      }
    }
  }
}
