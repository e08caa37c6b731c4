/**
 * The tables Adventure::new installs (setup_matches and setup_commands in
 * src/main.rs), and what dispatching against them can and cannot reach.
 */
module Setup {
  import opened Wrappers
  import opened Dispatcher

  /**
   * setup_matches. The source keeps the entries in a HashMap, whose
   * iteration order is unspecified; they are listed here in insertion order
   * and PlainLookHasNoArgument is stated for any order of the entries.
   */
  function SetupMatches(): Table {
    [ ("wait", ["wait"]),
      ("look", ["look at the ([a-zA-Z ]+)", "look at ([a-zA-Z ]+)", "look",
                "inspect ([a-zA-Z ]+)", "inspect the ([a-zA-Z ]+)", "inspect"]),
      ("inventory", ["check self", "check inventory", "inventory", "i"]),
      ("go", ["go ([a-zA-Z]+)", "travel ([a-zA-Z]+)", "walk ([a-zA-Z]+)", "run ([a-zA-Z]+)", "go"]),
      ("dig", ["dig ([a-zA-Z]+) using ([a-zA-Z ]+)", "dig ([a-zA-Z]+) with ([a-zA-Z ]+)",
               "dig ([a-zA-Z]+)", "dig"]),
      ("take", ["pick up the ([a-zA-Z ]+)", "pick up ([a-zA-Z ]+)", "pickup ([a-zA-Z ]+)",
                "take the ([a-zA-Z ]+)", "take ([a-zA-Z ]+)", "take"]),
      ("drop", ["put down the ([a-zA-Z ]+)", "put down ([a-zA-Z ]+)", "drop the ([a-zA-Z ]+)",
                "drop ([a-zA-Z ]+)", "drop"]),
      ("place", ["place the ([a-zA-Z ]+)", "place ([a-zA-Z ]+)", "place"]),
      ("cbreak", ["punch the ([a-zA-Z ]+)", "punch ([a-zA-Z ]+)", "punch",
                  "break the ([a-zA-Z ]+) with the ([a-zA-Z ]+)", "break ([a-zA-Z ]+) with ([a-zA-Z ]+)",
                  "break the ([a-zA-Z ]+)", "break ([a-zA-Z ]+)", "break"]),
      ("mine", ["mine the ([a-zA-Z ]+) with the ([a-zA-Z ]+)", "mine ([a-zA-Z ]+) with ([a-zA-Z ]+)",
                "mine ([a-zA-Z ]+)", "mine"]),
      ("attack", ["attack the ([a-zA-Z ]+) with the ([a-zA-Z ]+)", "attack ([a-zA-Z ]+) with ([a-zA-Z ]+)",
                  "attack ([a-zA-Z ]+)", "attack",
                  "kill the ([a-zA-Z ]+) with the ([a-zA-Z ]+)", "kill ([a-zA-Z ]+)", "kill",
                  "hit the ([a-zA-Z ]+) with the ([a-zA-Z ]+)", "hit ([a-zA-Z ]+) with ([a-zA-Z ]+)",
                  "hit ([a-zA-Z ]+)", "hit"]),
      ("craft", ["craft a ([a-zA-Z ]+)", "craft some ([a-zA-Z ]+)", "craft ([a-zA-Z ]+)", "craft",
                 "make a ([a-zA-Z ]+)", "make some ([a-zA-Z ]+)", "make ([a-zA-Z ]+)", "make"]),
      ("build", ["build ([a-zA-Z ]+) out of ([a-zA-Z ]+)", "build ([a-zA-Z ]+) from ([a-zA-Z ]+)",
                 "build ([a-zA-Z ]+)", "build"]),
      ("eat", ["eat a ([a-zA-Z ]+)", "eat the ([a-zA-Z ]+)", "eat ([a-zA-Z ]+)", "eat"]),
      ("help", ["help me", "help"]),
      ("exit", ["exit", "quit", "goodbye", "good bye", "bye", "farewell"])
    ]
  }

  /** setup_commands: only four handlers are registered. */
  function SetupCommands(): Registry {
    map["badinput" := BadInput, "noinput" := NoInput, "exit" := Exit, "look" := Look]
  }

  /** Of the sixteen commands in the table, only look and exit have a handler. */
  lemma OnlyLookAndExitHandled()
    ensures |SetupMatches()| == 16
    ensures forall i :: 0 <= i < |SetupMatches()| ==>
      (SetupMatches()[i].0 in SetupCommands() <==> SetupMatches()[i].0 in {"look", "exit"})
  {
  }

  /**
   * Against the installed tables, the only handlers a line can reach are the
   * four registered ones; everything else is an error.
   */
  lemma OnlyRegisteredHandlersRun(re: Regex, text: string)
    requires Dispatch(SetupMatches(), SetupCommands(), re, text).Ok?
    ensures Dispatch(SetupMatches(), SetupCommands(), re, text).value.command in {"badinput", "noinput", "exit", "look"}
  {
    DispatchOk(SetupMatches(), SetupCommands(), re, text);
  }

  /**
   * When a phrasing of an unhandled command (wait, go, take, ...) is the
   * first to match, do_command fails with "<name> command not found",
   * which ends the game loop through its ? operator.
   */
  lemma UnhandledCommandFails(re: Regex, text: string, i: int, j: int)
    requires text != "" && FiresAt(SetupMatches(), SetupCommands(), re, text, i, j)
    requires SetupMatches()[i].0 !in {"look", "exit"}
    requires re.compiles(Anchored(SetupMatches()[i].1[j]))
    requires re.captures(Anchored(SetupMatches()[i].1[j]), text).Some?
    ensures Dispatch(SetupMatches(), SetupCommands(), re, text) == Err(CommandNotFound(SetupMatches()[i].0))
  {
    OnlyLookAndExitHandled();
    FirstFiringDecides(SetupMatches(), SetupCommands(), re, text, i, j);
  }

  /**
   * Plain "look", the line the game loop dispatches before its first prompt,
   * reaches look's zero-group phrasing "look" (its third) and so calls the
   * look handler with an empty list, which that handler indexes at 0: the
   * dispatch is not runnable. Stated for any table t that holds look's entry
   * at any position k, so it holds whatever order the HashMap iterates in,
   * provided no other phrasing stops the search on "look".
   */
  lemma PlainLookHasNoArgument(t: Table, re: Regex, k: int)
    requires 0 <= k < |t| && t[k] == SetupMatches()[1]
    requires forall i, j :: 0 <= i < |t| && 0 <= j < |t[i].1| && (i, j) != (k, 2) ==>
      At(t, SetupCommands(), re, "look", i, j).Continue?
    requires re.compiles(Anchored("look")) && re.captures(Anchored("look"), "look") == Some([Some("look")])
    ensures Dispatch(t, SetupCommands(), re, "look") == Ok(Invocation("look", Look, []))
    ensures !Runnable(Dispatch(t, SetupCommands(), re, "look"))
  {
    assert t[k].0 == "look" && t[k].1[2] == "look";
    assert At(t, SetupCommands(), re, "look", k, 2) == Stop(Ok(Invocation("look", Look, [])));
    assert FiresAt(t, SetupCommands(), re, "look", k, 2);
    FirstFiringDecides(t, SetupCommands(), re, "look", k, 2);
  }
}
