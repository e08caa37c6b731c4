/**
 * Command dispatch (Adventure::do_command in src/main.rs): the pattern
 * table, the handler registry, and which handler a line of input reaches
 * with which arguments.
 *
 * The regular-expression crate is not modelled: a Regex value stands for it,
 * saying of each anchored pattern whether it compiles and, for a text, the
 * capture slots of its match (slot 0 the whole match, a slot None when its
 * group took no part).
 */
module Dispatcher {
  import opened Wrappers

  datatype Regex = Regex(
    compiles: string -> bool,
    captures: (string, string) -> Option<seq<Option<string>>>)

  /** One phrasing of a command: a regular expression, matched against the whole line. */
  type Phrasing = string

  /** The pattern table: each command name with its phrasings, in order. */
  type Table = seq<(string, seq<Phrasing>)>

  /** The registered handlers, by kind; their closures are not executed here. */
  datatype Handler = BadInput | NoInput | Exit | Look

  type Registry = map<string, Handler>

  /** The handler do_command calls and the argument list it passes. */
  datatype Invocation = Invocation(command: string, handler: Handler, args: seq<string>)

  /** The ways do_command fails. */
  datatype DispatchError =
    | CommandNotFound(command: string)  // "<name> command not found"
    | PatternError(phrasing: Phrasing)  // Regex::new rejected "^<phrasing>$"
    | CaptureError                      // "error getting capture": a one-slot match without slot 0
    | GroupUnmatched                    // unwrap on a group that took no part: a panic

  /** Regex::new(&format!("^{}$", p)). */
  function Anchored(p: Phrasing): string {
    "^" + p + "$"
  }

  /** Whether the search goes on past a phrasing or ends there with an answer. */
  datatype Step = Continue | Stop(result: Result<Invocation, DispatchError>)

  predicate AllParticipate(caps: seq<Option<string>>) {
    forall k :: 0 <= k < |caps| ==> caps[k].Some?
  }

  /** captures.iter().map(|val| val.unwrap()...), when no unwrap fails. */
  function Unwrapped(caps: seq<Option<string>>): (args: seq<string>)
    requires AllParticipate(caps)
    ensures |args| == |caps|
    ensures forall k :: 0 <= k < |caps| ==> caps[k] == Some(args[k])
  {
    if caps == [] then [] else [caps[0].value] + Unwrapped(caps[1..])
  }

  /** The body of the inner loop of do_command, for one phrasing p of command. */
  function TryPhrasing(command: string, p: Phrasing, reg: Registry, re: Regex, text: string): Step {
    var pattern := Anchored(p);
    if !re.compiles(pattern) then Stop(Err(PatternError(p)))
    else match re.captures(pattern, text)
      case None => Continue
      case Some(caps) =>
        if command !in reg then Stop(Err(CommandNotFound(command)))
        else if |caps| == 1 then
          match caps[0]
          case None => Stop(Err(CaptureError))
          case Some(whole) =>
            if whole == p then Stop(Ok(Invocation(command, reg[command], []))) else Continue
        else if AllParticipate(caps) then Stop(Ok(Invocation(command, reg[command], Unwrapped(caps))))
        else Stop(Err(GroupUnmatched))
  }

  function SearchPhrasings(command: string, ps: seq<Phrasing>, reg: Registry, re: Regex, text: string): Step {
    if ps == [] then Continue
    else
      var step := TryPhrasing(command, ps[0], reg, re, text);
      if step.Stop? then step else SearchPhrasings(command, ps[1..], reg, re, text)
  }

  function SearchTable(t: Table, reg: Registry, re: Regex, text: string): Step {
    if t == [] then Continue
    else
      var step := SearchPhrasings(t[0].0, t[0].1, reg, re, text);
      if step.Stop? then step else SearchTable(t[1..], reg, re, text)
  }

  /** Calling the special handler name with no arguments, or failing if it is absent. */
  function Fallback(name: string, reg: Registry): Result<Invocation, DispatchError> {
    if name in reg then Ok(Invocation(name, reg[name], [])) else Err(CommandNotFound(name))
  }

  /** What do_command does with a line of input: which handler it calls, or how it fails. */
  function Dispatch(t: Table, reg: Registry, re: Regex, text: string): Result<Invocation, DispatchError> {
    if text == "" then Fallback("noinput", reg)
    else match SearchTable(t, reg, re, text)
      case Stop(r) => r
      case Continue => Fallback("badinput", reg)
  }

  // ---------------------------------------------------------------------
  // The search, stated by position: the first phrasing that stops decides.

  /** The step for phrasing j of entry i. */
  function At(t: Table, reg: Registry, re: Regex, text: string, i: int, j: int): Step
    requires 0 <= i < |t| && 0 <= j < |t[i].1|
  {
    TryPhrasing(t[i].0, t[i].1[j], reg, re, text)
  }

  /** No phrasing of the table stops the search. */
  ghost predicate AllSilent(t: Table, reg: Registry, re: Regex, text: string) {
    forall i, j :: 0 <= i < |t| && 0 <= j < |t[i].1| ==> At(t, reg, re, text, i, j).Continue?
  }

  /** Phrasing j of entry i stops the search and every phrasing before it, entry by entry, goes on. */
  ghost predicate FiresAt(t: Table, reg: Registry, re: Regex, text: string, i: int, j: int) {
    && 0 <= i < |t| && 0 <= j < |t[i].1|
    && At(t, reg, re, text, i, j).Stop?
    && (forall i', j' :: 0 <= i' < |t| && 0 <= j' < |t[i'].1| && (i' < i || (i' == i && j' < j)) ==>
          At(t, reg, re, text, i', j').Continue?)
  }

  lemma {:induction false} PhrasingsSilent(c: string, ps: seq<Phrasing>, reg: Registry, re: Regex, text: string)
    ensures SearchPhrasings(c, ps, reg, re, text).Continue? <==>
      forall j :: 0 <= j < |ps| ==> TryPhrasing(c, ps[j], reg, re, text).Continue?
  {
    if ps != [] {
      PhrasingsSilent(c, ps[1..], reg, re, text);
      if TryPhrasing(c, ps[0], reg, re, text).Continue? {
        forall j | 0 < j < |ps| ensures ps[j] == ps[1..][j - 1] {}
      }
    }
  }

  lemma {:induction false} PhrasingsFirst(c: string, ps: seq<Phrasing>, reg: Registry, re: Regex, text: string, j: int)
    requires 0 <= j < |ps| && TryPhrasing(c, ps[j], reg, re, text).Stop?
    requires forall j' :: 0 <= j' < j ==> TryPhrasing(c, ps[j'], reg, re, text).Continue?
    ensures SearchPhrasings(c, ps, reg, re, text) == TryPhrasing(c, ps[j], reg, re, text)
  {
    if j > 0 {
      assert TryPhrasing(c, ps[0], reg, re, text).Continue?;
      forall j' | 0 <= j' < j - 1 ensures TryPhrasing(c, ps[1..][j'], reg, re, text).Continue? {
        assert ps[1..][j'] == ps[j' + 1];
      }
      PhrasingsFirst(c, ps[1..], reg, re, text, j - 1);
    }
  }

  lemma {:induction false} PhrasingsPosition(c: string, ps: seq<Phrasing>, reg: Registry, re: Regex, text: string)
    returns (j: int)
    requires SearchPhrasings(c, ps, reg, re, text).Stop?
    ensures 0 <= j < |ps| && SearchPhrasings(c, ps, reg, re, text) == TryPhrasing(c, ps[j], reg, re, text)
    ensures forall j' :: 0 <= j' < j ==> TryPhrasing(c, ps[j'], reg, re, text).Continue?
  {
    if TryPhrasing(c, ps[0], reg, re, text).Stop? {
      j := 0;
    } else {
      var k := PhrasingsPosition(c, ps[1..], reg, re, text);
      j := k + 1;
      forall j' | 0 < j' < j ensures TryPhrasing(c, ps[j'], reg, re, text).Continue? {
        assert ps[j'] == ps[1..][j' - 1];
      }
    }
  }

  /** The table search goes on to the end exactly when no phrasing stops it. */
  lemma {:induction false} TableSilent(t: Table, reg: Registry, re: Regex, text: string)
    ensures SearchTable(t, reg, re, text).Continue? <==> AllSilent(t, reg, re, text)
  {
    if t != [] {
      TableSilent(t[1..], reg, re, text);
      PhrasingsSilent(t[0].0, t[0].1, reg, re, text);
      if SearchPhrasings(t[0].0, t[0].1, reg, re, text).Continue? {
        if AllSilent(t[1..], reg, re, text) {
          forall i, j | 0 <= i < |t| && 0 <= j < |t[i].1| ensures At(t, reg, re, text, i, j).Continue? {
            if i > 0 {
              assert At(t[1..], reg, re, text, i - 1, j) == At(t, reg, re, text, i, j);
            }
          }
        }
        if AllSilent(t, reg, re, text) {
          forall i, j | 0 <= i < |t[1..]| && 0 <= j < |t[1..][i].1|
            ensures At(t[1..], reg, re, text, i, j).Continue?
          {
            assert At(t[1..], reg, re, text, i, j) == At(t, reg, re, text, i + 1, j);
          }
        }
      } else {
        var j :| 0 <= j < |t[0].1| && TryPhrasing(t[0].0, t[0].1[j], reg, re, text).Stop?;
        assert At(t, reg, re, text, 0, j).Stop?;
      }
    }
  }

  /** The table search ends with the step of the phrasing that fires. */
  lemma {:induction false} TableFirst(t: Table, reg: Registry, re: Regex, text: string, i: int, j: int)
    requires FiresAt(t, reg, re, text, i, j)
    ensures SearchTable(t, reg, re, text) == At(t, reg, re, text, i, j)
  {
    if i == 0 {
      forall j' | 0 <= j' < j ensures TryPhrasing(t[0].0, t[0].1[j'], reg, re, text).Continue? {
        assert At(t, reg, re, text, 0, j').Continue?;
      }
      PhrasingsFirst(t[0].0, t[0].1, reg, re, text, j);
    } else {
      PhrasingsSilent(t[0].0, t[0].1, reg, re, text);
      forall j' | 0 <= j' < |t[0].1| ensures TryPhrasing(t[0].0, t[0].1[j'], reg, re, text).Continue? {
        assert At(t, reg, re, text, 0, j').Continue?;
      }
      forall i', j' | 0 <= i' < |t[1..]| && 0 <= j' < |t[1..][i'].1| && (i' < i - 1 || (i' == i - 1 && j' < j))
        ensures At(t[1..], reg, re, text, i', j').Continue?
      {
        assert At(t[1..], reg, re, text, i', j') == At(t, reg, re, text, i' + 1, j');
      }
      assert At(t[1..], reg, re, text, i - 1, j) == At(t, reg, re, text, i, j);
      TableFirst(t[1..], reg, re, text, i - 1, j);
    }
  }

  /** When the table search stops, some phrasing fires and its step is the answer. */
  lemma {:induction false} TablePosition(t: Table, reg: Registry, re: Regex, text: string) returns (i: int, j: int)
    requires SearchTable(t, reg, re, text).Stop?
    ensures FiresAt(t, reg, re, text, i, j)
    ensures SearchTable(t, reg, re, text) == At(t, reg, re, text, i, j)
  {
    if SearchPhrasings(t[0].0, t[0].1, reg, re, text).Stop? {
      i := 0;
      j := PhrasingsPosition(t[0].0, t[0].1, reg, re, text);
    } else {
      PhrasingsSilent(t[0].0, t[0].1, reg, re, text);
      var k, l := TablePosition(t[1..], reg, re, text);
      i, j := k + 1, l;
      assert At(t[1..], reg, re, text, k, l) == At(t, reg, re, text, i, j);
      forall i', j' | 0 <= i' < |t| && 0 <= j' < |t[i'].1| && (i' < i || (i' == i && j' < j))
        ensures At(t, reg, re, text, i', j').Continue?
      {
        if i' > 0 {
          assert At(t[1..], reg, re, text, i' - 1, j') == At(t, reg, re, text, i', j');
        }
      }
    }
  }

  // ---------------------------------------------------------------------
  // What do_command promises.

  /**
   * Empty input calls noinput with no arguments, or fails when noinput is
   * not registered, whatever the table and the regex engine: no pattern is
   * consulted.
   */
  lemma EmptyInputConsultsNoPattern(t1: Table, t2: Table, reg: Registry, re1: Regex, re2: Regex)
    ensures Dispatch(t1, reg, re1, "") == Dispatch(t2, reg, re2, "")
    ensures "noinput" in reg ==> Dispatch(t1, reg, re1, "") == Ok(Invocation("noinput", reg["noinput"], []))
    ensures "noinput" !in reg ==> Dispatch(t1, reg, re1, "") == Err(CommandNotFound("noinput"))
  {
  }

  /** Input that no phrasing stops goes to badinput with no arguments, or fails without it. */
  lemma NoMatchGoesToBadInput(t: Table, reg: Registry, re: Regex, text: string)
    requires text != "" && AllSilent(t, reg, re, text)
    ensures "badinput" in reg ==> Dispatch(t, reg, re, text) == Ok(Invocation("badinput", reg["badinput"], []))
    ensures "badinput" !in reg ==> Dispatch(t, reg, re, text) == Err(CommandNotFound("badinput"))
  {
    TableSilent(t, reg, re, text);
  }

  /** The first phrasing, in table order, that stops the search decides the answer. */
  lemma FirstFiringDecides(t: Table, reg: Registry, re: Regex, text: string, i: int, j: int)
    requires text != "" && FiresAt(t, reg, re, text, i, j)
    ensures Dispatch(t, reg, re, text) == At(t, reg, re, text, i, j).result
  {
    TableFirst(t, reg, re, text, i, j);
  }

  /** Non-empty input either stops at no phrasing or at a first one. */
  lemma SilentOrFires(t: Table, reg: Registry, re: Regex, text: string)
    ensures AllSilent(t, reg, re, text) || exists i, j :: FiresAt(t, reg, re, text, i, j)
  {
    TableSilent(t, reg, re, text);
    if !AllSilent(t, reg, re, text) {
      var i, j := TablePosition(t, reg, re, text);
    }
  }

  /**
   * The arguments a matched phrasing p delivers: with no capture group the
   * empty list, and only when the whole match is p verbatim; otherwise every
   * slot, the whole match first (with k >= 1 groups, k + 1 of them).
   */
  ghost predicate Delivers(re: Regex, p: Phrasing, text: string, args: seq<string>) {
    var pattern := Anchored(p);
    && re.compiles(pattern)
    && re.captures(pattern, text).Some?
    && var caps := re.captures(pattern, text).value;
      || (|caps| == 1 && caps[0] == Some(p) && args == [])
      || (|caps| != 1 && |args| == |caps| && forall k :: 0 <= k < |caps| ==> caps[k] == Some(args[k]))
  }

  /**
   * Every handler do_command calls is registered under its command name, and
   * it is noinput for empty input, badinput when no phrasing fired, or the
   * command of the first firing phrasing, with the arguments that phrasing
   * delivers.
   */
  lemma DispatchOk(t: Table, reg: Registry, re: Regex, text: string)
    requires Dispatch(t, reg, re, text).Ok?
    ensures var inv := Dispatch(t, reg, re, text).value;
      && inv.command in reg && inv.handler == reg[inv.command]
      && (text == "" ==> inv.command == "noinput" && inv.args == [])
      && (text != "" ==>
            || (inv.command == "badinput" && inv.args == [] && AllSilent(t, reg, re, text))
            || exists i, j :: FiresAt(t, reg, re, text, i, j) && t[i].0 == inv.command && Delivers(re, t[i].1[j], text, inv.args))
  {
    if text != "" {
      TableSilent(t, reg, re, text);
      if SearchTable(t, reg, re, text).Stop? {
        var i, j := TablePosition(t, reg, re, text);
        assert t[i].0 == Dispatch(t, reg, re, text).value.command;
        assert Delivers(re, t[i].1[j], text, Dispatch(t, reg, re, text).value.args);
      }
    }
  }

  /**
   * Every failure of do_command has its cause: a missing special handler, or
   * at the first firing phrasing a command without a handler, a phrasing
   * that does not compile, a one-slot match without its slot, or a group
   * that took no part.
   */
  lemma DispatchErr(t: Table, reg: Registry, re: Regex, text: string)
    requires Dispatch(t, reg, re, text).Err?
    ensures var e := Dispatch(t, reg, re, text).error;
      && (e.CommandNotFound? ==>
            && e.command !in reg
            && (|| (text == "" && e.command == "noinput")
                || (text != "" && e.command == "badinput" && AllSilent(t, reg, re, text))
                || exists i, j :: FiresAt(t, reg, re, text, i, j) && t[i].0 == e.command &&
                     re.captures(Anchored(t[i].1[j]), text).Some?))
      && (e.PatternError? ==>
            exists i, j :: FiresAt(t, reg, re, text, i, j) && t[i].1[j] == e.phrasing && !re.compiles(Anchored(e.phrasing)))
      && (e.CaptureError? ==>
            exists i, j :: FiresAt(t, reg, re, text, i, j) && t[i].0 in reg &&
              re.captures(Anchored(t[i].1[j]), text) == Some([Option.None]))
      && (e.GroupUnmatched? ==>
            exists i, j :: FiresAt(t, reg, re, text, i, j) && t[i].0 in reg &&
              re.captures(Anchored(t[i].1[j]), text).Some? &&
              var caps := re.captures(Anchored(t[i].1[j]), text).value;
              |caps| != 1 && !AllParticipate(caps))
  {
    if text != "" {
      TableSilent(t, reg, re, text);
      if SearchTable(t, reg, re, text).Stop? {
        var i, j := TablePosition(t, reg, re, text);
        var caps := re.captures(Anchored(t[i].1[j]), text);
        if caps.Some? && |caps.value| == 1 && caps.value[0].None? {
          assert caps.value == [Option.None];
        }
      }
    }
  }

  /**
   * A phrasing without capture groups whose whole match is not the phrasing
   * itself does not fire: the search goes on past it.
   */
  lemma NonVerbatimMatchSkipped(c: string, p: Phrasing, reg: Registry, re: Regex, text: string, whole: string)
    requires re.compiles(Anchored(p)) && c in reg
    requires re.captures(Anchored(p), text) == Some([Some(whole)]) && whole != p
    ensures TryPhrasing(c, p, reg, re, text) == Continue
  {
  }

  // ---------------------------------------------------------------------
  // The handlers that setup_commands registers.

  /** What a handler leaves: the running flag and the output lines it returns. */
  datatype Reply = Reply(running: bool, output: seq<string>)

  /**
   * The look closure reads args[0] first; called with an empty list it would
   * index out of bounds, so it is only defined for a non-empty one.
   */
  predicate Callable(h: Handler, args: seq<string>) {
    h == Look ==> |args| > 0
  }

  /**
   * Running a handler: exit clears the running flag; none of the four
   * changes anything else, and each returns an empty output list (the
   * canned responses of badinput and noinput are printed, not returned).
   */
  function RunHandler(h: Handler, running: bool, args: seq<string>): (reply: Reply)
    requires Callable(h, args)
    ensures reply.output == []
    ensures reply.running == (running && h != Exit)
  {
    match h
    case Exit => Reply(false, [])
    case Look => var target := args[0]; Reply(running, [])
    case _ => Reply(running, [])
  }

  /** The dispatch result is safe to run: it does not hand look an empty list. */
  predicate Runnable(d: Result<Invocation, DispatchError>) {
    d.Ok? ==> Callable(d.value.handler, d.value.args)
  }
}
