/** The interactive client (chess-client-cli/main.go): a prompt built
    from the session, a line read, trimmed and stripped of its verbose flag,
    and the registry run on it, until the input ends or the user quits.

    Standard input is a parameter: the lines the user types, each with the
    answers the user would give to the prompts of the command it runs. */
module Repl {
  import opened Wrappers
  import opened Text
  import opened ApiTypes
  import opened Display
  import opened BoardView
  import Api
  import opened Sessions
  import opened Commands

  /** The address `runClient` starts with. */
  const DefaultURL: string := "http://localhost:8080"
  const VerboseFlag: string := " -v"
  /** How long a game id shown in the prompt is at most. */
  const ShortIdLength: nat := 8
  /** Go's panic for `s[:8]` on a shorter string. */
  const SliceOutOfRange: string := "slice bounds out of range"

  // ---------------------------------------------------------------------
  // The prompt

  /** The user part: the name in magenta after " [", then " - " in yellow
      when a game follows, otherwise the closing "]". */
  function UserParts(v: SessionView): seq<string> {
    if v.username == "" then []
    else [C("", " ["), C(Magenta, v.username)] + (if v.currentGame != "" then [C(Yellow, " - ")] else [C("", "]")])
  }

  /** The game part: `shown` (the shortened id) in white, opened with " ["
      when no user part did so, and closed with "]". */
  function GameParts(v: SessionView, shown: string): seq<string> {
    if v.currentGame == "" then []
    else (if v.username == "" then [C("", " [")] else []) + [C(White, shown), C("", "]")]
  }

  /** The side the user plays, when there is a game and a side. */
  function SideParts(v: SessionView): seq<string> {
    if v.gameState.None? || v.playerColor == "" then []
    else if v.playerColor == "w" then [C("", " "), C(Blue, "White")]
    else [C("", " "), C(Red, "Black")]
  }

  /** The player whose turn it is: white for turn "w", black otherwise. */
  function Mover(g: GameResponse): PlayerInfo {
    if g.turn == "w" then g.players.white else g.players.black
  }

  /** "c" for a computer player, "h" for any other. */
  function KindTag(p: PlayerInfo): string {
    if p.kind == Computer then "c" else "h"
  }

  /** The side to move and what kind of player it is, when there is a game. */
  function TurnParts(v: SessionView): seq<string> {
    if v.gameState.None? then []
    else
      var g := v.gameState.value;
      var side := if g.turn == "w" then C(Blue, "White") else C(Red, "Black");
      [C("", " - Turn:"), side, C("", "(" + KindTag(Mover(g)) + ")")]
  }

  /** Everything `buildPrompt` adds to its builder, in order. */
  function PromptParts(v: SessionView, shown: string): seq<string> {
    [C("", "chess")] + UserParts(v) + GameParts(v, shown) + SideParts(v) + TurnParts(v)
  }

  /** The game id as the prompt shows it: its first eight characters, or
      all of it when it is shorter. */
  function ShortId(id: string): (r: string)
    ensures |r| == if |id| < ShortIdLength then |id| else ShortIdLength
    ensures r == id[..|r|]
  {
    if |id| < ShortIdLength then id else id[..ShortIdLength]
  }

  /** The prompt `buildPrompt` returns, with the id shortened by `ShortId`. */
  function PromptText(v: SessionView): string {
    Prompt(Concat(PromptParts(v, ShortId(v.currentGame))))
  }

  /** `buildPrompt` as written: the id is cut with `[:8]`, which panics for
      a non-empty id shorter than eight. */
  function PromptAsWritten(v: SessionView): Result<string> {
    if v.currentGame == "" then Ok(Prompt(Concat(PromptParts(v, ""))))
    else if |v.currentGame| < ShortIdLength then Err(SliceOutOfRange)
    else Ok(Prompt(Concat(PromptParts(v, v.currentGame[..ShortIdLength]))))
  }

  /** `buildPrompt`, with the corrected shortening. */
  method BuildPrompt(s: Session) returns (p: string)
    ensures p == PromptText(s.View())
  {
    var b := new Builder();
    b := b.Add("", "chess");
    AddUser(b, s);
    AddGame(b, s);
    AddSide(b, s);
    AddTurn(b, s);
    p := Prompt(b.String());
  }

  /** The user part of `buildPrompt`. */
  method AddUser(b: Builder, s: Session)
    modifies b
    ensures b.parts == old(b.parts) + UserParts(s.View())
  {
    if s.username != "" {
      var _ := b.Add("", " [");
      var _ := b.Add(Magenta, s.username);
      if s.currentGame != "" {
        var _ := b.Add(Yellow, " - ");
      } else {
        var _ := b.Add("", "]");
      }
    }
  }

  /** The game part of `buildPrompt`. */
  method AddGame(b: Builder, s: Session)
    modifies b
    ensures b.parts == old(b.parts) + GameParts(s.View(), ShortId(s.currentGame))
  {
    if s.currentGame != "" {
      if s.username == "" {
        var _ := b.Add("", " [");
      }
      var _ := b.Add(White, ShortId(s.currentGame));
      var _ := b.Add("", "]");
    }
  }

  /** The side part of `buildPrompt`. */
  method AddSide(b: Builder, s: Session)
    modifies b
    ensures b.parts == old(b.parts) + SideParts(s.View())
  {
    if s.gameState.Some? && s.playerColor != "" {
      if s.playerColor == "w" {
        var _ := b.Add("", " ");
        var _ := b.Add(Blue, "White");
      } else {
        var _ := b.Add("", " ");
        var _ := b.Add(Red, "Black");
      }
    }
  }

  /** The turn part of `buildPrompt`. */
  method AddTurn(b: Builder, s: Session)
    modifies b
    ensures b.parts == old(b.parts) + TurnParts(s.View())
  {
    if s.gameState.Some? {
      var g := s.gameState.value;
      var turnInfo := " - Turn:";
      if g.turn == "w" {
        var playerType := "h";
        if g.players.white.kind == Computer {
          playerType := "c";
        }
        var _ := b.Add("", turnInfo);
        var _ := b.Add(Blue, "White");
        var _ := b.Add("", "(" + playerType + ")");
      } else {
        var playerType := "h";
        if g.players.black.kind == Computer {
          playerType := "c";
        }
        var _ := b.Add("", turnInfo);
        var _ := b.Add(Red, "Black");
        var _ := b.Add("", "(" + playerType + ")");
      }
    }
  }

  // ---------------------------------------------------------------------
  // Properties of the prompt

  /** The side label appears exactly when there is a game and the user plays
      a side: "White" in blue for "w", "Black" in red for any other side. */
  lemma SideLabel(v: SessionView)
    ensures SideParts(v) != [] <==> v.gameState.Some? && v.playerColor != ""
    ensures SideParts(v) == [C("", " "), C(Blue, "White")] <==> v.gameState.Some? && v.playerColor == "w"
    ensures SideParts(v) == [C("", " "), C(Red, "Black")] <==> v.gameState.Some? && v.playerColor != "" && v.playerColor != "w"
  {
    assert C(Blue, "White") != C(Red, "Black") by {
      assert C(Blue, "White")[3] != C(Red, "Black")[3];
    }
  }

  /** With a game, the turn segment names the side to move the way the board
      view does, and tags it "(c)" exactly when that player is the computer;
      without a game there is no turn segment. */
  lemma TurnLabel(v: SessionView)
    ensures v.gameState.None? <==> TurnParts(v) == []
    ensures v.gameState.Some? ==>
      |TurnParts(v)| == 3 && TurnParts(v)[1] == ColorForTurn(v.gameState.value.turn)
    ensures v.gameState.Some? ==>
      (TurnParts(v)[2] == C("", "(c)") <==> Mover(v.gameState.value).kind == Computer)
  {
    if v.gameState.Some? {
      assert C("", "(c)") != C("", "(h)") by {
        assert C("", "(c)")[1] != C("", "(h)")[1];
      }
    }
  }

  /** The user and the game share one pair of brackets: " [" opens it, and
      "]" closes it after the last of the two that is present. */
  lemma ContextBrackets(v: SessionView, shown: string)
    ensures v.username != "" && v.currentGame != "" ==>
      UserParts(v) + GameParts(v, shown) == [C("", " ["), C(Magenta, v.username), C(Yellow, " - "), C(White, shown), C("", "]")]
    ensures v.username != "" && v.currentGame == "" ==>
      UserParts(v) + GameParts(v, shown) == [C("", " ["), C(Magenta, v.username), C("", "]")]
    ensures v.username == "" && v.currentGame != "" ==>
      UserParts(v) + GameParts(v, shown) == [C("", " ["), C(White, shown), C("", "]")]
    ensures v.username == "" && v.currentGame == "" ==> UserParts(v) + GameParts(v, shown) == []
  {
  }

  /** Every prompt begins with "chess" in yellow and ends with the " > "
      marker and the reset sequence. */
  lemma PromptFrame(v: SessionView)
    ensures HasPrefix(PromptText(v), Yellow + C("", "chess"))
    ensures HasSuffix(PromptText(v), Yellow + " > " + Reset)
  {
    var parts := PromptParts(v, ShortId(v.currentGame));
    ConcatFirst(parts);
    var text := Concat(parts);
    PromptShape(text);
    assert (Yellow + text)[..|Yellow + C("", "chess")|] == Yellow + C("", "chess");
  }

  /** The first part of a concatenation comes first. */
  lemma {:induction false} ConcatFirst(parts: seq<string>)
    requires parts != []
    ensures HasPrefix(Concat(parts), parts[0])
    decreases |parts|
  {
    if |parts| > 1 {
      var init := parts[..|parts| - 1];
      ConcatFirst(init);
      assert init[0] == parts[0];
      assert parts == init + [parts[|parts| - 1]];
      ConcatAppend(init, parts[|parts| - 1]);
    } else {
      assert parts == [] + [parts[0]];
      ConcatAppend([], parts[0]);
    }
  }

  /** Where the id is empty or at least eight long the code as written
      builds the same prompt as the corrected shortening; for every other id
      it panics. */
  lemma PromptAsWrittenAgrees(v: SessionView)
    ensures PromptAsWritten(v).Ok? <==> v.currentGame == "" || |v.currentGame| >= ShortIdLength
    ensures PromptAsWritten(v).Ok? ==> PromptAsWritten(v).value == PromptText(v)
  {
  }

  /** A join with a short id that the service answers is followed by a
      prompt the code as written cannot build; the corrected prompt shows
      the whole id. */
  lemma ShortJoinPanics(w: World, id: string, g: GameResponse)
    requires 0 < |id| < ShortIdLength
    requires w.wire.replies != [] && w.wire.replies[0] == Api.Response(200, Api.GameBody(g))
    ensures GameCommands.JoinStep(w, [id]).outcome == Pass
    ensures PromptAsWritten(GameCommands.JoinStep(w, [id]).world.session) == Err(SliceOutOfRange)
    ensures C(White, id) in PromptParts(GameCommands.JoinStep(w, [id]).world.session, ShortId(id))
  {
    var v := GameCommands.JoinStep(w, [id]).world.session;
    assert v.currentGame == id;
    var parts := PromptParts(v, ShortId(id));
    if v.username == "" {
      assert GameParts(v, ShortId(id)) == [C("", " [")] + [C(White, id), C("", "]")];
    } else {
      assert GameParts(v, ShortId(id)) == [] + [C(White, id), C("", "]")];
    }
    assert C(White, id) in GameParts(v, ShortId(id));
  }

  // ---------------------------------------------------------------------
  // Reading a line

  /** What `runClient` does with one line read. */
  datatype LineAction = Skip | Quit | Dispatch(line: string, verbose: bool)

  /** The trimmed line: skipped when empty, the end of the session for
      "exit", "quit" and "x", otherwise dispatched with verbose output
      exactly when it ends in " -v", that one flag removed. */
  function Preprocess(raw: string): LineAction {
    var line := TrimSpace(raw);
    if line == "" then Skip
    else if line == "exit" || line == "quit" || line == "x" then Quit
    else if HasSuffix(line, VerboseFlag) then Dispatch(TrimSuffix(line, VerboseFlag), true)
    else Dispatch(line, false)
  }

  /** The three outcomes of `Preprocess`, each by what the trimmed line is. */
  lemma PreprocessCases(raw: string)
    ensures var a := Preprocess(raw);
            (a == Skip <==> TrimSpace(raw) == "")
            && (a == Quit <==> (TrimSpace(raw) == "exit" || TrimSpace(raw) == "quit" || TrimSpace(raw) == "x"))
            && (a.Dispatch? ==> (a.verbose <==> HasSuffix(TrimSpace(raw), VerboseFlag)))
            && (a.Dispatch? && a.verbose ==> a.line + VerboseFlag == TrimSpace(raw))
            && (a.Dispatch? && !a.verbose ==> a.line == TrimSpace(raw))
  {
    var line := TrimSpace(raw);
    if line != "" && line != "exit" && line != "quit" && line != "x" && HasSuffix(line, VerboseFlag) {
      assert line[..|line| - |VerboseFlag|] + VerboseFlag == line;
    }
  }

  /** A blank line is skipped. */
  lemma BlankSkipped(raw: string)
    requires Blank(raw)
    ensures Preprocess(raw) == Skip
  {
    TrimSpaceBlank(raw);
  }

  // ---------------------------------------------------------------------
  // The session loop

  /** One line of input and the answers to the prompts of its command. */
  datatype Entry = Entry(text: string, inputs: Inputs)

  /** A client session: the final world, every prompt printed, whether the
      user quit, and the input left unread. */
  datatype Run = Run(world: World, prompts: seq<string>, quit: bool, rest: seq<Entry>)

  /** The world with the session's verbose flag set as the line asks. */
  function Verbosely(w: World, verbose: bool): World {
    w.(session := w.session.(verbose := verbose))
  }

  function Prefixed(ps: seq<string>, r: Run): Run {
    r.(prompts := ps + r.prompts)
  }

  /** The commands `NewRegistry` installs. */
  function DefaultTable(): map<string, Command> {
    RegisterAll(map[], DefaultCommands())
  }

  /** What executing a line does to the world, for a registry over `m`. */
  function Executes(m: map<string, Command>): (World, string, Inputs) -> World {
    (u: World, line: string, inputs: Inputs) => ExecuteStep(m, u, line, inputs).world
  }

  /** The world `runClient` starts from: a session and a client for the
      default address, nobody signed in, no game. */
  function InitialWorld(script: seq<Api.Exchange>): World {
    World(SessionView(DefaultURL, "", "", "", "", 0, false, None, ""), Api.Wire(DefaultURL, "", script, []), false)
  }

  /** The loop of `runClient` from world `w` on the lines `entries`: a
      prompt before every line read and one more before the end of input;
      a quit line ends it at once; a dispatched line sets the session's
      verbose flag and is executed by `exec`. The unread input is what
      follows the quit line. */
  function Loop(exec: (World, string, Inputs) -> World, w: World, entries: seq<Entry>): (r: Run)
    ensures !r.quit ==> r.rest == []
    decreases |entries|
  {
    var prompt := PromptText(w.session);
    if entries == [] then Run(w, [prompt], false, [])
    else
      var rest := entries[1..];
      match Preprocess(entries[0].text)
      case Skip => Prefixed([prompt], Loop(exec, w, rest))
      case Quit => Run(w, [prompt], true, rest)
      case Dispatch(line, verbose) =>
        Prefixed([prompt], Loop(exec, exec(Verbosely(w, verbose), line, entries[0].inputs), rest))
  }

  /** The shape of every run: the unread input is what follows the lines
      read, nothing is left unread unless the user quit, a quit consumes at
      least its own line, and one prompt is printed per line read plus one
      more at the end of input. */
  lemma {:induction false} LoopShape(exec: (World, string, Inputs) -> World, w: World, entries: seq<Entry>)
    ensures var r := Loop(exec, w, entries);
            |r.rest| <= |entries| && r.rest == entries[|entries| - |r.rest|..]
            && (!r.quit ==> r.rest == [])
            && (r.quit ==> |r.rest| < |entries|)
            && |r.prompts| == |entries| - |r.rest| + (if r.quit then 0 else 1)
    decreases |entries|
  {
    if entries != [] {
      var rest := entries[1..];
      var a := Preprocess(entries[0].text);
      LoopUnfold(exec, w, entries, 0);
      assert entries[0..] == entries;
      if a.Skip? {
        LoopShape(exec, w, rest);
        SuffixOfTail(entries, |Loop(exec, w, rest).rest|);
      } else if a.Dispatch? {
        var u := exec(Verbosely(w, a.verbose), a.line, entries[0].inputs);
        LoopShape(exec, u, rest);
        SuffixOfTail(entries, |Loop(exec, u, rest).rest|);
      }
    }
  }

  /** A suffix of the tail is a suffix of the whole. */
  lemma SuffixOfTail(entries: seq<Entry>, k: nat)
    requires 0 < |entries| && k <= |entries| - 1
    ensures entries[1..][|entries| - 1 - k..] == entries[|entries| - k..]
  {
  }

  /** Prompts printed before a run that starts with a prompt of its own. */
  lemma PrefixedTwice(ps: seq<string>, p: string, r: Run)
    ensures Prefixed(ps, Prefixed([p], r)) == Prefixed(ps + [p], r)
  {
    assert ps + ([p] + r.prompts) == (ps + [p]) + r.prompts;
  }

  /** The loop on a non-empty input, one line taken. */
  lemma LoopUnfold(exec: (World, string, Inputs) -> World, w: World, entries: seq<Entry>, i: nat)
    requires i < |entries|
    ensures var a := Preprocess(entries[i].text);
            var p := PromptText(w.session);
            Loop(exec, w, entries[i..]) ==
              if a.Skip? then Prefixed([p], Loop(exec, w, entries[i + 1..]))
              else if a.Quit? then Run(w, [p], true, entries[i + 1..])
              else Prefixed([p], Loop(exec, exec(Verbosely(w, a.verbose), a.line, entries[i].inputs), entries[i + 1..]))
  {
    assert entries[i..][1..] == entries[i + 1..];
    assert entries[i..][0] == entries[i];
  }

  /** A line that is skipped leaves the world as it is. */
  lemma LoopSkip(exec: (World, string, Inputs) -> World, w: World, entries: seq<Entry>, i: nat, ps: seq<string>)
    requires i < |entries| && Preprocess(entries[i].text).Skip?
    ensures Prefixed(ps, Loop(exec, w, entries[i..])) == Prefixed(ps + [PromptText(w.session)], Loop(exec, w, entries[i + 1..]))
  {
    LoopUnfold(exec, w, entries, i);
    PrefixedTwice(ps, PromptText(w.session), Loop(exec, w, entries[i + 1..]));
  }

  /** A quit line ends the loop with the input after it unread. */
  lemma LoopQuit(exec: (World, string, Inputs) -> World, w: World, entries: seq<Entry>, i: nat, ps: seq<string>)
    requires i < |entries| && Preprocess(entries[i].text).Quit?
    ensures Prefixed(ps, Loop(exec, w, entries[i..])) == Run(w, ps + [PromptText(w.session)], true, entries[i + 1..])
  {
    LoopUnfold(exec, w, entries, i);
  }

  /** A dispatched line is executed with its verbose flag. */
  lemma LoopDispatch(exec: (World, string, Inputs) -> World, w: World, entries: seq<Entry>, i: nat, ps: seq<string>)
    requires i < |entries| && Preprocess(entries[i].text).Dispatch?
    ensures var a := Preprocess(entries[i].text);
            Prefixed(ps, Loop(exec, w, entries[i..]))
            == Prefixed(ps + [PromptText(w.session)], Loop(exec, exec(Verbosely(w, a.verbose), a.line, entries[i].inputs), entries[i + 1..]))
  {
    var a := Preprocess(entries[i].text);
    LoopUnfold(exec, w, entries, i);
    PrefixedTwice(ps, PromptText(w.session), Loop(exec, exec(Verbosely(w, a.verbose), a.line, entries[i].inputs), entries[i + 1..]));
  }

  /** `handleExit` as the build decides it: the native build ends the
      program, the WebAssembly build asks `main` for a restart. */
  function HandleExit(wasm: bool): bool {
    wasm
  }

  /** The registry's executor, as `Serve` sees it: every line it executes
      updates the world as `exec` does. */
  ghost predicate Executor(m: map<string, Command>, exec: (World, string, Inputs) -> World) {
    forall u, line, inputs {:trigger ExecuteStep(m, u, line, inputs)} ::
      exec(u, line, inputs) == ExecuteStep(m, u, line, inputs).world
  }

  /** `Executes(m)` is the executor of a registry over `m`. */
  lemma ExecutesIsExecutor(m: map<string, Command>)
    ensures Executor(m, Executes(m))
  {
  }

  /** `runClient`: a fresh session and client for the default address and a
      registry over them, then the loop; returns whether to restart, the
      session, every prompt printed and the input left unread. */
  method RunClient(wasm: bool, script: seq<Api.Exchange>, entries: seq<Entry>)
    returns (restart: bool, s: Session, prompts: seq<string>, left: seq<Entry>)
    ensures var r := Loop(Executes(DefaultTable()), InitialWorld(script), entries);
            WorldOf(s) == r.world && prompts == r.prompts && left == r.rest
            && restart == (r.quit && HandleExit(wasm))
  {
    var c := new Api.Client(DefaultURL, script);
    s := new Session(DefaultURL, c);
    var registry := new Registry(s);
    ExecutesIsExecutor(registry.commands);
    var quit;
    quit, prompts, left := Serve(registry, Executes(registry.commands), entries);
    restart := if quit then HandleExit(wasm) else false;
  }

  /** The loop of `runClient` over a registry and its session: prompt, read,
      preprocess, execute, until the input ends or a quit line. Returns
      whether the user quit, every prompt printed and the input left. */
  method Serve(registry: Registry, ghost exec: (World, string, Inputs) -> World, entries: seq<Entry>)
    returns (quit: bool, prompts: seq<string>, left: seq<Entry>)
    requires Executor(registry.commands, exec)
    modifies registry.session, registry.session.client
    ensures var r := Loop(exec, old(WorldOf(registry.session)), entries);
            WorldOf(registry.session) == r.world && prompts == r.prompts && left == r.rest && quit == r.quit
  {
    var s := registry.session;
    ghost var m := registry.commands;
    ghost var w0 := WorldOf(s);
    prompts := [];
    var i := 0;
    assert entries[i..] == entries;
    while i < |entries|
      invariant registry.commands == m
      invariant Reached(exec, w0, entries, i, prompts, WorldOf(s))
      decreases |entries| - i
    {
      var stop;
      prompts, stop := ServeEntry(registry, m, exec, w0, entries, i, prompts);
      if stop {
        quit := true;
        left := entries[i + 1..];
        return;
      }
      i := i + 1;
    }
    var prompt := BuildPrompt(s);
    LoopEnd(exec, w0, entries, prompts, WorldOf(s));
    prompts := prompts + [prompt];
    quit := false;
    left := [];
  }

  /** After `i` lines from `w0` the loop stands at world `w` having printed
      `ps`: those prompts followed by the loop over the remaining lines from
      `w` are the loop over all of them from `w0`. */
  ghost predicate Reached(exec: (World, string, Inputs) -> World, w0: World, entries: seq<Entry>, i: nat, ps: seq<string>, w: World) {
    i <= |entries| && Prefixed(ps, Loop(exec, w, entries[i..])) == Loop(exec, w0, entries)
  }

  /** At the end of the input one more prompt is printed and the loop ends
      where it stands. */
  lemma LoopEnd(exec: (World, string, Inputs) -> World, w0: World, entries: seq<Entry>, ps: seq<string>, w: World)
    requires Reached(exec, w0, entries, |entries|, ps, w)
    ensures Loop(exec, w0, entries) == Run(w, ps + [PromptText(w.session)], false, [])
  {
    assert entries[|entries|..] == [];
  }

  /** One pass of the loop of `runClient`: print the prompt, then skip a
      blank line, stop on a quit line, or dispatch the line. The loop
      either stands one line further on, or has ended as `Loop` ends. */
  method ServeEntry(registry: Registry, ghost m: map<string, Command>, ghost exec: (World, string, Inputs) -> World,
                    ghost w0: World, entries: seq<Entry>, i: nat, ps: seq<string>)
    returns (prompts: seq<string>, quit: bool)
    requires registry.commands == m && Executor(m, exec)
    requires i < |entries| && Reached(exec, w0, entries, i, ps, WorldOf(registry.session))
    modifies registry.session, registry.session.client
    ensures prompts == ps + [PromptText(old(WorldOf(registry.session)).session)]
    ensures quit <==> Preprocess(entries[i].text).Quit?
    ensures !quit ==> Reached(exec, w0, entries, i + 1, prompts, WorldOf(registry.session))
    ensures quit ==> var r := Loop(exec, w0, entries);
                     WorldOf(registry.session) == old(WorldOf(registry.session)) == r.world
                     && prompts == r.prompts && r.quit && r.rest == entries[i + 1..]
  {
    var s := registry.session;
    ghost var w := WorldOf(s);
    var prompt := BuildPrompt(s);
    prompts := ps + [prompt];
    var line := TrimSpace(entries[i].text);
    if line == "" {
      LoopSkip(exec, w, entries, i, ps);
      return prompts, false;
    }
    if line == "exit" || line == "quit" || line == "x" {
      LoopQuit(exec, w, entries, i, ps);
      return prompts, true;
    }
    DispatchLine(registry, line, entries[i].inputs, exec);
    LoopDispatch(exec, w, entries, i, ps);
    quit := false;
  }

  /** The end of the loop body of `runClient`: the session's verbose flag
      set by whether the trimmed line ends in " -v", that flag removed, and
      the line executed by the registry. */
  method DispatchLine(registry: Registry, line: string, inputs: Inputs, ghost exec: (World, string, Inputs) -> World)
    requires Executor(registry.commands, exec)
    modifies registry.session, registry.session.client
    ensures var verbose := HasSuffix(line, VerboseFlag);
            WorldOf(registry.session)
            == exec(Verbosely(old(WorldOf(registry.session)), verbose), if verbose then TrimSuffix(line, VerboseFlag) else line, inputs)
  {
    var s := registry.session;
    ghost var w := WorldOf(s);
    var command := line;
    if HasSuffix(line, VerboseFlag) {
      s.verbose := true;
      command := TrimSuffix(line, VerboseFlag);
    } else {
      s.verbose := false;
    }
    assert WorldOf(s) == Verbosely(w, HasSuffix(line, VerboseFlag));
    var d, r, n := registry.Execute(command, inputs);
  }

  // ---------------------------------------------------------------------
  // Properties of the loop

  /** The session `runClient` starts with is coherent with its client. */
  lemma InitialCoherent(script: seq<Api.Exchange>)
    ensures Coherent(InitialWorld(script))
  {
    assert DefaultURL[|DefaultURL| - 1] != '/';
  }

  /** Executing a line through the registry keeps the session coherent and
      its verbose flag as set. */
  lemma ExecutesKeep(m: map<string, Command>)
    ensures forall u, line, inputs :: Coherent(u) ==> Coherent(Executes(m)(u, line, inputs))
    ensures forall u, line, inputs :: Executes(m)(u, line, inputs).session.verbose == u.session.verbose
  {
    forall u, line, inputs
      ensures Coherent(u) ==> Coherent(Executes(m)(u, line, inputs))
      ensures Executes(m)(u, line, inputs).session.verbose == u.session.verbose
    {
      ExecuteKeepsCoherent(m, u, line, inputs);
    }
  }

  /** Whatever the user types, a loop whose commands keep the session
      coherent with its client ends coherent. */
  lemma {:induction false} LoopKeepsCoherent(exec: (World, string, Inputs) -> World, w: World, entries: seq<Entry>)
    requires forall u, line, inputs :: Coherent(u) ==> Coherent(exec(u, line, inputs))
    requires Coherent(w)
    ensures Coherent(Loop(exec, w, entries).world)
    decreases |entries|
  {
    if entries != [] {
      var rest := entries[1..];
      match Preprocess(entries[0].text)
      case Skip => LoopKeepsCoherent(exec, w, rest);
      case Quit =>
      case Dispatch(line, verbose) =>
        var u := exec(Verbosely(w, verbose), line, entries[0].inputs);
        LoopKeepsCoherent(exec, u, rest);
    }
  }

  /** Every client session stays coherent with its client, whatever the
      registry holds. */
  lemma ClientCoherent(m: map<string, Command>, script: seq<Api.Exchange>, entries: seq<Entry>)
    ensures Coherent(Loop(Executes(m), InitialWorld(script), entries).world)
  {
    InitialCoherent(script);
    ExecutesKeep(m);
    LoopKeepsCoherent(Executes(m), InitialWorld(script), entries);
  }

  /** Nothing typed after a quit line is read: input that ends in a quit
      line ends the loop, and whatever follows it is left unread and changes
      nothing else. */
  lemma {:induction false} QuitIgnoresRest(exec: (World, string, Inputs) -> World, w: World, xs: seq<Entry>, ys: seq<Entry>)
    requires xs != [] && Preprocess(xs[|xs| - 1].text) == Quit
    ensures Loop(exec, w, xs).quit
    ensures Loop(exec, w, xs + ys) == Loop(exec, w, xs).(rest := Loop(exec, w, xs).rest + ys)
    decreases |xs|
  {
    assert (xs + ys)[0] == xs[0];
    assert (xs + ys)[1..] == xs[1..] + ys;
    var u := LoopHeads(exec, w, xs + ys, xs);
    if !Preprocess(xs[0].text).Quit? {
      var tail := xs[1..];
      assert tail[|tail| - 1] == xs[|xs| - 1];
      QuitIgnoresRest(exec, u, tail, ys);
    }
  }

  /** Two inputs with the same first line start the same way: a quit line
      ends both at once, any other line moves both on to the same world. */
  lemma LoopHeads(exec: (World, string, Inputs) -> World, w: World, xs: seq<Entry>, ys: seq<Entry>) returns (u: World)
    requires xs != [] && ys != [] && xs[0] == ys[0]
    ensures var p := PromptText(w.session);
            if Preprocess(xs[0].text).Quit? then
              Loop(exec, w, xs) == Run(w, [p], true, xs[1..]) && Loop(exec, w, ys) == Run(w, [p], true, ys[1..])
            else
              Loop(exec, w, xs) == Prefixed([p], Loop(exec, u, xs[1..])) && Loop(exec, w, ys) == Prefixed([p], Loop(exec, u, ys[1..]))
  {
    var a := Preprocess(xs[0].text);
    u := if a.Dispatch? then exec(Verbosely(w, a.verbose), a.line, xs[0].inputs) else w;
  }

  /** A dispatched line sets the session's verbose flag to whether it
      carried " -v", when its command leaves that flag alone (as every
      registered command does, see `ExecutesKeep`). */
  lemma VerboseFollowsLine(exec: (World, string, Inputs) -> World, w: World, e: Entry)
    requires forall u, line, inputs :: exec(u, line, inputs).session.verbose == u.session.verbose
    requires Preprocess(e.text).Dispatch?
    ensures Loop(exec, w, [e]).world.session.verbose == Preprocess(e.text).verbose
  {
    assert [e][1..] == [];
  }
}
