/** The command registry (command/registry.go): a table from command names
    and short names to commands, and the dispatch of one input line. */
module Commands {
  import opened Wrappers
  import opened Text
  import opened Api
  import opened Sessions
  import GameCommands
  import AuthCommands
  import DebugCommands

  /** Which handler a command runs, grouped as the source files group them. */
  datatype HandlerId =
    | GameHandler(game: GameOp)
    | AuthHandler(auth: AuthOp)
    | DebugHandler(debug: DebugOp)
    | HelpHandler
    | ExitHandler

  datatype GameOp = NewGameOp | JoinOp | MoveOp | ComputerOp | UndoOp | ShowOp | StateOp | DeleteOp | PollOp
  datatype AuthOp = RegisterOp | LoginOp | LogoutOp | WhoamiOp | SetUserOp
  datatype DebugOp = HealthOp | UrlOp | RawOp

  datatype Command = Command(name: string, shortName: string, description: string, usage: string, handler: HandlerId)

  /** What handlers read besides the session: the answers typed at the
      prompts of new, register and login, and whether a text parses as JSON. */
  datatype Inputs = Inputs(
    newGame: GameCommands.NewGameAnswers,
    register: AuthCommands.Credentials,
    login: AuthCommands.Credentials,
    isJson: string -> bool)

  // ---------------------------------------------------------------------
  // The table

  /** The keys a command is registered under. */
  function KeysOf(cmd: Command): set<string> {
    if cmd.shortName != "" then {cmd.name, cmd.shortName} else {cmd.name}
  }

  /** The table after registering `cmd`. */
  function Registered(m: map<string, Command>, cmd: Command): map<string, Command> {
    var named := m[cmd.name := cmd];
    if cmd.shortName != "" then named[cmd.shortName := cmd] else named
  }

  /** After registering `cmd`, its name, and its short name when it has one,
      lead to it, overwriting whatever they led to; every other key is
      untouched and no other key appears. */
  lemma RegisteredLookup(m: map<string, Command>, cmd: Command)
    ensures var r := Registered(m, cmd);
            cmd.name in r && r[cmd.name] == cmd &&
            (cmd.shortName != "" ==> cmd.shortName in r && r[cmd.shortName] == cmd) &&
            r.Keys == m.Keys + KeysOf(cmd) &&
            (forall k :: k in m && k !in KeysOf(cmd) ==> r[k] == m[k])
  {
  }

  /** Registering commands in order. */
  function RegisterAll(m: map<string, Command>, cmds: seq<Command>): map<string, Command>
    decreases |cmds|
  {
    if cmds == [] then m else RegisterAll(Registered(m, cmds[0]), cmds[1..])
  }

  /** Registering a list and then one more command is registering the
      longer list: the command registered last decides its keys. */
  lemma {:induction false} RegisterAllLastWins(m: map<string, Command>, cmds: seq<Command>, c: Command)
    ensures RegisterAll(m, cmds + [c]) == Registered(RegisterAll(m, cmds), c)
    decreases |cmds|
  {
    if cmds != [] {
      assert (cmds + [c])[1..] == cmds[1..] + [c];
      RegisterAllLastWins(Registered(m, cmds[0]), cmds[1..], c);
    } else {
      assert cmds + [c] == [c];
    }
  }

  const GameCommandList: seq<Command> := [
    Command("new", "n", "Create a new game", "new", GameHandler(NewGameOp)),
    Command("join", "j", "Join/set current game ID", "join <gameId>", GameHandler(JoinOp)),
    Command("move", "m", "Make a move", "move <uci-move>", GameHandler(MoveOp)),
    Command("computer", "c", "Trigger computer move", "computer", GameHandler(ComputerOp)),
    Command("undo", "u", "Undo moves", "undo [count]", GameHandler(UndoOp)),
    Command("show", "h", "Show board and game state", "show", GameHandler(ShowOp)),
    Command("state", "s", "Show raw game JSON", "state", GameHandler(StateOp)),
    Command("delete", "d", "Delete a game", "delete [gameId]", GameHandler(DeleteOp)),
    Command("poll", "p", "Long-poll for game updates", "poll", GameHandler(PollOp))]

  const AuthCommandList: seq<Command> := [
    Command("register", "r", "Register a new user", "register", AuthHandler(RegisterOp)),
    Command("login", "l", "Login with credentials", "login", AuthHandler(LoginOp)),
    Command("logout", "o", "Clear authentication", "logout", AuthHandler(LogoutOp)),
    Command("whoami", "i", "Show current user", "whoami", AuthHandler(WhoamiOp)),
    Command("user", "e", "Set user ID manually", "user <userId>", AuthHandler(SetUserOp))]

  const DebugCommandList: seq<Command> := [
    Command("health", ".", "Check server health", "health", DebugHandler(HealthOp)),
    Command("url", "/", "Set API base URL", "url [apiUrl]", DebugHandler(UrlOp)),
    Command("raw", ":", "Send raw API request", "raw <method> <path> [json-body]", DebugHandler(RawOp))]

  const HelpCommand: Command := Command("help", "?", "Show available commands", "help [command]", HelpHandler)
  const ExitCommand: Command := Command("exit", "x", "Exit the client", "exit", ExitHandler)

  /** Every command in the order the registry registers them. */
  function DefaultCommands(): seq<Command> {
    GameCommandList + AuthCommandList + DebugCommandList + [HelpCommand, ExitCommand]
  }

  // ---------------------------------------------------------------------
  // Dispatch

  /** What `Execute` makes of a line: nothing, an unknown command, or a
      command with its arguments. */
  datatype Dispatch = Ignored | Unknown(name: string) | Invoked(command: Command, args: seq<string>)

  /** The first word picks the command; the remaining words, in order, are
      its arguments. */
  function Resolve(m: map<string, Command>, input: string): (d: Dispatch)
    ensures d == Ignored <==> Fields(input) == []
    ensures d.Unknown? <==> Fields(input) != [] && Fields(input)[0] !in m
    ensures d.Unknown? ==> d.name == Fields(input)[0]
    ensures d.Invoked? ==> Fields(input)[0] in m && d.command == m[Fields(input)[0]] && d.args == Fields(input)[1..]
  {
    var parts := Fields(input);
    if |parts| == 0 then Ignored
    else if parts[0] !in m then Unknown(parts[0])
    else Invoked(m[parts[0]], parts[1..])
  }

  /** help with an argument fails exactly for a word that is not a key. */
  function HelpStep(m: map<string, Command>, w: World, args: seq<string>): (st: Step)
    ensures st.world == w && st.notice == Quiet
    ensures st.outcome.Fail? <==> |args| > 0 && args[0] !in m
    ensures st.outcome.Fail? ==> st.outcome.message == "unknown command: " + args[0]
  {
    if |args| > 0 && args[0] !in m then Step(w, Fail("unknown command: " + args[0]), Quiet)
    else Step(w, Pass, Quiet)
  }

  function GameStep(op: GameOp, w: World, args: seq<string>, inputs: Inputs): Step {
    match op
    case NewGameOp => GameCommands.NewGameStep(w, inputs.newGame)
    case JoinOp => GameCommands.JoinStep(w, args)
    case MoveOp => GameCommands.MoveStep(w, args)
    case ComputerOp => GameCommands.ComputerStep(w)
    case UndoOp => GameCommands.UndoStep(w, args)
    case ShowOp => GameCommands.ShowStep(w)
    case StateOp => GameCommands.StateStep(w)
    case DeleteOp => GameCommands.DeleteStep(w, args)
    case PollOp => GameCommands.PollStep(w)
  }

  function AuthStep(op: AuthOp, w: World, args: seq<string>, inputs: Inputs): Step {
    match op
    case RegisterOp => AuthCommands.RegisterStep(w, inputs.register)
    case LoginOp => AuthCommands.LoginStep(w, inputs.login)
    case LogoutOp => AuthCommands.LogoutStep(w)
    case WhoamiOp => AuthCommands.WhoamiStep(w)
    case SetUserOp => AuthCommands.SetUserStep(w, args)
  }

  function DebugStep(op: DebugOp, w: World, args: seq<string>, inputs: Inputs): Step {
    match op
    case HealthOp => DebugCommands.HealthStep(w)
    case UrlOp => DebugCommands.UrlStep(w, args)
    case RawOp => DebugCommands.RawStep(w, args, inputs.isJson)
  }

  function RunHandler(h: HandlerId, m: map<string, Command>, w: World, args: seq<string>, inputs: Inputs): Step {
    match h
    case GameHandler(op) => GameStep(op, w, args, inputs)
    case AuthHandler(op) => AuthStep(op, w, args, inputs)
    case DebugHandler(op) => DebugStep(op, w, args, inputs)
    case HelpHandler => HelpStep(m, w, args)
    case ExitHandler => Step(w, Pass, Quiet)
  }

  method RunGame(s: Session, op: GameOp, args: seq<string>, inputs: Inputs) returns (r: Outcome, n: Notice)
    modifies s, s.client
    ensures Step(WorldOf(s), r, n) == GameStep(op, old(WorldOf(s)), args, inputs)
  {
    n := Quiet;
    match op
    case NewGameOp => r, n := GameCommands.NewGame(s, inputs.newGame);
    case JoinOp => r := GameCommands.JoinGame(s, args);
    case MoveOp => r, n := GameCommands.MakeMove(s, args);
    case ComputerOp => r, n := GameCommands.ComputerMove(s);
    case UndoOp => r := GameCommands.Undo(s, args);
    case ShowOp => r := GameCommands.ShowBoard(s);
    case StateOp => r := GameCommands.GameState(s);
    case DeleteOp => r := GameCommands.DeleteGame(s, args);
    case PollOp => r, n := GameCommands.Poll(s);
  }

  method RunAuth(s: Session, op: AuthOp, args: seq<string>, inputs: Inputs) returns (r: Outcome)
    modifies s, s.client
    ensures Step(WorldOf(s), r, Quiet) == AuthStep(op, old(WorldOf(s)), args, inputs)
  {
    match op
    case RegisterOp => r := AuthCommands.Register(s, inputs.register);
    case LoginOp => r := AuthCommands.Login(s, inputs.login);
    case LogoutOp => r := AuthCommands.Logout(s);
    case WhoamiOp => r := AuthCommands.Whoami(s);
    case SetUserOp => r := AuthCommands.SetUser(s, args);
  }

  method RunDebug(s: Session, op: DebugOp, args: seq<string>, inputs: Inputs) returns (r: Outcome)
    modifies s, s.client
    ensures Step(WorldOf(s), r, Quiet) == DebugStep(op, old(WorldOf(s)), args, inputs)
  {
    match op
    case HealthOp => r := DebugCommands.Health(s);
    case UrlOp => r := DebugCommands.Url(s, args);
    case RawOp => r := DebugCommands.Raw(s, args, inputs.isJson);
  }

  /** One line through the registry: the client's verbose flag follows the
      session's just before the handler runs; an error is reported, never
      returned to the caller. */
  function ExecuteStep(m: map<string, Command>, w: World, input: string, inputs: Inputs): Step {
    match Resolve(m, input)
    case Ignored => Step(w, Pass, Quiet)
    case Unknown(_) => Step(w, Pass, Quiet)
    case Invoked(cmd, args) => RunHandler(cmd.handler, m, w.(clientVerbose := w.session.verbose), args, inputs)
  }

  // ---------------------------------------------------------------------
  // The registry object

  class Registry {
    const session: Session
    var commands: map<string, Command>

    /** `NewRegistry`: game, auth and debug commands, then help and exit. */
    constructor (s: Session)
      ensures session == s
      ensures commands == RegisterAll(map[], DefaultCommands())
    {
      session := s;
      commands := map[];
      new;
      RegisterGameCommands();
      RegisterAuthCommands();
      RegisterDebugCommands();
      Register(HelpCommand);
      Register(ExitCommand);
      RegisterInGroups(map[], GameCommandList, AuthCommandList, DebugCommandList, HelpCommand, ExitCommand);
    }

    method Register(cmd: Command)
      modifies this
      ensures commands == Registered(old(commands), cmd)
    {
      commands := commands[cmd.name := cmd];
      if cmd.shortName != "" {
        commands := commands[cmd.shortName := cmd];
      }
    }

    /** `registerGameCommands`, `registerAuthCommands` and
        `registerDebugCommands`: each registers its group in order. */
    method RegisterGameCommands()
      modifies this
      ensures commands == RegisterAll(old(commands), GameCommandList)
    {
      ghost var m := commands;
      Register(GameCommandList[0]);
      RegisterAllPrefix(m, GameCommandList, 0);
      Register(GameCommandList[1]);
      RegisterAllPrefix(m, GameCommandList, 1);
      Register(GameCommandList[2]);
      RegisterAllPrefix(m, GameCommandList, 2);
      Register(GameCommandList[3]);
      RegisterAllPrefix(m, GameCommandList, 3);
      Register(GameCommandList[4]);
      RegisterAllPrefix(m, GameCommandList, 4);
      Register(GameCommandList[5]);
      RegisterAllPrefix(m, GameCommandList, 5);
      Register(GameCommandList[6]);
      RegisterAllPrefix(m, GameCommandList, 6);
      Register(GameCommandList[7]);
      RegisterAllPrefix(m, GameCommandList, 7);
      Register(GameCommandList[8]);
      RegisterAllPrefix(m, GameCommandList, 8);
      assert GameCommandList[..9] == GameCommandList;
    }

    method RegisterAuthCommands()
      modifies this
      ensures commands == RegisterAll(old(commands), AuthCommandList)
    {
      ghost var m := commands;
      Register(AuthCommandList[0]);
      RegisterAllPrefix(m, AuthCommandList, 0);
      Register(AuthCommandList[1]);
      RegisterAllPrefix(m, AuthCommandList, 1);
      Register(AuthCommandList[2]);
      RegisterAllPrefix(m, AuthCommandList, 2);
      Register(AuthCommandList[3]);
      RegisterAllPrefix(m, AuthCommandList, 3);
      Register(AuthCommandList[4]);
      RegisterAllPrefix(m, AuthCommandList, 4);
      assert AuthCommandList[..5] == AuthCommandList;
    }

    method RegisterDebugCommands()
      modifies this
      ensures commands == RegisterAll(old(commands), DebugCommandList)
    {
      ghost var m := commands;
      Register(DebugCommandList[0]);
      RegisterAllPrefix(m, DebugCommandList, 0);
      Register(DebugCommandList[1]);
      RegisterAllPrefix(m, DebugCommandList, 1);
      Register(DebugCommandList[2]);
      RegisterAllPrefix(m, DebugCommandList, 2);
      assert DebugCommandList[..3] == DebugCommandList;
    }

    method Help(args: seq<string>) returns (r: Outcome)
      ensures Step(WorldOf(session), r, Quiet) == HelpStep(commands, WorldOf(session), args)
    {
      if |args| > 0 {
        if args[0] !in commands {
          return Fail("unknown command: " + args[0]);
        }
      }
      r := Pass;
    }

    /** Runs one handler on the session. */
    method Run(h: HandlerId, args: seq<string>, inputs: Inputs) returns (r: Outcome, n: Notice)
      modifies session, session.client
      ensures Step(WorldOf(session), r, n) == RunHandler(h, commands, old(WorldOf(session)), args, inputs)
    {
      n := Quiet;
      match h
      case GameHandler(op) => r, n := RunGame(session, op, args, inputs);
      case AuthHandler(op) => r := RunAuth(session, op, args, inputs);
      case DebugHandler(op) => r := RunDebug(session, op, args, inputs);
      case HelpHandler => r := Help(args);
      case ExitHandler => r := Pass;
    }

    method Execute(input: string, inputs: Inputs) returns (d: Dispatch, r: Outcome, n: Notice)
      modifies session, session.client
      ensures d == Resolve(commands, input)
      ensures Step(WorldOf(session), r, n) == ExecuteStep(commands, old(WorldOf(session)), input, inputs)
    {
      var parts := Fields(input);
      if |parts| == 0 {
        return Ignored, Pass, Quiet;
      }
      var name := parts[0];
      var args := parts[1..];
      if name !in commands {
        return Unknown(name), Pass, Quiet;
      }
      var cmd := commands[name];
      d := Invoked(cmd, args);
      session.client.SetVerbose(session.IsVerbose());
      r, n := Run(cmd.handler, args, inputs);
    }
  }

  lemma {:induction false} RegisterAllConcat(m: map<string, Command>, xs: seq<Command>, ys: seq<Command>)
    ensures RegisterAll(m, xs + ys) == RegisterAll(RegisterAll(m, xs), ys)
    decreases |xs|
  {
    if xs != [] {
      assert (xs + ys)[1..] == xs[1..] + ys;
      RegisterAllConcat(Registered(m, xs[0]), xs[1..], ys);
    } else {
      assert xs + ys == ys;
    }
  }

  /** Registering three lists and then two commands is registering their
      concatenation. */
  lemma RegisterInGroups(m: map<string, Command>, xs: seq<Command>, ys: seq<Command>, zs: seq<Command>, a: Command, b: Command)
    ensures RegisterAll(m, xs + ys + zs + [a, b])
         == Registered(Registered(RegisterAll(RegisterAll(RegisterAll(m, xs), ys), zs), a), b)
  {
    RegisterAllConcat(m, xs, ys);
    RegisterAllConcat(m, xs + ys, zs);
    RegisterAllConcat(m, xs + ys + zs, [a, b]);
    var n := RegisterAll(m, xs + ys + zs);
    assert [a, b][1..] == [b];
    assert RegisterAll(n, [a, b]) == RegisterAll(Registered(n, a), [b]);
    assert [b][1..] == [];
  }

  /** Registering one more command of a list extends the prefix registered so far. */
  lemma RegisterAllPrefix(m: map<string, Command>, cmds: seq<Command>, k: nat)
    requires k < |cmds|
    ensures RegisterAll(m, cmds[..k + 1]) == Registered(RegisterAll(m, cmds[..k]), cmds[k])
  {
    assert cmds[..k + 1] == cmds[..k] + [cmds[k]];
    RegisterAllLastWins(m, cmds[..k], cmds[k]);
  }

  // ---------------------------------------------------------------------
  // Properties of dispatch

  /** A command's full name and its short name, each followed by the same
      arguments, dispatch to that command with the same argument list. */
  lemma AliasDispatch(m0: map<string, Command>, cmd: Command, rest: string)
    requires cmd.name != "" && NoSpace(cmd.name)
    requires cmd.shortName != "" && NoSpace(cmd.shortName)
    ensures Resolve(Registered(m0, cmd), cmd.shortName + " " + rest) == Invoked(cmd, Fields(rest))
    ensures Resolve(Registered(m0, cmd), cmd.name + " " + rest) == Invoked(cmd, Fields(rest))
  {
    RegisteredLookup(m0, cmd);
    FieldsOfCommandLine(cmd.shortName, rest);
    FieldsOfCommandLine(cmd.name, rest);
  }

  /** Empty or all-white-space input runs nothing and changes nothing. */
  lemma BlankIgnored(m: map<string, Command>, w: World, input: string, inputs: Inputs)
    requires forall i :: 0 <= i < |input| ==> IsSpace(input[i])
    ensures Resolve(m, input) == Ignored
    ensures ExecuteStep(m, w, input, inputs) == Step(w, Pass, Quiet)
  {
    FieldsOfBlank(input);
  }

  /** A first word that is not a key runs nothing and changes nothing. */
  lemma UnknownIgnored(m: map<string, Command>, w: World, input: string, inputs: Inputs)
    requires Fields(input) != [] && Fields(input)[0] !in m
    ensures Resolve(m, input) == Unknown(Fields(input)[0])
    ensures ExecuteStep(m, w, input, inputs) == Step(w, Pass, Quiet)
  {
  }

  // ---------------------------------------------------------------------
  // What every command keeps

  lemma GameHandlersKeep(op: GameOp, w: World, args: seq<string>, inputs: Inputs)
    ensures Keeps(w, GameStep(op, w, args, inputs).world)
  {
    match op
    case NewGameOp => GameCommands.NewGameKeeps(w, inputs.newGame);
    case JoinOp => GameCommands.JoinKeeps(w, args);
    case MoveOp => GameCommands.MoveKeeps(w, args);
    case ComputerOp => GameCommands.ComputerKeeps(w);
    case UndoOp => GameCommands.UndoKeeps(w, args);
    case ShowOp => GameCommands.ShowKeeps(w);
    case StateOp => GameCommands.StateKeeps(w);
    case DeleteOp => GameCommands.DeleteKeeps(w, args);
    case PollOp => GameCommands.PollKeeps(w);
  }

  lemma AuthHandlersKeep(op: AuthOp, w: World, args: seq<string>, inputs: Inputs)
    ensures Keeps(w, AuthStep(op, w, args, inputs).world)
  {
    match op
    case RegisterOp => AuthCommands.RegisterKeeps(w, inputs.register);
    case LoginOp => AuthCommands.LoginKeeps(w, inputs.login);
    case LogoutOp =>
    case WhoamiOp =>
    case SetUserOp =>
  }

  lemma DebugHandlersKeep(op: DebugOp, w: World, args: seq<string>, inputs: Inputs)
    ensures Keeps(w, DebugStep(op, w, args, inputs).world)
  {
  }

  /** Executing any line keeps the session coherent with its client and
      leaves the session's verbose flag alone; when a command runs, the
      client's verbose flag ends up equal to the session's. */
  lemma ExecuteKeepsCoherent(m: map<string, Command>, w: World, input: string, inputs: Inputs)
    ensures Coherent(w) ==> Coherent(ExecuteStep(m, w, input, inputs).world)
    ensures ExecuteStep(m, w, input, inputs).world.session.verbose == w.session.verbose
    ensures Resolve(m, input).Invoked? ==> ExecuteStep(m, w, input, inputs).world.clientVerbose == w.session.verbose
  {
    match Resolve(m, input)
    case Ignored =>
    case Unknown(_) =>
    case Invoked(cmd, args) =>
      var v := w.(clientVerbose := w.session.verbose);
      assert ExecuteStep(m, w, input, inputs) == RunHandler(cmd.handler, m, v, args, inputs);
      RunHandlerKeeps(cmd.handler, m, v, args, inputs);
  }

  lemma RunHandlerKeeps(h: HandlerId, m: map<string, Command>, w: World, args: seq<string>, inputs: Inputs)
    ensures Keeps(w, RunHandler(h, m, w, args, inputs).world)
  {
    match h
    case GameHandler(op) => GameHandlersKeep(op, w, args, inputs);
    case AuthHandler(op) => AuthHandlersKeep(op, w, args, inputs);
    case DebugHandler(op) => DebugHandlersKeep(op, w, args, inputs);
    case HelpHandler =>
    case ExitHandler =>
  }
}
