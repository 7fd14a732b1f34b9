/** The game commands (command/game.go): new, join, move, computer, undo,
    show, state, delete and poll.

    Each command is specified by a function from the world before it to its
    `Step`, and implemented by a method on the session that is proved to
    have exactly that effect. */
module GameCommands {
  import opened Wrappers
  import opened Text
  import opened ApiTypes
  import opened Api
  import opened Sessions

  const NoCurrentGame: string := "no current game, use 'new' or 'join <gameId>'"
  const JoinUsage: string := "usage: join <gameId>"
  const MoveUsage: string := "usage: move <uci-move>"
  const NoGameToDelete: string := "specify game ID or set current game"
  const ComputerTimeout: string := "timeout waiting for computer move"

  /** The move text that asks the service to let the computer play. */
  const ComputerTrigger: string := "cccc"
  /** Re-fetches made while the computer is thinking. */
  const PollAttempts: nat := 50
  const DefaultLevel: int := 10
  const DefaultSearchTime: int := 1000

  // ---------------------------------------------------------------------
  // Pieces shared by the handlers

  /** The session after a fetched game is adopted: the move count and the
      snapshot both follow the response. */
  function Adopt(v: SessionView, g: GameResponse): (u: SessionView)
    ensures u.lastMoveCount == |g.moves| && u.gameState == Some(g)
    ensures u.(lastMoveCount := v.lastMoveCount, gameState := v.gameState) == v
  {
    v.(lastMoveCount := |g.moves|, gameState := Some(g))
  }

  /** The side the user plays in game `g`, as join derives it: with no user
      the previous colour stays; otherwise white, black, or neither. */
  function SideOf(user: string, g: GameResponse, prior: string): (c: string)
    ensures user == "" ==> c == prior
    ensures user != "" ==> (c == "w" <==> g.players.white.id == user)
    ensures user != "" ==> (c == "b" <==> g.players.white.id != user && g.players.black.id == user)
    ensures user != "" ==> (c == "" <==> g.players.white.id != user && g.players.black.id != user)
    ensures prior in {"w", "b", ""} ==> c in {"w", "b", ""}
  {
    if user == "" then prior
    else if g.players.white.id == user then "w"
    else if g.players.black.id == user then "b"
    else ""
  }

  /** The side new-game derives as written: its chain has no final branch,
      so a user seated on neither side keeps the previous colour. */
  function NewGameSideAsWritten(user: string, g: GameResponse, prior: string): (c: string)
    ensures user != "" && g.players.white.id == user ==> c == "w"
    ensures user != "" && g.players.white.id != user && g.players.black.id == user ==> c == "b"
    ensures user == "" || (g.players.white.id != user && g.players.black.id != user) ==> c == prior
  {
    if user != "" && g.players.white.id == user then "w"
    else if user != "" && g.players.black.id == user then "b"
    else prior
  }

  /** A user who sits on neither side of the new game keeps the colour of the
      previous game under the code as written, where join clears it. */
  lemma NewGameKeepsStaleSide()
    ensures var g := ZeroGame.(players := PlayersResponse(NoPlayer.(id := "alice"), NoPlayer.(id := "bob")));
            NewGameSideAsWritten("carol", g, "w") == "w" && SideOf("carol", g, "w") == ""
  {
  }

  /** The two derivations agree whenever the user sits on a side or is unknown. */
  lemma NewGameSideAgrees(user: string, g: GameResponse, prior: string)
    requires user == "" || g.players.white.id == user || g.players.black.id == user
    ensures NewGameSideAsWritten(user, g, prior) == SideOf(user, g, prior)
  {
  }

  /** The winner of a checkmate: the side that just moved, i.e. not the side to move. */
  function Winner(turn: string): (w: string)
    ensures w == "White" <==> turn == "b"
    ensures w == "Black" <==> turn != "b"
  {
    if turn == "b" then "White" else "Black"
  }

  /** The player to move is a computer. */
  predicate ComputerOnMove(g: GameResponse) {
    || (g.turn == "w" && g.players.white.kind == Computer)
    || (g.turn == "b" && g.players.black.kind == Computer)
  }

  /** The announcement of a finished game, read off the newest response. */
  function EndNotice(g: GameResponse): (n: Notice)
    ensures n != Quiet <==> g.state in {"checkmate", "stalemate", "draw"}
    ensures n == Ended(Won("White")) <==> g.state == "checkmate" && g.turn == "b"
    ensures n == Ended(Won("Black")) <==> g.state == "checkmate" && g.turn != "b"
    ensures n == Ended(Stalemated) <==> g.state == "stalemate"
    ensures n == Ended(Drawn) <==> g.state == "draw"
  {
    match g.state
    case "checkmate" => Ended(Won(Winner(g.turn)))
    case "stalemate" => Ended(Stalemated)
    case "draw" => Ended(Drawn)
    case _ => Quiet
  }

  /** After a player's move: the end of the game, or the advice to trigger
      the computer when the game goes on and a computer is to move. */
  function MoveNotice(g: GameResponse): (n: Notice)
    ensures g.state in {"checkmate", "stalemate", "draw"} ==> n == EndNotice(g)
    ensures n == ComputerToMove <==> g.state == "ongoing" && ComputerOnMove(g)
    ensures n == Quiet <==> !(g.state in {"checkmate", "stalemate", "draw"}) && !(g.state == "ongoing" && ComputerOnMove(g))
  {
    if EndNotice(g) != Quiet then EndNotice(g)
    else if g.state == "ongoing" && ComputerOnMove(g) then ComputerToMove
    else Quiet
  }

  /** Records the side the current user plays in game `g`. */
  method TakeSide(s: Session, g: GameResponse)
    modifies s
    ensures s.View() == old(s.View()).(playerColor := SideOf(old(s.currentUser), g, old(s.playerColor)))
  {
    if s.GetCurrentUser() != "" {
      if g.players.white.id == s.GetCurrentUser() {
        s.SetPlayerColor("w");
      } else if g.players.black.id == s.GetCurrentUser() {
        s.SetPlayerColor("b");
      } else {
        s.SetPlayerColor("");
      }
    }
  }

  // ---------------------------------------------------------------------
  // new

  /** The answers typed for one seat: kind, and for a computer its level and
      search time. */
  datatype SeatAnswers = SeatAnswers(kind: string, level: string, searchTime: string)

  datatype NewGameAnswers = NewGameAnswers(white: SeatAnswers, black: SeatAnswers, fen: string)

  /** A numeric answer: the default when blank, otherwise whatever `Atoi`
      makes of it, its error ignored. */
  function NumberOr(answer: string, default: int): (n: int)
    ensures TrimSpace(answer) == "" ==> n == default
    ensures TrimSpace(answer) != "" ==> n == Atoi(TrimSpace(answer)).value
  {
    var t := TrimSpace(answer);
    if t == "" then default else Atoi(t).value
  }

  /** A seat's configuration: a computer exactly when the kind answer is "c"
      in any letter case; a human seat carries no level or search time. */
  function SeatConfig(a: SeatAnswers): (p: PlayerConfig)
    ensures p.kind == Computer <==> ToLower(TrimSpace(a.kind)) == "c"
    ensures p.kind != Computer ==> p == PlayerConfig(Human, 0, 0)
    ensures p.kind == Computer ==> p.level == NumberOr(a.level, DefaultLevel) && p.searchTime == NumberOr(a.searchTime, DefaultSearchTime)
  {
    var kind := ToLower(TrimSpace(a.kind));
    if kind == "c" then PlayerConfig(Computer, NumberOr(a.level, DefaultLevel), NumberOr(a.searchTime, DefaultSearchTime))
    else PlayerConfig(Human, 0, 0)
  }

  function NewGameRequest(a: NewGameAnswers): CreateGameRequest {
    CreateGameRequest(SeatConfig(a.white), SeatConfig(a.black), TrimSpace(a.fen))
  }

  /** The game a request creates, adopted as the current game. */
  function NewGameStep(w: World, a: NewGameAnswers): Step {
    CreateStep(w, NewGameRequest(a))
  }

  function CreateStep(w: World, req: CreateGameRequest): Step {
    var c := CreateGameCall(w.wire, req);
    if c.result.Err? then Step(w.(wire := c.wire), Fail(c.result.message), Quiet)
    else
      var g := c.result.value;
      var v := Adopt(w.session, g).(currentGame := g.gameId, playerColor := SideOf(w.session.currentUser, g, w.session.playerColor));
      Step(w.(session := v, wire := c.wire), Pass, if req.white.kind == Computer then ComputerToMove else Quiet)
  }

  method ReadSeat(a: SeatAnswers) returns (p: PlayerConfig)
    ensures p == SeatConfig(a)
  {
    var kind := ToLower(TrimSpace(a.kind));
    if kind == "" {
      kind := "h";
    }
    p := PlayerConfig(Human, 0, 0);
    if kind == "c" {
      p := p.(kind := Computer);
      var level := TrimSpace(a.level);
      if level == "" {
        p := p.(level := DefaultLevel);
      } else {
        p := p.(level := Atoi(level).value);
      }
      var time := TrimSpace(a.searchTime);
      if time == "" {
        p := p.(searchTime := DefaultSearchTime);
      } else {
        p := p.(searchTime := Atoi(time).value);
      }
    }
  }

  method NewGame(s: Session, a: NewGameAnswers) returns (r: Outcome, n: Notice)
    modifies s, s.client
    ensures Step(WorldOf(s), r, n) == NewGameStep(old(WorldOf(s)), a)
  {
    var white := ReadSeat(a.white);
    var black := ReadSeat(a.black);
    var fen := TrimSpace(a.fen);
    r, n := StartGame(s, CreateGameRequest(white, black, fen));
  }

  /** Creates the game and makes it the current one. */
  method StartGame(s: Session, req: CreateGameRequest) returns (r: Outcome, n: Notice)
    modifies s, s.client
    ensures Step(WorldOf(s), r, n) == CreateStep(old(WorldOf(s)), req)
  {
    var resp := s.client.CreateGame(req);
    if resp.Err? {
      return Fail(resp.message), Quiet;
    }
    var g := resp.value;
    s.currentGame := g.gameId;
    s.lastMoveCount := |g.moves|;
    s.gameState := Some(g);
    TakeSide(s, g);
    r := Pass;
    n := if req.white.kind == Computer then ComputerToMove else Quiet;
  }

  // ---------------------------------------------------------------------
  // join

  function JoinStep(w: World, args: seq<string>): Step {
    if |args| < 1 then Step(w, Fail(JoinUsage), Quiet)
    else
      var c := GetGameCall(w.wire, args[0]);
      if c.result.Err? then Step(w.(wire := c.wire), Fail(c.result.message), Quiet)
      else
        var g := c.result.value;
        var v := Adopt(w.session, g).(currentGame := args[0], playerColor := SideOf(w.session.currentUser, g, w.session.playerColor));
        Step(w.(session := v, wire := c.wire), Pass, Quiet)
  }

  method JoinGame(s: Session, args: seq<string>) returns (r: Outcome)
    modifies s, s.client
    ensures Step(WorldOf(s), r, Quiet) == JoinStep(old(WorldOf(s)), args)
  {
    if |args| < 1 {
      return Fail(JoinUsage);
    }
    var gameId := args[0];
    var resp := s.client.GetGame(gameId);
    if resp.Err? {
      return Fail(resp.message);
    }
    s.SetCurrentGame(gameId);
    s.SetLastMoveCount(|resp.value.moves|);
    s.SetGameState(GamePointer(Some(resp.value)));
    TakeSide(s, resp.value);
    r := Pass;
  }

  // ---------------------------------------------------------------------
  // move

  function MoveStep(w: World, args: seq<string>): Step {
    if |args| < 1 then Step(w, Fail(MoveUsage), Quiet)
    else if w.session.currentGame == "" then Step(w, Fail(NoCurrentGame), Quiet)
    else
      var c := MakeMoveCall(w.wire, w.session.currentGame, args[0]);
      if c.result.Err? then Step(w.(wire := c.wire), Fail(c.result.message), Quiet)
      else Step(w.(session := Adopt(w.session, c.result.value), wire := c.wire), Pass, MoveNotice(c.result.value))
  }

  method MakeMove(s: Session, args: seq<string>) returns (r: Outcome, n: Notice)
    modifies s, s.client
    ensures Step(WorldOf(s), r, n) == MoveStep(old(WorldOf(s)), args)
  {
    if |args| < 1 {
      return Fail(MoveUsage), Quiet;
    }
    var gameId := s.currentGame;
    if gameId == "" {
      return Fail(NoCurrentGame), Quiet;
    }
    var resp := s.client.MakeMove(gameId, args[0]);
    if resp.Err? {
      return Fail(resp.message), Quiet;
    }
    var g := resp.value;
    s.lastMoveCount := |g.moves|;
    s.gameState := Some(g);
    r := Pass;
    match g.state
    case "checkmate" =>
      var winner := "Black";
      if g.turn == "b" {
        winner := "White";
      }
      n := Ended(Won(winner));
    case "stalemate" =>
      n := Ended(Stalemated);
    case "draw" =>
      n := Ended(Drawn);
    case "ongoing" =>
      n := Quiet;
      if (g.turn == "w" && g.players.white.kind == Computer) || (g.turn == "b" && g.players.black.kind == Computer) {
        n := ComputerToMove;
      }
    case _ =>
      n := Quiet;
  }

  // ---------------------------------------------------------------------
  // computer

  /** What one re-fetch makes of a scripted exchange. */
  function Fetched(ex: Exchange): Result<GameResponse> {
    AsGame(Settle(ex))
  }

  /** The exchange ends the wait: no error, and a state other than pending. */
  predicate Settles(ex: Exchange) {
    Fetched(ex).Ok? && Fetched(ex).value.state != "pending"
  }

  /** The `j`-th exchange of a script, a refused connection past its end. */
  function ReplyAt(rs: seq<Exchange>, j: nat): Exchange {
    if j < |rs| then rs[j] else Unreachable(NoReply)
  }

  /** A script with its first `k` exchanges used up. */
  function Consumed(rs: seq<Exchange>, k: nat): seq<Exchange> {
    if k <= |rs| then rs[k..] else []
  }

  /** The request one re-fetch issues. */
  function Refetch(w: Wire, gameId: string): Request {
    BuildRequest(w.baseURL, w.token, "GET", GamePath(gameId), None)
  }

  /** The wait for the computer: the transport after it, the number of
      fetches it made, and the settled game, if any. */
  datatype Await = Await(wire: Wire, fetches: nat, settled: Option<GameResponse>)

  /** The polling loop with `attempts` fetches left: each fetch that fails or
      is still pending is skipped; the first other one ends the wait. A
      settled game is never pending, and a wait that times out has used every
      attempt. */
  function AwaitComputer(w: Wire, gameId: string, attempts: nat): (r: Await)
    ensures r.wire.baseURL == w.baseURL && r.wire.token == w.token
    ensures r.fetches <= attempts && (attempts > 0 ==> r.fetches >= 1)
    ensures r.settled.None? ==> r.fetches == attempts
    ensures r.settled.Some? ==> r.settled.value.state != "pending"
    decreases attempts
  {
    if attempts == 0 then Await(w, 0, None)
    else
      var c := GetGameCall(w, gameId);
      if c.result.Ok? && c.result.value.state != "pending" then Await(c.wire, 1, Some(c.result.value))
      else
        var r := AwaitComputer(c.wire, gameId, attempts - 1);
        r.(fetches := r.fetches + 1)
  }

  /** What the wait sends: one re-fetch of the game per attempt made,
      appended to the earlier log. */
  lemma {:induction false} AwaitComputerRequests(w: Wire, gameId: string, attempts: nat)
    ensures var r := AwaitComputer(w, gameId, attempts);
            |r.wire.sent| == |w.sent| + r.fetches && r.wire.sent[..|w.sent|] == w.sent
    ensures var r := AwaitComputer(w, gameId, attempts);
            forall i :: |w.sent| <= i < |r.wire.sent| ==> r.wire.sent[i] == Refetch(w, gameId)
    decreases attempts
  {
    if attempts > 0 {
      var c := GetGameCall(w, gameId);
      if !(c.result.Ok? && c.result.value.state != "pending") {
        AwaitComputerRequests(c.wire, gameId, attempts - 1);
        var r := AwaitComputer(c.wire, gameId, attempts - 1);
        assert r.wire.sent[..|w.sent|] == r.wire.sent[..|c.wire.sent|][..|w.sent|];
      }
    }
  }

  /** The wait consumes exactly one scripted exchange per fetch. */
  lemma {:induction false} AwaitComputerConsumes(w: Wire, gameId: string, attempts: nat)
    ensures var r := AwaitComputer(w, gameId, attempts);
            r.wire.replies == Consumed(w.replies, r.fetches)
    decreases attempts
  {
    if attempts > 0 {
      var c := GetGameCall(w, gameId);
      assert c.wire.replies == Consumed(w.replies, 1);
      if !(c.result.Ok? && c.result.value.state != "pending") {
        AwaitComputerConsumes(c.wire, gameId, attempts - 1);
        ConsumedStep(w.replies, AwaitComputer(c.wire, gameId, attempts - 1).fetches);
      }
    }
  }

  lemma ConsumedStep(rs: seq<Exchange>, k: nat)
    ensures Consumed(Consumed(rs, 1), k) == Consumed(rs, k + 1)
    ensures forall j: nat :: ReplyAt(Consumed(rs, 1), j) == ReplyAt(rs, j + 1)
  {
  }

  lemma ReplyShift(rs: seq<Exchange>, j: nat)
    ensures ReplyAt(Consumed(rs, 1), j) == ReplyAt(rs, j + 1)
  {
  }

  /** The first settling exchange wins: no exchange the wait fetched before
      its last one settles, and a settled game is exactly what the last
      one delivered. */
  lemma {:induction false} AwaitComputerOrder(w: Wire, gameId: string, attempts: nat)
    ensures var r := AwaitComputer(w, gameId, attempts);
            forall j :: 0 <= j < r.fetches && (r.settled.None? || j < r.fetches - 1) ==> !Settles(ReplyAt(w.replies, j))
    ensures var r := AwaitComputer(w, gameId, attempts);
            r.settled.Some? ==> Settles(ReplyAt(w.replies, r.fetches - 1)) && r.settled.value == Fetched(ReplyAt(w.replies, r.fetches - 1)).value
    decreases attempts
  {
    if attempts > 0 {
      var c := GetGameCall(w, gameId);
      assert c.result == Fetched(ReplyAt(w.replies, 0));
      if !(c.result.Ok? && c.result.value.state != "pending") {
        var r := AwaitComputer(c.wire, gameId, attempts - 1);
        AwaitComputerOrder(c.wire, gameId, attempts - 1);
        assert c.wire.replies == Consumed(w.replies, 1);
        forall j | 0 <= j < r.fetches + 1 && (r.settled.None? || j < r.fetches)
          ensures !Settles(ReplyAt(w.replies, j))
        {
          if j > 0 {
            ReplyShift(w.replies, j - 1);
          }
        }
        if r.settled.Some? {
          ReplyShift(w.replies, r.fetches - 1);
        }
      }
    }
  }

  /** The wait begun after the service answered "pending", with `attempts`
      fetches left. */
  function AwaitStep(w: World, gameId: string, attempts: nat): Step {
    var a := AwaitComputer(w.wire, gameId, attempts);
    if a.settled.None? then Step(w.(wire := a.wire), Fail(ComputerTimeout), Quiet)
    else Step(w.(session := Adopt(w.session, a.settled.value), wire := a.wire), Pass, EndNotice(a.settled.value))
  }

  function ComputerStep(w: World): Step {
    var gameId := w.session.currentGame;
    if gameId == "" then Step(w, Fail(NoCurrentGame), Quiet)
    else
      var c := MakeMoveCall(w.wire, gameId, ComputerTrigger);
      if c.result.Err? then Step(w.(wire := c.wire), Fail(c.result.message), Quiet)
      else if c.result.value.state == "pending" then AwaitStep(w.(wire := c.wire), gameId, PollAttempts)
      else Step(w.(session := Adopt(w.session, c.result.value), wire := c.wire), Pass, Quiet)
  }

  method ComputerMove(s: Session) returns (r: Outcome, n: Notice)
    modifies s, s.client
    ensures Step(WorldOf(s), r, n) == ComputerStep(old(WorldOf(s)))
  {
    var gameId := s.currentGame;
    if gameId == "" {
      return Fail(NoCurrentGame), Quiet;
    }
    var resp := s.client.MakeMove(gameId, ComputerTrigger);
    if resp.Err? {
      return Fail(resp.message), Quiet;
    }
    if resp.value.state == "pending" {
      r, n := AwaitComputerMove(s, gameId);
      return;
    }
    s.lastMoveCount := |resp.value.moves|;
    s.gameState := Some(resp.value);
    r, n := Pass, Quiet;
  }

  /** The bounded wait: up to `PollAttempts` re-fetches, stopping at the
      first one that succeeds and is no longer pending. */
  method AwaitComputerMove(s: Session, gameId: string) returns (r: Outcome, n: Notice)
    modifies s, s.client
    ensures Step(WorldOf(s), r, n) == AwaitStep(old(WorldOf(s)), gameId, PollAttempts)
  {
    var i := 0;
    while i < PollAttempts
      invariant 0 <= i <= PollAttempts
      invariant AwaitStep(WorldOf(s), gameId, PollAttempts - i) == AwaitStep(old(WorldOf(s)), gameId, PollAttempts)
    {
      var next := s.client.GetGame(gameId);
      if next.Ok? && next.value.state != "pending" {
        var g := next.value;
        s.lastMoveCount := |g.moves|;
        s.gameState := Some(g);
        return Pass, EndNotice(g);
      }
      i := i + 1;
    }
    r, n := Fail(ComputerTimeout), Quiet;
  }

  // ---------------------------------------------------------------------
  // undo

  function UndoStep(w: World, args: seq<string>): Step {
    var gameId := w.session.currentGame;
    if gameId == "" then Step(w, Fail(NoCurrentGame), Quiet)
    else
      var count := if |args| > 0 then Atoi(args[0]) else Parsed(1, true);
      if !count.ok then Step(w, Fail("invalid count: " + args[0]), Quiet)
      else
        var c := UndoMovesCall(w.wire, gameId, count.value);
        if c.result.Err? then Step(w.(wire := c.wire), Fail(c.result.message), Quiet)
        else Step(w.(session := Adopt(w.session, c.result.value), wire := c.wire), Pass, Quiet)
  }

  method Undo(s: Session, args: seq<string>) returns (r: Outcome)
    modifies s, s.client
    ensures Step(WorldOf(s), r, Quiet) == UndoStep(old(WorldOf(s)), args)
  {
    var gameId := s.GetCurrentGame();
    if gameId == "" {
      return Fail(NoCurrentGame);
    }
    var count := 1;
    if |args| > 0 {
      var parsed := Atoi(args[0]);
      if !parsed.ok {
        return Fail("invalid count: " + args[0]);
      }
      count := parsed.value;
    }
    var resp := s.client.UndoMoves(gameId, count);
    if resp.Err? {
      return Fail(resp.message);
    }
    s.SetLastMoveCount(|resp.value.moves|);
    s.SetGameState(GamePointer(Some(resp.value)));
    r := Pass;
  }

  // ---------------------------------------------------------------------
  // show

  /** The session changes only once both the game and its board arrived. */
  function ShowStep(w: World): Step {
    var gameId := w.session.currentGame;
    if gameId == "" then Step(w, Fail(NoCurrentGame), Quiet)
    else
      var c := GetGameCall(w.wire, gameId);
      if c.result.Err? then Step(w.(wire := c.wire), Fail(c.result.message), Quiet)
      else
        var b := GetBoardCall(c.wire, gameId);
        if b.result.Err? then Step(w.(wire := b.wire), Fail(b.result.message), Quiet)
        else Step(w.(session := Adopt(w.session, c.result.value), wire := b.wire), Pass, Quiet)
  }

  method ShowBoard(s: Session) returns (r: Outcome)
    modifies s, s.client
    ensures Step(WorldOf(s), r, Quiet) == ShowStep(old(WorldOf(s)))
  {
    var gameId := s.GetCurrentGame();
    if gameId == "" {
      return Fail(NoCurrentGame);
    }
    var game := s.client.GetGame(gameId);
    if game.Err? {
      return Fail(game.message);
    }
    var board := s.client.GetBoard(gameId);
    if board.Err? {
      return Fail(board.message);
    }
    s.SetLastMoveCount(|game.value.moves|);
    s.SetGameState(GamePointer(Some(game.value)));
    r := Pass;
  }

  // ---------------------------------------------------------------------
  // state

  function StateStep(w: World): Step {
    var gameId := w.session.currentGame;
    if gameId == "" then Step(w, Fail(NoCurrentGame), Quiet)
    else
      var c := GetGameCall(w.wire, gameId);
      if c.result.Err? then Step(w.(wire := c.wire), Fail(c.result.message), Quiet)
      else Step(w.(session := w.session.(lastMoveCount := |c.result.value.moves|), wire := c.wire), Pass, Quiet)
  }

  method GameState(s: Session) returns (r: Outcome)
    modifies s, s.client
    ensures Step(WorldOf(s), r, Quiet) == StateStep(old(WorldOf(s)))
  {
    var gameId := s.GetCurrentGame();
    if gameId == "" {
      return Fail(NoCurrentGame);
    }
    var resp := s.client.GetGame(gameId);
    if resp.Err? {
      return Fail(resp.message);
    }
    s.SetLastMoveCount(|resp.value.moves|);
    r := Pass;
  }

  // ---------------------------------------------------------------------
  // delete

  function DeleteStep(w: World, args: seq<string>): Step {
    var gameId := if |args| > 0 then args[0] else w.session.currentGame;
    if gameId == "" then Step(w, Fail(NoGameToDelete), Quiet)
    else
      var c := DeleteGameCall(w.wire, gameId);
      if c.result.Err? then Step(w.(wire := c.wire), Fail(c.result.message), Quiet)
      else if gameId == w.session.currentGame then
        Step(w.(session := w.session.(currentGame := "", lastMoveCount := 0), wire := c.wire), Pass, Quiet)
      else Step(w.(wire := c.wire), Pass, Quiet)
  }

  method DeleteGame(s: Session, args: seq<string>) returns (r: Outcome)
    modifies s, s.client
    ensures Step(WorldOf(s), r, Quiet) == DeleteStep(old(WorldOf(s)), args)
  {
    var gameId := s.GetCurrentGame();
    if |args| > 0 {
      gameId := args[0];
    }
    if gameId == "" {
      return Fail(NoGameToDelete);
    }
    r := s.client.DeleteGame(gameId);
    if r.Fail? {
      return;
    }
    if gameId == s.GetCurrentGame() {
      s.SetCurrentGame("");
      s.SetLastMoveCount(0);
    }
  }

  // ---------------------------------------------------------------------
  // poll

  /** The response is stored whatever it holds; the update is reported
      against the move count known before the call. */
  function PollStep(w: World): Step {
    var gameId := w.session.currentGame;
    if gameId == "" then Step(w, Fail(NoCurrentGame), Quiet)
    else
      var baseline := w.session.lastMoveCount;
      var c := PollGameCall(w.wire, gameId, baseline);
      if c.result.Err? then Step(w.(wire := c.wire), Fail(c.result.message), Quiet)
      else Step(w.(session := Adopt(w.session, c.result.value), wire := c.wire), Pass, Polled(|c.result.value.moves| > baseline))
  }

  method Poll(s: Session) returns (r: Outcome, n: Notice)
    modifies s, s.client
    ensures Step(WorldOf(s), r, n) == PollStep(old(WorldOf(s)))
  {
    var gameId := s.GetCurrentGame();
    if gameId == "" {
      return Fail(NoCurrentGame), Quiet;
    }
    var moveCount := s.GetLastMoveCount();
    var resp := s.client.GetGameWithPoll(gameId, moveCount);
    if resp.Err? {
      return Fail(resp.message), Quiet;
    }
    s.SetLastMoveCount(|resp.value.moves|);
    s.SetGameState(GamePointer(Some(resp.value)));
    r := Pass;
    n := Polled(|resp.value.moves| > moveCount);
  }

  // ---------------------------------------------------------------------
  // Properties of the handlers

  /** Without a current game, every command that needs one fails with the
      same message before any request, and nothing changes. */
  lemma NoGameGuards(w: World, args: seq<string>)
    requires w.session.currentGame == ""
    ensures |args| >= 1 ==> MoveStep(w, args) == Step(w, Fail(NoCurrentGame), Quiet)
    ensures ComputerStep(w) == Step(w, Fail(NoCurrentGame), Quiet)
    ensures UndoStep(w, args) == Step(w, Fail(NoCurrentGame), Quiet)
    ensures ShowStep(w) == Step(w, Fail(NoCurrentGame), Quiet)
    ensures StateStep(w) == Step(w, Fail(NoCurrentGame), Quiet)
    ensures PollStep(w) == Step(w, Fail(NoCurrentGame), Quiet)
  {
  }

  /** Argument checks come before any request: join and move need an
      argument, undo counts 1 by default and rejects a count that is not an
      integer. */
  lemma ArgumentGuards(w: World, args: seq<string>)
    ensures JoinStep(w, []) == Step(w, Fail(JoinUsage), Quiet)
    ensures MoveStep(w, []) == Step(w, Fail(MoveUsage), Quiet)
    ensures UndoStep(w, []) == UndoStep(w, ["1"])
    ensures w.session.currentGame != "" && |args| > 0 && !Atoi(args[0]).ok ==>
              UndoStep(w, args) == Step(w, Fail("invalid count: " + args[0]), Quiet)
  {
    assert Atoi("1") == Parsed(1, true) by {
      assert "1"[0] == '1' && AllDigits("1");
      assert DigitsValue("1") == 1 by { assert "1"[..0] == ""; }
    }
  }

  /** A handler that fetched a game either failed and left the session as it
      was, or succeeded and holds a snapshot whose move count is the
      session's. */
  predicate KeepsOrAdopts(v: SessionView, st: Step) {
    && (st.outcome.Fail? ==> st.world.session == v)
    && (st.outcome.Pass? ==> st.world.session.gameState.Some? && st.world.session.lastMoveCount == |st.world.session.gameState.value.moves|)
  }

  lemma NewGameAdopts(w: World, a: NewGameAnswers)
    ensures KeepsOrAdopts(w.session, NewGameStep(w, a))
  {
  }

  lemma JoinAdopts(w: World, args: seq<string>)
    ensures KeepsOrAdopts(w.session, JoinStep(w, args))
  {
  }

  lemma MoveAdopts(w: World, args: seq<string>)
    ensures KeepsOrAdopts(w.session, MoveStep(w, args))
  {
  }

  lemma ComputerAdopts(w: World)
    ensures KeepsOrAdopts(w.session, ComputerStep(w))
  {
  }

  lemma UndoAdopts(w: World, args: seq<string>)
    ensures KeepsOrAdopts(w.session, UndoStep(w, args))
  {
  }

  lemma ShowAdopts(w: World)
    ensures KeepsOrAdopts(w.session, ShowStep(w))
  {
  }

  lemma PollAdopts(w: World)
    ensures KeepsOrAdopts(w.session, PollStep(w))
  {
  }

  /** A successful join makes the joined game current and derives the side
      from the fetched players. */
  lemma JoinAdoptsGame(w: World, args: seq<string>)
    requires JoinStep(w, args).outcome.Pass?
    ensures var v := JoinStep(w, args).world.session;
            |args| >= 1 && v.currentGame == args[0] && v.gameState.Some?
            && v.playerColor == SideOf(w.session.currentUser, v.gameState.value, w.session.playerColor)
            && v.(currentGame := w.session.currentGame, lastMoveCount := w.session.lastMoveCount,
                  gameState := w.session.gameState, playerColor := w.session.playerColor) == w.session
  {
  }

  /** state refreshes only the move count. */
  lemma StateTouchesOnlyCount(w: World)
    ensures StateStep(w).world.session.(lastMoveCount := w.session.lastMoveCount) == w.session
    ensures StateStep(w).outcome.Pass? ==> StateStep(w).world.session.gameState == w.session.gameState
  {
  }

  /** delete clears the current game and its count only when it deleted the
      current game; the snapshot and the side are never touched. */
  lemma DeleteTouches(w: World, args: seq<string>)
    ensures var v := DeleteStep(w, args).world.session;
            v.(currentGame := w.session.currentGame, lastMoveCount := w.session.lastMoveCount) == w.session
    ensures var st := DeleteStep(w, args);
            var target := if |args| > 0 then args[0] else w.session.currentGame;
            st.outcome.Pass? ==>
              target != "" &&
              (target == w.session.currentGame ==> st.world.session == w.session.(currentGame := "", lastMoveCount := 0)) &&
              (target != w.session.currentGame ==> st.world.session == w.session)
    ensures (|args| == 0 || args[0] == "") && w.session.currentGame == "" ==> DeleteStep(w, args) == Step(w, Fail(NoGameToDelete), Quiet)
  {
  }

  /** poll asks for updates beyond the session's move count, stores whatever
      arrives, and reports an update exactly when the game has more moves
      than that count. */
  lemma PollReports(w: World)
    requires w.session.currentGame != ""
    ensures var st := PollStep(w);
            |st.world.wire.sent| == |w.wire.sent| + 1 &&
            st.world.wire.sent[|w.wire.sent|].url == w.wire.baseURL + PollPath(w.session.currentGame, w.session.lastMoveCount)
    ensures var st := PollStep(w);
            st.outcome.Pass? ==>
              (st.world.session.gameState.Some? &&
               st.notice == Polled(|st.world.session.gameState.value.moves| > w.session.lastMoveCount))
  {
  }

  /** The wait either times out after using every attempt, with the session
      as it was, or adopts a game that is no longer pending. */
  lemma AwaitOutcome(w: World, gameId: string, attempts: nat)
    ensures var st := AwaitStep(w, gameId, attempts);
            |w.wire.sent| <= |st.world.wire.sent| <= |w.wire.sent| + attempts
    ensures var st := AwaitStep(w, gameId, attempts);
            st.outcome.Fail? ==>
              st == Step(w.(wire := st.world.wire), Fail(ComputerTimeout), Quiet) &&
              |st.world.wire.sent| == |w.wire.sent| + attempts
    ensures var st := AwaitStep(w, gameId, attempts);
            st.outcome.Pass? ==>
              st.world.session.gameState.Some? && st.world.session.gameState.value.state != "pending"
  {
    AwaitComputerRequests(w.wire, gameId, attempts);
  }

  /** The computer command sends the trigger and at most `PollAttempts`
      re-fetches. */
  lemma ComputerWaitBounded(w: World)
    ensures var st := ComputerStep(w);
            |w.wire.sent| <= |st.world.wire.sent| <= |w.wire.sent| + 1 + PollAttempts
  {
    if w.session.currentGame != "" {
      var c := MakeMoveCall(w.wire, w.session.currentGame, ComputerTrigger);
      AwaitOutcome(w.(wire := c.wire), w.session.currentGame, PollAttempts);
    }
  }

  // ---------------------------------------------------------------------
  // Each game command keeps the session coherent with its client

  lemma NewGameKeeps(w: World, a: NewGameAnswers)
    ensures Keeps(w, NewGameStep(w, a).world)
  {
    CreateKeeps(w, NewGameRequest(a));
  }

  lemma CreateKeeps(w: World, req: CreateGameRequest)
    ensures Keeps(w, CreateStep(w, req).world)
  {
    var c := CreateGameCall(w.wire, req);
    assert Keeps(w, w.(wire := c.wire));
  }

  lemma JoinKeeps(w: World, args: seq<string>)
    ensures Keeps(w, JoinStep(w, args).world)
  {
  }

  lemma MoveKeeps(w: World, args: seq<string>)
    ensures Keeps(w, MoveStep(w, args).world)
  {
  }

  lemma AwaitKeeps(w: World, gameId: string, attempts: nat)
    ensures Keeps(w, AwaitStep(w, gameId, attempts).world)
  {
    var a := AwaitComputer(w.wire, gameId, attempts);
    assert Keeps(w, w.(wire := a.wire));
  }

  lemma ComputerKeeps(w: World)
    ensures Keeps(w, ComputerStep(w).world)
  {
    var gameId := w.session.currentGame;
    if gameId != "" {
      var c := MakeMoveCall(w.wire, gameId, ComputerTrigger);
      var v := w.(wire := c.wire);
      assert Keeps(w, v);
      if c.result.Ok? && c.result.value.state == "pending" {
        AwaitKeeps(v, gameId, PollAttempts);
      }
    }
  }

  lemma UndoKeeps(w: World, args: seq<string>)
    ensures Keeps(w, UndoStep(w, args).world)
  {
  }

  lemma ShowKeeps(w: World)
    ensures Keeps(w, ShowStep(w).world)
  {
    var u := ShowStep(w).world;
    var gameId := w.session.currentGame;
    if gameId != "" {
      var c := GetGameCall(w.wire, gameId);
      assert Keeps(w, w.(wire := c.wire));
      if c.result.Ok? {
        var b := GetBoardCall(c.wire, gameId);
        assert Keeps(w, w.(wire := b.wire));
      }
    }
  }

  lemma StateKeeps(w: World)
    ensures Keeps(w, StateStep(w).world)
  {
  }

  lemma DeleteKeeps(w: World, args: seq<string>)
    ensures Keeps(w, DeleteStep(w, args).world)
  {
    var u := DeleteStep(w, args).world;
    var gameId := if |args| > 0 then args[0] else w.session.currentGame;
    if gameId != "" {
      var c := DeleteGameCall(w.wire, gameId);
      assert Keeps(w, w.(wire := c.wire));
    }
  }

  lemma PollKeeps(w: World)
    ensures Keeps(w, PollStep(w).world)
  {
  }
}
