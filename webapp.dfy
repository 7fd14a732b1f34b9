/** The browser client's game logic (web-client/app.js): the page's game
    state and the decisions made on it: square clicks, the undo guard,
    error classification, the turn and server indicators, the move-history
    text, the board squares and the placement walk over a FEN string.
    The DOM, fetch, timers and the clipboard are outside the model: what the
    page would show is kept in fields and results. */
module WebClient {
  import opened Wrappers
  import opened Text
  import BoardView

  // ---------------------------------------------------------------------
  // Game over and the turn indicator

  const WhiteWins: string := "white wins"
  const BlackWins: string := "black wins"
  const Stalemate: string := "stalemate"
  const Draw: string := "draw"
  const Pending: string := "pending"

  const GameOverStates: seq<string> := [WhiteWins, BlackWins, Stalemate, Draw]

  /** `isGameOver`: whether `state` is one of the four final states. */
  function IsGameOver(state: string): (r: bool)
    ensures r <==> state == WhiteWins || state == BlackWins || state == Stalemate || state == Draw
    ensures r ==> state != Pending && state != ""
  {
    state in GameOverStates
  }

  /** A light's status and its tooltip. */
  datatype Indicator = Indicator(status: string, tooltip: string)

  const Thinking: Indicator := Indicator("thinking", "Computer Thinking")

  /** The statuses the turn light shows for a finished game. */
  predicate ResultStatus(status: string) {
    status == "white-wins" || status == "black-wins" || status == "stalemate" || status == "draw"
  }

  /** `updateTurnIndicator`: thinking while the computer moves or the board
      is locked, otherwise the result of a finished game, otherwise the side
      to move. */
  function TurnIndicator(state: string, turn: string, locked: bool): (r: Indicator)
  {
    if state == Pending || locked then Thinking
    else if state != "" && IsGameOver(state) then
      if state == WhiteWins then Indicator("white-wins", "White Wins")
      else if state == BlackWins then Indicator("black-wins", "Black Wins")
      else if state == Stalemate then Indicator("stalemate", "Stalemate")
      else if state == Draw then Indicator("draw", "Draw")
      else Indicator("unknown", "Game Over")
    else if turn == "w" then Indicator("white", "White")
    else if turn == "b" then Indicator("black", "Black")
    else Indicator("unknown", "Unknown")
  }

  /** Thinking takes precedence over everything else; a finished game shows
      its result whatever the turn; otherwise the light follows the turn.
      The generic "Game Over" case is never reached. */
  lemma TurnIndicatorCases(state: string, turn: string, locked: bool)
    ensures TurnIndicator(state, turn, locked) == Thinking <==> state == Pending || locked
    ensures !locked && IsGameOver(state) ==> ResultStatus(TurnIndicator(state, turn, locked).status)
    ensures !locked && IsGameOver(state) ==> TurnIndicator(state, turn, locked) == TurnIndicator(state, "", false)
    ensures !locked && state != Pending && !IsGameOver(state) ==>
      TurnIndicator(state, turn, locked).status == (if turn == "w" then "white" else if turn == "b" then "black" else "unknown")
    ensures TurnIndicator(state, turn, locked).tooltip != "Game Over"
  {
  }

  // ---------------------------------------------------------------------
  // Slider keys in the new-game dialog

  const LevelSlider: string := "computer-level"
  const TimeSlider: string := "search-time"

  /** `Math.max(lo, Math.min(hi, v))`. */
  function Clamp(lo: int, hi: int, v: int): (r: int)
    requires lo <= hi
    ensures lo <= r <= hi
    ensures lo <= v <= hi ==> r == v
    ensures v < lo ==> r == lo
    ensures v > hi ==> r == hi
  {
    if hi < v then hi else if v < lo then lo else v
  }

  /** `handleSliderNav`: an arrow key moves the focused slider one step
      (one level, or 100 ms of search time) within its range; with any other
      element focused nothing changes. */
  function SliderNav(focused: string, value: int, direction: int): (r: Option<int>)
    requires direction == -1 || direction == 1
    ensures r.Some? <==> focused == LevelSlider || focused == TimeSlider
    ensures focused == LevelSlider ==> 0 <= r.value <= 20
    ensures focused == TimeSlider ==> 100 <= r.value <= 10000
  {
    if focused == LevelSlider then Some(Clamp(0, 20, value + direction))
    else if focused == TimeSlider then Some(Clamp(100, 10000, value + direction * 100))
    else None
  }

  /** Inside its range a slider moves by exactly one step, and stops at its
      ends; one step right and one step left come back to the start. */
  lemma SliderSteps(value: int)
    ensures 0 <= value < 20 ==> SliderNav(LevelSlider, value, 1) == Some(value + 1)
    ensures 0 < value <= 20 ==> SliderNav(LevelSlider, value, -1) == Some(value - 1)
    ensures SliderNav(LevelSlider, 20, 1) == Some(20) && SliderNav(LevelSlider, 0, -1) == Some(0)
    ensures 0 <= value < 20 ==> SliderNav(LevelSlider, SliderNav(LevelSlider, value, 1).value, -1) == Some(value)
    ensures 100 <= value <= 9900 ==> SliderNav(TimeSlider, value, 1) == Some(value + 100)
    ensures 200 <= value <= 10000 ==> SliderNav(TimeSlider, value, -1) == Some(value - 100)
    ensures SliderNav(TimeSlider, 10000, 1) == Some(10000) && SliderNav(TimeSlider, 100, -1) == Some(100)
    ensures 100 <= value <= 9900 ==> SliderNav(TimeSlider, SliderNav(TimeSlider, value, 1).value, -1) == Some(value)
  {
  }

  // ---------------------------------------------------------------------
  // Move-history text

  /** JavaScript's white space and line terminators, as `String.prototype.trim`
      removes them. */
  predicate JsSpace(c: char) {
    || c == '\t' || c == '\n' || c == '\U{0B}' || c == '\U{0C}' || c == '\r' || c == ' '
    || c == '\U{A0}' || c == '\U{1680}' || ('\U{2000}' <= c <= '\U{200A}')
    || c == '\U{2028}' || c == '\U{2029}' || c == '\U{202F}' || c == '\U{205F}'
    || c == '\U{3000}' || c == '\U{FEFF}'
  }

  function JsTrimStart(s: string): (r: string)
    ensures |r| <= |s| && r == s[|s| - |r|..]
    ensures r == [] || !JsSpace(r[0])
    ensures forall i :: 0 <= i < |s| - |r| ==> JsSpace(s[i])
  {
    if s != [] && JsSpace(s[0]) then JsTrimStart(s[1..]) else s
  }

  function JsTrimEnd(s: string): (r: string)
    ensures |r| <= |s| && r == s[..|r|]
    ensures r == [] || !JsSpace(r[|r| - 1])
    ensures forall i :: |r| <= i < |s| ==> JsSpace(s[i])
  {
    if s != [] && JsSpace(s[|s| - 1]) then JsTrimEnd(s[..|s| - 1]) else s
  }

  /** `String.prototype.trim`. */
  function JsTrim(s: string): string {
    JsTrimEnd(JsTrimStart(s))
  }

  /** The number written before white's move at index `i`: "k. " with
      k = i/2 + 1. */
  function MoveNumber(i: nat): string {
    NatToString(i / 2 + 1) + ". "
  }

  /** The history text built from the first `k` moves. */
  function Pgn(moves: seq<string>, k: nat): string
    requires k <= |moves|
  {
    if k == 0 then ""
    else Pgn(moves, k - 1) + (if (k - 1) % 2 == 0 then MoveNumber(k - 1) else "") + moves[k - 1] + " "
  }

  lemma PgnNext(moves: seq<string>, i: nat)
    requires i < |moves|
    ensures Pgn(moves, i + 1) == Pgn(moves, i) + (if i % 2 == 0 then MoveNumber(i) else "") + moves[i] + " "
  {
  }

  /** The loop of `copyHistory`: every move, numbered before white's. */
  method NumberMoves(moves: seq<string>) returns (pgn: string)
    ensures pgn == Pgn(moves, |moves|)
  {
    pgn := "";
    for i := 0 to |moves|
      invariant pgn == Pgn(moves, i)
    {
      PgnNext(moves, i);
      var number := if i % 2 == 0 then MoveNumber(i) else "";
      pgn := pgn + number + moves[i] + " ";
    }
  }

  function FenTag(fen: string): string {
    "[FEN \"" + fen + "\"]"
  }

  /** What `copyHistory` puts on the clipboard; an unset position is "". */
  function History(moves: seq<string>, fen: string): string {
    JsTrim(Pgn(moves, |moves|) + (if fen != "" then "\n\n" + FenTag(fen) else ""))
  }

  /** Each full move is numbered once, before white's half: two half-moves
      add "k. white black ". */
  lemma PgnPair(moves: seq<string>, k: nat)
    requires 2 * k + 2 <= |moves|
    ensures Pgn(moves, 2 * k + 2) == Pgn(moves, 2 * k) + NatToString(k + 1) + ". " + moves[2 * k] + " " + moves[2 * k + 1] + " "
  {
    var i := 2 * k;
    WhiteHalf(k);
    var p := Pgn(moves, i);
    var head := NatToString(k + 1) + ". ";
    PgnNext(moves, i);
    var q := p + head + moves[i] + " ";
    assert Pgn(moves, i + 1) == q;
    PgnNext(moves, i + 1);
    assert Pgn(moves, i + 2) == q + "" + moves[i + 1] + " ";
    assert q + "" == q;
    assert p + head == p + NatToString(k + 1) + ". ";
  }

  /** Half-move 2k is white's, numbered k + 1; half-move 2k + 1 is black's. */
  lemma WhiteHalf(k: nat)
    ensures (2 * k) % 2 == 0 && (2 * k + 1) % 2 == 1
    ensures MoveNumber(2 * k) == NatToString(k + 1) + ". "
  {
    assert (2 * k) / 2 == k;
  }

  /** The history of a game with moves opens with "1. " and its first move. */
  lemma {:induction false} PgnOpens(moves: seq<string>, k: nat)
    requires 1 <= k <= |moves|
    ensures HasPrefix(Pgn(moves, k), "1. " + moves[0] + " ")
  {
    if k == 1 {
      assert NatToString(1) == "1";
      assert Pgn(moves, 1) == "" + MoveNumber(0) + moves[0] + " ";
    } else {
      PgnOpens(moves, k - 1);
      var p := Pgn(moves, k - 1);
      var head := "1. " + moves[0] + " ";
      assert Pgn(moves, k)[..|head|] == p[..|head|];
    }
  }

  /** Trimming keeps a leading part that starts and ends with non-space. */
  lemma TrimKeepsPrefix(a: string, b: string)
    requires |a| > 0 && !JsSpace(a[0]) && !JsSpace(a[|a| - 1])
    ensures HasPrefix(JsTrim(a + b), a)
  {
    var s := a + b;
    assert s[0] == a[0] && s[|a| - 1] == a[|a| - 1];
    assert JsTrimStart(s) == s;
    var r := JsTrimEnd(s);
    assert |r| >= |a|;
    assert r[..|a|] == s[..|a|] == a;
  }

  /** Trimming keeps a trailing part that starts and ends with non-space. */
  lemma TrimKeepsSuffix(a: string, b: string)
    requires |b| > 0 && !JsSpace(b[0]) && !JsSpace(b[|b| - 1])
    ensures HasSuffix(JsTrim(a + b), b)
  {
    var s := a + b;
    assert s[|a|] == b[0] && s[|s| - 1] == b[|b| - 1];
    var t := JsTrimStart(s);
    assert |t| >= |b|;
    assert t[|t| - |b|..] == b;
    assert t[|t| - 1] == b[|b| - 1];
    assert JsTrimEnd(t) == t;
  }

  /** The copied history opens with "1." when there are moves, ends with
      the position tag when a position is set, and is empty when there is
      neither. */
  lemma HistoryShape(moves: seq<string>, fen: string)
    ensures moves != [] ==> HasPrefix(History(moves, fen), "1.")
    ensures fen != "" ==> HasSuffix(History(moves, fen), FenTag(fen))
    ensures moves == [] && fen == "" ==> History(moves, fen) == ""
  {
    var tail := if fen != "" then "\n\n" + FenTag(fen) else "";
    var text := Pgn(moves, |moves|) + tail;
    if moves != [] {
      PgnOpens(moves, |moves|);
      var p := Pgn(moves, |moves|);
      assert text == "1." + (text[2..]) by {
        assert p[..2] == "1.";
      }
      TrimKeepsPrefix("1.", text[2..]);
    }
    if fen != "" {
      assert text == (Pgn(moves, |moves|) + "\n\n") + FenTag(fen);
      TrimKeepsSuffix(Pgn(moves, |moves|) + "\n\n", FenTag(fen));
    }
  }

  // ---------------------------------------------------------------------
  // Board squares

  /** Whether a file and rank (both counted from 0) lie on the board. */
  predicate OnBoard(file: int, rank: int) {
    0 <= file < 8 && 0 <= rank < 8
  }

  /** A square's name: its file letter and rank digit. */
  function SquareName(file: int, rank: int): (r: string)
    requires OnBoard(file, rank)
    ensures |r| == 2 && r[0] as int == 'a' as int + file && r[1] as int == '1' as int + rank
  {
    [(97 + file) as char, (49 + rank) as char]
  }

  predicate IsSquareName(name: string) {
    |name| == 2 && 'a' <= name[0] <= 'h' && '1' <= name[1] <= '8'
  }

  datatype Square = Square(name: string, dark: bool)

  /** Square `i` of the board as `initializeBoard` creates it: in reading
      order from a8, dark when its displayed rank and file add up to an even
      number. */
  function SquareAt(i: nat, blackPov: bool): (r: Square)
    requires i < 64
    ensures IsSquareName(r.name)
  {
    var rank := 7 - i / 8;
    var file := i % 8;
    var displayRank := if blackPov then 7 - rank else rank;
    var displayFile := if blackPov then 7 - file else file;
    Square(SquareName(file, rank), (displayRank + displayFile) % 2 == 0)
  }

  /** The point of view changes nothing about the squares: the same names
      in the same order, and a square's colour agrees from either side;
      a1 is dark and h1 light. */
  lemma SquaresIgnorePov(i: nat)
    requires i < 64
    ensures SquareAt(i, true) == SquareAt(i, false)
    ensures SquareAt(56, false) == Square("a1", true) && SquareAt(63, false) == Square("h1", false)
  {
    var rank := 7 - i / 8;
    var file := i % 8;
    assert (7 - rank + 7 - file) % 2 == (rank + file) % 2 by {
      assert 7 - rank + 7 - file == 14 - (rank + file);
    }
  }

  /** Every square gets its own name. */
  lemma SquareNamesDistinct(i: nat, j: nat, blackPov: bool)
    requires i < 64 && j < 64 && i != j
    ensures SquareAt(i, blackPov).name != SquareAt(j, blackPov).name
  {
    var a := SquareAt(i, blackPov).name;
    var b := SquareAt(j, blackPov).name;
    if i % 8 != j % 8 {
      assert a[0] != b[0];
    } else {
      assert i / 8 != j / 8 by {
        assert i == 8 * (i / 8) + i % 8 && j == 8 * (j / 8) + j % 8;
      }
      assert a[1] != b[1];
    }
  }

  // ---------------------------------------------------------------------
  // Placing pieces from a FEN string

  /** A piece put on a square: its colour ('w' or 'b') and its kind, the
      lower-case letter. */
  datatype Placement = Placement(square: string, color: char, kind: char)

  /** Where the walk over the placement field stands, and what it placed. */
  datatype Walk = Walk(rank: int, file: int, placed: seq<Placement>)

  /** Upper-case letters and every other character that `toUpperCase` leaves
      alone are white; lower-case letters black. */
  function PieceColor(c: char): (r: char)
    ensures r == 'w' || r == 'b'
    ensures r == 'b' <==> 'a' <= c <= 'z'
  {
    if UpperChar(c) == c then 'w' else 'b'
  }

  /** One character of the placement field: '/' moves to the next rank
      down, a digit skips that many files, anything else is a piece that is
      placed when its square exists and moves one file on. */
  function WalkStep(w: Walk, c: char): Walk {
    if c == '/' then Walk(w.rank - 1, 0, w.placed)
    else if IsDigit(c) then Walk(w.rank, w.file + (c as int - '0' as int), w.placed)
    else
      var here := if OnBoard(w.file, w.rank) then [Placement(SquareName(w.file, w.rank), PieceColor(c), LowerChar(c))] else [];
      Walk(w.rank, w.file + 1, w.placed + here)
  }

  /** The walk over the first `k` characters, from a8. */
  function WalkFen(board: string, k: nat): Walk
    requires k <= |board|
  {
    if k == 0 then Walk(7, 0, []) else WalkStep(WalkFen(board, k - 1), board[k - 1])
  }

  /** The placement field: the text before the first space. */
  function PlacementField(fen: string): string {
    BoardView.Split(fen, ' ')[0]
  }

  /** The walk stays on or left of the board's right edge only as the
      field allows, but its rank is always 7 less the slashes seen, its file
      never negative, and everything it placed is on a real square, with the
      colour and the lower-case kind of a piece letter read so far. */
  lemma {:induction false} WalkShape(board: string, k: nat)
    requires k <= |board|
    ensures WalkFen(board, k).rank == 7 - multiset(board[..k])['/'] as int
    ensures WalkFen(board, k).file >= 0
    ensures forall p :: p in WalkFen(board, k).placed ==> IsSquareName(p.square) && (p.color == 'w' || p.color == 'b')
    ensures forall p :: p in WalkFen(board, k).placed ==>
              exists i :: 0 <= i < k && board[i] != '/' && !IsDigit(board[i])
                && p.color == PieceColor(board[i]) && p.kind == LowerChar(board[i])
  {
    if k > 0 {
      WalkShape(board, k - 1);
      assert board[..k] == board[..k - 1] + [board[k - 1]];
    }
  }

  /** Digits and slashes place nothing. */
  lemma {:induction false} EmptyRanksPlaceNothing(board: string, k: nat)
    requires k <= |board|
    requires forall i :: 0 <= i < |board| ==> board[i] == '/' || IsDigit(board[i])
    ensures WalkFen(board, k).placed == []
  {
    if k > 0 {
      EmptyRanksPlaceNothing(board, k - 1);
    }
  }

  /** `renderBoardFromFEN`: the pieces placed, in order, for the position's
      placement field. */
  method RenderBoardFromFen(fen: string) returns (placed: seq<Placement>)
    ensures placed == WalkFen(PlacementField(fen), |PlacementField(fen)|).placed
  {
    var board := PlacementField(fen);
    var rank, file := 7, 0;
    placed := [];
    for k := 0 to |board|
      invariant WalkFen(board, k) == Walk(rank, file, placed)
    {
      var c := board[k];
      if c == '/' {
        rank, file := rank - 1, 0;
      } else if IsDigit(c) {
        file := file + (c as int - '0' as int);
      } else {
        if OnBoard(file, rank) {
          placed := placed + [Placement(SquareName(file, rank), PieceColor(c), LowerChar(c))];
        }
        file := file + 1;
      }
    }
  }

  // ---------------------------------------------------------------------
  // Error classification

  /** What `handleApiError` works out from a failed call: the server's
      health, the message flashed, and the kind of failure. */
  datatype ErrorInfo = ErrorInfo(serverStatus: string, statusMessage: string,
                                 isNetworkError: bool, isClientError: bool, isServerError: bool)

  const Healthy: string := "healthy"
  const Degraded: string := "degraded"

  /** The classification of a failed call, by its status code when a
      response came back. */
  function Classify(action: string, response: Option<int>): (r: ErrorInfo)
    ensures r.isNetworkError <==> response.None?
    ensures response.None? ==> r.statusMessage == "Connection Failed" && r.serverStatus == Degraded
    ensures r.isClientError <==> response.Some? && 400 <= response.value < 500
    ensures r.isServerError <==> response.Some? && response.value >= 500
    ensures r.isClientError ==> (r.serverStatus == Healthy <==> response.value != 429)
    ensures r.isServerError ==> r.serverStatus == Degraded
    ensures response == Some(400) ==>
      r.statusMessage == (if action == "undo" then "No Moves to Undo" else if action == "move" then "Invalid Move" else "Invalid Request")
    ensures response == Some(404) ==> r.statusMessage == "Game Not Found"
  {
    if response.None? then ErrorInfo(Degraded, "Connection Failed", true, false, false)
    else
      var status := response.value;
      var (serverStatus, message) :=
        if status == 400 then
          (Healthy, if action == "undo" then "No Moves to Undo" else if action == "move" then "Invalid Move" else "Invalid Request")
        else if status == 404 then (Healthy, "Game Not Found")
        else if status == 429 then (Degraded, "Rate Limited")
        else if status == 415 then (Healthy, "Invalid Content Type")
        else if status == 500 || status == 502 || status == 503 then
          (Degraded, if status == 503 then "Service Unavailable" else "Server Error")
        else if status >= 500 then (Degraded, "Server Error (" + IntToString(status) + ")")
        else if status >= 400 then (Healthy, "Request Failed (" + IntToString(status) + ")")
        else (Degraded, "Server Error");
      ErrorInfo(serverStatus, message, false, 400 <= status < 500, status >= 500)
  }

  // ---------------------------------------------------------------------
  // The page's game state

  /** What a square click did: nothing, dropped the selection, submitted a
      move, selected a piece, or refused the selection. */
  datatype ClickAction = Ignored | Deselected | Submitted(from: string, to: string) | Selected(square: string) | InvalidSelection

  /** The colour the player moves with. */
  function PlayerTurn(isPlayerWhite: bool): string {
    if isPlayerWhite then "w" else "b"
  }

  /** `handleSquareClick` on the state it reads: the new selection and what
      the click did. */
  function Click(locked: bool, state: string, turn: string, isPlayerWhite: bool,
                 selected: Option<string>, square: string, pieceColor: string): (r: (Option<string>, ClickAction))
    ensures locked || IsGameOver(state) || turn != PlayerTurn(isPlayerWhite) ==> r == (selected, Ignored)
    ensures r.1 != Ignored && selected.Some? ==> r.0 == None && r.1 == (if selected.value != square then Submitted(selected.value, square) else Deselected)
    ensures r.1.Submitted? ==> selected == Some(r.1.from) && r.1.from != r.1.to
    ensures r.0.Some? && r.0 != selected ==> r.0 == Some(square) && pieceColor == PlayerTurn(isPlayerWhite)
    ensures r.1 == InvalidSelection <==> !locked && !IsGameOver(state) && turn == PlayerTurn(isPlayerWhite)
                                          && selected.None? && pieceColor != PlayerTurn(isPlayerWhite)
  {
    var player := PlayerTurn(isPlayerWhite);
    if locked || IsGameOver(state) || turn != player then (selected, Ignored)
    else if selected.Some? then
      (None, if selected.value != square then Submitted(selected.value, square) else Deselected)
    else if pieceColor == player then (Some(square), Selected(square))
    else (None, InvalidSelection)
  }

  /** Selecting one of one's pieces and then clicking another square
      submits that move and leaves nothing selected; clicking the piece
      again only drops it. */
  lemma ClickTwice(state: string, isPlayerWhite: bool, from: string, to: string)
    requires !IsGameOver(state)
    ensures var first := Click(false, state, PlayerTurn(isPlayerWhite), isPlayerWhite, None, from, PlayerTurn(isPlayerWhite));
      first == (Some(from), Selected(from))
      && Click(false, state, PlayerTurn(isPlayerWhite), isPlayerWhite, first.0, to, "") ==
         (None, if from != to then Submitted(from, to) else Deselected)
  {
  }

  /** The flag `undoMoves` checks before asking the server to take back
      the last two half-moves. */
  function CanUndo(locked: bool, moveList: seq<string>): (r: bool)
    ensures r ==> |moveList| >= 2 && !locked
  {
    !locked && |moveList| >= 2
  }

  /** A game as the server returns it; a missing move list is `None`. */
  datatype GameView = GameView(fen: string, turn: string, state: string, moves: Option<seq<string>>)

  /** The turn light as `unlockBoard` sets it in the source: from the turn
      alone, as if no game state were known. */
  function UnlockedLightAsWritten(turn: string): Indicator {
    TurnIndicator("", turn, false)
  }

  /** When a poll finds that the computer's move ended the game, the display
      is updated while the board is still locked, so the light shows the
      computer thinking; unlocking then shows the side to move. The result
      is never shown, although an unlocked display of the same game would
      show it. */
  lemma UnlockHidesResult(state: string, turn: string)
    requires IsGameOver(state) && (turn == "w" || turn == "b")
    ensures TurnIndicator(state, turn, true) == Thinking
    ensures UnlockedLightAsWritten(turn).status == (if turn == "w" then "white" else "black")
    ensures !ResultStatus(TurnIndicator(state, turn, true).status) && !ResultStatus(UnlockedLightAsWritten(turn).status)
    ensures ResultStatus(TurnIndicator(state, turn, false).status)
  {
  }

  /** The page's game state: the game shown, whose turn it is, which side
      the player has, whether the board waits for the computer, the square
      selected, the moves so far, and the two lights. */
  class WebGame {
    var gameId: string
    var fen: string
    var turn: string
    var state: string
    var isPlayerWhite: bool
    var isLocked: bool
    var selected: Option<string>
    var moveList: seq<string>
    var networkError: bool
    var turnLight: Indicator
    var serverLight: Indicator

    /** The state a page starts with: no game, white to move, the player
      white. */
    constructor ()
      ensures gameId == "" && fen == "" && turn == "w" && state == "" && isPlayerWhite
      ensures !isLocked && selected == None && moveList == [] && !networkError
    {
      gameId, fen, turn, state := "", "", "w", "";
      isPlayerWhite, isLocked := true, false;
      selected, moveList, networkError := None, [], false;
      turnLight := Indicator("", "");
      serverLight := Indicator("", "");
    }

    /** `handleSquareClick`: only the selection changes. */
    method SquareClick(square: string, pieceColor: string) returns (action: ClickAction)
      modifies this
      ensures (selected, action) == Click(old(isLocked), state, turn, isPlayerWhite, old(selected), square, pieceColor)
      ensures gameId == old(gameId) && fen == old(fen) && turn == old(turn) && state == old(state)
      ensures isPlayerWhite == old(isPlayerWhite) && isLocked == old(isLocked) && moveList == old(moveList)
      ensures networkError == old(networkError) && turnLight == old(turnLight) && serverLight == old(serverLight)
    {
      if isLocked {
        return Ignored;
      }
      if IsGameOver(state) {
        return Ignored;
      }
      var player := PlayerTurn(isPlayerWhite);
      if turn != player {
        return Ignored;
      }
      if selected.Some? {
        var from := selected.value;
        selected := None;
        action := if from != square then Submitted(from, square) else Deselected;
      } else if pieceColor == player {
        selected := Some(square);
        action := Selected(square);
      } else {
        action := InvalidSelection;
      }
    }

    /** `undoMoves`: whether the request to take back two half-moves is
      sent. */
    method UndoMoves() returns (sent: bool)
      ensures sent <==> !isLocked && |moveList| >= 2
    {
      if isLocked {
        return false;
      }
      if |moveList| < 2 {
        return false;
      }
      sent := CanUndo(isLocked, moveList);
    }

    /** `copyHistory`: the text put on the clipboard. */
    method CopyHistory() returns (text: string)
      ensures text == History(moveList, fen)
    {
      var pgn := NumberMoves(moveList);
      var tag := if fen != "" then "\n\n" + FenTag(fen) else "";
      text := JsTrim(pgn + tag);
    }

    /** `initializeBoard`: the 64 squares for the player's side. */
    method InitializeBoard() returns (squares: seq<Square>)
      ensures |squares| == 64
      ensures forall i :: 0 <= i < 64 ==> squares[i] == SquareAt(i, !isPlayerWhite)
    {
      var blackPov := !isPlayerWhite;
      squares := [];
      for i := 0 to 64
        invariant |squares| == i
        invariant forall j :: 0 <= j < i ==> squares[j] == SquareAt(j, blackPov)
      {
        var rank := 7 - i / 8;
        var file := i % 8;
        var displayRank := if blackPov then 7 - rank else rank;
        var displayFile := if blackPov then 7 - file else file;
        squares := squares + [Square(SquareName(file, rank), (displayRank + displayFile) % 2 == 0)];
      }
    }

    /** `updateGameDisplay`: the game's position, turn, state and moves
      become the page's, and the turn light follows them. */
    method UpdateGameDisplay(game: GameView)
      modifies this
      ensures fen == game.fen && turn == game.turn && state == game.state
      ensures moveList == (if game.moves.Some? then game.moves.value else [])
      ensures turnLight == TurnIndicator(game.state, game.turn, isLocked)
      ensures gameId == old(gameId) && isPlayerWhite == old(isPlayerWhite) && isLocked == old(isLocked)
      ensures selected == old(selected) && networkError == old(networkError) && serverLight == old(serverLight)
    {
      fen, turn, state := game.fen, game.turn, game.state;
      moveList := if game.moves.Some? then game.moves.value else [];
      turnLight := TurnIndicator(state, turn, isLocked);
    }

    /** `lockBoard`: the board waits for the computer and says so. */
    method LockBoard()
      modifies this
      ensures isLocked && turnLight == Thinking
      ensures gameId == old(gameId) && fen == old(fen) && turn == old(turn) && state == old(state)
      ensures isPlayerWhite == old(isPlayerWhite) && selected == old(selected) && moveList == old(moveList)
      ensures networkError == old(networkError) && serverLight == old(serverLight)
    {
      isLocked := true;
      turnLight := TurnIndicator(Pending, turn, isLocked);
    }

    /** `unlockBoard`, with the light taken from the game's state so that a
      finished game keeps showing its result. */
    method UnlockBoard()
      modifies this
      ensures !isLocked && turnLight == TurnIndicator(state, turn, false)
      ensures IsGameOver(state) ==> ResultStatus(turnLight.status)
      ensures gameId == old(gameId) && fen == old(fen) && turn == old(turn) && state == old(state)
      ensures isPlayerWhite == old(isPlayerWhite) && selected == old(selected) && moveList == old(moveList)
      ensures networkError == old(networkError) && serverLight == old(serverLight)
    {
      isLocked := false;
      turnLight := TurnIndicator(state, turn, isLocked);
      TurnIndicatorCases(state, turn, false);
    }

    /** `handleApiError`: classify the failure, and mark the network as
      failing (with the server light showing the classification) only for a
      missing response or a server error; otherwise the server light shows
      healthy. */
    method HandleApiError(action: string, response: Option<int>) returns (info: ErrorInfo)
      modifies this
      ensures info == Classify(action, response)
      ensures networkError <==> response.None? || response.value >= 500
      ensures networkError ==> serverLight == Indicator(info.serverStatus, info.statusMessage)
      ensures !networkError ==> serverLight == Indicator(Healthy, Healthy)
      ensures gameId == old(gameId) && fen == old(fen) && turn == old(turn) && state == old(state)
      ensures isPlayerWhite == old(isPlayerWhite) && isLocked == old(isLocked)
      ensures selected == old(selected) && moveList == old(moveList) && turnLight == old(turnLight)
    {
      info := Classify(action, response);
      if response.None? || response.value >= 500 {
        serverLight := Indicator(info.serverStatus, info.statusMessage);
        networkError := true;
      } else {
        serverLight := Indicator(Healthy, Healthy);
        networkError := false;
      }
    }
  }

  /** The server light turns degraded exactly when the network is marked
      failing; a rate-limited call is classified degraded yet leaves the
      light healthy. */
  lemma ServerLightFollowsFailure(action: string, response: Option<int>)
    ensures var info := Classify(action, response);
      var failing := response.None? || response.value >= 500;
      (failing ==> info.serverStatus == Degraded)
      && (response == Some(429) ==> info.serverStatus == Degraded && !failing)
  {
  }
}
