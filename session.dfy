/** The client's session (session/session.go): one mutable record of the
    connection, authentication and game context, changed through setters. */
module Sessions {
  import opened Wrappers
  import opened Text
  import opened ApiTypes
  import Api

  /** The value of every session field except the client pointer. */
  datatype SessionView = SessionView(
    apiBaseURL: string,
    currentGame: string,
    currentUser: string,
    authToken: string,
    username: string,
    lastMoveCount: int,
    verbose: bool,
    gameState: Option<GameResponse>,
    playerColor: string)

  /** The argument of `SetGameState`, an `any`: a `*GameResponse` (possibly a
      nil one) or a value of some other type. */
  datatype Dynamic = GamePointer(target: Option<GameResponse>) | OtherValue

  class Session {
    var apiBaseURL: string
    var currentGame: string
    var currentUser: string
    var authToken: string
    var username: string
    var lastMoveCount: int
    const client: Api.Client
    var verbose: bool
    var gameState: Option<GameResponse>
    /** "w", "b", or "" when the user plays neither side. */
    var playerColor: string

    ghost function View(): SessionView
      reads this
    {
      SessionView(apiBaseURL, currentGame, currentUser, authToken, username, lastMoveCount, verbose, gameState, playerColor)
    }

    /** The session `runClient` starts with: a base URL and its client, nothing else. */
    constructor (url: string, c: Api.Client)
      ensures View() == SessionView(url, "", "", "", "", 0, false, None, "")
      ensures client == c
    {
      apiBaseURL := url;
      currentGame := "";
      currentUser := "";
      authToken := "";
      username := "";
      lastMoveCount := 0;
      client := c;
      verbose := false;
      gameState := None;
      playerColor := "";
    }

    function GetAPIBaseURL(): string reads this { apiBaseURL }
    function GetCurrentGame(): string reads this { currentGame }
    function GetCurrentUser(): string reads this { currentUser }
    function GetAuthToken(): string reads this { authToken }
    function GetUsername(): string reads this { username }
    function GetLastMoveCount(): int reads this { lastMoveCount }
    function GetClient(): Api.Client { client }
    function IsVerbose(): bool reads this { verbose }
    function GetPlayerColor(): string reads this { playerColor }

    method SetAPIBaseURL(url: string)
      modifies this
      ensures GetAPIBaseURL() == url
      ensures View() == old(View()).(apiBaseURL := url)
    {
      apiBaseURL := url;
    }

    method SetCurrentGame(id: string)
      modifies this
      ensures GetCurrentGame() == id
      ensures View() == old(View()).(currentGame := id)
    {
      currentGame := id;
    }

    method SetCurrentUser(id: string)
      modifies this
      ensures GetCurrentUser() == id
      ensures View() == old(View()).(currentUser := id)
    {
      currentUser := id;
    }

    method SetAuthToken(token: string)
      modifies this
      ensures GetAuthToken() == token
      ensures View() == old(View()).(authToken := token)
    {
      authToken := token;
    }

    method SetUsername(name: string)
      modifies this
      ensures GetUsername() == name
      ensures View() == old(View()).(username := name)
    {
      username := name;
    }

    method SetLastMoveCount(count: int)
      modifies this
      ensures GetLastMoveCount() == count
      ensures View() == old(View()).(lastMoveCount := count)
    {
      lastMoveCount := count;
    }

    /** Replaces the snapshot wholesale when given a `*GameResponse`;
        ignores a value of any other type. */
    method SetGameState(game: Dynamic)
      modifies this
      ensures game.GamePointer? ==> View() == old(View()).(gameState := game.target)
      ensures game.OtherValue? ==> View() == old(View())
    {
      if game.GamePointer? {
        gameState := game.target;
      }
    }

    method SetPlayerColor(color: string)
      modifies this
      ensures GetPlayerColor() == color
      ensures View() == old(View()).(playerColor := color)
    {
      playerColor := color;
    }
  }

  // ---------------------------------------------------------------------
  // What a command handler acts on and reports

  /** Everything a handler can read or change: the session, the transport
      state of its client, and the client's verbose flag. */
  datatype World = World(session: SessionView, wire: Api.Wire, clientVerbose: bool)

  /** How a finished game ended, as the move handlers announce it. */
  datatype GameEnd = Won(winner: string) | Stalemated | Drawn

  /** What a handler announces besides its error: nothing, a finished game,
      that the computer is to move, or whether a long poll saw new moves. */
  datatype Notice = Quiet | Ended(end: GameEnd) | ComputerToMove | Polled(updated: bool)

  /** A handler's effect: the new world, the returned error, the announcement. */
  datatype Step = Step(world: World, outcome: Outcome, notice: Notice)

  ghost function WorldOf(s: Session): World
    reads s, s.client
  {
    World(s.View(), s.client.State(), s.client.verbose)
  }

  /** The session and its client agree: the client sends the session's
      token to the session's base URL without trailing slashes; the player
      colour is one of the three documented values; the move count is a
      count. */
  predicate Coherent(w: World) {
    && w.wire.token == w.session.authToken
    && w.wire.baseURL == TrimRightChar(w.session.apiBaseURL, '/')
    && (w.session.playerColor == "w" || w.session.playerColor == "b" || w.session.playerColor == "")
    && w.session.lastMoveCount >= 0
  }

  /** No handler touches either verbose flag, and every handler keeps the
      session coherent with its client. */
  predicate Keeps(w: World, u: World) {
    && u.clientVerbose == w.clientVerbose
    && u.session.verbose == w.session.verbose
    && (Coherent(w) ==> Coherent(u))
  }
}
