/** The HTTP transport of the command-line client (api/client.go).

    The service is an oracle: a `Client` holds the replies the service will
    give, in order, and records every request it issues. A reply arrives
    already decoded (`Payload`); the HTTP exchange itself and JSON decoding
    are not modelled. */
module Api {
  import opened Wrappers
  import opened Text
  import opened ApiTypes

  /** The body handed to `doRequest`, before JSON encoding. */
  datatype RequestBody =
    | CreateBody(create: CreateGameRequest)
    | MoveBody(move: string)
    | UndoBody(count: int)
    | RegisterBody(username: string, email: string, password: string)
    | LoginBody(identifier: string, password: string)
    | JsonText(text: string)    // a raw body that parses as JSON: sent as that value
    | JsonString(text: string)  // a raw body that does not parse: sent as a JSON string

  datatype Request = Request(verb: string, url: string, headers: map<string, string>, body: Option<RequestBody>)

  /** A response body as the client's decoder would see it. */
  datatype Payload =
    | NoBody
    | GameBody(game: GameResponse)
    | BoardBody(board: BoardResponse)
    | AuthBody(auth: AuthResponse)
    | UserBody(user: UserResponse)
    | HealthBody(health: HealthResponse)
    | ErrorBody(error: ErrorResponse)
    | Unparsed(raw: string)

  /** One round trip: the connection failed, or the service answered. */
  datatype Exchange = Unreachable(reason: string) | Response(status: nat, payload: Payload)

  /** The transport state every request depends on or changes. */
  datatype Wire = Wire(baseURL: string, token: string, replies: seq<Exchange>, sent: seq<Request>)

  /** A transport call's new state and its decoded result. */
  datatype Reply<+T> = Reply(wire: Wire, result: Result<T>)

  const NoReply: string := "connection refused"
  const DecodeError: string := "response parse error"

  // ---------------------------------------------------------------------
  // Endpoint paths

  const GamesPath: string := "/api/v1/games"
  const HealthPath: string := "/health"
  const RegisterPath: string := "/api/v1/auth/register"
  const LoginPath: string := "/api/v1/auth/login"
  const MePath: string := "/api/v1/auth/me"

  function GamePath(gameId: string): string { GamesPath + "/" + gameId }
  function MovesPath(gameId: string): string { GamePath(gameId) + "/moves" }
  function UndoPath(gameId: string): string { GamePath(gameId) + "/undo" }
  function BoardPath(gameId: string): string { GamePath(gameId) + "/board" }

  const PollQuery: string := "?wait=true&moveCount="

  /** The long-poll variant of a game fetch, carrying the known move count. */
  function PollPath(gameId: string, moveCount: int): string {
    GamePath(gameId) + PollQuery + IntToString(moveCount)
  }

  /** The service reads back exactly the move count the client sent: the
      long-poll path is the game's path, the query, and a count `Atoi` parses
      to the same number. */
  lemma PollPathCarriesCount(gameId: string, moveCount: int)
    requires MinInt64 <= moveCount <= MaxInt64
    ensures HasPrefix(PollPath(gameId, moveCount), GamePath(gameId) + PollQuery)
    ensures var n := |GamePath(gameId) + PollQuery|;
            Atoi(PollPath(gameId, moveCount)[n..]) == Parsed(moveCount, true)
  {
    var head := GamePath(gameId) + PollQuery;
    var p := PollPath(gameId, moveCount);
    assert p == head + IntToString(moveCount);
    assert p[|head|..] == IntToString(moveCount);
    AtoiOfIntToString(moveCount);
  }

  // ---------------------------------------------------------------------
  // Request construction

  /** Headers of a request: a JSON content type exactly when there is a body,
      bearer authorization exactly when a token is set. */
  function Headers(hasBody: bool, token: string): (h: map<string, string>)
    ensures "Content-Type" in h <==> hasBody
    ensures hasBody ==> h["Content-Type"] == "application/json"
    ensures "Authorization" in h <==> token != ""
    ensures token != "" ==> h["Authorization"] == "Bearer " + token
    ensures h.Keys <= {"Content-Type", "Authorization"}
  {
    var typed: map<string, string> := if hasBody then map["Content-Type" := "application/json"] else map[];
    if token != "" then typed["Authorization" := "Bearer " + token] else typed
  }

  /** The request `doRequest` issues: the base URL followed by the path. */
  function BuildRequest(baseURL: string, token: string, verb: string, path: string, body: Option<RequestBody>): (r: Request)
    ensures r.url == baseURL + path && r.verb == verb && r.body == body
    ensures ("Authorization" in r.headers) <==> token != ""
    ensures ("Content-Type" in r.headers) <==> body.Some?
  {
    Request(verb, baseURL + path, Headers(body.Some?, token), body)
  }

  /** `RawRequest`'s body: none for empty text or JSON `null`, the parsed value
      when the text is JSON, otherwise the text itself as a JSON string.
      `isJson` stands for `json.Unmarshal` succeeding. */
  function RawBody(text: string, isJson: string -> bool): (b: Option<RequestBody>)
    ensures b.None? <==> text == "" || IsJsonNull(text)
    ensures b == Some(JsonString(text)) <==> text != "" && !IsJsonNull(text) && !isJson(text)
    ensures b == Some(JsonText(text)) <==> text != "" && !IsJsonNull(text) && isJson(text)
  {
    if text == "" || IsJsonNull(text) then None
    else if isJson(text) then Some(JsonText(text))
    else Some(JsonString(text))
  }

  predicate IsJsonSpace(c: char) { c == ' ' || c == '\t' || c == '\n' || c == '\r' }

  function TrimJsonSpace(s: string): string
    decreases |s|
  {
    if s != [] && IsJsonSpace(s[0]) then TrimJsonSpace(s[1..])
    else if s != [] && IsJsonSpace(s[|s| - 1]) then TrimJsonSpace(s[..|s| - 1])
    else s
  }

  /** The JSON literal `null`, which decodes to a nil body. */
  predicate IsJsonNull(s: string) { TrimJsonSpace(s) == "null" }

  // ---------------------------------------------------------------------
  // Response classification

  function StatusError(status: nat): string {
    "request failed with status " + NatToString(status)
  }

  /** `doRequest`'s verdict on one exchange: a connection failure or a status
      of 400 or more is an error; anything else hands the payload on. */
  function Settle(ex: Exchange): (r: Result<Payload>)
    ensures ex.Response? && ex.status >= 400 ==> r == Err(StatusError(ex.status))
    ensures ex.Response? && ex.status < 400 ==> r == Ok(ex.payload)
    ensures ex.Unreachable? ==> r == Err(ex.reason)
  {
    match ex
    case Unreachable(reason) => Err(reason)
    case Response(status, payload) =>
      if status >= 400 then Err(StatusError(status)) else Ok(payload)
  }

  /** The characters of an HTTP token (section 3.2.6 of RFC 7230): the only
      characters `http.NewRequest` accepts in a method. */
  predicate IsTokenChar(c: char) {
    || ('a' <= c <= 'z') || ('A' <= c <= 'Z') || ('0' <= c <= '9')
    || c == '!' || c == '#' || c == '$' || c == '%' || c == '&' || c == '\'' || c == '*'
    || c == '+' || c == '-' || c == '.' || c == '^' || c == '_' || c == '`' || c == '|' || c == '~'
  }

  /** `http.NewRequest`'s method check: an empty method stands for GET, and
      any other method must be a token. */
  predicate ValidMethod(verb: string) {
    forall i :: 0 <= i < |verb| ==> IsTokenChar(verb[i])
  }

  /** The error `http.NewRequest` returns for a method that is not a token. */
  function InvalidMethodError(verb: string): string {
    "net/http: invalid method \"" + verb + "\""
  }

  /** The client's own methods all pass the check; only `raw` can send one
      that fails it. */
  lemma FixedVerbsValid()
    ensures ValidMethod("GET") && ValidMethod("POST") && ValidMethod("DELETE")
  {
  }

  /** One round trip: the next scripted reply is consumed (a connection
      failure once the script is exhausted) and the request is logged. */
  function Transmit(w: Wire, verb: string, path: string, body: Option<RequestBody>): (r: Reply<Payload>)
    ensures r.wire.sent == w.sent + [BuildRequest(w.baseURL, w.token, verb, path, body)]
    ensures r.wire.baseURL == w.baseURL && r.wire.token == w.token
    ensures w.replies != [] ==> r.wire.replies == w.replies[1..] && r.result == Settle(w.replies[0])
    ensures w.replies == [] ==> r.wire.replies == [] && r.result == Err(NoReply)
  {
    var ex := if w.replies != [] then w.replies[0] else Unreachable(NoReply);
    var rest := if w.replies != [] then w.replies[1..] else [];
    Reply(w.(replies := rest, sent := w.sent + [BuildRequest(w.baseURL, w.token, verb, path, body)]), Settle(ex))
  }

  // An empty body leaves the result at Go's zero value; a body of another
  // shape is a decode error.

  function AsGame(r: Result<Payload>): Result<GameResponse> {
    match r
    case Err(m) => Err(m)
    case Ok(NoBody) => Ok(ZeroGame)
    case Ok(GameBody(g)) => Ok(g)
    case Ok(_) => Err(DecodeError)
  }

  function AsBoard(r: Result<Payload>): Result<BoardResponse> {
    match r
    case Err(m) => Err(m)
    case Ok(NoBody) => Ok(ZeroBoard)
    case Ok(BoardBody(b)) => Ok(b)
    case Ok(_) => Err(DecodeError)
  }

  function AsAuth(r: Result<Payload>): Result<AuthResponse> {
    match r
    case Err(m) => Err(m)
    case Ok(NoBody) => Ok(ZeroAuth)
    case Ok(AuthBody(a)) => Ok(a)
    case Ok(_) => Err(DecodeError)
  }

  function AsUser(r: Result<Payload>): Result<UserResponse> {
    match r
    case Err(m) => Err(m)
    case Ok(NoBody) => Ok(ZeroUser)
    case Ok(UserBody(u)) => Ok(u)
    case Ok(_) => Err(DecodeError)
  }

  function AsHealth(r: Result<Payload>): Result<HealthResponse> {
    match r
    case Err(m) => Err(m)
    case Ok(NoBody) => Ok(ZeroHealth)
    case Ok(HealthBody(h)) => Ok(h)
    case Ok(_) => Err(DecodeError)
  }

  /** A call with a nil result pointer: the body is never decoded. */
  function Discard(r: Result<Payload>): Outcome {
    if r.Err? then Fail(r.message) else Pass
  }

  /** A failing status never yields a game, whatever the body holds; a
      success status with an empty body yields the zero game. */
  lemma GameFetchStatus(ex: Exchange)
    ensures ex.Response? && ex.status >= 400 ==> AsGame(Settle(ex)) == Err(StatusError(ex.status))
    ensures ex.Response? && ex.status < 400 && ex.payload == NoBody ==> AsGame(Settle(ex)) == Ok(ZeroGame)
    ensures AsGame(Settle(ex)).Ok? ==> ex.Response? && ex.status < 400
  {
  }

  // ---------------------------------------------------------------------
  // The endpoints, as functions of the transport state

  function HealthCall(w: Wire): Reply<HealthResponse> {
    var r := Transmit(w, "GET", HealthPath, None);
    Reply(r.wire, AsHealth(r.result))
  }

  function CreateGameCall(w: Wire, req: CreateGameRequest): Reply<GameResponse> {
    var r := Transmit(w, "POST", GamesPath, Some(CreateBody(req)));
    Reply(r.wire, AsGame(r.result))
  }

  function GetGameCall(w: Wire, gameId: string): Reply<GameResponse> {
    var r := Transmit(w, "GET", GamePath(gameId), None);
    Reply(r.wire, AsGame(r.result))
  }

  function PollGameCall(w: Wire, gameId: string, moveCount: int): Reply<GameResponse> {
    var r := Transmit(w, "GET", PollPath(gameId, moveCount), None);
    Reply(r.wire, AsGame(r.result))
  }

  function DeleteGameCall(w: Wire, gameId: string): Reply<Payload> {
    Transmit(w, "DELETE", GamePath(gameId), None)
  }

  function MakeMoveCall(w: Wire, gameId: string, move: string): Reply<GameResponse> {
    var r := Transmit(w, "POST", MovesPath(gameId), Some(MoveBody(move)));
    Reply(r.wire, AsGame(r.result))
  }

  function UndoMovesCall(w: Wire, gameId: string, count: int): Reply<GameResponse> {
    var r := Transmit(w, "POST", UndoPath(gameId), Some(UndoBody(count)));
    Reply(r.wire, AsGame(r.result))
  }

  function GetBoardCall(w: Wire, gameId: string): Reply<BoardResponse> {
    var r := Transmit(w, "GET", BoardPath(gameId), None);
    Reply(r.wire, AsBoard(r.result))
  }

  function RegisterCall(w: Wire, username: string, password: string, email: string): Reply<AuthResponse> {
    var r := Transmit(w, "POST", RegisterPath, Some(RegisterBody(username, email, password)));
    Reply(r.wire, AsAuth(r.result))
  }

  function LoginCall(w: Wire, identifier: string, password: string): Reply<AuthResponse> {
    var r := Transmit(w, "POST", LoginPath, Some(LoginBody(identifier, password)));
    Reply(r.wire, AsAuth(r.result))
  }

  function CurrentUserCall(w: Wire): Reply<UserResponse> {
    var r := Transmit(w, "GET", MePath, None);
    Reply(r.wire, AsUser(r.result))
  }

  /** A raw request: a method that is not a token is refused before anything
      is sent; any other request makes one round trip. */
  function RawCall(w: Wire, verb: string, path: string, body: string, isJson: string -> bool): (r: Reply<Payload>)
    ensures !ValidMethod(verb) ==> r == Reply(w, Err(InvalidMethodError(verb)))
    ensures ValidMethod(verb) ==> r.wire.sent == w.sent + [BuildRequest(w.baseURL, w.token, verb, path, RawBody(body, isJson))]
  {
    if !ValidMethod(verb) then Reply(w, Err(InvalidMethodError(verb)))
    else Transmit(w, verb, path, RawBody(body, isJson))
  }

  // ---------------------------------------------------------------------
  // The client object

  class Client {
    var baseURL: string
    var authToken: string
    var verbose: bool
    /** What the service will answer, in order. */
    var replies: seq<Exchange>
    /** Every request issued so far. */
    ghost var sent: seq<Request>

    ghost function State(): Wire
      reads this
    {
      Wire(baseURL, authToken, replies, sent)
    }

    /** `api.New`: the URL is kept as given. */
    constructor (url: string, script: seq<Exchange>)
      ensures State() == Wire(url, "", script, []) && !verbose
    {
      baseURL := url;
      authToken := "";
      verbose := false;
      replies := script;
      sent := [];
    }

    method SetVerbose(v: bool)
      modifies this
      ensures verbose == v && State() == old(State())
    {
      verbose := v;
    }

    /** Stores the URL with every trailing '/' removed. */
    method SetBaseURL(url: string)
      modifies this
      ensures State() == old(State()).(baseURL := TrimRightChar(url, '/'))
      ensures verbose == old(verbose)
    {
      baseURL := TrimRightChar(url, '/');
    }

    method SetToken(token: string)
      modifies this
      ensures State() == old(State()).(token := token)
      ensures verbose == old(verbose)
    {
      authToken := token;
    }

    method DoRequest(verb: string, path: string, body: Option<RequestBody>) returns (r: Result<Payload>)
      modifies this
      ensures ValidMethod(verb) ==> Reply(State(), r) == Transmit(old(State()), verb, path, body)
      ensures !ValidMethod(verb) ==> State() == old(State()) && r == Err(InvalidMethodError(verb))
      ensures verbose == old(verbose)
    {
      if !ValidMethod(verb) {
        return Err(InvalidMethodError(verb));
      }
      sent := sent + [BuildRequest(baseURL, authToken, verb, path, body)];
      var ex: Exchange;
      if replies != [] {
        ex := replies[0];
        replies := replies[1..];
      } else {
        ex := Unreachable(NoReply);
      }
      if ex.Unreachable? {
        r := Err(ex.reason);
      } else if ex.status >= 400 {
        r := Err(StatusError(ex.status));
      } else {
        r := Ok(ex.payload);
      }
    }

    method Health() returns (r: Result<HealthResponse>)
      modifies this
      ensures Reply(State(), r) == HealthCall(old(State())) && verbose == old(verbose)
    {
      FixedVerbsValid();
      var p := DoRequest("GET", HealthPath, None);
      r := AsHealth(p);
    }

    method CreateGame(req: CreateGameRequest) returns (r: Result<GameResponse>)
      modifies this
      ensures Reply(State(), r) == CreateGameCall(old(State()), req) && verbose == old(verbose)
    {
      FixedVerbsValid();
      var p := DoRequest("POST", GamesPath, Some(CreateBody(req)));
      r := AsGame(p);
    }

    method GetGame(gameId: string) returns (r: Result<GameResponse>)
      modifies this
      ensures Reply(State(), r) == GetGameCall(old(State()), gameId) && verbose == old(verbose)
    {
      FixedVerbsValid();
      var p := DoRequest("GET", GamePath(gameId), None);
      r := AsGame(p);
    }

    method GetGameWithPoll(gameId: string, moveCount: int) returns (r: Result<GameResponse>)
      modifies this
      ensures Reply(State(), r) == PollGameCall(old(State()), gameId, moveCount) && verbose == old(verbose)
    {
      FixedVerbsValid();
      var p := DoRequest("GET", PollPath(gameId, moveCount), None);
      r := AsGame(p);
    }

    method DeleteGame(gameId: string) returns (r: Outcome)
      modifies this
      ensures var c := DeleteGameCall(old(State()), gameId);
              State() == c.wire && r == Discard(c.result) && verbose == old(verbose)
    {
      FixedVerbsValid();
      var p := DoRequest("DELETE", GamePath(gameId), None);
      r := Discard(p);
    }

    method MakeMove(gameId: string, move: string) returns (r: Result<GameResponse>)
      modifies this
      ensures Reply(State(), r) == MakeMoveCall(old(State()), gameId, move) && verbose == old(verbose)
    {
      FixedVerbsValid();
      var p := DoRequest("POST", MovesPath(gameId), Some(MoveBody(move)));
      r := AsGame(p);
    }

    method UndoMoves(gameId: string, count: int) returns (r: Result<GameResponse>)
      modifies this
      ensures Reply(State(), r) == UndoMovesCall(old(State()), gameId, count) && verbose == old(verbose)
    {
      FixedVerbsValid();
      var p := DoRequest("POST", UndoPath(gameId), Some(UndoBody(count)));
      r := AsGame(p);
    }

    method GetBoard(gameId: string) returns (r: Result<BoardResponse>)
      modifies this
      ensures Reply(State(), r) == GetBoardCall(old(State()), gameId) && verbose == old(verbose)
    {
      FixedVerbsValid();
      var p := DoRequest("GET", BoardPath(gameId), None);
      r := AsBoard(p);
    }

    method Register(username: string, password: string, email: string) returns (r: Result<AuthResponse>)
      modifies this
      ensures Reply(State(), r) == RegisterCall(old(State()), username, password, email) && verbose == old(verbose)
    {
      FixedVerbsValid();
      var p := DoRequest("POST", RegisterPath, Some(RegisterBody(username, email, password)));
      r := AsAuth(p);
    }

    method Login(identifier: string, password: string) returns (r: Result<AuthResponse>)
      modifies this
      ensures Reply(State(), r) == LoginCall(old(State()), identifier, password) && verbose == old(verbose)
    {
      FixedVerbsValid();
      var p := DoRequest("POST", LoginPath, Some(LoginBody(identifier, password)));
      r := AsAuth(p);
    }

    method GetCurrentUser() returns (r: Result<UserResponse>)
      modifies this
      ensures Reply(State(), r) == CurrentUserCall(old(State())) && verbose == old(verbose)
    {
      FixedVerbsValid();
      var p := DoRequest("GET", MePath, None);
      r := AsUser(p);
    }

    method RawRequest(verb: string, path: string, body: string, isJson: string -> bool) returns (r: Outcome)
      modifies this
      ensures var c := RawCall(old(State()), verb, path, body, isJson);
              State() == c.wire && r == Discard(c.result) && verbose == old(verbose)
    {
      var p := DoRequest(verb, path, RawBody(body, isJson));
      r := Discard(p);
    }
  }
}
