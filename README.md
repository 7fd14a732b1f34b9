# Chess client, modelled in Dafny

This project models the client side of a chess service. It has three parts.

- The command-line debug client, written in Go and built natively or for WebAssembly. Its parts are:
  - a session record holding the connection, login and game context;
  - a registry that maps command names and short aliases to handlers;
  - the game, auth and debug handlers;
  - an HTTP API client;
  - the coloured prompt and the coloured board renderer;
  - the read-eval loop.
- The browser bridge of the WebAssembly build (`terminal.js`). It is a line editor over the key stream of an xterm terminal, and it redirects the Go runtime's stdin and stdout file calls to that terminal.
- The browser client (`app.js`). It is a single page that keeps a `gameState` record and renders the board, move history, turn and server indicators from it.

How the model is organised:

- The HTTP transport is a scripted oracle. `Api.Client` holds the replies still to come. A ghost log records every request sent, and `Api.Wire` is the pure mirror of that state.
- Each handler is one method over the mutable `Sessions.Session` and its client. Its postcondition says the new state, the returned error and the announcement equal a pure step function of the old state, such as `GameCommands.MoveStep`.
- The lemmas beside each step state what the handler promises:
  - guards;
  - what is adopted from a response;
  - what is left alone;
  - the invariant `Coherent`: the client sends the session's token to the session's base URL, the player colour is "w", "b" or "", and the move count is not negative.
- The read-eval loop (`Repl.Serve`, `Repl.RunClient`) is proved against the pure `Repl.Loop`. The lemmas show that the whole run keeps the session coherent.
- The terminal bridge is the class `TerminalBridge.Terminal`. The pure key editor `EditorStep` specifies it, and its reads write into the Go runtime's `array<byte>`.
- The web client is the class `WebClient.WebGame`. Pure functions specify its parts: the turn indicator, click handling, the history text, the board walk and error classification.

Names: `string` is `seq<char>`. Go's `strings` functions are modelled in module `Text`: `Fields`, `TrimSpace`, `TrimRight`, `TrimSuffix`, `ToUpper`, `ToLower` and `strconv.Atoi`. JavaScript's `trim` is modelled by `WebClient.JsTrim`.

## Model

| member | source | states |
|---|---|---|
| Sessions.Session.constructor | cli-client/chess-client-cli/main.go:33-37 | a new session has the given base URL and client, and every other field is empty, zero, false or unset |
| Sessions.Session.SetAPIBaseURL | cli-client/client/session/session.go:25 | the base URL becomes the argument; no other field changes |
| Sessions.Session.SetCurrentGame | cli-client/client/session/session.go:27 | the current game id becomes the argument; no other field changes |
| Sessions.Session.SetCurrentUser | cli-client/client/session/session.go:29 | the user id becomes the argument; no other field changes |
| Sessions.Session.SetAuthToken | cli-client/client/session/session.go:31 | the token becomes the argument; no other field changes |
| Sessions.Session.SetUsername | cli-client/client/session/session.go:33 | the username becomes the argument; no other field changes |
| Sessions.Session.SetLastMoveCount | cli-client/client/session/session.go:35 | the move count becomes the argument; no other field changes |
| Sessions.Session.SetGameState | cli-client/client/session/session.go:38-42 | a game pointer, even a nil one, replaces the snapshot; a value of any other type leaves the session unchanged |
| Sessions.Session.SetPlayerColor | cli-client/client/session/session.go:43 | the player colour becomes the argument; no other field changes |
| Api.PollPathCarriesCount | cli-client/client/api/client.go:177-182 | the long-poll path is the game path plus `?wait=true&moveCount=`, and the rest of the path parses back to exactly the move count sent (64-bit range) |
| Api.Headers | cli-client/client/api/client.go:69-74 | the JSON content type is present exactly when there is a body; `Bearer <token>` authorization is present exactly when a token is set; there are no other headers |
| Api.BuildRequest | cli-client/client/api/client.go:47-74 | the URL is the base URL followed by the path; verb and body are kept; the headers follow the body and the token |
| Api.RawBody | cli-client/client/api/client.go:236-246 | an empty text sends no body, and so does one that parses as JSON `null`; JSON text is sent as JSON; any other text is sent as a JSON string |
| Api.Settle | cli-client/client/api/client.go:126-154 | a status of 400 or more yields "request failed with status N"; a lower status passes the payload on; a connection failure yields its error |
| Api.Transmit | cli-client/client/api/client.go:47-155 | exactly one request is appended to the log; base URL and token stay; the first scripted reply is consumed and settled; with no reply left the result is an error |
| Api.GameFetchStatus | cli-client/client/api/client.go:145-154 | a game fetch fails with the status error at 400 and above; an empty 2xx/3xx body gives the zero game; a successful fetch implies a status below 400 |
| Api.Client.constructor | cli-client/client/api/client.go:25-32 | a new client has the given base URL, no token, an empty log, and verbose off |
| Api.Client.SetVerbose | cli-client/client/api/client.go:34-36 | only the verbose flag changes |
| Api.Client.SetBaseURL | cli-client/client/api/client.go:39-41 | the base URL becomes the argument without its trailing slashes; nothing else changes |
| Api.Client.SetToken | cli-client/client/api/client.go:43-45 | only the token changes |
| Api.Client.DoRequest | cli-client/client/api/client.go:47-155 | a method that is not an HTTP token is refused with `http.NewRequest`'s error before anything is sent, leaving the transport state as it was; any other request gives the transport state and result of `Transmit`; verbose is untouched |
| Api.Client.Health | cli-client/client/api/client.go:159-163 | sends one GET to the health path and decodes a health response |
| Api.Client.CreateGame | cli-client/client/api/client.go:165-169 | sends one POST of the request to the games path and decodes a game |
| Api.Client.GetGame | cli-client/client/api/client.go:171-175 | sends one GET to the game's path and decodes a game |
| Api.Client.GetGameWithPoll | cli-client/client/api/client.go:177-182 | sends one GET to the long-poll path carrying the move count, and decodes a game |
| Api.Client.DeleteGame | cli-client/client/api/client.go:184-186 | sends one DELETE to the game's path; only success or the error is reported |
| Api.Client.MakeMove | cli-client/client/api/client.go:188-193 | sends one POST of the move to the game's moves path and decodes a game |
| Api.Client.UndoMoves | cli-client/client/api/client.go:195-200 | sends one POST of the count to the game's undo path and decodes a game |
| Api.Client.GetBoard | cli-client/client/api/client.go:202-206 | sends one GET to the game's board path and decodes a board |
| Api.Client.Register | cli-client/client/api/client.go:208-217 | sends one POST of username, password and email to the register path and decodes an auth response |
| Api.Client.Login | cli-client/client/api/client.go:219-227 | sends one POST of identifier and password to the login path and decodes an auth response |
| Api.Client.GetCurrentUser | cli-client/client/api/client.go:229-233 | sends one GET to the current-user path and decodes a user |
| Api.RawCall | cli-client/client/api/client.go:63-66 | an invalid method leaves the transport untouched and yields the invalid-method error; a valid one appends exactly the request built from the verb, the path and the `RawBody` body |
| Api.Client.RawRequest | cli-client/client/api/client.go:236-246 | refuses a method that is not an HTTP token without sending; otherwise sends one request with the given verb and path, the body chosen as `RawBody` says; only success or the error is reported |
| Commands.RegisteredLookup | cli-client/client/command/registry.go:60-65 | after registering, the command's name leads to it, and so does its short name when it has one; every other key keeps its command; no other key appears |
| Commands.RegisterAllLastWins | cli-client/client/command/registry.go:60-65 | registering a list registers its commands one after another, so a later command overrides an earlier one on a shared key |
| Commands.Resolve | cli-client/client/command/registry.go:67-81 | a blank line is ignored; an unknown first word is reported as unknown; otherwise the first word picks the command and the remaining words are its arguments, in order |
| Commands.HelpStep | cli-client/client/command/registry.go:93-108 | help changes nothing; it fails with "unknown command: X" exactly when its first argument is not a registered key |
| Commands.RunGame | cli-client/client/command/registry.go:88-90 | running a game handler changes the session, the client and the result exactly as that handler's step says |
| Commands.RunAuth | cli-client/client/command/registry.go:88-90 | running an auth handler changes the session, the client and the result exactly as that handler's step says |
| Commands.RunDebug | cli-client/client/command/registry.go:88-90 | running a debug handler changes the session, the client and the result exactly as that handler's step says |
| Commands.Registry.constructor | cli-client/client/command/registry.go:28-58 | the table holds the game, auth and debug commands, then help (`?`) and exit (`x`), each under its name and alias |
| Commands.Registry.Register | cli-client/client/command/registry.go:60-65 | the table becomes the old one with the command registered under its name and alias |
| Commands.Registry.RegisterGameCommands | cli-client/client/command/game.go:17-89 | registers new, join, move, computer, undo, show, state, delete and poll with their aliases, in that order |
| Commands.Registry.RegisterAuthCommands | cli-client/client/command/auth.go:15-55 | registers register, login, logout, whoami and user with their aliases, in that order |
| Commands.Registry.RegisterDebugCommands | cli-client/client/command/debug.go:14-38 | registers health, url and raw with their aliases, in that order |
| Commands.Registry.Help | cli-client/client/command/registry.go:93-169 | help leaves the world as it is and fails only on an unknown command name |
| Commands.Registry.Run | cli-client/client/command/registry.go:88-90 | running the handler a command names has exactly that handler's effect |
| Commands.Registry.Execute | cli-client/client/command/registry.go:67-91 | a line is resolved as `Resolve` says. A blank or unknown line changes nothing. Otherwise the client's verbose flag is set from the session, then the handler runs. An error is reported, never returned |
| Commands.AliasDispatch | cli-client/client/command/registry.go:60-81 | a command reached through its alias gets the same arguments as one reached through its name |
| Commands.BlankIgnored | cli-client/client/command/registry.go:68-71 | a line of white space only is ignored and changes nothing |
| Commands.UnknownIgnored | cli-client/client/command/registry.go:76-81 | an unknown command changes nothing, not even the client's verbose flag |
| Commands.GameHandlersKeep | cli-client/client/command/game.go:91-514 | every game handler leaves both verbose flags alone and keeps the session coherent with its client |
| Commands.AuthHandlersKeep | cli-client/client/command/auth.go:57-169 | every auth handler leaves both verbose flags alone and keeps the session coherent with its client |
| Commands.DebugHandlersKeep | cli-client/client/command/debug.go:40-93 | every debug handler leaves both verbose flags alone and keeps the session coherent with its client |
| Commands.RunHandlerKeeps | cli-client/client/command/registry.go:88-90 | whichever handler a command names, running it leaves both verbose flags alone and keeps the session coherent with its client |
| Commands.ExecuteKeepsCoherent | cli-client/client/command/registry.go:67-91 | executing any line keeps a coherent session coherent and never changes the session's verbose flag; when a command runs, the client's flag equals the session's |
| GameCommands.Adopt | cli-client/client/command/game.go:256-257 | adopting a response stores it as the snapshot and its move count as the session's; nothing else changes |
| GameCommands.SideOf | cli-client/client/command/game.go:221-230 | with a user set, the colour is "w" exactly when the user has white, "b" exactly when they have black and not white, and "" when they have neither seat; with no user the colour is kept |
| GameCommands.NewGameSideAsWritten | cli-client/client/command/game.go:183-190 | new game as written: the colour is set only when the user has a seat; otherwise the earlier colour stays |
| GameCommands.NewGameKeepsStaleSide | cli-client/client/command/game.go:183-190 | a user without a seat in the new game keeps "w" from the previous game, while join would give "" |
| GameCommands.NewGameSideAgrees | cli-client/client/command/game.go:183-190 | when the user has a seat, or no user is set, the written colour logic and `SideOf` agree |
| GameCommands.Winner | cli-client/client/command/game.go:263-266 | on checkmate White wins exactly when Black is to move; otherwise Black wins |
| GameCommands.EndNotice | cli-client/client/command/game.go:261-271 | checkmate, stalemate and draw are announced, and nothing else; the checkmate winner is the side not to move |
| GameCommands.MoveNotice | cli-client/client/command/game.go:261-285 | an ended game is announced as ended; an ongoing game whose side to move is a computer is announced as the computer's turn; otherwise nothing is announced |
| GameCommands.TakeSide | cli-client/client/command/game.go:221-230 | only the player colour changes, and it becomes `SideOf` the current user |
| GameCommands.NumberOr | cli-client/client/command/game.go:110-127 | an empty answer gives the default; otherwise the trimmed answer is parsed as a number |
| GameCommands.SeatConfig | cli-client/client/command/game.go:97-161 | a seat is a computer exactly when the answer is "c" in any case; a computer's level and search time come from the answers, or from the defaults when those are blank; a human seat has neither |
| GameCommands.ReadSeat | cli-client/client/command/game.go:97-161 | reading one seat's answers gives the `SeatConfig` of those answers |
| GameCommands.NewGame | cli-client/client/command/game.go:91-201 | new game sends the request built from the answers, then behaves as `StartGame` |
| GameCommands.StartGame | cli-client/client/command/game.go:174-201 | on success the game is adopted as current and the colour is taken; a computer playing white is announced; on failure only the transport changes |
| GameCommands.JoinGame | cli-client/client/command/game.go:203-236 | join without an id fails with the usage text; otherwise the game is fetched, adopted as current and the colour taken; a failed fetch changes only the transport |
| GameCommands.MakeMove | cli-client/client/command/game.go:238-288 | move checks its argument, then the current game; it sends the move, adopts the response and announces the end or the computer's turn |
| GameCommands.AwaitComputer | cli-client/client/command/game.go:307-338 | the wait for the computer makes at most `attempts` fetches, and at least one when any attempt remains; a settled game is never pending; a wait that times out used every attempt |
| GameCommands.AwaitComputerRequests | cli-client/client/command/game.go:307-337 | the wait appends exactly one GET of the game per fetch to the request log, and nothing else |
| GameCommands.AwaitComputerConsumes | cli-client/client/command/game.go:307-337 | the wait consumes exactly one scripted reply per fetch |
| GameCommands.AwaitComputerOrder | cli-client/client/command/game.go:307-337 | every fetch before the last failed or was still pending; a settled wait ends on the first reply that is neither, and returns that game |
| GameCommands.ComputerMove | cli-client/client/command/game.go:290-345 | computer needs a current game; it triggers the engine; a pending answer starts the bounded wait; a settled game is adopted |
| GameCommands.AwaitComputerMove | cli-client/client/command/game.go:303-345 | the wait ends in a timeout error or in the adoption of the settled game, with its end announced |
| GameCommands.Undo | cli-client/client/command/game.go:347-372 | undo needs a current game; the count defaults to 1; a count that does not parse is an error; on success the response is adopted |
| GameCommands.ShowBoard | cli-client/client/command/game.go:374-436 | show needs a current game; the session changes only when both the game and the board arrived |
| GameCommands.GameState | cli-client/client/command/game.go:438-457 | state needs a current game, and on success updates only the move count |
| GameCommands.DeleteGame | cli-client/client/command/game.go:459-482 | delete targets the argument, or the current game; deleting the current game clears its id and move count |
| GameCommands.Poll | cli-client/client/command/game.go:484-514 | poll needs a current game; it long-polls with the known move count, stores the response and reports whether moves were added |
| GameCommands.NoGameGuards | cli-client/client/command/game.go:239-246 | with no current game, move (given an argument), computer, undo, show, state and poll fail with "no current game" and change nothing |
| GameCommands.ArgumentGuards | cli-client/client/command/game.go:204-206 | join and move without an argument fail with their usage text; undo without an argument undoes one move; a count that does not parse is "invalid count: X" |
| GameCommands.NewGameAdopts | cli-client/client/command/game.go:174-181 | new game either fails and leaves the session as it was, or holds a snapshot whose move count is the session's |
| GameCommands.JoinAdopts | cli-client/client/command/game.go:212-219 | join either fails and leaves the session as it was, or holds a snapshot whose move count is the session's |
| GameCommands.MoveAdopts | cli-client/client/command/game.go:251-257 | move either fails and leaves the session as it was, or holds a snapshot whose move count is the session's |
| GameCommands.ComputerAdopts | cli-client/client/command/game.go:290-345 | computer either fails and leaves the session as it was, or holds a snapshot whose move count is the session's |
| GameCommands.UndoAdopts | cli-client/client/command/game.go:363-369 | undo either fails and leaves the session as it was, or holds a snapshot whose move count is the session's |
| GameCommands.ShowAdopts | cli-client/client/command/game.go:383-395 | show either fails and leaves the session as it was, or holds a snapshot whose move count is the session's |
| GameCommands.PollAdopts | cli-client/client/command/game.go:496-502 | poll either fails and leaves the session as it was, or holds a snapshot whose move count is the session's |
| GameCommands.JoinAdoptsGame | cli-client/client/command/game.go:217-230 | a successful join makes the argument the current game, holds a snapshot, takes the colour from the snapshot, and changes nothing else |
| GameCommands.StateTouchesOnlyCount | cli-client/client/command/game.go:450 | state changes nothing in the session but the move count, not even the snapshot |
| GameCommands.DeleteTouches | cli-client/client/command/game.go:459-482 | delete changes at most the current game and the move count. Deleting the current game clears both; deleting another game changes nothing. With neither target it fails with "no game to delete" |
| GameCommands.PollReports | cli-client/client/command/game.go:484-514 | poll sends one request to the long-poll path carrying the known move count; on success it stores the response and reports an update exactly when the response has more moves than that count |
| GameCommands.AwaitOutcome | cli-client/client/command/game.go:307-345 | the wait makes between zero and `attempts` requests. A timeout has made all of them and changed only the transport. Success holds a settled snapshot |
| GameCommands.ComputerWaitBounded | cli-client/client/command/game.go:290-345 | computer sends at most one trigger plus the fixed number of poll attempts |
| GameCommands.NewGameKeeps | cli-client/client/command/game.go:91-201 | new game leaves the verbose flags alone and keeps the session coherent |
| GameCommands.CreateKeeps | cli-client/client/command/game.go:174-201 | creating a game from any request leaves the verbose flags alone and keeps the session coherent |
| GameCommands.JoinKeeps | cli-client/client/command/game.go:203-236 | join leaves the verbose flags alone and keeps the session coherent |
| GameCommands.MoveKeeps | cli-client/client/command/game.go:238-288 | move leaves the verbose flags alone and keeps the session coherent |
| GameCommands.AwaitKeeps | cli-client/client/command/game.go:303-345 | the computer wait leaves the verbose flags alone and keeps the session coherent |
| GameCommands.ComputerKeeps | cli-client/client/command/game.go:290-345 | computer leaves the verbose flags alone and keeps the session coherent |
| GameCommands.UndoKeeps | cli-client/client/command/game.go:347-372 | undo leaves the verbose flags alone and keeps the session coherent |
| GameCommands.ShowKeeps | cli-client/client/command/game.go:374-436 | show leaves the verbose flags alone and keeps the session coherent |
| GameCommands.StateKeeps | cli-client/client/command/game.go:438-457 | state leaves the verbose flags alone and keeps the session coherent |
| GameCommands.DeleteKeeps | cli-client/client/command/game.go:459-482 | delete leaves the verbose flags alone and keeps the session coherent |
| GameCommands.PollKeeps | cli-client/client/command/game.go:484-514 | poll leaves the verbose flags alone and keeps the session coherent |
| AuthCommands.SignedIn | cli-client/client/command/auth.go:79-82 | a sign-in sets token, user id and username from the response; the client then sends that token; nothing else changes |
| AuthCommands.SignIn | cli-client/client/command/auth.go:109-112 | storing a sign-in, as login and register both do, gives exactly the `SignedIn` world |
| AuthCommands.Register | cli-client/client/command/auth.go:57-89 | register trims username and email and sends them with the password; on success the user is signed in; a password read error aborts before anything is sent |
| AuthCommands.Login | cli-client/client/command/auth.go:91-119 | login trims the identifier and sends it with the password; on success the user is signed in; a password read error aborts before anything is sent |
| AuthCommands.Logout | cli-client/client/command/auth.go:121-130 | logout clears token, user id and username, and the client's token |
| AuthCommands.Whoami | cli-client/client/command/auth.go:132-156 | whoami when not logged in does nothing; otherwise it asks the service once and changes no session field |
| AuthCommands.SetUser | cli-client/client/command/auth.go:158-169 | user without an argument fails with its usage text; otherwise only the user id changes |
| AuthCommands.PasswordFailureAborts | cli-client/client/command/auth.go:65-68 | when the password cannot be read, register and login fail with that error and change nothing |
| AuthCommands.SignInAtomic | cli-client/client/command/auth.go:79-112 | a failed register or login leaves the session and the client's token as they were; a successful one leaves the client sending the session's token |
| AuthCommands.LoginSends | cli-client/client/command/auth.go:97-104 | login sends exactly one request: the trimmed identifier and the password, to the login path |
| AuthCommands.LogoutClears | cli-client/client/command/auth.go:121-130 | logout empties the three login fields and the client token, keeps every other field, and sends nothing |
| AuthCommands.WhoamiGuard | cli-client/client/command/auth.go:133-136 | with no token whoami does nothing; it never changes the session; with a token it sends exactly one request |
| AuthCommands.SetUserOnlyId | cli-client/client/command/auth.go:158-169 | user needs an argument, and then sets exactly the user id |
| AuthCommands.RegisterKeeps | cli-client/client/command/auth.go:57-89 | register leaves the verbose flags alone and keeps the session coherent |
| AuthCommands.LoginKeeps | cli-client/client/command/auth.go:91-119 | login leaves the verbose flags alone and keeps the session coherent |
| DebugCommands.NormalizeUrl | cli-client/client/command/debug.go:65-68 | "http://" is prepended exactly when the URL starts with neither scheme, so the result always has one |
| DebugCommands.NormalizeUrlIdempotent | cli-client/client/command/debug.go:65-68 | normalising twice is normalising once |
| DebugCommands.RawBodyText | cli-client/client/command/debug.go:86-89 | the body is empty with no words after the path; otherwise splitting it on white space gives back the words it was joined from |
| DebugCommands.Health | cli-client/client/command/debug.go:40-57 | health asks the service once and changes no session field |
| DebugCommands.Url | cli-client/client/command/debug.go:59-76 | url without an argument changes nothing; with one, it stores the normalised URL in the session, and in the client without trailing slashes |
| DebugCommands.Raw | cli-client/client/command/debug.go:78-93 | raw needs a verb and a path; it sends the request with the verb upper-cased and the joined body |
| DebugCommands.UrlUpdates | cli-client/client/command/debug.go:59-76 | url with an argument changes only the session's base URL and the client's; the stored URL has a scheme |
| DebugCommands.RawSends | cli-client/client/command/debug.go:78-93 | raw with fewer than two arguments fails with its usage text. An upper-cased method that is not an HTTP token fails with the invalid-method error and sends nothing. Otherwise it sends one request: the upper-cased verb, the base URL plus the path, and the body as `RawBody` chooses it. The session never changes |
| DebugCommands.HealthReadsOnly | cli-client/client/command/debug.go:40-57 | health sends exactly one request and changes no session field |
| Display.ColoredParts | cli-client/client/display/colors.go:22-24 | coloured text opens with its colour, ends with the reset sequence, and holds exactly the text in between |
| Display.PromptShape | cli-client/client/display/colors.go:51-53 | the prompt is the text in yellow, followed by a yellow " > " and the reset sequence |
| Display.Builder.constructor | cli-client/client/display/colors.go:37-39 | a new builder holds no parts and renders as the empty string |
| Display.Builder.Add | cli-client/client/display/colors.go:41-44 | adding appends the coloured part, so the rendered string grows by exactly it; the builder itself is returned for chaining |
| BoardView.Split | cli-client/client/display/board.go:11 | a split gives at least one piece, and no piece contains the separator |
| BoardView.SplitJoin | cli-client/client/display/board.go:11 | joining the pieces with the separator gives back the board text |
| BoardView.CharColorClasses | cli-client/client/display/board.go:22-42 | on the two file-label lines, file letters are cyan; capitals (white pieces) are blue; small letters elsewhere (black pieces) are red; empty squares are white; rank digits are cyan; anything else gets the reset colour |
| BoardView.BlankLine | cli-client/client/display/board.go:14-16 | a line is skipped exactly when it holds only white space |
| BoardView.RenderBoard | cli-client/client/display/board.go:10-46 | prints every non-blank line, in order, character by character in the colour its class calls for, each followed by a line end |
| BoardView.PrintLines | cli-client/client/display/board.go:13-45 | the line loop prints every line in order and skips the blank ones |
| BoardView.PrintRow | cli-client/client/display/board.go:14-44 | one pass of the line loop prints nothing for a blank line, otherwise the line's characters and a line end |
| BoardView.PrintLine | cli-client/client/display/board.go:20-43 | the character loop prints every character of the line in order, each in its colour |
| BoardView.GlyphsOfLine | cli-client/client/display/board.go:20-43 | a printed row holds exactly the line's characters, in order, each in its class's colour |
| BoardView.BlankRowsSilent | cli-client/client/display/board.go:14-16 | a board of blank lines prints nothing |
| BoardView.ColorForTurn | cli-client/client/display/board.go:49-54 | "w" gives "White" in blue; any other turn gives "Black" in red |
| Repl.ShortId | cli-client/chess-client-cli/main.go:104 | the id shown in the prompt is the first eight characters of the game id, or all of a shorter id (the corrected reading) |
| Repl.BuildPrompt | cli-client/chess-client-cli/main.go:86-136 | the prompt is the coloured prompt of `chess`, then the user and game context, then the colour, then the turn |
| Repl.AddUser | cli-client/chess-client-cli/main.go:91-98 | adds the bracket and username parts, and only when a username is set |
| Repl.AddGame | cli-client/chess-client-cli/main.go:100-106 | adds the shortened game id in white and the closing bracket, and only when a game is set |
| Repl.AddSide | cli-client/chess-client-cli/main.go:109-115 | adds the player's side, and only when a snapshot and a colour exist |
| Repl.AddTurn | cli-client/chess-client-cli/main.go:118-133 | adds the side to move and whether it is a computer, and only when a snapshot exists |
| Repl.SideLabel | cli-client/chess-client-cli/main.go:109-115 | the side is shown exactly when a snapshot and a colour exist: "White" in blue for "w", "Black" in red otherwise |
| Repl.TurnLabel | cli-client/chess-client-cli/main.go:118-133 | the turn is shown exactly when a snapshot exists; it is coloured as `ColorForTurn`; it is tagged "(c)" exactly when the side to move is a computer |
| Repl.ContextBrackets | cli-client/chess-client-cli/main.go:91-106 | the four combinations of username and game give the four bracket layouts; with neither there is no bracket |
| Repl.PromptFrame | cli-client/chess-client-cli/main.go:86-136 | every prompt opens with `chess` in yellow and ends with the yellow " > " marker |
| Repl.PromptAsWrittenAgrees | cli-client/chess-client-cli/main.go:100-106 | the prompt as written succeeds exactly when no game is set or the id has at least eight characters, and then equals the corrected prompt |
| Repl.ShortJoinPanics | cli-client/chess-client-cli/main.go:104 | joining a game with an id shorter than eight characters succeeds, after which the prompt as written slices out of range; the corrected prompt shows the whole id |
| Repl.PreprocessCases | cli-client/chess-client-cli/main.go:62-78 | a blank line is skipped; "exit", "quit" and "x" quit; any other line is dispatched, verbose exactly when it ends in " -v", with that suffix removed |
| Repl.BlankSkipped | cli-client/chess-client-cli/main.go:62-65 | a line of white space only is skipped |
| Repl.LoopShape | cli-client/chess-client-cli/main.go:48-83 | the loop reads a prefix of the input. It consumes everything unless it quits, and a quit consumes at least that line. One prompt is printed per line read, plus one more when the input runs out |
| Repl.ExecutesIsExecutor | cli-client/client/command/registry.go:67-91 | the registry's execution is a valid executor for the loop |
| Repl.RunClient | cli-client/chess-client-cli/main.go:25-84 | a run starts from the default session and ends in the world, prompts and unread input the loop gives; it asks for a restart exactly when the user quit and the exit hook asks for one |
| Repl.Serve | cli-client/chess-client-cli/main.go:48-81 | the loop method ends in the world, prompts, quit flag and unread input of `Loop` |
| Repl.ServeEntry | cli-client/chess-client-cli/main.go:49-80 | one pass prints the prompt for the current session and quits exactly on a quit line; a quit leaves the world alone and the run ends as `Loop` ends; otherwise the run stands one line further on |
| Repl.DispatchLine | cli-client/chess-client-cli/main.go:72-80 | the verbose flag is set exactly when the line ends in " -v"; the line without that suffix is executed |
| Repl.InitialCoherent | cli-client/chess-client-cli/main.go:33-37 | the initial session is coherent with its client |
| Repl.ExecutesKeep | cli-client/client/command/registry.go:67-91 | executing any line keeps coherence and the session's verbose flag |
| Repl.LoopKeepsCoherent | cli-client/chess-client-cli/main.go:48-81 | a loop whose every step keeps coherence ends coherent |
| Repl.ClientCoherent | cli-client/chess-client-cli/main.go:25-84 | every run of the client, on any input and any server replies, ends with the session coherent with its client |
| Repl.QuitIgnoresRest | cli-client/chess-client-cli/main.go:68-70 | input ending in a quit line ends the loop; anything typed after it is left unread and changes neither the world nor the prompts |
| Repl.VerboseFollowsLine | cli-client/chess-client-cli/main.go:72-78 | after a dispatched line, the session is verbose exactly when that line ended in " -v" |
| Text.Fields | cli-client/client/command/registry.go:68 | the fields are non-empty and contain no white space |
| Text.FieldsOfLayout | cli-client/client/command/registry.go:68 | for any line built as white-space gaps around non-empty words without white space, with a non-empty gap between each two words, the fields are exactly those words, in order |
| Text.LayoutOfFields | cli-client/client/command/registry.go:68 | every line is such a layout of its fields: white-space gaps, non-empty between words, interleaved with the fields give back the line. With `Text.FieldsOfLayout`, the fields are the maximal runs without white space, in order |
| Text.FieldsOfJoin | cli-client/client/command/debug.go:86-89 | splitting words joined by spaces gives back the words |
| Text.FieldsOfBlank | cli-client/client/command/registry.go:68-71 | a line has no fields exactly when it holds only white space |
| Text.TrimLeftShape | cli-client/chess-client-cli/main.go:62 | trimming the front of a line drops only white space and keeps a suffix that does not start with white space |
| Text.TrimSpaceBlank | cli-client/chess-client-cli/main.go:62-64 | a trimmed line is empty exactly when the line read holds only white space |
| Text.TrimRightChar | cli-client/client/api/client.go:40 | the result is the longest prefix of the text not ending in the cut character, and only that character is removed |
| Text.TrimRightCharIdempotent | cli-client/client/api/client.go:40 | trimming trailing slashes twice is trimming them once |
| Text.TrimSuffix | cli-client/chess-client-cli/main.go:75 | a present suffix is removed, so adding it back gives the line; otherwise the line is kept |
| Text.ToUpper | cli-client/client/command/debug.go:83 | every character is upper-cased, in place |
| Text.AtoiOfIntToString | cli-client/client/api/client.go:179 | a 64-bit integer, printed and parsed back, gives itself |
| TerminalBridge.Utf8 | wasm-client/chess-client-wasm/terminal.js:82 | a character encodes to one to four bytes; it encodes to one byte exactly when it is ASCII, and that byte is its code |
| TerminalBridge.EncodeAscii | wasm-client/chess-client-wasm/terminal.js:82 | ASCII text encodes to its own codes, one byte per character |
| TerminalBridge.PrintableChar | wasm-client/chess-client-wasm/terminal.js:44 | a single key is printable exactly when it lies between space and tilde |
| TerminalBridge.PrintableChunk | wasm-client/chess-client-wasm/terminal.js:44 | a pasted chunk of several characters passes the printable test whenever its first character lies between space and just below tilde |
| TerminalBridge.EditorStep | wasm-client/chess-client-wasm/terminal.js:24-48 | Enter ends the line and delivers the buffer. Ctrl-C delivers an empty line. Backspace or delete removes the last character, echoing a rub-out, and does nothing on an empty buffer. Printable data is appended and echoed. Anything else is dropped |
| TerminalBridge.BackspaceUndoesKey | wasm-client/chess-client-wasm/terminal.js:32-47 | typing a printable key, then backspace or delete, restores the buffer |
| TerminalBridge.Keys | wasm-client/chess-client-wasm/terminal.js:23 | typing a text arrives as one key per character, in order |
| TerminalBridge.TypingAppends | wasm-client/chess-client-wasm/terminal.js:44-47 | typing printable characters appends exactly them to the buffer |
| TerminalBridge.EnterDeliversTyped | wasm-client/chess-client-wasm/terminal.js:25-31 | typing a printable line and pressing Enter delivers exactly that line and empties the buffer |
| TerminalBridge.LineBytes | wasm-client/chess-client-wasm/terminal.js:82-83 | a read hands over the UTF-8 of the line and a newline, cut to the requested length |
| TerminalBridge.Deliver | wasm-client/chess-client-wasm/terminal.js:81-86 | when the bytes fit at the offset, they are written there, their count is reported and every other byte is kept; otherwise the buffer is untouched and the read is rejected |
| TerminalBridge.Overwrite | wasm-client/chess-client-wasm/terminal.js:84 | the bytes land at the offset and every other byte is kept |
| TerminalBridge.Slice | wasm-client/chess-client-wasm/terminal.js:65 | the slice has at most the requested length, and equals the requested range when that range lies within the buffer |
| TerminalBridge.Terminal.constructor | wasm-client/chess-client-wasm/terminal.js:20-21 | the editor starts with an empty buffer, no waiting read and nothing on screen |
| TerminalBridge.Terminal.OnData | wasm-client/chess-client-wasm/terminal.js:23-49 | with no read waiting, keys are ignored. Otherwise the buffer, echo and delivery follow `EditorStep`. A delivered line completes the waiting read into its array, as `Deliver` says, and clears the reader |
| TerminalBridge.Terminal.Complete | wasm-client/chess-client-wasm/terminal.js:81-86 | completing a read writes the line's bytes into the request's array and records the result, as `Deliver` says |
| TerminalBridge.Terminal.Read | wasm-client/chess-client-wasm/terminal.js:75-92 | a stdin read waits for the next line; any other descriptor goes to the original read, or fails with "Invalid fd" when there is none |
| TerminalBridge.Terminal.Write | wasm-client/chess-client-wasm/terminal.js:63-73 | a write to stdout or stderr shows the bytes and reports the full length. Any other descriptor goes to the original write, or fails with "Invalid fd" when there is none |
| TerminalBridge.LineBytesFit | wasm-client/chess-client-wasm/terminal.js:82-83 | for an ASCII line a read hands over the line and its newline in full when the length allows, and otherwise the requested number of bytes |
| WebClient.IsGameOver | web-client/app.js:655-657 | a game is over exactly in the four result states; pending and empty are not results |
| WebClient.TurnIndicatorCases | web-client/app.js:104-149 | the indicator shows "thinking" exactly when the state is pending or the board is locked. Otherwise a result state shows its result whatever the turn, and any other state shows the side to move. The generic "Game Over" text is never reached |
| WebClient.Clamp | web-client/app.js:213-224 | the result lies within the bounds, keeps a value already inside them, and goes to the nearer bound otherwise |
| WebClient.SliderNav | web-client/app.js:213-224 | only the level and search-time sliders react; the level stays in 0..20 and the search time in 100..10000 |
| WebClient.SliderSteps | web-client/app.js:213-224 | arrows move the level by 1 and the search time by 100, stop at the bounds, and are undone by the opposite arrow |
| WebClient.JsTrimStart | web-client/app.js:240 | leading JavaScript white space is removed, and nothing else |
| WebClient.JsTrimEnd | web-client/app.js:240 | trailing JavaScript white space is removed, and nothing else |
| WebClient.NumberMoves | web-client/app.js:227-234 | the history loop numbers every white move and puts a space after every move |
| WebClient.PgnPair | web-client/app.js:229-234 | each full move appears as its number, a dot, then white's and black's moves |
| WebClient.PgnOpens | web-client/app.js:229-234 | any non-empty history opens with "1. " and the first move |
| WebClient.HistoryShape | web-client/app.js:226-247 | the copied history starts with "1." when there are moves; it ends with the FEN tag when a FEN is set; with neither it is empty |
| WebClient.SquareName | web-client/app.js:322 | a square's name is its file letter followed by its rank digit |
| WebClient.SquareAt | web-client/app.js:318-331 | every square built has a valid name |
| WebClient.SquaresIgnorePov | web-client/app.js:318-331 | flipping the point of view changes neither the name nor the colour of the i-th square; a1 is dark and h1 light |
| WebClient.SquareNamesDistinct | web-client/app.js:318-331 | the 64 squares have distinct names |
| WebClient.PieceColor | web-client/app.js:355 | every piece letter is classed white or black, and black exactly when it is a lower-case letter, that is when `toUpperCase` changes it |
| WebClient.WalkShape | web-client/app.js:334-363 | the walk's rank is 7 minus the number of '/' read so far; the file is never negative; every placement has a valid square, and its colour and kind are `PieceColor` and the lower-case form of a piece letter read so far (not a '/' and not a digit) |
| WebClient.EmptyRanksPlaceNothing | web-client/app.js:334-363 | a placement field of digits and slashes only places no pieces |
| WebClient.RenderBoardFromFen | web-client/app.js:334-363 | the pieces placed are those of the walk over the FEN's first field |
| WebClient.Classify | web-client/app.js:659-734 | No response is a network failure, with the server degraded. A 4xx is a client error, with the server healthy except on 429. A 5xx is a server error, with the server degraded. 400 reads as "No Moves to Undo", "Invalid Move" or "Invalid Request" by action, and 404 as "Game Not Found" |
| WebClient.Click | web-client/app.js:365-394 | clicks are ignored while locked, after the game ended, or off the player's turn. With a square selected, a click clears the selection and submits a move exactly when the square differs. Only the player's own piece can be selected; any other first click is an invalid selection |
| WebClient.ClickTwice | web-client/app.js:365-394 | clicking an own piece and then another square submits that move; clicking the same square twice only deselects |
| WebClient.CanUndo | web-client/app.js:515-521 | undo is attempted only when the board is unlocked and at least two moves were made |
| WebClient.UnlockHidesResult | web-client/app.js:510-513 | in a finished game the indicator would show the result, but the unlock as written shows the side to move instead |
| WebClient.WebGame.constructor | web-client/app.js:3-15 | the initial page state: no game, white to move, the player white, unlocked, nothing selected, no moves, no network error |
| WebClient.WebGame.SquareClick | web-client/app.js:365-394 | the selection and the action are those of `Click`; no other field changes |
| WebClient.WebGame.UndoMoves | web-client/app.js:515-521 | an undo request is sent exactly when the board is unlocked and holds at least two moves |
| WebClient.WebGame.CopyHistory | web-client/app.js:226-247 | the copied text is the numbered history with the FEN tag, trimmed |
| WebClient.WebGame.InitializeBoard | web-client/app.js:301-332 | 64 squares are built, the i-th as `SquareAt` describes it |
| WebClient.WebGame.UpdateGameDisplay | web-client/app.js:605-643 | FEN, turn and state come from the game; the move list comes from the game, or is empty when absent; the indicator follows the new state; nothing else changes |
| WebClient.WebGame.LockBoard | web-client/app.js:505-508 | the board locks and the indicator shows "thinking"; nothing else changes |
| WebClient.WebGame.UnlockBoard | web-client/app.js:510-513 | the board unlocks and the indicator follows the stored state, so a finished game keeps showing its result (the corrected reading) |
| WebClient.WebGame.HandleApiError | web-client/app.js:659-734 | the error is classified as `Classify` says. The network-error flag is set exactly for no response or a 5xx. The server light shows the classified status then, and healthy otherwise. No game field changes |
| WebClient.ServerLightFollowsFailure | web-client/app.js:688-725 | a failure with no response or a 5xx is always classified degraded; a 429 is classified degraded yet is not treated as a failure, so the light shows healthy |

## Left out

- Terminal output of the Go client is not modelled: banners, `display.Println` messages, the help listing, verbose request and response dumps, and the printed error of `Execute`. Handlers return their error as an `Outcome`, and finished games and updates are returned as a `Notice`.
- JSON encoding and decoding, HTTP and sockets are replaced by the scripted reply oracle. A reply is either a status and a decoded payload, or a connection failure. A payload that fails to decode is a payload of the wrong kind.
- The sleep between computer polls (`time.Sleep`) is not modelled. Only the number of attempts is.
- The time formatting of the health response is not modelled. Health is modelled by its request and its error.
- The restart loop of `main` and `recover`/re-panic in `runClient` are not modelled. So is the native/WebAssembly exit hook: `HandleExit` is a parameter of `RunClient`. Reading stdin is a sequence of entries, and end of input ends the loop.
- Reading a password without echo (the native and WebAssembly variants) is not modelled. It is the `password` field of `Credentials`, which may hold a read error.
- Go strings are byte strings, and `CurrentGame[:8]` slices bytes. The model slices characters.
- `Text.ToUpper`, `Text.ToLower` and `WebClient.PieceColor` map ASCII letters only.
- `BoardView.RenderBoard` returns the printed pieces instead of writing them to stdout.
- The format helpers of `display/format.go` are not part of this model.
- The xterm terminal, fitting it to the window, and loading and running the WebAssembly module are not modelled. So are `TextDecoder` on writes (the written bytes are kept raw) and the `position` argument and asynchronous callbacks of the file calls.
- TerminalBridge.EditorStep: backspace removes one character, where JavaScript removes one UTF-16 code unit. The two differ on characters outside the Basic Multilingual Plane.
- TerminalBridge.Slice: negative offsets and lengths are not modelled, because the Go runtime never passes them.
- TerminalBridge.Terminal.OnData: when the line does not fit, JavaScript's `buf.set` throws and the read never completes. The model records that as `Rejected` and leaves the buffer untouched.
- The DOM, `fetch`, timers and the clipboard of the web client are not modelled. The clipboard write is the value `CopyHistory` returns. `HandleApiError` receives only the response status, and a missing response stands for a network failure.
- Not modelled in the web client: `startNewGame`, `handleHumanMove`, `triggerComputerMove` and the `startPolling` loop, because they are `fetch` sequences around the modelled parts. Also `renderMoveHistory`, `markMatedKing`, the coordinate labels, the flash effects, the modals and the health check, because they only produce DOM output.
- Api.Transmit: only the method check of `http.NewRequest` is modelled (`Api.ValidMethod`, applied by `Api.Client.DoRequest` and `Api.RawCall`). The URL parse failures it also reports (control characters, bad `%` escapes, bad host or port) are not; such a request is sent as written.
- Api.Client.DoRequest: the error text for an invalid method is `net/http: invalid method "<verb>"`, without Go's `%q` escaping of unusual characters inside the verb.
- Api.Client.RawRequest: a path that `url.Parse` rejects is sent in the model, where the code returns the parse error without sending.
- GameCommands.NewGame: uses the corrected colour rule `SideOf`, so a signed-in user without a seat in the new game plays neither side. The code as written keeps the previous colour; that behaviour is `GameCommands.NewGameSideAsWritten` (see Findings).
- GameCommands.StartGame: takes the colour through `TakeSide`, the same corrected rule as `GameCommands.NewGame`.
- Repl.BuildPrompt: shortens the game id with the corrected `ShortId`. For a game id of one to seven characters, the code as written panics at `CurrentGame[:8]` and `runClient` crashes; that behaviour is `Repl.PromptAsWritten` (see Findings).
- Repl.AddGame: appends the corrected `ShortId` where the code as written panics on an id shorter than eight characters.
- Repl.ServeEntry: prints the corrected prompt, so the loop goes on where the code as written crashes after adopting a short game id.
- Repl.Serve: follows `Repl.Loop`, which uses the corrected prompt and never crashes on a short game id.
- Repl.LoopShape: "everything is read unless the user quits" holds for the corrected prompt. The code as written stops with a panic at the first prompt after a short game id is adopted.
- Repl.RunClient: the run goes on to the end of input where the code as written crashes on a short game id.
- WebClient.WebGame.UnlockBoard: models the corrected unlock, which keeps the result of a finished game. The written behaviour is `WebClient.UnlockedLightAsWritten` (see Findings).

Where the written code and the prose documentation of the client differ, the model follows the code, except for the three defects under Findings, whose corrected definitions the rest of the model uses (see the lines above). The code is followed here:

- `poll` stores the response whatever it holds.
- `delete` of the current game clears the game id and move count, but keeps the snapshot and the player colour, so the prompt still shows them.
- `join` with no current user keeps the previous player colour.

## Findings

| source | as written | input that shows it | evidently intended | confidence | as-written member | corrected member |
|---|---|---|---|---|---|---|
| cli-client/client/command/game.go:183-190 | `new` sets the player colour only when the user holds a seat, so the colour from the previous game survives | user "carol", player colour "w" from an earlier game, new game between "alice" and "bob": colour stays "w" | a user without a seat plays neither side (""), as `join` already does | not executed; medium | GameCommands.NewGameKeepsStaleSide | GameCommands.SideOf |
| cli-client/chess-client-cli/main.go:104 | the prompt slices `CurrentGame[:8]`, which panics for a shorter id | `join abc` with the service answering 200: the next prompt slices out of range | show the whole id when it is shorter than eight characters | not executed; medium | Repl.ShortJoinPanics | Repl.ShortId |
| web-client/app.js:510-513 | when a poll finds the game finished, `updateGameDisplay` runs while the board is still locked, so the light shows "thinking"; `unlockBoard` then calls `updateTurnIndicator('', turn)`, which shows the side to move | the poll sees state "white wins" with turn "b": the indicator goes from "thinking" to "black", and the result is never shown | keep showing the result of a finished game | not executed; low | WebClient.UnlockHidesResult | WebClient.WebGame.UnlockBoard |
