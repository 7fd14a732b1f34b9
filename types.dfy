/** The request and response records exchanged with the game service. Every
    record is a value: a fetched game is replaced wholesale, never patched. */
module ApiTypes {
  import opened Wrappers

  /** Player kinds as the service numbers them. */
  const Human: int := 1
  const Computer: int := 2

  datatype PlayerConfig = PlayerConfig(kind: int, level: int, searchTime: int)

  datatype CreateGameRequest = CreateGameRequest(white: PlayerConfig, black: PlayerConfig, fen: string)

  datatype PlayerInfo = PlayerInfo(id: string, kind: int, level: int, searchTime: int)

  datatype PlayersResponse = PlayersResponse(white: PlayerInfo, black: PlayerInfo)

  datatype MoveInfo = MoveInfo(move: string, playerColor: string, score: int, depth: int)

  datatype GameResponse = GameResponse(
    gameId: string,
    fen: string,
    turn: string,
    state: string,
    moves: seq<string>,
    players: PlayersResponse,
    lastMove: Option<MoveInfo>)

  datatype BoardResponse = BoardResponse(fen: string, board: string)

  datatype AuthResponse = AuthResponse(token: string, userId: string, username: string)

  /** The account record; its timestamps are kept as the seconds the service sent. */
  datatype UserResponse = UserResponse(userId: string, username: string, email: string, createdAt: int, lastLogin: Option<int>)

  datatype ErrorResponse = ErrorResponse(error: string, code: string, details: string)

  datatype HealthResponse = HealthResponse(status: string, time: int, storage: string)

  /** Go's zero values: what a handler sees when a success reply has an empty body. */
  const NoPlayer: PlayerInfo := PlayerInfo("", 0, 0, 0)
  const ZeroGame: GameResponse := GameResponse("", "", "", "", [], PlayersResponse(NoPlayer, NoPlayer), None)
  const ZeroBoard: BoardResponse := BoardResponse("", "")
  const ZeroAuth: AuthResponse := AuthResponse("", "", "")
  const ZeroUser: UserResponse := UserResponse("", "", "", 0, None)
  const ZeroHealth: HealthResponse := HealthResponse("", 0, "")
}
