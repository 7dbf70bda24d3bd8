/** Constants, records and messages shared by the game server and its clients. */
module Protocol {

  /** World size in pixels (server.js:57-58). */
  const GameWidth := 800
  const GameHeight := 600
  /** Distance of one movement step (server.js:62). */
  const MoveSpeed := 5
  /** Side of the square collectible (server.js:63). */
  const CollectibleSize := 15
  /** Side of the square player avatar (server.js:73, 134, 140). */
  const PlayerSize := 20
  /** Points awarded for reaching the collectible (server.js:152). */
  const ScoreReward := 10

  datatype Option<T> = None | Some(value: T)

  datatype Pos = Pos(x: int, y: int)

  /** The server's player record; the unused `isMoving` field is omitted. */
  datatype Rec = Rec(id: string, x: int, y: int, score: int, color: string)

  /** One leaderboard line, as produced by `getPlayerRanks`. */
  datatype RankEntry = RankEntry(id: string, score: int, color: string)

  /** The payload of a `playerMove` message, as far as the server's guard can tell:
      a falsy payload, one whose `direction` is not a string, or a string direction. */
  datatype MoveArg = Missing | NonStringDirection | Direction(direction: string)

  /** Outbound messages of the server. */
  datatype Event =
    | CurrentPlayers(snapshot: map<string, Rec>)
    | CollectibleUpdate(item: Pos)
    | NewPlayer(player: Rec)
    | PlayerMoved(id: string, x: int, y: int)
    | ScoreUpdate(id: string, score: int)
    | PlayerDisconnected(id: string)
    | RankUpdate(ranks: seq<RankEntry>)

  /** `socket.emit` (the originating socket only), `socket.broadcast.emit`
      (everyone except the originator) and `io.emit` (everyone). */
  datatype Target = ToSocket(socket: string) | ToOthers(except: string) | ToAll

  datatype Envelope = Envelope(target: Target, event: Event)

  /** Whether the connection with socket id `c` receives `e`. */
  predicate DeliveredTo(e: Envelope, c: string)
  {
    match e.target
    case ToSocket(s) => s == c
    case ToOthers(s) => s != c
    case ToAll => true
  }

  /** The range of `getRandomPosition(gameWidth, gameHeight)` (server.js:65-70). */
  predicate InWorld(p: Pos)
  {
    0 <= p.x < GameWidth && 0 <= p.y < GameHeight
  }

  /** The four directions, as the client names them in its requests. */
  datatype Dir = Up | Down | Left | Right

  function DirName(d: Dir): string
  {
    match d
    case Up => "up"
    case Down => "down"
    case Left => "left"
    case Right => "right"
  }

  /** The four direction strings the server's switch recognises. */
  predicate IsDirection(s: string)
  {
    s == "up" || s == "down" || s == "left" || s == "right"
  }

  function Max(a: int, b: int): int { if a >= b then a else b }
  function Min(a: int, b: int): int { if a <= b then a else b }
}
