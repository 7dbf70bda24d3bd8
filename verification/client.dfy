/** The browser client's module state and event handlers (game.mjs:12-85,
    115-175): the socket handlers that keep its copy of the game up to date, the
    key listeners and the body of the 60 Hz movement timer. */
module Client {
  import opened Protocol
  import Mirror
  import PlayerModel

  /** `keyState` (game.mjs:17). */
  datatype KeyState = KeyState(up: bool, down: bool, left: bool, right: bool)

  /** The keys the listeners react to, with the flag each one drives. */
  function KeyDirection(key: string): (r: Option<Dir>)
    ensures r == Some(Up) <==> key == "ArrowUp" || key == "w"
    ensures r == Some(Down) <==> key == "ArrowDown" || key == "s"
    ensures r == Some(Left) <==> key == "ArrowLeft" || key == "a"
    ensures r == Some(Right) <==> key == "ArrowRight" || key == "d"
  {
    if key == "ArrowUp" || key == "w" then Some(Up)
    else if key == "ArrowDown" || key == "s" then Some(Down)
    else if key == "ArrowLeft" || key == "a" then Some(Left)
    else if key == "ArrowRight" || key == "d" then Some(Right)
    else None
  }

  /** The property name `players[localPlayerId]` looks up: JavaScript turns a
      `null` key into the string "null". */
  function LookupKey(localPlayerId: Option<string>): (k: string)
    ensures localPlayerId.Some? ==> k == localPlayerId.value
    ensures localPlayerId.None? ==> k == "null"
  {
    match localPlayerId
    case None => "null"
    case Some(id) => id
  }

  /** Position of a direction in the timer's fixed order up, down, left, right. */
  function DirIndex(d: Dir): int
  {
    match d
    case Up => 0
    case Down => 1
    case Left => 2
    case Right => 3
  }

  /** How many of the four flags are set. */
  function PressedCount(ks: KeyState): nat
  {
    (if ks.up then 1 else 0) + (if ks.down then 1 else 0) + (if ks.left then 1 else 0) + (if ks.right then 1 else 0)
  }

  /** One request for `d` when its flag is set, none otherwise. */
  function Flag(flag: bool, d: Dir): seq<Dir>
  {
    if flag then [d] else []
  }

  /** The requests the movement timer sends for the pressed keys: one per pressed
      flag, each flag at most once. */
  function Intents(ks: KeyState): (sent: seq<Dir>)
    ensures (Up in sent <==> ks.up) && (Down in sent <==> ks.down)
    ensures (Left in sent <==> ks.left) && (Right in sent <==> ks.right)
    ensures |sent| == PressedCount(ks)
  {
    Flag(ks.up, Up) + Flag(ks.down, Down) + Flag(ks.left, Left) + Flag(ks.right, Right)
  }

  /** The requests go out in the fixed order up, down, left, right. */
  lemma IntentsInOrder(ks: KeyState)
    ensures forall i, j | 0 <= i < j < |Intents(ks)| :: DirIndex(Intents(ks)[i]) < DirIndex(Intents(ks)[j])
  {
  }

  class GameClient {
    /** `players` (game.mjs:12). */
    var players: map<string, Mirror.Entry>
    /** `collectible` (game.mjs:13), a `Player` built from `{x, y}` only. */
    var collectible: PlayerModel.Player?
    /** `localPlayerId` (game.mjs:14); `None` is `null`. */
    var localPlayerId: Option<string>
    /** `playerRanks` (game.mjs:15). */
    var playerRanks: seq<RankEntry>
    /** `gameLoopStarted` (game.mjs:25). */
    var gameLoopStarted: bool
    /** How many times `drawGame` and `startMovementLoop` have been started. */
    var loopsStarted: nat
    var keyState: KeyState

    /** The loops run once the first snapshot has arrived, and never twice. */
    ghost predicate Valid()
      reads this
    {
      loopsStarted == if gameLoopStarted then 1 else 0
    }

    /** The module's initial state (game.mjs:12-17, 25). */
    constructor ()
      ensures Valid()
      ensures players == map[] && collectible == null && localPlayerId == None
      ensures playerRanks == [] && !gameLoopStarted && loopsStarted == 0
      ensures keyState == KeyState(false, false, false, false)
    {
      players := map[];
      collectible := null;
      localPlayerId := None;
      playerRanks := [];
      gameLoopStarted := false;
      loopsStarted := 0;
      keyState := KeyState(false, false, false, false);
    }

    /** `connect` (game.mjs:19-22). */
    method OnConnect(socketId: string)
      modifies this`localPlayerId
      ensures localPlayerId == Some(socketId)
    {
      localPlayerId := Some(socketId);
    }

    /** `currentPlayers` (game.mjs:27-46): one entry per snapshot id, then the loops
        are started if this is the first snapshot. */
    method OnCurrentPlayers(snapshot: map<string, Rec>)
      requires Valid()
      modifies this`players, this`gameLoopStarted, this`loopsStarted
      ensures Valid()
      ensures players == Mirror.WithSnapshot(old(players), snapshot)
      ensures gameLoopStarted && loopsStarted == 1
    {
      var pending := snapshot.Keys;
      while pending != {}
        invariant pending <= snapshot.Keys
        invariant Valid() && gameLoopStarted == old(gameLoopStarted)
        invariant players.Keys == old(players).Keys + (snapshot.Keys - pending)
        invariant forall k | k in players ::
          players[k] == if k in snapshot && k !in pending then Mirror.EntryOf(snapshot[k]) else old(players)[k]
        decreases pending
      {
        var id :| id in pending;
        var p := snapshot[id];
        players := players[id := Mirror.Entry(p.x, p.y, p.score, p.id, p.color)];
        pending := pending - {id};
      }
      if !gameLoopStarted {
        loopsStarted := loopsStarted + 1;
        gameLoopStarted := true;
      }
    }

    /** `newPlayer` (game.mjs:48-57). */
    method OnNewPlayer(player: Rec)
      modifies this`players
      ensures players == Mirror.WithNewPlayer(old(players), player)
    {
      players := players[player.id := Mirror.Entry(player.x, player.y, player.score, player.id, player.color)];
    }

    /** `playerDisconnected` (game.mjs:59-62). */
    method OnPlayerDisconnected(id: string)
      modifies this`players
      ensures players == Mirror.WithoutPlayer(old(players), id)
    {
      players := players - {id};
    }

    /** `playerMoved` (game.mjs:64-70). */
    method OnPlayerMoved(id: string, x: int, y: int)
      modifies this`players
      ensures players == Mirror.WithPosition(old(players), id, x, y)
    {
      if id in players {
        var player := players[id];
        player := player.(x := x, y := y);
        players := players[id := player];
      }
    }

    /** `scoreUpdate` (game.mjs:72-77). */
    method OnScoreUpdate(id: string, score: int)
      modifies this`players
      ensures players == Mirror.WithScore(old(players), id, score)
    {
      if id in players {
        players := players[id := players[id].(score := score)];
      }
    }

    /** `collectibleUpdate` (game.mjs:79-81): a new `Player` object with only x and y. */
    method OnCollectibleUpdate(item: Pos)
      modifies this`collectible
      ensures collectible != null && fresh(collectible)
      ensures collectible.x == item.x && collectible.y == item.y
      ensures collectible.score == None && collectible.id == None && collectible.color == None
      ensures collectible.width == 20 && collectible.height == 20
    {
      collectible := new PlayerModel.Player(PlayerModel.PlayerInit(item.x, item.y, None, None, None));
    }

    /** `rankUpdate` (game.mjs:83-85). */
    method OnRankUpdate(ranks: seq<RankEntry>)
      modifies this`playerRanks
      ensures playerRanks == ranks
    {
      playerRanks := ranks;
    }

    /** The socket's dispatch of one server message to its handler. */
    method Receive(e: Event)
      requires Valid()
      modifies this
      ensures Valid()
      ensures players == Mirror.Receive(old(players), e)
      ensures localPlayerId == old(localPlayerId) && keyState == old(keyState)
      ensures e.RankUpdate? ==> playerRanks == e.ranks
      ensures !e.RankUpdate? ==> playerRanks == old(playerRanks)
      ensures e.CollectibleUpdate? ==> collectible != null && collectible.x == e.item.x && collectible.y == e.item.y
      ensures !e.CollectibleUpdate? ==> collectible == old(collectible)
      ensures gameLoopStarted == (old(gameLoopStarted) || e.CurrentPlayers?)
    {
      match e {
        case CurrentPlayers(snapshot) => OnCurrentPlayers(snapshot);
        case CollectibleUpdate(item) => OnCollectibleUpdate(item);
        case NewPlayer(player) => OnNewPlayer(player);
        case PlayerMoved(id, x, y) => OnPlayerMoved(id, x, y);
        case ScoreUpdate(id, score) => OnScoreUpdate(id, score);
        case PlayerDisconnected(id) => OnPlayerDisconnected(id);
        case RankUpdate(ranks) => OnRankUpdate(ranks);
      }
    }

    /** The `keydown` listener (game.mjs:135-154). */
    method KeyDown(key: string)
      modifies this`keyState
      ensures KeyDirection(key) == Some(Up) ==> keyState == old(keyState).(up := true)
      ensures KeyDirection(key) == Some(Down) ==> keyState == old(keyState).(down := true)
      ensures KeyDirection(key) == Some(Left) ==> keyState == old(keyState).(left := true)
      ensures KeyDirection(key) == Some(Right) ==> keyState == old(keyState).(right := true)
      ensures KeyDirection(key) == None ==> keyState == old(keyState)
    {
      if key == "ArrowUp" || key == "w" {
        keyState := keyState.(up := true);
      } else if key == "ArrowDown" || key == "s" {
        keyState := keyState.(down := true);
      } else if key == "ArrowLeft" || key == "a" {
        keyState := keyState.(left := true);
      } else if key == "ArrowRight" || key == "d" {
        keyState := keyState.(right := true);
      }
    }

    /** The `keyup` listener (game.mjs:156-175). */
    method KeyUp(key: string)
      modifies this`keyState
      ensures KeyDirection(key) == Some(Up) ==> keyState == old(keyState).(up := false)
      ensures KeyDirection(key) == Some(Down) ==> keyState == old(keyState).(down := false)
      ensures KeyDirection(key) == Some(Left) ==> keyState == old(keyState).(left := false)
      ensures KeyDirection(key) == Some(Right) ==> keyState == old(keyState).(right := false)
      ensures KeyDirection(key) == None ==> keyState == old(keyState)
    {
      if key == "ArrowUp" || key == "w" {
        keyState := keyState.(up := false);
      } else if key == "ArrowDown" || key == "s" {
        keyState := keyState.(down := false);
      } else if key == "ArrowLeft" || key == "a" {
        keyState := keyState.(left := false);
      } else if key == "ArrowRight" || key == "d" {
        keyState := keyState.(right := false);
      }
    }

    /** The body of the movement timer (game.mjs:117-131): nothing without a local
        entry, otherwise one `playerMove` request per pressed flag. Returns the
        direction of each request sent, in sending order; the payload of each is
        `{direction: DirName(d)}`. */
    method Tick() returns (sent: seq<Dir>)
      ensures LookupKey(localPlayerId) !in players ==> sent == []
      ensures LookupKey(localPlayerId) in players ==> sent == Intents(keyState)
    {
      sent := [];
      if LookupKey(localPlayerId) !in players {
        return;
      }
      if keyState.up {
        sent := sent + [Up];
      }
      assert sent == Flag(keyState.up, Up);
      if keyState.down {
        sent := sent + [Down];
      }
      assert sent == Flag(keyState.up, Up) + Flag(keyState.down, Down);
      if keyState.left {
        sent := sent + [Left];
      }
      if keyState.right {
        sent := sent + [Right];
      }
    }
  }
}
