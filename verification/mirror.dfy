/** The browser client's copy of the players dictionary (game.mjs:12, 27-77) and
    what each server message does to it, as pure functions. The class in
    client.dfy applies them in place. */
module Mirror {
  import opened Protocol

  /** The fields game.mjs copies into each `Player` it keeps (game.mjs:31-37, 50-56). */
  datatype Entry = Entry(x: int, y: int, score: int, id: string, color: string)

  function EntryOf(r: Rec): Entry
  {
    Entry(r.x, r.y, r.score, r.id, r.color)
  }

  /** `currentPlayers` (game.mjs:29-38): every snapshot id is added or overwritten,
      other entries are kept. */
  function WithSnapshot(m: map<string, Entry>, snapshot: map<string, Rec>): (r: map<string, Entry>)
    ensures r.Keys == m.Keys + snapshot.Keys
    ensures forall k | k in snapshot :: r[k] == EntryOf(snapshot[k])
    ensures forall k | k in m && k !in snapshot :: r[k] == m[k]
  {
    map k | k in m.Keys + snapshot.Keys :: if k in snapshot then EntryOf(snapshot[k]) else m[k]
  }

  /** `newPlayer` (game.mjs:48-57): the key `player.id` is added or overwritten. */
  function WithNewPlayer(m: map<string, Entry>, player: Rec): (r: map<string, Entry>)
    ensures r.Keys == m.Keys + {player.id}
    ensures r[player.id] == EntryOf(player)
    ensures forall k | k in m && k != player.id :: r[k] == m[k]
  {
    m[player.id := EntryOf(player)]
  }

  /** `playerDisconnected` (game.mjs:59-62): exactly the key `id` goes. */
  function WithoutPlayer(m: map<string, Entry>, id: string): (r: map<string, Entry>)
    ensures r.Keys == m.Keys - {id}
    ensures forall k | k in r :: r[k] == m[k]
  {
    m - {id}
  }

  /** `playerMoved` (game.mjs:64-70): a known entry takes the new x and y and keeps
      everything else; an unknown id changes nothing. */
  function WithPosition(m: map<string, Entry>, id: string, x: int, y: int): (r: map<string, Entry>)
    ensures r.Keys == m.Keys
    ensures forall k | k in m && k != id :: r[k] == m[k]
    ensures id in m ==>
      && r[id].x == x && r[id].y == y
      && r[id].score == m[id].score && r[id].id == m[id].id && r[id].color == m[id].color
  {
    if id in m then m[id := m[id].(x := x, y := y)] else m
  }

  /** `scoreUpdate` (game.mjs:72-77): a known entry takes the new score and keeps
      everything else; an unknown id changes nothing. */
  function WithScore(m: map<string, Entry>, id: string, score: int): (r: map<string, Entry>)
    ensures r.Keys == m.Keys
    ensures forall k | k in m && k != id :: r[k] == m[k]
    ensures id in m ==>
      && r[id].score == score
      && r[id].x == m[id].x && r[id].y == m[id].y && r[id].id == m[id].id && r[id].color == m[id].color
  {
    if id in m then m[id := m[id].(score := score)] else m
  }

  /** The effect of one received message on the dictionary; the collectible and
      leaderboard messages leave it alone. */
  function Receive(m: map<string, Entry>, e: Event): (r: map<string, Entry>)
    ensures e.CollectibleUpdate? || e.RankUpdate? ==> r == m
    ensures e.PlayerMoved? || e.ScoreUpdate? ==> r.Keys == m.Keys
    ensures e.NewPlayer? ==> r.Keys == m.Keys + {e.player.id}
    ensures e.PlayerDisconnected? ==> r.Keys == m.Keys - {e.id}
    ensures e.CurrentPlayers? ==> r.Keys == m.Keys + e.snapshot.Keys
  {
    match e
    case CurrentPlayers(snapshot) => WithSnapshot(m, snapshot)
    case NewPlayer(player) => WithNewPlayer(m, player)
    case PlayerDisconnected(id) => WithoutPlayer(m, id)
    case PlayerMoved(id, x, y) => WithPosition(m, id, x, y)
    case ScoreUpdate(id, score) => WithScore(m, id, score)
    case CollectibleUpdate(_) => m
    case RankUpdate(_) => m
  }

  /** The messages of `sent` that reach the client with socket id `c`, received in
      the order they were emitted. */
  function Deliver(m: map<string, Entry>, c: string, sent: seq<Envelope>): map<string, Entry>
    decreases |sent|
  {
    if sent == [] then m
    else Deliver(if DeliveredTo(sent[0], c) then Receive(m, sent[0].event) else m, c, sent[1..])
  }
}
