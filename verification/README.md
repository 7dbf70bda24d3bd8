# Multiplayer collectible game — a Dafny model

This project models the game logic of a small real-time multiplayer browser game.
A Node.js server built on socket.io holds the authoritative `players` dictionary
and the position of one collectible. Players connect, move one clamped step per
request, score 10 points when their 20x20 box overlaps the 15x15 collectible, and
disconnect. Once a second the server broadcasts a leaderboard. Each browser keeps
a mirror of the dictionary up to date from the server's messages. It turns held
arrow/WASD keys into move requests 60 times a second.

The model is split into these modules:

- `Protocol` (protocol.dfy) holds the shared constants, the server's player
  record, the messages and their addressees: the originating socket, everyone
  except it, or everyone.
- `Ranking` (ranking.dfy) is `getPlayerRanks`. `Object.values` is a list in key
  insertion order. The sort is a stable insertion sort by descending score,
  followed by the `{id, score, color}` projection.
- `Game` (game.dfy) has the server's handlers as pure transitions from one world
  to the next, with the messages each emits. It also has the event-by-event run
  of the server and the lemmas about moves, scoring and bounds.
- `Server` (server.dfy) has the class `GameServer`. Its methods update
  `players`, the key order and `collectible` in place and append to an outbox.
  Each method is proved equal to the matching `Game` transition.
- `Mirror` (mirror.dfy) is the client's players dictionary and what each message
  does to it, as functions.
- `Client` (client.dfy) has the class `GameClient`: the client module's state,
  its socket handlers, the key listeners and the body of the movement timer.
- `PlayerModel` (player.dfy) is the class `Player` from Collectible.mjs, with its
  constructor and `movePlayer`.
- `Sync` (sync.dfy) proves that a client which starts from an empty dictionary
  (or one holding no id the server has dropped) and receives, in order, the
  messages addressed to it holds exactly the server's records for as long as it
  stays connected. A page that reconnects under a new socket id keeps its old
  dictionary, and an id the server no longer holds then survives the handshake
  (`Sync.StaleEntrySurvives`).

Random draws are parameters. The spawn position, the colour string and the next
collectible position are passed in, with the range that
`getRandomPosition(800, 600)` can produce (`0 <= x < 800`, `0 <= y < 600`) as a
precondition.

A few points where the code's behaviour is easy to misread. The model follows
the code in each case:

- Positions are meant to stay inside `[0,780] x [0,580]`, the board less the
  player's size. But a new player spawns anywhere in `[0,799] x [0,599]`, while
  moves clamp to `[0,780] x [0,580]`. A player spawned at `x > 780` is pulled left by a `right`
  move (`Game.RightFromSpawnEdgeMovesLeft`). So positions are not always inside
  `[0,780] x [0,580]`; they stay inside the spawn area (`Game.MoveStaysInSpawnArea`).
- The `currentPlayers` snapshot sent to a newcomer already holds the newcomer's
  own record, because it is stored before the snapshot is emitted.
- Before the `connect` event, `localPlayerId` is `null`. The movement timer then
  looks up the property named `"null"` (`Client.LookupKey`).

## Model

| member | source | states |
|---|---|---|
| Ranking.Values | server.js:84 | `Object.values(players)` has one record per listed key, in key insertion order |
| Ranking.Insert | server.js:85 | inserting a record adds exactly that record to the multiset of records |
| Ranking.InsertSorted | server.js:85 | inserting into a list sorted by non-increasing score keeps it sorted |
| Ranking.SortByScore | server.js:85 | the sort with comparator `b.score - a.score` returns a permutation ordered by non-increasing score |
| Ranking.SortIsStable | server.js:85 | records with equal scores keep their insertion order, as `Array.prototype.sort` is stable |
| Ranking.Project | server.js:86-90 | the `map` keeps the length and turns each record into its `{id, score, color}` entry |
| Ranking.PlayerRanks | server.js:83-91 | one entry per player, so an empty dictionary gives an empty list; non-increasing scores; a permutation of the projected records; every player's entry is present |
| Game.ConnectStep | server.js:99-115 | the socket id gets a record with the drawn position, score 0 and the drawn colour; other records and the collectible are unchanged; a new key goes to the end of the insertion order, a re-used key keeps its place; the newcomer gets `currentPlayers` (newcomer included) and then `collectibleUpdate`, and then everyone else gets `newPlayer`; the world invariant is kept |
| Game.MoveStep | server.js:117-165 | a request is rejected, with nothing changed and nothing emitted, exactly when the id is absent, the payload is missing, the direction is not a string or is not up/down/left/right; an accepted move changes one coordinate (up `max(0,y-5)`, down `min(580,y+5)`, left `max(0,x-5)`, right `min(780,x+5)`) of that player only; a collision at the new position adds exactly 10, moves the collectible to the drawn position and emits `scoreUpdate` and `collectibleUpdate` before `playerMoved`; otherwise score and collectible stay and only `playerMoved` is emitted; the invariant is kept |
| Game.Without | server.js:169 | deleting a key removes exactly that key from the insertion order and keeps the order free of repetitions; deleting an absent key changes nothing |
| Game.WithoutAt | server.js:169 | in an order without repetitions, deleting the key at position `i` cuts exactly that position out and keeps the others in their relative order |
| Game.DisconnectStep | server.js:167-171 | exactly the id is removed, from the records and in place from the insertion order, other records and the collectible are unchanged, `playerDisconnected(id)` goes to everyone, the invariant is kept |
| Game.RankStep | server.js:93-96 | the timer changes no state and broadcasts one `rankUpdate` carrying exactly `getPlayerRanks()` of the current players in key order: one entry per player, scores non-increasing |
| Ranking.RankOf | server.js:86-90 | the entry carries the record's id, score and colour |
| Game.CollidesIffOverlap | server.js:72-81 | the four strict comparisons hold exactly when the half-open 20x20 player box `[x, x+20) x [y, y+20)` and the 15x15 collectible box share a cell |
| Game.Advance | server.js:129-144 | a position is produced exactly for up, down, left and right; it changes one coordinate only; it stays in the spawn area, and a position inside `[0,780] x [0,580]` stays inside and moves at most 5 |
| Game.Accepts | server.js:117-144 | a request is handled exactly when the id has a record, the payload has a string direction and the switch recognises it |
| Game.Land | server.js:146-164 | the mover's position is stored; on a hit the score rises by exactly 10, the collectible moves to the drawn position and `scoreUpdate` and `collectibleUpdate` precede `playerMoved`; otherwise only `playerMoved` is sent; other records and the key order stay; the invariant is kept |
| Game.Apply | server.js:99-171 | each handler keeps the invariant: records under their own ids, inside the spawn area, with non-negative scores that are multiples of 10 |
| Game.Run | server.js:99-171 | events handled one after another keep the invariant |
| Game.MoveStaysOnBoard | server.js:129-141 | a position inside `[0,780] x [0,580]` stays inside after any request |
| Game.MoveStaysInSpawnArea | server.js:129-141 | a position inside `[0,799] x [0,599]`, which connect can produce, stays inside it |
| Game.MoveNeverNegative | server.js:130-138 | a move never makes a non-negative coordinate negative |
| Game.TouchingDoesNotCollide | server.js:72-81 | boxes that only touch on an edge do not collide, as the comparisons are strict |
| Game.RightFromSpawnEdgeMovesLeft | server.js:139-140 | a player spawned at `x > 780` ends at `x = 780` after a `right` move |
| Game.ApproachExample | server.js:147-164 | moving right from (100,100) towards a collectible at (125,100) does not score at x = 105 and scores 10 at x = 110, with the messages in order |
| Game.StepScoreNeverDecreases | server.js:150-153 | an event other than the player's own join or leave keeps the player connected and does not lower its score |
| Game.RunScoreNeverDecreases | server.js:150-153 | over any run in which a player neither joins again nor leaves, its score never decreases |
| Server.GameServer.constructor | server.js:59-60 | the server starts with no players and the collectible at the first draw |
| Server.GameServer.Connect | server.js:99-115 | the in-place connection handler yields exactly `Game.ConnectStep`'s world and appends its messages |
| Server.GameServer.Move | server.js:117-165 | the in-place move handler yields exactly `Game.MoveStep`'s world and appends its messages |
| Server.GameServer.Switch | server.js:129-144 | the switch recognises exactly up, down, left and right, and then yields the clamped position `Game.Advance` gives |
| Server.GameServer.Resolve | server.js:146-164 | storing the new position, scoring on a hit and announcing the move, as one update of the record, collectible and outbox |
| Server.GameServer.Disconnect | server.js:167-171 | the in-place disconnect handler yields exactly `Game.DisconnectStep`'s world and appends its message |
| Server.GameServer.RankTick | server.js:93-96 | the timer body only appends the leaderboard message |
| Server.GameServer.Handle | server.js:99-171 | one event handled in place yields exactly `Game.Apply`'s world and messages |
| Server.GameServer.Process | server.js:99-171 | any sequence of events handled in place yields exactly `Game.Run`'s world and messages |
| Mirror.Receive | game.mjs:27-85 | `collectibleUpdate` and `rankUpdate` leave the dictionary alone; `playerMoved` and `scoreUpdate` keep its keys; `newPlayer` adds its id; `playerDisconnected` removes its id; `currentPlayers` adds the snapshot's ids |
| Mirror.WithSnapshot | game.mjs:29-38 | every snapshot id is added or overwritten with its x, y, score, id and colour; other entries are kept |
| Mirror.WithNewPlayer | game.mjs:48-57 | exactly the key `playerData.id` is added or overwritten |
| Mirror.WithoutPlayer | game.mjs:59-62 | exactly the key is removed; other entries are unchanged |
| Mirror.WithPosition | game.mjs:64-70 | only x and y of a known entry change; an unknown id changes nothing |
| Mirror.WithScore | game.mjs:72-77 | only the score of a known entry changes; an unknown id changes nothing |
| Client.KeyDirection | game.mjs:135-175 | ArrowUp/w, ArrowDown/s, ArrowLeft/a and ArrowRight/d, and only they, name up, down, left and right |
| Client.LookupKey | game.mjs:117 | `players[localPlayerId]` looks up the local id, or the key `"null"` before `connect` |
| Client.Intents | game.mjs:120-131 | a direction is requested exactly when its flag is pressed, and there are as many requests as pressed flags, so none is sent twice |
| Client.IntentsInOrder | game.mjs:120-131 | the requests go out in the fixed order up, down, left, right |
| Client.GameClient.constructor | game.mjs:12-25 | empty dictionary, no collectible, no local id, no ranks, loops not started, no key pressed |
| Client.GameClient.OnConnect | game.mjs:19-22 | the local id becomes the socket id |
| Client.GameClient.OnCurrentPlayers | game.mjs:27-46 | the loop over the snapshot gives `Mirror.WithSnapshot`; the loops are started once, by the first snapshot only |
| Client.GameClient.OnNewPlayer | game.mjs:48-57 | the dictionary becomes `Mirror.WithNewPlayer` of the old one |
| Client.GameClient.OnPlayerDisconnected | game.mjs:59-62 | the dictionary becomes `Mirror.WithoutPlayer` of the old one |
| Client.GameClient.OnPlayerMoved | game.mjs:64-70 | the dictionary becomes `Mirror.WithPosition` of the old one |
| Client.GameClient.OnScoreUpdate | game.mjs:72-77 | the dictionary becomes `Mirror.WithScore` of the old one |
| Client.GameClient.OnCollectibleUpdate | game.mjs:79-81 | a new `Player` at the item's x and y, with score, id and colour undefined |
| Client.GameClient.OnRankUpdate | game.mjs:83-85 | the ranking is replaced wholesale |
| Client.GameClient.Receive | game.mjs:27-85 | each message changes the dictionary as `Mirror.Receive` says, replaces the collectible or the ranking only for its own message, and never touches the local id or the keys |
| Client.GameClient.KeyDown | game.mjs:135-154 | ArrowUp/w, ArrowDown/s, ArrowLeft/a, ArrowRight/d set their flag true; any other key changes nothing |
| Client.GameClient.KeyUp | game.mjs:156-175 | the same keys set their flag false; any other key changes nothing |
| Client.GameClient.Tick | game.mjs:116-131 | nothing is sent without an entry for the local id, otherwise exactly `Client.Intents` of the key state |
| PlayerModel.Player.constructor | Collectible.mjs:2-10 | x, y, score, id and colour are stored verbatim and width and height are 20 |
| PlayerModel.Player.MovePlayer | Collectible.mjs:20-35 | up/down shift y and left/right shift x by the speed, without clamping; any other direction changes nothing; only x and y can change |
| PlayerModel.MoveAndBack | Collectible.mjs:20-35 | a move followed by the opposite move with the same speed restores the position and leaves every other field alone |
| PlayerModel.LeavesBoard | Collectible.mjs:22-33 | with no clamping, moves from (0,0) reach y < 0 and x >= 800 |
| Sync.DeliverConcat | game.mjs:27-85 | receiving two batches of messages is receiving them one after the other |
| Sync.NewcomerStartsSynced | server.js:104-115 | a newcomer whose dictionary holds no stale ids holds exactly the server's records after the connection handshake |
| Sync.StaleEntrySurvives | game.mjs:29-38 | an id the page holds but the server no longer does survives the handshake, so the page is then out of step with the server |
| Sync.JoinKeepsSync | server.js:115 | `newPlayer` keeps every other client's dictionary equal to the server's |
| Sync.MoveKeepsSync | server.js:117-165 | a move request of any kind keeps every client's dictionary equal to the server's |
| Sync.LandKeepsSync | server.js:151-164 | `scoreUpdate` and `playerMoved` keep every client's dictionary equal to the server's |
| Sync.LeaveKeepsSync | server.js:169-170 | `playerDisconnected` keeps every client's dictionary equal to the server's |
| Sync.StepKeepsSync | server.js:93-171 | every server event keeps a connected client's dictionary equal to the server's, and the client stays connected |
| Sync.RunKeepsSync | server.js:93-171 | over any run in which the client neither reconnects nor leaves, its dictionary stays equal to the server's |
| Sync.JoinThenRunSynced | server.js:99-171 | a client that connects with an empty dictionary and then receives its messages stays equal to the server for as long as it is connected |
| Sync.TickRequestsAccepted | game.mjs:120-131 | every request the movement timer sends for a connected player passes the server's guard and switch |

## Left out

- The HTTP plumbing (Express, security headers, static routes, the 404 handler, listening and test wiring) and every `console.log` call are not modelled.
- `Math.random` is not modelled. The spawn position, the colour and the next collectible position are parameters with the range of `getRandomPosition` as a precondition. The hex formatting of the colour, which is not zero-padded, is not modelled.
- `setInterval` is not modelled. The one-second leaderboard timer and the 60 Hz movement timer appear as their bodies, `RankTick` and `Tick`, called explicitly.
- The socket.io transport is not modelled. Messages are appended to an outbox with their addressees, and each client is assumed to receive its messages in emission order, none lost.
- Rendering (`drawGame`, `drawLeaderboard`, `Player.draw`, `requestAnimationFrame`) and the registration of DOM listeners are not modelled. `Client.GameClient` counts how often the loops are started rather than running them.
- The `isMoving` field of the server record is written but never read, so it is omitted. The empty `collision` and `calculateRank` methods of `Player` have no behaviour to state.
- Player.mjs is not part of this model. The client's dictionary entries are modelled as values holding the five fields game.mjs copies in. So the model does not capture that `playerMoved` and `scoreUpdate` update a shared `Player` object in place, or any aliasing of those objects.
- JavaScript numbers are modelled as unbounded integers. Every coordinate and score the game computes is a small integer, so no floating-point effect arises.
- The `playerMove` payload is reduced to missing (falsy), non-string direction, or string direction. Other payload fields and other falsy values are not distinguished. `players[playerId]` and `players[localPlayerId]` are modelled as key presence, since every stored record is a truthy object.
- The key order of `players` is modelled as insertion order. JavaScript lists integer-like keys first, in numeric order, but socket ids are never integer-like.
- The client's `for (let id in serverPlayers)` loop visits the snapshot keys in any order. The result does not depend on that order.
- Client.GameClient.Tick: returns the directions of the requests sent instead of emitting socket messages. The payload of each request is `{direction: DirName(d)}`.
- A page that reconnects under a new socket id keeps its `players` dictionary, and the `currentPlayers` handler only adds or overwrites entries. The synchronisation lemmas therefore assume a fresh page, or one holding no dropped id; `Sync.StaleEntrySurvives` shows what goes wrong otherwise.
