/** The authoritative game state of the server and its socket handlers, written as
    pure transitions from one world to the next together with the messages each
    handler emits (server.js:57-171). The class in server.dfy performs the same
    handlers in place and is proved against these functions. */
module Game {
  import opened Protocol
  import Ranking

  /** `players` (server.js:59), the insertion order of its keys, and `collectible`
      (server.js:60). */
  datatype World = World(players: map<string, Rec>, order: seq<string>, collectible: Pos)

  /** The world after a handler ran, and what it emitted, in emission order. */
  datatype Step = Step(world: World, events: seq<Envelope>)

  /** What the handlers maintain: every record sits under its own id, inside the
      spawn area, with a score that is a non-negative multiple of the reward. */
  predicate RecOk(k: string, r: Rec)
  {
    r.id == k && InWorld(Pos(r.x, r.y)) && r.score >= 0 && r.score % ScoreReward == 0
  }

  predicate Valid(w: World)
  {
    && Ranking.OrderMatches(w.players, w.order)
    && (forall k | k in w.players :: RecOk(k, w.players[k]))
    && InWorld(w.collectible)
  }

  /** `checkCollision` (server.js:72-81): strict overlap of the player's 20x20 box
      at `p` with the collectible's 15x15 box at `item`. */
  predicate Collides(p: Pos, item: Pos)
  {
    && p.x < item.x + CollectibleSize
    && p.x + PlayerSize > item.x
    && p.y < item.y + CollectibleSize
    && p.y + PlayerSize > item.y
  }

  /** The unit cell `(a, b)` lies in both half-open boxes: the player's
      `[x, x+20) x [y, y+20)` and the collectible's `[ix, ix+15) x [iy, iy+15)`. */
  predicate SharedCell(p: Pos, item: Pos, a: int, b: int)
  {
    && p.x <= a < p.x + PlayerSize && p.y <= b < p.y + PlayerSize
    && item.x <= a < item.x + CollectibleSize && item.y <= b < item.y + CollectibleSize
  }

  /** The two boxes share at least one cell. */
  ghost predicate BoxesOverlap(p: Pos, item: Pos)
  {
    exists a: int, b: int :: SharedCell(p, item, a, b)
  }

  /** `checkCollision` is exactly box overlap: the four strict comparisons hold
      if and only if the player's and the collectible's boxes share a cell. */
  lemma CollidesIffOverlap(p: Pos, item: Pos)
    ensures Collides(p, item) <==> BoxesOverlap(p, item)
  {
    if Collides(p, item) {
      assert SharedCell(p, item, Max(p.x, item.x), Max(p.y, item.y));
    }
  }

  /** The `switch (move.direction)` of server.js:129-144: one clamped step, or
      `None` for the `default` branch. */
  function Advance(p: Pos, direction: string): (r: Option<Pos>)
    ensures r.Some? <==> IsDirection(direction)
    ensures r.Some? ==> r.value.x == p.x || r.value.y == p.y
    ensures r.Some? && InWorld(p) ==> InWorld(r.value)
    ensures r.Some? && 0 <= p.x <= 780 && 0 <= p.y <= 580 ==>
      && 0 <= r.value.x <= 780 && 0 <= r.value.y <= 580
      && p.x - MoveSpeed <= r.value.x <= p.x + MoveSpeed
      && p.y - MoveSpeed <= r.value.y <= p.y + MoveSpeed
  {
    if direction == "up" then Some(Pos(p.x, Max(0, p.y - MoveSpeed)))
    else if direction == "down" then Some(Pos(p.x, Min(GameHeight - PlayerSize, p.y + MoveSpeed)))
    else if direction == "left" then Some(Pos(Max(0, p.x - MoveSpeed), p.y))
    else if direction == "right" then Some(Pos(Min(GameWidth - PlayerSize, p.x + MoveSpeed), p.y))
    else None
  }

  /** A move request that passes the guard of server.js:119 and the switch. */
  predicate Accepts(w: World, id: string, arg: MoveArg)
    ensures Accepts(w, id, arg) <==>
      id in w.players && arg.Direction? && Advance(Pos(w.players[id].x, w.players[id].y), arg.direction).Some?
  {
    id in w.players && arg.Direction? && IsDirection(arg.direction)
  }

  /** The `connection` handler (server.js:99-115): the record is stored under the
      socket id (a new key goes to the end of the insertion order), the whole
      dictionary and the collectible go to the newcomer, the new record to the
      others. `pos` and `color` are the values the random draws produced. */
  function ConnectStep(w: World, id: string, pos: Pos, color: string): (s: Step)
    requires InWorld(pos)
    ensures s.world.players.Keys == w.players.Keys + {id}
    ensures s.world.players[id] == Rec(id, pos.x, pos.y, 0, color)
    ensures forall k | k in w.players && k != id :: s.world.players[k] == w.players[k]
    ensures s.world.order == if id in w.players then w.order else w.order + [id]
    ensures s.world.collectible == w.collectible
    ensures s.events == [
              Envelope(ToSocket(id), CurrentPlayers(s.world.players)),
              Envelope(ToSocket(id), CollectibleUpdate(w.collectible)),
              Envelope(ToOthers(id), NewPlayer(s.world.players[id]))]
    ensures Valid(w) ==> Valid(s.world)
  {
    var rec := Rec(id, pos.x, pos.y, 0, color);
    var players := w.players[id := rec];
    var order := if id in w.players then w.order else w.order + [id];
    var w' := World(players, order, w.collectible);
    assert Valid(w) && id !in w.players ==> id !in w.order;
    Step(w',
      [Envelope(ToSocket(id), CurrentPlayers(players)),
       Envelope(ToSocket(id), CollectibleUpdate(w.collectible)),
       Envelope(ToOthers(id), NewPlayer(players[id]))])
  }

  /** The `playerMove` handler (server.js:117-165). `next` is the position
      `getRandomPosition` would draw if the move scores. */
  function MoveStep(w: World, id: string, arg: MoveArg, next: Pos): (s: Step)
    requires InWorld(next)
    // Rejected requests (absent player, missing payload, non-string or unknown
    // direction) change nothing and emit nothing; accepted ones always emit.
    ensures s.events == [] <==> !Accepts(w, id, arg)
    ensures !Accepts(w, id, arg) ==> s.world == w
    // Only the mover's record changes, and only its position and score.
    ensures s.world.players.Keys == w.players.Keys && s.world.order == w.order
    ensures forall k | k in w.players && k != id :: s.world.players[k] == w.players[k]
    ensures Accepts(w, id, arg) ==>
      var p, q := w.players[id], s.world.players[id];
      && q.id == p.id && q.color == p.color
      && (arg.direction == "up" ==> q.x == p.x && q.y == Max(0, p.y - 5))
      && (arg.direction == "down" ==> q.x == p.x && q.y == Min(580, p.y + 5))
      && (arg.direction == "left" ==> q.y == p.y && q.x == Max(0, p.x - 5))
      && (arg.direction == "right" ==> q.y == p.y && q.x == Min(780, p.x + 5))
    // Scoring is decided at the new position: +10 and a relocated collectible,
    // announced before the move; otherwise score and collectible stay.
    ensures Accepts(w, id, arg) ==>
      var p, q := w.players[id], s.world.players[id];
      var moved := Envelope(ToAll, PlayerMoved(id, q.x, q.y));
      if Collides(Pos(q.x, q.y), w.collectible) then
        && q.score == p.score + 10
        && s.world.collectible == next
        && s.events == [Envelope(ToAll, ScoreUpdate(id, q.score)), Envelope(ToAll, CollectibleUpdate(next)), moved]
      else
        && q.score == p.score
        && s.world.collectible == w.collectible
        && s.events == [moved]
    ensures Valid(w) ==> Valid(s.world)
  {
    if id !in w.players || !arg.Direction? then Step(w, [])
    else
      var p := w.players[id];
      match Advance(Pos(p.x, p.y), arg.direction)
      case None => Step(w, [])
      case Some(np) => Land(w, id, np, next)
  }

  /** The part of the `playerMove` handler after the switch (server.js:146-164):
      the record takes the new position `np`; a collision there adds the reward,
      moves the collectible to `next` and is announced before the move. */
  function Land(w: World, id: string, np: Pos, next: Pos): (s: Step)
    requires id in w.players && InWorld(next)
    ensures s.world.players.Keys == w.players.Keys && s.world.order == w.order
    ensures forall k | k in w.players && k != id :: s.world.players[k] == w.players[k]
    ensures
      var p, q := w.players[id], s.world.players[id];
      var moved := Envelope(ToAll, PlayerMoved(id, np.x, np.y));
      && q.id == p.id && q.color == p.color && q.x == np.x && q.y == np.y
      && if Collides(np, w.collectible) then
           && q.score == p.score + 10
           && s.world.collectible == next
           && s.events == [Envelope(ToAll, ScoreUpdate(id, q.score)), Envelope(ToAll, CollectibleUpdate(next)), moved]
         else
           && q.score == p.score
           && s.world.collectible == w.collectible
           && s.events == [moved]
    ensures Valid(w) && InWorld(np) ==> Valid(s.world)
  {
    var moved := w.players[id].(x := np.x, y := np.y);
    if Collides(np, w.collectible) then
      var scored := moved.(score := moved.score + ScoreReward);
      ReplaceKeepsValid(w, id, scored, next);
      Step(w.(players := w.players[id := scored], collectible := next),
        [Envelope(ToAll, ScoreUpdate(id, scored.score)),
         Envelope(ToAll, CollectibleUpdate(next)),
         Envelope(ToAll, PlayerMoved(id, np.x, np.y))])
    else
      ReplaceKeepsValid(w, id, moved, w.collectible);
      Step(w.(players := w.players[id := moved]), [Envelope(ToAll, PlayerMoved(id, np.x, np.y))])
  }

  /** Replacing an existing record by one that keeps the record invariant, and
      the collectible by a position on the board, keeps the world invariant. */
  lemma ReplaceKeepsValid(w: World, id: string, q: Rec, c: Pos)
    requires id in w.players
    ensures Valid(w) && RecOk(id, q) && InWorld(c) ==> Valid(World(w.players[id := q], w.order, c))
  {
  }

  /** An accepted request, spelled out: the record takes the new position `np`
      and, on a hit, the reward; the collectible moves on a hit. */
  lemma MoveStepAccepted(w: World, id: string, arg: MoveArg, next: Pos, np: Pos)
    requires InWorld(next) && id in w.players && arg.Direction?
    requires Advance(Pos(w.players[id].x, w.players[id].y), arg.direction) == Some(np)
    ensures
      var p := w.players[id].(x := np.x, y := np.y);
      var hit := Collides(np, w.collectible);
      var q := if hit then p.(score := p.score + ScoreReward) else p;
      var s := MoveStep(w, id, arg, next);
      && s.world == World(w.players[id := q], w.order, if hit then next else w.collectible)
      && s.events == (if hit then [Envelope(ToAll, ScoreUpdate(id, q.score)), Envelope(ToAll, CollectibleUpdate(next))] else [])
                     + [Envelope(ToAll, PlayerMoved(id, np.x, np.y))]
  {
  }

  /** `order` without `x`; the other keys keep their relative order. */
  function Without(order: seq<string>, x: string): (t: seq<string>)
    ensures forall y :: y in t <==> y in order && y != x
    ensures Ranking.NoDuplicates(order) ==> Ranking.NoDuplicates(t)
    ensures x !in order ==> t == order
  {
    if order == [] then []
    else if order[0] == x then Without(order[1..], x)
    else
      var rest := Without(order[1..], x);
      assert Ranking.NoDuplicates(order) ==> order[0] !in order[1..];
      assert forall j | 1 <= j < |[order[0]] + rest| :: ([order[0]] + rest)[j] == rest[j - 1];
      [order[0]] + rest
  }

  /** Deleting a key that sits at position `i` of a repetition-free order cuts
      it out there and leaves every other key where it was relative to the rest. */
  lemma {:induction false} WithoutAt(order: seq<string>, x: string, i: int)
    requires Ranking.NoDuplicates(order) && 0 <= i < |order| && order[i] == x
    ensures Without(order, x) == order[..i] + order[i + 1..]
    decreases i
  {
    DistinctTail(order);
    if i == 0 {
      CutHead(order);
    } else {
      assert order[0] != x;
      WithoutAt(order[1..], x, i - 1);
      CutInside(order, i);
    }
  }

  lemma CutHead(order: seq<string>)
    requires order != []
    ensures order[..0] + order[1..] == order[1..]
  {
  }

  lemma CutInside(order: seq<string>, i: int)
    requires 0 < i < |order|
    ensures order[..i] + order[i + 1..] == [order[0]] + (order[1..][..i - 1] + order[1..][i..])
  {
    assert order[..i] == [order[0]] + order[1..][..i - 1];
    assert order[i + 1..] == order[1..][i..];
  }

  /** A repetition-free order loses its head without repeating it. */
  lemma DistinctTail(order: seq<string>)
    requires Ranking.NoDuplicates(order) && order != []
    ensures Ranking.NoDuplicates(order[1..]) && order[0] !in order[1..]
  {
    forall j | 0 <= j < |order| - 1 ensures order[1..][j] != order[0] {
      assert order[1..][j] == order[j + 1];
    }
  }

  /** The `disconnect` handler (server.js:167-171). */
  function DisconnectStep(w: World, id: string): (s: Step)
    ensures s.world.players.Keys == w.players.Keys - {id}
    ensures forall k | k in s.world.players :: s.world.players[k] == w.players[k]
    ensures s.world.collectible == w.collectible
    ensures s.world.order == Without(w.order, id)
    ensures s.events == [Envelope(ToAll, PlayerDisconnected(id))]
    ensures Valid(w) ==> Valid(s.world)
  {
    var order := Without(w.order, id);
    assert forall i | 0 <= i < |order| :: order[i] in order;
    Step(World(w.players - {id}, order, w.collectible),
      [Envelope(ToAll, PlayerDisconnected(id))])
  }

  /** The body of the one-second timer (server.js:93-96). */
  function RankStep(w: World): (s: Step)
    requires Ranking.OrderMatches(w.players, w.order)
    ensures s.world == w
    ensures |s.events| == 1 && s.events[0].target == ToAll && s.events[0].event.RankUpdate?
    ensures |s.events[0].event.ranks| == |w.players|
    ensures s.events[0].event.ranks == Ranking.PlayerRanks(w.players, w.order)
    ensures forall i, j | 0 <= i < j < |s.events[0].event.ranks| ::
      s.events[0].event.ranks[i].score >= s.events[0].event.ranks[j].score
  {
    Step(w, [Envelope(ToAll, RankUpdate(Ranking.PlayerRanks(w.players, w.order)))])
  }

  /** One event processed by the server's single thread. The random draws that
      the handlers make are carried by the event. */
  datatype Input =
    | Join(id: string, pos: Pos, color: string)
    | Request(id: string, arg: MoveArg, next: Pos)
    | Leave(id: string)
    | Tick

  predicate InputOk(i: Input)
  {
    match i
    case Join(_, pos, _) => InWorld(pos)
    case Request(_, _, next) => InWorld(next)
    case _ => true
  }

  function Apply(w: World, i: Input): (s: Step)
    requires InputOk(i) && Valid(w)
    ensures Valid(s.world)
  {
    match i
    case Join(id, pos, color) => ConnectStep(w, id, pos, color)
    case Request(id, arg, next) => MoveStep(w, id, arg, next)
    case Leave(id) => DisconnectStep(w, id)
    case Tick => RankStep(w)
  }

  /** Events processed strictly one after another; the messages accumulate in
      emission order. */
  function Run(w: World, inputs: seq<Input>): (s: Step)
    requires Valid(w) && forall i | 0 <= i < |inputs| :: InputOk(inputs[i])
    ensures Valid(s.world)
    decreases |inputs|
  {
    if inputs == [] then Step(w, [])
    else
      var first := Apply(w, inputs[0]);
      var rest := Run(first.world, inputs[1..]);
      Step(rest.world, first.events + rest.events)
  }

  /** A position inside the board, [0,780] x [0,580], stays inside. */
  lemma MoveStaysOnBoard(w: World, id: string, arg: MoveArg, next: Pos)
    requires InWorld(next) && id in w.players
    requires 0 <= w.players[id].x <= 780 && 0 <= w.players[id].y <= 580
    ensures var q := MoveStep(w, id, arg, next).world.players[id]; 0 <= q.x <= 780 && 0 <= q.y <= 580
  {
  }

  /** A position inside the spawn area, [0,799] x [0,599], stays inside it. */
  lemma MoveStaysInSpawnArea(w: World, id: string, arg: MoveArg, next: Pos)
    requires InWorld(next) && id in w.players
    requires InWorld(Pos(w.players[id].x, w.players[id].y))
    ensures var q := MoveStep(w, id, arg, next).world.players[id]; InWorld(Pos(q.x, q.y))
  {
  }

  /** A move never produces a negative coordinate from a non-negative one. */
  lemma MoveNeverNegative(w: World, id: string, arg: MoveArg, next: Pos)
    requires InWorld(next) && id in w.players
    requires w.players[id].x >= 0 && w.players[id].y >= 0
    ensures var q := MoveStep(w, id, arg, next).world.players[id]; q.x >= 0 && q.y >= 0
  {
  }

  /** Boxes that only touch do not collide. */
  lemma TouchingDoesNotCollide(p: Pos, item: Pos)
    requires p.x + PlayerSize == item.x || item.x + CollectibleSize == p.x
          || p.y + PlayerSize == item.y || item.y + CollectibleSize == p.y
    ensures !Collides(p, item)
  {
  }

  /** A player spawned near the right edge (x in 781..799) is pulled back to
      x = 780 by a `right` move, so the step moves it left. */
  lemma RightFromSpawnEdgeMovesLeft(w: World, id: string, next: Pos)
    requires InWorld(next) && id in w.players && 780 < w.players[id].x
    ensures MoveStep(w, id, Direction("right"), next).world.players[id].x == 780 < w.players[id].x
  {
  }

  /** Worked example: a player at (100,100) moving right towards a collectible at
      (125,100) does not score at x = 105 (the boxes touch) and scores 10 at
      x = 110, where the boxes first overlap. */
  lemma ApproachExample(id: string, color: string, next: Pos)
    requires InWorld(next)
    ensures
      var w0 := World(map[id := Rec(id, 100, 100, 0, color)], [id], Pos(125, 100));
      var s1 := MoveStep(w0, id, Direction("right"), next);
      var s2 := MoveStep(s1.world, id, Direction("right"), next);
      && s1.world.players[id] == Rec(id, 105, 100, 0, color)
      && s1.events == [Envelope(ToAll, PlayerMoved(id, 105, 100))]
      && s2.world.players[id] == Rec(id, 110, 100, 10, color)
      && s2.world.collectible == next
      && s2.events == [Envelope(ToAll, ScoreUpdate(id, 10)), Envelope(ToAll, CollectibleUpdate(next)),
                       Envelope(ToAll, PlayerMoved(id, 110, 100))]
  {
  }

  /** One event that is neither `k` joining nor `k` leaving keeps `k` connected
      and does not lower its score. */
  lemma StepScoreNeverDecreases(w: World, i: Input, k: string)
    requires Valid(w) && InputOk(i) && k in w.players
    requires i != Leave(k) && !(i.Join? && i.id == k)
    ensures k in Apply(w, i).world.players
    ensures Apply(w, i).world.players[k].score >= w.players[k].score
  {
  }

  /** Over any run in which `k` neither joins nor leaves, `k` stays connected and
      its score never decreases. */
  lemma {:induction false} RunScoreNeverDecreases(w: World, inputs: seq<Input>, k: string)
    requires Valid(w) && forall i | 0 <= i < |inputs| :: InputOk(inputs[i])
    requires k in w.players
    requires forall i | 0 <= i < |inputs| :: inputs[i] != Leave(k) && !(inputs[i].Join? && inputs[i].id == k)
    ensures k in Run(w, inputs).world.players
    ensures Run(w, inputs).world.players[k].score >= w.players[k].score
    decreases |inputs|
  {
    if inputs != [] {
      var first := Apply(w, inputs[0]);
      StepScoreNeverDecreases(w, inputs[0], k);
      var rest := inputs[1..];
      assert forall i | 0 <= i < |rest| :: rest[i] == inputs[i + 1];
      RunScoreNeverDecreases(first.world, rest, k);
    }
  }
}
