/** The server process's mutable state and its socket handlers, updating the
    `players` dictionary and the `collectible` in place and appending every
    emitted message to an outbox (server.js:57-171). */
module Server {
  import opened Protocol
  import Ranking
  import Game

  class GameServer {
    /** `players` (server.js:59), keyed by socket id. */
    var players: map<string, Rec>
    /** The insertion order of the keys of `players`, which `Object.values` follows. */
    var order: seq<string>
    /** `collectible` (server.js:60). */
    var collectible: Pos
    /** Every message emitted so far, with its addressees, in emission order. */
    var outbox: seq<Envelope>

    function State(): Game.World
      reads this
    {
      Game.World(players, order, collectible)
    }

    ghost predicate Valid()
      reads this
    {
      Game.Valid(State())
    }

    /** Start-up: no players, a collectible at the first random draw `initial`. */
    constructor (initial: Pos)
      requires InWorld(initial)
      ensures Valid()
      ensures players == map[] && order == [] && collectible == initial && outbox == []
    {
      players := map[];
      order := [];
      collectible := initial;
      outbox := [];
    }

    method Connect(id: string, pos: Pos, color: string)
      requires Valid() && InWorld(pos)
      modifies this
      ensures Valid()
      ensures var s := Game.ConnectStep(old(State()), id, pos, color);
        State() == s.world && outbox == old(outbox) + s.events
    {
      if id !in players {
        order := order + [id];
      }
      players := players[id := Rec(id, pos.x, pos.y, 0, color)];
      outbox := outbox + [Envelope(ToSocket(id), CurrentPlayers(players))];
      outbox := outbox + [Envelope(ToSocket(id), CollectibleUpdate(collectible))];
      outbox := outbox + [Envelope(ToOthers(id), NewPlayer(players[id]))];
    }

    method Move(id: string, arg: MoveArg, next: Pos)
      requires Valid() && InWorld(next)
      modifies this
      ensures Valid()
      ensures var s := Game.MoveStep(old(State()), id, arg, next);
        State() == s.world && outbox == old(outbox) + s.events
    {
      if id !in players || !arg.Direction? {
        return;
      }
      var player := players[id];
      var recognised, newX, newY := Switch(player.x, player.y, arg.direction);
      if !recognised {
        return;
      }
      Game.MoveStepAccepted(State(), id, arg, next, Pos(newX, newY));
      Resolve(id, newX, newY, next);
    }

    /** The `switch (move.direction)` of the `playerMove` handler
        (server.js:125-144): the clamped new position, or `false` for the
        `default` branch, which ignores the request. */
    static method Switch(x: int, y: int, direction: string) returns (recognised: bool, newX: int, newY: int)
      ensures recognised <==> IsDirection(direction)
      ensures recognised ==> Game.Advance(Pos(x, y), direction) == Some(Pos(newX, newY))
    {
      newX, newY := x, y;
      recognised := true;
      if direction == "up" {
        newY := Max(0, y - MoveSpeed);
      } else if direction == "down" {
        newY := Min(GameHeight - PlayerSize, y + MoveSpeed);
      } else if direction == "left" {
        newX := Max(0, x - MoveSpeed);
      } else if direction == "right" {
        newX := Min(GameWidth - PlayerSize, x + MoveSpeed);
      } else {
        recognised := false;
      }
    }

    /** The part of the `playerMove` handler after the switch (server.js:146-164):
        store the new position, score on a collision, announce the move. */
    method Resolve(id: string, newX: int, newY: int, next: Pos)
      requires id in players
      modifies this
      ensures order == old(order)
      ensures
        var p := old(players)[id].(x := newX, y := newY);
        var hit := Game.Collides(Pos(newX, newY), old(collectible));
        var q := if hit then p.(score := p.score + ScoreReward) else p;
        && players == old(players)[id := q]
        && collectible == (if hit then next else old(collectible))
        && outbox == old(outbox)
             + (if hit then [Envelope(ToAll, ScoreUpdate(id, q.score)), Envelope(ToAll, CollectibleUpdate(next))] else [])
             + [Envelope(ToAll, PlayerMoved(id, newX, newY))]
    {
      var player := players[id];
      player := player.(x := newX, y := newY);
      players := players[id := player];
      if Game.Collides(Pos(player.x, player.y), collectible) {
        player := player.(score := player.score + ScoreReward);
        players := players[id := player];
        collectible := next;
        outbox := outbox + [Envelope(ToAll, ScoreUpdate(id, player.score))];
        outbox := outbox + [Envelope(ToAll, CollectibleUpdate(collectible))];
      }
      outbox := outbox + [Envelope(ToAll, PlayerMoved(id, player.x, player.y))];
    }

    method Disconnect(id: string)
      requires Valid()
      modifies this
      ensures Valid()
      ensures var s := Game.DisconnectStep(old(State()), id);
        State() == s.world && outbox == old(outbox) + s.events
    {
      ghost var s := Game.DisconnectStep(State(), id);
      players := players - {id};
      order := Game.Without(order, id);
      assert State() == s.world;
      outbox := outbox + [Envelope(ToAll, PlayerDisconnected(id))];
    }

    method RankTick()
      requires Valid()
      modifies this`outbox
      ensures Valid()
      ensures outbox == old(outbox) + Game.RankStep(State()).events
    {
      var ranks := Ranking.PlayerRanks(players, order);
      assert Game.RankStep(State()).events == [Envelope(ToAll, RankUpdate(ranks))];
      outbox := outbox + [Envelope(ToAll, RankUpdate(ranks))];
    }

    /** One event, dispatched to its handler. */
    method Handle(i: Game.Input)
      requires Valid() && Game.InputOk(i)
      modifies this
      ensures Valid()
      ensures var s := Game.Apply(old(State()), i);
        State() == s.world && outbox == old(outbox) + s.events
    {
      match i {
        case Join(id, pos, color) =>
          assert Game.Apply(State(), i) == Game.ConnectStep(State(), id, pos, color);
          Connect(id, pos, color);
        case Request(id, arg, next) =>
          assert Game.Apply(State(), i) == Game.MoveStep(State(), id, arg, next);
          Move(id, arg, next);
        case Leave(id) =>
          assert Game.Apply(State(), i) == Game.DisconnectStep(State(), id);
          Disconnect(id);
        case Tick =>
          assert Game.Apply(State(), i) == Game.RankStep(State());
          RankTick();
      }
    }

    /** Events handled by the server's single thread, one after another. */
    method Process(inputs: seq<Game.Input>)
      requires Valid() && forall i | 0 <= i < |inputs| :: Game.InputOk(inputs[i])
      modifies this
      ensures Valid()
      ensures var s := Game.Run(old(State()), inputs);
        State() == s.world && outbox == old(outbox) + s.events
      decreases |inputs|
    {
      if inputs != [] {
        ghost var first := Game.Apply(State(), inputs[0]);
        Handle(inputs[0]);
        var rest := inputs[1..];
        assert forall j | 0 <= j < |rest| :: rest[j] == inputs[j + 1];
        ghost var after := Game.Run(first.world, rest);
        assert Game.Run(old(State()), inputs) == Game.Step(after.world, first.events + after.events);
        ghost var sent := outbox;
        Process(rest);
        assert outbox == sent + after.events;
        ConcatAssoc(old(outbox), first.events, after.events);
      }
    }
  }

  /** Regrouping the outbox: the messages of the first event and of the rest of
      the run are appended in that order. */
  lemma ConcatAssoc(a: seq<Envelope>, b: seq<Envelope>, c: seq<Envelope>)
    ensures a + b + c == a + (b + c)
  {
  }
}
