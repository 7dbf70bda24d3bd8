/** What the server's messages do to a client that receives them in order: its
    players dictionary holds exactly the server's records, field for field, from
    the snapshot it gets on connecting for as long as it stays connected. */
module Sync {
  import opened Protocol
  import Game
  import Mirror
  import Client

  /** The client's dictionary has the server's keys and, under each, the server
      record's x, y, score, id and color. */
  predicate Synced(m: map<string, Mirror.Entry>, players: map<string, Rec>)
  {
    m.Keys == players.Keys && forall k | k in players :: m[k] == Mirror.EntryOf(players[k])
  }

  /** Receiving two batches of messages is receiving them one after the other. */
  lemma {:induction false} DeliverConcat(m: map<string, Mirror.Entry>, c: string, a: seq<Envelope>, b: seq<Envelope>)
    ensures Mirror.Deliver(m, c, a + b) == Mirror.Deliver(Mirror.Deliver(m, c, a), c, b)
    decreases |a|
  {
    if a == [] {
      assert a + b == b;
    } else {
      assert (a + b)[0] == a[0];
      assert (a + b)[1..] == a[1..] + b;
      var m' := if DeliveredTo(a[0], c) then Mirror.Receive(m, a[0].event) else m;
      DeliverConcat(m', c, a[1..], b);
    }
  }

  /** The connection handshake gives the newcomer the server's whole dictionary;
      entries it still held under other keys would survive, so it must hold none. */
  lemma NewcomerStartsSynced(w: Game.World, id: string, pos: Pos, color: string, m: map<string, Mirror.Entry>)
    requires InWorld(pos)
    requires m.Keys <= w.players.Keys + {id}
    ensures var s := Game.ConnectStep(w, id, pos, color);
      Synced(Mirror.Deliver(m, id, s.events), s.world.players)
  {
    var s := Game.ConnectStep(w, id, pos, color);
    var snap := Mirror.WithSnapshot(m, s.world.players);
    var e := s.events;
    assert e[1..][1..][1..] == [];
    assert Mirror.Deliver(m, id, e) == Mirror.Deliver(snap, id, e[1..]);
    assert Mirror.Deliver(snap, id, e[1..]) == Mirror.Deliver(snap, id, e[1..][1..]);
    assert Mirror.Deliver(snap, id, e[1..][1..]) == snap;
  }

  /** The precondition of `NewcomerStartsSynced` is needed: a page that reconnects
      under a new socket id keeps its dictionary, and an id the server no longer
      holds (such as its own old socket id) survives the handshake, so the page
      is then out of step with the server. */
  lemma StaleEntrySurvives(w: Game.World, id: string, pos: Pos, color: string, m: map<string, Mirror.Entry>, k: string)
    requires InWorld(pos)
    requires k in m && k !in w.players && k != id
    ensures var s := Game.ConnectStep(w, id, pos, color);
      var after := Mirror.Deliver(m, id, s.events);
      k in after && !Synced(after, s.world.players)
  {
    var s := Game.ConnectStep(w, id, pos, color);
    var snap := Mirror.WithSnapshot(m, s.world.players);
    var e := s.events;
    assert e[1..][1..][1..] == [];
    assert Mirror.Deliver(m, id, e) == Mirror.Deliver(snap, id, e[1..]);
    assert Mirror.Deliver(snap, id, e[1..]) == Mirror.Deliver(snap, id, e[1..][1..]);
    assert Mirror.Deliver(snap, id, e[1..][1..]) == snap;
  }

  /** Another player's arrival reaches `c` as `newPlayer`, which adds exactly
      the server's new record. */
  lemma JoinKeepsSync(w: Game.World, id: string, pos: Pos, color: string, c: string, m: map<string, Mirror.Entry>)
    requires InWorld(pos) && c != id
    requires Synced(m, w.players)
    ensures var s := Game.ConnectStep(w, id, pos, color);
      Synced(Mirror.Deliver(m, c, s.events), s.world.players)
  {
    var s := Game.ConnectStep(w, id, pos, color);
    var e := s.events;
    assert e[1..][1..][1..] == [];
    assert Mirror.Deliver(m, c, e) == Mirror.Deliver(m, c, e[1..]);
    assert Mirror.Deliver(m, c, e[1..]) == Mirror.Deliver(m, c, e[1..][1..]);
    assert Mirror.Deliver(m, c, e[1..][1..]) == Mirror.WithNewPlayer(m, s.world.players[id]);
  }

  /** A move reaches every client as `scoreUpdate` (on a hit) and `playerMoved`,
      which together copy the mover's new score and position. */
  lemma MoveKeepsSync(w: Game.World, id: string, arg: MoveArg, next: Pos, c: string, m: map<string, Mirror.Entry>)
    requires Game.Valid(w) && InWorld(next)
    requires Synced(m, w.players)
    ensures var s := Game.MoveStep(w, id, arg, next);
      Synced(Mirror.Deliver(m, c, s.events), s.world.players)
  {
    if Game.Accepts(w, id, arg) {
      var p := w.players[id];
      var np := Game.Advance(Pos(p.x, p.y), arg.direction).value;
      assert Game.MoveStep(w, id, arg, next) == Game.Land(w, id, np, next);
      LandKeepsSync(w, id, np, next, c, m);
    }
  }

  lemma LandKeepsSync(w: Game.World, id: string, np: Pos, next: Pos, c: string, m: map<string, Mirror.Entry>)
    requires id in w.players && InWorld(next)
    requires Synced(m, w.players)
    ensures var s := Game.Land(w, id, np, next);
      Synced(Mirror.Deliver(m, c, s.events), s.world.players)
  {
    var s := Game.Land(w, id, np, next);
    var e := s.events;
    var q := s.world.players[id];
    if Game.Collides(np, w.collectible) {
      var scored := Mirror.WithScore(m, id, q.score);
      assert e[1..][1..][1..] == [];
      assert Mirror.Deliver(m, c, e) == Mirror.Deliver(scored, c, e[1..]);
      assert Mirror.Deliver(scored, c, e[1..]) == Mirror.Deliver(scored, c, e[1..][1..]);
      assert Mirror.Deliver(scored, c, e[1..][1..]) == Mirror.WithPosition(scored, id, np.x, np.y);
    } else {
      assert e[1..] == [];
      assert Mirror.Deliver(m, c, e) == Mirror.WithPosition(m, id, np.x, np.y);
    }
  }

  /** Another player's departure reaches `c` as `playerDisconnected`, which removes
      exactly the key the server removed. */
  lemma LeaveKeepsSync(w: Game.World, id: string, c: string, m: map<string, Mirror.Entry>)
    requires Synced(m, w.players)
    ensures var s := Game.DisconnectStep(w, id);
      Synced(Mirror.Deliver(m, c, s.events), s.world.players)
  {
  }

  /** The leaderboard message leaves the players dictionary alone. */
  lemma RankUpdateIgnored(m: map<string, Mirror.Entry>, c: string, e: seq<Envelope>)
    requires |e| == 1 && e[0].event.RankUpdate?
    ensures Mirror.Deliver(m, c, e) == m
  {
  }

  /** One event handled by the server keeps every other connected client in sync
      and connected. */
  lemma StepKeepsSync(w: Game.World, i: Game.Input, c: string, m: map<string, Mirror.Entry>)
    requires Game.Valid(w) && Game.InputOk(i) && c in w.players
    requires i != Game.Leave(c) && !(i.Join? && i.id == c)
    requires Synced(m, w.players)
    ensures var s := Game.Apply(w, i);
      c in s.world.players && Synced(Mirror.Deliver(m, c, s.events), s.world.players)
  {
    match i {
      case Join(id, pos, color) =>
        assert Game.Apply(w, i) == Game.ConnectStep(w, id, pos, color);
        JoinKeepsSync(w, id, pos, color, c, m);
      case Request(id, arg, next) =>
        assert Game.Apply(w, i) == Game.MoveStep(w, id, arg, next);
        MoveKeepsSync(w, id, arg, next, c, m);
      case Leave(id) =>
        assert Game.Apply(w, i) == Game.DisconnectStep(w, id);
        LeaveKeepsSync(w, id, c, m);
      case Tick =>
        RankUpdateIgnored(m, c, Game.RankStep(w).events);
    }
  }

  /** Over any run in which client `c` neither connects again nor disconnects, the
      messages it receives keep its dictionary equal to the server's. */
  lemma {:induction false} RunKeepsSync(w: Game.World, inputs: seq<Game.Input>, c: string, m: map<string, Mirror.Entry>)
    requires Game.Valid(w) && forall j | 0 <= j < |inputs| :: Game.InputOk(inputs[j])
    requires c in w.players
    requires forall j | 0 <= j < |inputs| :: inputs[j] != Game.Leave(c) && !(inputs[j].Join? && inputs[j].id == c)
    requires Synced(m, w.players)
    ensures var s := Game.Run(w, inputs);
      c in s.world.players && Synced(Mirror.Deliver(m, c, s.events), s.world.players)
    decreases |inputs|
  {
    if inputs != [] {
      var first := Game.Apply(w, inputs[0]);
      StepKeepsSync(w, inputs[0], c, m);
      var m' := Mirror.Deliver(m, c, first.events);
      var rest := inputs[1..];
      assert forall j | 0 <= j < |rest| :: rest[j] == inputs[j + 1];
      RunKeepsSync(first.world, rest, c, m');
      var after := Game.Run(first.world, rest);
      assert Game.Run(w, inputs) == Game.Step(after.world, first.events + after.events);
      DeliverConcat(m, c, first.events, after.events);
    }
  }

  /** A client that connects with an empty dictionary and then receives everything
      addressed to it stays in sync for as long as it stays connected. */
  lemma {:induction false} JoinThenRunSynced(w: Game.World, c: string, pos: Pos, color: string, inputs: seq<Game.Input>)
    requires Game.Valid(w) && InWorld(pos) && forall j | 0 <= j < |inputs| :: Game.InputOk(inputs[j])
    requires forall j | 0 <= j < |inputs| :: inputs[j] != Game.Leave(c) && !(inputs[j].Join? && inputs[j].id == c)
    ensures var s := Game.Run(w, [Game.Join(c, pos, color)] + inputs);
      c in s.world.players && Synced(Mirror.Deliver(map[], c, s.events), s.world.players)
  {
    var all := [Game.Join(c, pos, color)] + inputs;
    var join := Game.ConnectStep(w, c, pos, color);
    NewcomerStartsSynced(w, c, pos, color, map[]);
    assert all[0] == Game.Join(c, pos, color) && all[1..] == inputs;
    var m := Mirror.Deliver(map[], c, join.events);
    RunKeepsSync(join.world, inputs, c, m);
    var after := Game.Run(join.world, inputs);
    assert Game.Run(w, all) == Game.Step(after.world, join.events + after.events);
    DeliverConcat(map[], c, join.events, after.events);
  }

  /** Every request the movement timer sends for a connected player passes the
      server's guard and its switch. */
  lemma TickRequestsAccepted(w: Game.World, c: string, ks: Client.KeyState)
    requires c in w.players
    ensures forall d | d in Client.Intents(ks) :: Game.Accepts(w, c, Direction(DirName(d)))
  {
  }
}
