/** `GameServer` and `GameService` as objects that update their tables in place and call each other.
    Every method is proved to do what the function of the same name in `GameModel` says; the event
    handlers are proved to be runs of that model, so all its theorems hold of the objects. */
module GameServers {
  import opened Wrappers
  import opened AoiGrid
  import opened FrameFormat
  import opened AoiWorldIndex
  import opened GameModel
  import opened Replication
  import opened ViewChanges
  import opened ServerSteps
  import opened ServerRuns
  import opened EventScripts
  import opened ClientConnectionTables
  import opened Chat

  // ---------------------------------------------------------------- sending in a loop

  lemma SendSnoc(env: Environment, net: Net, out: seq<Outgoing>, o: Outgoing)
    ensures SendEach(env, net, out + [o]) == Send(env, SendEach(env, net, out), o.to, o.message)
  {
    assert (out + [o])[..|out|] == out;
  }

  lemma BroadcastStep(env: Environment, net: Net, online: map<PlayerId, OnlinePlayer>, ids: seq<PlayerId>, m: Message, i: nat)
    requires i < |ids|
    ensures var sofar := SendEach(env, net, Broadcast(online, ids[..i], m));
      SendEach(env, net, Broadcast(online, ids[..i + 1], m)) ==
        if ids[i] in online then Send(env, sofar, online[ids[i]].connection, m) else sofar
  {
    assert ids[..i + 1][..i] == ids[..i];
    if ids[i] in online {
      SendSnoc(env, net, Broadcast(online, ids[..i], m), Outgoing(online[ids[i]].connection, m));
    } else {
      assert Broadcast(online, ids[..i], m) + [] == Broadcast(online, ids[..i], m);
    }
  }

  lemma BroadcastNext(env: Environment, net: Net, online: map<PlayerId, OnlinePlayer>, order: seq<PlayerId>, m: Message, q: PlayerId)
    requires q in online
    ensures SendEach(env, net, Broadcast(online, order + [q], m)) ==
      Send(env, SendEach(env, net, Broadcast(online, order, m)), online[q].connection, m)
  {
    assert (order + [q])[..|order|] == order && (order + [q])[..|order| + 1] == order + [q];
    BroadcastStep(env, net, online, order + [q], m, |order|);
  }

  lemma ExchangeLoopStep(env: Environment, net: Net, front: seq<Outgoing>, online: map<PlayerId, OnlinePlayer>, ids: seq<PlayerId>,
                         mover: PlayerRecord, c: ConnectionId, entering: bool, i: nat)
    requires i < |ids|
    ensures var sofar := SendEach(env, net, front + Exchange(online, ids[..i], mover, c, entering));
      SendEach(env, net, front + Exchange(online, ids[..i + 1], mover, c, entering)) ==
        if ids[i] in online
        then Send(env, Send(env, sofar, online[ids[i]].connection, Announcement(mover, entering)), c, Notice(online, ids[i], entering))
        else sofar
  {
    assert ids[..i + 1][..i] == ids[..i];
    var sofar := front + Exchange(online, ids[..i], mover, c, entering);
    if ids[i] in online {
      var first := Outgoing(online[ids[i]].connection, Announcement(mover, entering));
      var second := Outgoing(c, Notice(online, ids[i], entering));
      assert front + Exchange(online, ids[..i + 1], mover, c, entering) == sofar + [first] + [second];
      SendSnoc(env, net, sofar, first);
      SendSnoc(env, net, sofar + [first], second);
    } else {
      assert front + Exchange(online, ids[..i + 1], mover, c, entering) == sofar;
    }
  }

  lemma {:induction false} SendConcat(env: Environment, net: Net, a: seq<Outgoing>, b: seq<Outgoing>)
    ensures SendEach(env, net, a + b) == SendEach(env, SendEach(env, net, a), b)
    decreases |b|
  {
    if b == [] {
      assert a + b == a;
    } else {
      assert (a + b)[..|a + b| - 1] == a + b[..|b| - 1];
      SendConcat(env, net, a, b[..|b| - 1]);
    }
  }

  /** A walk over the table that has still to visit `rest`. */
  ghost predicate Walked(online: map<PlayerId, OnlinePlayer>, order: seq<PlayerId>, rest: set<PlayerId>) {
    rest <= online.Keys && NoRepeats(order) && forall q :: q in order <==> q in online && q !in rest
  }

  lemma WalkOn(online: map<PlayerId, OnlinePlayer>, order: seq<PlayerId>, rest: set<PlayerId>, q: PlayerId)
    requires Walked(online, order, rest) && q in rest
    ensures Walked(online, order + [q], rest - {q})
  {
    forall i, j | 0 <= i < j < |order + [q]|
      ensures (order + [q])[i] != (order + [q])[j]
    {
      assert order[i] in order;
    }
  }

  /** What becomes of a message depends on the traffic so far, not on the other tables. */
  lemma SameOffer(net: Net, traffic: Net, env: Environment, c: ConnectionId, m: Message)
    requires net.sent == traffic.sent && net.handed == traffic.handed && net.offers == traffic.offers
    ensures Offer(env, net, c, m) == Offer(env, traffic, c, m)
    ensures var a, b := Posted(net, c, m, Offer(env, net, c, m)), Posted(traffic, c, m, Offer(env, traffic, c, m));
      a.sent == b.sent && a.handed == b.handed && a.offers == b.offers
  {}

  lemma SamePending(net: Net, traffic: Net, env: Environment, c: ConnectionId, script: seq<Tcp.SendResult>)
    requires net.sent == traffic.sent && net.handed == traffic.handed
    ensures Pending(env, net, c) == Pending(env, traffic, c)
    ensures GameModel.Flush(env, net, c, script).handed == GameModel.Flush(env, traffic, c, script).handed
  {}

  // ---------------------------------------------------------------- the transport

  class GameServer {
    const env: Environment
    const sockets: ClientConnections
    var clients: map<Descriptor, ConnectionId>
    var connectionDescriptors: map<ConnectionId, Descriptor>
    var markedForClose: set<ConnectionId>
    var nextConnectionId: nat
    var game: GameService?

    // Every event since the server was started.
    ghost var trace: seq<Event>

    ghost function NetState(): Net
      reads this`clients, this`connectionDescriptors, this`markedForClose, this`nextConnectionId
      reads sockets`sent, sockets`handed, sockets`offers
    {
      Net(clients, connectionDescriptors, markedForClose, nextConnectionId, sockets.sent, sockets.handed, sockets.offers)
    }

    /** The connection objects are in step, and every live connection has one. */
    ghost predicate Wired()
      reads this`connectionDescriptors
      reads sockets`connections, sockets`sent, sockets`handed, sockets.connections.Values, sockets.Decoders()
    {
      sockets.env == env && sockets.Valid() && connectionDescriptors.Keys <= sockets.connections.Keys
    }

    ghost predicate Linked()
      reads this`game, this`connectionDescriptors, if game != null then {game.world, game.world.grids} else {}
      reads sockets`connections, sockets`sent, sockets`handed, sockets.connections.Values, sockets.Decoders()
    {
      game != null && game.server == this && game.world.Valid() && game.world.config == env.aoi && Wired()
    }

    ghost function State(): Game
      requires Linked()
      reads this`clients, this`connectionDescriptors, this`markedForClose, this`nextConnectionId, this`game
      reads sockets, sockets.connections.Values, sockets.Decoders(), game, if game != null then {game.world, game.world.grids} else {}
    {
      game.State()
    }

    /** The tables are those that the model reaches by the events so far. */
    ghost predicate Running()
      reads this, sockets, sockets.connections.Values, sockets.Decoders()
      reads game, if game != null then {game.world, game.world.grids} else {}
    {
      Linked() && State() == Run(env, EMPTY, trace)
    }

    /** Nothing that has been received on `c` waits to be decoded. */
    ghost predicate DrainedOn(c: ConnectionId)
      requires c in sockets.connections
      reads sockets`connections, sockets.connections[c].decoder
    {
      sockets.connections[c].Drained()
    }

    ghost predicate AllDrained()
      reads this`connectionDescriptors, sockets`connections, sockets.Decoders()
    {
      forall c {:trigger DrainedOn(c)} | c in connectionDescriptors && c in sockets.connections :: DrainedOn(c)
    }

    /** Between two turns of the event loop. */
    ghost predicate Ready()
      reads this, sockets, sockets.connections.Values, sockets.Decoders()
      reads game, if game != null then {game.world, game.world.grids} else {}
    {
      Running() && markedForClose == {} && AllDrained()
    }

    constructor (env: Environment)
      requires env.maximumPendingBytes > 0
      ensures this.env == env && Ready() && trace == [] && State() == EMPTY
      ensures fresh(sockets) && fresh(game) && fresh(game.world) && fresh(game.world.grids)
    {
      this.env := env;
      var sockets := new ClientConnections(env);
      this.sockets := sockets;
      clients, connectionDescriptors, markedForClose, nextConnectionId := map[], map[], {}, 0;
      trace := [];
      game := null;
      new;
      var world := new AoiWorld(env.aoi);
      game := new GameService(this, world);
    }

    /** The connection object's part of `Send`. */
    method Offer(c: ConnectionId, m: Message) returns (outcome: Tcp.SendOutcome)
      requires Wired() && c in connectionDescriptors
      modifies sockets`offers, sockets`sent, sockets`handed, sockets.connections.Values
      ensures Wired()
      ensures outcome == GameModel.Offer(env, old(NetState()), c, m).outcome
      ensures NetState() == Posted(old(NetState()), c, m, GameModel.Offer(env, old(NetState()), c, m)).(marked := markedForClose)
    {
      SameOffer(NetState(), sockets.Traffic(), env, c, m);
      outcome := sockets.Send(c, m);
    }

    method Send(c: ConnectionId, m: Message) returns (ok: bool)
      requires Wired()
      modifies `markedForClose, sockets`offers, sockets`sent, sockets`handed, sockets.connections.Values
      ensures Wired()
      ensures NetState() == GameModel.Send(env, old(NetState()), c, m)
      ensures ok ==> Sent(NetState(), c) == Sent(old(NetState()), c) + [m]
      ensures var outcome := GameModel.Offer(env, old(NetState()), c, m).outcome;
        ok <==> (c in connectionDescriptors && connectionDescriptors[c] in clients && (outcome == Tcp.Queued || outcome == Tcp.InterestFailed))
    {
      if c !in connectionDescriptors {
        return false;
      }
      if connectionDescriptors[c] !in clients {
        return false;
      }
      var outcome := Offer(c, m);
      ok := Keep(c, outcome);
    }

    /** A message that was not queued, or not flushed, marks its connection for close. */
    method Keep(c: ConnectionId, outcome: Tcp.SendOutcome) returns (ok: bool)
      modifies `markedForClose
      ensures markedForClose == old(markedForClose) + if outcome == Tcp.Queued then {} else {c}
      ensures ok <==> outcome == Tcp.Queued || outcome == Tcp.InterestFailed
    {
      if outcome == Tcp.Refused {
        markedForClose := markedForClose + {c};
        return false;
      }
      if outcome == Tcp.FlushFailed {
        markedForClose := markedForClose + {c};
        return false;
      }
      if outcome == Tcp.InterestFailed {
        markedForClose := markedForClose + {c};
      }
      return true;
    }

    predicate IsConnected(c: ConnectionId)
      reads this
    {
      c in connectionDescriptors && c !in markedForClose
    }

    method CloseConnection(c: ConnectionId)
      requires Linked() && OnlineInWorld(State().play)
      modifies `clients, `connectionDescriptors, `markedForClose, sockets`offers, sockets`sent, sockets`handed, sockets.connections.Values, game, game.world, game.world.grids
      ensures Linked() && State() == GameModel.CloseConnection(env, old(State()), c)
      ensures connectionDescriptors == old(connectionDescriptors) - {c}
      ensures old(AllDrained()) ==> AllDrained()
    {
      if c !in connectionDescriptors {
        Unmark(c);
        return;
      }
      var d := connectionDescriptors[c];
      game.OnDisconnected(c);
      Erase(c, d);
      StillDrained();
    }

    /** Closing decodes nothing. */
    twostate lemma StillDrained()
      requires connectionDescriptors.Keys <= old(connectionDescriptors).Keys && sockets.connections == old(sockets.connections)
      requires forall e | e in sockets.connections :: unchanged(sockets.connections[e].decoder)
      ensures old(AllDrained()) ==> AllDrained()
    {
      forall e | old(AllDrained()) && e in connectionDescriptors && e in sockets.connections
        ensures DrainedOn(e)
      {
        assert old(DrainedOn(e));
      }
    }

    method Unmark(c: ConnectionId)
      requires Linked() && c !in connectionDescriptors
      modifies `markedForClose
      ensures Linked() && connectionDescriptors == old(connectionDescriptors) - {c}
      ensures State() == old(State()).(net := old(NetState()).(marked := old(markedForClose) - {c}))
    {
      markedForClose := markedForClose - {c};
    }

    method Erase(c: ConnectionId, d: Descriptor)
      requires Linked()
      modifies `clients, `connectionDescriptors, `markedForClose
      ensures Linked() && connectionDescriptors == old(connectionDescriptors) - {c}
      ensures State() == old(State()).(net := old(NetState()).(
        clients := old(clients) - {d}, descriptors := old(connectionDescriptors) - {c}, marked := old(markedForClose) - {c}))
    {
      clients := clients - {d};
      connectionDescriptors := connectionDescriptors - {c};
      markedForClose := markedForClose - {c};
    }

    method Disconnect(c: ConnectionId)
      requires Linked() && OnlineInWorld(State().play)
      modifies `clients, `connectionDescriptors, `markedForClose, sockets`offers, sockets`sent, sockets`handed, sockets.connections.Values, game, game.world, game.world.grids
      ensures Linked() && State() == GameModel.CloseConnection(env, old(State()), c)
      ensures connectionDescriptors == old(connectionDescriptors) - {c}
    {
      CloseConnection(c);
    }

    // -------------------------------------------------------------- events

    /** The event that has just been handled joins the trace. */
    ghost method Log(e: Event)
      requires Linked() && State() == Step(env, Run(env, EMPTY, trace), e)
      modifies `trace
      ensures Running() && trace == old(trace) + [e] && State() == old(State())
    {
      RunSnoc(env, EMPTY, trace, e);
      trace := trace + [e];
    }

    method CloseNext(c: ConnectionId)
      requires Running()
      modifies `clients, `connectionDescriptors, `markedForClose, sockets`offers, sockets`sent, sockets`handed, sockets.connections.Values, `trace, game, game.world, game.world.grids
      ensures Running() && trace == old(trace) + [Closed(c)]
      ensures State() == GameModel.CloseConnection(env, old(State()), c)
      ensures connectionDescriptors == old(connectionDescriptors) - {c}
    {
      RunOnlineInWorld(env, trace);
      CloseConnection(c);
      Log(Closed(c));
    }

    method HandleNext(c: ConnectionId, request: Request)
      requires Running() && IsConnected(c)
      modifies `clients, `connectionDescriptors, `markedForClose, sockets`offers, sockets`sent, sockets`handed, sockets.connections.Values, `trace, game, game.world, game.world.grids
      ensures Running() && Hands(env, trace, old(trace), c, [request])
      ensures connectionDescriptors.Keys <= old(connectionDescriptors).Keys
      ensures !Rewires(old(NetState()), NetState())
    {
      RunOnlineInWorld(env, trace);
      ghost var order := game.HandleFrame(c, request);
      RunHandles(env, trace, c, request, order);
      Log(Handled(c, request, order));
      HandsOne(env, old(trace), Handled(c, request, order));
    }

    method DeliverNext(next: Completion)
      requires Running() && Answers(State(), next)
      modifies `clients, `connectionDescriptors, `markedForClose, sockets`offers, sockets`sent, sockets`handed, sockets.connections.Values, `trace, game, game.world, game.world.grids
      ensures Running() && trace == old(trace) + [Delivered(next.ticket, next.reply, next.choice)]
      ensures connectionDescriptors.Keys <= old(connectionDescriptors).Keys
      ensures State() == GameModel.Deliver(env, old(State()), next.ticket, next.reply, next.choice)
    {
      RunOnlineInWorld(env, trace);
      game.Deliver(next.ticket, next.reply, next.choice);
      Log(Delivered(next.ticket, next.reply, next.choice));
    }

    method Open(d: Descriptor) returns (c: ConnectionId)
      requires Linked()
      modifies `clients, `connectionDescriptors, `nextConnectionId, sockets`connections, sockets`sent, sockets`handed
      ensures Linked() && c == old(nextConnectionId) + 1 && State() == old(State()).(net := Opened(old(NetState()), d))
      ensures c in sockets.connections && sockets.connections == old(sockets.connections)[c := sockets.connections[c]]
      ensures fresh(sockets.connections[c]) && fresh(sockets.connections[c].decoder) && DrainedOn(c)
      ensures connectionDescriptors.Keys == old(connectionDescriptors).Keys + {c}
    {
      nextConnectionId := nextConnectionId + 1;
      c := nextConnectionId;
      clients := clients[d := c];
      connectionDescriptors := connectionDescriptors[c := d];
      sockets.Open(c);
    }

    method OpenDrained(d: Descriptor) returns (c: ConnectionId)
      requires Linked()
      modifies `clients, `connectionDescriptors, `nextConnectionId, sockets`connections, sockets`sent, sockets`handed
      ensures Linked() && c == old(nextConnectionId) + 1 && State() == old(State()).(net := Opened(old(NetState()), d))
      ensures fresh(sockets.connections.Values - old(sockets.connections.Values))
      ensures old(AllDrained()) ==> AllDrained()
    {
      c := Open(d);
      forall e | e in connectionDescriptors && e in sockets.connections && old(AllDrained())
        ensures DrainedOn(e)
      {
        assert e != c ==> e in old(connectionDescriptors) && e in old(sockets.connections) && old(DrainedOn(e));
      }
    }

    /** The body of the accept loop: a client beyond the limit is dropped at once. */
    method AcceptOne(d: Descriptor, registered: bool)
      requires Linked() && OnlineInWorld(State().play)
      modifies `clients, `connectionDescriptors, `markedForClose, `nextConnectionId, sockets`connections, sockets`offers, sockets`sent, sockets`handed, sockets.connections.Values, game, game.world, game.world.grids
      ensures Linked() && State() == Accept(env, old(State()), d, registered)
      ensures fresh(sockets.connections.Values - old(sockets.connections.Values))
      ensures old(AllDrained()) ==> AllDrained()
    {
      RejectedRegistration(env, State(), d);
      if |clients| >= env.maximumConnections {
        return;
      }
      var c := OpenDrained(d);
      CloseUnless(c, registered);
    }

    /** A connection that epoll would not take is closed again. */
    method CloseUnless(c: ConnectionId, registered: bool)
      requires Linked() && OnlineInWorld(State().play)
      modifies `clients, `connectionDescriptors, `markedForClose, sockets`offers, sockets`sent, sockets`handed, sockets.connections.Values, game, game.world, game.world.grids
      ensures Linked() && State() == if registered then old(State()) else GameModel.CloseConnection(env, old(State()), c)
      ensures old(AllDrained()) ==> AllDrained()
    {
      if !registered {
        CloseConnection(c);
      }
    }

    method AcceptAndLog(next: Arrival)
      requires Running() && next.descriptor !in clients
      modifies `nextConnectionId, sockets`connections
      modifies `clients, `connectionDescriptors, `markedForClose, sockets`offers, sockets`sent, sockets`handed, sockets.connections.Values, `trace, game, game.world, game.world.grids
      ensures Running() && trace == old(trace) + [Accepted(next.descriptor, next.registered)]
      ensures State() == Accept(env, old(State()), next.descriptor, next.registered)
      ensures fresh(sockets.connections.Values - old(sockets.connections.Values))
      ensures old(AllDrained()) ==> AllDrained()
    {
      RunOnlineInWorld(env, trace);
      AcceptOne(next.descriptor, next.registered);
      Log(Accepted(next.descriptor, next.registered));
    }

    method AcceptNext(next: Arrival)
      requires Ready() && next.descriptor !in clients
      modifies `nextConnectionId, sockets`connections
      modifies `clients, `connectionDescriptors, `markedForClose, sockets`offers, sockets`sent, sockets`handed, sockets.connections.Values, `trace, game, game.world, game.world.grids
      ensures Ready() && trace == old(trace) + [Accepted(next.descriptor, next.registered)]
      ensures State() == Accept(env, old(State()), next.descriptor, next.registered)
      ensures fresh(sockets.connections.Values - old(sockets.connections.Values))
    {
      RunAccepts(env, trace, next.descriptor, next.registered);
      AcceptAndLog(next);
    }

    method MarkNext(c: ConnectionId)
      requires Running() && c in connectionDescriptors
      modifies `markedForClose, `trace
      ensures Running() && trace == old(trace) + [Marked(c)] && markedForClose == old(markedForClose) + {c}
    {
      RunSnoc(env, EMPTY, trace, Marked(c));
      trace := trace + [Marked(c)];
      markedForClose := markedForClose + {c};
    }

    // -------------------------------------------------------------- one turn of the event loop

    /** Closes a marked connection: one live connection fewer, and no other mark forgotten. */
    method CloseMarked(c: ConnectionId)
      requires Running() && c in markedForClose
      modifies `clients, `connectionDescriptors, `markedForClose, sockets`offers, sockets`sent, sockets`handed, sockets.connections.Values, `trace, game, game.world, game.world.grids
      ensures Running() && trace == old(trace) + [Closed(c)]
      ensures connectionDescriptors == old(connectionDescriptors) - {c} && |connectionDescriptors| < |old(connectionDescriptors)|
      ensures old(markedForClose) - {c} <= markedForClose
    {
      RunCloses(env, trace, c);
      CloseNext(c);
    }

    /** Closing may mark more connections; it ends because every round closes a live one.  Nothing is
        closed but what is marked at that moment. */
    method CloseMarkedConnections()
      requires Running()
      modifies `clients, `connectionDescriptors, `markedForClose, sockets`offers, sockets`sent, sockets`handed, sockets.connections.Values, `trace, game, game.world, game.world.grids
      ensures Running() && markedForClose == {}
      ensures forall c :: c in connectionDescriptors ==> c in old(connectionDescriptors) && c !in old(markedForClose)
      ensures ClosesMarked(env, trace, old(trace))
      ensures old(markedForClose) == {} ==> trace == old(trace) && State() == old(State())
    {
      while markedForClose != {}
        invariant Running() && ClosesMarked(env, trace, old(trace))
        invariant forall c :: c in connectionDescriptors ==> c in old(connectionDescriptors)
        invariant forall c :: c in connectionDescriptors && c in old(markedForClose) ==> c in markedForClose
        decreases |connectionDescriptors|
      {
        var c :| c in markedForClose;
        ClosesOneMore(env, trace, old(trace), c);
        CloseMarked(c);
      }
      if old(markedForClose) == {} {
        NothingToClose(env, trace, old(trace));
      }
    }

    /** Takes every waiting connection that there is room for. */
    method AcceptReady(arrivals: seq<Arrival>)
      requires Ready() && Fresh(env, State(), arrivals)
      modifies `nextConnectionId, sockets`connections
      modifies `clients, `connectionDescriptors, `markedForClose, sockets`offers, sockets`sent, sockets`handed, sockets.connections.Values, `trace, game, game.world, game.world.grids
      ensures Ready() && Accepts(trace, old(trace), arrivals)
    {
      for i := 0 to |arrivals|
        invariant Ready() && Fresh(env, State(), arrivals[i..]) && Accepts(trace, old(trace), arrivals[..i])
        invariant fresh(sockets.connections.Values - old(sockets.connections.Values))
      {
        FreshNext(env, State(), arrivals, i);
        ghost var middle := trace;
        AcceptNext(arrivals[i]);
        AcceptsOneMore(trace, middle, old(trace), arrivals, i);
      }
      assert arrivals[..|arrivals|] == arrivals;
    }

    /** Hands over the frames of `c` until it is closed or marked. */
    method HandleFrames(c: ConnectionId, frames: seq<Request>) returns (handled: nat)
      requires Running()
      modifies `clients, `connectionDescriptors, `markedForClose, sockets`offers, sockets`sent, sockets`handed, sockets.connections.Values, `trace, game, game.world, game.world.grids
      ensures Running() && handled <= |frames| && (handled < |frames| ==> !IsConnected(c))
      ensures connectionDescriptors.Keys <= old(connectionDescriptors).Keys
      ensures !Rewires(old(NetState()), NetState())
      ensures Hands(env, trace, old(trace), c, frames[..handled])
    {
      handled := 0;
      for i := 0 to |frames|
        invariant Running() && handled == i && Hands(env, trace, old(trace), c, frames[..i])
        invariant connectionDescriptors.Keys <= old(connectionDescriptors).Keys
        invariant !Rewires(old(NetState()), NetState())
      {
        if !IsConnected(c) {
          break;
        }
        ghost var middle := trace;
        HandleNext(c, frames[i]);
        HandsOneMore(env, trace, middle, old(trace), c, frames, i);
        handled := i + 1;
      }
    }

    /** Flushes what is pending on `c`. */
    method Flush(c: ConnectionId, script: seq<Tcp.SendResult>) returns (status: Tcp.IoStatus)
      requires Wired() && c in connectionDescriptors
      modifies sockets`sent, sockets`handed, sockets.connections.Values
      ensures Wired() && NetState() == GameModel.Flush(env, old(NetState()), c, script)
      ensures status == Tcp.Taken(script, Pending(env, old(NetState()), c)).end
    {
      SamePending(NetState(), sockets.Traffic(), env, c, script);
      status := sockets.Flush(c, script);
    }

    method FlushNext(c: ConnectionId, script: seq<Tcp.SendResult>) returns (status: Tcp.IoStatus)
      requires Running() && c in connectionDescriptors
      modifies sockets`sent, sockets`handed, sockets.connections.Values, `trace
      ensures Running() && trace == old(trace) + [Flushed(c, script)]
      ensures status == Tcp.Taken(script, Pending(env, old(NetState()), c)).end
    {
      status := Flush(c, script);
      Log(Flushed(c, script));
    }

    /** Whether a flush that epoll asks for fails. */
    method FlushIfWritable(c: ConnectionId, ready: Readiness) returns (failed: bool)
      requires Running() && c in connectionDescriptors
      modifies sockets`sent, sockets`handed, sockets.connections.Values, `trace
      ensures Running() && trace == old(trace) + if ready.writable then [Flushed(c, ready.sends)] else []
      ensures failed <==> ready.writable && Tcp.Breaks(ready.sends, Pending(env, old(NetState()), c))
    {
      failed := false;
      if ready.writable {
        var status := FlushNext(c, ready.sends);
        failed := status != Tcp.Open;
        Tcp.FlushFailsExactlyIf(ready.sends, Pending(env, old(NetState()), c));
      } else {
        assert trace + [] == trace;
      }
    }

    method MarkIf(c: ConnectionId, doomed: bool)
      requires Running() && c in connectionDescriptors
      modifies `markedForClose, `trace
      ensures Running() && trace == old(trace) + if doomed then [Marked(c)] else []
      ensures old(markedForClose) <= markedForClose && (doomed ==> c in markedForClose)
    {
      if doomed {
        MarkNext(c);
      } else {
        assert trace + [] == trace;
      }
    }

    /** Flushes a live connection if epoll asks for it, and marks it if its socket is broken. */
    method FlushAndMark(c: ConnectionId, descriptor: Descriptor, broken: bool, ready: Readiness) returns (ghost doomed: bool)
      requires Running() && c in connectionDescriptors && connectionDescriptors[c] == descriptor && descriptor in clients
      modifies sockets`sent, sockets`handed, sockets.connections.Values, `markedForClose, `trace
      ensures Running() && old(markedForClose) <= markedForClose
      ensures doomed <==> Doomed(env, old(State()), c, broken, ready)
      ensures trace == old(trace) + Aftermath(c, ready, doomed) && (doomed ==> c in markedForClose)
    {
      var failed := false;
      if descriptor in clients {
        failed := FlushIfWritable(c, ready);
      }
      doomed := broken || failed || ready.peerShutdown || (descriptor in clients && !ready.interestUpdated);
      MarkIf(c, broken || failed || ready.peerShutdown || (descriptor in clients && !ready.interestUpdated));
    }

    /** Flushes, marks and closes. */
    method FlushAndClose(c: ConnectionId, descriptor: Descriptor, broken: bool, ready: Readiness) returns (ghost doomed: bool)
      requires Running() && (IsConnected(c) ==> connectionDescriptors[c] == descriptor)
      modifies `clients, `connectionDescriptors, `markedForClose, sockets`offers, sockets`sent, sockets`handed, sockets.connections.Values, `trace, game, game.world, game.world.grids
      ensures Running() && markedForClose == {}
      ensures connectionDescriptors.Keys <= old(connectionDescriptors).Keys
      ensures doomed <==> Doomed(env, old(State()), c, broken, ready)
      ensures ClosesMarked(env, trace, old(trace) + if old(IsConnected(c)) then Aftermath(c, ready, doomed) else [])
      ensures !old(IsConnected(c)) || doomed ==> c !in connectionDescriptors
    {
      doomed := Doomed(env, State(), c, broken, ready);
      RunNetOk(env, trace);
      if IsConnected(c) {
        doomed := FlushAndMark(c, descriptor, broken, ready);
      } else {
        assert trace + [] == trace;
      }
      CloseMarkedConnections();
    }

    /** The rest of `ClientReady`: a connection that is marked, or whose socket is broken, is closed. */
    method Settle(c: ConnectionId, descriptor: Descriptor, broken: bool, ready: Readiness) returns (ghost doomed: bool)
      requires Running() && (IsConnected(c) ==> connectionDescriptors[c] == descriptor)
      requires forall d {:trigger DrainedOn(d)} | d in connectionDescriptors && (d != c || !broken) :: DrainedOn(d)
      modifies `clients, `connectionDescriptors, `markedForClose, sockets`offers, sockets`sent, sockets`handed, sockets.connections.Values, `trace, game, game.world, game.world.grids
      ensures Ready()
      ensures doomed <==> Doomed(env, old(State()), c, broken, ready)
      ensures ClosesMarked(env, trace, old(trace) + if old(IsConnected(c)) then Aftermath(c, ready, doomed) else [])
      ensures !old(IsConnected(c)) || doomed ==> c !in connectionDescriptors
    {
      doomed := FlushAndClose(c, descriptor, broken, ready);
      forall d | d in connectionDescriptors
        ensures DrainedOn(d)
      {
        assert d in old(connectionDescriptors) && old(DrainedOn(d));
      }
    }

    /** Reads and decodes what has arrived on `c`, if anything. */
    method Read(c: ConnectionId, ready: Readiness) returns (reading: Tcp.Reading)
      requires Running() && AllDrained() && c in connectionDescriptors
      modifies sockets.connections[c].decoder
      ensures Running()
      ensures reading == Reading(ready, old(sockets.connections[c].decoder.received))
      ensures forall d {:trigger DrainedOn(d)} | d in connectionDescriptors && (d != c || reading.status != Tcp.IoError) :: DrainedOn(d)
    {
      assert DrainedOn(c);
      if !ready.readable {
        return Tcp.Reading([], Tcp.Open);
      }
      var status, frames := sockets.ReadAvailable(c, ready.arriving);
      forall d | d in connectionDescriptors && d != c
        ensures DrainedOn(d)
      {
        assert old(DrainedOn(d)) && sockets.Apart(c, d);
      }
      return Tcp.Reading(frames, status);
    }

    /** Reads from `c`, and hands the whole frames over until it is closed or marked. */
    method ReadAndHandle(c: ConnectionId, ready: Readiness) returns (reading: Tcp.Reading, handled: nat)
      requires Running() && AllDrained() && c in connectionDescriptors
      modifies sockets.connections[c].decoder
      modifies `clients, `connectionDescriptors, `markedForClose, sockets`offers, sockets`sent, sockets`handed, sockets.connections.Values, `trace, game, game.world, game.world.grids
      ensures Running() && !Rewires(old(NetState()), NetState())
      ensures reading == Reading(ready, old(sockets.connections[c].decoder.received))
      ensures handled <= |Requests(env, reading)| && (handled < |Requests(env, reading)| ==> !IsConnected(c))
      ensures Hands(env, trace, old(trace), c, Requests(env, reading)[..handled])
      ensures forall d {:trigger DrainedOn(d)} | d in connectionDescriptors && (d != c || reading.status != Tcp.IoError) :: DrainedOn(d)
    {
      reading := Read(c, ready);
      handled := HandleFrames(c, Requests(env, reading));
    }

    /** The whole frames read are handled in order until the connection is gone; a connection that is
        still connected then is flushed if epoll asks for it; and one that is marked, or whose socket is
        broken, is closed before the loop goes on.  Returns, for the record, how many frames were
        handled and the events up to the last of them. */
    method ClientReady(descriptor: Descriptor, ready: Readiness) returns (handled: nat, ghost middle: seq<Event>)
      requires Ready()
      modifies sockets.Decoders()
      modifies `clients, `connectionDescriptors, `markedForClose, sockets`offers, sockets`sent, sockets`handed, sockets.connections.Values, `trace, game, game.world, game.world.grids
      ensures Ready()
      ensures descriptor !in old(clients) ==> trace == old(trace)
      ensures descriptor in old(clients) ==> Served(old(clients)[descriptor], ready, old(ReceivedOn(clients[descriptor])), handled, old(trace), middle)
    {
      handled, middle := 0, trace;
      if descriptor !in clients {
        return;
      }
      var c := clients[descriptor];
      RunNetOk(env, trace);
      var reading;
      reading, handled := ReadAndHandle(c, ready);
      middle := trace;
      ghost var doomed := Settle(c, descriptor, ready.hangup || reading.status != Tcp.Open, ready);
    }

    ghost function ReceivedOn(c: ConnectionId): seq<byte>
      reads sockets`connections, sockets.Decoders()
    {
      if c in sockets.connections then sockets.connections[c].decoder.received else []
    }

    /** What `ClientReady` has done for `c`, whose decoder had been given `received`.  Up to `middle` whole
        frames were handed over, all of them unless `c` was closed or marked on the way.  If `c` was still
        connected then, it was flushed if epoll asked for it, and marked exactly if it was doomed.  All
        that followed were closes of marked connections. */
    ghost predicate Served(c: ConnectionId, ready: Readiness, received: seq<byte>, handled: nat, before: seq<Event>, middle: seq<Event>)
      reads this`connectionDescriptors, this`trace
    {
      var reading, g := Reading(ready, received), Run(env, EMPTY, middle);
      var alive, doomed := GameModel.IsConnected(g.net, c), Doomed(env, g, c, ready.hangup || reading.status != Tcp.Open, ready);
      && handled <= |Requests(env, reading)| && (handled < |Requests(env, reading)| ==> !alive)
      && Hands(env, middle, before, c, Requests(env, reading)[..handled])
      && ClosesMarked(env, trace, middle + if alive then Aftermath(c, ready, doomed) else [])
      && (!alive || doomed ==> c !in connectionDescriptors)
    }

    /** Runs the callbacks of finished database requests. */
    method Drain(batch: seq<Completion>)
      requires Running() && Answerable(env, State(), batch)
      modifies `clients, `connectionDescriptors, `markedForClose, sockets`offers, sockets`sent, sockets`handed, sockets.connections.Values, `trace, game, game.world, game.world.grids
      ensures Running() && Delivers(trace, old(trace), batch)
      ensures connectionDescriptors.Keys <= old(connectionDescriptors).Keys
    {
      for i := 0 to |batch|
        invariant Running() && Answerable(env, State(), batch[i..]) && Delivers(trace, old(trace), batch[..i])
        invariant connectionDescriptors.Keys <= old(connectionDescriptors).Keys
      {
        AnswerableNext(env, State(), batch, i);
        ghost var middle := trace;
        DeliverNext(batch[i]);
        DeliversOneMore(trace, middle, old(trace), batch, i);
      }
      assert batch[..|batch|] == batch;
    }

    /** The database woke the loop. */
    method DatabaseReady(batch: seq<Completion>)
      requires Ready() && Answerable(env, State(), batch)
      modifies `clients, `connectionDescriptors, `markedForClose, sockets`offers, sockets`sent, sockets`handed, sockets.connections.Values, `trace, game, game.world, game.world.grids
      ensures Ready()
      ensures exists middle :: Delivers(middle, old(trace), batch) && ClosesMarked(env, trace, middle)
    {
      Drain(batch);
      ghost var middle := trace;
      CloseMarkedConnections();
      assert Delivers(middle, old(trace), batch) && ClosesMarked(env, trace, middle);
      forall d | d in connectionDescriptors
        ensures DrainedOn(d)
      {
        assert d in old(connectionDescriptors) && old(DrainedOn(d));
      }
    }

    /** Closes the connections that are there now, in some order. */
    method CloseEach()
      requires Running()
      modifies `clients, `connectionDescriptors, `markedForClose, sockets`offers, sockets`sent, sockets`handed, sockets.connections.Values, `trace, game, game.world, game.world.grids
      ensures Running() && connectionDescriptors == map[] && Closes(trace, old(trace))
    {
      var connections := connectionDescriptors.Keys;
      while connections != {}
        invariant Running() && Closes(trace, old(trace))
        invariant connectionDescriptors.Keys <= connections
      {
        var c :| c in connections;
        connections := connections - {c};
        CloseNext(c);
      }
    }

    /** The first half of the destructor: afterwards nobody is connected, online or waiting. */
    method CloseAll()
      requires Running()
      modifies `clients, `connectionDescriptors, `markedForClose, sockets`offers, sockets`sent, sockets`handed, sockets.connections.Values, `trace, game, game.world, game.world.grids
      ensures Running() && markedForClose == {} && clients == map[] && connectionDescriptors == map[]
      ensures State().play == EMPTY.play && game.pendingConnections == map[]
      ensures Closes(trace, old(trace))
    {
      CloseEach();
      RunNothingLeft(env, trace);
    }

    /** The second half: the pool has finished every accepted request, and its callbacks run
        against a server without connections.  Nothing is left, not even a locked account. */
    method FinishCallbacks(batch: seq<Completion>)
      requires Running() && connectionDescriptors == map[] && Answerable(env, State(), batch)
      requires forall t | t in game.inflight :: exists i :: 0 <= i < |batch| && batch[i].ticket == t
      modifies `clients, `connectionDescriptors, `markedForClose, sockets`offers, sockets`sent, sockets`handed, sockets.connections.Values, `trace, game, game.world, game.world.grids
      ensures Running() && State().net == old(State()).net
      ensures State().play == EMPTY.play && game.pendingConnections == map[] && game.pendingAccounts == {} && game.inflight == map[]
    {
      Drain(batch);
      CallbacksAfterTheLastClose(env, old(trace), trace, batch);
      RunNothingLeft(env, trace);
    }
  }

  // ---------------------------------------------------------------- the game

  class GameService {
    const server: GameServer
    const world: AoiWorld
    var onlinePlayers: map<PlayerId, OnlinePlayer>
    var connectionPlayers: map<ConnectionId, PlayerId>
    var pendingConnections: map<ConnectionId, string>
    var pendingAccounts: set<string>

    // The model's view of the database service: requests made, and callbacks not run yet.
    var requests: nat
    var inflight: map<Ticket, Continuation>

    ghost predicate Linked()
      reads server`game, server`connectionDescriptors, world, world.grids
      reads server.sockets`connections, server.sockets`sent, server.sockets`handed
      reads server.sockets.connections.Values, server.sockets.Decoders()
    {
      server.game == this && world.Valid() && world.config == server.env.aoi && server.Wired()
    }

    ghost function State(): Game
      reads this, world
      reads server`clients, server`connectionDescriptors, server`markedForClose, server`nextConnectionId
      reads server.sockets`sent, server.sockets`handed, server.sockets`offers
    {
      Game(server.NetState(),
           Play(world.Positions(), onlinePlayers, connectionPlayers),
           Login(pendingConnections, pendingAccounts, inflight, requests))
    }

    constructor (server: GameServer, world: AoiWorld)
      ensures this.server == server && this.world == world
      ensures onlinePlayers == map[] && connectionPlayers == map[] && pendingConnections == map[] && pendingAccounts == {}
      ensures requests == 0 && inflight == map[]
    {
      this.server := server;
      this.world := world;
      onlinePlayers, connectionPlayers, pendingConnections, pendingAccounts := map[], map[], map[], {};
      requests, inflight := 0, map[];
    }

    /** One call of `AsyncDataService`: in flight if the pool's queue has room. */
    method Submit(k: Continuation) returns (ok: bool)
      requires Linked()
      modifies `requests, `inflight
      ensures Linked() && ok == GameModel.Submit(server.env, old(State()).login, k).1
      ensures State() == old(State()).(login := GameModel.Submit(server.env, old(State()).login, k).0)
    {
      ok := server.env.accepts(requests);
      if ok {
        inflight := inflight[requests := k];
      }
      requests := requests + 1;
    }

    /** One message to one connection. */
    method Tell(c: ConnectionId, m: Message)
      requires Linked()
      modifies server`markedForClose, server.sockets`offers, server.sockets`sent, server.sockets`handed, server.sockets.connections.Values
      ensures Linked()
      ensures State() == old(State()).(net := GameModel.Send(server.env, old(server.NetState()), c, m))
    {
      var ok := server.Send(c, m);
    }

    /** The loop shared by the handlers that tell a set of players one thing. */
    method TellPlayers(ids: seq<PlayerId>, m: Message)
      requires Linked()
      modifies server`markedForClose, server.sockets`offers, server.sockets`sent, server.sockets`handed, server.sockets.connections.Values
      ensures Linked()
      ensures State() == old(State()).(net := SendEach(server.env, old(server.NetState()), Broadcast(onlinePlayers, ids, m)))
    {
      for i := 0 to |ids|
        invariant Linked()
        invariant server.NetState() == SendEach(server.env, old(server.NetState()), Broadcast(onlinePlayers, ids[..i], m))
      {
        BroadcastStep(server.env, old(server.NetState()), onlinePlayers, ids, m, i);
        if ids[i] in onlinePlayers {
          Tell(onlinePlayers[ids[i]].connection, m);
        }
      }
      assert ids[..|ids|] == ids;
    }

    /** Forgets the connection's pending login and unlocks its account. */
    method DropPending(c: ConnectionId)
      requires Linked()
      modifies `pendingConnections, `pendingAccounts
      ensures Linked()
      ensures State() == old(State()).(login := CancelPending(old(State()).login, c))
    {
      if c in pendingConnections {
        pendingAccounts := pendingAccounts - {pendingConnections[c]};
        pendingConnections := pendingConnections - {c};
      }
    }

    /** Takes a player out of the tables, keeping what the rest of `OnDisconnected` needs: whom it
        could see, and its last record. */
    method Leave(c: ConnectionId) returns (visible: set<PlayerId>, record: PlayerRecord)
      requires Linked() && OnlineInWorld(State().play)
      requires c in connectionPlayers && connectionPlayers[c] in onlinePlayers
      modifies `onlinePlayers, `connectionPlayers, world, world.grids
      ensures Linked()
      ensures State() == old(State()).(play := Departed(old(State()).play, c, old(connectionPlayers)[c]))
      ensures visible == Visible(server.env.aoi, old(world.Positions()), old(connectionPlayers)[c])
      ensures record == old(onlinePlayers)[old(connectionPlayers)[c]].record
    {
      var p := connectionPlayers[c];
      assert p in State().play.world;
      var found := world.VisiblePlayers(p);
      visible, record := found.value, onlinePlayers[p].record;
      var removed := world.RemovePlayer(p);
      onlinePlayers := onlinePlayers - {p};
      connectionPlayers := connectionPlayers - {c};
    }

    method OnDisconnected(c: ConnectionId)
      requires Linked() && OnlineInWorld(State().play)
      modifies this, world, world.grids, server`markedForClose, server.sockets`offers, server.sockets`sent, server.sockets`handed, server.sockets.connections.Values
      ensures Linked() && State() == GameModel.OnDisconnected(server.env, old(State()), c)
    {
      DropPending(c);
      if c !in connectionPlayers {
        return;
      }
      var p := connectionPlayers[c];
      if p !in onlinePlayers {
        connectionPlayers := connectionPlayers - {c};
        return;
      }
      var visible, record := Leave(c);
      TellPlayers(Ascending(visible), PlayerLeave(p));
      var ok := Submit(AfterDisconnectSave(record));
    }

    method FailLogin(c: ConnectionId, account: string, error: string)
      requires Linked()
      modifies `pendingConnections, `pendingAccounts, server`markedForClose, server.sockets`offers, server.sockets`sent, server.sockets`handed, server.sockets.connections.Values
      ensures Linked() && State() == GameModel.FailLogin(server.env, old(State()), c, account, error)
    {
      if account != "" {
        pendingAccounts := pendingAccounts - {account};
      }
      DropPending(c);
      if !server.IsConnected(c) {
        return;
      }
      Tell(c, LoginRefused(error));
    }

    predicate GivenUp(c: ConnectionId)
      reads this, server
    {
      !server.IsConnected(c) || c !in pendingConnections
    }

    method Unlock(c: ConnectionId, account: string)
      requires Linked()
      modifies `pendingConnections, `pendingAccounts
      ensures Linked()
      ensures State() == old(State()).(login := Release(old(State()).login, c, account))
    {
      pendingAccounts := pendingAccounts - {account};
      pendingConnections := pendingConnections - {c};
    }

    method HandleLogin(c: ConnectionId, request: Option<LoginRequest>)
      requires Linked()
      modifies this, server`markedForClose, server.sockets`offers, server.sockets`sent, server.sockets`handed, server.sockets.connections.Values
      ensures Linked() && State() == GameModel.HandleLogin(server.env, old(State()), c, request)
    {
      if request.None? || request.value.account == "" || |request.value.account| > 64 ||
         c in connectionPlayers || c in pendingConnections {
        FailLogin(c, "", "invalid or duplicate login request");
        return;
      }
      if request.value.account in pendingAccounts {
        FailLogin(c, "", "account login is already pending");
        return;
      }
      var account := request.value.account;
      pendingConnections := pendingConnections[c := account];
      pendingAccounts := pendingAccounts + {account};
      var ok := Submit(AfterLoad(c, account, request.value.token));
      if !ok {
        FailLogin(c, account, "database queue is full");
      }
    }

    method NewPlayer(account: string, choice: Choice) returns (player: PlayerRecord)
      requires Linked()
      ensures player == GameModel.NewPlayer(server.env, account, choice)
      ensures InMap(world.config, Position(player.x, player.y))
    {
      var aoi: AoiSettings := server.env.aoi;
      player := PlayerRecord(choice.playerId, account, choice.nickname,
                             (aoi.minX + aoi.maxX) / 2.0, (aoi.minY + aoi.maxY) / 2.0, 0.0, choice.now);
      CentreInMap(server.env.aoi);
    }

    /** The callback of `LoadPlayer`. */
    method OnPlayerLoaded(c: ConnectionId, account: string, token: string, result: DataResult<PlayerRecord>, choice: Choice)
      requires Linked()
      modifies this, server`markedForClose, server.sockets`offers, server.sockets`sent, server.sockets`handed, server.sockets.connections.Values
      ensures Linked() && State() == GameModel.OnPlayerLoaded(server.env, old(State()), c, account, token, result, choice)
    {
      if GivenUp(c) {
        Unlock(c, account);
        return;
      }
      if result.Good() {
        ContinueLogin(c, result.value.value, token, false, choice);
        return;
      }
      if result.status != NotFound {
        FailLogin(c, account, "failed to load player");
        return;
      }
      var player := NewPlayer(account, choice);
      if token != "" {
        FailLogin(c, account, "session does not exist");
        return;
      }
      var ok := Submit(AfterCreate(c, account, player));
      if !ok {
        FailLogin(c, account, "database queue is full");
      }
    }

    /** The callback of `SavePlayer` for a new player. */
    method OnPlayerCreated(c: ConnectionId, account: string, player: PlayerRecord, status: DataStatus, choice: Choice)
      requires Linked()
      modifies this, server`markedForClose, server.sockets`offers, server.sockets`sent, server.sockets`handed, server.sockets.connections.Values
      ensures Linked() && State() == GameModel.OnPlayerCreated(server.env, old(State()), c, account, player, status, choice)
    {
      if status != Ok {
        FailLogin(c, account, "failed to create player");
        return;
      }
      ContinueLogin(c, player, "", true, choice);
    }

    method ContinueLogin(c: ConnectionId, loaded: PlayerRecord, token: string, newlyCreated: bool, choice: Choice)
      requires Linked()
      modifies this, server`markedForClose, server.sockets`offers, server.sockets`sent, server.sockets`handed, server.sockets.connections.Values
      ensures Linked() && State() == GameModel.ContinueLogin(server.env, old(State()), c, loaded, token, newlyCreated, choice)
    {
      if GivenUp(c) {
        Unlock(c, loaded.account);
        return;
      }
      var player := loaded.(lastLogin := choice.now);
      if token == "" {
        StoreSessionAndFinish(c, player, false, choice);
        return;
      }
      var ok := Submit(AfterLoadSession(c, player.account, player, token, newlyCreated));
      if !ok {
        FailLogin(c, player.account, "database queue is full");
      }
    }

    /** The callback of `LoadSession`. */
    method OnSessionLoaded(c: ConnectionId, account: string, player: PlayerRecord, token: string, newlyCreated: bool,
                           result: DataResult<SessionRecord>, choice: Choice)
      requires Linked()
      modifies this, server`markedForClose, server.sockets`offers, server.sockets`sent, server.sockets`handed, server.sockets.connections.Values
      ensures Linked()
      ensures State() == GameModel.OnSessionLoaded(server.env, old(State()), c, account, player, token, newlyCreated, result, choice)
    {
      if newlyCreated || !result.Good() || result.value.value.token != token {
        FailLogin(c, account, "invalid or expired session");
        return;
      }
      StoreSessionAndFinish(c, player, true, choice);
    }

    method StoreSessionAndFinish(c: ConnectionId, player: PlayerRecord, allowReplacement: bool, choice: Choice)
      requires Linked()
      modifies this, server`markedForClose, server.sockets`offers, server.sockets`sent, server.sockets`handed, server.sockets.connections.Values
      ensures Linked() && State() == GameModel.StoreSessionAndFinish(server.env, old(State()), c, player, allowReplacement, choice)
    {
      if GivenUp(c) {
        Unlock(c, player.account);
        return;
      }
      if player.playerId in onlinePlayers && !allowReplacement {
        FailLogin(c, player.account, "player is already online");
        return;
      }
      var ok := Submit(AfterStoreSession(c, player.account, player, choice.token, allowReplacement));
      if !ok {
        FailLogin(c, player.account, "database queue is full");
      }
    }

    /** The callback of `StoreSession`. */
    method OnSessionStored(c: ConnectionId, account: string, player: PlayerRecord, token: string, allowReplacement: bool, status: DataStatus)
      requires Linked() && OnlineInWorld(State().play)
      modifies this, world, world.grids
      modifies server`clients, server`connectionDescriptors, server`markedForClose, server.sockets`offers, server.sockets`sent, server.sockets`handed, server.sockets.connections.Values
      ensures Linked()
      ensures State() == GameModel.OnSessionStored(server.env, old(State()), c, account, player, token, allowReplacement, status)
      ensures server.connectionDescriptors.Keys <= old(server.connectionDescriptors).Keys
    {
      if status != Ok {
        FailLogin(c, account, "failed to store session");
        return;
      }
      FinishLogin(c, player, token, allowReplacement);
    }

    /** A displaced login closes the old connection, which comes back into `OnDisconnected`. */
    method FinishLogin(c: ConnectionId, loaded: PlayerRecord, token: string, allowReplacement: bool)
      requires Linked() && OnlineInWorld(State().play)
      modifies this, world, world.grids
      modifies server`clients, server`connectionDescriptors, server`markedForClose, server.sockets`offers, server.sockets`sent, server.sockets`handed, server.sockets.connections.Values
      ensures Linked()
      ensures State() == GameModel.FinishLogin(server.env, old(State()), c, loaded, token, allowReplacement)
      ensures server.connectionDescriptors.Keys <= old(server.connectionDescriptors).Keys
    {
      if GivenUp(c) {
        Unlock(c, loaded.account);
        return;
      }
      var player := loaded;
      if loaded.playerId in onlinePlayers {
        if !allowReplacement {
          FailLogin(c, loaded.account, "player is already online");
          return;
        }
        var existing := onlinePlayers[loaded.playerId];
        player := existing.record;
        server.Disconnect(existing.connection);
      }
      EnterWorld(c, loaded.account, player, token);
    }

    /** The views of the given players who are online. */
    method ViewsOf(ids: seq<PlayerId>) returns (views: seq<PlayerView>)
      ensures views == Views(onlinePlayers, ids)
    {
      views := [];
      for i := 0 to |ids|
        invariant views == Views(onlinePlayers, ids[..i])
      {
        assert ids[..i + 1][..i] == ids[..i];
        if ids[i] in onlinePlayers {
          views := views + [ViewOf(onlinePlayers[ids[i]].record)];
        } else {
          assert Views(onlinePlayers, ids[..i]) + [] == Views(onlinePlayers, ids[..i]);
        }
      }
      assert ids[..|ids|] == ids;
    }

    method Bind(c: ConnectionId, player: PlayerRecord, token: string)
      requires Linked()
      modifies `onlinePlayers, `connectionPlayers
      ensures Linked()
      ensures State() == old(State()).(play := Play(
        world.Positions(),
        if player.playerId in old(onlinePlayers) then old(onlinePlayers)
        else old(onlinePlayers)[player.playerId := OnlinePlayer(player, c, token)],
        old(connectionPlayers)[c := player.playerId]))
    {
      connectionPlayers := connectionPlayers[c := player.playerId];
      if player.playerId !in onlinePlayers {
        onlinePlayers := onlinePlayers[player.playerId := OnlinePlayer(player, c, token)];
      }
    }

    /** Joins the player tables; the rest of `FinishLogin` then tells everybody. */
    method Join(c: ConnectionId, account: string, player: PlayerRecord, token: string) returns (visible: set<PlayerId>)
      requires Linked() && player.playerId in world.Positions()
      modifies `onlinePlayers, `connectionPlayers, `pendingConnections, `pendingAccounts
      ensures Linked() && server.NetState() == old(server.NetState())
      ensures State().login == Release(old(State()).login, c, account)
      ensures State().play == Play(
        world.Positions(),
        if player.playerId in old(onlinePlayers) then old(onlinePlayers)
        else old(onlinePlayers)[player.playerId := OnlinePlayer(player, c, token)],
        old(connectionPlayers)[c := player.playerId])
      ensures visible == Visible(server.env.aoi, world.Positions(), player.playerId)
    {
      Bind(c, player, token);
      Unlock(c, account);
      var found := world.VisiblePlayers(player.playerId);
      visible := found.value;
    }

    method EnterWorld(c: ConnectionId, account: string, player: PlayerRecord, token: string)
      requires Linked()
      modifies this, world, world.grids, server`markedForClose, server.sockets`offers, server.sockets`sent, server.sockets`handed, server.sockets.connections.Values
      ensures Linked() && State() == GameModel.EnterWorld(server.env, old(State()), c, account, player, token)
    {
      var added := world.AddPlayer(player.playerId, Position(player.x, player.y));
      if !added {
        FailLogin(c, account, "player position is outside the world");
        return;
      }
      var visible := Join(c, account, player, token);
      Announce(c, player, token, Ascending(visible));
    }

    /** Welcomes the newcomer, and tells everybody in view. */
    method Announce(c: ConnectionId, player: PlayerRecord, token: string, ids: seq<PlayerId>)
      requires Linked()
      modifies server`markedForClose, server.sockets`offers, server.sockets`sent, server.sockets`handed, server.sockets.connections.Values
      ensures Linked()
      ensures State() == old(State()).(net := SendEach(server.env, old(server.NetState()),
        [Outgoing(c, LoginAccepted(ViewOf(player), Views(onlinePlayers, ids), token))] +
        Broadcast(onlinePlayers, ids, PlayerEnter(ViewOf(player)))))
    {
      var nearby := ViewsOf(ids);
      var welcome := LoginAccepted(ViewOf(player), nearby, token);
      Tell(c, welcome);
      TellPlayers(ids, PlayerEnter(ViewOf(player)));
      SendAsBatch(server.env, old(server.NetState()), c, welcome);
      SendConcat(server.env, old(server.NetState()), [Outgoing(c, welcome)], Broadcast(onlinePlayers, ids, PlayerEnter(ViewOf(player))));
    }

    /** Returns, for the record, the order in which the hash table was walked. */
    method HandleChat(c: ConnectionId, text: Option<string>) returns (ghost order: seq<PlayerId>)
      requires Linked()
      modifies server`markedForClose, server.sockets`offers, server.sockets`sent, server.sockets`handed, server.sockets.connections.Values
      ensures Linked() && State() == GameModel.HandleChat(server.env, old(State()), c, text, order)
      ensures MayChat(server.env, old(State()), c, text) ==> Everyone(onlinePlayers, order)
    {
      order := [];
      if c !in connectionPlayers || connectionPlayers[c] !in onlinePlayers ||
         text.None? || text.value == "" || |text.value| > server.env.maximumChatBytes {
        return;
      }
      var sender := onlinePlayers[connectionPlayers[c]].record;
      order := TellEveryone(ChatBroadcast(sender.playerId, sender.nickname, text.value));
    }

    method TellEveryone(m: Message) returns (ghost order: seq<PlayerId>)
      requires Linked()
      modifies server`markedForClose, server.sockets`offers, server.sockets`sent, server.sockets`handed, server.sockets.connections.Values
      ensures Linked()
      ensures Everyone(onlinePlayers, order)
      ensures State() == old(State()).(net := SendEach(server.env, old(server.NetState()), Broadcast(onlinePlayers, order, m)))
    {
      order := [];
      var rest := onlinePlayers.Keys;
      while rest != {}
        invariant Walked(onlinePlayers, order, rest)
        invariant Linked()
        invariant server.NetState() == SendEach(server.env, old(server.NetState()), Broadcast(onlinePlayers, order, m))
      {
        var q :| q in rest;
        WalkOn(onlinePlayers, order, rest, q);
        BroadcastNext(server.env, old(server.NetState()), onlinePlayers, order, m, q);
        Tell(onlinePlayers[q].connection, m);
        order, rest := order + [q], rest - {q};
      }
    }

    /** Tells one player about the mover and the mover about that player. */
    method ExchangeOne(q: PlayerId, mover: PlayerRecord, c: ConnectionId, entering: bool)
      requires Linked() && q in onlinePlayers
      modifies server`markedForClose, server.sockets`offers, server.sockets`sent, server.sockets`handed, server.sockets.connections.Values
      ensures Linked()
      ensures State() == old(State()).(net := GameModel.Send(server.env,
        GameModel.Send(server.env, old(server.NetState()), onlinePlayers[q].connection, Announcement(mover, entering)),
        c, Notice(onlinePlayers, q, entering)))
    {
      Tell(onlinePlayers[q].connection, if entering then PlayerEnter(ViewOf(mover)) else PlayerLeave(mover.playerId));
      Tell(c, if entering then PlayerEnter(ViewOf(onlinePlayers[q].record)) else PlayerLeave(q));
    }

    /** Tells each player about the mover and the mover about each player. */
    method ExchangeViews(ids: seq<PlayerId>, mover: PlayerRecord, c: ConnectionId, entering: bool, ghost net: Net, ghost front: seq<Outgoing>)
      requires Linked() && server.NetState() == SendEach(server.env, net, front)
      modifies server`markedForClose, server.sockets`offers, server.sockets`sent, server.sockets`handed, server.sockets.connections.Values
      ensures Linked()
      ensures State() == old(State()).(net := SendEach(server.env, net, front + Exchange(onlinePlayers, ids, mover, c, entering)))
    {
      assert front + [] == front;
      for i := 0 to |ids|
        invariant Linked()
        invariant server.NetState() == SendEach(server.env, net, front + Exchange(onlinePlayers, ids[..i], mover, c, entering))
      {
        ExchangeLoopStep(server.env, net, front, onlinePlayers, ids, mover, c, entering, i);
        if ids[i] !in onlinePlayers {
          continue;
        }
        ExchangeOne(ids[i], mover, c, entering);
      }
      assert ids[..|ids|] == ids;
    }

    /** Moves a player in the index and in its record. */
    method Relocate(key: PlayerId, at: Position) returns (delta: Option<ViewDelta>)
      requires Linked() && key in onlinePlayers
      modifies `onlinePlayers, world, world.grids
      ensures Linked() && server.NetState() == old(server.NetState())
      ensures var p := old(onlinePlayers)[key].record.playerId;
        && (delta.Some? <==> p in old(world.Positions()) && InMap(server.env.aoi, at))
        && (delta.None? ==> State() == old(State()))
        && (delta.Some? ==>
              && world.Positions() == old(world.Positions())[p := at]
              && onlinePlayers == old(onlinePlayers)[key := old(onlinePlayers)[key].(
                   record := old(onlinePlayers)[key].record.(x := at.x, y := at.y))]
              && var before, now := Visible(server.env.aoi, old(world.Positions()), p), Visible(server.env.aoi, world.Positions(), p);
                 delta.value == ViewDelta(now - before, before - now, before * now))
    {
      var mover := onlinePlayers[key];
      delta := world.MovePlayer(mover.record.playerId, at);
      if delta.None? {
        return;
      }
      onlinePlayers := onlinePlayers[key := mover.(record := mover.record.(x := at.x, y := at.y))];
    }

    /** Tells the mover and everybody concerned. */
    method TellMove(c: ConnectionId, record: PlayerRecord, at: Position, delta: ViewDelta)
      requires Linked()
      modifies server`markedForClose, server.sockets`offers, server.sockets`sent, server.sockets`handed, server.sockets.connections.Values
      ensures Linked()
      ensures State() == old(State()).(net := SendEach(server.env, old(server.NetState()),
        Broadcast(onlinePlayers, Ascending(delta.stayed), PlayerMove(record.playerId, at)) +
        Exchange(onlinePlayers, Ascending(delta.entered), record, c, true) +
        Exchange(onlinePlayers, Ascending(delta.left), record, c, false)))
    {
      TellPlayers(Ascending(delta.stayed), PlayerMove(record.playerId, at));
      ghost var told := Broadcast(onlinePlayers, Ascending(delta.stayed), PlayerMove(record.playerId, at));
      ExchangeViews(Ascending(delta.entered), record, c, true, old(server.NetState()), told);
      told := told + Exchange(onlinePlayers, Ascending(delta.entered), record, c, true);
      ExchangeViews(Ascending(delta.left), record, c, false, old(server.NetState()), told);
    }

    method HandleMove(c: ConnectionId, target: Option<Position>)
      requires Linked()
      modifies `onlinePlayers, world, world.grids, server`markedForClose, server.sockets`offers, server.sockets`sent, server.sockets`handed, server.sockets.connections.Values
      ensures Linked() && State() == GameModel.HandleMove(server.env, old(State()), c, target)
    {
      if c !in connectionPlayers || connectionPlayers[c] !in onlinePlayers || target.None? {
        return;
      }
      var delta := Relocate(connectionPlayers[c], target.value);
      if delta.None? {
        return;
      }
      TellMove(c, onlinePlayers[connectionPlayers[c]].record, target.value, delta.value);
    }

    method HandleHeartbeat(c: ConnectionId, parsed: bool)
      requires Linked()
      modifies server`markedForClose, server.sockets`offers, server.sockets`sent, server.sockets`handed, server.sockets.connections.Values
      ensures Linked() && State() == GameModel.HandleHeartbeat(server.env, old(State()), c, parsed)
    {
      if parsed {
        Tell(c, Heartbeat);
      }
    }

    method HandleFrame(c: ConnectionId, request: Request) returns (ghost order: seq<PlayerId>)
      requires Linked() && OnlineInWorld(State().play)
      modifies this, world, world.grids
      modifies server`clients, server`connectionDescriptors, server`markedForClose, server.sockets`offers, server.sockets`sent, server.sockets`handed, server.sockets.connections.Values
      ensures Linked() && State() == GameModel.HandleFrame(server.env, old(State()), c, request, order)
      ensures request.ChatFrame? && MayChat(server.env, old(State()), c, request.text) ==> Everyone(old(onlinePlayers), order)
      ensures server.connectionDescriptors.Keys <= old(server.connectionDescriptors).Keys
    {
      order := [];
      match request
      case LoginFrame(login) => HandleLogin(c, login);
      case ChatFrame(text) => order := HandleChat(c, text);
      case MoveFrame(target) => HandleMove(c, target);
      case HeartbeatFrame(parsed) => HandleHeartbeat(c, parsed);
      case OtherFrame => server.Disconnect(c);
    }

    /** Runs the callback of a finished database request. */
    method Deliver(ticket: Ticket, reply: Reply, choice: Choice)
      requires Linked() && OnlineInWorld(State().play)
      requires ticket in inflight && Honest(inflight[ticket], reply)
      modifies this, world, world.grids
      modifies server`clients, server`connectionDescriptors, server`markedForClose, server.sockets`offers, server.sockets`sent, server.sockets`handed, server.sockets.connections.Values
      ensures Linked() && State() == GameModel.Deliver(server.env, old(State()), ticket, reply, choice)
      ensures server.connectionDescriptors.Keys <= old(server.connectionDescriptors).Keys
    {
      var k := inflight[ticket];
      inflight := inflight - {ticket};
      match k
      case AfterLoad(c, account, token) => OnPlayerLoaded(c, account, token, reply.player, choice);
      case AfterCreate(c, account, player) => OnPlayerCreated(c, account, player, reply.status, choice);
      case AfterLoadSession(c, account, player, token, newly) =>
        OnSessionLoaded(c, account, player, token, newly, reply.session, choice);
      case AfterStoreSession(c, account, player, token, allow) => OnSessionStored(c, account, player, token, allow, reply.status);
      case AfterDisconnectSave(_) =>
    }
  }

  /** Every theorem about reachable states of the model holds of a running server. */
  lemma RunningIsReachable(server: GameServer)
    requires server.Running()
    ensures Reachable(server.env, server.State())
  {}
}
