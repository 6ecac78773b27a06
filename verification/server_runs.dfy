/** What holds over whole runs of the server. */
module ServerRuns {
  import opened Wrappers
  import opened AoiGrid
  import opened GameModel
  import opened Replication
  import opened ViewChanges
  import opened ServerInvariants
  import opened ServerSteps
  import opened LoginLocks

  ghost predicate Inv(env: Environment, g: Game) {
    Consistent(env, g) && LocksOk(g.login)
  }

  lemma {:induction false} RunKeepsInv(env: Environment, g: Game, events: seq<Event>)
    requires Inv(env, g)
    ensures Inv(env, Run(env, g, events))
    decreases |events|
  {
    if events != [] {
      var before := Run(env, g, events[..|events| - 1]);
      RunKeepsInv(env, g, events[..|events| - 1]);
      StepKeeps(env, before, events[|events| - 1]);
      StepSettles(env, before, events[|events| - 1]);
    }
  }

  /** States the server can reach, whatever its clients, its sockets and its database do. */
  ghost predicate Reachable(env: Environment, g: Game) {
    exists events :: g == Run(env, EMPTY, events)
  }

  lemma ReachableInv(env: Environment, g: Game)
    requires Reachable(env, g)
    ensures Inv(env, g)
  {
    var events :| g == Run(env, EMPTY, events);
    EmptyConsistent(env);
    RunKeepsInv(env, EMPTY, events);
  }

  // ---------------------------------------------------------------- replication and agreement

  /** The neighbours that a client rebuilds from its own messages are exactly the players within
      view of its player, each with its current nickname and position. */
  lemma ViewReplication(env: Environment, g: Game, p: PlayerId)
    requires Reachable(env, g)
    requires p in g.play.online && g.play.online[p].connection !in g.net.marked
    ensures var known := ClientView(Sent(g.net, g.play.online[p].connection));
      && known.Keys == Visible(env.aoi, g.play.world, p)
      && forall q | q in known :: q in g.play.online &&
           known[q] == Seen(g.play.online[q].record.nickname,
                            Position(g.play.online[q].record.x, g.play.online[q].record.y))
  {
    ReachableInv(env, g);
  }

  /** Two clients in view of each other know of each other, and agree with the world on where they are. */
  lemma MutualSight(env: Environment, g: Game, p: PlayerId, q: PlayerId)
    requires Reachable(env, g)
    requires p in g.play.online && g.play.online[p].connection !in g.net.marked
    requires q in g.play.online && g.play.online[q].connection !in g.net.marked
    ensures q in ClientView(Sent(g.net, g.play.online[p].connection))
       <==> p in ClientView(Sent(g.net, g.play.online[q].connection))
  {
    ViewReplication(env, g, p);
    ViewReplication(env, g, q);
    VisibleSymmetric(env.aoi, g.play.world, p, q);
    VisibleSymmetric(env.aoi, g.play.world, q, p);
  }

  /** The five tables of the game and the three of the server agree. */
  lemma TablesAgree(env: Environment, g: Game)
    requires Reachable(env, g)
    ensures forall p :: p in g.play.online <==> p in g.play.world
    ensures forall p | p in g.play.online ::
      && g.play.online[p].record.playerId == p
      && Position(g.play.online[p].record.x, g.play.online[p].record.y) == g.play.world[p]
    ensures forall c, p :: c in g.play.bound && g.play.bound[c] == p <==> p in g.play.online && g.play.online[p].connection == c
    ensures forall c | c in g.play.bound || c in g.login.pendingConnections ::
      c in g.net.descriptors && !(c in g.play.bound && c in g.login.pendingConnections)
    ensures forall c, d :: c in g.net.descriptors && g.net.descriptors[c] == d <==> d in g.net.clients && g.net.clients[d] == c
    ensures |g.net.clients| <= env.maximumConnections && g.net.marked <= g.net.descriptors.Keys
  {
    ReachableInv(env, g);
  }

  /** A pending connection or a locked account always has a database callback still to come; so once
      the database owes nothing, nobody is locked out. */
  lemma NoLeakedLocks(env: Environment, g: Game)
    requires Reachable(env, g)
    ensures forall c | c in g.login.pendingConnections ::
      exists t :: t in g.login.inflight && ForConnection(g.login.inflight[t], c)
    ensures forall a | a in g.login.pendingAccounts ::
      exists t :: t in g.login.inflight && ForAccount(g.login.inflight[t], a)
    ensures (forall t | t in g.login.inflight :: g.login.inflight[t].AfterDisconnectSave?) ==>
      g.login.pendingConnections == map[] && g.login.pendingAccounts == {}
  {
    ReachableInv(env, g);
    assert forall c | c in g.login.pendingConnections :: Served(g.login, c);
    assert forall a | a in g.login.pendingAccounts :: Claimed(g.login, a);
  }

  // ---------------------------------------------------------------- connections through time

  /** How any event may change the life of a connection. */
  ghost predicate Evolves(g: Game, g': Game) {
    && g.net.lastId <= g'.net.lastId
    // ids are never reused
    && (forall c | c in g'.net.descriptors :: c in g.net.descriptors || c > g.net.lastId)
    // only a pending connection becomes bound, and a bound one is unbound only by being closed
    && (forall c | c in g'.play.bound ::
          (c in g.play.bound && g'.play.bound[c] == g.play.bound[c]) || c in g.login.pendingConnections)
    && (forall c | c in g.play.bound && c in g'.net.descriptors :: c in g'.play.bound)
    // only a live unbound connection becomes pending
    && (forall c | c in g'.login.pendingConnections ::
          c in g.login.pendingConnections || (c in g.net.descriptors && c !in g.play.bound))
    // a dead connection is sent nothing
    && (forall c: ConnectionId | c !in g.net.descriptors && c <= g.net.lastId :: Sent(g'.net, c) == Sent(g.net, c))
  }

  lemma SendEvolves(env: Environment, g: Game, out: seq<Outgoing>, login: Login)
    requires NetOk(env, g.net) && login.pendingConnections.Keys <= g.login.pendingConnections.Keys
    ensures Evolves(g, Game(SendEach(env, g.net, out), g.play, login))
  {
    SendEachKeeps(env, g.net, out);
    forall c | c !in g.net.descriptors
      ensures Sent(SendEach(env, g.net, out), c) == Sent(g.net, c)
    {
      SendEachSkipsDead(env, g.net, out, c);
    }
  }

  lemma FailEvolves(env: Environment, g: Game, c: ConnectionId, account: string, error: string)
    requires NetOk(env, g.net)
    ensures Evolves(g, FailLogin(env, g, c, account, error))
  {
    SendAsBatch(env, g.net, c, LoginRefused(error));
    SendEvolves(env, g, [Outgoing(c, LoginRefused(error))], FailLogin(env, g, c, account, error).login);
  }

  /** Dropping `c` and its player after anything that opens nothing. */
  lemma ForgetEvolves(g: Game, h: Game, c: ConnectionId)
    requires Evolves(g, h) && h.play == g.play && c in g.play.bound
    ensures Evolves(g, Game(Forget(h.net, c), Departed(h.play, c, h.play.bound[c]), h.login))
  {}

  lemma DepartureEvolves(env: Environment, g: Game, c: ConnectionId, login: Login)
    requires NetOk(env, g.net) && c in g.play.bound
    requires login.pendingConnections == g.login.pendingConnections - {c}
    ensures var p := g.play.bound[c];
      Evolves(g, Game(Forget(SendEach(env, g.net, DepartureNews(env.aoi, g.play, p)), c), Departed(g.play, c, p), login))
  {
    var out := DepartureNews(env.aoi, g.play, g.play.bound[c]);
    SendEvolves(env, g, out, login);
    ForgetEvolves(g, Game(SendEach(env, g.net, out), g.play, login), c);
  }

  lemma UnmarkEvolves(g: Game, c: ConnectionId)
    ensures Evolves(g, g.(net := g.net.(marked := g.net.marked - {c})))
  {}

  lemma SelfEvolves(g: Game)
    ensures Evolves(g, g)
  {}

  lemma CloseEvolves(env: Environment, g: Game, c: ConnectionId)
    requires Consistent(env, g)
    ensures Evolves(g, CloseConnection(env, g, c))
  {
    if c !in g.net.descriptors {
      UnmarkEvolves(g, c);
    } else if c in g.play.bound {
      CloseUnfolds(env, g, c);
      DepartureEvolves(env, g, c, CloseConnection(env, g, c).login);
    } else {
      CloseUnbound(env, g, c);
      SelfEvolves(g);
      UnboundEvolves(g, g, c);
    }
  }

  /** A change that opens no connection and makes nobody pending, followed by any other. */
  lemma EvolvesThrough(env: Environment, g: Game, h: Game, k: Game)
    requires Consistent(env, g) && Evolves(g, h) && Evolves(h, k)
    requires h.net.descriptors.Keys <= g.net.descriptors.Keys
    requires h.login.pendingConnections.Keys <= g.login.pendingConnections.Keys
    ensures Evolves(g, k)
  {}

  lemma EnterWorldEvolves(env: Environment, g: Game, c: ConnectionId, account: string, player: PlayerRecord, token: string)
    requires Consistent(env, g) && c in g.login.pendingConnections
    ensures Evolves(g, EnterWorld(env, g, c, account, player, token))
  {
    if player.playerId in g.play.world || !InMap(env.aoi, Position(player.x, player.y)) {
      FailEvolves(env, g, c, account, "player position is outside the world");
    } else {
      SendEvolves(env, g, ArrivalNews(env.aoi, Arrived(g.play, c, player, token), c, player, token), g.login);
      assert EnterWorld(env, g, c, account, player, token).play == Arrived(g.play, c, player, token);
    }
  }

  lemma FinishLoginEvolves(env: Environment, g: Game, c: ConnectionId, loaded: PlayerRecord, token: string, allow: bool)
    requires Consistent(env, g)
    ensures Evolves(g, FinishLogin(env, g, c, loaded, token, allow))
  {
    if Stale(g, c) {
    } else if loaded.playerId !in g.play.online {
      EnterWorldEvolves(env, g, c, loaded.account, loaded, token);
    } else if !allow {
      FailEvolves(env, g, c, loaded.account, "player is already online");
    } else {
      var displaced := g.play.online[loaded.playerId];
      var closed := CloseConnection(env, g, displaced.connection);
      CloseKeeps(env, g, displaced.connection);
      CloseEvolves(env, g, displaced.connection);
      CloseUnfolds(env, g, displaced.connection);
      EnterWorldEvolves(env, closed, c, loaded.account, displaced.record, token);
      CloseShrinks(env, g, displaced.connection);
      EvolvesThrough(env, g, closed, EnterWorld(env, closed, c, loaded.account, displaced.record, token));
    }
  }

  lemma CloseShrinks(env: Environment, g: Game, c: ConnectionId)
    requires Consistent(env, g)
    ensures CloseConnection(env, g, c).net.descriptors == g.net.descriptors - {c}
    ensures CloseConnection(env, g, c).login.pendingConnections.Keys <= g.login.pendingConnections.Keys
  {
    if c in g.net.descriptors {
      CloseUnfolds(env, g, c);
      if c in g.play.bound {
        SendEachKeeps(env, g.net, DepartureNews(env.aoi, g.play, g.play.bound[c]));
      }
    } else {
      assert g.net.descriptors - {c} == g.net.descriptors;
    }
  }

  lemma RequestEvolves(env: Environment, g: Game, c: ConnectionId, account: string, k: Continuation)
    requires Consistent(env, g)
    ensures var (login, ok) := Submit(env, g.login, k);
      Evolves(g, g.(login := login)) && Evolves(g, FailLogin(env, g.(login := login), c, account, "database queue is full"))
  {
    var login := Submit(env, g.login, k).0;
    SubmitKeeps(env, g, k);
    FailEvolves(env, g.(login := login), c, account, "database queue is full");
  }

  lemma StoreSessionEvolves(env: Environment, g: Game, c: ConnectionId, player: PlayerRecord, allow: bool, choice: Choice)
    requires Consistent(env, g)
    ensures Evolves(g, StoreSessionAndFinish(env, g, c, player, allow, choice))
  {
    FailEvolves(env, g, c, player.account, "player is already online");
    RequestEvolves(env, g, c, player.account, AfterStoreSession(c, player.account, player, choice.token, allow));
  }

  lemma ContinueLoginEvolves(env: Environment, g: Game, c: ConnectionId, loaded: PlayerRecord, token: string, newly: bool, choice: Choice)
    requires Consistent(env, g)
    ensures Evolves(g, ContinueLogin(env, g, c, loaded, token, newly, choice))
  {
    var player := loaded.(lastLogin := choice.now);
    StoreSessionEvolves(env, g, c, player, false, choice);
    RequestEvolves(env, g, c, player.account, AfterLoadSession(c, player.account, player, token, newly));
  }

  lemma PlayerLoadedEvolves(env: Environment, g: Game, c: ConnectionId, account: string, token: string,
                            result: DataResult<PlayerRecord>, choice: Choice)
    requires Consistent(env, g)
    ensures Evolves(g, OnPlayerLoaded(env, g, c, account, token, result, choice))
  {
    if Stale(g, c) {
    } else if result.Good() {
      ContinueLoginEvolves(env, g, c, result.value.value, token, false, choice);
    } else if result.status != NotFound {
      FailEvolves(env, g, c, account, "failed to load player");
    } else if token != "" {
      FailEvolves(env, g, c, account, "session does not exist");
    } else {
      RequestEvolves(env, g, c, account, AfterCreate(c, account, NewPlayer(env, account, choice)));
    }
  }

  /** The same event seen from a state that differs only in the callbacks in flight. */
  lemma EvolvesFrom(g: Game, g0: Game, k: Game)
    requires Evolves(g0, k) && g0.net == g.net && g0.play == g.play
    requires g0.login.pendingConnections == g.login.pendingConnections
    ensures Evolves(g, k)
  {}

  lemma ResumeEvolves(env: Environment, g: Game, k: Continuation, reply: Reply, choice: Choice)
    requires Consistent(env, g) && Honest(k, reply)
    ensures Evolves(g, Resume(env, g, k, reply, choice))
  {
    match k
    case AfterLoad(c, account, token) => PlayerLoadedEvolves(env, g, c, account, token, reply.player, choice);
    case AfterCreate(c, account, player) =>
      FailEvolves(env, g, c, account, "failed to create player");
      ContinueLoginEvolves(env, g, c, player, "", true, choice);
    case AfterLoadSession(c, account, player, token, newly) =>
      FailEvolves(env, g, c, account, "invalid or expired session");
      StoreSessionEvolves(env, g, c, player, true, choice);
    case AfterStoreSession(c, account, player, token, allow) =>
      FailEvolves(env, g, c, account, "failed to store session");
      FinishLoginEvolves(env, g, c, player, token, allow);
    case AfterDisconnectSave(_) =>
  }

  lemma DeliverEvolves(env: Environment, g: Game, ticket: Ticket, reply: Reply, choice: Choice)
    requires Consistent(env, g) && ticket in g.login.inflight && Honest(g.login.inflight[ticket], reply)
    ensures Evolves(g, Deliver(env, g, ticket, reply, choice))
  {
    var g0 := g.(login := g.login.(inflight := g.login.inflight - {ticket}));
    LoginChangeKeeps(env, g, g0.login);
    ResumeEvolves(env, g0, g.login.inflight[ticket], reply, choice);
    EvolvesFrom(g, g0, Deliver(env, g, ticket, reply, choice));
  }

  lemma HandleLoginEvolves(env: Environment, g: Game, c: ConnectionId, request: Option<LoginRequest>)
    requires Consistent(env, g) && IsConnected(g.net, c)
    ensures Evolves(g, HandleLogin(env, g, c, request))
  {
    if request.None? || request.value.account == "" || |request.value.account| > 64 ||
       c in g.play.bound || c in g.login.pendingConnections {
      FailEvolves(env, g, c, "", "invalid or duplicate login request");
    } else if request.value.account in g.login.pendingAccounts {
      FailEvolves(env, g, c, "", "account login is already pending");
    } else {
      var account := request.value.account;
      LockKeeps(env, g, c, account);
      RequestEvolves(env, g.(login := Lock(g.login, c, account)), c, account, AfterLoad(c, account, request.value.token));
    }
  }

  lemma HandleMoveEvolves(env: Environment, g: Game, c: ConnectionId, target: Option<Position>)
    requires Consistent(env, g)
    ensures Evolves(g, HandleMove(env, g, c, target))
  {
    if c in g.play.bound && target.Some? && InMap(env.aoi, target.value) {
      SendEvolves(env, g, MoveNews(env.aoi, g.play, g.play.bound[c], target.value), g.login);
    }
  }

  lemma HandleChatEvolves(env: Environment, g: Game, c: ConnectionId, text: Option<string>, order: seq<PlayerId>)
    requires Consistent(env, g)
    ensures Evolves(g, HandleChat(env, g, c, text, order))
  {
    if c in g.play.bound && text.Some? {
      var sender := g.play.online[g.play.bound[c]].record;
      SendEvolves(env, g, Broadcast(g.play.online, order, ChatBroadcast(sender.playerId, sender.nickname, text.value)), g.login);
    }
  }

  lemma HandleFrameEvolves(env: Environment, g: Game, c: ConnectionId, request: Request, order: seq<PlayerId>)
    requires Consistent(env, g) && IsConnected(g.net, c)
    ensures Evolves(g, HandleFrame(env, g, c, request, order))
  {
    match request
    case LoginFrame(login) => HandleLoginEvolves(env, g, c, login);
    case ChatFrame(text) => HandleChatEvolves(env, g, c, text, order);
    case MoveFrame(target) => HandleMoveEvolves(env, g, c, target);
    case HeartbeatFrame(parsed) =>
      SendAsBatch(env, g.net, c, Heartbeat);
      SendEvolves(env, g, [Outgoing(c, Heartbeat)], g.login);
    case OtherFrame => CloseEvolves(env, g, c);
  }

  lemma OpenedEvolves(env: Environment, g: Game, d: Descriptor)
    requires NetOk(env, g.net)
    ensures Evolves(g, g.(net := Opened(g.net, d)))
  {}

  lemma RejectedEvolves(env: Environment, g: Game, d: Descriptor)
    requires NetOk(env, g.net) && LinkOk(g)
    ensures Evolves(g, CloseConnection(env, g.(net := Opened(g.net, d)), g.net.lastId + 1))
  {
    var h, c := g.(net := Opened(g.net, d)), g.net.lastId + 1;
    OpenedIsNew(env, g.net);
    OpenedEvolves(env, g, d);
    CloseUnbound(env, h, c);
    UnboundEvolves(g, h, c);
  }

  lemma UnboundEvolves(g: Game, h: Game, c: ConnectionId)
    requires Evolves(g, h) && c !in h.play.bound && (c in g.net.descriptors ==> c !in g.play.bound)
    ensures Evolves(g, Game(Forget(h.net, c), h.play, CancelPending(h.login, c)))
  {}

  lemma AcceptEvolves(env: Environment, g: Game, d: Descriptor, registered: bool)
    requires Consistent(env, g) && d !in g.net.clients
    ensures Evolves(g, Accept(env, g, d, registered))
  {
    OpenedEvolves(env, g, d);
    RejectedRegistration(env, g, d);
    RejectedEvolves(env, g, d);
  }

  lemma SocketEvolves(env: Environment, g: Game, c: ConnectionId, script: seq<Tcp.SendResult>)
    ensures Evolves(g, g) && Evolves(g, g.(net := Flush(env, g.net, c, script))) && Evolves(g, g.(net := g.net.(marked := g.net.marked + {c})))
  {}

  lemma StepEvolves(env: Environment, g: Game, e: Event)
    requires Consistent(env, g)
    ensures Evolves(g, Step(env, g, e))
  {
    if Enabled(g, e) {
      match e
      case Accepted(d, registered) => AcceptEvolves(env, g, d, registered);
      case Handled(c, request, order) => HandleFrameEvolves(env, g, c, request, order);
      case Delivered(ticket, reply, choice) => DeliverEvolves(env, g, ticket, reply, choice);
      case Flushed(c, script) => SocketEvolves(env, g, c, script);
      case Marked(c) => SocketEvolves(env, g, c, []);
      case Closed(c) => CloseEvolves(env, g, c);
    } else {
      SocketEvolves(env, g, 0, []);
    }
  }

  /** The connection has been opened, and is bound to player `p` or closed. */
  predicate BoundOrClosed(g: Game, c: ConnectionId, p: PlayerId) {
    && 1 <= c <= g.net.lastId && c !in g.login.pendingConnections
    && (c in g.net.descriptors ==> c in g.play.bound && g.play.bound[c] == p)
  }

  lemma {:induction false} StaysBoundOrClosed(env: Environment, g: Game, events: seq<Event>, c: ConnectionId, p: PlayerId)
    requires Inv(env, g) && BoundOrClosed(g, c, p)
    ensures BoundOrClosed(Run(env, g, events), c, p)
    ensures c !in g.net.descriptors ==>
      c !in Run(env, g, events).net.descriptors && Sent(Run(env, g, events).net, c) == Sent(g.net, c)
    decreases |events|
  {
    if events != [] {
      var before := Run(env, g, events[..|events| - 1]);
      RunKeepsInv(env, g, events[..|events| - 1]);
      StaysBoundOrClosed(env, g, events[..|events| - 1], c, p);
      StepEvolves(env, before, events[|events| - 1]);
    }
  }

  /** One player for life: whatever happens after a connection is bound, it is never bound to
      anyone else, never waits for a login again, and has had one successful login response at most. */
  lemma BoundForLife(env: Environment, g: Game, c: ConnectionId, events: seq<Event>)
    requires Reachable(env, g) && c in g.play.bound
    ensures var later := Run(env, g, events);
      && (c in later.play.bound ==> later.play.bound[c] == g.play.bound[c])
      && (c in later.net.descriptors ==> c in later.play.bound)
      && c !in later.login.pendingConnections
      && Count(Welcome, Sent(later.net, c)) <= 1
  {
    ReachableInv(env, g);
    StaysBoundOrClosed(env, g, events, c, g.play.bound[c]);
    RunKeepsInv(env, g, events);
  }

  /** A closed connection stays closed: no event, and in particular no callback of a login it had
      started, binds it, makes it pending or sends it anything. */
  lemma ClosedForLife(env: Environment, g: Game, c: ConnectionId, events: seq<Event>)
    requires Reachable(env, g) && 1 <= c <= g.net.lastId && c !in g.net.descriptors
    ensures var later := Run(env, g, events);
      && c !in later.net.descriptors && c !in later.play.bound && c !in later.login.pendingConnections
      && Sent(later.net, c) == Sent(g.net, c)
  {
    ReachableInv(env, g);
    StaysBoundOrClosed(env, g, events, c, 0);
    RunKeepsInv(env, g, events);
  }
}
