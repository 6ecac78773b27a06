/** How connections close: an event closes a live connection in one of three ways, and each of them
    asks the database to save the player's last state. */
module Departures {
  import opened Wrappers
  import opened AoiGrid
  import opened GameModel
  import opened Replication
  import opened ViewChanges
  import opened ServerInvariants
  import opened ServerSteps
  import opened ServerRuns
  import opened DatabaseRequests

  /** The connection whose place is taken over by the last callback of a login. */
  function Displaced(g: Game, k: Continuation, reply: Reply): set<ConnectionId>
    requires Honest(k, reply)
  {
    if k.AfterStoreSession? && reply.status == Ok && k.allowReplacement && !Stale(g, k.connection) &&
       k.player.playerId in g.play.online
    then {g.play.online[k.player.playerId].connection} else {}
  }

  predicate Displaces(g: Game, e: Event, c: ConnectionId) {
    e.Delivered? && Enabled(g, e) && c in Displaced(g, g.login.inflight[e.ticket], e.reply)
  }

  /** The connection is closed by the server, for a frame that no client may send, or because its
      player logs in elsewhere. */
  predicate Leaves(g: Game, e: Event, c: ConnectionId) {
    || e == Closed(c)
    || (Enabled(g, e) && e.Handled? && e.connection == c && e.request.OtherFrame?)
    || Displaces(g, e, c)
  }

  // ---------------------------------------------------------------- what closes nothing

  lemma FailClosesNothing(env: Environment, g: Game, c: ConnectionId, account: string, error: string)
    ensures FailLogin(env, g, c, account, error).net.descriptors == g.net.descriptors
  {}

  lemma StoreClosesNothing(env: Environment, g: Game, c: ConnectionId, player: PlayerRecord, allow: bool, choice: Choice)
    ensures StoreSessionAndFinish(env, g, c, player, allow, choice).net.descriptors == g.net.descriptors
  {}

  lemma ContinueClosesNothing(env: Environment, g: Game, c: ConnectionId, loaded: PlayerRecord, token: string, newly: bool, choice: Choice)
    ensures ContinueLogin(env, g, c, loaded, token, newly, choice).net.descriptors == g.net.descriptors
  {
    StoreClosesNothing(env, g, c, loaded.(lastLogin := choice.now), false, choice);
  }

  lemma LoadedClosesNothing(env: Environment, g: Game, c: ConnectionId, account: string, token: string,
                            result: DataResult<PlayerRecord>, choice: Choice)
    ensures OnPlayerLoaded(env, g, c, account, token, result, choice).net.descriptors == g.net.descriptors
  {
    if result.Good() {
      ContinueClosesNothing(env, g, c, result.value.value, token, false, choice);
    }
  }

  lemma EnterClosesNothing(env: Environment, g: Game, c: ConnectionId, account: string, player: PlayerRecord, token: string)
    requires NetOk(env, g.net) && PlayOk(env.aoi, g.play)
    ensures EnterWorld(env, g, c, account, player, token).net.descriptors == g.net.descriptors
  {
    SendEachKeeps(env, g.net, ArrivalNews(env.aoi, Arrived(g.play, c, player, token), c, player, token));
    FailClosesNothing(env, g, c, account, "player position is outside the world");
  }

  lemma FinishCloses(env: Environment, g: Game, c: ConnectionId, loaded: PlayerRecord, token: string, allow: bool)
    requires Consistent(env, g)
    ensures var after := FinishLogin(env, g, c, loaded, token, allow);
      after.net.descriptors ==
        if !Stale(g, c) && loaded.playerId in g.play.online && allow
        then g.net.descriptors - {g.play.online[loaded.playerId].connection} else g.net.descriptors
  {
    if !Stale(g, c) {
      if loaded.playerId !in g.play.online {
        EnterClosesNothing(env, g, c, loaded.account, loaded, token);
      } else if allow {
        var prior := g.play.online[loaded.playerId];
        CloseKeeps(env, g, prior.connection);
        CloseShrinks(env, g, prior.connection);
        EnterClosesNothing(env, CloseConnection(env, g, prior.connection), c, loaded.account, prior.record, token);
      }
    }
  }

  lemma MoveClosesNothing(env: Environment, g: Game, c: ConnectionId, target: Option<Position>)
    requires NetOk(env, g.net) && PlayOk(env.aoi, g.play)
    ensures HandleMove(env, g, c, target).net.descriptors == g.net.descriptors
  {
    if c in g.play.bound && target.Some? && InMap(env.aoi, target.value) {
      SendEachKeeps(env, g.net, MoveNews(env.aoi, g.play, g.play.bound[c], target.value));
    }
  }

  lemma ChatClosesNothing(env: Environment, g: Game, c: ConnectionId, text: Option<string>, order: seq<PlayerId>)
    requires NetOk(env, g.net)
    ensures HandleChat(env, g, c, text, order).net.descriptors == g.net.descriptors
  {
    if c in g.play.bound && g.play.bound[c] in g.play.online && text.Some? {
      var sender := g.play.online[g.play.bound[c]].record;
      SendEachKeeps(env, g.net, Broadcast(g.play.online, order, ChatBroadcast(sender.playerId, sender.nickname, text.value)));
    }
  }

  lemma LoginClosesNothing(env: Environment, g: Game, c: ConnectionId, request: Option<LoginRequest>)
    ensures HandleLogin(env, g, c, request).net.descriptors == g.net.descriptors
  {}

  lemma FrameCloses(env: Environment, g: Game, c: ConnectionId, request: Request, order: seq<PlayerId>)
    requires Consistent(env, g)
    ensures HandleFrame(env, g, c, request, order).net.descriptors ==
      if request.OtherFrame? then g.net.descriptors - {c} else g.net.descriptors
  {
    match request
    case LoginFrame(login) => LoginClosesNothing(env, g, c, login);
    case ChatFrame(text) => ChatClosesNothing(env, g, c, text, order);
    case MoveFrame(target) => MoveClosesNothing(env, g, c, target);
    case HeartbeatFrame(parsed) =>
    case OtherFrame => CloseShrinks(env, g, c);
  }

  lemma ResumeClosesNothing(env: Environment, g: Game, k: Continuation, reply: Reply, choice: Choice)
    requires Honest(k, reply) && !k.AfterStoreSession?
    ensures Resume(env, g, k, reply, choice).net.descriptors == g.net.descriptors
  {
    match k
    case AfterLoad(c, account, token) => LoadedClosesNothing(env, g, c, account, token, reply.player, choice);
    case AfterCreate(c, account, player) =>
      FailClosesNothing(env, g, c, account, "failed to create player");
      ContinueClosesNothing(env, g, c, player, "", true, choice);
    case AfterLoadSession(c, account, player, token, newly) =>
      FailClosesNothing(env, g, c, account, "invalid or expired session");
      StoreClosesNothing(env, g, c, player, true, choice);
    case AfterDisconnectSave(_) =>
  }

  lemma StoredCloses(env: Environment, g: Game, k: Continuation, reply: Reply, choice: Choice)
    requires Consistent(env, g) && Honest(k, reply) && k.AfterStoreSession?
    ensures Resume(env, g, k, reply, choice).net.descriptors == g.net.descriptors - Displaced(g, k, reply)
  {
    FailClosesNothing(env, g, k.connection, k.account, "failed to store session");
    FinishCloses(env, g, k.connection, k.player, k.token, k.allowReplacement);
  }

  lemma ResumeCloses(env: Environment, g: Game, k: Continuation, reply: Reply, choice: Choice)
    requires Consistent(env, g) && Honest(k, reply)
    ensures Resume(env, g, k, reply, choice).net.descriptors == g.net.descriptors - Displaced(g, k, reply)
  {
    if k.AfterStoreSession? {
      StoredCloses(env, g, k, reply, choice);
    } else {
      ResumeClosesNothing(env, g, k, reply, choice);
    }
  }

  lemma DeliverCloses(env: Environment, g: Game, ticket: Ticket, reply: Reply, choice: Choice)
    requires Consistent(env, g) && ticket in g.login.inflight && Honest(g.login.inflight[ticket], reply)
    ensures Deliver(env, g, ticket, reply, choice).net.descriptors == g.net.descriptors - Displaced(g, g.login.inflight[ticket], reply)
  {
    var k, g0 := g.login.inflight[ticket], g.(login := g.login.(inflight := g.login.inflight - {ticket}));
    LoginChangeKeeps(env, g, g0.login);
    ResumeCloses(env, g0, k, reply, choice);
  }

  lemma AcceptCloses(env: Environment, g: Game, d: Descriptor, registered: bool, c: ConnectionId)
    requires Consistent(env, g) && d !in g.net.clients && c in g.net.descriptors
    ensures c in Accept(env, g, d, registered).net.descriptors
  {
    RejectedRegistration(env, g, d);
    if |g.net.clients| < env.maximumConnections {
      OpenedIsNew(env, g.net);
      OpenKeeps(env, g, d);
      CloseShrinks(env, g.(net := Opened(g.net, d)), g.net.lastId + 1);
    }
  }

  /** In every run, a live connection is closed by exactly the events that `Leaves` names. */
  lemma ClosedExactlyIf(env: Environment, g: Game, e: Event, c: ConnectionId)
    requires Inv(env, g) && c in g.net.descriptors
    ensures c !in Step(env, g, e).net.descriptors <==> Leaves(g, e, c)
  {
    if Enabled(g, e) {
      match e
      case Accepted(d, registered) => AcceptCloses(env, g, d, registered, c);
      case Handled(d, request, order) => FrameCloses(env, g, d, request, order);
      case Delivered(ticket, reply, choice) => DeliverCloses(env, g, ticket, reply, choice);
      case Flushed(d, script) =>
      case Marked(d) =>
      case Closed(d) => CloseShrinks(env, g, d);
    }
  }

  // ---------------------------------------------------------------- the request to save

  /** Between `before` and `after` one request may have been made, and it was to save `record`. */
  predicate AsksToSave(env: Environment, before: Login, after: Login, record: PlayerRecord) {
    var t := before.requests;
    && t !in before.inflight && after.requests == t + 1
    && (forall u | u in after.inflight && u !in before.inflight :: u == t && env.accepts(t))
    && (env.accepts(t) ==> t in after.inflight && after.inflight[t] == AfterDisconnectSave(record))
  }

  lemma CloseAsksToSave(env: Environment, g: Game, p: PlayerId)
    requires PlayOk(env.aoi, g.play) && LinkOk(g) && p in g.play.online && g.login.requests !in g.login.inflight
    ensures AsksToSave(env, g.login, CloseConnection(env, g, g.play.online[p].connection).login, g.play.online[p].record)
  {
    CloseLogin(env, g, g.play.online[p].connection);
  }

  lemma DisplacementAsksToSave(env: Environment, g: Game, e: Event, p: PlayerId)
    requires Inv(env, g) && p in g.play.online && Displaces(g, e, g.play.online[p].connection)
    ensures AsksToSave(env, g.login, Step(env, g, e).login, g.play.online[p].record)
  {
    var k, prior := g.login.inflight[e.ticket], g.play.online[p];
    assert k.player.playerId == p;
    var g0 := g.(login := g.login.(inflight := g.login.inflight - {e.ticket}));
    LoginChangeKeeps(env, g, g0.login);
    var closed := CloseConnection(env, g0, prior.connection);
    CloseAsksToSave(env, g0, p);
    assert Step(env, g, e) == EnterWorld(env, closed, k.connection, k.player.account, prior.record, k.token);
    EnterAsksNothing(env, closed, k.connection, k.player.account, prior.record, k.token);
  }

  lemma PlainLeaving(env: Environment, g: Game, e: Event, c: ConnectionId)
    requires Leaves(g, e, c) && !Displaces(g, e, c)
    ensures Step(env, g, e) == CloseConnection(env, g, c)
  {}

  /** Whichever way its connection closes, the player's last state, and nothing else, is handed to the
      database exactly if the request queue has room at that moment. */
  lemma LeavingAsksToSave(env: Environment, g: Game, e: Event, p: PlayerId)
    requires Inv(env, g) && p in g.play.online && g.play.online[p].connection !in Step(env, g, e).net.descriptors
    ensures AsksToSave(env, g.login, Step(env, g, e).login, g.play.online[p].record)
  {
    var c := g.play.online[p].connection;
    ClosedExactlyIf(env, g, e, c);
    if Displaces(g, e, c) {
      DisplacementAsksToSave(env, g, e, p);
    } else {
      PlainLeaving(env, g, e, c);
      CloseAsksToSave(env, g, p);
    }
  }
}
