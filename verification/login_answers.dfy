/** A login that stops waiting has been answered: no live client is left without a response. */
module LoginAnswers {
  import opened Wrappers
  import opened AoiGrid
  import opened GameModel
  import opened Replication
  import opened ViewChanges
  import opened ServerInvariants
  import opened ServerSteps
  import opened ServerRuns
  import opened LoginResponses

  function Responses(net: Net, c: ConnectionId): nat {
    Count(Response, Sent(net, c))
  }

  /** If `c` waits in `g`, no longer waits in `after` and is still connected, it got one response. */
  predicate Answered(g: Game, after: Game, c: ConnectionId) {
    c in g.login.pendingConnections && c !in after.login.pendingConnections && IsConnected(after.net, c) ==>
      Responses(after.net, c) == Responses(g.net, c) + 1
  }

  /** Nobody stops waiting but those who are closed. */
  predicate StillWaiting(g: Game, after: Game) {
    forall c | c in g.login.pendingConnections && c in after.net.descriptors :: c in after.login.pendingConnections
  }

  lemma FailAnswers(env: Environment, g: Game, d: ConnectionId, account: string, error: string, c: ConnectionId)
    requires NetOk(env, g.net)
    ensures Answered(g, FailLogin(env, g, d, account, error), c)
  {
    CountLast(Response, Sent(g.net, d), LoginRefused(error));
  }

  /** The first test of every callback: a connection given up is not connected any more. */
  lemma ReleaseAnswers(g: Game, d: ConnectionId, account: string, c: ConnectionId)
    requires Stale(g, d)
    ensures Answered(g, g.(login := Release(g.login, d, account)), c)
  {}

  lemma RequestAnswers(env: Environment, g: Game, d: ConnectionId, account: string, k: Continuation, c: ConnectionId)
    requires NetOk(env, g.net)
    ensures var (login, ok) := Submit(env, g.login, k);
      Answered(g, if ok then g.(login := login) else FailLogin(env, g.(login := login), d, account, "database queue is full"), c)
  {
    FailAnswers(env, g.(login := Submit(env, g.login, k).0), d, account, "database queue is full", c);
  }

  lemma StoreAnswers(env: Environment, g: Game, d: ConnectionId, player: PlayerRecord, allow: bool, choice: Choice, c: ConnectionId)
    requires NetOk(env, g.net)
    ensures Answered(g, StoreSessionAndFinish(env, g, d, player, allow, choice), c)
  {
    if Stale(g, d) {
      ReleaseAnswers(g, d, player.account, c);
    } else if player.playerId in g.play.online && !allow {
      FailAnswers(env, g, d, player.account, "player is already online", c);
    } else {
      RequestAnswers(env, g, d, player.account, AfterStoreSession(d, player.account, player, choice.token, allow), c);
    }
  }

  lemma ContinueAnswers(env: Environment, g: Game, d: ConnectionId, loaded: PlayerRecord, token: string, newly: bool, choice: Choice, c: ConnectionId)
    requires NetOk(env, g.net)
    ensures Answered(g, ContinueLogin(env, g, d, loaded, token, newly, choice), c)
  {
    var player := loaded.(lastLogin := choice.now);
    if Stale(g, d) {
      ReleaseAnswers(g, d, loaded.account, c);
    } else if token == "" {
      StoreAnswers(env, g, d, player, false, choice, c);
    } else {
      RequestAnswers(env, g, d, player.account, AfterLoadSession(d, player.account, player, token, newly), c);
    }
  }

  lemma LoadedAnswers(env: Environment, g: Game, d: ConnectionId, account: string, token: string,
                      result: DataResult<PlayerRecord>, choice: Choice, c: ConnectionId)
    requires NetOk(env, g.net)
    ensures Answered(g, OnPlayerLoaded(env, g, d, account, token, result, choice), c)
  {
    if Stale(g, d) {
      ReleaseAnswers(g, d, account, c);
    } else if result.Good() {
      ContinueAnswers(env, g, d, result.value.value, token, false, choice, c);
    } else if result.status != NotFound {
      FailAnswers(env, g, d, account, "failed to load player", c);
    } else if token != "" {
      FailAnswers(env, g, d, account, "session does not exist", c);
    } else {
      RequestAnswers(env, g, d, account, AfterCreate(d, account, NewPlayer(env, account, choice)), c);
    }
  }

  // ---------------------------------------------------------------- success

  lemma ArrivalAnswers(env: Environment, g: Game, d: ConnectionId, player: PlayerRecord, token: string, c: ConnectionId)
    requires NetOk(env, g.net) && d in g.net.descriptors
    ensures var play := Arrived(g.play, d, player, token);
      var net := SendEach(env, g.net, ArrivalNews(env.aoi, play, d, player, token));
      d !in net.marked ==> Responses(net, d) == Responses(g.net, d) + 1
  {
    var play := Arrived(g.play, d, player, token);
    var out := ArrivalNews(env.aoi, play, d, player, token);
    if d !in SendEach(env, g.net, out).marked {
      SendEachDelivers(env, g.net, out, d);
      ArrivalCounts(env.aoi, play, d, player, token, d, Response);
      CountConcat(Response, Sent(g.net, d), Inbox(out, d));
    }
  }

  lemma EnterAnswers(env: Environment, g: Game, d: ConnectionId, account: string, player: PlayerRecord, token: string, c: ConnectionId)
    requires NetOk(env, g.net) && PlayOk(env.aoi, g.play) && d in g.net.descriptors
    ensures Answered(g, EnterWorld(env, g, d, account, player, token), c)
  {
    if player.playerId in g.play.world || !InMap(env.aoi, Position(player.x, player.y)) {
      FailAnswers(env, g, d, account, "player position is outside the world", c);
    } else {
      ArrivalAnswers(env, g, d, player, token, c);
      ArrivesAs(env, g, d, account, player, token);
    }
  }

  lemma ArrivesAs(env: Environment, g: Game, d: ConnectionId, account: string, player: PlayerRecord, token: string)
    requires PlayOk(env.aoi, g.play)
    requires player.playerId !in g.play.world && InMap(env.aoi, Position(player.x, player.y))
    ensures var play := Arrived(g.play, d, player, token);
      EnterWorld(env, g, d, account, player, token) ==
        Game(SendEach(env, g.net, ArrivalNews(env.aoi, play, d, player, token)), play, Release(g.login, d, account))
  {}

  lemma {:induction false} SendEachGrows(env: Environment, net: Net, out: seq<Outgoing>, c: ConnectionId, kind: Kind)
    ensures Count(kind, Sent(SendEach(env, net, out), c)) >= Count(kind, Sent(net, c))
    decreases |out|
  {
    if out != [] {
      var front, last := out[..|out| - 1], out[|out| - 1];
      SendEachGrows(env, net, front, c, kind);
      CountLast(kind, Sent(SendEach(env, net, front), c), last.message);
    }
  }

  /** Closing a connection sends nobody a login response. */
  lemma CloseAnswersNobody(env: Environment, g: Game, d: ConnectionId, c: ConnectionId)
    requires NetOk(env, g.net) && PlayOk(env.aoi, g.play)
    ensures Responses(CloseConnection(env, g, d).net, c) == Responses(g.net, c)
  {
    CloseIsQuiet(env, g, d, c);
    if d in g.net.descriptors {
      CloseUnfolds(env, g, d);
      if d in g.play.bound {
        SendEachGrows(env, g.net, DepartureNews(env.aoi, g.play, g.play.bound[d]), c, Response);
      }
    }
  }

  lemma CloseLeavesWaiting(env: Environment, g: Game, d: ConnectionId)
    requires Consistent(env, g)
    ensures StillWaiting(g, CloseConnection(env, g, d))
  {
    if d in g.net.descriptors {
      CloseUnfolds(env, g, d);
    }
  }

  /** Nobody stopped waiting on the way from `g` to `h`, and nobody was sent a response. */
  lemma AnsweredThrough(g: Game, h: Game, after: Game, c: ConnectionId)
    requires StillWaiting(g, h) && Responses(h.net, c) == Responses(g.net, c) && Answered(h, after, c)
    requires after.net.descriptors.Keys <= h.net.descriptors.Keys
    ensures Answered(g, after, c)
  {}

  lemma TakeOverAnswers(env: Environment, g: Game, d: ConnectionId, account: string, prior: OnlinePlayer, token: string, c: ConnectionId)
    requires Consistent(env, g) && d in g.net.descriptors && d != prior.connection
    ensures Answered(g, EnterWorld(env, CloseConnection(env, g, prior.connection), d, account, prior.record, token), c)
  {
    var closed := CloseConnection(env, g, prior.connection);
    CloseKeeps(env, g, prior.connection);
    CloseShrinks(env, g, prior.connection);
    CloseLeavesWaiting(env, g, prior.connection);
    CloseAnswersNobody(env, g, prior.connection, c);
    EnterAnswers(env, closed, d, account, prior.record, token, c);
    EnterKeepsLines(env, closed, d, account, prior.record, token);
    AnsweredThrough(g, closed, EnterWorld(env, closed, d, account, prior.record, token), c);
  }

  lemma EnterKeepsLines(env: Environment, g: Game, d: ConnectionId, account: string, player: PlayerRecord, token: string)
    requires NetOk(env, g.net) && PlayOk(env.aoi, g.play)
    ensures EnterWorld(env, g, d, account, player, token).net.descriptors == g.net.descriptors
  {
    if player.playerId !in g.play.world && InMap(env.aoi, Position(player.x, player.y)) {
      ArrivesAs(env, g, d, account, player, token);
      SendEachKeeps(env, g.net, ArrivalNews(env.aoi, Arrived(g.play, d, player, token), d, player, token));
    }
  }

  lemma FinishAnswers(env: Environment, g: Game, d: ConnectionId, loaded: PlayerRecord, token: string, allow: bool, c: ConnectionId)
    requires Consistent(env, g)
    ensures Answered(g, FinishLogin(env, g, d, loaded, token, allow), c)
  {
    if Stale(g, d) {
      ReleaseAnswers(g, d, loaded.account, c);
    } else if loaded.playerId !in g.play.online {
      EnterAnswers(env, g, d, loaded.account, loaded, token, c);
    } else if !allow {
      FailAnswers(env, g, d, loaded.account, "player is already online", c);
    } else {
      TakeOverAnswers(env, g, d, loaded.account, g.play.online[loaded.playerId], token, c);
    }
  }

  // ---------------------------------------------------------------- every event

  lemma ResumeAnswers(env: Environment, g: Game, k: Continuation, reply: Reply, choice: Choice, c: ConnectionId)
    requires Consistent(env, g) && Honest(k, reply)
    ensures Answered(g, Resume(env, g, k, reply, choice), c)
  {
    match k
    case AfterLoad(d, account, token) => LoadedAnswers(env, g, d, account, token, reply.player, choice, c);
    case AfterCreate(d, account, player) =>
      FailAnswers(env, g, d, account, "failed to create player", c);
      ContinueAnswers(env, g, d, player, "", true, choice, c);
    case AfterLoadSession(d, account, player, token, newly) =>
      FailAnswers(env, g, d, account, "invalid or expired session", c);
      StoreAnswers(env, g, d, player, true, choice, c);
    case AfterStoreSession(d, account, player, token, allow) =>
      FailAnswers(env, g, d, account, "failed to store session", c);
      FinishAnswers(env, g, d, player, token, allow, c);
    case AfterDisconnectSave(_) =>
  }

  lemma DeliverAnswers(env: Environment, g: Game, ticket: Ticket, reply: Reply, choice: Choice, c: ConnectionId)
    requires Consistent(env, g) && ticket in g.login.inflight && Honest(g.login.inflight[ticket], reply)
    ensures Answered(g, Deliver(env, g, ticket, reply, choice), c)
  {
    var g0 := g.(login := g.login.(inflight := g.login.inflight - {ticket}));
    LoginChangeKeeps(env, g, g0.login);
    ResumeAnswers(env, g0, g.login.inflight[ticket], reply, choice, c);
  }

  lemma LoginFrameAnswers(env: Environment, g: Game, d: ConnectionId, request: Option<LoginRequest>, c: ConnectionId)
    requires NetOk(env, g.net) && IsConnected(g.net, d)
    ensures Answered(g, HandleLogin(env, g, d, request), c)
  {
    if request.None? || request.value.account == "" || |request.value.account| > 64 ||
       d in g.play.bound || d in g.login.pendingConnections {
      FailAnswers(env, g, d, "", "invalid or duplicate login request", c);
    } else if request.value.account in g.login.pendingAccounts {
      FailAnswers(env, g, d, "", "account login is already pending", c);
    } else {
      var account := request.value.account;
      RequestAnswers(env, g.(login := Lock(g.login, d, account)), d, account, AfterLoad(d, account, request.value.token), c);
    }
  }

  lemma FrameAnswers(env: Environment, g: Game, d: ConnectionId, request: Request, order: seq<PlayerId>, c: ConnectionId)
    requires Consistent(env, g) && IsConnected(g.net, d)
    ensures Answered(g, HandleFrame(env, g, d, request, order), c)
  {
    match request
    case LoginFrame(login) => LoginFrameAnswers(env, g, d, login, c);
    case ChatFrame(text) => ChatLeavesWaiting(env, g, d, text, order);
    case MoveFrame(target) => MoveLeavesWaiting(env, g, d, target);
    case HeartbeatFrame(parsed) =>
    case OtherFrame => CloseLeavesWaiting(env, g, d);
  }

  lemma ChatLeavesWaiting(env: Environment, g: Game, d: ConnectionId, text: Option<string>, order: seq<PlayerId>)
    ensures HandleChat(env, g, d, text, order).login == g.login
  {}

  lemma MoveLeavesWaiting(env: Environment, g: Game, d: ConnectionId, target: Option<Position>)
    ensures HandleMove(env, g, d, target).login == g.login
  {}

  /** In every run, whatever the event: whoever stops waiting for a login and is still connected has
      been sent exactly one login response by it. */
  lemma NobodyIsLeftWaiting(env: Environment, g: Game, e: Event, c: ConnectionId)
    requires Reachable(env, g)
    requires c in g.login.pendingConnections && c !in Step(env, g, e).login.pendingConnections
    requires IsConnected(Step(env, g, e).net, c)
    ensures Responses(Step(env, g, e).net, c) == Responses(g.net, c) + 1
  {
    ReachableInv(env, g);
    StepAnswers(env, g, e, c);
  }

  lemma StepAnswers(env: Environment, g: Game, e: Event, c: ConnectionId)
    requires Consistent(env, g)
    ensures Answered(g, Step(env, g, e), c)
  {
    if Enabled(g, e) {
      match e
      case Accepted(d, registered) =>
        RejectedRegistration(env, g, d);
        OpenedIsNew(env, g.net);
        CloseLogin(env, g.(net := Opened(g.net, d)), g.net.lastId + 1);
      case Handled(d, request, order) => FrameAnswers(env, g, d, request, order, c);
      case Delivered(ticket, reply, choice) => DeliverAnswers(env, g, ticket, reply, choice, c);
      case Flushed(d, script) =>
      case Marked(d) =>
      case Closed(d) => CloseLeavesWaiting(env, g, d);
    }
  }
}
