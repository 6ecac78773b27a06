/** Login responses answer login requests: a connection never gets more of the first than it has
    sent of the second. */
module LoginResponses {
  import opened Wrappers
  import opened AoiGrid
  import opened GameModel
  import opened Replication
  import opened ViewChanges
  import opened ServerInvariants
  import opened ServerSteps
  import opened LoginLocks
  import opened ServerRuns

  /** The callbacks of `c`'s logins that have not run yet. */
  function Waiting(login: Login, c: ConnectionId): set<Ticket> {
    set t | t in login.inflight && ForConnection(login.inflight[t], c)
  }

  /** Responses sent and responses that may still come. */
  function Due(g: Game, c: ConnectionId): nat {
    Count(Response, Sent(g.net, c)) + |Waiting(g.login, c)|
  }

  /** Going from `g` to `g'` adds at most one to what is due to `c`, and nothing for others. */
  predicate AtMostOneMore(g: Game, g': Game, c: ConnectionId, d: ConnectionId) {
    Due(g', d) <= Due(g, d) + (if d == c then 1 else 0)
  }

  lemma QuietSend(env: Environment, net: Net, out: seq<Outgoing>, d: ConnectionId)
    requires NetOk(env, net) && NoneOf(Response, out)
    ensures Count(Response, Sent(SendEach(env, net, out), d)) <= Count(Response, Sent(net, d))
  {
    SendEachCount(env, net, out, d, Response);
    NoneInInbox(Response, out, d);
  }

  lemma SameWaiting(a: Login, b: Login, c: ConnectionId)
    requires a.inflight == b.inflight
    ensures Waiting(a, c) == Waiting(b, c)
  {}

  lemma FailUnfolds(env: Environment, g: Game, c: ConnectionId, account: string, error: string)
    ensures var after := FailLogin(env, g, c, account, error);
      && after.login.inflight == g.login.inflight
      && (after.net == g.net || after.net == Send(env, g.net, c, LoginRefused(error)))
  {}

  lemma FailCounts(env: Environment, g: Game, c: ConnectionId, account: string, error: string, d: ConnectionId)
    ensures AtMostOneMore(g, FailLogin(env, g, c, account, error), c, d)
  {
    FailUnfolds(env, g, c, account, error);
    SameWaiting(FailLogin(env, g, c, account, error).login, g.login, d);
    SendCount(env, g.net, Outgoing(c, LoginRefused(error)), d, Response);
  }

  lemma SubmitCounts(env: Environment, g: Game, c: ConnectionId, k: Continuation, d: ConnectionId)
    requires TicketsOk(g.login) && (!k.AfterDisconnectSave? ==> k.connection == c)
    ensures var (login, ok) := Submit(env, g.login, k);
      |Waiting(login, d)| <= |Waiting(g.login, d)| + (if ok && d == c && !k.AfterDisconnectSave? then 1 else 0)
  {
    var (login, ok) := Submit(env, g.login, k);
    if ok && ForConnection(k, d) {
      assert Waiting(login, d) == Waiting(g.login, d) + {g.login.requests};
    } else {
      assert Waiting(login, d) == Waiting(g.login, d);
    }
  }

  lemma RequestCounts(env: Environment, g: Game, c: ConnectionId, account: string, k: Continuation, d: ConnectionId)
    requires TicketsOk(g.login) && ForConnection(k, c)
    ensures var (login, ok) := Submit(env, g.login, k);
      AtMostOneMore(g, if ok then g.(login := login) else FailLogin(env, g.(login := login), c, account, "database queue is full"), c, d)
  {
    SubmitCounts(env, g, c, k, d);
    FailCounts(env, g.(login := Submit(env, g.login, k).0), c, account, "database queue is full", d);
  }

  lemma CloseWaiting(env: Environment, g: Game, c: ConnectionId, d: ConnectionId)
    requires TicketsOk(g.login)
    ensures |Waiting(CloseConnection(env, g, c).login, d)| <= |Waiting(g.login, d)|
  {
    CloseLogin(env, g, c);
    var h := g.(login := CancelPending(g.login, c));
    SameWaiting(h.login, g.login, d);
    if c in g.play.bound && g.play.bound[c] in g.play.online {
      SubmitCounts(env, h, c, AfterDisconnectSave(g.play.online[g.play.bound[c]].record), d);
    }
  }

  lemma CloseIsQuiet(env: Environment, g: Game, c: ConnectionId, d: ConnectionId)
    requires NetOk(env, g.net) && PlayOk(env.aoi, g.play)
    ensures Count(Response, Sent(CloseConnection(env, g, c).net, d)) <= Count(Response, Sent(g.net, d))
  {
    if c in g.net.descriptors {
      CloseUnfolds(env, g, c);
      if c in g.play.bound {
        var p := g.play.bound[c];
        BroadcastHasNone(Response, g.play.online - {p}, Ascending(Visible(env.aoi, g.play.world, p)), PlayerLeave(p));
        QuietSend(env, g.net, DepartureNews(env.aoi, g.play, p), d);
      }
    }
  }

  lemma CloseCounts(env: Environment, g: Game, c: ConnectionId, d: ConnectionId)
    requires Consistent(env, g) && TicketsOk(g.login)
    ensures Due(CloseConnection(env, g, c), d) <= Due(g, d)
  {
    CloseWaiting(env, g, c, d);
    CloseIsQuiet(env, g, c, d);
  }

  lemma EnterCounts(env: Environment, g: Game, c: ConnectionId, account: string, player: PlayerRecord, token: string, d: ConnectionId)
    requires Consistent(env, g)
    ensures AtMostOneMore(g, EnterWorld(env, g, c, account, player, token), c, d)
  {
    if player.playerId in g.play.world || !InMap(env.aoi, Position(player.x, player.y)) {
      FailCounts(env, g, c, account, "player position is outside the world", d);
    } else {
      var after := Arrived(g.play, c, player, token);
      ArrivalCounts(env.aoi, after, c, player, token, d, Response);
      SendEachCount(env, g.net, ArrivalNews(env.aoi, after, c, player, token), d, Response);
      assert Waiting(EnterWorld(env, g, c, account, player, token).login, d) == Waiting(g.login, d);
    }
  }

  lemma ReleaseCounts(g: Game, c: ConnectionId, account: string, d: ConnectionId)
    ensures Due(g.(login := Release(g.login, c, account)), d) == Due(g, d)
  {
    assert Waiting(Release(g.login, c, account), d) == Waiting(g.login, d);
  }

  lemma FinishCounts(env: Environment, g: Game, c: ConnectionId, loaded: PlayerRecord, token: string, allow: bool, d: ConnectionId)
    requires Consistent(env, g) && TicketsOk(g.login)
    ensures AtMostOneMore(g, FinishLogin(env, g, c, loaded, token, allow), c, d)
  {
    if Stale(g, c) {
      ReleaseCounts(g, c, loaded.account, d);
    } else if loaded.playerId !in g.play.online {
      EnterCounts(env, g, c, loaded.account, loaded, token, d);
    } else if !allow {
      FailCounts(env, g, c, loaded.account, "player is already online", d);
    } else {
      var prior := g.play.online[loaded.playerId];
      CloseCounts(env, g, prior.connection, d);
      CloseKeeps(env, g, prior.connection);
      EnterCounts(env, CloseConnection(env, g, prior.connection), c, loaded.account, prior.record, token, d);
    }
  }

  lemma StoreCounts(env: Environment, g: Game, c: ConnectionId, player: PlayerRecord, allow: bool, choice: Choice, d: ConnectionId)
    requires TicketsOk(g.login)
    ensures AtMostOneMore(g, StoreSessionAndFinish(env, g, c, player, allow, choice), c, d)
  {
    ReleaseCounts(g, c, player.account, d);
    FailCounts(env, g, c, player.account, "player is already online", d);
    RequestCounts(env, g, c, player.account, AfterStoreSession(c, player.account, player, choice.token, allow), d);
  }

  lemma ContinueCounts(env: Environment, g: Game, c: ConnectionId, loaded: PlayerRecord, token: string, newly: bool, choice: Choice, d: ConnectionId)
    requires TicketsOk(g.login)
    ensures AtMostOneMore(g, ContinueLogin(env, g, c, loaded, token, newly, choice), c, d)
  {
    var player := loaded.(lastLogin := choice.now);
    ReleaseCounts(g, c, loaded.account, d);
    StoreCounts(env, g, c, player, false, choice, d);
    RequestCounts(env, g, c, player.account, AfterLoadSession(c, player.account, player, token, newly), d);
  }

  lemma LoadedCounts(env: Environment, g: Game, c: ConnectionId, account: string, token: string,
                     result: DataResult<PlayerRecord>, choice: Choice, d: ConnectionId)
    requires TicketsOk(g.login)
    ensures AtMostOneMore(g, OnPlayerLoaded(env, g, c, account, token, result, choice), c, d)
  {
    if Stale(g, c) {
      ReleaseCounts(g, c, account, d);
    } else if result.Good() {
      ContinueCounts(env, g, c, result.value.value, token, false, choice, d);
    } else if result.status != NotFound {
      FailCounts(env, g, c, account, "failed to load player", d);
    } else if token != "" {
      FailCounts(env, g, c, account, "session does not exist", d);
    } else {
      RequestCounts(env, g, c, account, AfterCreate(c, account, NewPlayer(env, account, choice)), d);
    }
  }

  lemma ResumeCounts(env: Environment, g: Game, k: Continuation, reply: Reply, choice: Choice, d: ConnectionId)
    requires Consistent(env, g) && TicketsOk(g.login) && Honest(k, reply)
    ensures Due(Resume(env, g, k, reply, choice), d) <= Due(g, d) + (if ForConnection(k, d) then 1 else 0)
  {
    match k
    case AfterLoad(c, account, token) => LoadedCounts(env, g, c, account, token, reply.player, choice, d);
    case AfterCreate(c, account, player) =>
      FailCounts(env, g, c, account, "failed to create player", d);
      ContinueCounts(env, g, c, player, "", true, choice, d);
    case AfterLoadSession(c, account, player, token, newly) =>
      FailCounts(env, g, c, account, "invalid or expired session", d);
      StoreCounts(env, g, c, player, true, choice, d);
    case AfterStoreSession(c, account, player, token, allow) =>
      FailCounts(env, g, c, account, "failed to store session", d);
      FinishCounts(env, g, c, player, token, allow, d);
    case AfterDisconnectSave(_) =>
  }

  lemma DeliverCounts(env: Environment, g: Game, ticket: Ticket, reply: Reply, choice: Choice, d: ConnectionId)
    requires Inv(env, g) && ticket in g.login.inflight && Honest(g.login.inflight[ticket], reply)
    ensures Due(Deliver(env, g, ticket, reply, choice), d) <= Due(g, d)
  {
    var g0 := g.(login := g.login.(inflight := g.login.inflight - {ticket}));
    LoginChangeKeeps(env, g, g0.login);
    ResumeCounts(env, g0, g.login.inflight[ticket], reply, choice, d);
    assert Waiting(g0.login, d) == Waiting(g.login, d) - {ticket};
  }

  lemma HandleLoginCounts(env: Environment, g: Game, c: ConnectionId, request: Option<LoginRequest>, d: ConnectionId)
    requires TicketsOk(g.login)
    ensures AtMostOneMore(g, HandleLogin(env, g, c, request), c, d)
  {
    FailCounts(env, g, c, "", "invalid or duplicate login request", d);
    FailCounts(env, g, c, "", "account login is already pending", d);
    if request.Some? {
      var account := request.value.account;
      var h := g.(login := Lock(g.login, c, account));
      assert Waiting(h.login, d) == Waiting(g.login, d);
      RequestCounts(env, h, c, account, AfterLoad(c, account, request.value.token), d);
    }
  }

  lemma ChatCounts(env: Environment, g: Game, c: ConnectionId, text: Option<string>, order: seq<PlayerId>, d: ConnectionId)
    requires NetOk(env, g.net)
    ensures Due(HandleChat(env, g, c, text, order), d) <= Due(g, d)
  {
    if c in g.play.bound && g.play.bound[c] in g.play.online && text.Some? {
      var sender := g.play.online[g.play.bound[c]].record;
      var m := ChatBroadcast(sender.playerId, sender.nickname, text.value);
      BroadcastHasNone(Response, g.play.online, order, m);
      QuietSend(env, g.net, Broadcast(g.play.online, order, m), d);
    }
  }

  lemma MoveCounts(env: Environment, g: Game, c: ConnectionId, target: Option<Position>, d: ConnectionId)
    requires NetOk(env, g.net) && PlayOk(env.aoi, g.play)
    ensures Due(HandleMove(env, g, c, target), d) <= Due(g, d)
  {
    if c in g.play.bound && target.Some? && InMap(env.aoi, target.value) {
      MoveHasNone(Response, env.aoi, g.play, g.play.bound[c], target.value);
      QuietSend(env, g.net, MoveNews(env.aoi, g.play, g.play.bound[c], target.value), d);
    }
  }

  lemma QuietFrameCounts(env: Environment, g: Game, c: ConnectionId, request: Request, order: seq<PlayerId>, d: ConnectionId)
    requires Inv(env, g) && !request.LoginFrame?
    ensures Due(HandleFrame(env, g, c, request, order), d) <= Due(g, d)
  {
    match request
    case ChatFrame(text) => ChatCounts(env, g, c, text, order, d);
    case MoveFrame(target) => MoveCounts(env, g, c, target, d);
    case HeartbeatFrame(parsed) =>
      SendAsBatch(env, g.net, c, Heartbeat);
      QuietSend(env, g.net, [Outgoing(c, Heartbeat)], d);
    case OtherFrame => CloseCounts(env, g, c, d);
  }

  lemma OpenedCounts(env: Environment, g: Game, n: Descriptor, d: ConnectionId)
    requires NetOk(env, g.net)
    ensures Due(g.(net := Opened(g.net, n)), d) == Due(g, d)
  {
    OpenedIsNew(env, g.net);
    assert Sent(Opened(g.net, n), d) == Sent(g.net, d);
  }

  lemma AcceptCounts(env: Environment, g: Game, n: Descriptor, registered: bool, d: ConnectionId)
    requires Inv(env, g) && n !in g.net.clients
    ensures Due(Accept(env, g, n, registered), d) <= Due(g, d)
  {
    if |g.net.clients| < env.maximumConnections {
      OpenedCounts(env, g, n, d);
      OpenKeeps(env, g, n);
      CloseCounts(env, g.(net := Opened(g.net, n)), g.net.lastId + 1, d);
      RejectedRegistration(env, g, n);
    }
  }

  predicate IsLoginRequest(e: Event, c: ConnectionId) {
    e.Handled? && e.connection == c && e.request.LoginFrame?
  }

  lemma StepCounts(env: Environment, g: Game, e: Event, d: ConnectionId)
    requires Inv(env, g)
    ensures Due(Step(env, g, e), d) <= Due(g, d) + (if IsLoginRequest(e, d) then 1 else 0)
  {
    if Enabled(g, e) {
      match e
      case Accepted(n, registered) => AcceptCounts(env, g, n, registered, d);
      case Handled(c, request, order) =>
        if request.LoginFrame? {
          HandleLoginCounts(env, g, c, request.login, d);
        } else {
          QuietFrameCounts(env, g, c, request, order, d);
        }
      case Delivered(ticket, reply, choice) => DeliverCounts(env, g, ticket, reply, choice, d);
      case Flushed(c, script) =>
      case Marked(c) =>
      case Closed(c) => CloseCounts(env, g, c, d);
    }
  }

  /** Login requests of `c` in a run. */
  function Asked(events: seq<Event>, c: ConnectionId): nat {
    if events == [] then 0
    else Asked(events[..|events| - 1], c) + (if IsLoginRequest(events[|events| - 1], c) then 1 else 0)
  }

  /** In every run every connection has been sent at most as many login responses as it has sent
      login requests, even counting the responses that callbacks in flight may still cause. */
  lemma {:induction false} ResponsesAnswerRequests(env: Environment, events: seq<Event>, c: ConnectionId)
    ensures var g := Run(env, EMPTY, events);
      Count(Response, Sent(g.net, c)) + |Waiting(g.login, c)| <= Asked(events, c)
    decreases |events|
  {
    if events == [] {
      assert Waiting(EMPTY.login, c) == {};
    } else {
      var front := events[..|events| - 1];
      ResponsesAnswerRequests(env, front, c);
      EmptyConsistent(env);
      RunKeepsInv(env, EMPTY, front);
      StepCounts(env, Run(env, EMPTY, front), events[|events| - 1], c);
    }
  }

  /** Requests that start a login. */
  predicate MayStart(env: Environment, g: Game, c: ConnectionId, request: Option<LoginRequest>) {
    && request.Some? && 1 <= |request.value.account| <= 64
    && c !in g.play.bound && c !in g.login.pendingConnections
    && request.value.account !in g.login.pendingAccounts && env.accepts(g.login.requests)
  }

  lemma Starts(env: Environment, g: Game, c: ConnectionId, request: Option<LoginRequest>)
    requires MayStart(env, g, c, request)
    ensures var account, token := request.value.account, request.value.token;
      HandleLogin(env, g, c, request) == g.(login := Submit(env, Lock(g.login, c, account), AfterLoad(c, account, token)).0)
  {}

  /** Every refusal ends in `FailLogin`, at most after a request that found no room. */
  lemma Refuses(env: Environment, g: Game, c: ConnectionId, request: Option<LoginRequest>)
    requires !MayStart(env, g, c, request)
    ensures exists login, account, error ::
      HandleLogin(env, g, c, request) == FailLogin(env, g.(login := login), c, account, error)
  {
    var error := "invalid or duplicate login request";
    if request.None? || request.value.account == "" || |request.value.account| > 64 ||
       c in g.play.bound || c in g.login.pendingConnections {
      assert HandleLogin(env, g, c, request) == FailLogin(env, g.(login := g.login), c, "", error);
    } else if request.value.account in g.login.pendingAccounts {
      error := "account login is already pending";
      assert HandleLogin(env, g, c, request) == FailLogin(env, g.(login := g.login), c, "", error);
    } else {
      error := "database queue is full";
      var account := request.value.account;
      var login := Submit(env, Lock(g.login, c, account), AfterLoad(c, account, request.value.token)).0;
      assert HandleLogin(env, g, c, request) == FailLogin(env, g.(login := login), c, account, error);
    }
  }

  lemma RefusalIsSent(env: Environment, g: Game, c: ConnectionId, account: string, error: string)
    requires NetOk(env, g.net) && IsConnected(g.net, c)
    ensures var after := FailLogin(env, g, c, account, error);
      && after.play == g.play && c !in after.login.pendingConnections
      && (c !in after.net.marked ==> Sent(after.net, c) == Sent(g.net, c) + [LoginRefused(error)])
  {}

  /** A request either starts a login, which then waits for the database with its account locked, or
      is answered with a refusal.  A refused connection waits for nothing afterwards: repeating a
      request cancels the login that was under way. */
  lemma StartedOrRefused(env: Environment, g: Game, c: ConnectionId, request: Option<LoginRequest>)
    requires NetOk(env, g.net) && TicketsOk(g.login) && IsConnected(g.net, c)
    ensures var after := HandleLogin(env, g, c, request);
      && after.play == g.play
      && (c in after.login.pendingConnections <==> MayStart(env, g, c, request))
      && (MayStart(env, g, c, request) ==>
            && after.net == g.net && request.value.account in after.login.pendingAccounts
            && exists t :: t in after.login.inflight && t !in g.login.inflight &&
                 after.login.inflight[t] == AfterLoad(c, request.value.account, request.value.token))
      && (!MayStart(env, g, c, request) && c !in after.net.marked ==>
            exists error :: Sent(after.net, c) == Sent(g.net, c) + [LoginRefused(error)])
  {
    if MayStart(env, g, c, request) {
      Starts(env, g, c, request);
      assert g.login.requests !in g.login.inflight;
      assert HandleLogin(env, g, c, request).login.inflight[g.login.requests] ==
        AfterLoad(c, request.value.account, request.value.token);
    } else {
      Refuses(env, g, c, request);
      var login, account, error :| HandleLogin(env, g, c, request) == FailLogin(env, g.(login := login), c, account, error);
      RefusalIsSent(env, g.(login := login), c, account, error);
    }
  }
}
