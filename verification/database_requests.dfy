/** Database requests through time: every event makes at most one, and touches none but the one whose
    callback it runs. */
module DatabaseRequests {
  import opened Wrappers
  import opened AoiGrid
  import opened GameModel
  import opened ServerSteps

  predicate Ticketed(login: Login) {
    forall t | t in login.inflight :: t < login.requests
  }

  /** Nothing was asked, or one request was made, which is in flight if the queue had room. */
  predicate AsksAtMostOnce(env: Environment, before: Login, after: Login) {
    && (forall t | t in before.inflight :: t in after.inflight && after.inflight[t] == before.inflight[t])
    && (if after.requests == before.requests then after.inflight.Keys == before.inflight.Keys
        else after.requests == before.requests + 1 &&
             after.inflight.Keys == before.inflight.Keys + if env.accepts(before.requests) then {before.requests} else {})
  }

  lemma SubmitAsksOnce(env: Environment, login: Login, k: Continuation)
    requires Ticketed(login)
    ensures AsksAtMostOnce(env, login, Submit(env, login, k).0)
  {}

  lemma FailAsksNothing(env: Environment, g: Game, c: ConnectionId, account: string, error: string)
    ensures var after := FailLogin(env, g, c, account, error).login;
      after.inflight == g.login.inflight && after.requests == g.login.requests
  {}

  lemma RequestAsksOnce(env: Environment, g: Game, c: ConnectionId, account: string, k: Continuation)
    requires Ticketed(g.login)
    ensures var (login, ok) := Submit(env, g.login, k);
      && AsksAtMostOnce(env, g.login, login)
      && AsksAtMostOnce(env, g.login, FailLogin(env, g.(login := login), c, account, "database queue is full").login)
  {
    SubmitAsksOnce(env, g.login, k);
    FailAsksNothing(env, g.(login := Submit(env, g.login, k).0), c, account, "database queue is full");
  }

  lemma CloseAsksOnce(env: Environment, g: Game, c: ConnectionId)
    requires Ticketed(g.login)
    ensures AsksAtMostOnce(env, g.login, CloseConnection(env, g, c).login)
  {
    CloseLogin(env, g, c);
    var login := CancelPending(g.login, c);
    assert login.inflight == g.login.inflight && login.requests == g.login.requests;
    if c in g.play.bound && g.play.bound[c] in g.play.online {
      SubmitAsksOnce(env, login, AfterDisconnectSave(g.play.online[g.play.bound[c]].record));
    }
  }

  lemma EnterAsksNothing(env: Environment, g: Game, c: ConnectionId, account: string, player: PlayerRecord, token: string)
    ensures var after := EnterWorld(env, g, c, account, player, token).login;
      after.inflight == g.login.inflight && after.requests == g.login.requests
  {}

  lemma FinishAsksOnce(env: Environment, g: Game, c: ConnectionId, loaded: PlayerRecord, token: string, allow: bool)
    requires Ticketed(g.login)
    ensures AsksAtMostOnce(env, g.login, FinishLogin(env, g, c, loaded, token, allow).login)
  {
    if Stale(g, c) {
    } else if loaded.playerId !in g.play.online {
      EnterAsksNothing(env, g, c, loaded.account, loaded, token);
    } else if !allow {
      FailAsksNothing(env, g, c, loaded.account, "player is already online");
    } else {
      var prior := g.play.online[loaded.playerId];
      CloseAsksOnce(env, g, prior.connection);
      EnterAsksNothing(env, CloseConnection(env, g, prior.connection), c, loaded.account, prior.record, token);
    }
  }

  lemma StoreAsksOnce(env: Environment, g: Game, c: ConnectionId, player: PlayerRecord, allow: bool, choice: Choice)
    requires Ticketed(g.login)
    ensures AsksAtMostOnce(env, g.login, StoreSessionAndFinish(env, g, c, player, allow, choice).login)
  {
    FailAsksNothing(env, g, c, player.account, "player is already online");
    RequestAsksOnce(env, g, c, player.account, AfterStoreSession(c, player.account, player, choice.token, allow));
  }

  lemma ContinueAsksOnce(env: Environment, g: Game, c: ConnectionId, loaded: PlayerRecord, token: string, newly: bool, choice: Choice)
    requires Ticketed(g.login)
    ensures AsksAtMostOnce(env, g.login, ContinueLogin(env, g, c, loaded, token, newly, choice).login)
  {
    var player := loaded.(lastLogin := choice.now);
    StoreAsksOnce(env, g, c, player, false, choice);
    RequestAsksOnce(env, g, c, player.account, AfterLoadSession(c, player.account, player, token, newly));
  }

  lemma LoadedAsksOnce(env: Environment, g: Game, c: ConnectionId, account: string, token: string,
                       result: DataResult<PlayerRecord>, choice: Choice)
    requires Ticketed(g.login)
    ensures AsksAtMostOnce(env, g.login, OnPlayerLoaded(env, g, c, account, token, result, choice).login)
  {
    if Stale(g, c) {
    } else if result.Good() {
      ContinueAsksOnce(env, g, c, result.value.value, token, false, choice);
    } else {
      RequestAsksOnce(env, g, c, account, AfterCreate(c, account, NewPlayer(env, account, choice)));
    }
  }

  lemma ResumeAsksOnce(env: Environment, g: Game, k: Continuation, reply: Reply, choice: Choice)
    requires Ticketed(g.login) && Honest(k, reply)
    ensures AsksAtMostOnce(env, g.login, Resume(env, g, k, reply, choice).login)
  {
    match k
    case AfterLoad(c, account, token) => LoadedAsksOnce(env, g, c, account, token, reply.player, choice);
    case AfterCreate(c, account, player) => ContinueAsksOnce(env, g, c, player, "", true, choice);
    case AfterLoadSession(c, account, player, token, newly) => StoreAsksOnce(env, g, c, player, true, choice);
    case AfterStoreSession(c, account, player, token, allow) => FinishAsksOnce(env, g, c, player, token, allow);
    case AfterDisconnectSave(_) =>
  }

  lemma ChatAsksNothing(env: Environment, g: Game, c: ConnectionId, text: Option<string>, order: seq<PlayerId>)
    ensures HandleChat(env, g, c, text, order).login == g.login
  {}

  lemma MoveAsksNothing(env: Environment, g: Game, c: ConnectionId, target: Option<Position>)
    ensures HandleMove(env, g, c, target).login == g.login
  {}

  lemma LoginAsksOnce(env: Environment, g: Game, c: ConnectionId, request: Option<LoginRequest>)
    requires Ticketed(g.login)
    ensures AsksAtMostOnce(env, g.login, HandleLogin(env, g, c, request).login)
  {
    if request.Some? {
      var account := request.value.account;
      RequestAsksOnce(env, g.(login := Lock(g.login, c, account)), c, account, AfterLoad(c, account, request.value.token));
    }
  }

  lemma FrameAsksOnce(env: Environment, g: Game, c: ConnectionId, request: Request, order: seq<PlayerId>)
    requires Ticketed(g.login)
    ensures AsksAtMostOnce(env, g.login, HandleFrame(env, g, c, request, order).login)
  {
    match request
    case LoginFrame(login) => LoginAsksOnce(env, g, c, login);
    case ChatFrame(text) => ChatAsksNothing(env, g, c, text, order);
    case MoveFrame(target) => MoveAsksNothing(env, g, c, target);
    case HeartbeatFrame(parsed) =>
    case OtherFrame => CloseAsksOnce(env, g, c);
  }

  /** The reply to request `t`. */
  predicate Answers(e: Event, t: Ticket) {
    e.Delivered? && e.ticket == t
  }

  /** The login tables once the callback of `e`, if it is one, has been taken out of flight. */
  function Taken(g: Game, e: Event): Login {
    if e.Delivered? && Enabled(g, e) then g.login.(inflight := g.login.inflight - {e.ticket}) else g.login
  }

  /** Every event takes out of flight only the request it answers, and makes at most one new one. */
  lemma StepAsksOnce(env: Environment, g: Game, e: Event)
    requires Ticketed(g.login)
    ensures AsksAtMostOnce(env, Taken(g, e), Step(env, g, e).login)
  {
    if Enabled(g, e) {
      match e
      case Accepted(d, registered) =>
        RejectedRegistration(env, g, d);
        CloseAsksOnce(env, g.(net := Opened(g.net, d)), g.net.lastId + 1);
      case Handled(d, request, order) => FrameAsksOnce(env, g, d, request, order);
      case Delivered(ticket, reply, choice) =>
        ResumeAsksOnce(env, g.(login := Taken(g, e)), g.login.inflight[ticket], reply, choice);
      case Flushed(d, script) =>
      case Marked(d) =>
      case Closed(d) => CloseAsksOnce(env, g, d);
    }
  }

  /** So a request stays in flight until it is answered, and never comes back. */
  lemma StepExtends(env: Environment, g: Game, e: Event, t: Ticket)
    requires Ticketed(g.login)
    ensures t in g.login.inflight && !(Answers(e, t) && Enabled(g, e)) ==>
      t in Step(env, g, e).login.inflight && Step(env, g, e).login.inflight[t] == g.login.inflight[t]
    ensures t < g.login.requests && (t in g.login.inflight ==> Answers(e, t) && Enabled(g, e)) ==>
      t !in Step(env, g, e).login.inflight
    ensures g.login.requests <= Step(env, g, e).login.requests
  {
    StepAsksOnce(env, g, e);
  }
}
