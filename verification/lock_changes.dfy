/** Whose login locks an event may touch: only those of the connection that acts in it. */
module LockChanges {
  import opened Wrappers
  import opened AoiGrid
  import opened GameModel
  import opened Replication
  import opened ServerInvariants
  import opened ServerSteps
  import opened ServerRuns

  /** At most the pending login of `c`, and the locks on that login's account and on `account`, have
      changed. */
  ghost predicate TouchesOnly(before: Login, after: Login, c: ConnectionId, account: string) {
    && (forall d | d != c :: d in after.pendingConnections <==> d in before.pendingConnections)
    && (forall d | d in before.pendingConnections && d in after.pendingConnections ::
          after.pendingConnections[d] == before.pendingConnections[d])
    && (forall a | a in before.pendingAccounts && a !in after.pendingAccounts ::
          a == account || (c in before.pendingConnections && before.pendingConnections[c] == a))
    && after.pendingAccounts <= before.pendingAccounts + {account}
  }

  /** The pending login of `c` is gone, and its account and `account` are free. */
  predicate GivenBack(before: Login, after: Login, c: ConnectionId, account: string) {
    && after.pendingConnections == before.pendingConnections - {c}
    && after.pendingAccounts == before.pendingAccounts - {account} -
         (if c in before.pendingConnections then {before.pendingConnections[c]} else {})
  }

  lemma FailTouches(env: Environment, g: Game, c: ConnectionId, account: string, error: string)
    ensures TouchesOnly(g.login, FailLogin(env, g, c, account, error).login, c, account)
  {}

  /** A refusal that names no account touches only the connection's own. */
  lemma RefusalTouches(env: Environment, g: Game, c: ConnectionId, error: string, account: string)
    ensures TouchesOnly(g.login, FailLogin(env, g, c, "", error).login, c, account)
  {}

  lemma ReleaseTouches(login: Login, c: ConnectionId, account: string)
    ensures TouchesOnly(login, Release(login, c, account), c, account)
  {}

  lemma RequestTouches(env: Environment, g: Game, c: ConnectionId, account: string, k: Continuation)
    ensures var (login, ok) := Submit(env, g.login, k);
      && TouchesOnly(g.login, login, c, account)
      && TouchesOnly(g.login, FailLogin(env, g.(login := login), c, account, "database queue is full").login, c, account)
  {
    FailTouches(env, g.(login := Submit(env, g.login, k).0), c, account, "database queue is full");
  }

  lemma StoreTouches(env: Environment, g: Game, c: ConnectionId, player: PlayerRecord, allow: bool, choice: Choice)
    ensures TouchesOnly(g.login, StoreSessionAndFinish(env, g, c, player, allow, choice).login, c, player.account)
  {
    ReleaseTouches(g.login, c, player.account);
    FailTouches(env, g, c, player.account, "player is already online");
    RequestTouches(env, g, c, player.account, AfterStoreSession(c, player.account, player, choice.token, allow));
  }

  lemma ContinueTouches(env: Environment, g: Game, c: ConnectionId, loaded: PlayerRecord, token: string, newly: bool, choice: Choice)
    ensures TouchesOnly(g.login, ContinueLogin(env, g, c, loaded, token, newly, choice).login, c, loaded.account)
  {
    var player := loaded.(lastLogin := choice.now);
    ReleaseTouches(g.login, c, loaded.account);
    StoreTouches(env, g, c, player, false, choice);
    RequestTouches(env, g, c, player.account, AfterLoadSession(c, player.account, player, token, newly));
  }

  lemma LoadedTouches(env: Environment, g: Game, c: ConnectionId, account: string, token: string,
                      result: DataResult<PlayerRecord>, choice: Choice)
    requires result.Good() ==> result.value.value.account == account
    ensures TouchesOnly(g.login, OnPlayerLoaded(env, g, c, account, token, result, choice).login, c, account)
  {
    if Stale(g, c) {
      ReleaseTouches(g.login, c, account);
    } else if result.Good() {
      ContinueTouches(env, g, c, result.value.value, token, false, choice);
    } else if result.status != NotFound {
      FailTouches(env, g, c, account, "failed to load player");
    } else if token != "" {
      FailTouches(env, g, c, account, "session does not exist");
    } else {
      RequestTouches(env, g, c, account, AfterCreate(c, account, NewPlayer(env, account, choice)));
    }
  }

  lemma EnterTouches(env: Environment, g: Game, c: ConnectionId, account: string, player: PlayerRecord, token: string)
    ensures TouchesOnly(g.login, EnterWorld(env, g, c, account, player, token).login, c, account)
  {
    FailTouches(env, g, c, account, "player position is outside the world");
    ReleaseTouches(g.login, c, account);
  }

  lemma CloseTouches(env: Environment, g: Game, c: ConnectionId, account: string)
    ensures TouchesOnly(g.login, CloseConnection(env, g, c).login, c, account)
    ensures c !in g.login.pendingConnections ==>
      CloseConnection(env, g, c).login.pendingConnections == g.login.pendingConnections &&
      CloseConnection(env, g, c).login.pendingAccounts == g.login.pendingAccounts
  {
    CloseLogin(env, g, c);
  }

  lemma FinishTouches(env: Environment, g: Game, c: ConnectionId, loaded: PlayerRecord, token: string, allow: bool)
    requires PlayOk(env.aoi, g.play) && LinkOk(g)
    ensures TouchesOnly(g.login, FinishLogin(env, g, c, loaded, token, allow).login, c, loaded.account)
  {
    if Stale(g, c) {
      ReleaseTouches(g.login, c, loaded.account);
    } else if loaded.playerId !in g.play.online {
      EnterTouches(env, g, c, loaded.account, loaded, token);
    } else if !allow {
      FailTouches(env, g, c, loaded.account, "player is already online");
    } else {
      var prior := g.play.online[loaded.playerId];
      CloseTouches(env, g, prior.connection, loaded.account);
      EnterTouches(env, CloseConnection(env, g, prior.connection), c, loaded.account, prior.record, token);
    }
  }

  lemma ResumeTouches(env: Environment, g: Game, k: Continuation, reply: Reply, choice: Choice)
    requires PlayOk(env.aoi, g.play) && LinkOk(g) && Honest(k, reply) && !k.AfterDisconnectSave?
    requires k.AfterCreate? || k.AfterLoadSession? || k.AfterStoreSession? ==> k.player.account == k.account
    ensures TouchesOnly(g.login, Resume(env, g, k, reply, choice).login, k.connection, k.account)
  {
    match k
    case AfterLoad(c, account, token) => LoadedTouches(env, g, c, account, token, reply.player, choice);
    case AfterCreate(c, account, player) =>
      FailTouches(env, g, c, account, "failed to create player");
      ContinueTouches(env, g, c, player, "", true, choice);
    case AfterLoadSession(c, account, player, token, newly) =>
      FailTouches(env, g, c, account, "invalid or expired session");
      StoreTouches(env, g, c, player, true, choice);
    case AfterStoreSession(c, account, player, token, allow) =>
      FailTouches(env, g, c, account, "failed to store session");
      FinishTouches(env, g, c, player, token, allow);
  }

  lemma HandleLoginTouches(env: Environment, g: Game, c: ConnectionId, request: Option<LoginRequest>, account: string)
    requires request.Some? ==> account == request.value.account
    ensures TouchesOnly(g.login, HandleLogin(env, g, c, request).login, c, account)
  {
    if request.None? || request.value.account == "" || |request.value.account| > 64 ||
       c in g.play.bound || c in g.login.pendingConnections {
      RefusalTouches(env, g, c, "invalid or duplicate login request", account);
    } else if account in g.login.pendingAccounts {
      RefusalTouches(env, g, c, "account login is already pending", account);
    } else {
      RequestTouches(env, g.(login := Lock(g.login, c, account)), c, account, AfterLoad(c, account, request.value.token));
    }
  }

  // ---------------------------------------------------------------- every event

  /** The connection in whose name an event happens, if there is one. */
  function Actor(g: Game, e: Event): Option<ConnectionId> {
    match e
    case Handled(c, _, _) => Some(c)
    case Closed(c) => Some(c)
    case Delivered(ticket, _, _) =>
      if ticket in g.login.inflight && !g.login.inflight[ticket].AfterDisconnectSave?
      then Some(g.login.inflight[ticket].connection) else None
    case _ => None
  }

  /** The account that the event is about, if there is one. */
  function AccountOf(g: Game, e: Event): string {
    match e
    case Handled(_, LoginFrame(Some(request)), _) => request.account
    case Delivered(ticket, _, _) =>
      if ticket in g.login.inflight && !g.login.inflight[ticket].AfterDisconnectSave? then g.login.inflight[ticket].account else ""
    case _ => ""
  }

  lemma ChatLocksNothing(env: Environment, g: Game, c: ConnectionId, text: Option<string>, order: seq<PlayerId>)
    ensures HandleChat(env, g, c, text, order).login == g.login
  {}

  lemma MoveLocksNothing(env: Environment, g: Game, c: ConnectionId, target: Option<Position>)
    ensures HandleMove(env, g, c, target).login == g.login
  {}

  lemma FrameTouches(env: Environment, g: Game, c: ConnectionId, request: Request, order: seq<PlayerId>)
    ensures TouchesOnly(g.login, HandleFrame(env, g, c, request, order).login, c, AccountOf(g, Handled(c, request, order)))
  {
    match request
    case LoginFrame(login) => HandleLoginTouches(env, g, c, login, AccountOf(g, Handled(c, request, order)));
    case ChatFrame(text) => ChatLocksNothing(env, g, c, text, order);
    case MoveFrame(target) => MoveLocksNothing(env, g, c, target);
    case HeartbeatFrame(parsed) =>
    case OtherFrame => CloseTouches(env, g, c, "");
  }

  lemma DeliverTouches(env: Environment, g: Game, ticket: Ticket, reply: Reply, choice: Choice)
    requires Inv(env, g) && ticket in g.login.inflight && Honest(g.login.inflight[ticket], reply)
    requires !g.login.inflight[ticket].AfterDisconnectSave?
    ensures var k := g.login.inflight[ticket];
      TouchesOnly(g.login, Deliver(env, g, ticket, reply, choice).login, k.connection, k.account)
  {
    ResumeTouches(env, g.(login := g.login.(inflight := g.login.inflight - {ticket})), g.login.inflight[ticket], reply, choice);
  }

  lemma OpeningLocksNothing(env: Environment, g: Game, d: Descriptor, registered: bool)
    requires Consistent(env, g)
    ensures Accept(env, g, d, registered).login.pendingConnections == g.login.pendingConnections
    ensures Accept(env, g, d, registered).login.pendingAccounts == g.login.pendingAccounts
  {
    OpenedIsNew(env, g.net);
    RejectedRegistration(env, g, d);
    CloseTouches(env, g.(net := Opened(g.net, d)), g.net.lastId + 1, "");
  }

  /** In every run: an event in nobody's name changes no lock; any other touches only the pending login of
      the connection in whose name it happens, with that login's account and the account it is about. */
  lemma LocksChangeOnlyForTheActor(env: Environment, g: Game, e: Event)
    requires Reachable(env, g)
    ensures match Actor(g, e)
      case Some(c) => TouchesOnly(g.login, Step(env, g, e).login, c, AccountOf(g, e))
      case None =>
        && Step(env, g, e).login.pendingConnections == g.login.pendingConnections
        && Step(env, g, e).login.pendingAccounts == g.login.pendingAccounts
  {
    ReachableInv(env, g);
    if Enabled(g, e) {
      match e
      case Accepted(d, registered) => OpeningLocksNothing(env, g, d, registered);
      case Handled(c, request, order) => FrameTouches(env, g, c, request, order);
      case Delivered(ticket, reply, choice) =>
        if !g.login.inflight[ticket].AfterDisconnectSave? {
          DeliverTouches(env, g, ticket, reply, choice);
        }
      case Flushed(c, script) =>
      case Marked(c) =>
      case Closed(c) => CloseTouches(env, g, c, "");
    }
  }

  /** A connection that closes, in whatever way but by being displaced (when it waits for nothing), frees its
      account at once. */
  lemma ClosingUnlocks(env: Environment, g: Game, c: ConnectionId, order: seq<PlayerId>)
    requires Reachable(env, g) && c in g.net.descriptors
    ensures var after := Step(env, g, Closed(c)).login;
      && after.pendingConnections == g.login.pendingConnections - {c}
      && after.pendingAccounts == g.login.pendingAccounts -
           (if c in g.login.pendingConnections then {g.login.pendingConnections[c]} else {})
    ensures c !in g.net.marked ==> Step(env, g, Handled(c, OtherFrame, order)) == Step(env, g, Closed(c))
  {
    CloseLogin(env, g, c);
  }
}
