/** Login locks never leak: whatever is pending is waited for by a database callback that has not
    run yet. */
module LoginLocks {
  import opened Wrappers
  import opened AoiGrid
  import opened GameModel

  predicate ForConnection(k: Continuation, c: ConnectionId) {
    !k.AfterDisconnectSave? && k.connection == c
  }

  predicate ForAccount(k: Continuation, account: string) {
    !k.AfterDisconnectSave? && k.account == account
  }

  predicate Served(login: Login, c: ConnectionId) {
    exists t :: t in login.inflight && ForConnection(login.inflight[t], c)
  }

  predicate Claimed(login: Login, account: string) {
    exists t :: t in login.inflight && ForAccount(login.inflight[t], account)
  }

  /** A continuation works for a named account and on that account's record. */
  predicate Proper(k: Continuation) {
    && (!k.AfterDisconnectSave? ==> k.account != "")
    && (k.AfterCreate? || k.AfterLoadSession? || k.AfterStoreSession? ==> k.player.account == k.account)
  }

  predicate TicketsOk(login: Login) {
    forall t | t in login.inflight :: t < login.requests && Proper(login.inflight[t])
  }

  /** Every pending connection and every locked account has a callback in flight, except possibly
      the one connection and account whose callback is running. */
  predicate LocksExcept(login: Login, c: Option<ConnectionId>, account: Option<string>) {
    && TicketsOk(login)
    && (forall d | d in login.pendingConnections && Some(d) != c :: Served(login, d))
    && (forall a | a in login.pendingAccounts && Some(a) != account :: Claimed(login, a))
  }

  predicate LocksOk(login: Login) {
    LocksExcept(login, None, None)
  }

  /** Fewer locks, no callback lost. */
  predicate NoWorse(before: Login, after: Login) {
    && after.pendingConnections.Keys <= before.pendingConnections.Keys
    && after.pendingAccounts <= before.pendingAccounts
    && (forall t | t in before.inflight :: t in after.inflight && after.inflight[t] == before.inflight[t])
    && TicketsOk(after)
  }

  lemma NoWorseKeeps(before: Login, after: Login, c: Option<ConnectionId>, account: Option<string>)
    requires LocksExcept(before, c, account) && NoWorse(before, after)
    ensures LocksExcept(after, c, account)
  {
    forall d | d in after.pendingConnections && Some(d) != c
      ensures Served(after, d)
    {
      var t :| t in before.inflight && ForConnection(before.inflight[t], d);
      assert ForConnection(after.inflight[t], d);
    }
    forall a | a in after.pendingAccounts && Some(a) != account
      ensures Claimed(after, a)
    {
      var t :| t in before.inflight && ForAccount(before.inflight[t], a);
      assert ForAccount(after.inflight[t], a);
    }
  }

  lemma SubmitNoWorse(env: Environment, login: Login, k: Continuation)
    requires TicketsOk(login) && Proper(k)
    ensures NoWorse(login, Submit(env, login, k).0)
  {}

  /** Handing the login on to its next callback. */
  lemma SubmitHandsOn(env: Environment, login: Login, c: ConnectionId, account: string, k: Continuation)
    requires LocksExcept(login, Some(c), Some(account))
    requires Proper(k) && ForConnection(k, c) && ForAccount(k, account)
    ensures var (after, ok) := Submit(env, login, k);
      if ok then LocksOk(after) else LocksExcept(after, Some(c), Some(account))
  {
    SubmitNoWorse(env, login, k);
    var (after, ok) := Submit(env, login, k);
    NoWorseKeeps(login, after, Some(c), Some(account));
    if ok {
      assert after.inflight[login.requests] == k;
      assert Served(after, c) && Claimed(after, account);
    }
  }

  lemma ReleaseSettles(login: Login, c: ConnectionId, account: string)
    requires LocksExcept(login, Some(c), Some(account))
    ensures LocksOk(Release(login, c, account))
  {
    NoWorseKeeps(login, Release(login, c, account), Some(c), Some(account));
  }

  lemma FailSettles(env: Environment, g: Game, c: ConnectionId, account: string, error: string)
    requires LocksExcept(g.login, Some(c), Some(account)) && account != ""
    ensures LocksOk(FailLogin(env, g, c, account, error).login)
  {
    NoWorseKeeps(g.login, FailLogin(env, g, c, account, error).login, Some(c), Some(account));
  }

  lemma CloseNoWorse(env: Environment, g: Game, c: ConnectionId)
    requires TicketsOk(g.login)
    ensures NoWorse(g.login, CloseConnection(env, g, c).login)
  {
    if c in g.net.descriptors {
      var login := CancelPending(g.login, c);
      assert NoWorse(g.login, login);
      if c in g.play.bound && g.play.bound[c] in g.play.online {
        SubmitNoWorse(env, login, AfterDisconnectSave(g.play.online[g.play.bound[c]].record));
      }
    }
  }

  lemma EnterWorldSettles(env: Environment, g: Game, c: ConnectionId, account: string, player: PlayerRecord, token: string)
    requires LocksExcept(g.login, Some(c), Some(account)) && account != ""
    ensures LocksOk(EnterWorld(env, g, c, account, player, token).login)
  {
    FailSettles(env, g, c, account, "player position is outside the world");
    ReleaseSettles(g.login, c, account);
  }

  lemma FinishLoginSettles(env: Environment, g: Game, c: ConnectionId, loaded: PlayerRecord, token: string, allow: bool)
    requires LocksExcept(g.login, Some(c), Some(loaded.account)) && loaded.account != ""
    ensures LocksOk(FinishLogin(env, g, c, loaded, token, allow).login)
  {
    ReleaseSettles(g.login, c, loaded.account);
    FailSettles(env, g, c, loaded.account, "player is already online");
    EnterWorldSettles(env, g, c, loaded.account, loaded, token);
    if loaded.playerId in g.play.online {
      var displaced := g.play.online[loaded.playerId];
      var closed := CloseConnection(env, g, displaced.connection);
      CloseNoWorse(env, g, displaced.connection);
      NoWorseKeeps(g.login, closed.login, Some(c), Some(loaded.account));
      EnterWorldSettles(env, closed, c, loaded.account, displaced.record, token);
    }
  }

  /** Submitting the next request, or failing the login when the queue is full. */
  lemma RequestSettles(env: Environment, g: Game, c: ConnectionId, account: string, k: Continuation)
    requires LocksExcept(g.login, Some(c), Some(account))
    requires Proper(k) && ForConnection(k, c) && ForAccount(k, account)
    ensures var (login, ok) := Submit(env, g.login, k);
      if ok then LocksOk(login) else LocksOk(FailLogin(env, g.(login := login), c, account, "database queue is full").login)
  {
    SubmitHandsOn(env, g.login, c, account, k);
    var (login, ok) := Submit(env, g.login, k);
    if !ok {
      FailSettles(env, g.(login := login), c, account, "database queue is full");
    }
  }

  lemma StoreSessionSettles(env: Environment, g: Game, c: ConnectionId, player: PlayerRecord, allow: bool, choice: Choice)
    requires LocksExcept(g.login, Some(c), Some(player.account)) && player.account != ""
    ensures LocksOk(StoreSessionAndFinish(env, g, c, player, allow, choice).login)
  {
    ReleaseSettles(g.login, c, player.account);
    FailSettles(env, g, c, player.account, "player is already online");
    RequestSettles(env, g, c, player.account, AfterStoreSession(c, player.account, player, choice.token, allow));
  }

  lemma ContinueLoginSettles(env: Environment, g: Game, c: ConnectionId, loaded: PlayerRecord, token: string, newly: bool, choice: Choice)
    requires LocksExcept(g.login, Some(c), Some(loaded.account)) && loaded.account != ""
    ensures LocksOk(ContinueLogin(env, g, c, loaded, token, newly, choice).login)
  {
    var player := loaded.(lastLogin := choice.now);
    ReleaseSettles(g.login, c, loaded.account);
    StoreSessionSettles(env, g, c, player, false, choice);
    RequestSettles(env, g, c, player.account, AfterLoadSession(c, player.account, player, token, newly));
  }

  lemma PlayerLoadedSettles(env: Environment, g: Game, c: ConnectionId, account: string, token: string,
                            result: DataResult<PlayerRecord>, choice: Choice)
    requires LocksExcept(g.login, Some(c), Some(account)) && account != ""
    requires result.Good() ==> result.value.value.account == account
    ensures LocksOk(OnPlayerLoaded(env, g, c, account, token, result, choice).login)
  {
    if Stale(g, c) {
      ReleaseSettles(g.login, c, account);
    } else if result.Good() {
      ContinueLoginSettles(env, g, c, result.value.value, token, false, choice);
    } else if result.status != NotFound {
      FailSettles(env, g, c, account, "failed to load player");
    } else if token != "" {
      FailSettles(env, g, c, account, "session does not exist");
    } else {
      RequestSettles(env, g, c, account, AfterCreate(c, account, NewPlayer(env, account, choice)));
    }
  }

  /** Taking a callback out of flight leaves only its own connection and account uncovered. */
  lemma TakenOut(login: Login, ticket: Ticket)
    requires LocksOk(login) && ticket in login.inflight
    ensures var k, after := login.inflight[ticket], login.(inflight := login.inflight - {ticket});
      if k.AfterDisconnectSave? then LocksOk(after) else LocksExcept(after, Some(k.connection), Some(k.account))
  {
    var k, after := login.inflight[ticket], login.(inflight := login.inflight - {ticket});
    forall d | d in after.pendingConnections && !ForConnection(k, d)
      ensures Served(after, d)
    {
      var t :| t in login.inflight && ForConnection(login.inflight[t], d);
      assert t in after.inflight && ForConnection(after.inflight[t], d);
    }
    forall a | a in after.pendingAccounts && !ForAccount(k, a)
      ensures Claimed(after, a)
    {
      var t :| t in login.inflight && ForAccount(login.inflight[t], a);
      assert t in after.inflight && ForAccount(after.inflight[t], a);
    }
  }

  lemma DeliverSettles(env: Environment, g: Game, ticket: Ticket, reply: Reply, choice: Choice)
    requires LocksOk(g.login) && ticket in g.login.inflight && Honest(g.login.inflight[ticket], reply)
    ensures LocksOk(Deliver(env, g, ticket, reply, choice).login)
  {
    var g0 := g.(login := g.login.(inflight := g.login.inflight - {ticket}));
    TakenOut(g.login, ticket);
    assert Proper(g.login.inflight[ticket]);
    match g.login.inflight[ticket]
    case AfterLoad(c, account, token) => PlayerLoadedSettles(env, g0, c, account, token, reply.player, choice);
    case AfterCreate(c, account, player) =>
      FailSettles(env, g0, c, account, "failed to create player");
      ContinueLoginSettles(env, g0, c, player, "", true, choice);
    case AfterLoadSession(c, account, player, token, newly) =>
      FailSettles(env, g0, c, account, "invalid or expired session");
      StoreSessionSettles(env, g0, c, player, true, choice);
    case AfterStoreSession(c, account, player, token, allow) =>
      FailSettles(env, g0, c, account, "failed to store session");
      FinishLoginSettles(env, g0, c, player, token, allow);
    case AfterDisconnectSave(_) =>
  }

  lemma HandleLoginSettles(env: Environment, g: Game, c: ConnectionId, request: Option<LoginRequest>)
    requires LocksOk(g.login)
    ensures LocksOk(HandleLogin(env, g, c, request).login)
  {
    if request.None? || request.value.account == "" || |request.value.account| > 64 ||
       c in g.play.bound || c in g.login.pendingConnections {
      NoWorseKeeps(g.login, HandleLogin(env, g, c, request).login, None, None);
    } else if request.value.account in g.login.pendingAccounts {
      NoWorseKeeps(g.login, HandleLogin(env, g, c, request).login, None, None);
    } else {
      var account := request.value.account;
      var login := g.login.(pendingConnections := g.login.pendingConnections[c := account],
                            pendingAccounts := g.login.pendingAccounts + {account});
      assert forall d | d in login.pendingConnections && d != c :: Served(g.login, d) && Served(login, d);
      assert forall a | a in login.pendingAccounts && a != account :: Claimed(g.login, a) && Claimed(login, a);
      RequestSettles(env, g.(login := login), c, account, AfterLoad(c, account, request.value.token));
    }
  }

  lemma CloseSettles(env: Environment, g: Game, c: ConnectionId)
    requires LocksOk(g.login)
    ensures LocksOk(CloseConnection(env, g, c).login)
  {
    CloseNoWorse(env, g, c);
    NoWorseKeeps(g.login, CloseConnection(env, g, c).login, None, None);
  }

  lemma OpenedSettles(env: Environment, g: Game, d: Descriptor)
    requires LocksOk(g.login)
    ensures LocksOk(CloseConnection(env, g.(net := Opened(g.net, d)), g.net.lastId + 1).login)
  {
    CloseSettles(env, g.(net := Opened(g.net, d)), g.net.lastId + 1);
  }

  lemma AcceptSettles(env: Environment, g: Game, d: Descriptor, registered: bool)
    requires LocksOk(g.login)
    ensures LocksOk(Accept(env, g, d, registered).login)
  {
    RejectedRegistration(env, g, d);
    OpenedSettles(env, g, d);
  }

  lemma FrameSettles(env: Environment, g: Game, c: ConnectionId, request: Request, order: seq<PlayerId>)
    requires LocksOk(g.login)
    ensures LocksOk(HandleFrame(env, g, c, request, order).login)
  {
    match request
    case LoginFrame(login) => HandleLoginSettles(env, g, c, login);
    case OtherFrame => CloseSettles(env, g, c);
    case ChatFrame(text) => assert HandleChat(env, g, c, text, order).login == g.login;
    case MoveFrame(target) => assert HandleMove(env, g, c, target).login == g.login;
    case HeartbeatFrame(parsed) =>
  }

  lemma StepSettles(env: Environment, g: Game, e: Event)
    requires LocksOk(g.login)
    ensures LocksOk(Step(env, g, e).login)
  {
    match e
    case Accepted(d, registered) => AcceptSettles(env, g, d, registered);
    case Handled(c, request, order) => FrameSettles(env, g, c, request, order);
    case Delivered(ticket, reply, choice) =>
      if Enabled(g, e) {
        DeliverSettles(env, g, ticket, reply, choice);
      }
    case Flushed(c, script) =>
    case Marked(c) =>
    case Closed(c) => CloseSettles(env, g, c);
  }
}
