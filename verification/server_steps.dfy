/** Every event keeps the tables consistent and every client's picture true. */
module ServerSteps {
  import opened Wrappers
  import opened AoiGrid
  import opened GameModel
  import opened Replication
  import opened ViewChanges
  import opened ServerInvariants

  // ---------------------------------------------------------------- small moves

  /** A change of the login tables that makes nobody newly pending. */
  lemma LoginChangeKeeps(env: Environment, g: Game, login: Login)
    requires Consistent(env, g) && login.pendingConnections.Keys <= g.login.pendingConnections.Keys
    ensures Consistent(env, g.(login := login))
  {}

  lemma IdleKeeps(env: Environment, g: Game, out: seq<Outgoing>)
    requires Consistent(env, g) && AllIdle(out)
    ensures Consistent(env, g.(net := SendEach(env, g.net, out)))
  {
    SendEachKeeps(env, g.net, out);
    forall p | p in g.play.online && g.play.online[p].connection !in g.net.marked
      ensures LearnAll(ClientView(Sent(g.net, g.play.online[p].connection)), Inbox(out, g.play.online[p].connection))
        == TrueView(env.aoi, g.play, p)
    {
      IdleInbox(TrueView(env.aoi, g.play, p), out, g.play.online[p].connection);
    }
    Publish(env, g.play, g.net, g.play, out);
    GreetedAfter(env, g, out);
  }

  lemma SendAsBatch(env: Environment, net: Net, c: ConnectionId, m: Message)
    ensures Send(env, net, c, m) == SendEach(env, net, [Outgoing(c, m)])
  {
    assert [Outgoing(c, m)][..0] == [];
  }

  lemma FailLoginKeeps(env: Environment, g: Game, c: ConnectionId, account: string, error: string)
    requires Consistent(env, g)
    ensures Consistent(env, FailLogin(env, g, c, account, error))
  {
    var unlocked := if account != "" then g.login.(pendingAccounts := g.login.pendingAccounts - {account}) else g.login;
    var login := CancelPending(unlocked, c);
    LoginChangeKeeps(env, g, login);
    SendAsBatch(env, g.net, c, LoginRefused(error));
    IdleKeeps(env, g.(login := login), [Outgoing(c, LoginRefused(error))]);
  }

  lemma ReleaseKeeps(env: Environment, g: Game, c: ConnectionId, account: string)
    requires Consistent(env, g)
    ensures Consistent(env, g.(login := Release(g.login, c, account)))
  {
    LoginChangeKeeps(env, g, Release(g.login, c, account));
  }

  lemma SubmitKeeps(env: Environment, g: Game, k: Continuation)
    requires Consistent(env, g)
    ensures Consistent(env, g.(login := Submit(env, g.login, k).0))
  {
    LoginChangeKeeps(env, g, Submit(env, g.login, k).0);
  }

  // ---------------------------------------------------------------- closing

  /** Dropping a connection from the transport's tables. */
  function Forget(net: Net, c: ConnectionId): Net {
    net.(clients := if c in net.descriptors then net.clients - {net.descriptors[c]} else net.clients,
         descriptors := net.descriptors - {c}, marked := net.marked - {c})
  }

  lemma ForgetOk(env: Environment, net: Net, c: ConnectionId)
    requires NetOk(env, net) && c in net.descriptors
    ensures NetOk(env, Forget(net, c))
  {
    assert Forget(net, c).clients.Keys <= net.clients.Keys;
    SubsetSize(Forget(net, c).clients.Keys, net.clients.Keys);
    assert |Forget(net, c).clients| == |Forget(net, c).clients.Keys|;
  }

  lemma SubsetSize<T>(a: set<T>, b: set<T>)
    requires a <= b
    ensures |a| <= |b|
  {
    assert b == a + (b - a);
  }

  lemma CloseBound(env: Environment, g: Game, c: ConnectionId)
    requires c in g.net.descriptors && c in g.play.bound && g.play.bound[c] in g.play.online
    ensures var after, p := CloseConnection(env, g, c), g.play.bound[c];
      var net := SendEach(env, g.net, DepartureNews(env.aoi, g.play, p));
      && after.play == Departed(g.play, c, p)
      && after.net == net.(clients := net.clients - {g.net.descriptors[c]},
                           descriptors := net.descriptors - {c}, marked := net.marked - {c})
  {}

  lemma CloseCancels(env: Environment, g: Game, c: ConnectionId)
    requires c in g.net.descriptors
    ensures CloseConnection(env, g, c).login.pendingConnections == g.login.pendingConnections - {c}
  {
    CloseLogin(env, g, c);
    assert CancelPending(g.login, c).pendingConnections == g.login.pendingConnections - {c};
  }

  /** What closing a live connection amounts to. */
  lemma CloseUnfolds(env: Environment, g: Game, c: ConnectionId)
    requires NetOk(env, g.net) && PlayOk(env.aoi, g.play) && c in g.net.descriptors
    ensures var after := CloseConnection(env, g, c);
      && c !in after.net.descriptors
      && after.login.pendingConnections == g.login.pendingConnections - {c}
      && (if c in g.play.bound then
            var p := g.play.bound[c];
            && after.play == Departed(g.play, c, p)
            && after.net == Forget(SendEach(env, g.net, DepartureNews(env.aoi, g.play, p)), c)
          else after.play == g.play && after.net == Forget(g.net, c))
  {
    CloseCancels(env, g, c);
    if c in g.play.bound {
      CloseBound(env, g, c);
      SendEachKeeps(env, g.net, DepartureNews(env.aoi, g.play, g.play.bound[c]));
    } else {
      CloseUnbound(env, g, c);
    }
  }

  /** What closing a connection does to the login tables. */
  lemma CloseLogin(env: Environment, g: Game, c: ConnectionId)
    ensures var login := CancelPending(g.login, c);
      CloseConnection(env, g, c).login ==
        if c !in g.net.descriptors then g.login
        else if c in g.play.bound && g.play.bound[c] in g.play.online
        then Submit(env, login, AfterDisconnectSave(g.play.online[g.play.bound[c]].record)).0
        else login
  {}

  lemma CloseUnbound(env: Environment, g: Game, c: ConnectionId)
    requires c in g.net.descriptors && c !in g.play.bound
    ensures CloseConnection(env, g, c) == Game(Forget(g.net, c), g.play, CancelPending(g.login, c))
  {}

  lemma ForgetKeeps(env: Environment, g: Game, c: ConnectionId, login: Login)
    requires Consistent(env, g) && c in g.net.descriptors && c !in g.play.bound
    requires login.pendingConnections == g.login.pendingConnections - {c}
    ensures Consistent(env, Game(Forget(g.net, c), g.play, login))
  {
    ForgetOk(env, g.net, c);
  }

  lemma DepartureReplicates(env: Environment, g: Game, c: ConnectionId)
    requires Consistent(env, g) && c in g.play.bound
    ensures var p := g.play.bound[c];
      Replicated(env, Departed(g.play, c, p), SendEach(env, g.net, DepartureNews(env.aoi, g.play, p)))
  {
    var p := g.play.bound[c];
    var play, out := Departed(g.play, c, p), DepartureNews(env.aoi, g.play, p);
    forall q | q in play.online && play.online[q].connection !in g.net.marked
      ensures LearnAll(ClientView(Sent(g.net, play.online[q].connection)), Inbox(out, play.online[q].connection))
        == TrueView(env.aoi, play, q)
    {
      DepartureIsLearnt(env.aoi, g.play, c, q);
    }
    Publish(env, g.play, g.net, play, out);
  }

  lemma DepartureGreets(env: Environment, g: Game, c: ConnectionId)
    requires Consistent(env, g) && c in g.play.bound
    ensures Greeted(g.(net := SendEach(env, g.net, DepartureNews(env.aoi, g.play, g.play.bound[c]))))
  {
    var p := g.play.bound[c];
    BroadcastHasNone(Welcome, g.play.online - {p}, Ascending(Visible(env.aoi, g.play.world, p)), PlayerLeave(p));
    GreetedAfter(env, g, DepartureNews(env.aoi, g.play, p));
  }

  lemma ForgetReplicates(env: Environment, play: Play, net: Net, c: ConnectionId)
    requires Replicated(env, play, net) && forall q | q in play.online :: play.online[q].connection != c
    ensures Replicated(env, play, Forget(net, c))
  {}

  lemma DepartureKeeps(env: Environment, g: Game, c: ConnectionId, login: Login)
    requires Consistent(env, g) && c in g.play.bound
    requires login.pendingConnections == g.login.pendingConnections - {c}
    ensures var p := g.play.bound[c];
      Consistent(env, Game(Forget(SendEach(env, g.net, DepartureNews(env.aoi, g.play, p)), c), Departed(g.play, c, p), login))
  {
    var p := g.play.bound[c];
    var net := SendEach(env, g.net, DepartureNews(env.aoi, g.play, p));
    SendEachKeeps(env, g.net, DepartureNews(env.aoi, g.play, p));
    ForgetOk(env, net, c);
    DepartedOk(env.aoi, g.play, c);
    DepartureReplicates(env, g, c);
    ForgetReplicates(env, Departed(g.play, c, p), net, c);
    DepartureGreets(env, g, c);
  }

  lemma CloseKeeps(env: Environment, g: Game, c: ConnectionId)
    requires Consistent(env, g)
    ensures Consistent(env, CloseConnection(env, g, c))
  {
    if c in g.net.descriptors {
      CloseUnfolds(env, g, c);
      var login := CloseConnection(env, g, c).login;
      if c in g.play.bound {
        DepartureKeeps(env, g, c, login);
      } else {
        ForgetKeeps(env, g, c, login);
      }
    } else {
      assert g.net.marked - {c} == g.net.marked;
    }
  }

  // ---------------------------------------------------------------- entering the world

  /** Joining the world sends the newcomer one login response and nobody else any. */
  lemma ArrivalCounts(aoi: AoiConfig, after: Play, c: ConnectionId, record: PlayerRecord, token: string, d: ConnectionId, kind: Kind)
    ensures Count(kind, Inbox(ArrivalNews(aoi, after, c, record, token), d)) == if d == c then 1 else 0
  {
    var visible := Ascending(Visible(aoi, after.world, record.playerId));
    var welcome := Outgoing(c, LoginAccepted(ViewOf(record), Views(after.online, visible), token));
    var rest := Broadcast(after.online, visible, PlayerEnter(ViewOf(record)));
    InboxConcat([welcome], rest, d);
    InboxOne(welcome, d);
    BroadcastHasNone(kind, after.online, visible, PlayerEnter(ViewOf(record)));
    NoneInInbox(kind, rest, d);
    CountConcat(kind, Inbox([welcome], d), Inbox(rest, d));
    CountLast(kind, [], welcome.message);
    assert [] + [welcome.message] == [welcome.message];
  }

  lemma ArrivalGreets(env: Environment, g: Game, c: ConnectionId, record: PlayerRecord, token: string)
    requires NetOk(env, g.net) && Greeted(g) && c in g.net.descriptors && c !in g.play.bound
    ensures var play := Arrived(g.play, c, record, token);
      Greeted(g.(net := SendEach(env, g.net, ArrivalNews(env.aoi, play, c, record, token)), play := play))
  {
    var play := Arrived(g.play, c, record, token);
    var out := ArrivalNews(env.aoi, play, c, record, token);
    var net := SendEach(env, g.net, out);
    SendEachKeeps(env, g.net, out);
    forall d | d in net.sent
      ensures Count(Welcome, net.sent[d]) <= Count(Welcome, g.net.sent[d]) + (if d == c then 1 else 0)
    {
      SendEachCount(env, g.net, out, d, Welcome);
      ArrivalCounts(env.aoi, play, c, record, token, d, Welcome);
    }
  }

  lemma ArrivalKeeps(env: Environment, g: Game, c: ConnectionId, record: PlayerRecord, token: string, login: Login)
    requires Consistent(env, g) && MayArrive(env.aoi, g.play, c, record) && c in g.net.descriptors
    requires login.pendingConnections == g.login.pendingConnections - {c}
    ensures var play := Arrived(g.play, c, record, token);
      Consistent(env, Game(SendEach(env, g.net, ArrivalNews(env.aoi, play, c, record, token)), play, login))
  {
    var play := Arrived(g.play, c, record, token);
    var out := ArrivalNews(env.aoi, play, c, record, token);
    var net := SendEach(env, g.net, out);
    SendEachKeeps(env, g.net, out);
    ArrivedOk(env.aoi, g.play, c, record, token);
    forall q | q in play.online && play.online[q].connection !in g.net.marked
      ensures LearnAll(ClientView(Sent(g.net, play.online[q].connection)), Inbox(out, play.online[q].connection))
        == TrueView(env.aoi, play, q)
    {
      if q == record.playerId {
        NewcomerLearns(env.aoi, g.play, c, record, token, ClientView(Sent(g.net, c)));
      } else {
        ArrivalIsLearnt(env.aoi, g.play, c, record, token, q);
      }
    }
    Publish(env, g.play, g.net, play, out);
    ArrivalGreets(env, g, c, record, token);
  }

  lemma EnterWorldKeeps(env: Environment, g: Game, c: ConnectionId, account: string, player: PlayerRecord, token: string)
    requires Consistent(env, g) && c in g.login.pendingConnections
    ensures Consistent(env, EnterWorld(env, g, c, account, player, token))
  {
    if player.playerId in g.play.world || !InMap(env.aoi, Position(player.x, player.y)) {
      FailLoginKeeps(env, g, c, account, "player position is outside the world");
    } else {
      ArrivalKeeps(env, g, c, player, token, Release(g.login, c, account));
    }
  }

  // ---------------------------------------------------------------- the login chain

  lemma FinishLoginKeeps(env: Environment, g: Game, c: ConnectionId, loaded: PlayerRecord, token: string, allow: bool)
    requires Consistent(env, g)
    ensures Consistent(env, FinishLogin(env, g, c, loaded, token, allow))
  {
    if Stale(g, c) {
      ReleaseKeeps(env, g, c, loaded.account);
    } else if loaded.playerId !in g.play.online {
      EnterWorldKeeps(env, g, c, loaded.account, loaded, token);
    } else if !allow {
      FailLoginKeeps(env, g, c, loaded.account, "player is already online");
    } else {
      var displaced := g.play.online[loaded.playerId];
      CloseKeeps(env, g, displaced.connection);
      CloseUnfolds(env, g, displaced.connection);
      EnterWorldKeeps(env, CloseConnection(env, g, displaced.connection), c, loaded.account, displaced.record, token);
    }
  }

  lemma RequestKeeps(env: Environment, g: Game, c: ConnectionId, account: string, k: Continuation)
    requires Consistent(env, g)
    ensures var (login, ok) := Submit(env, g.login, k);
      Consistent(env, g.(login := login)) &&
      Consistent(env, FailLogin(env, g.(login := login), c, account, "database queue is full"))
  {
    SubmitKeeps(env, g, k);
    FailLoginKeeps(env, g.(login := Submit(env, g.login, k).0), c, account, "database queue is full");
  }

  lemma StoreSessionKeeps(env: Environment, g: Game, c: ConnectionId, player: PlayerRecord, allow: bool, choice: Choice)
    requires Consistent(env, g)
    ensures Consistent(env, StoreSessionAndFinish(env, g, c, player, allow, choice))
  {
    ReleaseKeeps(env, g, c, player.account);
    FailLoginKeeps(env, g, c, player.account, "player is already online");
    RequestKeeps(env, g, c, player.account, AfterStoreSession(c, player.account, player, choice.token, allow));
  }

  lemma ContinueLoginKeeps(env: Environment, g: Game, c: ConnectionId, loaded: PlayerRecord, token: string, newly: bool, choice: Choice)
    requires Consistent(env, g)
    ensures Consistent(env, ContinueLogin(env, g, c, loaded, token, newly, choice))
  {
    var player := loaded.(lastLogin := choice.now);
    ReleaseKeeps(env, g, c, loaded.account);
    StoreSessionKeeps(env, g, c, player, false, choice);
    RequestKeeps(env, g, c, player.account, AfterLoadSession(c, player.account, player, token, newly));
  }

  lemma PlayerLoadedKeeps(env: Environment, g: Game, c: ConnectionId, account: string, token: string,
                          result: DataResult<PlayerRecord>, choice: Choice)
    requires Consistent(env, g)
    ensures Consistent(env, OnPlayerLoaded(env, g, c, account, token, result, choice))
  {
    if Stale(g, c) {
      ReleaseKeeps(env, g, c, account);
    } else if result.Good() {
      ContinueLoginKeeps(env, g, c, result.value.value, token, false, choice);
    } else if result.status != NotFound {
      FailLoginKeeps(env, g, c, account, "failed to load player");
    } else if token != "" {
      FailLoginKeeps(env, g, c, account, "session does not exist");
    } else {
      RequestKeeps(env, g, c, account, AfterCreate(c, account, NewPlayer(env, account, choice)));
    }
  }

  lemma DeliverKeeps(env: Environment, g: Game, ticket: Ticket, reply: Reply, choice: Choice)
    requires Consistent(env, g) && ticket in g.login.inflight && Honest(g.login.inflight[ticket], reply)
    ensures Consistent(env, Deliver(env, g, ticket, reply, choice))
  {
    var g0 := g.(login := g.login.(inflight := g.login.inflight - {ticket}));
    LoginChangeKeeps(env, g, g0.login);
    match g.login.inflight[ticket]
    case AfterLoad(c, account, token) => PlayerLoadedKeeps(env, g0, c, account, token, reply.player, choice);
    case AfterCreate(c, account, player) =>
      FailLoginKeeps(env, g0, c, account, "failed to create player");
      ContinueLoginKeeps(env, g0, c, player, "", true, choice);
    case AfterLoadSession(c, account, player, token, newly) =>
      FailLoginKeeps(env, g0, c, account, "invalid or expired session");
      StoreSessionKeeps(env, g0, c, player, true, choice);
    case AfterStoreSession(c, account, player, token, allow) =>
      FailLoginKeeps(env, g0, c, account, "failed to store session");
      FinishLoginKeeps(env, g0, c, player, token, allow);
    case AfterDisconnectSave(_) =>
  }

  // ---------------------------------------------------------------- frames

  /** Locking an account for a live connection that is not bound. */
  function Lock(login: Login, c: ConnectionId, account: string): Login {
    login.(pendingConnections := login.pendingConnections[c := account], pendingAccounts := login.pendingAccounts + {account})
  }

  lemma LockKeeps(env: Environment, g: Game, c: ConnectionId, account: string)
    requires Consistent(env, g) && c in g.net.descriptors && c !in g.play.bound
    ensures Consistent(env, g.(login := Lock(g.login, c, account)))
  {}

  lemma HandleLoginKeeps(env: Environment, g: Game, c: ConnectionId, request: Option<LoginRequest>)
    requires Consistent(env, g) && IsConnected(g.net, c)
    ensures Consistent(env, HandleLogin(env, g, c, request))
  {
    if request.None? || request.value.account == "" || |request.value.account| > 64 ||
       c in g.play.bound || c in g.login.pendingConnections {
      FailLoginKeeps(env, g, c, "", "invalid or duplicate login request");
    } else if request.value.account in g.login.pendingAccounts {
      FailLoginKeeps(env, g, c, "", "account login is already pending");
    } else {
      var account := request.value.account;
      LockKeeps(env, g, c, account);
      RequestKeeps(env, g.(login := Lock(g.login, c, account)), c, account, AfterLoad(c, account, request.value.token));
    }
  }

  lemma HandleChatKeeps(env: Environment, g: Game, c: ConnectionId, text: Option<string>, order: seq<PlayerId>)
    requires Consistent(env, g)
    ensures Consistent(env, HandleChat(env, g, c, text, order))
  {
    if c in g.play.bound && text.Some? {
      var sender := g.play.online[g.play.bound[c]].record;
      var m := ChatBroadcast(sender.playerId, sender.nickname, text.value);
      BroadcastIdle(g.play.online, order, m);
      IdleKeeps(env, g, Broadcast(g.play.online, order, m));
    }
  }

  lemma RelocationKeeps(env: Environment, g: Game, p: PlayerId, at: Position)
    requires Consistent(env, g) && p in g.play.online && InMap(env.aoi, at)
    ensures Consistent(env, g.(net := SendEach(env, g.net, MoveNews(env.aoi, g.play, p, at)), play := Relocated(g.play, p, at)))
  {
    var play, out := Relocated(g.play, p, at), MoveNews(env.aoi, g.play, p, at);
    SendEachKeeps(env, g.net, out);
    RelocatedOk(env.aoi, g.play, p, at);
    forall q | q in play.online && play.online[q].connection !in g.net.marked
      ensures LearnAll(ClientView(Sent(g.net, play.online[q].connection)), Inbox(out, play.online[q].connection))
        == TrueView(env.aoi, play, q)
    {
      if q == p {
        MoverLearns(env.aoi, g.play, p, at);
      } else {
        MoveIsLearnt(env.aoi, g.play, p, at, q);
      }
    }
    Publish(env, g.play, g.net, play, out);
    MoveHasNone(Welcome, env.aoi, g.play, p, at);
    GreetedAfter(env, g, out);
  }

  lemma HandleMoveKeeps(env: Environment, g: Game, c: ConnectionId, target: Option<Position>)
    requires Consistent(env, g)
    ensures Consistent(env, HandleMove(env, g, c, target))
  {
    if c in g.play.bound && target.Some? && InMap(env.aoi, target.value) {
      RelocationKeeps(env, g, g.play.bound[c], target.value);
    }
  }

  lemma HandleFrameKeeps(env: Environment, g: Game, c: ConnectionId, request: Request, order: seq<PlayerId>)
    requires Consistent(env, g) && IsConnected(g.net, c)
    ensures Consistent(env, HandleFrame(env, g, c, request, order))
  {
    match request
    case LoginFrame(login) => HandleLoginKeeps(env, g, c, login);
    case ChatFrame(text) => HandleChatKeeps(env, g, c, text, order);
    case MoveFrame(target) => HandleMoveKeeps(env, g, c, target);
    case HeartbeatFrame(parsed) =>
      SendAsBatch(env, g.net, c, Heartbeat);
      IdleKeeps(env, g, [Outgoing(c, Heartbeat)]);
    case OtherFrame => CloseKeeps(env, g, c);
  }

  lemma InversesGrow(net: Net, d: Descriptor)
    requires Inverses(net.clients, net.descriptors) && d !in net.clients && net.lastId + 1 !in net.descriptors
    ensures Inverses(Opened(net, d).clients, Opened(net, d).descriptors)
  {}

  lemma OneMoreClient(net: Net, d: Descriptor)
    requires d !in net.clients
    ensures |Opened(net, d).clients| == |net.clients| + 1
  {
    assert Opened(net, d).clients.Keys == net.clients.Keys + {d};
    assert |Opened(net, d).clients| == |Opened(net, d).clients.Keys| && |net.clients| == |net.clients.Keys|;
  }

  lemma LogsGrow(env: Environment, sent: map<ConnectionId, seq<Message>>, handed: map<ConnectionId, nat>, lastId: nat)
    requires LogsOk(env, sent, handed, lastId)
    ensures LogsOk(env, sent[lastId + 1 := []], handed[lastId + 1 := 0], lastId + 1)
  {
    var sent', handed' := sent[lastId + 1 := []], handed[lastId + 1 := 0];
    forall c | c in sent'
      ensures CarriedFor(env, sent', handed', c)
    {
      assert c in sent ==> CarriedFor(env, sent, handed, c);
    }
  }

  lemma FlushKeepsLogs(env: Environment, net: Net, c: ConnectionId, script: seq<Tcp.SendResult>)
    requires NetOk(env, net) && c in net.descriptors
    ensures NetOk(env, Flush(env, net, c, script))
  {
    var after := Flush(env, net, c, script);
    forall d | d in after.sent
      ensures CarriedFor(env, after.sent, after.handed, d)
    {
      assert CarriedFor(env, net.sent, net.handed, d);
    }
  }

  lemma OpenedIsNew(env: Environment, net: Net)
    requires NetOk(env, net)
    ensures net.lastId + 1 !in net.sent && net.lastId + 1 !in net.descriptors && net.lastId + 1 !in net.marked
  {
    assert net.lastId + 1 !in net.sent;
  }

  lemma OpenedOk(env: Environment, net: Net, d: Descriptor)
    requires NetOk(env, net) && d !in net.clients && |net.clients| < env.maximumConnections
    ensures NetOk(env, Opened(net, d))
  {
    OpenedIsNew(env, net);
    InversesGrow(net, d);
    LogsGrow(env, net.sent, net.handed, net.lastId);
    OneMoreClient(net, d);
  }

  lemma OpenKeeps(env: Environment, g: Game, d: Descriptor)
    requires Consistent(env, g) && d !in g.net.clients && |g.net.clients| < env.maximumConnections
    ensures Consistent(env, g.(net := Opened(g.net, d)))
  {
    OpenedIsNew(env, g.net);
    OpenedOk(env, g.net, d);
    var net := Opened(g.net, d);
    forall p | p in g.play.online && g.play.online[p].connection !in net.marked
      ensures Sent(net, g.play.online[p].connection) == Sent(g.net, g.play.online[p].connection)
    {}
  }

  lemma AcceptKeeps(env: Environment, g: Game, d: Descriptor, registered: bool)
    requires Consistent(env, g) && d !in g.net.clients
    ensures Consistent(env, Accept(env, g, d, registered))
  {
    if |g.net.clients| < env.maximumConnections {
      OpenKeeps(env, g, d);
      CloseKeeps(env, g.(net := Opened(g.net, d)), g.net.lastId + 1);
      RejectedRegistration(env, g, d);
    }
  }

  lemma StepKeeps(env: Environment, g: Game, e: Event)
    requires Consistent(env, g)
    ensures Consistent(env, Step(env, g, e))
  {
    if Enabled(g, e) {
      match e
      case Accepted(d, registered) => AcceptKeeps(env, g, d, registered);
      case Handled(c, request, order) => HandleFrameKeeps(env, g, c, request, order);
      case Delivered(ticket, reply, choice) => DeliverKeeps(env, g, ticket, reply, choice);
      case Flushed(c, script) => FlushKeepsLogs(env, g.net, c, script);
      case Marked(c) =>
      case Closed(c) => CloseKeeps(env, g, c);
    }
  }

  lemma EmptyConsistent(env: Environment)
    ensures Consistent(env, EMPTY)
  {}
}
