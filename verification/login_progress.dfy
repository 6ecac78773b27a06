/** What every link of a login does: it hands on to the next link exactly when its reply allows it and the
    database queue has room, and otherwise refuses.  So a login whose links are all answered well ends
    with the player in the world. */
module LoginProgress {
  import opened Wrappers
  import opened AoiGrid
  import opened GameModel
  import opened Replication
  import opened ViewChanges
  import opened ServerInvariants
  import opened ServerSteps
  import opened LoginLocks
  import opened ServerRuns
  import opened DatabaseRequests
  import opened LockChanges
  import opened RequestsServed

  // ---------------------------------------------------------------- what each reply leads to

  /** What the reply to a request leads to, for a login that has not been given up. */
  datatype Reaction =
    | GoesOn(next: Continuation)
    | Refuses(error: string)
    | LetsIn(record: PlayerRecord)

  /** A record that is there leads on: with a token presented, to the session; without one, to a new
      session, unless the player is online.  A missing record leads to a new player, unless a token was
      presented; any other answer to a refusal. */
  function AfterLoadReaction(env: Environment, g: Game, c: ConnectionId, account: string, token: string,
                             result: DataResult<PlayerRecord>, choice: Choice): Reaction {
    if result.Good() then
      var player := result.value.value.(lastLogin := choice.now);
      if token != "" then GoesOn(AfterLoadSession(c, account, player, token, false))
      else if player.playerId in g.play.online then Refuses("player is already online")
      else GoesOn(AfterStoreSession(c, account, player, choice.token, false))
    else if result.status == NotFound && token == "" then GoesOn(AfterCreate(c, account, NewPlayer(env, account, choice)))
    else Refuses(if result.status == NotFound then "session does not exist" else "failed to load player")
  }

  /** A confirmed session leads to a new one, with the right to take over, whether or not the player is
      online; a stored session lets the player in, in place of whoever plays it if that right was given. */
  function ReactionTo(env: Environment, g: Game, k: Continuation, reply: Reply, choice: Choice): Reaction
    requires Honest(k, reply) && !k.AfterDisconnectSave?
  {
    match k
    case AfterLoad(c, account, token) => AfterLoadReaction(env, g, c, account, token, reply.player, choice)
    case AfterCreate(c, account, player) =>
      if reply.status != Ok then Refuses("failed to create player")
      else if player.playerId in g.play.online then Refuses("player is already online")
      else GoesOn(AfterStoreSession(c, account, player.(lastLogin := choice.now), choice.token, false))
    case AfterLoadSession(c, account, player, token, newly) =>
      if !newly && reply.session.Good() && reply.session.value.value.token == token
      then GoesOn(AfterStoreSession(c, account, player, choice.token, true))
      else Refuses("invalid or expired session")
    case AfterStoreSession(c, account, player, token, allow) =>
      if reply.status != Ok then Refuses("failed to store session")
      else if player.playerId in g.play.online then
        if allow then LetsIn(g.play.online[player.playerId].record) else Refuses("player is already online")
      else if InMap(env.aoi, Position(player.x, player.y)) then LetsIn(player)
      else Refuses("player position is outside the world")
  }

  // ---------------------------------------------------------------- how it shows

  /** The next link is in flight, and nothing else has changed: the connection still waits, and nobody has
      been sent anything. */
  predicate HandedOn(g: Game, after: Game, ticket: Ticket, next: Continuation) {
    && after.net == g.net && after.play == g.play
    && after.login == g.login.(inflight := (g.login.inflight - {ticket})[g.login.requests := next], requests := g.login.requests + 1)
  }

  /** The login is over: connection and account are free again, and the client has been told why. */
  predicate Refused(g: Game, after: Game, ticket: Ticket, c: ConnectionId, account: string, error: string) {
    && after.play == g.play && after.login.inflight == g.login.inflight - {ticket} && GivenBack(g.login, after.login, c, account)
    && (c !in after.net.marked ==> Sent(after.net, c) == Sent(g.net, c) + [LoginRefused(error)])
  }

  /** The player is in the world, on this connection, where its record says; the login is over, and the
      client has been told who it is, whom it sees and its new token. */
  predicate LetIn(env: Environment, g: Game, after: Game, c: ConnectionId, account: string, record: PlayerRecord, token: string) {
    var p := record.playerId;
    && c in after.play.bound && after.play.bound[c] == p
    && p in after.play.online && after.play.online[p] == OnlinePlayer(record, c, token)
    && p in after.play.world && after.play.world[p] == Position(record.x, record.y)
    && after.login.pendingConnections == g.login.pendingConnections - {c}
    && after.login.pendingAccounts == g.login.pendingAccounts - {account}
    && (c !in after.net.marked ==> Welcomed(env, after, c, Sent(g.net, c), Sent(after.net, c), record, token))
  }

  predicate Welcomed(env: Environment, after: Game, c: ConnectionId, before: seq<Message>, now: seq<Message>, record: PlayerRecord, token: string) {
    && |now| == |before| + 1 && before <= now
    && var welcome := now[|before|];
       && welcome.LoginAccepted? && welcome.self == PlayerView(record.playerId, record.nickname, Position(record.x, record.y))
       && welcome.token == token
       && FromViews(welcome.nearby) == TrueView(env.aoi, after.play, record.playerId)
  }

  // ---------------------------------------------------------------- handing on and refusing

  /** `c` waits for its login and can be reached. */
  predicate IsWaiting(g: Game, c: ConnectionId) {
    c in g.net.descriptors && c !in g.net.marked && c in g.login.pendingConnections
  }

  /** A request for the next link: in flight, or refused for want of room. */
  predicate Asked(env: Environment, g: Game, after: Game, c: ConnectionId, account: string, next: Continuation) {
    if env.accepts(g.login.requests)
    then after == g.(login := g.login.(inflight := g.login.inflight[g.login.requests := next], requests := g.login.requests + 1))
    else Turned(g, after, c, account, "database queue is full")
  }

  /** As `Refused`, from a state in which the callback has been taken out of flight. */
  predicate Turned(g: Game, after: Game, c: ConnectionId, account: string, error: string) {
    && after.play == g.play && after.login.inflight == g.login.inflight && GivenBack(g.login, after.login, c, account)
    && (c !in after.net.marked ==> Sent(after.net, c) == Sent(g.net, c) + [LoginRefused(error)])
  }

  lemma FailTurns(env: Environment, g: Game, c: ConnectionId, account: string, error: string)
    requires NetOk(env, g.net) && IsWaiting(g, c) && account != ""
    ensures Turned(g, FailLogin(env, g, c, account, error), c, account, error)
  {}

  lemma RequestAsks(env: Environment, g: Game, c: ConnectionId, account: string, k: Continuation)
    requires NetOk(env, g.net) && IsWaiting(g, c) && account != ""
    ensures var (login, ok) := Submit(env, g.login, k);
      Asked(env, g, if ok then g.(login := login) else FailLogin(env, g.(login := login), c, account, "database queue is full"), c, account, k)
  {
    FailTurns(env, g.(login := Submit(env, g.login, k).0), c, account, "database queue is full");
  }

  lemma StoreReacts(env: Environment, g: Game, c: ConnectionId, player: PlayerRecord, allow: bool, choice: Choice)
    requires NetOk(env, g.net) && IsWaiting(g, c) && player.account != ""
    ensures var after := StoreSessionAndFinish(env, g, c, player, allow, choice);
      if player.playerId in g.play.online && !allow then Turned(g, after, c, player.account, "player is already online")
      else Asked(env, g, after, c, player.account, AfterStoreSession(c, player.account, player, choice.token, allow))
  {
    FailTurns(env, g, c, player.account, "player is already online");
    RequestAsks(env, g, c, player.account, AfterStoreSession(c, player.account, player, choice.token, allow));
  }

  lemma ContinueReacts(env: Environment, g: Game, c: ConnectionId, loaded: PlayerRecord, token: string, newly: bool, choice: Choice)
    requires NetOk(env, g.net) && IsWaiting(g, c) && loaded.account != ""
    ensures var after, player := ContinueLogin(env, g, c, loaded, token, newly, choice), loaded.(lastLogin := choice.now);
      if token != "" then Asked(env, g, after, c, loaded.account, AfterLoadSession(c, loaded.account, player, token, newly))
      else if loaded.playerId in g.play.online then Turned(g, after, c, loaded.account, "player is already online")
      else Asked(env, g, after, c, loaded.account, AfterStoreSession(c, loaded.account, player, choice.token, false))
  {
    var player := loaded.(lastLogin := choice.now);
    if token != "" {
      RequestAsks(env, g, c, player.account, AfterLoadSession(c, player.account, player, token, newly));
    } else {
      StoreReacts(env, g, c, player, false, choice);
    }
  }

  /** The reaction shows, from a state in which the callback has been taken out of flight. */
  predicate Shows(env: Environment, g: Game, after: Game, c: ConnectionId, account: string, reaction: Reaction, token: string) {
    match reaction
    case GoesOn(next) => Asked(env, g, after, c, account, next)
    case Refuses(error) => Turned(g, after, c, account, error)
    case LetsIn(record) => LetIn(env, g, after, c, account, record, token)
  }

  lemma LoadedReacts(env: Environment, g: Game, c: ConnectionId, account: string, token: string,
                     result: DataResult<PlayerRecord>, choice: Choice)
    requires NetOk(env, g.net) && IsWaiting(g, c) && account != ""
    requires result.Good() ==> result.value.value.account == account
    ensures Shows(env, g, OnPlayerLoaded(env, g, c, account, token, result, choice), c, account,
                  AfterLoadReaction(env, g, c, account, token, result, choice), "")
  {
    if result.Good() {
      ContinueReacts(env, g, c, result.value.value, token, false, choice);
    } else if result.status != NotFound {
      FailTurns(env, g, c, account, "failed to load player");
    } else if token != "" {
      FailTurns(env, g, c, account, "session does not exist");
    } else {
      RequestAsks(env, g, c, account, AfterCreate(c, account, NewPlayer(env, account, choice)));
    }
  }

  lemma CreatedReacts(env: Environment, g: Game, k: Continuation, reply: Reply, choice: Choice)
    requires NetOk(env, g.net) && k.AfterCreate? && Honest(k, reply) && Proper(k) && IsWaiting(g, k.connection)
    ensures Shows(env, g, Resume(env, g, k, reply, choice), k.connection, k.account, ReactionTo(env, g, k, reply, choice), "")
  {
    if reply.status != Ok {
      FailTurns(env, g, k.connection, k.account, "failed to create player");
    } else {
      ContinueReacts(env, g, k.connection, k.player, "", true, choice);
    }
  }

  lemma SessionReacts(env: Environment, g: Game, k: Continuation, reply: Reply, choice: Choice)
    requires NetOk(env, g.net) && k.AfterLoadSession? && Honest(k, reply) && Proper(k) && IsWaiting(g, k.connection)
    ensures Shows(env, g, Resume(env, g, k, reply, choice), k.connection, k.account, ReactionTo(env, g, k, reply, choice), "")
  {
    FailTurns(env, g, k.connection, k.account, "invalid or expired session");
    StoreReacts(env, g, k.connection, k.player, true, choice);
  }

  // ---------------------------------------------------------------- letting in

  lemma WelcomeIsSent(env: Environment, g: Game, c: ConnectionId, record: PlayerRecord, token: string)
    requires NetOk(env, g.net) && MayArrive(env.aoi, g.play, c, record) && c in g.net.descriptors
    requires c !in SendEach(env, g.net, ArrivalNews(env.aoi, Arrived(g.play, c, record, token), c, record, token)).marked
    ensures var play := Arrived(g.play, c, record, token);
      var net := SendEach(env, g.net, ArrivalNews(env.aoi, play, c, record, token));
      var welcome := LoginAccepted(ViewOf(record), Views(play.online, Ascending(Visible(env.aoi, play.world, record.playerId))), token);
      Sent(net, c) == Sent(g.net, c) + [welcome] && FromViews(welcome.nearby) == TrueView(env.aoi, play, record.playerId)
  {
    var play, p := Arrived(g.play, c, record, token), record.playerId;
    var visible := Ascending(Visible(env.aoi, play.world, p));
    var welcome := Outgoing(c, LoginAccepted(ViewOf(record), Views(play.online, visible), token));
    var rest := Broadcast(play.online, visible, PlayerEnter(ViewOf(record)));
    ArrivedOk(env.aoi, g.play, c, record, token);
    BoundMeansDistinct(env.aoi, play);
    SendEachDelivers(env, g.net, ArrivalNews(env.aoi, play, c, record, token), c);
    InboxConcat([welcome], rest, c);
    InboxOne(welcome, c);
    InboxOfBroadcast(play.online, visible, PlayerEnter(ViewOf(record)), p);
    ViewsAreFaces(play.online, visible);
    TrueViewIsFaces(env.aoi, play, p);
  }

  lemma ArrivesAs(env: Environment, g: Game, c: ConnectionId, account: string, player: PlayerRecord, token: string)
    requires MayArrive(env.aoi, g.play, c, player)
    ensures var play := Arrived(g.play, c, player, token);
      EnterWorld(env, g, c, account, player, token) ==
        Game(SendEach(env, g.net, ArrivalNews(env.aoi, play, c, player, token)), play, Release(g.login, c, account))
  {}

  lemma ArrivalLetsIn(env: Environment, g: Game, c: ConnectionId, account: string, player: PlayerRecord, token: string)
    requires NetOk(env, g.net) && MayArrive(env.aoi, g.play, c, player) && c in g.net.descriptors
    ensures LetIn(env, g, EnterWorld(env, g, c, account, player, token), c, account, player, token)
  {
    ArrivesAs(env, g, c, account, player, token);
    var out := ArrivalNews(env.aoi, Arrived(g.play, c, player, token), c, player, token);
    if c !in SendEach(env, g.net, out).marked {
      WelcomeIsSent(env, g, c, player, token);
    }
  }

  lemma TakeOverLetsIn(env: Environment, g: Game, c: ConnectionId, account: string, p: PlayerId, token: string)
    requires Consistent(env, g) && IsWaiting(g, c) && p in g.play.online
    ensures var prior := g.play.online[p];
      LetIn(env, g, EnterWorld(env, CloseConnection(env, g, prior.connection), c, account, prior.record, token), c, account, prior.record, token)
  {
    var prior := g.play.online[p];
    var closed := CloseConnection(env, g, prior.connection);
    CloseKeeps(env, g, prior.connection);
    CloseUnfolds(env, g, prior.connection);
    CloseShrinks(env, g, prior.connection);
    ArrivalLetsIn(env, closed, c, account, prior.record, token);
    BystanderHearsNothing(env, g, prior.connection, c);
  }

  /** Closing a connection sends nothing to one that plays nobody. */
  lemma BystanderHearsNothing(env: Environment, g: Game, d: ConnectionId, c: ConnectionId)
    requires Consistent(env, g) && c in g.net.descriptors && c !in g.play.bound && d in g.play.bound
    ensures Sent(CloseConnection(env, g, d).net, c) == Sent(g.net, c)
  {
    var p := g.play.bound[d];
    CloseUnfolds(env, g, d);
    StrangersHearNothing(env, g.net, g.play.online - {p}, Ascending(Visible(env.aoi, g.play.world, p)), PlayerLeave(p), c);
  }

  lemma OneMoreForOthers(env: Environment, net: Net, out: seq<Outgoing>, o: Outgoing, c: ConnectionId)
    requires o.to != c
    ensures Sent(SendEach(env, net, out + [o]), c) == Sent(SendEach(env, net, out), c)
  {
    assert (out + [o])[..|out|] == out;
  }

  lemma {:induction false} StrangersHearNothing(env: Environment, net: Net, online: map<PlayerId, OnlinePlayer>, ids: seq<PlayerId>, m: Message, c: ConnectionId)
    requires forall q | q in online :: online[q].connection != c
    ensures Sent(SendEach(env, net, Broadcast(online, ids, m)), c) == Sent(net, c)
    decreases |ids|
  {
    if ids != [] {
      var front, last := ids[..|ids| - 1], ids[|ids| - 1];
      StrangersHearNothing(env, net, online, front, m, c);
      if last in online {
        OneMoreForOthers(env, net, Broadcast(online, front, m), Outgoing(online[last].connection, m), c);
      } else {
        assert Broadcast(online, front, m) + [] == Broadcast(online, front, m);
      }
    }
  }

  lemma FinishReacts(env: Environment, g: Game, k: Continuation, reply: Reply, choice: Choice)
    requires Consistent(env, g) && k.AfterStoreSession? && Honest(k, reply) && Proper(k) && IsWaiting(g, k.connection)
    ensures Shows(env, g, Resume(env, g, k, reply, choice), k.connection, k.account, ReactionTo(env, g, k, reply, choice), k.token)
  {
    var c, account, player := k.connection, k.account, k.player;
    FailTurns(env, g, c, account, "failed to store session");
    FailTurns(env, g, c, account, "player is already online");
    FailTurns(env, g, c, account, "player position is outside the world");
    if reply.status == Ok {
      if player.playerId in g.play.online {
        TakeOverLetsIn(env, g, c, account, player.playerId, k.token);
      } else if InMap(env.aoi, Position(player.x, player.y)) {
        ArrivalLetsIn(env, g, c, account, player, k.token);
      }
    }
  }

  lemma ResumeReacts(env: Environment, g: Game, k: Continuation, reply: Reply, choice: Choice)
    requires Consistent(env, g) && !k.AfterDisconnectSave? && Honest(k, reply) && Proper(k) && IsWaiting(g, k.connection)
    ensures Shows(env, g, Resume(env, g, k, reply, choice), k.connection, k.account, ReactionTo(env, g, k, reply, choice),
                  if k.AfterStoreSession? then k.token else "")
  {
    match k
    case AfterLoad(c, account, token) => LoadedReacts(env, g, c, account, token, reply.player, choice);
    case AfterCreate(_, _, _) => CreatedReacts(env, g, k, reply, choice);
    case AfterLoadSession(_, _, _, _, _) => SessionReacts(env, g, k, reply, choice);
    case AfterStoreSession(_, _, _, _, _) => FinishReacts(env, g, k, reply, choice);
  }

  /** In every run, the callback of a login that has not been given up does exactly what its reply says: it
      hands on to the next link if the queue has room, refuses, or lets the player in. */
  lemma LinkReacts(env: Environment, g: Game, ticket: Ticket, reply: Reply, choice: Choice)
    requires Reachable(env, g) && ticket in g.login.inflight && Honest(g.login.inflight[ticket], reply)
    requires !g.login.inflight[ticket].AfterDisconnectSave? && IsWaiting(g, g.login.inflight[ticket].connection)
    ensures var k, after := g.login.inflight[ticket], Step(env, g, Delivered(ticket, reply, choice));
      match ReactionTo(env, g, k, reply, choice)
      case GoesOn(next) =>
        if env.accepts(g.login.requests) then HandedOn(g, after, ticket, next)
        else Refused(g, after, ticket, k.connection, k.account, "database queue is full")
      case Refuses(error) => Refused(g, after, ticket, k.connection, k.account, error)
      case LetsIn(record) => LetIn(env, g, after, k.connection, k.account, record, if k.AfterStoreSession? then k.token else "")
  {
    ReachableInv(env, g);
    var k, g0 := g.login.inflight[ticket], g.(login := g.login.(inflight := g.login.inflight - {ticket}));
    assert Proper(k);
    LoginChangeKeeps(env, g, g0.login);
    ResumeReacts(env, g0, k, reply, choice);
    SameReaction(env, g, g0, k, reply, choice);
  }

  lemma SameReaction(env: Environment, g: Game, h: Game, k: Continuation, reply: Reply, choice: Choice)
    requires Honest(k, reply) && !k.AfterDisconnectSave? && h.play == g.play
    ensures ReactionTo(env, h, k, reply, choice) == ReactionTo(env, g, k, reply, choice)
  {}
  // ---------------------------------------------------------------- logins that were given up

  lemma FailWithoutConnection(env: Environment, g: Game, c: ConnectionId, account: string, error: string)
    requires account != ""
    ensures var after := FailLogin(env, g, c, account, error);
      && after.play == g.play && after.login.inflight == g.login.inflight && account !in after.login.pendingAccounts
      && (!IsConnected(g.net, c) ==> after.net == g.net)
  {}

  lemma GivenUpResumes(env: Environment, g: Game, k: Continuation, reply: Reply, choice: Choice)
    requires !k.AfterDisconnectSave? && Honest(k, reply) && Proper(k) && Stale(g, k.connection)
    ensures var after := Resume(env, g, k, reply, choice);
      && after.play == g.play && after.login.inflight == g.login.inflight && k.account !in after.login.pendingAccounts
      && (!IsConnected(g.net, k.connection) ==> after.net == g.net)
  {
    FailWithoutConnection(env, g, k.connection, k.account, "failed to create player");
    FailWithoutConnection(env, g, k.connection, k.account, "invalid or expired session");
    FailWithoutConnection(env, g, k.connection, k.account, "failed to store session");
  }

  /** In every run, the callback of a login that was given up, because its connection is closed, marked or
      no longer waits, frees the account, starts nothing and lets nobody in; and if the connection is closed
      or marked it sends nothing. */
  lemma GivenUpIsDropped(env: Environment, g: Game, ticket: Ticket, reply: Reply, choice: Choice)
    requires Reachable(env, g) && ticket in g.login.inflight && Honest(g.login.inflight[ticket], reply)
    requires !g.login.inflight[ticket].AfterDisconnectSave? && !IsWaiting(g, g.login.inflight[ticket].connection)
    ensures var k, after := g.login.inflight[ticket], Step(env, g, Delivered(ticket, reply, choice));
      && after.play == g.play && after.login.inflight == g.login.inflight - {ticket} && k.account !in after.login.pendingAccounts
      && (k.connection !in g.net.descriptors || k.connection in g.net.marked ==> after.net == g.net)
  {
    ReachableInv(env, g);
    assert Proper(g.login.inflight[ticket]);
    GivenUpResumes(env, g.(login := g.login.(inflight := g.login.inflight - {ticket})), g.login.inflight[ticket], reply, choice);
  }

  // ---------------------------------------------------------------- whole logins

  /** Something happens in the name of `c` that bears on its login: a login frame, a close, or a callback. */
  predicate Disturbs(g: Game, e: Event, c: ConnectionId) {
    Actor(g, e) == Some(c) && !(e.Handled? && !e.request.LoginFrame?)
  }

  /** A stretch of a run in which anything may happen to others, while `c` stays open and its login is left
      alone. */
  ghost predicate Undisturbed(env: Environment, g: Game, gap: seq<Event>, c: ConnectionId) {
    forall i | 0 <= i < |gap| :: IsHarmless(env, g, gap, i, c)
  }

  predicate IsHarmless(env: Environment, g: Game, gap: seq<Event>, i: nat, c: ConnectionId)
    requires i < |gap|
  {
    !Disturbs(Run(env, g, gap[..i]), gap[i], c) && c in Run(env, g, gap[..i + 1]).net.descriptors
  }

  /** Link `k` of the login of `c` is in flight, and `c` waits for it. */
  ghost predicate InProgress(env: Environment, g: Game, c: ConnectionId, t: Ticket, k: Continuation) {
    && Reachable(env, g) && c in g.login.pendingConnections
    && t in g.login.inflight && g.login.inflight[t] == k && !k.AfterDisconnectSave? && k.connection == c
  }

  lemma StepsReach(env: Environment, g: Game, e: Event)
    requires Reachable(env, g)
    ensures Reachable(env, Step(env, g, e))
  {
    var events :| g == Run(env, EMPTY, events);
    assert (events + [e])[..|events|] == events;
    assert Step(env, g, e) == Run(env, EMPTY, events + [e]);
  }

  lemma FrameLeavesLogin(env: Environment, g: Game, c: ConnectionId, request: Request, order: seq<PlayerId>)
    requires Consistent(env, g) && !request.LoginFrame? && c in HandleFrame(env, g, c, request, order).net.descriptors
    ensures HandleFrame(env, g, c, request, order).login == g.login
  {
    match request
    case ChatFrame(text) => ChatLocksNothing(env, g, c, text, order);
    case MoveFrame(target) => MoveLocksNothing(env, g, c, target);
    case HeartbeatFrame(parsed) =>
    case OtherFrame => CloseShrinks(env, g, c);
  }

  lemma StaysInProgress(env: Environment, g: Game, e: Event, c: ConnectionId, t: Ticket, k: Continuation)
    requires InProgress(env, g, c, t, k) && !Disturbs(g, e, c) && c in Step(env, g, e).net.descriptors
    ensures InProgress(env, Step(env, g, e), c, t, k)
  {
    ReachableInv(env, g);
    StepsReach(env, g, e);
    if Actor(g, e) == Some(c) {
      if Enabled(g, e) {
        FrameLeavesLogin(env, g, c, e.request, e.order);
      }
    } else {
      LocksChangeOnlyForTheActor(env, g, e);
      StepExtends(env, g, e, t);
    }
  }

  lemma {:induction false} WaitsThrough(env: Environment, g: Game, gap: seq<Event>, c: ConnectionId, t: Ticket, k: Continuation)
    requires InProgress(env, g, c, t, k) && Undisturbed(env, g, gap, c)
    ensures InProgress(env, Run(env, g, gap), c, t, k)
    decreases |gap|
  {
    if gap != [] {
      var n := |gap| - 1;
      UndisturbedFront(env, g, gap, c);
      WaitsThrough(env, g, gap[..n], c, t, k);
      assert gap[..n + 1] == gap && IsHarmless(env, g, gap, n, c);
      StaysInProgress(env, Run(env, g, gap[..n]), gap[n], c, t, k);
    }
  }

  lemma UndisturbedFront(env: Environment, g: Game, gap: seq<Event>, c: ConnectionId)
    requires gap != [] && Undisturbed(env, g, gap, c)
    ensures Undisturbed(env, g, gap[..|gap| - 1], c)
  {
    var front := gap[..|gap| - 1];
    forall i | 0 <= i < |front|
      ensures IsHarmless(env, g, front, i, c)
    {
      assert IsHarmless(env, g, gap, i, c) && front[..i] == gap[..i] && front[..i + 1] == gap[..i + 1];
    }
  }

  /** What happens until the database answers, and its answer. */
  datatype Stage = Stage(gap: seq<Event>, reply: Reply, choice: Choice)

  /** When the answer comes. */
  function Until(env: Environment, g: Game, s: Stage): Game {
    Run(env, g, s.gap)
  }

  function After(env: Environment, g: Game, s: Stage, t: Ticket): Game {
    Step(env, Until(env, g, s), Delivered(t, s.reply, s.choice))
  }

  /** The stage leaves the login alone, and its answer finds the client connected. */
  ghost predicate Calm(env: Environment, g: Game, s: Stage, c: ConnectionId) {
    Undisturbed(env, g, s.gap, c) && IsConnected(Until(env, g, s).net, c)
  }

  lemma Advances(env: Environment, g: Game, c: ConnectionId, t: Ticket, k: Continuation, s: Stage, next: Continuation)
    requires InProgress(env, g, c, t, k) && Calm(env, g, s, c) && Honest(k, s.reply)
    requires var h := Until(env, g, s);
      env.accepts(h.login.requests) && ReactionTo(env, h, k, s.reply, s.choice) == GoesOn(next)
    requires !next.AfterDisconnectSave? && next.connection == c
    ensures InProgress(env, After(env, g, s, t), c, Until(env, g, s).login.requests, next)
  {
    WaitsThrough(env, g, s.gap, c, t, k);
    LinkReacts(env, Until(env, g, s), t, s.reply, s.choice);
    StepsReach(env, Until(env, g, s), Delivered(t, s.reply, s.choice));
  }

  lemma Ends(env: Environment, g: Game, c: ConnectionId, t: Ticket, k: Continuation, s: Stage, record: PlayerRecord)
    requires InProgress(env, g, c, t, k) && Calm(env, g, s, c) && Honest(k, s.reply) && k.AfterStoreSession?
    requires ReactionTo(env, Until(env, g, s), k, s.reply, s.choice) == LetsIn(record)
    ensures LetIn(env, Until(env, g, s), After(env, g, s, t), c, k.account, record, k.token)
  {
    WaitsThrough(env, g, s.gap, c, t, k);
    LinkReacts(env, Until(env, g, s), t, s.reply, s.choice);
  }

  /** A login request that is taken up. */
  predicate TakenUp(env: Environment, g: Game, c: ConnectionId, request: LoginRequest) {
    IsConnected(g.net, c) && Objection(env, g, c, Some(request)).None?
  }

  lemma Begins(env: Environment, g: Game, c: ConnectionId, request: LoginRequest, order: seq<PlayerId>)
    requires Reachable(env, g) && TakenUp(env, g, c, request)
    ensures InProgress(env, Step(env, g, Handled(c, LoginFrame(Some(request)), order)), c, g.login.requests,
                       AfterLoad(c, request.account, request.token))
  {
    LoginIsTakenUp(env, g, c, Some(request), order);
    StepsReach(env, g, Handled(c, LoginFrame(Some(request)), order));
  }

  const STORED := OperationReply(Ok)

  /** The last link: the session is stored, and the player, unless it is online already and may not be
      displaced, is on the map. */
  ghost predicate FinallyLetIn(env: Environment, g: Game, c: ConnectionId, t: Ticket, loaded: PlayerRecord, token: string, s: Stage) {
    var h, p := Until(env, g, s), loaded.playerId;
    LetIn(env, h, After(env, g, s, t), c, loaded.account, if p in h.play.online then h.play.online[p].record else loaded, token)
  }

  lemma LastLink(env: Environment, g: Game, c: ConnectionId, t: Ticket, loaded: PlayerRecord, token: string, allow: bool, s: Stage)
    requires InProgress(env, g, c, t, AfterStoreSession(c, loaded.account, loaded, token, allow))
    requires Calm(env, g, s, c) && s.reply == STORED
    requires loaded.playerId in Until(env, g, s).play.online ==> allow
    requires loaded.playerId !in Until(env, g, s).play.online ==> InMap(env.aoi, Position(loaded.x, loaded.y))
    ensures FinallyLetIn(env, g, c, t, loaded, token, s)
  {
    var h, p := Until(env, g, s), loaded.playerId;
    Ends(env, g, c, t, AfterStoreSession(c, loaded.account, loaded, token, allow), s,
         if p in h.play.online then h.play.online[p].record else loaded);
  }

  /** Reconnecting.  A login with a token whose three requests find room, whose record is there, whose token
      the session store confirms and whose new session is stored, ends with the player in the world on
      this connection, whatever happens to others meanwhile: with the record loaded if the player was
      offline, with its live record, in place of the connection it had, if it was online. */
  lemma ReconnectSucceeds(env: Environment, g: Game, c: ConnectionId, request: LoginRequest, order: seq<PlayerId>,
                          record: PlayerRecord, session: SessionRecord, load: Stage, confirm: Stage, store: Stage)
    requires Reachable(env, g) && TakenUp(env, g, c, request) && request.token != ""
    requires record.account == request.account && session.token == request.token
    requires load.reply == PlayerReply(DataResult(Ok, Some(record)))
    requires confirm.reply == SessionReply(DataResult(Ok, Some(session)))
    requires store.reply == STORED
    requires InMap(env.aoi, Position(record.x, record.y))
    requires var g1 := Step(env, g, Handled(c, LoginFrame(Some(request)), order));
      var g2 := After(env, g1, load, g.login.requests);
      var g3 := After(env, g2, confirm, Until(env, g1, load).login.requests);
      && Calm(env, g1, load, c) && env.accepts(Until(env, g1, load).login.requests)
      && Calm(env, g2, confirm, c) && env.accepts(Until(env, g2, confirm).login.requests)
      && Calm(env, g3, store, c)
    ensures var g1 := Step(env, g, Handled(c, LoginFrame(Some(request)), order));
      var g2 := After(env, g1, load, g.login.requests);
      var g3 := After(env, g2, confirm, Until(env, g1, load).login.requests);
      FinallyLetIn(env, g3, c, Until(env, g2, confirm).login.requests, record.(lastLogin := load.choice.now), confirm.choice.token, store)
  {
    var g1 := Step(env, g, Handled(c, LoginFrame(Some(request)), order));
    var g2 := After(env, g1, load, g.login.requests);
    var g3 := After(env, g2, confirm, Until(env, g1, load).login.requests);
    var player := record.(lastLogin := load.choice.now);
    Begins(env, g, c, request, order);
    Advances(env, g1, c, g.login.requests, AfterLoad(c, request.account, request.token), load,
             AfterLoadSession(c, request.account, player, request.token, false));
    Advances(env, g2, c, Until(env, g1, load).login.requests, AfterLoadSession(c, request.account, player, request.token, false), confirm,
             AfterStoreSession(c, request.account, player, confirm.choice.token, true));
    LastLink(env, g3, c, Until(env, g2, confirm).login.requests, player, confirm.choice.token, true, store);
  }

  /** Logging in without a token, as a player who is not online. */
  lemma LoginSucceeds(env: Environment, g: Game, c: ConnectionId, account: string, order: seq<PlayerId>,
                      record: PlayerRecord, load: Stage, store: Stage)
    requires Reachable(env, g) && TakenUp(env, g, c, LoginRequest(account, ""))
    requires record.account == account && InMap(env.aoi, Position(record.x, record.y))
    requires load.reply == PlayerReply(DataResult(Ok, Some(record))) && store.reply == STORED
    requires var g1 := Step(env, g, Handled(c, LoginFrame(Some(LoginRequest(account, ""))), order));
      var h1, g2 := Until(env, g1, load), After(env, g1, load, g.login.requests);
      && Calm(env, g1, load, c) && env.accepts(h1.login.requests) && record.playerId !in h1.play.online
      && Calm(env, g2, store, c) && record.playerId !in Until(env, g2, store).play.online
    ensures var g1 := Step(env, g, Handled(c, LoginFrame(Some(LoginRequest(account, ""))), order));
      var h1, g2 := Until(env, g1, load), After(env, g1, load, g.login.requests);
      FinallyLetIn(env, g2, c, h1.login.requests, record.(lastLogin := load.choice.now), load.choice.token, store)
  {
    var g1 := Step(env, g, Handled(c, LoginFrame(Some(LoginRequest(account, ""))), order));
    var h1, g2 := Until(env, g1, load), After(env, g1, load, g.login.requests);
    var player := record.(lastLogin := load.choice.now);
    Begins(env, g, c, LoginRequest(account, ""), order);
    Advances(env, g1, c, g.login.requests, AfterLoad(c, account, ""), load, AfterStoreSession(c, account, player, load.choice.token, false));
    LastLink(env, g2, c, h1.login.requests, player, load.choice.token, false, store);
  }

  /** Logging in for the first time: a new player is made, saved and let in, in the middle of the map. */
  lemma FirstLoginSucceeds(env: Environment, g: Game, c: ConnectionId, account: string, order: seq<PlayerId>,
                           load: Stage, create: Stage, store: Stage)
    requires Reachable(env, g) && TakenUp(env, g, c, LoginRequest(account, ""))
    requires load.reply == PlayerReply(DataResult(NotFound, None)) && create.reply == STORED && store.reply == STORED
    requires var g1 := Step(env, g, Handled(c, LoginFrame(Some(LoginRequest(account, ""))), order));
      var h1, g2 := Until(env, g1, load), After(env, g1, load, g.login.requests);
      var h2, g3 := Until(env, g2, create), After(env, g2, create, h1.login.requests);
      && Calm(env, g1, load, c) && env.accepts(h1.login.requests)
      && Calm(env, g2, create, c) && env.accepts(h2.login.requests) && load.choice.playerId !in h2.play.online
      && Calm(env, g3, store, c) && load.choice.playerId !in Until(env, g3, store).play.online
    ensures var g1 := Step(env, g, Handled(c, LoginFrame(Some(LoginRequest(account, ""))), order));
      var h1, g2 := Until(env, g1, load), After(env, g1, load, g.login.requests);
      var h2, g3 := Until(env, g2, create), After(env, g2, create, h1.login.requests);
      FinallyLetIn(env, g3, c, h2.login.requests, NewPlayer(env, account, load.choice).(lastLogin := create.choice.now),
                   create.choice.token, store)
  {
    var g1 := Step(env, g, Handled(c, LoginFrame(Some(LoginRequest(account, ""))), order));
    var h1, g2 := Until(env, g1, load), After(env, g1, load, g.login.requests);
    var h2, g3 := Until(env, g2, create), After(env, g2, create, h1.login.requests);
    var player := NewPlayer(env, account, load.choice);
    NewPlayerStandsInTheMiddle(env, account, load.choice);
    Begins(env, g, c, LoginRequest(account, ""), order);
    Advances(env, g1, c, g.login.requests, AfterLoad(c, account, ""), load, AfterCreate(c, account, player));
    Advances(env, g2, c, h1.login.requests, AfterCreate(c, account, player), create,
             AfterStoreSession(c, account, player.(lastLogin := create.choice.now), create.choice.token, false));
    LastLink(env, g3, c, h2.login.requests, player.(lastLogin := create.choice.now), create.choice.token, false, store);
  }
}
