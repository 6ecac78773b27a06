/** Who may take over whose place, and what closing a connection leaves behind. */
module ServerSessions {
  import opened AoiGrid
  import opened GameModel
  import opened Replication
  import opened ViewChanges
  import opened ServerInvariants
  import opened ServerSteps
  import opened LoginLocks
  import opened ServerRuns

  // ---------------------------------------------------------------- replacement

  /** A validated login for a player who is still online always succeeds: the old connection is
      closed, and the player carries on with its live record (not the database copy) and position on
      the new connection.  Nobody else is touched. */
  lemma ReplacementIsTotal(env: Environment, g: Game, ticket: Ticket, reply: Reply, choice: Choice)
    requires Reachable(env, g) && ticket in g.login.inflight && Honest(g.login.inflight[ticket], reply)
    requires var k := g.login.inflight[ticket];
      k.AfterStoreSession? && k.allowReplacement && reply.status == Ok &&
      !Stale(g, k.connection) && k.player.playerId in g.play.online
    ensures var k, after := g.login.inflight[ticket], Deliver(env, g, ticket, reply, choice);
      var p, prior := k.player.playerId, g.play.online[k.player.playerId];
      && after.play.online == g.play.online[p := OnlinePlayer(prior.record, k.connection, k.token)]
      && after.play.world == g.play.world
      && prior.connection != k.connection && prior.connection !in after.net.descriptors
      && after.net.descriptors == g.net.descriptors - {prior.connection}
      && k.connection !in after.login.pendingConnections && k.account !in after.login.pendingAccounts
  {
    ReachableInv(env, g);
    var k := g.login.inflight[ticket];
    assert Proper(k);
    var g0 := g.(login := g.login.(inflight := g.login.inflight - {ticket}));
    LoginChangeKeeps(env, g, g0.login);
    TakeOver(env, g0, k.connection, k.player, k.token);
    SameWorld(env.aoi, g.play, k.player.playerId, k.connection, k.token);
  }

  lemma TakeOver(env: Environment, g: Game, c: ConnectionId, loaded: PlayerRecord, token: string)
    requires Consistent(env, g) && !Stale(g, c) && loaded.playerId in g.play.online
    ensures var after := FinishLogin(env, g, c, loaded, token, true);
      var p, prior := loaded.playerId, g.play.online[loaded.playerId];
      && after.play == Arrived(Departed(g.play, prior.connection, p), c, prior.record, token)
      && after.net.descriptors == g.net.descriptors - {prior.connection}
      && c !in after.login.pendingConnections && loaded.account !in after.login.pendingAccounts
  {
    var p, prior := loaded.playerId, g.play.online[loaded.playerId];
    var closed := CloseConnection(env, g, prior.connection);
    CloseUnfolds(env, g, prior.connection);
    CloseKeeps(env, g, prior.connection);
    CloseShrinks(env, g, prior.connection);
    assert closed.play == Departed(g.play, prior.connection, p);
    EnterUnfolds(env, closed, c, loaded.account, prior.record, token);
  }

  lemma SameWorld(aoi: AoiConfig, play: Play, p: PlayerId, c: ConnectionId, token: string)
    requires PlayOk(aoi, play) && p in play.online
    ensures var prior := play.online[p];
      var after := Arrived(Departed(play, prior.connection, p), c, prior.record, token);
      && after.world == play.world
      && after.online == play.online[p := OnlinePlayer(prior.record, c, token)]
  {
    assert (play.world - {p})[p := play.world[p]] == play.world;
  }

  lemma EnterUnfolds(env: Environment, g: Game, c: ConnectionId, account: string, player: PlayerRecord, token: string)
    requires Consistent(env, g)
    requires player.playerId !in g.play.online && InMap(env.aoi, Position(player.x, player.y))
    ensures var after := EnterWorld(env, g, c, account, player, token);
      && after.play == Arrived(g.play, c, player, token)
      && after.login == Release(g.login, c, account)
      && after.net.descriptors == g.net.descriptors
  {
    SendEachKeeps(env, g.net, ArrivalNews(env.aoi, Arrived(g.play, c, player, token), c, player, token));
  }

  // ---------------------------------------------------------------- how connections get bound

  lemma EnterBinds(env: Environment, g: Game, c: ConnectionId, account: string, player: PlayerRecord, token: string)
    ensures var bound := EnterWorld(env, g, c, account, player, token).play.bound;
      bound == g.play.bound || bound == g.play.bound[c := player.playerId]
  {}

  lemma FinishBinds(env: Environment, g: Game, c: ConnectionId, loaded: PlayerRecord, token: string, allow: bool, d: ConnectionId)
    requires Consistent(env, g)
    requires d in FinishLogin(env, g, c, loaded, token, allow).play.bound && d !in g.play.bound
    ensures d == c && !Stale(g, c)
    ensures FinishLogin(env, g, c, loaded, token, allow).play.bound[d] == loaded.playerId
    ensures loaded.playerId in g.play.online ==> allow
  {
    if !Stale(g, c) {
      if loaded.playerId !in g.play.online {
        EnterBinds(env, g, c, loaded.account, loaded, token);
      } else if allow {
        var prior := g.play.online[loaded.playerId];
        CloseBindsNobody(env, g, prior.connection);
        EnterBinds(env, CloseConnection(env, g, prior.connection), c, loaded.account, prior.record, token);
      }
    }
  }

  lemma CloseBindsNobody(env: Environment, g: Game, c: ConnectionId)
    ensures CloseConnection(env, g, c).play.bound.Keys <= g.play.bound.Keys
  {}

  lemma FrameBindsNobody(env: Environment, g: Game, c: ConnectionId, request: Request, order: seq<PlayerId>)
    ensures HandleFrame(env, g, c, request, order).play.bound.Keys <= g.play.bound.Keys
  {
    match request
    case LoginFrame(login) => assert HandleLogin(env, g, c, login).play == g.play;
    case ChatFrame(text) => assert HandleChat(env, g, c, text, order).play == g.play;
    case MoveFrame(target) => assert HandleMove(env, g, c, target).play.bound == g.play.bound;
    case HeartbeatFrame(parsed) =>
    case OtherFrame => CloseBindsNobody(env, g, c);
  }

  lemma ResumeBinds(env: Environment, g: Game, k: Continuation, reply: Reply, choice: Choice)
    requires Honest(k, reply) && !k.AfterStoreSession?
    ensures Resume(env, g, k, reply, choice).play == g.play
  {}

  /** A connection is bound only by the last callback of its own login chain, to the player that
      chain loaded; a player who is online is displaced only when that chain allows it. */
  lemma OnlyFinishedLoginsBind(env: Environment, g: Game, e: Event, c: ConnectionId)
    requires Reachable(env, g) && c in Step(env, g, e).play.bound && c !in g.play.bound
    ensures e.Delivered? && Enabled(g, e)
    ensures var k := g.login.inflight[e.ticket];
      && k.AfterStoreSession? && k.connection == c && e.reply.status == Ok && !Stale(g, c)
      && c in g.net.descriptors && c !in g.net.marked && c in g.login.pendingConnections
      && Step(env, g, e).play.bound[c] == k.player.playerId
      && (k.player.playerId in g.play.online ==> k.allowReplacement)
  {
    ReachableInv(env, g);
    match e
    case Accepted(d, registered) =>
      RejectedRegistration(env, g, d);
      CloseBindsNobody(env, g.(net := Opened(g.net, d)), g.net.lastId + 1);
    case Handled(d, request, order) => FrameBindsNobody(env, g, d, request, order);
    case Delivered(ticket, reply, choice) =>
      var k := g.login.inflight[ticket];
      var g0 := g.(login := g.login.(inflight := g.login.inflight - {ticket}));
      LoginChangeKeeps(env, g, g0.login);
      if k.AfterStoreSession? {
        FinishBinds(env, g0, k.connection, k.player, k.token, k.allowReplacement, c);
      } else {
        ResumeBinds(env, g0, k, reply, choice);
      }
    case Flushed(d, script) =>
    case Marked(d) =>
    case Closed(d) => CloseBindsNobody(env, g, d);
  }
}
