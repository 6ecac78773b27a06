/** Whose account a player belongs to: the record of whoever is online came from the database, or was
    made, for that account; so a takeover proves a token for the displaced player's own account. */
module PlayerAccounts {
  import opened Wrappers
  import opened AoiGrid
  import opened GameModel
  import opened Replication
  import opened ServerSteps
  import opened ServerRuns
  import opened LoginProvenance

  // ---------------------------------------------------------------- one step

  predicate SameAccount(before: Play, after: Play, p: PlayerId) {
    p in before.online && p in after.online && after.online[p].record.account == before.online[p].record.account
  }

  lemma CloseLetsNobodyIn(env: Environment, g: Game, c: ConnectionId, p: PlayerId)
    requires p in CloseConnection(env, g, c).play.online
    ensures p in g.play.online && CloseConnection(env, g, c).play.online[p] == g.play.online[p]
  {}

  lemma EnterLetsIn(env: Environment, g: Game, c: ConnectionId, account: string, player: PlayerRecord, token: string)
    ensures var online := EnterWorld(env, g, c, account, player, token).play.online;
      online == g.play.online || online == g.play.online[player.playerId := OnlinePlayer(player, c, token)]
  {}

  lemma FinishLetsIn(env: Environment, g: Game, c: ConnectionId, loaded: PlayerRecord, token: string, allow: bool, p: PlayerId)
    requires PlayOk(env.aoi, g.play) && p in FinishLogin(env, g, c, loaded, token, allow).play.online
    ensures var after := FinishLogin(env, g, c, loaded, token, allow).play;
      SameAccount(g.play, after, p) || (p == loaded.playerId && after.online[p].record.account == loaded.account)
  {
    if !Stale(g, c) {
      if loaded.playerId !in g.play.online {
        EnterLetsIn(env, g, c, loaded.account, loaded, token);
      } else if allow {
        var prior := g.play.online[loaded.playerId];
        var closed := CloseConnection(env, g, prior.connection);
        EnterLetsIn(env, closed, c, loaded.account, prior.record, token);
        if p in closed.play.online {
          CloseLetsNobodyIn(env, g, prior.connection, p);
        }
      }
    }
  }

  lemma MoveKeepsAccounts(env: Environment, g: Game, c: ConnectionId, target: Option<Position>, p: PlayerId)
    requires p in HandleMove(env, g, c, target).play.online
    ensures SameAccount(g.play, HandleMove(env, g, c, target).play, p)
  {}

  lemma ChatKeepsPlay(env: Environment, g: Game, c: ConnectionId, text: Option<string>, order: seq<PlayerId>)
    ensures HandleChat(env, g, c, text, order).play == g.play
  {}

  lemma LoginKeepsPlay(env: Environment, g: Game, c: ConnectionId, request: Option<LoginRequest>)
    ensures HandleLogin(env, g, c, request).play == g.play
  {}

  lemma FrameKeepsAccounts(env: Environment, g: Game, c: ConnectionId, request: Request, order: seq<PlayerId>, p: PlayerId)
    requires p in HandleFrame(env, g, c, request, order).play.online
    ensures SameAccount(g.play, HandleFrame(env, g, c, request, order).play, p)
  {
    match request
    case LoginFrame(login) => LoginKeepsPlay(env, g, c, login);
    case ChatFrame(text) => ChatKeepsPlay(env, g, c, text, order);
    case MoveFrame(target) => MoveKeepsAccounts(env, g, c, target, p);
    case HeartbeatFrame(parsed) =>
    case OtherFrame => CloseLetsNobodyIn(env, g, c, p);
  }

  /** The event is the last callback of a login of `p`, for this account. */
  predicate BringsIn(g: Game, e: Event, p: PlayerId, account: string) {
    && e.Delivered? && Enabled(g, e)
    && var k := g.login.inflight[e.ticket]; k.AfterStoreSession? && k.player.playerId == p && k.player.account == account
  }

  lemma DeliverLetsIn(env: Environment, g: Game, ticket: Ticket, reply: Reply, choice: Choice, p: PlayerId)
    requires PlayOk(env.aoi, g.play) && ticket in g.login.inflight && Honest(g.login.inflight[ticket], reply)
    requires p in Deliver(env, g, ticket, reply, choice).play.online
    ensures var after := Deliver(env, g, ticket, reply, choice).play;
      SameAccount(g.play, after, p) || BringsIn(g, Delivered(ticket, reply, choice), p, after.online[p].record.account)
  {
    var k, g0 := g.login.inflight[ticket], g.(login := g.login.(inflight := g.login.inflight - {ticket}));
    if k.AfterStoreSession? {
      StoredIsFinish(env, g0, k, reply, choice);
      if reply.status == Ok {
        FinishLetsIn(env, g0, k.connection, k.player, k.token, k.allowReplacement, p);
      }
    } else {
      OtherCallbacksKeepPlay(env, g0, k, reply, choice);
    }
  }

  lemma OtherCallbacksKeepPlay(env: Environment, g: Game, k: Continuation, reply: Reply, choice: Choice)
    requires Honest(k, reply) && !k.AfterStoreSession?
    ensures Resume(env, g, k, reply, choice).play == g.play
  {}

  lemma StepLetsIn(env: Environment, g: Game, e: Event, p: PlayerId)
    requires Inv(env, g) && p in Step(env, g, e).play.online
    ensures var after := Step(env, g, e).play;
      SameAccount(g.play, after, p) || BringsIn(g, e, p, after.online[p].record.account)
  {
    if Enabled(g, e) {
      match e
      case Accepted(d, registered) =>
        RejectedRegistration(env, g, d);
        if !registered && |g.net.clients| < env.maximumConnections {
          CloseLetsNobodyIn(env, g.(net := Opened(g.net, d)), g.net.lastId + 1, p);
        }
      case Handled(d, request, order) => FrameKeepsAccounts(env, g, d, request, order, p);
      case Delivered(ticket, reply, choice) => DeliverLetsIn(env, g, ticket, reply, choice, p);
      case Flushed(d, script) =>
      case Marked(d) =>
      case Closed(d) => CloseLetsNobodyIn(env, g, d, p);
    }
  }

  // ---------------------------------------------------------------- whole runs

  /** The run has seen a record of player `p` that belongs to this account. */
  ghost predicate Owned(env: Environment, events: seq<Event>, p: PlayerId, account: string) {
    exists c, token, player :: RecordSeen(env, events, c, account, token, player) && player.playerId == p
  }

  /** The run has loaded or created this record for a login to this account. */
  ghost predicate RecordSeen(env: Environment, events: seq<Event>, c: ConnectionId, account: string, token: string, player: PlayerRecord) {
    || Happened(env, events, PlayerLoaded(c, account, token, player))
    || Happened(env, events, PlayerCreated(c, account, player))
  }

  lemma OwnedBefore(env: Environment, events: seq<Event>, e: Event, p: PlayerId, account: string)
    requires Owned(env, events, p, account)
    ensures Owned(env, events + [e], p, account)
  {
    var c, token, player :| RecordSeen(env, events, c, account, token, player) && player.playerId == p;
    if Happened(env, events, PlayerLoaded(c, account, token, player)) {
      HappenedBefore(env, events, e, PlayerLoaded(c, account, token, player));
    } else {
      HappenedBefore(env, events, e, PlayerCreated(c, account, player));
    }
    assert RecordSeen(env, events + [e], c, account, token, player);
  }

  lemma OwnedByCallback(env: Environment, events: seq<Event>, k: Continuation)
    requires k.AfterStoreSession? && Traced(env, events, k)
    ensures Owned(env, events, k.player.playerId, k.account)
  {
    if k.allowReplacement {
      var token :| Happened(env, events, TokenConfirmed(k.connection, k.account, token, k.player));
      LoadedIfConfirmed(env, events, k.connection, k.account, token, k.player);
      assert RecordSeen(env, events, k.connection, k.account, token, k.player);
    } else {
      assert RecordSeen(env, events, k.connection, k.account, "", k.player);
    }
  }

  /** In every run, whoever is online plays with a record that was loaded or made for its account. */
  lemma {:induction false} OnlineRecordsAreOwned(env: Environment, events: seq<Event>, p: PlayerId)
    requires p in Run(env, EMPTY, events).play.online
    ensures Owned(env, events, p, Run(env, EMPTY, events).play.online[p].record.account)
    decreases |events|
  {
    if events != [] {
      var front, last := events[..|events| - 1], events[|events| - 1];
      var g, account := Run(env, EMPTY, front), Run(env, EMPTY, events).play.online[p].record.account;
      assert events == front + [last];
      InvOf(env, front);
      StepLetsIn(env, g, last, p);
      if SameAccount(g.play, Step(env, g, last).play, p) {
        OnlineRecordsAreOwned(env, front, p);
      } else {
        var k := g.login.inflight[last.ticket];
        ProperInFlight(env, front, last.ticket);
        EverythingIsTraced(env, front, last.ticket);
        OwnedByCallback(env, front, k);
      }
      OwnedBefore(env, front, last, p, account);
    }
  }

  lemma InvOf(env: Environment, events: seq<Event>)
    ensures Inv(env, Run(env, EMPTY, events))
  {
    EmptyConsistent(env);
    RunKeepsInv(env, EMPTY, events);
  }

  lemma ProperInFlight(env: Environment, events: seq<Event>, t: Ticket)
    requires t in Run(env, EMPTY, events).login.inflight
    ensures var k := Run(env, EMPTY, events).login.inflight[t]; k.AfterStoreSession? ==> k.player.account == k.account
  {
    InvOf(env, events);
  }

  /** What player ids are for: no two accounts share one. */
  ghost predicate OneAccountPerPlayer(env: Environment, events: seq<Event>) {
    forall p, a, b :: Owned(env, events, p, a) && Owned(env, events, p, b) ==> a == b
  }

  /** In every run in which accounts do not share player ids, whoever takes over a player's place has
      itself, earlier, asked to log in to the account of the very player displaced, with a non-empty
      token that the session store then confirmed. */
  lemma TokenNamesTheAccount(env: Environment, events: seq<Event>, e: Event, p: PlayerId, before: Game, after: Game)
    requires before == Run(env, EMPTY, events) && after == Step(env, before, e) && OneAccountPerPlayer(env, events)
    requires p in before.play.online && p in after.play.online
    requires after.play.online[p].connection != before.play.online[p].connection
    ensures exists token, player: PlayerRecord ::
      token != "" && player.playerId == p &&
      Authenticated(env, events, after.play.online[p].connection, before.play.online[p].record.account, token, player)
  {
    DisplacedOnlyByToken(env, events, e, p, before, after);
    var c := after.play.online[p].connection;
    var account, token, player: PlayerRecord :|
      token != "" && player.playerId == p && Authenticated(env, events, c, account, token, player);
    assert Owned(env, events, p, account) by {
      AuthenticatedIsLoaded(env, events, c, account, token, player);
      assert RecordSeen(env, events, c, account, token, player);
    }
    OnlineRecordsAreOwned(env, events, p);
  }

  lemma AuthenticatedIsLoaded(env: Environment, events: seq<Event>, c: ConnectionId, account: string, token: string, player: PlayerRecord)
    requires Authenticated(env, events, c, account, token, player)
    ensures Happened(env, events, PlayerLoaded(c, account, token, player))
  {}
}
