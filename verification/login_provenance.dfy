/** Where database callbacks come from: those of a login can be traced back, link by link, to a login
    request that its connection made, and saves to the closing of a player's connection. */
module LoginProvenance {
  import opened Wrappers
  import opened AoiGrid
  import opened GameModel
  import opened Replication
  import opened ServerInvariants
  import opened ServerSteps
  import opened LoginLocks
  import opened ServerRuns
  import opened Departures
  import opened ServerSessions

  // ---------------------------------------------------------------- facts established by events

  /** The links of a login chain. */
  datatype Fact =
    // the connection asked to log in, presenting a token or none
    | Requested(connection: ConnectionId, account: string, token: string)
    // its account's record was found
    | PlayerLoaded(connection: ConnectionId, account: string, token: string, player: PlayerRecord)
    // its account had none, and a new one was saved
    | PlayerCreated(connection: ConnectionId, account: string, player: PlayerRecord)
    // the session store holds the very token presented
    | TokenConfirmed(connection: ConnectionId, account: string, token: string, player: PlayerRecord)
    // the connection of the player closed, and this was the player's state
    | Left(player: PlayerRecord)

  /** The same player, but for the time of its last login. */
  predicate SamePlayer(a: PlayerRecord, b: PlayerRecord) {
    a == b.(lastLogin := a.lastLogin)
  }

  predicate Establishes(g: Game, e: Event, fact: Fact) {
    Enabled(g, e) &&
    match fact
    case Requested(c, account, token) =>
      e.Handled? && e.connection == c && e.request == LoginFrame(Some(LoginRequest(account, token)))
    case PlayerLoaded(c, account, token, player) =>
      && e.Delivered? && g.login.inflight[e.ticket] == AfterLoad(c, account, token)
      && e.reply.player.Good() && SamePlayer(player, e.reply.player.value.value)
    case PlayerCreated(c, account, player) =>
      && e.Delivered? && g.login.inflight[e.ticket].AfterCreate? && e.reply.status == Ok
      && g.login.inflight[e.ticket].connection == c && g.login.inflight[e.ticket].account == account
      && SamePlayer(player, g.login.inflight[e.ticket].player)
    case TokenConfirmed(c, account, token, player) =>
      && e.Delivered? && g.login.inflight[e.ticket].AfterLoadSession?
      && var k := g.login.inflight[e.ticket];
         && k.connection == c && k.account == account && k.token == token && k.player == player
         && e.reply.session.Good() && e.reply.session.value.value.token == token
    case Left(player) =>
      && player.playerId in g.play.online && g.play.online[player.playerId].record == player
      && Leaves(g, e, g.play.online[player.playerId].connection)
  }

  /** The `i`-th event of the run established the fact. */
  ghost predicate At(env: Environment, events: seq<Event>, i: nat, fact: Fact) {
    i < |events| && Establishes(Run(env, EMPTY, events[..i]), events[i], fact)
  }

  ghost predicate Happened(env: Environment, events: seq<Event>, fact: Fact) {
    exists i: nat :: At(env, events, i, fact)
  }

  lemma AtBefore(env: Environment, events: seq<Event>, n: nat, i: nat, fact: Fact)
    requires n <= |events| && At(env, events[..n], i, fact)
    ensures i < n && At(env, events, i, fact)
  {
    assert events[..n][..i] == events[..i];
  }

  lemma HappenedBefore(env: Environment, events: seq<Event>, e: Event, fact: Fact)
    requires Happened(env, events, fact)
    ensures Happened(env, events + [e], fact)
  {
    var i: nat :| At(env, events, i, fact);
    assert (events + [e])[..|events|] == events;
    AtBefore(env, events + [e], |events|, i, fact);
  }

  lemma HappensNow(env: Environment, events: seq<Event>, e: Event, fact: Fact)
    requires Establishes(Run(env, EMPTY, events), e, fact)
    ensures Happened(env, events + [e], fact)
  {
    assert (events + [e])[..|events|] == events && At(env, events + [e], |events|, fact);
  }

  // ---------------------------------------------------------------- one step

  /** What an event must have established to put `k` in flight. */
  ghost predicate Follows(g: Game, e: Event, k: Continuation) {
    match k
    case AfterLoad(c, account, token) => Establishes(g, e, Requested(c, account, token))
    case AfterCreate(c, account, player) =>
      e.Delivered? && Enabled(g, e) && g.login.inflight[e.ticket] == AfterLoad(c, account, "")
    case AfterLoadSession(c, account, player, token, _) =>
      token != "" && Establishes(g, e, PlayerLoaded(c, account, token, player))
    case AfterStoreSession(c, account, player, _, allow) =>
      if allow then exists token :: Establishes(g, e, TokenConfirmed(c, account, token, player))
      else Establishes(g, e, PlayerLoaded(c, account, "", player)) || Establishes(g, e, PlayerCreated(c, account, player))
    case AfterDisconnectSave(saved) => Establishes(g, e, Left(saved))
  }

  /** A callback in flight that was not there before, or is not the same. */
  predicate Fresh(before: Login, after: Login, t: Ticket) {
    t in after.inflight && !(t in before.inflight && before.inflight[t] == after.inflight[t])
  }

  /** The last state of whoever plays on `c`. */
  predicate IsStateOn(play: Play, c: ConnectionId, saved: PlayerRecord) {
    c in play.bound && play.bound[c] in play.online && play.online[play.bound[c]].record == saved
  }

  lemma CloseStartsASave(env: Environment, g: Game, c: ConnectionId, t: Ticket)
    requires Fresh(g.login, CloseConnection(env, g, c).login, t)
    ensures var k := CloseConnection(env, g, c).login.inflight[t];
      c in g.net.descriptors && k.AfterDisconnectSave? && IsStateOn(g.play, c, k.saved)
  {
    CloseLogin(env, g, c);
  }

  lemma StateOnIsLeft(env: Environment, g: Game, e: Event, c: ConnectionId, saved: PlayerRecord)
    requires PlayOk(env.aoi, g.play) && IsStateOn(g.play, c, saved) && Enabled(g, e) && Leaves(g, e, c)
    ensures Establishes(g, e, Left(saved))
  {}

  lemma EnterStartsNothing(env: Environment, g: Game, c: ConnectionId, account: string, player: PlayerRecord, token: string)
    ensures EnterWorld(env, g, c, account, player, token).login.inflight == g.login.inflight
  {}

  lemma FinishStartsASave(env: Environment, g: Game, c: ConnectionId, loaded: PlayerRecord, token: string, allow: bool, t: Ticket)
    requires Fresh(g.login, FinishLogin(env, g, c, loaded, token, allow).login, t)
    ensures var k := FinishLogin(env, g, c, loaded, token, allow).login.inflight[t];
      && !Stale(g, c) && loaded.playerId in g.play.online && allow
      && k.AfterDisconnectSave? && IsStateOn(g.play, g.play.online[loaded.playerId].connection, k.saved)
  {
    EnterStartsNothing(env, g, c, loaded.account, loaded, token);
    if loaded.playerId in g.play.online {
      var prior := g.play.online[loaded.playerId];
      var closed := CloseConnection(env, g, prior.connection);
      EnterStartsNothing(env, closed, c, loaded.account, prior.record, token);
      if Fresh(g.login, closed.login, t) {
        CloseStartsASave(env, g, prior.connection, t);
      }
    }
  }

  lemma StoreStarts(env: Environment, g: Game, c: ConnectionId, player: PlayerRecord, allow: bool, choice: Choice, t: Ticket)
    requires Fresh(g.login, StoreSessionAndFinish(env, g, c, player, allow, choice).login, t)
    ensures StoreSessionAndFinish(env, g, c, player, allow, choice).login.inflight[t] ==
      AfterStoreSession(c, player.account, player, choice.token, allow)
  {}

  lemma ContinueStarts(env: Environment, g: Game, c: ConnectionId, loaded: PlayerRecord, token: string, newly: bool, choice: Choice, t: Ticket)
    requires Fresh(g.login, ContinueLogin(env, g, c, loaded, token, newly, choice).login, t)
    ensures var player := loaded.(lastLogin := choice.now);
      ContinueLogin(env, g, c, loaded, token, newly, choice).login.inflight[t] ==
        if token == "" then AfterStoreSession(c, player.account, player, choice.token, false)
        else AfterLoadSession(c, player.account, player, token, newly)
  {
    if token == "" && !Stale(g, c) {
      StoreStarts(env, g, c, loaded.(lastLogin := choice.now), false, choice, t);
    }
  }

  lemma LoadedStarts(env: Environment, g: Game, c: ConnectionId, account: string, token: string,
                     result: DataResult<PlayerRecord>, choice: Choice, t: Ticket)
    requires Fresh(g.login, OnPlayerLoaded(env, g, c, account, token, result, choice).login, t)
    ensures var k := OnPlayerLoaded(env, g, c, account, token, result, choice).login.inflight[t];
      if result.Good() then
        var player := result.value.value.(lastLogin := choice.now);
        k == if token == "" then AfterStoreSession(c, player.account, player, choice.token, false)
             else AfterLoadSession(c, player.account, player, token, false)
      else token == "" && k == AfterCreate(c, account, NewPlayer(env, account, choice))
  {
    if !Stale(g, c) && result.Good() {
      ContinueStarts(env, g, c, result.value.value, token, false, choice, t);
    }
  }

  lemma ChatStartsNothing(env: Environment, g: Game, c: ConnectionId, text: Option<string>, order: seq<PlayerId>)
    ensures HandleChat(env, g, c, text, order).login == g.login
  {}

  lemma MoveStartsNothing(env: Environment, g: Game, c: ConnectionId, target: Option<Position>)
    ensures HandleMove(env, g, c, target).login == g.login
  {}

  lemma FrameStarts(env: Environment, g: Game, c: ConnectionId, request: Request, order: seq<PlayerId>, t: Ticket)
    requires Fresh(g.login, HandleFrame(env, g, c, request, order).login, t)
    ensures var k := HandleFrame(env, g, c, request, order).login.inflight[t];
      || (request.OtherFrame? && k.AfterDisconnectSave? && IsStateOn(g.play, c, k.saved))
      || (k.AfterLoad? && k.connection == c && request == LoginFrame(Some(LoginRequest(k.account, k.token))))
  {
    match request
    case LoginFrame(login) =>
    case ChatFrame(text) => ChatStartsNothing(env, g, c, text, order);
    case MoveFrame(target) => MoveStartsNothing(env, g, c, target);
    case HeartbeatFrame(parsed) =>
    case OtherFrame => CloseStartsASave(env, g, c, t);
  }

  lemma StoredStarts(env: Environment, g: Game, ticket: Ticket, reply: Reply, choice: Choice, t: Ticket)
    requires PlayOk(env.aoi, g.play) && ticket in g.login.inflight && Honest(g.login.inflight[ticket], reply)
    requires g.login.inflight[ticket].AfterStoreSession?
    requires Fresh(g.login, Deliver(env, g, ticket, reply, choice).login, t)
    ensures var k := Deliver(env, g, ticket, reply, choice).login.inflight[t];
      k.AfterDisconnectSave? && Establishes(g, Delivered(ticket, reply, choice), Left(k.saved))
  {
    var k, g0 := g.login.inflight[ticket], g.(login := g.login.(inflight := g.login.inflight - {ticket}));
    StoredIsFinish(env, g0, k, reply, choice);
    FinishStartsASave(env, g0, k.connection, k.player, k.token, k.allowReplacement, t);
    StateOnIsLeft(env, g, Delivered(ticket, reply, choice), g.play.online[k.player.playerId].connection,
                  Deliver(env, g, ticket, reply, choice).login.inflight[t].saved);
  }

  /** A callback that puts anything in flight has not failed. */
  lemma StoredIsFinish(env: Environment, g: Game, k: Continuation, reply: Reply, choice: Choice)
    requires k.AfterStoreSession? && Honest(k, reply)
    ensures var after := Resume(env, g, k, reply, choice);
      if reply.status == Ok then after == FinishLogin(env, g, k.connection, k.player, k.token, k.allowReplacement)
      else after.login.inflight == g.login.inflight
  {}

  lemma LoadStarts(env: Environment, g: Game, ticket: Ticket, reply: Reply, choice: Choice, t: Ticket)
    requires TicketsOk(g.login) && ticket in g.login.inflight && Honest(g.login.inflight[ticket], reply)
    requires g.login.inflight[ticket].AfterLoad?
    requires Fresh(g.login, Deliver(env, g, ticket, reply, choice).login, t)
    ensures Follows(g, Delivered(ticket, reply, choice), Deliver(env, g, ticket, reply, choice).login.inflight[t])
  {
    var k, g0 := g.login.inflight[ticket], g.(login := g.login.(inflight := g.login.inflight - {ticket}));
    LoadedStarts(env, g0, k.connection, k.account, k.token, reply.player, choice, t);
  }

  lemma ConfirmationStarts(env: Environment, g: Game, ticket: Ticket, reply: Reply, choice: Choice, t: Ticket)
    requires TicketsOk(g.login) && ticket in g.login.inflight && Honest(g.login.inflight[ticket], reply)
    requires g.login.inflight[ticket].AfterLoadSession?
    requires Fresh(g.login, Deliver(env, g, ticket, reply, choice).login, t)
    ensures Follows(g, Delivered(ticket, reply, choice), Deliver(env, g, ticket, reply, choice).login.inflight[t])
  {
    var k, g0 := g.login.inflight[ticket], g.(login := g.login.(inflight := g.login.inflight - {ticket}));
    assert Proper(k);
    StoreStarts(env, g0, k.connection, k.player, true, choice, t);
    assert Establishes(g, Delivered(ticket, reply, choice), TokenConfirmed(k.connection, k.account, k.token, k.player));
  }

  /** A callback puts in flight only what follows from its own reply. */
  lemma DeliverStarts(env: Environment, g: Game, ticket: Ticket, reply: Reply, choice: Choice, t: Ticket)
    requires Inv(env, g) && ticket in g.login.inflight && Honest(g.login.inflight[ticket], reply)
    requires Fresh(g.login, Deliver(env, g, ticket, reply, choice).login, t)
    ensures Follows(g, Delivered(ticket, reply, choice), Deliver(env, g, ticket, reply, choice).login.inflight[t])
  {
    match g.login.inflight[ticket]
    case AfterLoad(_, _, _) => LoadStarts(env, g, ticket, reply, choice, t);
    case AfterCreate(c, account, player) =>
      assert Proper(g.login.inflight[ticket]) && reply.status == Ok;
      ContinueStarts(env, g.(login := g.login.(inflight := g.login.inflight - {ticket})), c, player, "", true, choice, t);
    case AfterLoadSession(_, _, _, _, _) => ConfirmationStarts(env, g, ticket, reply, choice, t);
    case AfterStoreSession(_, _, _, _, _) => StoredStarts(env, g, ticket, reply, choice, t);
    case AfterDisconnectSave(_) =>
  }

  lemma RejectedStartsNothing(env: Environment, g: Game, d: Descriptor, t: Ticket)
    requires Consistent(env, g)
    ensures !Fresh(g.login, CloseConnection(env, g.(net := Opened(g.net, d)), g.net.lastId + 1).login, t)
  {
    OpenedIsNew(env, g.net);
    CloseLogin(env, g.(net := Opened(g.net, d)), g.net.lastId + 1);
  }

  lemma StepStarts(env: Environment, g: Game, e: Event, t: Ticket)
    requires Inv(env, g) && Fresh(g.login, Step(env, g, e).login, t)
    ensures Follows(g, e, Step(env, g, e).login.inflight[t])
  {
    match e
    case Accepted(d, registered) =>
      RejectedRegistration(env, g, d);
      RejectedStartsNothing(env, g, d, t);
    case Handled(d, request, order) =>
      FrameStarts(env, g, d, request, order, t);
      var k := Step(env, g, e).login.inflight[t];
      if k.AfterDisconnectSave? {
        StateOnIsLeft(env, g, e, d, k.saved);
      }
    case Delivered(ticket, reply, choice) => DeliverStarts(env, g, ticket, reply, choice, t);
    case Closed(d) =>
      CloseStartsASave(env, g, d, t);
      StateOnIsLeft(env, g, e, d, Step(env, g, e).login.inflight[t].saved);
  }

  // ---------------------------------------------------------------- whole runs

  /** What the run must have established for `k` to be in flight. */
  ghost predicate Traced(env: Environment, events: seq<Event>, k: Continuation) {
    match k
    case AfterLoad(c, account, token) => Happened(env, events, Requested(c, account, token))
    case AfterCreate(c, account, _) => Happened(env, events, Requested(c, account, ""))
    case AfterLoadSession(c, account, player, token, _) =>
      token != "" && Happened(env, events, PlayerLoaded(c, account, token, player))
    case AfterStoreSession(c, account, player, _, allow) =>
      if allow then exists token :: Happened(env, events, TokenConfirmed(c, account, token, player))
      else Happened(env, events, PlayerLoaded(c, account, "", player)) || Happened(env, events, PlayerCreated(c, account, player))
    case AfterDisconnectSave(saved) => Happened(env, events, Left(saved))
  }

  lemma TracedBefore(env: Environment, events: seq<Event>, e: Event, k: Continuation)
    requires Traced(env, events, k)
    ensures Traced(env, events + [e], k)
  {
    match k
    case AfterLoad(c, account, token) => HappenedBefore(env, events, e, Requested(c, account, token));
    case AfterCreate(c, account, _) => HappenedBefore(env, events, e, Requested(c, account, ""));
    case AfterLoadSession(c, account, player, token, _) => HappenedBefore(env, events, e, PlayerLoaded(c, account, token, player));
    case AfterStoreSession(c, account, player, _, allow) =>
      if allow {
        var token :| Happened(env, events, TokenConfirmed(c, account, token, player));
        HappenedBefore(env, events, e, TokenConfirmed(c, account, token, player));
      } else if Happened(env, events, PlayerLoaded(c, account, "", player)) {
        HappenedBefore(env, events, e, PlayerLoaded(c, account, "", player));
      } else {
        HappenedBefore(env, events, e, PlayerCreated(c, account, player));
      }
    case AfterDisconnectSave(saved) => HappenedBefore(env, events, e, Left(saved));
  }

  lemma TracedNow(env: Environment, events: seq<Event>, e: Event, k: Continuation)
    requires Follows(Run(env, EMPTY, events), e, k)
    requires k.AfterCreate? ==> Traced(env, events, AfterLoad(k.connection, k.account, ""))
    ensures Traced(env, events + [e], k)
  {
    match k
    case AfterLoad(c, account, token) => HappensNow(env, events, e, Requested(c, account, token));
    case AfterCreate(c, account, _) => HappenedBefore(env, events, e, Requested(c, account, ""));
    case AfterLoadSession(c, account, player, token, _) => HappensNow(env, events, e, PlayerLoaded(c, account, token, player));
    case AfterStoreSession(c, account, player, _, allow) =>
      var g := Run(env, EMPTY, events);
      if allow {
        var token :| Establishes(g, e, TokenConfirmed(c, account, token, player));
        HappensNow(env, events, e, TokenConfirmed(c, account, token, player));
      } else if Establishes(g, e, PlayerLoaded(c, account, "", player)) {
        HappensNow(env, events, e, PlayerLoaded(c, account, "", player));
      } else {
        HappensNow(env, events, e, PlayerCreated(c, account, player));
      }
    case AfterDisconnectSave(saved) => HappensNow(env, events, e, Left(saved));
  }

  lemma FreshFollows(env: Environment, events: seq<Event>, e: Event, t: Ticket)
    requires Fresh(Run(env, EMPTY, events).login, Step(env, Run(env, EMPTY, events), e).login, t)
    ensures Follows(Run(env, EMPTY, events), e, Step(env, Run(env, EMPTY, events), e).login.inflight[t])
  {
    assert Reachable(env, Run(env, EMPTY, events));
    ReachableInv(env, Run(env, EMPTY, events));
    StepStarts(env, Run(env, EMPTY, events), e, t);
  }

  /** In every run, every callback in flight has its chain behind it. */
  lemma {:induction false} EverythingIsTraced(env: Environment, events: seq<Event>, t: Ticket)
    requires t in Run(env, EMPTY, events).login.inflight
    ensures Traced(env, events, Run(env, EMPTY, events).login.inflight[t])
    decreases |events|
  {
    if events != [] {
      var front, last := events[..|events| - 1], events[|events| - 1];
      var g, g' := Run(env, EMPTY, front), Run(env, EMPTY, events);
      assert events == front + [last];
      if Fresh(g.login, g'.login, t) {
        FreshFollows(env, front, last, t);
        var k := g'.login.inflight[t];
        if k.AfterCreate? {
          EverythingIsTraced(env, front, last.ticket);
        }
        TracedNow(env, front, last, k);
      } else {
        EverythingIsTraced(env, front, t);
        TracedBefore(env, front, last, g'.login.inflight[t]);
      }
    }
  }

  // ---------------------------------------------------------------- who gets in, and as whom

  /** A callback run by event `i` was in flight before, so what it needs had happened by then. */
  lemma ReplyIsTraced(env: Environment, events: seq<Event>, i: nat)
    requires i < |events| && events[i].Delivered? && Enabled(Run(env, EMPTY, events[..i]), events[i])
    ensures Traced(env, events[..i], Run(env, EMPTY, events[..i]).login.inflight[events[i].ticket])
  {
    EverythingIsTraced(env, events[..i], events[i].ticket);
  }

  lemma RequestBehindLoad(env: Environment, events: seq<Event>, c: ConnectionId, account: string, token: string, player: PlayerRecord, j: nat)
      returns (i: nat)
    requires At(env, events, j, PlayerLoaded(c, account, token, player))
    ensures i < j && At(env, events, i, Requested(c, account, token))
  {
    ReplyIsTraced(env, events, j);
    i :| At(env, events[..j], i, Requested(c, account, token));
    AtBefore(env, events, j, i, Requested(c, account, token));
  }

  lemma LoadBehindConfirmation(env: Environment, events: seq<Event>, c: ConnectionId, account: string, token: string, player: PlayerRecord, l: nat)
      returns (j: nat)
    requires At(env, events, l, TokenConfirmed(c, account, token, player))
    ensures token != "" && j < l && At(env, events, j, PlayerLoaded(c, account, token, player))
  {
    ReplyIsTraced(env, events, l);
    j :| At(env, events[..l], j, PlayerLoaded(c, account, token, player));
    AtBefore(env, events, l, j, PlayerLoaded(c, account, token, player));
  }

  /** The three links behind a right to replace, in the order in which they happened: the connection
      presented a token for an account, the account's record was loaded, and the session store
      confirmed that very token. */
  ghost predicate Authenticated(env: Environment, events: seq<Event>, c: ConnectionId, account: string, token: string, player: PlayerRecord) {
    exists i: nat, j: nat, l: nat ::
      && i < j < l && At(env, events, i, Requested(c, account, token))
      && At(env, events, j, PlayerLoaded(c, account, token, player))
      && At(env, events, l, TokenConfirmed(c, account, token, player))
  }

  lemma ConfirmedIsAuthenticated(env: Environment, events: seq<Event>, c: ConnectionId, account: string, token: string, player: PlayerRecord)
    requires Happened(env, events, TokenConfirmed(c, account, token, player))
    ensures token != "" && Authenticated(env, events, c, account, token, player)
  {
    var l: nat :| At(env, events, l, TokenConfirmed(c, account, token, player));
    var j := LoadBehindConfirmation(env, events, c, account, token, player, l);
    var i := RequestBehindLoad(env, events, c, account, token, player, j);
  }

  /** In every run, whoever takes over a player's place has itself, earlier, asked to log in to an
      account with a non-empty token; the account's record was that player's, and the
      session store confirmed this token. */
  lemma DisplacedOnlyByToken(env: Environment, events: seq<Event>, e: Event, p: PlayerId, before: Game, after: Game)
    requires before == Run(env, EMPTY, events) && after == Step(env, before, e)
    requires p in before.play.online && p in after.play.online
    requires after.play.online[p].connection != before.play.online[p].connection
    ensures exists account, token, player: PlayerRecord ::
      token != "" && player.playerId == p &&
      Authenticated(env, events, after.play.online[p].connection, account, token, player)
  {
    var c := after.play.online[p].connection;
    assert Reachable(env, before);
    ReachableInv(env, before);
    StepKeeps(env, before, e);
    assert c !in before.play.bound by {
      StepEvolves(env, before, e);
    }
    OnlyFinishedLoginsBind(env, before, e, c);
    var k := before.login.inflight[e.ticket];
    EverythingIsTraced(env, events, e.ticket);
    var token :| Happened(env, events, TokenConfirmed(c, k.account, token, k.player));
    ConfirmedIsAuthenticated(env, events, c, k.account, token, k.player);
  }

  /** The player belongs to an account that this connection asked for: its record was loaded for the
      account, or newly made for it. */
  ghost predicate Earned(env: Environment, events: seq<Event>, c: ConnectionId, p: PlayerId) {
    exists account, token, player: PlayerRecord :: player.playerId == p
      && Happened(env, events, Requested(c, account, token))
      && (Happened(env, events, PlayerLoaded(c, account, token, player)) || Happened(env, events, PlayerCreated(c, account, player)))
  }

  lemma EarnedByLoad(env: Environment, events: seq<Event>, c: ConnectionId, account: string, token: string, player: PlayerRecord)
    requires Happened(env, events, PlayerLoaded(c, account, token, player))
    ensures Earned(env, events, c, player.playerId)
  {
    var j: nat :| At(env, events, j, PlayerLoaded(c, account, token, player));
    var i := RequestBehindLoad(env, events, c, account, token, player, j);
    assert Happened(env, events, Requested(c, account, token));
  }

  lemma LoadedIfConfirmed(env: Environment, events: seq<Event>, c: ConnectionId, account: string, token: string, player: PlayerRecord)
    requires Happened(env, events, TokenConfirmed(c, account, token, player))
    ensures Happened(env, events, PlayerLoaded(c, account, token, player))
  {
    var l: nat :| At(env, events, l, TokenConfirmed(c, account, token, player));
    var j := LoadBehindConfirmation(env, events, c, account, token, player, l);
  }

  lemma EarnedByCallback(env: Environment, events: seq<Event>, k: Continuation)
    requires k.AfterStoreSession? && Traced(env, events, k)
    ensures Earned(env, events, k.connection, k.player.playerId)
  {
    var c, account, player := k.connection, k.account, k.player;
    if k.allowReplacement {
      var token :| Happened(env, events, TokenConfirmed(c, account, token, player));
      LoadedIfConfirmed(env, events, c, account, token, player);
      EarnedByLoad(env, events, c, account, token, player);
    } else if Happened(env, events, PlayerLoaded(c, account, "", player)) {
      EarnedByLoad(env, events, c, account, "", player);
    } else {
      RequestBehindCreation(env, events, c, account, player);
    }
  }

  lemma RequestBehindCreation(env: Environment, events: seq<Event>, c: ConnectionId, account: string, player: PlayerRecord)
    requires Happened(env, events, PlayerCreated(c, account, player))
    ensures Happened(env, events, Requested(c, account, ""))
  {
    var j: nat :| At(env, events, j, PlayerCreated(c, account, player));
    ReplyIsTraced(env, events, j);
    var i: nat :| At(env, events[..j], i, Requested(c, account, ""));
    AtBefore(env, events, j, i, Requested(c, account, ""));
  }

  lemma EarnedBefore(env: Environment, events: seq<Event>, e: Event, c: ConnectionId, p: PlayerId)
    requires Earned(env, events, c, p)
    ensures Earned(env, events + [e], c, p)
  {
    var account, token, player: PlayerRecord :| player.playerId == p
      && Happened(env, events, Requested(c, account, token))
      && (Happened(env, events, PlayerLoaded(c, account, token, player)) || Happened(env, events, PlayerCreated(c, account, player)));
    HappenedBefore(env, events, e, Requested(c, account, token));
    if Happened(env, events, PlayerLoaded(c, account, token, player)) {
      HappenedBefore(env, events, e, PlayerLoaded(c, account, token, player));
    } else {
      HappenedBefore(env, events, e, PlayerCreated(c, account, player));
    }
  }

  /** In every run, whoever plays a player has asked to log in to that player's account. */
  lemma {:induction false} EveryBindingIsEarned(env: Environment, events: seq<Event>, c: ConnectionId)
    requires c in Run(env, EMPTY, events).play.bound
    ensures Earned(env, events, c, Run(env, EMPTY, events).play.bound[c])
    decreases |events|
  {
    if events != [] {
      var front, last := events[..|events| - 1], events[|events| - 1];
      var g := Run(env, EMPTY, front);
      assert events == front + [last];
      assert Reachable(env, g);
      if c in g.play.bound {
        ReachableInv(env, g);
        StepEvolves(env, g, last);
        StaysPut(env, g, last, c);
        EveryBindingIsEarned(env, front, c);
        EarnedBefore(env, front, last, c, g.play.bound[c]);
      } else {
        OnlyFinishedLoginsBind(env, g, last, c);
        var k := g.login.inflight[last.ticket];
        EverythingIsTraced(env, front, last.ticket);
        EarnedByCallback(env, front, k);
        EarnedBefore(env, front, last, c, k.player.playerId);
      }
    }
  }

  lemma StaysPut(env: Environment, g: Game, e: Event, c: ConnectionId)
    requires Reachable(env, g) && c in g.play.bound && c in Step(env, g, e).play.bound
    ensures Step(env, g, e).play.bound[c] == g.play.bound[c]
  {
    BoundForLife(env, g, c, [e]);
    assert [e][..0] == [] && Run(env, g, [e]) == Step(env, g, e);
  }
}
