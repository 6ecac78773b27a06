/** What a client gets for its frames, and what becomes of a new client: each event from start to end, in
    terms of the request itself. */
module RequestsServed {
  import opened Wrappers
  import opened AoiGrid
  import opened FrameFormat
  import opened GameModel
  import opened Replication
  import opened ViewChanges
  import opened ServerInvariants
  import opened ServerSteps
  import opened ServerRuns
  import opened LoginResponses
  import opened Chat

  // ---------------------------------------------------------------- sending

  /** Bytes that a message makes, if it encodes. */
  function SizeOf(env: Environment, m: Message): nat {
    if Legal(env.encode(m), DEFAULT_MAX_PAYLOAD_SIZE) then |Encoding(env.encode(m))| else 0
  }

  /** The message goes out: it encodes, fits behind what is pending, the socket does not fail, and epoll
      takes the new interest. */
  ghost predicate GoesOut(env: Environment, net: Net, c: ConnectionId, m: Message) {
    && Legal(env.encode(m), DEFAULT_MAX_PAYLOAD_SIZE)
    && Pending(env, net, c) + SizeOf(env, m) <= env.maximumPendingBytes
    && !Tcp.Breaks(env.sends(net.offers), Pending(env, net, c) + SizeOf(env, m))
    && env.interest(net.offers)
  }

  /** A message to a live connection marks it exactly if it does not go out; nobody else is marked. */
  lemma SendMarksExactly(env: Environment, net: Net, c: ConnectionId, m: Message, d: ConnectionId)
    requires NetOk(env, net)
    ensures d in Send(env, net, c, m).marked <==>
      d in net.marked || (d == c && c in net.descriptors && !GoesOut(env, net, c, m))
  {
    Tcp.TransmitExactly(env.maximumPendingBytes, Pending(env, net, c), env.encode(m), env.sends(net.offers), env.interest(net.offers));
  }

  /** It is queued exactly if it encodes and fits; nobody else is sent anything. */
  lemma SendLogsExactly(env: Environment, net: Net, c: ConnectionId, m: Message, d: ConnectionId)
    requires NetOk(env, net)
    ensures Sent(Send(env, net, c, m), d) ==
      if d == c && c in net.descriptors && SizeOf(env, m) > 0 && Pending(env, net, c) + SizeOf(env, m) <= env.maximumPendingBytes
      then Sent(net, d) + [m] else Sent(net, d)
  {}

  /** A batch of messages marks nobody it is not addressed to. */
  lemma {:induction false} MarksOnlyTheAddressed(env: Environment, net: Net, out: seq<Outgoing>, d: ConnectionId)
    requires d in SendEach(env, net, out).marked && d !in net.marked
    ensures exists i :: 0 <= i < |out| && out[i].to == d
    decreases |out|
  {
    if out != [] {
      var front, last := out[..|out| - 1], out[|out| - 1];
      if d in SendEach(env, net, front).marked {
        MarksOnlyTheAddressed(env, net, front, d);
        var i :| 0 <= i < |front| && front[i].to == d;
        assert out[i].to == d;
      } else {
        assert out[|out| - 1].to == d;
      }
    }
  }

  // ---------------------------------------------------------------- moves

  /** Moves that are made: by a player, to a position on the map. */
  predicate MayMove(env: Environment, g: Game, c: ConnectionId, target: Option<Position>) {
    c in g.play.bound && target.Some? && InMap(env.aoi, target.value)
  }

  lemma MoveUnfolds(env: Environment, g: Game, c: ConnectionId, target: Option<Position>)
    requires PlayOk(env.aoi, g.play)
    ensures HandleMove(env, g, c, target) ==
      if MayMove(env, g, c, target) then
        var p := g.play.bound[c];
        g.(net := SendEach(env, g.net, MoveNews(env.aoi, g.play, p, target.value)), play := Relocated(g.play, p, target.value))
      else g
  {}

  /** The player goes exactly where it asked to go, and nothing else about it or anybody else changes;
      any other move request changes nothing. */
  lemma MoveGoesWhereAsked(env: Environment, g: Game, c: ConnectionId, target: Option<Position>, order: seq<PlayerId>)
    requires Reachable(env, g) && c in g.net.descriptors && c !in g.net.marked
    ensures var after := Step(env, g, Handled(c, MoveFrame(target), order));
      if MayMove(env, g, c, target) then
        var p, at := g.play.bound[c], target.value;
        && p in g.play.online && after.login == g.login && after.play.bound == g.play.bound
        && after.play.world == g.play.world[p := at]
        && after.play.online == g.play.online[p := g.play.online[p].(record := after.play.online[p].record)]
        && after.play.online[p].record == g.play.online[p].record.(x := at.x, y := at.y)
      else after == g
  {
    ReachableInv(env, g);
    MoveUnfolds(env, g, c, target);
  }

  /** What another player is told of a move of `p` from one view to another. */
  function MoveStory(p: PlayerId, nickname: string, at: Position, before: set<PlayerId>, now: set<PlayerId>, q: PlayerId): seq<Message> {
    if q in before && q in now then [PlayerMove(p, at)]
    else if q in now then [PlayerEnter(PlayerView(p, nickname, at))]
    else if q in before then [PlayerLeave(p)]
    else []
  }

  lemma MoveInboxIsStory(aoi: AoiConfig, play: Play, p: PlayerId, at: Position, q: PlayerId)
    requires PlayOk(aoi, play) && p in play.online && InMap(aoi, at) && q in play.online && q != p
    ensures Inbox(MoveNews(aoi, play, p, at), play.online[q].connection) ==
      MoveStory(p, play.online[p].record.nickname, at, Visible(aoi, play.world, p), Visible(aoi, play.world[p := at], p), q)
  {
    MoveInbox(aoi, play, p, at, q);
  }

  /** Whoever saw the player and still does is told the new position; whoever sees it now but did not is
      shown it, and whoever no longer does is told that it left; nobody else among the players is told
      anything. */
  lemma MoveIsTold(env: Environment, g: Game, c: ConnectionId, at: Position, order: seq<PlayerId>, q: PlayerId)
    requires Reachable(env, g) && c in g.net.descriptors && c !in g.net.marked && MayMove(env, g, c, Some(at))
    requires q in g.play.online && q != g.play.bound[c]
    requires g.play.online[q].connection !in Step(env, g, Handled(c, MoveFrame(Some(at)), order)).net.marked
    ensures var after := Step(env, g, Handled(c, MoveFrame(Some(at)), order));
      var p, d := g.play.bound[c], g.play.online[q].connection;
      p in g.play.online && Sent(after.net, d) == Sent(g.net, d) + MoveStory(
        p, g.play.online[p].record.nickname, at, Visible(env.aoi, g.play.world, p), Visible(env.aoi, g.play.world[p := at], p), q)
  {
    ReachableInv(env, g);
    MoveUnfolds(env, g, c, Some(at));
    MoveInboxIsStory(env.aoi, g.play, g.play.bound[c], at, q);
    SendEachDelivers(env, g.net, MoveNews(env.aoi, g.play, g.play.bound[c], at), g.play.online[q].connection);
  }

  // ---------------------------------------------------------------- other frames

  /** A heartbeat that parses is sent back, to its sender only; nothing else changes. */
  lemma HeartbeatIsEchoed(env: Environment, g: Game, c: ConnectionId, parsed: bool, order: seq<PlayerId>)
    requires Reachable(env, g) && c in g.net.descriptors && c !in g.net.marked
    ensures var after := Step(env, g, Handled(c, HeartbeatFrame(parsed), order));
      && after.play == g.play && after.login == g.login && (!parsed ==> after == g)
      && (parsed && c !in after.net.marked ==> Sent(after.net, c) == Sent(g.net, c) + [Heartbeat])
      && (forall d | d != c :: Sent(after.net, d) == Sent(g.net, d) && (d in after.net.marked <==> d in g.net.marked))
  {
    ReachableInv(env, g);
  }

  /** A chat frame, in the words of `ChatReachesEveryone`. */
  lemma ChatIsHeard(env: Environment, g: Game, c: ConnectionId, text: Option<string>, order: seq<PlayerId>, d: ConnectionId)
    requires Reachable(env, g) && Everyone(g.play.online, order) && c in g.net.descriptors && c !in g.net.marked
    requires d in g.net.descriptors && d !in Step(env, g, Handled(c, ChatFrame(text), order)).net.marked
    ensures var after := Step(env, g, Handled(c, ChatFrame(text), order));
      && after.play == g.play && after.login == g.login
      && Sent(after.net, d) == Sent(g.net, d) +
           if MayChat(env, g, c, text) && d in g.play.bound
           then [ChatBroadcast(g.play.bound[c], g.play.online[g.play.bound[c]].record.nickname, text.value)] else []
  {
    ChatReachesEveryone(env, g, c, text, order, d);
  }

  /** What a login request is refused for, if it is. */
  function Objection(env: Environment, g: Game, c: ConnectionId, request: Option<LoginRequest>): Option<string> {
    if request.None? || !(1 <= |request.value.account| <= 64) || c in g.play.bound || c in g.login.pendingConnections
    then Some("invalid or duplicate login request")
    else if request.value.account in g.login.pendingAccounts then Some("account login is already pending")
    else if !env.accepts(g.login.requests) then Some("database queue is full")
    else None
  }

  lemma RefusesWith(env: Environment, g: Game, c: ConnectionId, request: Option<LoginRequest>)
    requires Objection(env, g, c, request).Some?
    ensures exists login, account ::
      HandleLogin(env, g, c, request) == FailLogin(env, g.(login := login), c, account, Objection(env, g, c, request).value)
  {
    var error := Objection(env, g, c, request).value;
    if error == "invalid or duplicate login request" || error == "account login is already pending" {
      assert HandleLogin(env, g, c, request) == FailLogin(env, g.(login := g.login), c, "", error);
    } else {
      var account := request.value.account;
      var login := Submit(env, Lock(g.login, c, account), AfterLoad(c, account, request.value.token)).0;
      assert HandleLogin(env, g, c, request) == FailLogin(env, g.(login := login), c, account, error);
    }
  }

  /** A login request without objection has the account's record asked for, under the next ticket, with the
      account locked for the connection; any other is answered with the objection. */
  lemma LoginIsTakenUp(env: Environment, g: Game, c: ConnectionId, request: Option<LoginRequest>, order: seq<PlayerId>)
    requires Reachable(env, g) && c in g.net.descriptors && c !in g.net.marked
    ensures var after := Step(env, g, Handled(c, LoginFrame(request), order));
      after.play == g.play &&
      match Objection(env, g, c, request)
      case None =>
        && after.net == g.net
        && after.login == Login(g.login.pendingConnections[c := request.value.account],
                                g.login.pendingAccounts + {request.value.account},
                                g.login.inflight[g.login.requests := AfterLoad(c, request.value.account, request.value.token)],
                                g.login.requests + 1)
      case Some(error) =>
        && after.login.inflight == g.login.inflight
        && after.login.pendingConnections == g.login.pendingConnections - {c}
        && after.login.pendingAccounts == g.login.pendingAccounts -
             (if c in g.login.pendingConnections then {g.login.pendingConnections[c]} else {})
        && (c !in after.net.marked ==> Sent(after.net, c) == Sent(g.net, c) + [LoginRefused(error)])
  {
    ReachableInv(env, g);
    match Objection(env, g, c, request)
    case None => Starts(env, g, c, request);
    case Some(error) =>
      RefusesWith(env, g, c, request);
      var login, account :| HandleLogin(env, g, c, request) == FailLogin(env, g.(login := login), c, account, error);
      RefusalIsSent(env, g.(login := login), c, account, error);
      RefusalStartsNothing(env, g, c, request);
  }

  lemma RefusalStartsNothing(env: Environment, g: Game, c: ConnectionId, request: Option<LoginRequest>)
    requires Objection(env, g, c, request).Some?
    ensures var after := HandleLogin(env, g, c, request).login;
      && after.inflight == g.login.inflight && after.pendingConnections == g.login.pendingConnections - {c}
      && after.pendingAccounts == g.login.pendingAccounts -
           (if c in g.login.pendingConnections then {g.login.pendingConnections[c]} else {})
  {
    if request.Some? && Objection(env, g, c, request).value == "database queue is full" {
      var account := request.value.account;
      assert g.login.pendingAccounts + {account} - {account} == g.login.pendingAccounts;
      assert g.login.pendingConnections[c := account] - {c} == g.login.pendingConnections;
    }
  }

  /** A connection that is marked for close is not listened to. */
  lemma MarkedIsNotHeard(env: Environment, g: Game, c: ConnectionId, request: Request, order: seq<PlayerId>)
    requires c in g.net.marked || c !in g.net.descriptors
    ensures Step(env, g, Handled(c, request, order)) == g
  {}

  // ---------------------------------------------------------------- new clients

  lemma PutAndRemove<K, V>(m: map<K, V>, k: K, v: V)
    requires k !in m
    ensures m[k := v] - {k} == m
  {}

  /** A client that epoll does not register is dropped again. */
  lemma OpenedAndForgotten(net: Net, d: Descriptor)
    requires d !in net.clients && net.lastId + 1 !in net.descriptors && net.lastId + 1 !in net.marked
    ensures var after := Forget(Opened(net, d), net.lastId + 1);
      after.clients == net.clients && after.descriptors == net.descriptors && after.marked == net.marked
  {
    PutAndRemove(net.clients, d, net.lastId + 1);
    PutAndRemove(net.descriptors, net.lastId + 1, d);
    assert net.marked - {net.lastId + 1} == net.marked;
  }

  lemma TurnedAway(env: Environment, g: Game, d: Descriptor)
    requires NetOk(env, g.net) && LinkOk(g) && d !in g.net.clients
    ensures var c, after := g.net.lastId + 1, CloseConnection(env, g.(net := Opened(g.net, d)), g.net.lastId + 1);
      && after.play == g.play && after.login == g.login
      && after.net.clients == g.net.clients && after.net.descriptors == g.net.descriptors && after.net.marked == g.net.marked
  {
    OpenedIsNew(env, g.net);
    OpenedAndForgotten(g.net, d);
    CloseUnbound(env, g.(net := Opened(g.net, d)), g.net.lastId + 1);
  }

  /** The client is taken if there is room for it and epoll registers it. */
  predicate Taken(env: Environment, g: Game, registered: bool) {
    |g.net.clients| < env.maximumConnections && registered
  }

  lemma AcceptUnfolds(env: Environment, g: Game, d: Descriptor, registered: bool)
    requires d !in g.net.clients
    ensures Step(env, g, Accepted(d, registered)) ==
      if Taken(env, g, registered) then g.(net := Opened(g.net, d))
      else if |g.net.clients| < env.maximumConnections
      then CloseConnection(env, g.(net := Opened(g.net, d)), g.net.lastId + 1)
      else g
  {
    RejectedRegistration(env, g, d);
  }

  /** A new client is taken, under the next connection id and with nothing sent to it yet, exactly if there
      is room for it and epoll registers it. */
  lemma AcceptedIfRoom(env: Environment, g: Game, d: Descriptor, registered: bool)
    requires Reachable(env, g) && d !in g.net.clients
    ensures var after, c := Step(env, g, Accepted(d, registered)), g.net.lastId + 1;
      && c !in g.net.descriptors && !TakesPart(g, c)
      && after.play == g.play && after.login == g.login && after.net.marked == g.net.marked
      && (if Taken(env, g, registered)
          then after.net.clients == g.net.clients[d := c] && after.net.descriptors == g.net.descriptors[c := d] && Sent(after.net, c) == []
          else after.net.clients == g.net.clients && after.net.descriptors == g.net.descriptors)
  {
    ReachableInv(env, g);
    OpenedIsNew(env, g.net);
    AcceptUnfolds(env, g, d, registered);
    TurnedAway(env, g, d);
  }

  /** The connection plays, or waits for a login. */
  predicate TakesPart(g: Game, c: ConnectionId) {
    c in g.play.bound || c in g.login.pendingConnections
  }

  /** A new player stands in the very middle of the map. */
  lemma NewPlayerStandsInTheMiddle(env: Environment, account: string, choice: Choice)
    ensures var player, aoi: AoiSettings := NewPlayer(env, account, choice), env.aoi;
      && player.account == account && player.playerId == choice.playerId && player.nickname == choice.nickname
      && player.x - aoi.minX == aoi.maxX - player.x && player.y - aoi.minY == aoi.maxY - player.y && player.z == 0.0
      && InMap(env.aoi, Position(player.x, player.y))
  {
    CentreInMap(env.aoi);
  }
}
