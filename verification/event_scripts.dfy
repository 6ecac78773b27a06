/** What one turn of the event loop brings in, as scripts, and what shutting down leaves. */
module EventScripts {
  import opened Wrappers
  import opened AoiGrid
  import opened FrameFormat
  import opened GameModel
  import opened ViewChanges
  import opened ServerInvariants
  import opened ServerSteps
  import opened LoginLocks
  import opened ServerRuns
  import opened Chat

  lemma RunSnoc(env: Environment, g: Game, events: seq<Event>, e: Event)
    ensures Run(env, g, events + [e]) == Step(env, Run(env, g, events), e)
  {
    assert (events + [e])[..|events|] == events;
  }

  lemma RunInv(env: Environment, events: seq<Event>)
    ensures Inv(env, Run(env, EMPTY, events))
  {
    EmptyConsistent(env);
    RunKeepsInv(env, EMPTY, events);
  }

  /** Each close of a marked connection leaves fewer live ones, and forgets only its own mark. */
  lemma CloseProgress(env: Environment, g: Game, c: ConnectionId)
    requires Inv(env, g) && c in g.net.marked
    ensures var after := CloseConnection(env, g, c);
      && after.net.descriptors == g.net.descriptors - {c} && |after.net.descriptors| < |g.net.descriptors|
      && g.net.marked - {c} <= after.net.marked
  {
    CloseShrinks(env, g, c);
    SubsetSize(g.net.descriptors.Keys - {c}, g.net.descriptors.Keys);
    CloseUnfolds(env, g, c);
    if c in g.play.bound {
      SendEachKeeps(env, g.net, DepartureNews(env.aoi, g.play, g.play.bound[c]));
    }
  }

  // ---------------------------------------------------------------- what the event loop relies on

  /** The view of an online player exists, which the code takes for granted. */
  predicate OnlineInWorld(play: Play) {
    play.online.Keys <= play.world.Keys
  }

  lemma RunOnlineInWorld(env: Environment, events: seq<Event>)
    ensures OnlineInWorld(Run(env, EMPTY, events).play)
  {
    RunInv(env, events);
  }

  lemma RunNetOk(env: Environment, events: seq<Event>)
    ensures var net := Run(env, EMPTY, events).net; Inverses(net.clients, net.descriptors) && net.marked <= net.descriptors.Keys
  {
    RunInv(env, events);
  }

  lemma RunCloses(env: Environment, events: seq<Event>, c: ConnectionId)
    ensures var before := Run(env, EMPTY, events);
      var after := CloseConnection(env, before, c);
      && after.net.descriptors == before.net.descriptors - {c}
      && (c in before.net.marked ==> |after.net.descriptors| < |before.net.descriptors| && before.net.marked - {c} <= after.net.marked)
  {
    RunInv(env, events);
    var before := Run(env, EMPTY, events);
    CloseShrinks(env, before, c);
    if c in before.net.marked {
      CloseProgress(env, before, c);
    }
  }

  lemma RunAccepts(env: Environment, events: seq<Event>, d: Descriptor, registered: bool)
    ensures var before := Run(env, EMPTY, events);
      before.net.marked == {} && d !in before.net.clients ==> Accept(env, before, d, registered).net.marked == {}
  {
    RunInv(env, events);
    var before := Run(env, EMPTY, events);
    if before.net.marked == {} && d !in before.net.clients {
      AcceptMarks(env, before, d, registered);
    }
  }

  lemma RunHandles(env: Environment, events: seq<Event>, c: ConnectionId, request: Request, order: seq<PlayerId>)
    ensures var before := Run(env, EMPTY, events);
      IsConnected(before.net, c) ==> !Rewires(before.net, HandleFrame(env, before, c, request, order).net)
  {
    RunInv(env, events);
    var before := Run(env, EMPTY, events);
    if IsConnected(before.net, c) {
      FrameRewiresNothing(env, before, c, request, order);
    }
  }

  // ---------------------------------------------------------------- what a turn brings in

  /** A descriptor returned by accept4, and whether epoll registers it. */
  datatype Arrival = Arrival(descriptor: Descriptor, registered: bool)

  /** accept4 never returns a descriptor that is still open. */
  ghost predicate Fresh(env: Environment, g: Game, arrivals: seq<Arrival>)
    decreases |arrivals|
  {
    arrivals == [] ||
    (arrivals[0].descriptor !in g.net.clients &&
     Fresh(env, Accept(env, g, arrivals[0].descriptor, arrivals[0].registered), arrivals[1..]))
  }

  /** `trace` continues `before` by accepting these arrivals in order. */
  predicate Accepts(trace: seq<Event>, before: seq<Event>, arrivals: seq<Arrival>) {
    && before <= trace && |trace| == |before| + |arrivals|
    && forall i | |before| <= i < |trace| ::
         var next := arrivals[i - |before|]; trace[i] == Accepted(next.descriptor, next.registered)
  }

  lemma AcceptsOneMore(trace: seq<Event>, middle: seq<Event>, before: seq<Event>, arrivals: seq<Arrival>, i: nat)
    requires i < |arrivals| && Accepts(middle, before, arrivals[..i])
    requires trace == middle + [Accepted(arrivals[i].descriptor, arrivals[i].registered)]
    ensures Accepts(trace, before, arrivals[..i + 1])
  {}

  lemma FreshNext(env: Environment, g: Game, arrivals: seq<Arrival>, i: nat)
    requires i < |arrivals| && Fresh(env, g, arrivals[i..])
    ensures arrivals[i].descriptor !in g.net.clients
    ensures Fresh(env, Accept(env, g, arrivals[i].descriptor, arrivals[i].registered), arrivals[i + 1..])
  {
    assert arrivals[i..][0] == arrivals[i] && arrivals[i..][1..] == arrivals[i + 1..];
  }

  lemma AcceptMarks(env: Environment, g: Game, d: Descriptor, registered: bool)
    requires Inv(env, g) && g.net.marked == {} && d !in g.net.clients
    ensures Accept(env, g, d, registered).net.marked == {}
  {
    if |g.net.clients| < env.maximumConnections && !registered {
      RejectedRegistration(env, g, d);
      var c := g.net.lastId + 1;
      assert c !in g.net.sent;
      CloseUnbound(env, g.(net := Opened(g.net, d)), c);
    }
  }

  /** What epoll reports of a client, and what the socket and epoll answer to the calls made in
      response. */
  datatype Readiness = Readiness(
    hangup: bool,                  // EPOLLERR or EPOLLHUP
    peerShutdown: bool,            // EPOLLRDHUP
    readable: bool,                // EPOLLIN
    arriving: seq<Tcp.RecvResult>,
    writable: bool,                // EPOLLOUT
    sends: seq<Tcp.SendResult>,
    interestUpdated: bool          // whether epoll accepts the new interest set
  )

  /** What reading gives on a connection whose decoder has been given `before`. */
  function Reading(ready: Readiness, before: seq<byte>): (reading: Tcp.Reading)
    ensures !ready.readable ==> reading.frames == [] && reading.status == Tcp.Open
    ensures ready.readable ==> reading == Tcp.Read(DEFAULT_MAX_PAYLOAD_SIZE, before, ready.arriving)
  {
    if ready.readable then Tcp.Read(DEFAULT_MAX_PAYLOAD_SIZE, before, ready.arriving) else Tcp.Reading([], Tcp.Open)
  }

  /** The frames that are handed to the game: none of those read before a failure. */
  function Requests(env: Environment, reading: Tcp.Reading): (requests: seq<Request>)
    ensures |requests| == if reading.status.Open? || reading.status.PeerClosed? then |reading.frames| else 0
    ensures forall i | 0 <= i < |requests| :: requests[i] == env.decode(reading.frames[i])
  {
    if reading.status == Tcp.ProtocolError || reading.status == Tcp.IoError then []
    else seq(|reading.frames|, i requires 0 <= i < |reading.frames| => env.decode(reading.frames[i]))
  }

  /** If the event is chat to be sent on, it goes to everybody online. */
  ghost predicate ReachesEveryone(env: Environment, g: Game, e: Event) {
    e.Handled? && e.request.ChatFrame? && MayChat(env, g, e.connection, e.request.text) ==> Everyone(g.play.online, e.order)
  }

  /** How one trace continues another: by handing these frames of `c`, in order, to the game, each while
      `c` is connected. */
  ghost predicate Hands(env: Environment, trace: seq<Event>, before: seq<Event>, c: ConnectionId, frames: seq<Request>) {
    && before <= trace && |trace| == |before| + |frames|
    && forall i | |before| <= i < |trace| ::
         && trace[i].Handled? && trace[i].connection == c && trace[i].request == frames[i - |before|]
         && IsConnected(Run(env, EMPTY, trace[..i]).net, c) && ReachesEveryone(env, Run(env, EMPTY, trace[..i]), trace[i])
  }

  lemma HandsOne(env: Environment, before: seq<Event>, e: Event)
    requires e.Handled? && IsConnected(Run(env, EMPTY, before).net, e.connection) && ReachesEveryone(env, Run(env, EMPTY, before), e)
    ensures Hands(env, before + [e], before, e.connection, [e.request])
  {
    assert (before + [e])[..|before|] == before;
  }

  lemma HandsOneMore(env: Environment, trace: seq<Event>, middle: seq<Event>, before: seq<Event>, c: ConnectionId, frames: seq<Request>, i: nat)
    requires i < |frames| && Hands(env, middle, before, c, frames[..i]) && Hands(env, trace, middle, c, [frames[i]])
    ensures Hands(env, trace, before, c, frames[..i + 1])
  {
    forall k | |before| <= k < |trace|
      ensures trace[k].Handled? && trace[k].connection == c && trace[k].request == frames[..i + 1][k - |before|]
      ensures IsConnected(Run(env, EMPTY, trace[..k]).net, c) && ReachesEveryone(env, Run(env, EMPTY, trace[..k]), trace[k])
    {
      if k < |middle| {
        assert trace[k] == middle[k] && trace[..k] == middle[..k];
      }
    }
  }

  predicate Closes(trace: seq<Event>, before: seq<Event>) {
    before <= trace && forall i | |before| <= i < |trace| :: trace[i].Closed?
  }

  predicate Rewires(before: Net, after: Net) {
    exists c :: c in after.descriptors && !(c in before.descriptors && after.descriptors[c] == before.descriptors[c])
  }

  lemma SendsRewireNothing(env: Environment, net: Net, out: seq<Outgoing>)
    requires NetOk(env, net)
    ensures !Rewires(net, SendEach(env, net, out))
  {
    SendEachKeeps(env, net, out);
  }

  lemma LoginRewiresNothing(env: Environment, g: Game, c: ConnectionId, request: Option<LoginRequest>)
    ensures !Rewires(g.net, HandleLogin(env, g, c, request).net)
  {}

  lemma MoveRewiresNothing(env: Environment, g: Game, c: ConnectionId, target: Option<Position>)
    requires Consistent(env, g)
    ensures !Rewires(g.net, HandleMove(env, g, c, target).net)
  {
    if c in g.play.bound && target.Some? && InMap(env.aoi, target.value) {
      SendsRewireNothing(env, g.net, MoveNews(env.aoi, g.play, g.play.bound[c], target.value));
    }
  }

  lemma CloseRewiresNothing(env: Environment, g: Game, c: ConnectionId)
    requires Consistent(env, g)
    ensures !Rewires(g.net, CloseConnection(env, g, c).net)
  {
    CloseShrinks(env, g, c);
  }

  /** A frame may close connections, but moves none to another descriptor. */
  lemma FrameRewiresNothing(env: Environment, g: Game, c: ConnectionId, request: Request, order: seq<PlayerId>)
    requires Consistent(env, g) && IsConnected(g.net, c)
    ensures !Rewires(g.net, HandleFrame(env, g, c, request, order).net)
  {
    match request
    case LoginFrame(login) => LoginRewiresNothing(env, g, c, login);
    case ChatFrame(text) => ChatRewiresNothing(env, g, c, text, order);
    case MoveFrame(target) => MoveRewiresNothing(env, g, c, target);
    case HeartbeatFrame(parsed) =>
    case OtherFrame => CloseRewiresNothing(env, g, c);
  }

  lemma ChatRewiresNothing(env: Environment, g: Game, c: ConnectionId, text: Option<string>, order: seq<PlayerId>)
    requires Consistent(env, g)
    ensures !Rewires(g.net, HandleChat(env, g, c, text, order).net)
  {
    if c in g.play.bound && text.Some? {
      var sender := g.play.online[g.play.bound[c]].record;
      SendsRewireNothing(env, g.net, Broadcast(g.play.online, order, ChatBroadcast(sender.playerId, sender.nickname, text.value)));
    }
  }

  /** One close after another, each of a connection that is marked at that moment. */
  ghost predicate ClosesMarked(env: Environment, trace: seq<Event>, before: seq<Event>) {
    && before <= trace
    && forall i | |before| <= i < |trace| :: trace[i].Closed? && trace[i].connection in Run(env, EMPTY, trace[..i]).net.marked
  }

  lemma ClosesOneMore(env: Environment, trace: seq<Event>, before: seq<Event>, c: ConnectionId)
    requires ClosesMarked(env, trace, before) && c in Run(env, EMPTY, trace).net.marked
    ensures ClosesMarked(env, trace + [Closed(c)], before)
  {
    var longer := trace + [Closed(c)];
    forall i | |before| <= i < |longer|
      ensures longer[i].Closed? && longer[i].connection in Run(env, EMPTY, longer[..i]).net.marked
    {
      assert longer[..i] == if i < |trace| then trace[..i] else trace;
    }
  }

  /** The first one closed was marked before. */
  lemma FirstIsMarked(env: Environment, trace: seq<Event>, before: seq<Event>)
    requires ClosesMarked(env, trace, before) && |before| < |trace|
    ensures trace[|before|].connection in Run(env, EMPTY, before).net.marked
  {
    assert trace[..|before|] == before;
  }

  /** With nothing marked nothing is closed. */
  lemma NothingToClose(env: Environment, trace: seq<Event>, before: seq<Event>)
    requires ClosesMarked(env, trace, before) && Run(env, EMPTY, before).net.marked == {}
    ensures trace == before
  {
    if |before| < |trace| {
      FirstIsMarked(env, trace, before);
    }
  }

  /** A live connection that is never marked on the way is not closed. */
  lemma {:induction false} OnlyMarkedAreClosed(env: Environment, trace: seq<Event>, before: seq<Event>, c: ConnectionId)
    requires ClosesMarked(env, trace, before) && c in Run(env, EMPTY, before).net.descriptors
    requires forall i | |before| <= i < |trace| :: c !in Run(env, EMPTY, trace[..i]).net.marked
    ensures c in Run(env, EMPTY, trace).net.descriptors
    decreases |trace|
  {
    if |trace| > |before| {
      var front := trace[..|trace| - 1];
      assert front[..|before|] == before;
      forall i | |before| <= i < |front|
        ensures front[i].Closed? && front[i].connection in Run(env, EMPTY, front[..i]).net.marked
        ensures c !in Run(env, EMPTY, front[..i]).net.marked
      {
        assert front[..i] == trace[..i] && front[i] == trace[i];
      }
      OnlyMarkedAreClosed(env, front, before, c);
      assert trace[|trace| - 1].connection in Run(env, EMPTY, trace[..|trace| - 1]).net.marked;
      RunInv(env, front);
      CloseShrinks(env, Run(env, EMPTY, front), trace[|trace| - 1].connection);
    } else {
      assert trace == before;
    }
  }

  /** What `ClientReady` does to a connection that is still alive when its frames have been handled:
      flushes it if epoll asks for it, and marks it if it is doomed. */
  function Aftermath(c: ConnectionId, ready: Readiness, doomed: bool): seq<Event> {
    (if ready.writable then [Flushed(c, ready.sends)] else []) + (if doomed then [Marked(c)] else [])
  }

  /** A connection is doomed if its socket is broken in any way: hung up, shut down, closed or failed while
      reading, failed while flushing, or refused by epoll. */
  ghost predicate Doomed(env: Environment, g: Game, c: ConnectionId, broken: bool, ready: Readiness) {
    broken || ready.peerShutdown || !ready.interestUpdated || (ready.writable && Tcp.Breaks(ready.sends, Pending(env, g.net, c)))
  }

  datatype Completion = Completion(ticket: Ticket, reply: Reply, choice: Choice)

  predicate Answers(g: Game, next: Completion) {
    next.ticket in g.login.inflight && Honest(g.login.inflight[next.ticket], next.reply)
  }

  /** Each completion answers a request still in flight. */
  ghost predicate Answerable(env: Environment, g: Game, batch: seq<Completion>)
    decreases |batch|
  {
    batch == [] ||
    (Answers(g, batch[0]) &&
     Answerable(env, Deliver(env, g, batch[0].ticket, batch[0].reply, batch[0].choice), batch[1..]))
  }

  predicate Delivers(trace: seq<Event>, before: seq<Event>, batch: seq<Completion>) {
    && before <= trace && |trace| == |before| + |batch|
    && forall i | |before| <= i < |trace| ::
         var next := batch[i - |before|]; trace[i] == Delivered(next.ticket, next.reply, next.choice)
  }

  lemma DeliversOneMore(trace: seq<Event>, middle: seq<Event>, before: seq<Event>, batch: seq<Completion>, i: nat)
    requires i < |batch| && Delivers(middle, before, batch[..i])
    requires trace == middle + [Delivered(batch[i].ticket, batch[i].reply, batch[i].choice)]
    ensures Delivers(trace, before, batch[..i + 1])
  {}

  lemma AnswerableNext(env: Environment, g: Game, batch: seq<Completion>, i: nat)
    requires i < |batch| && Answerable(env, g, batch[i..])
    ensures Answers(g, batch[i])
    ensures Answerable(env, Deliver(env, g, batch[i].ticket, batch[i].reply, batch[i].choice), batch[i + 1..])
  {
    assert batch[i..][0] == batch[i] && batch[i..][1..] == batch[i + 1..];
  }

  // ---------------------------------------------------------------- shutting down

  lemma RunNothingLeft(env: Environment, events: seq<Event>)
    ensures var g := Run(env, EMPTY, events);
      g.net.descriptors == map[] ==>
        && g.net.clients == map[] && g.net.marked == {} && g.play == EMPTY.play && g.login.pendingConnections == map[]
        && (g.login.inflight == map[] ==> g.login.pendingAccounts == {})
  {
    RunInv(env, events);
    if Run(env, EMPTY, events).net.descriptors == map[] {
      NothingLeft(env, Run(env, EMPTY, events));
    }
  }

  /** With no connection left, a callback can only give its login up: it starts no request, sends
      nothing and lets nobody in. */
  lemma CallbackAfterTheLastClose(env: Environment, g: Game, ticket: Ticket, reply: Reply, choice: Choice)
    requires g.net.descriptors == map[]
    requires ticket in g.login.inflight && Honest(g.login.inflight[ticket], reply)
    ensures var after := Deliver(env, g, ticket, reply, choice);
      after.net == g.net && after.play == g.play && after.login.inflight == g.login.inflight - {ticket}
  {}

  /** So running the callbacks of all that is in flight leaves nothing in flight. */
  lemma {:induction false} CallbacksAfterTheLastClose(env: Environment, before: seq<Event>, trace: seq<Event>, batch: seq<Completion>)
    requires Delivers(trace, before, batch)
    requires var g := Run(env, EMPTY, before); g.net.descriptors == map[] && Answerable(env, g, batch)
    ensures var g, after := Run(env, EMPTY, before), Run(env, EMPTY, trace);
      && after.net == g.net && after.play == g.play
      && forall t :: t in after.login.inflight <==> t in g.login.inflight && forall i | 0 <= i < |batch| :: batch[i].ticket != t
    decreases |batch|
  {
    if batch == [] {
      assert trace == before;
    } else {
      var next := batch[0];
      var g := Run(env, EMPTY, before);
      CallbackAfterTheLastClose(env, g, next.ticket, next.reply, next.choice);
      var one := before + [Delivered(next.ticket, next.reply, next.choice)];
      RunSnoc(env, EMPTY, before, Delivered(next.ticket, next.reply, next.choice));
      CallbacksAfterTheLastClose(env, one, trace, batch[1..]);
    }
  }

  /** No connection and no request left means nothing left at all. */
  lemma NothingLeft(env: Environment, g: Game)
    requires Inv(env, g) && g.net.descriptors == map[]
    ensures g.net.clients == map[] && g.net.marked == {}
    ensures g.play == EMPTY.play && g.login.pendingConnections == map[]
    ensures g.login.inflight == map[] ==> g.login.pendingAccounts == {}
  {
    assert forall d :: d !in g.net.clients;
    assert g.play.bound.Keys == {};
    assert forall p :: p in g.play.online ==> g.play.bound.Keys != {};
    assert g.play.online.Keys == {} && g.play.world.Keys == {};
    assert g.login.pendingConnections.Keys == {};
    assert forall a :: a in g.login.pendingAccounts ==> g.login.inflight.Keys != {} by {
      assert forall a | a in g.login.pendingAccounts :: Claimed(g.login, a);
    }
  }
}
