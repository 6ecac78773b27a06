/** What holds of the server's tables after every event. */
module ServerInvariants {
  import opened AoiGrid
  import opened FrameFormat
  import opened GameModel
  import opened Replication
  import opened ViewChanges

  // ---------------------------------------------------------------- the transport

  predicate Inverses(clients: map<Descriptor, ConnectionId>, descriptors: map<ConnectionId, Descriptor>) {
    && (forall c | c in descriptors :: descriptors[c] in clients && clients[descriptors[c]] == c)
    && (forall d | d in clients :: clients[d] in descriptors && descriptors[clients[d]] == d)
  }

  /** All messages of the log encode, and all their bytes but a bounded number have been handed over. */
  predicate Carried(env: Environment, log: seq<Message>, handed: nat) {
    Encodable(env, log) && handed <= |Wire(env, log)| <= handed + env.maximumPendingBytes
  }

  lemma WireLast(env: Environment, log: seq<Message>, m: Message)
    requires Encodable(env, log) && Legal(env.encode(m), DEFAULT_MAX_PAYLOAD_SIZE)
    ensures Encodable(env, log + [m])
    ensures |Wire(env, log + [m])| == |Wire(env, log)| + |Encoding(env.encode(m))|
  {
    assert Frames(env, log + [m]) == Frames(env, log) + [env.encode(m)];
    EncodeOne(env.encode(m));
    EncodeAllAppend(Frames(env, log), [env.encode(m)]);
  }

  lemma OfferCarries(env: Environment, net: Net, c: ConnectionId, m: Message)
    requires Carried(env, Sent(net, c), Handed(net, c))
    ensures var offer := Offer(env, net, c, m);
      Carried(env, if offer.outcome == Tcp.Refused then Sent(net, c) else Sent(net, c) + [m], Handed(net, c) + offer.count)
  {
    if Offer(env, net, c, m).outcome != Tcp.Refused {
      WireLast(env, Sent(net, c), m);
    }
  }

  predicate CarriedFor(env: Environment, sent: map<ConnectionId, seq<Message>>, handed: map<ConnectionId, nat>, c: ConnectionId) {
    c in sent && c in handed && Carried(env, sent[c], handed[c])
  }

  /** Every connection ever opened has a log, carried but for what its buffer may hold. */
  ghost predicate LogsOk(env: Environment, sent: map<ConnectionId, seq<Message>>, handed: map<ConnectionId, nat>, lastId: nat) {
    && (forall c :: c in sent <==> 1 <= c <= lastId)
    && (forall c {:trigger CarriedFor(env, sent, handed, c)} :: c in sent ==> CarriedFor(env, sent, handed, c))
  }

  lemma SendKeepsLogs(env: Environment, net: Net, c: ConnectionId, m: Message)
    requires LogsOk(env, net.sent, net.handed, net.lastId) && net.descriptors.Keys <= net.sent.Keys
    ensures var after := Send(env, net, c, m); LogsOk(env, after.sent, after.handed, after.lastId)
  {
    var after := Send(env, net, c, m);
    if c in net.descriptors {
      assert CarriedFor(env, net.sent, net.handed, c);
      OfferCarries(env, net, c, m);
    }
    forall d | d in after.sent
      ensures CarriedFor(env, after.sent, after.handed, d)
    {
      assert d in net.sent ==> CarriedFor(env, net.sent, net.handed, d);
    }
  }

  /** `clients_` and `connection_descriptors_` are inverses and bounded, only live connections are
      marked, connection ids are handed out once, and only messages that encode are queued. */
  ghost predicate NetOk(env: Environment, net: Net) {
    && Inverses(net.clients, net.descriptors)
    && net.marked <= net.descriptors.Keys
    && LogsOk(env, net.sent, net.handed, net.lastId)
    && net.descriptors.Keys <= net.sent.Keys
    && |net.clients| <= env.maximumConnections
  }

  /** Sending changes no table except by marking live connections. */
  predicate OnlySent(before: Net, after: Net) {
    && after.clients == before.clients && after.descriptors == before.descriptors && after.lastId == before.lastId
    && before.marked <= after.marked <= before.marked + before.descriptors.Keys
    && after.sent.Keys == before.sent.Keys
  }

  lemma {:induction false} SendEachKeeps(env: Environment, net: Net, out: seq<Outgoing>)
    requires NetOk(env, net)
    ensures OnlySent(net, SendEach(env, net, out)) && NetOk(env, SendEach(env, net, out))
    decreases |out|
  {
    if out != [] {
      var front, last := out[..|out| - 1], out[|out| - 1];
      SendEachKeeps(env, net, front);
      SendKeepsLogs(env, SendEach(env, net, front), last.to, last.message);
    }
  }

  /** A failed send marks its connection: a live connection that is not marked afterwards has been
      sent its whole inbox. */
  lemma {:induction false} SendEachDelivers(env: Environment, net: Net, out: seq<Outgoing>, c: ConnectionId)
    requires NetOk(env, net) && c in net.descriptors && c !in SendEach(env, net, out).marked
    ensures Sent(SendEach(env, net, out), c) == Sent(net, c) + Inbox(out, c)
    decreases |out|
  {
    if out == [] {
      assert Sent(net, c) + [] == Sent(net, c);
    } else {
      var front, last := out[..|out| - 1], out[|out| - 1];
      SendEachKeeps(env, net, front);
      SendEachDelivers(env, net, front, c);
      if last.to == c {
        assert (Sent(net, c) + Inbox(front, c)) + [last.message] == Sent(net, c) + (Inbox(front, c) + [last.message]);
      } else {
        assert Inbox(front, c) + [] == Inbox(front, c);
      }
    }
  }

  /** Successful login responses, or login responses of either kind. */
  datatype Kind = Welcome | Response

  predicate Is(kind: Kind, m: Message) {
    m.LoginAccepted? || (kind == Response && m.LoginRefused?)
  }

  function Count(kind: Kind, log: seq<Message>): nat {
    if log == [] then 0 else Count(kind, log[..|log| - 1]) + (if Is(kind, log[|log| - 1]) then 1 else 0)
  }

  lemma CountLast(kind: Kind, log: seq<Message>, m: Message)
    ensures Count(kind, log + [m]) == Count(kind, log) + (if Is(kind, m) then 1 else 0)
  {
    assert (log + [m])[..|log|] == log;
  }

  lemma {:induction false} CountConcat(kind: Kind, a: seq<Message>, b: seq<Message>)
    ensures Count(kind, a + b) == Count(kind, a) + Count(kind, b)
    decreases |b|
  {
    if b == [] {
      assert a + b == a;
    } else {
      assert (a + b)[..|a + b| - 1] == a + b[..|b| - 1];
      CountConcat(kind, a, b[..|b| - 1]);
    }
  }

  lemma SendCount(env: Environment, net: Net, o: Outgoing, c: ConnectionId, kind: Kind)
    ensures Count(kind, Sent(Send(env, net, o.to, o.message), c)) <=
      Count(kind, Sent(net, c)) + (if o.to == c && Is(kind, o.message) then 1 else 0)
  {
    CountLast(kind, Sent(net, c), o.message);
  }

  lemma {:induction false} SendEachCount(env: Environment, net: Net, out: seq<Outgoing>, c: ConnectionId, kind: Kind)
    ensures Count(kind, Sent(SendEach(env, net, out), c)) <= Count(kind, Sent(net, c)) + Count(kind, Inbox(out, c))
    decreases |out|
  {
    if out != [] {
      var front, last := out[..|out| - 1], out[|out| - 1];
      SendEachCount(env, net, front, c, kind);
      SendCount(env, SendEach(env, net, front), last, c, kind);
      CountLast(kind, Inbox(front, c), last.message);
      assert Inbox(front, c) + [] == Inbox(front, c);
    }
  }

  lemma {:induction false} SendEachSkipsDead(env: Environment, net: Net, out: seq<Outgoing>, c: ConnectionId)
    requires NetOk(env, net) && c !in net.descriptors
    ensures Sent(SendEach(env, net, out), c) == Sent(net, c)
    decreases |out|
  {
    if out != [] {
      SendEachKeeps(env, net, out[..|out| - 1]);
      SendEachSkipsDead(env, net, out[..|out| - 1], c);
    }
  }

  predicate NoneOf(kind: Kind, out: seq<Outgoing>) {
    forall i | 0 <= i < |out| :: !Is(kind, out[i].message)
  }

  lemma {:induction false} NoneInInbox(kind: Kind, out: seq<Outgoing>, c: ConnectionId)
    requires NoneOf(kind, out)
    ensures Count(kind, Inbox(out, c)) == 0
    decreases |out|
  {
    if out != [] {
      var front, last := out[..|out| - 1], out[|out| - 1];
      NoneInInbox(kind, front, c);
      CountLast(kind, Inbox(front, c), last.message);
      assert Inbox(front, c) + [] == Inbox(front, c);
    }
  }

  lemma {:induction false} BroadcastHasNone(kind: Kind, online: map<PlayerId, OnlinePlayer>, ids: seq<PlayerId>, m: Message)
    requires !Is(kind, m)
    ensures NoneOf(kind, Broadcast(online, ids, m))
    decreases |ids|
  {
    if ids != [] {
      BroadcastHasNone(kind, online, ids[..|ids| - 1], m);
    }
  }

  lemma {:induction false} ExchangeHasNone(kind: Kind, online: map<PlayerId, OnlinePlayer>, ids: seq<PlayerId>,
                                           mover: PlayerRecord, c: ConnectionId, entering: bool)
    ensures NoneOf(kind, Exchange(online, ids, mover, c, entering))
    decreases |ids|
  {
    if ids != [] {
      ExchangeHasNone(kind, online, ids[..|ids| - 1], mover, c, entering);
    }
  }

  lemma MoveHasNone(kind: Kind, aoi: AoiConfig, play: Play, p: PlayerId, at: Position)
    requires p in play.online
    ensures NoneOf(kind, MoveNews(aoi, play, p, at))
  {
    var after := Relocated(play, p, at);
    var before, now := Visible(aoi, play.world, p), Visible(aoi, after.world, p);
    BroadcastHasNone(kind, after.online, Ascending(before * now), PlayerMove(p, at));
    ExchangeHasNone(kind, after.online, Ascending(now - before), after.online[p].record, after.online[p].connection, true);
    ExchangeHasNone(kind, after.online, Ascending(before - now), after.online[p].record, after.online[p].connection, false);
  }

  /** Messages that teach a client nothing about its neighbours. */
  predicate Idle(m: Message) {
    m.LoginRefused? || m.ChatBroadcast? || m.Heartbeat?
  }

  predicate AllIdle(out: seq<Outgoing>) {
    forall i | 0 <= i < |out| :: Idle(out[i].message)
  }

  lemma {:induction false} IdleInbox(known: Neighbours, out: seq<Outgoing>, c: ConnectionId)
    requires AllIdle(out)
    ensures LearnAll(known, Inbox(out, c)) == known
    decreases |out|
  {
    if out != [] {
      var front, last := out[..|out| - 1], out[|out| - 1];
      IdleInbox(known, front, c);
      if last.to == c {
        LearnLast(known, Inbox(front, c), last.message);
      } else {
        assert Inbox(front, c) + [] == Inbox(front, c);
      }
    }
  }

  lemma {:induction false} BroadcastIdle(online: map<PlayerId, OnlinePlayer>, ids: seq<PlayerId>, m: Message)
    requires Idle(m)
    ensures AllIdle(Broadcast(online, ids, m))
    decreases |ids|
  {
    if ids != [] {
      BroadcastIdle(online, ids[..|ids| - 1], m);
    }
  }

  // ---------------------------------------------------------------- the invariant

  /** Bound and pending connections are alive, and no connection is both. */
  predicate LinkOk(g: Game) {
    && g.play.bound.Keys <= g.net.descriptors.Keys
    && g.login.pendingConnections.Keys <= g.net.descriptors.Keys
    && g.play.bound.Keys !! g.login.pendingConnections.Keys
  }

  /** View replication: whoever is online on a connection not marked for close knows exactly the
      players it can see, with their current nicknames and positions. */
  predicate Replicated(env: Environment, play: Play, net: Net) {
    forall p | p in play.online && play.online[p].connection !in net.marked ::
      ClientView(Sent(net, play.online[p].connection)) == TrueView(env.aoi, play, p)
  }

  /** Every connection is welcomed at most once in its life, and not before it is bound. */
  predicate Greeted(g: Game) {
    forall c | c in g.net.sent ::
      && Count(Welcome, g.net.sent[c]) <= 1
      && (c in g.net.descriptors && c !in g.play.bound ==> Count(Welcome, g.net.sent[c]) == 0)
  }

  ghost predicate Consistent(env: Environment, g: Game) {
    && NetOk(env, g.net) && PlayOk(env.aoi, g.play) && LinkOk(g)
    && Replicated(env, g.play, g.net) && Greeted(g)
  }

  /** Replication after a batch of messages, given what each online player's inbox teaches it. */
  lemma Publish(env: Environment, play: Play, net: Net, after: Play, out: seq<Outgoing>)
    requires NetOk(env, net)
    requires forall p | p in after.online :: after.online[p].connection in net.descriptors
    requires forall p | p in after.online && after.online[p].connection !in net.marked ::
      LearnAll(ClientView(Sent(net, after.online[p].connection)), Inbox(out, after.online[p].connection)) == TrueView(env.aoi, after, p)
    ensures Replicated(env, after, SendEach(env, net, out))
  {
    var net' := SendEach(env, net, out);
    SendEachKeeps(env, net, out);
    forall p | p in after.online && after.online[p].connection !in net'.marked
      ensures ClientView(Sent(net', after.online[p].connection)) == TrueView(env.aoi, after, p)
    {
      var c := after.online[p].connection;
      SendEachDelivers(env, net, out, c);
      LearnConcat(map[], Sent(net, c), Inbox(out, c));
    }
  }

  lemma GreetedAfter(env: Environment, g: Game, out: seq<Outgoing>)
    requires NetOk(env, g.net) && Greeted(g) && NoneOf(Welcome, out)
    ensures Greeted(g.(net := SendEach(env, g.net, out)))
  {
    var net' := SendEach(env, g.net, out);
    SendEachKeeps(env, g.net, out);
    forall c | c in net'.sent
      ensures Count(Welcome, net'.sent[c]) <= Count(Welcome, g.net.sent[c])
    {
      SendEachCount(env, g.net, out, c, Welcome);
      NoneInInbox(Welcome, out, c);
    }
  }
}
