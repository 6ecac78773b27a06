/** The connection objects of all clients, kept in step with what the game model says of them: for each
    connection the messages queued to it, and how many of their bytes its socket took. */
module ClientConnectionTables {
  import opened GameModel
  import opened FrameFormat
  import opened FrameDecoding

  /** The object holds what the model says. */
  ghost predicate Mirrors(sender: Tcp.TcpConnection, env: Environment, log: seq<Message>, handed: nat)
    reads sender, sender.decoder
  {
    && sender.Valid() && sender.maximumPendingBytes == env.maximumPendingBytes
    && sender.decoder.maxPayloadSize == DEFAULT_MAX_PAYLOAD_SIZE
    && sender.messages == Frames(env, log) && |sender.handed| == handed
  }

  lemma MirrorsPending(sender: Tcp.TcpConnection, env: Environment, net: Net, c: ConnectionId)
    requires Mirrors(sender, env, Sent(net, c), Handed(net, c))
    ensures sender.PendingBytes() == Pending(env, net, c)
  {
    assert Encodable(env, Sent(net, c)) by {
      assert forall i | 0 <= i < |Sent(net, c)| :: Legal(sender.messages[i], DEFAULT_MAX_PAYLOAD_SIZE);
    }
  }

  lemma FramesLast(env: Environment, log: seq<Message>, m: Message)
    ensures Frames(env, log + [m]) == Frames(env, log) + [env.encode(m)]
  {}

  /** One message on one object. */
  method Transmit(sender: Tcp.TcpConnection, env: Environment, ghost net: Net, offers: nat, c: ConnectionId, m: Message)
      returns (outcome: Tcp.SendOutcome)
    requires Mirrors(sender, env, Sent(net, c), Handed(net, c)) && net.offers == offers
    modifies sender
    ensures outcome == Offer(env, net, c, m).outcome
    ensures Mirrors(sender, env, if outcome == Tcp.Refused then Sent(net, c) else Sent(net, c) + [m],
                    Handed(net, c) + Offer(env, net, c, m).count)
  {
    MirrorsPending(sender, env, net, c);
    FramesLast(env, Sent(net, c), m);
    outcome := Tcp.SendFrame(sender, env.encode(m), env.sends(offers), env.interest(offers));
  }

  /** Flushing one object. */
  method FlushPending(sender: Tcp.TcpConnection, env: Environment, ghost net: Net, c: ConnectionId, script: seq<Tcp.SendResult>)
      returns (status: Tcp.IoStatus)
    requires Mirrors(sender, env, Sent(net, c), Handed(net, c))
    modifies sender
    ensures status == Tcp.Taken(script, Pending(env, net, c)).end
    ensures Mirrors(sender, env, Sent(net, c), Handed(Flush(env, net, c, script), c))
  {
    MirrorsPending(sender, env, net, c);
    status := sender.Flush(script);
  }

  class ClientConnections {
    const env: Environment
    // The object of a closed connection stays in the map, and is not used any more.
    var connections: map<ConnectionId, Tcp.TcpConnection>
    var offers: nat
    ghost var sent: map<ConnectionId, seq<Message>>
    ghost var handed: map<ConnectionId, nat>

    /** The tables as the part of the model's transport that they are. */
    ghost function Traffic(): Net
      reads this
    {
      Net(map[], map[], {}, 0, sent, handed, offers)
    }

    ghost function Decoders(): set<FrameDecoder>
      reads this`connections
    {
      set c | c in connections :: connections[c].decoder
    }

    ghost predicate InStep(c: ConnectionId)
      requires c in connections
      reads this`connections, this`sent, this`handed, connections[c], connections[c].decoder
    {
      c in sent && c in handed && Mirrors(connections[c], env, sent[c], handed[c])
    }

    predicate Apart(c: ConnectionId, d: ConnectionId)
      requires c in connections && d in connections
      reads this`connections
    {
      connections[c] != connections[d] && connections[c].decoder != connections[d].decoder
    }

    /** All objects are in step, and none share anything. */
    ghost predicate Valid()
      reads this`connections, this`sent, this`handed, connections.Values, Decoders()
    {
      && env.maximumPendingBytes > 0
      && (forall c {:trigger InStep(c)} | c in connections :: InStep(c))
      && AllApart()
    }

    predicate AllApart()
      reads this`connections
    {
      forall c, d {:trigger Apart(c, d)} | c in connections && d in connections && c != d :: Apart(c, d)
    }

    constructor (env: Environment)
      requires env.maximumPendingBytes > 0
      ensures Valid() && this.env == env && connections == map[] && sent == map[] && handed == map[] && offers == 0
    {
      this.env := env;
      connections, offers, sent, handed := map[], 0, map[], map[];
    }

    /** A new connection. */
    method Open(c: ConnectionId)
      requires Valid()
      modifies `connections, `sent, `handed
      ensures Valid() && sent == old(sent)[c := []] && handed == old(handed)[c := 0]
      ensures c in connections && connections == old(connections)[c := connections[c]]
      ensures fresh(connections[c]) && fresh(connections[c].decoder)
      ensures connections[c].Drained() && connections[c].decoder.received == []
    {
      var connection := new Tcp.TcpConnection(env.maximumPendingBytes);
      Register(c, connection);
    }

    /** Puts a fresh object, which nobody else knows, into the table. */
    method Register(c: ConnectionId, connection: Tcp.TcpConnection)
      requires Valid() && Mirrors(connection, env, [], 0)
      requires connection !in connections.Values && connection.decoder !in Decoders()
      modifies `connections, `sent, `handed
      ensures Valid() && sent == old(sent)[c := []] && handed == old(handed)[c := 0]
      ensures connections == old(connections)[c := connection]
    {
      ghost var before := connections;
      connections := connections[c := connection];
      sent, handed := sent[c := []], handed[c := 0];
      forall d | d in connections
        ensures InStep(d)
      {
        assert d != c ==> d in before && old(InStep(d));
      }
      forall d, e | d in connections && e in connections && d != e
        ensures Apart(d, e)
      {
        assert d in before && e in before ==> old(Apart(d, e));
        assert d in before ==> before[d].decoder in old(Decoders());
        assert e in before ==> before[e].decoder in old(Decoders());
      }
    }

    /** Notes what the object of `c` now holds. */
    ghost method Note(c: ConnectionId, log: seq<Message>, count: nat)
      requires c in connections && env.maximumPendingBytes > 0 && AllApart()
      requires forall d {:trigger InStep(d)} | d in connections && d != c :: InStep(d)
      requires Mirrors(connections[c], env, log, count)
      modifies `sent, `handed
      ensures Valid() && sent == old(sent)[c := log] && handed == old(handed)[c := count]
    {
      sent, handed := sent[c := log], handed[c := count];
      forall d | d in connections
        ensures InStep(d)
      {
        assert d != c ==> old(InStep(d));
      }
    }

    /** The traffic after a message that was in step with its log has been offered. */
    lemma PostedAs(net: Net, c: ConnectionId, m: Message, offer: Tcp.Transmission)
      requires c in net.sent && c in net.handed
      ensures var after := Posted(net, c, m, offer);
        && after.sent == net.sent[c := if offer.outcome == Tcp.Refused then net.sent[c] else net.sent[c] + [m]]
        && after.handed == net.handed[c := net.handed[c] + offer.count] && after.offers == net.offers + 1
    {
      assert net.sent[c := net.sent[c]] == net.sent;
    }

    /** The object's part of sending: afterwards it holds `log`, and its socket has taken `count` bytes. */
    method TransmitOn(c: ConnectionId, m: Message)
        returns (outcome: Tcp.SendOutcome, ghost offer: Tcp.Transmission, ghost log: seq<Message>, ghost count: nat)
      requires Valid() && c in connections
      modifies connections[c]
      ensures offer == Offer(env, Traffic(), c, m) && outcome == offer.outcome
      ensures c in sent && log == if outcome == Tcp.Refused then sent[c] else sent[c] + [m]
      ensures c in handed && count == handed[c] + offer.count
      ensures Mirrors(connections[c], env, log, count)
      ensures forall d {:trigger InStep(d)} | d in connections && d != c :: InStep(d)
    {
      assert InStep(c);
      offer := Offer(env, Traffic(), c, m);
      outcome := Transmit(connections[c], env, Traffic(), offers, c, m);
      log, count := if outcome == Tcp.Refused then sent[c] else sent[c] + [m], handed[c] + offer.count;
      forall d | d in connections && d != c
        ensures InStep(d)
      {
        assert old(InStep(d)) && Apart(c, d);
      }
    }

    method SendOn(c: ConnectionId, m: Message)
        returns (outcome: Tcp.SendOutcome, ghost offer: Tcp.Transmission, ghost log: seq<Message>, ghost count: nat)
      requires Valid() && c in connections
      modifies `offers, `sent, `handed, connections[c]
      ensures Valid() && sent == old(sent)[c := log] && handed == old(handed)[c := count] && offers == old(offers) + 1
      ensures offer == Offer(env, old(Traffic()), c, m) && outcome == offer.outcome
      ensures c in old(sent) && log == if outcome == Tcp.Refused then old(sent)[c] else old(sent)[c] + [m]
      ensures c in old(handed) && count == old(handed)[c] + offer.count
    {
      outcome, offer, log, count := TransmitOn(c, m);
      Note(c, log, count);
      offers := offers + 1;
    }

    /** A message is encoded, queued and flushed. */
    method Send(c: ConnectionId, m: Message) returns (outcome: Tcp.SendOutcome)
      requires Valid() && c in connections
      modifies `offers, `sent, `handed, connections[c]
      ensures Valid()
      ensures outcome == Offer(env, old(Traffic()), c, m).outcome
      ensures var after := Posted(old(Traffic()), c, m, Offer(env, old(Traffic()), c, m));
        sent == after.sent && handed == after.handed && offers == after.offers
    {
      ghost var offer, log, count;
      outcome, offer, log, count := SendOn(c, m);
      PostedAs(old(Traffic()), c, m, offer);
    }

    /** What is pending is flushed. */
    method Flush(c: ConnectionId, script: seq<Tcp.SendResult>) returns (status: Tcp.IoStatus)
      requires Valid() && c in connections
      modifies `sent, `handed, connections[c]
      ensures Valid() && sent == old(sent)
      ensures status == Tcp.Taken(script, Pending(env, old(Traffic()), c)).end
      ensures handed == GameModel.Flush(env, old(Traffic()), c, script).handed
    {
      ghost var before := Traffic();
      assert InStep(c);
      status := FlushPending(connections[c], env, before, c, script);
      forall d | d in connections && d != c
        ensures InStep(d)
      {
        assert old(InStep(d)) && Apart(c, d);
      }
      Note(c, sent[c], Handed(GameModel.Flush(env, before, c, script), c));
      assert old(sent)[c := old(sent)[c]] == old(sent);
    }

    /** What has arrived is read and decoded. */
    method ReadAvailable(c: ConnectionId, script: seq<Tcp.RecvResult>) returns (status: Tcp.IoStatus, frames: seq<Frame>)
      requires Valid() && c in connections && connections[c].Drained()
      modifies connections[c].decoder
      ensures Valid()
      ensures Tcp.Reading(frames, status) == Tcp.Read(DEFAULT_MAX_PAYLOAD_SIZE, old(connections[c].decoder.received), script)
      ensures status != Tcp.IoError ==> connections[c].Drained()
      ensures status != Tcp.IoError ==>
        connections[c].decoder.received == old(connections[c].decoder.received) + Tcp.Incoming(script).bytes
    {
      assert InStep(c);
      status, frames := connections[c].ReadAvailable(script);
      forall d | d in connections
        ensures InStep(d)
      {
        assert d != c ==> old(InStep(d)) && old(Apart(c, d));
      }
    }
  }
}
