/** From the server's tables to the client's memory: the message logs of the game, carried as frames
    through the output buffer, the network and the client's decoder. */
module ClientSight {
  import opened AoiGrid
  import opened GameModel
  import opened Replication
  import opened ServerInvariants
  import opened ServerRuns
  import opened FrameFormat
  import opened FrameDecoding

  // ---------------------------------------------------------------- what the client makes of it

  function Messages(decode: Frame -> Message, frames: seq<Frame>): seq<Message> {
    seq(|frames|, i requires 0 <= i < |frames| => decode(frames[i]))
  }

  /** In every run, a socket has taken no more than the bytes of the messages queued to it, and no more
      of them wait than its buffer may hold. */
  lemma OutputIsBounded(env: Environment, g: Game, c: ConnectionId)
    requires Reachable(env, g) && 1 <= c <= g.net.lastId
    ensures Encodable(env, Sent(g.net, c))
    ensures Handed(g.net, c) + Pending(env, g.net, c) == |Wire(env, Sent(g.net, c))|
    ensures Pending(env, g.net, c) <= env.maximumPendingBytes
  {
    ReachableInv(env, g);
    assert c in g.net.sent && CarriedFor(env, g.net.sent, g.net.handed, c);
  }

  /** The bytes that the socket of `c` took: the first of those of the messages queued to it. */
  function TakenBySocket(env: Environment, net: Net, c: ConnectionId): seq<byte> {
    var wire := Wire(env, Sent(net, c));
    if Handed(net, c) <= |wire| then wire[..Handed(net, c)] else wire
  }

  /** A decoder that has been given part of a log's bytes has read a prefix of the log. */
  lemma ReadsAPrefix(env: Environment, log: seq<Message>, receiver: FrameDecoder, decode: Frame -> Message)
    requires Encodable(env, log) && forall i | 0 <= i < |log| :: decode(env.encode(log[i])) == log[i]
    requires receiver.Valid() && receiver.maxPayloadSize == DEFAULT_MAX_PAYLOAD_SIZE && receiver.received <= Wire(env, log)
    ensures !receiver.failed && Messages(decode, receiver.emitted) <= log
    ensures (receiver.received == Wire(env, log) && Parse(receiver.Unread(), receiver.maxPayloadSize).frames == []) ==>
      Messages(decode, receiver.emitted) == log
  {
    Tcp.DecodesAPrefix(receiver, Frames(env, log));
    assert forall i | 0 <= i < |receiver.emitted| :: receiver.emitted[i] == env.encode(log[i]);
  }

  /** Exactly the players in view of `p`, with their current nicknames and positions. */
  predicate IsTrueView(env: Environment, g: Game, p: PlayerId, known: Neighbours) {
    && known.Keys == Visible(env.aoi, g.play.world, p)
    && forall q | q in known :: q in g.play.online && known[q] == Seen(
         g.play.online[q].record.nickname, Position(g.play.online[q].record.x, g.play.online[q].record.y))
  }

  lemma LogTellsTheTruth(env: Environment, g: Game, p: PlayerId)
    requires Reachable(env, g) && p in g.play.online && g.play.online[p].connection !in g.net.marked
    ensures var c := g.play.online[p].connection;
      IsTrueView(env, g, p, ClientView(Sent(g.net, c))) && Encodable(env, Sent(g.net, c))
  {
    ReachableInv(env, g);
    OutputIsBounded(env, g, g.play.online[p].connection);
    ViewReplication(env, g, p);
  }

  lemma TakenIsPrefix(env: Environment, net: Net, c: ConnectionId)
    ensures TakenBySocket(env, net, c) <= Wire(env, Sent(net, c))
  {}

  /** In every run, however the bytes were cut up on their way, the client reads a prefix of what the
      server queued to its connection; and once everything has arrived, what it has pieced together
      from these messages is the true view of its player. */
  lemma ReplicationOverTheWire(env: Environment, g: Game, p: PlayerId, receiver: FrameDecoder, decode: Frame -> Message)
    requires Reachable(env, g) && p in g.play.online && g.play.online[p].connection !in g.net.marked
    requires receiver.Valid() && receiver.maxPayloadSize == DEFAULT_MAX_PAYLOAD_SIZE
    requires receiver.received <= TakenBySocket(env, g.net, g.play.online[p].connection)
    requires var log := Sent(g.net, g.play.online[p].connection);
      forall i | 0 <= i < |log| :: decode(env.encode(log[i])) == log[i]
    ensures var log := Sent(g.net, g.play.online[p].connection);
      && !receiver.failed && Messages(decode, receiver.emitted) <= log
      && (receiver.received == Wire(env, log) && Parse(receiver.Unread(), receiver.maxPayloadSize).frames == [] ==>
            IsTrueView(env, g, p, ClientView(Messages(decode, receiver.emitted))))
  {
    LogTellsTheTruth(env, g, p);
    TakenIsPrefix(env, g.net, g.play.online[p].connection);
    ReadsAPrefix(env, Sent(g.net, g.play.online[p].connection), receiver, decode);
  }
}
