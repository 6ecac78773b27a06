/** One client socket: decoded input on one side, a bounded and partially flushed output buffer
    on the other.  What the kernel answers is a script of results handed in by the caller; a
    script that has run out means "would block". */
module TcpConnections {
  import opened Wrappers
  import opened FrameFormat
  import opened FrameDecoding

  datatype IoStatus = Open | PeerClosed | ProtocolError | IoError

  datatype SendResult = Sent(count: nat) | SendInterrupted | SendWouldBlock | SendError

  datatype RecvResult = Received(bytes: seq<byte>) | RecvInterrupted | RecvWouldBlock | RecvError

  /** What a script of recv results delivers, and how it ends. */
  datatype Intake = Intake(bytes: seq<byte>, end: IoStatus)

  function Incoming(script: seq<RecvResult>): Intake {
    if script == [] then Intake([], Open)
    else match script[0]
      case Received(bytes) =>
        if bytes == [] then Intake([], PeerClosed)
        else var tail := Incoming(script[1..]); Intake(bytes + tail.bytes, tail.end)
      case RecvInterrupted => Incoming(script[1..])
      case RecvWouldBlock => Intake([], Open)
      case RecvError => Intake([], IoError)
  }

  /** Results that do not end the reading: bytes, and interruptions. */
  predicate Flowing(script: seq<RecvResult>) {
    forall i | 0 <= i < |script| :: script[i] == RecvInterrupted || (script[i].Received? && script[i].bytes != [])
  }

  /** All the bytes in a script, in order. */
  function Joined(script: seq<RecvResult>): seq<byte> {
    if script == [] then [] else (if script[0].Received? then script[0].bytes else []) + Joined(script[1..])
  }

  /** Reading takes in the bytes of the results before the first that ends it, and that result says how:
      would-block or the end of the script leaves the connection open, a read of nothing means that the
      peer has closed, an error is an error. */
  lemma {:induction false} IncomingExactly(script: seq<RecvResult>, n: nat)
    requires n <= |script| && Flowing(script[..n])
    ensures n == |script| || script[n] == RecvWouldBlock ==> Incoming(script) == Intake(Joined(script[..n]), Open)
    ensures n < |script| && script[n] == Received([]) ==> Incoming(script) == Intake(Joined(script[..n]), PeerClosed)
    ensures n < |script| && script[n] == RecvError ==> Incoming(script) == Intake(Joined(script[..n]), IoError)
  {
    if n > 0 {
      assert script[..n][0] == script[0] && script[..n][1..] == script[1..][..n - 1];
      IncomingExactly(script[1..], n - 1);
    }
  }

  datatype Reading = Reading(frames: seq<Frame>, status: IoStatus)

  /** What becomes readable on a connection whose decoder has been given `before`. */
  function Read(limit: uint32, before: seq<byte>, script: seq<RecvResult>): Reading {
    var intake := Incoming(script);
    if intake.end == IoError then Reading([], IoError)
    else
      var known, all := |Parse(before, limit).frames|, Parse(before + intake.bytes, limit);
      Reading(if known <= |all.frames| then all.frames[known..] else [],
              if all.failure.Some? then ProtocolError else intake.end)
  }

  /** The frames of a reading are those that the stream has gained; what ends the reading, or a failure of
      the stream, is its status; and a reading that ends in an error hands out nothing. */
  lemma ReadExactly(limit: uint32, before: seq<byte>, script: seq<RecvResult>, n: nat)
    requires n <= |script| && Flowing(script[..n])
    requires n == |script| || script[n] == RecvWouldBlock || script[n] == Received([]) || script[n] == RecvError
    ensures var reading, whole := Read(limit, before, script), Parse(before + Joined(script[..n]), limit);
      if n < |script| && script[n] == RecvError then reading == Reading([], IoError)
      else
        && whole.frames == Parse(before, limit).frames + reading.frames
        && reading.status ==
             if whole.failure.Some? then ProtocolError
             else if n < |script| && script[n] == Received([]) then PeerClosed else Open
  {
    IncomingExactly(script, n);
    ParseGrows(before, Joined(script[..n]), limit);
  }

  lemma ReadsWhatIsNew(limit: uint32, before: seq<byte>, script: seq<RecvResult>, frames: seq<Frame>)
    requires Incoming(script).end != IoError
    requires Parse(before + Incoming(script).bytes, limit).frames == Parse(before, limit).frames + frames
    ensures Read(limit, before, script) == Reading(
      frames, if Parse(before + Incoming(script).bytes, limit).failure.Some? then ProtocolError else Incoming(script).end)
  {}

  /** How many of `pending` bytes a script of send results takes, and how it ends. */
  datatype Outflow = Outflow(count: nat, end: IoStatus)

  function Taken(script: seq<SendResult>, pending: nat): (flow: Outflow)
    ensures flow.count <= pending
  {
    if pending == 0 || script == [] then Outflow(0, Open)
    else match script[0]
      case Sent(n) =>
        if n == 0 then Outflow(0, IoError)
        else
          var k := if n < pending then n else pending;
          var tail := Taken(script[1..], pending - k);
          Outflow(k + tail.count, tail.end)
      case SendInterrupted => Taken(script[1..], pending)
      case SendWouldBlock => Outflow(0, Open)
      case SendError => Outflow(0, IoError)
  }

  /** Results that do not end a flush: bytes taken, and interruptions. */
  predicate Smooth(script: seq<SendResult>) {
    forall i | 0 <= i < |script| :: script[i] == SendInterrupted || (script[i].Sent? && script[i].count > 0)
  }

  function Total(script: seq<SendResult>): nat {
    if script == [] then 0 else (if script[0].Sent? then script[0].count else 0) + Total(script[1..])
  }

  /** A send that fails while bytes are still waiting. */
  ghost predicate BreaksAt(script: seq<SendResult>, pending: nat, n: nat) {
    n < |script| && Smooth(script[..n]) && Total(script[..n]) < pending && (script[n] == Sent(0) || script[n] == SendError)
  }

  ghost predicate Breaks(script: seq<SendResult>, pending: nat) {
    exists n: nat :: BreaksAt(script, pending, n)
  }

  lemma SmoothTail(script: seq<SendResult>, n: nat)
    requires 0 < n <= |script| && Smooth(script[..n])
    ensures Smooth(script[1..][..n - 1])
    ensures Total(script[..n]) == (if script[0].Sent? then script[0].count else 0) + Total(script[1..][..n - 1])
  {
    assert script[..n][0] == script[0] && script[..n][1..] == script[1..][..n - 1];
  }

  /** A flush hands over what the results before the first that ends it take, up to what is pending.  A
      would-block or the end of the script leaves the connection open, and so does anything once all
      is handed over; a send of nothing or an error before that is an error. */
  lemma {:induction false} FlushExactly(script: seq<SendResult>, pending: nat, n: nat)
    requires n <= |script| && Smooth(script[..n])
    ensures n == |script| || script[n] == SendWouldBlock || pending <= Total(script[..n]) ==>
      Taken(script, pending) == Outflow(if pending <= Total(script[..n]) then pending else Total(script[..n]), Open)
    ensures BreaksAt(script, pending, n) ==> Taken(script, pending) == Outflow(Total(script[..n]), IoError)
  {
    if n > 0 && pending > 0 {
      SmoothTail(script, n);
      var sent := if script[0].Sent? then script[0].count else 0;
      if sent < pending {
        FlushExactly(script[1..], pending - sent, n - 1);
      }
    }
  }

  /** How far a flush gets before a result that ends it. */
  function Ahead(script: seq<SendResult>): (n: nat)
    ensures n <= |script| && Smooth(script[..n])
    ensures n < |script| ==> script[n] != SendInterrupted && (script[n].Sent? ==> script[n].count == 0)
  {
    if script == [] then 0
    else if script[0] == SendInterrupted || (script[0].Sent? && script[0].count > 0) then
      var n := 1 + Ahead(script[1..]);
      assert forall i | 0 < i < n :: script[..n][i] == script[1..][..n - 1][i - 1];
      n
    else 0
  }

  /** Nothing else is an error. */
  lemma FlushFailsExactlyIf(script: seq<SendResult>, pending: nat)
    ensures Taken(script, pending).end == if Breaks(script, pending) then IoError else Open
  {
    var n := Ahead(script);
    FlushExactly(script, pending, n);
    if Breaks(script, pending) {
      var k: nat :| BreaksAt(script, pending, k);
      FlushExactly(script, pending, k);
    } else {
      assert !BreaksAt(script, pending, n);
    }
  }

  /** What becomes of a message offered to a connection: queued, and flushed as far as the socket
      takes it; queued, but the flush failed, or the update of the epoll interest; or not queued,
      because it does not encode or does not fit. */
  datatype SendOutcome = Queued | FlushFailed | InterestFailed | Refused

  datatype Transmission = Transmission(outcome: SendOutcome, count: nat)

  /** The outcome of offering a frame behind `pending` bytes, and how many bytes it makes the socket take. */
  function Transmit(limit: nat, pending: nat, frame: Frame, script: seq<SendResult>, interestUpdated: bool): (r: Transmission)
    ensures r.outcome == Refused <==> !Legal(frame, DEFAULT_MAX_PAYLOAD_SIZE) || |Encoding(frame)| + pending > limit
    ensures r.outcome == Refused ==> r.count == 0
    ensures r.outcome != Refused ==> r.count <= pending + |Encoding(frame)| <= limit
  {
    if !Legal(frame, DEFAULT_MAX_PAYLOAD_SIZE) || |Encoding(frame)| + pending > limit then Transmission(Refused, 0)
    else
      var flow := Taken(script, pending + |Encoding(frame)|);
      Transmission(if flow.end != Open then FlushFailed else if interestUpdated then Queued else InterestFailed, flow.count)
  }

  /** Every message meets one of four ends, told apart by whether it encodes, whether it fits, what the
      socket answers and whether epoll takes the new interest. */
  lemma TransmitExactly(limit: nat, pending: nat, frame: Frame, script: seq<SendResult>, interestUpdated: bool)
    ensures Transmit(limit, pending, frame, script, interestUpdated).outcome ==
      if !Legal(frame, DEFAULT_MAX_PAYLOAD_SIZE) || |Encoding(frame)| + pending > limit then Refused
      else if Breaks(script, pending + |Encoding(frame)|) then FlushFailed
      else if interestUpdated then Queued else InterestFailed
  {
    if Legal(frame, DEFAULT_MAX_PAYLOAD_SIZE) {
      FlushFailsExactlyIf(script, pending + |Encoding(frame)|);
    }
  }

  /** These bytes are these messages, whole. */
  ghost predicate Aligned(bytes: seq<byte>, messages: seq<Frame>) {
    AllLegal(messages, DEFAULT_MAX_PAYLOAD_SIZE) && bytes == EncodeAll(messages)
  }

  class TcpConnection {
    const decoder: FrameDecoder
    const maximumPendingBytes: nat
    var output: seq<byte>
    var outputOffset: nat

    // The messages accepted whole, everything QueueBytes accepted, and everything handed to the socket.
    ghost var messages: seq<Frame>
    ghost var accepted: seq<byte>
    ghost var handed: seq<byte>

    /** Conservation: what was accepted is what was handed over followed by what is pending. */
    ghost predicate Buffered()
      reads this, decoder
    {
      && decoder.Valid()
      && outputOffset <= |output|
      && accepted == handed + Pending()
      && 0 < maximumPendingBytes
      && PendingBytes() <= maximumPendingBytes
    }

    /** The output is frame-aligned: it consists of whole messages. */
    ghost predicate Valid()
      reads this, decoder
    {
      Buffered() && Aligned(accepted, messages)
    }

    ghost function Pending(): seq<byte>
      requires outputOffset <= |output|
      reads this
    {
      output[outputOffset..]
    }

    constructor (maximumPendingBytes: nat)
      requires maximumPendingBytes > 0
      ensures Valid() && Drained() && this.maximumPendingBytes == maximumPendingBytes && messages == [] && handed == [] && decoder.received == [] && fresh(decoder)
      ensures decoder.maxPayloadSize == DEFAULT_MAX_PAYLOAD_SIZE
    {
      this.maximumPendingBytes := maximumPendingBytes;
      decoder := new FrameDecoder(DEFAULT_MAX_PAYLOAD_SIZE);
      output, outputOffset := [], 0;
      messages, accepted, handed := [], [], [];
    }

    function PendingBytes(): (n: nat)
      requires outputOffset <= |output|
      reads this
      ensures n == |Pending()|
    {
      |output| - outputOffset
    }

    predicate WantsWrite()
      reads this
    {
      outputOffset < |output|
    }

    /** All or nothing: the bytes are appended whole, or refused exactly when they would push the
        pending output over the limit. */
    method QueueBytes(bytes: seq<byte>) returns (queued: bool)
      requires Buffered()
      modifies `output, `outputOffset, `accepted
      ensures Buffered()
      ensures queued <==> |bytes| == 0 || |bytes| + old(PendingBytes()) <= maximumPendingBytes
      ensures accepted == if queued then old(accepted) + bytes else old(accepted)
      ensures Pending() == if queued then old(Pending()) + bytes else old(Pending())
    {
      if |bytes| == 0 {
        assert accepted + bytes == accepted && Pending() + bytes == Pending();
        return true;
      }
      CompactOutput();
      if |bytes| > maximumPendingBytes - PendingBytes() {
        return false;
      }
      output := output + bytes;
      accepted := accepted + bytes;
      assert Pending() == old(Pending()) + bytes;
      Associative(handed, old(Pending()), bytes);
      return true;
    }

    /** The socket took the next `count` pending bytes. */
    method Advance(count: nat)
      requires Buffered() && count <= PendingBytes()
      modifies `outputOffset, `handed
      ensures Buffered() && |handed| == |old(handed)| + count && PendingBytes() == old(PendingBytes()) - count
    {
      ghost var next := output[outputOffset..outputOffset + count];
      assert Pending() == next + output[outputOffset + count..];
      Associative(handed, next, output[outputOffset + count..]);
      handed := handed + next;
      outputOffset := outputOffset + count;
    }

    /** Hands over as many pending bytes as the socket takes; `Buffered` makes them the next ones of
        the accepted stream. */
    method Flush(script: seq<SendResult>) returns (status: IoStatus)
      requires Buffered()
      modifies `output, `outputOffset, `handed
      ensures Buffered()
      ensures var flow := Taken(script, old(PendingBytes()));
        status == flow.end && |handed| == |old(handed)| + flow.count
      ensures status == if Breaks(script, old(PendingBytes())) then IoError else Open
      ensures var total, pending := Total(script[..Ahead(script)]), old(PendingBytes());
        |handed| == |old(handed)| + if pending <= total then pending else total
    {
      FlushExactly(script, PendingBytes(), Ahead(script));
      FlushFailsExactlyIf(script, PendingBytes());
      status := SendPending(script);
    }

    /** The loop of `Flush`. */
    method SendPending(script: seq<SendResult>) returns (status: IoStatus)
      requires Buffered()
      modifies `output, `outputOffset, `handed
      ensures Buffered()
      ensures var flow := Taken(script, old(PendingBytes()));
        status == flow.end && |handed| == |old(handed)| + flow.count
    {
      var i := 0;
      while WantsWrite()
        invariant 0 <= i <= |script| && Buffered()
        invariant var flow, ahead := Taken(script, old(PendingBytes())), Taken(script[i..], PendingBytes());
          flow.end == ahead.end && |old(handed)| + flow.count == |handed| + ahead.count
        decreases |script| - i
      {
        if i == |script| {
          return Open;
        }
        var result := script[i];
        i := i + 1;
        if result.Sent? && result.count > 0 {
          Advance(if result.count < PendingBytes() then result.count else PendingBytes());
          continue;
        }
        if result == SendInterrupted {
          continue;
        }
        if result == SendWouldBlock {
          return Open;
        }
        return IoError;
      }
      output := [];
      outputOffset := 0;
      return Open;
    }

    method CompactOutput()
      requires outputOffset <= |output|
      modifies `output, `outputOffset
      ensures outputOffset == 0 && Pending() == old(Pending())
    {
      if outputOffset == 0 {
        return;
      }
      if outputOffset == |output| {
        output := [];
      } else {
        output := output[outputOffset..];
      }
      outputOffset := 0;
    }

    /** Every whole frame received has been handed out. */
    ghost predicate Drained()
      reads decoder
    {
      decoder.emitted == Parse(decoder.received, decoder.maxPayloadSize).frames
    }

    /** Takes in everything the socket has. */
    method Receive(script: seq<RecvResult>) returns (end: IoStatus)
      requires Buffered()
      modifies decoder
      ensures Buffered() && decoder.emitted == old(decoder.emitted)
      ensures end == Incoming(script).end && end != ProtocolError
      ensures end != IoError ==> decoder.received == old(decoder.received) + Incoming(script).bytes
    {
      var i := 0;
      ghost var before := decoder.received;
      while i < |script|
        invariant Buffered() && decoder.emitted == old(decoder.emitted)
        invariant 0 <= i <= |script|
        invariant before + Incoming(script).bytes == decoder.received + Incoming(script[i..]).bytes
        invariant Incoming(script).end == Incoming(script[i..]).end
      {
        var result := script[i];
        i := i + 1;
        if result.Received? {
          if |result.bytes| > 0 {
            Associative(decoder.received, result.bytes, Incoming(script[i..]).bytes);
            decoder.Append(result.bytes);
            continue;
          }
          assert decoder.received + [] == decoder.received;
          return PeerClosed;
        }
        if result == RecvInterrupted {
          continue;
        }
        if result == RecvWouldBlock {
          break;
        }
        return IoError;
      }
      assert decoder.received + [] == decoder.received;
      return Open;
    }

    /** Hands out whole frames until there is none, or the decoder fails. */
    method Decode() returns (ok: bool, frames: seq<Frame>)
      requires Buffered()
      modifies decoder
      ensures Buffered() && Drained() && decoder.received == old(decoder.received)
      ensures decoder.emitted == old(decoder.emitted) + frames
      ensures ok <==> Parse(decoder.received, decoder.maxPayloadSize).failure.None?
      ensures ok ==> !decoder.failed && Parse(decoder.received, decoder.maxPayloadSize) == Parsed(decoder.emitted, decoder.Unread(), None)
      ensures !ok ==> decoder.failed
    {
      frames := [];
      ok := true;
      while true
        invariant ok && Buffered() && decoder.received == old(decoder.received)
        invariant decoder.emitted == old(decoder.emitted) + frames
        decreases |decoder.received| - |decoder.emitted|
      {
        EmittedIsShorter(decoder.emitted);
        var next, frame := decoder.Next();
        EmittedIsShorter(decoder.emitted);
        if next == FrameReady {
          frames := frames + [frame.value];
          continue;
        }
        ok := next == NeedMoreData;
        break;
      }
      decoder.ChunkIndependence();
      assert decoder.emitted + [] == decoder.emitted;
    }

    /** Takes in everything the socket has, then decodes every whole frame of it.  A protocol
        error stops the decoding with the decoder failed; an I/O error skips it. */
    method ReadAvailable(script: seq<RecvResult>) returns (status: IoStatus, frames: seq<Frame>)
      requires Buffered()
      modifies decoder
      ensures Buffered()
      ensures Incoming(script).end != IoError ==> decoder.received == old(decoder.received) + Incoming(script).bytes
      ensures decoder.emitted == old(decoder.emitted) + frames
      ensures status != IoError ==> Drained()
      ensures status == ProtocolError ==> decoder.failed
      ensures status == Open || status == PeerClosed ==>
        !decoder.failed && Parse(decoder.received, decoder.maxPayloadSize) == Parsed(decoder.emitted, decoder.Unread(), None)
      ensures old(Drained()) ==> Reading(frames, status) == Read(decoder.maxPayloadSize, old(decoder.received), script)
    {
      var end := Receive(script);
      if end == IoError {
        assert decoder.emitted + [] == decoder.emitted;
        return IoError, [];
      }
      var ok;
      ok, frames := Decode();
      status := if ok then end else ProtocolError;
      if old(Drained()) {
        ReadsWhatIsNew(decoder.maxPayloadSize, old(decoder.received), script, frames);
      }
    }
  }

  /** Every frame takes up at least its header. */
  lemma {:induction false} EmittedIsShorter(frames: seq<Frame>)
    requires forall i | 0 <= i < |frames| :: |frames[i].payload| < 0x1_0000_0000
    ensures |EncodeAll(frames)| >= |frames|
  {
    if frames != [] {
      EmittedIsShorter(frames[1..]);
    }
  }

  /** Queueing one more encoded message keeps the accepted output a sequence of whole messages;
      a refused one leaves it as it was (`QueueBytes`). */
  lemma StaysFrameAligned(accepted: seq<byte>, messages: seq<Frame>, next: Frame)
    requires Aligned(accepted, messages) && Legal(next, DEFAULT_MAX_PAYLOAD_SIZE)
    ensures Aligned(accepted + Encoding(next), messages + [next])
  {
    EncodeOne(next);
    EncodeAllAppend(messages, [next]);
  }

  /** Notes that the last bytes queued were those of `frame`. */
  ghost method Record(connection: TcpConnection, frame: Frame, before: seq<byte>)
    requires connection.Buffered() && Aligned(before, connection.messages)
    requires Legal(frame, DEFAULT_MAX_PAYLOAD_SIZE) && connection.accepted == before + Encoding(frame)
    modifies connection`messages
    ensures connection.Valid() && connection.messages == old(connection.messages) + [frame]
  {
    StaysFrameAligned(before, connection.messages, frame);
    connection.messages := connection.messages + [frame];
  }

  /** The bytes of a frame that encodes. */
  method Encoded(frame: Frame) returns (bytes: Option<seq<byte>>)
    ensures bytes == if Legal(frame, DEFAULT_MAX_PAYLOAD_SIZE) then Some(Encoding(frame)) else None
  {
    bytes := EncodeFrame(frame.messageId, frame.payload, DEFAULT_MAX_PAYLOAD_SIZE);
  }

  /** Encodes a frame and queues it whole, unless it does not encode or does not fit. */
  method QueueFrame(connection: TcpConnection, frame: Frame) returns (queued: bool)
    requires connection.Valid()
    modifies connection`output, connection`outputOffset, connection`accepted, connection`messages
    ensures connection.Valid()
    ensures queued <==> Legal(frame, DEFAULT_MAX_PAYLOAD_SIZE)
                        && |Encoding(frame)| + old(connection.PendingBytes()) <= connection.maximumPendingBytes
    ensures connection.messages == if queued then old(connection.messages) + [frame] else old(connection.messages)
    ensures connection.PendingBytes() == old(connection.PendingBytes()) + if queued then |Encoding(frame)| else 0
  {
    var bytes := Encoded(frame);
    if bytes.None? {
      return false;
    }
    queued := connection.QueueBytes(bytes.value);
    if queued {
      Record(connection, frame, old(connection.accepted));
    }
  }

  /** Flushing leaves the output whole messages. */
  method FlushFrames(connection: TcpConnection, script: seq<SendResult>) returns (status: IoStatus)
    requires connection.Valid()
    modifies connection`output, connection`outputOffset, connection`handed
    ensures connection.Valid()
    ensures var flow := Taken(script, old(connection.PendingBytes()));
      status == flow.end && |connection.handed| == |old(connection.handed)| + flow.count
  {
    status := connection.Flush(script);
  }

  /** What `GameServer::Send` does with a connection: encode, queue, flush, update the interest. */
  method SendFrame(connection: TcpConnection, frame: Frame, script: seq<SendResult>, interestUpdated: bool) returns (outcome: SendOutcome)
    requires connection.Valid()
    modifies connection
    ensures connection.Valid()
    ensures var transmission := Transmit(connection.maximumPendingBytes, old(connection.PendingBytes()), frame, script, interestUpdated);
      outcome == transmission.outcome && |connection.handed| == |old(connection.handed)| + transmission.count
    ensures connection.messages == if outcome == Refused then old(connection.messages) else old(connection.messages) + [frame]
  {
    var queued := QueueFrame(connection, frame);
    if !queued {
      return Refused;
    }
    var status := FlushFrames(connection, script);
    if status != Open {
      return FlushFailed;
    }
    return if interestUpdated then Queued else InterestFailed;
  }

  /** End to end.  The receiver has been given, in whatever chunks, some prefix of the bytes the
      sender handed to its socket.  Then the receiver has not failed, what it has decoded is a prefix
      of the messages accepted, in order, and once every byte has arrived and has been decoded it is
      all of them. */
  lemma EndToEnd(sender: TcpConnection, receiver: FrameDecoder)
    requires sender.Valid() && receiver.Valid() && receiver.maxPayloadSize == DEFAULT_MAX_PAYLOAD_SIZE
    requires receiver.received <= sender.handed
    ensures !receiver.failed
    ensures receiver.emitted <= sender.messages
    ensures Parse(receiver.Unread(), receiver.maxPayloadSize).failure == None
    ensures (receiver.received == sender.handed && !sender.WantsWrite()
             && Parse(receiver.Unread(), receiver.maxPayloadSize).frames == []) ==>
      receiver.emitted == sender.messages && receiver.Unread() == []
  {
    assert sender.accepted[..|receiver.received|] == receiver.received;
    DecodesAPrefix(receiver, sender.messages);
  }

  /** A decoder that has been given part of the encoding of legal messages. */
  lemma DecodesAPrefix(receiver: FrameDecoder, messages: seq<Frame>)
    requires receiver.Valid() && AllLegal(messages, receiver.maxPayloadSize)
    requires receiver.received <= EncodeAll(messages)
    ensures !receiver.failed && receiver.emitted <= messages
    ensures Parse(receiver.Unread(), receiver.maxPayloadSize).failure == None
    ensures (receiver.received == EncodeAll(messages)
             && Parse(receiver.Unread(), receiver.maxPayloadSize).frames == []) ==>
      receiver.emitted == messages && receiver.Unread() == []
  {
    assert EncodeAll(messages)[..|receiver.received|] == receiver.received;
    ParsePrefix(messages, |receiver.received|, receiver.maxPayloadSize);
    receiver.ChunkIndependence();
  }
}
