/** The wire format: an 8-byte header (payload length, then message id, both in network byte
    order) followed by the payload.  `Parse` is the reference reading of a whole byte stream. */
module FrameFormat {
  import opened Wrappers

  type byte = b: int | 0 <= b < 256
  type uint32 = n: int | 0 <= n < 0x1_0000_0000

  const FRAME_HEADER_SIZE := 8
  const DEFAULT_MAX_PAYLOAD_SIZE: uint32 := 1024 * 1024

  datatype Frame = Frame(messageId: uint32, payload: seq<byte>)

  datatype DecodeStatus = FrameReady | NeedMoreData | PayloadTooLarge | UnknownMessageId | DecoderFailed

  datatype MessageType =
    | LoginRequestType | ChatRequestType | MoveRequestType | HeartbeatType
    | LoginResponseType | PlayerEnterType | PlayerLeaveType | PlayerMoveType | ChatBroadcastType | NearbyPlayersType

  function IdOf(t: MessageType): uint32 {
    match t
    case LoginRequestType => 1
    case ChatRequestType => 2
    case MoveRequestType => 3
    case HeartbeatType => 4
    case LoginResponseType => 101
    case PlayerEnterType => 102
    case PlayerLeaveType => 103
    case PlayerMoveType => 104
    case ChatBroadcastType => 105
    case NearbyPlayersType => 106
  }

  predicate IsKnownMessageId(id: uint32) {
    1 <= id <= 4 || 101 <= id <= 106
  }

  /** The known ids are those of the ten message types, and no two types share one. */
  lemma KnownMeansTyped(id: uint32)
    ensures IsKnownMessageId(id) <==> exists t :: IdOf(t) == id
    ensures forall t, u :: IdOf(t) == IdOf(u) ==> t == u
  {
    assert IdOf(LoginRequestType) == 1 && IdOf(ChatRequestType) == 2 && IdOf(MoveRequestType) == 3 && IdOf(HeartbeatType) == 4;
    assert IdOf(LoginResponseType) == 101 && IdOf(PlayerEnterType) == 102 && IdOf(PlayerLeaveType) == 103;
    assert IdOf(PlayerMoveType) == 104 && IdOf(ChatBroadcastType) == 105 && IdOf(NearbyPlayersType) == 106;
  }

  /** Frames that `EncodeFrame` accepts under a payload limit. */
  predicate Legal(frame: Frame, limit: uint32) {
    IsKnownMessageId(frame.messageId) && |frame.payload| <= limit
  }

  predicate AllLegal(frames: seq<Frame>, limit: uint32) {
    forall i | 0 <= i < |frames| :: Legal(frames[i], limit)
  }

  // ---------------------------------------------------------------- 32-bit numbers

  function ReadNetworkUint32(bytes: seq<byte>, at: nat): (n: uint32)
    requires at + 4 <= |bytes|
  {
    var b0: int, b1: int, b2: int, b3: int := bytes[at], bytes[at + 1], bytes[at + 2], bytes[at + 3];
    b0 * 0x100_0000 + b1 * 0x1_0000 + b2 * 0x100 + b3
  }

  function NetworkUint32(n: uint32): (bytes: seq<byte>)
    ensures |bytes| == 4
  {
    [n / 0x100_0000 % 0x100, n / 0x1_0000 % 0x100, n / 0x100 % 0x100, n % 0x100]
  }

  /** The four base-256 digits of a number make it up again. */
  lemma DigitsOf(n: int)
    requires 0 <= n < 0x1_0000_0000
    ensures n == (n / 0x100_0000 % 0x100) * 0x100_0000 + (n / 0x1_0000 % 0x100) * 0x1_0000 + (n / 0x100 % 0x100) * 0x100 + n % 0x100
  {
    var q, q' := n / 0x100, n / 0x1_0000;
    assert n == q * 0x100 + n % 0x100;
    assert q / 0x100 == q' && q == q' * 0x100 + q % 0x100;
    assert q' / 0x100 == n / 0x100_0000 && q' == n / 0x100_0000 * 0x100 + q' % 0x100;
    assert n / 0x100_0000 < 0x100;
  }

  lemma BytesInPlace(before: seq<byte>, middle: seq<byte>, after: seq<byte>, k: nat)
    requires k < |middle|
    ensures (before + middle + after)[|before| + k] == middle[k]
  {}

  lemma ReadAfterWrite(n: uint32, before: seq<byte>, after: seq<byte>)
    ensures ReadNetworkUint32(before + NetworkUint32(n) + after, |before|) == n
  {
    BytesInPlace(before, NetworkUint32(n), after, 0);
    BytesInPlace(before, NetworkUint32(n), after, 1);
    BytesInPlace(before, NetworkUint32(n), after, 2);
    BytesInPlace(before, NetworkUint32(n), after, 3);
    DigitsOf(n);
  }

  lemma WriteAfterRead(bytes: seq<byte>, at: nat)
    requires at + 4 <= |bytes|
    ensures NetworkUint32(ReadNetworkUint32(bytes, at)) == bytes[at..at + 4]
  {
    var n := ReadNetworkUint32(bytes, at);
    var b0: int, b1: int, b2: int := bytes[at], bytes[at + 1], bytes[at + 2];
    assert n / 0x100 == b0 * 0x1_0000 + b1 * 0x100 + b2;
    assert n / 0x1_0000 == b0 * 0x100 + b1;
    assert n / 0x100_0000 == b0;
  }

  // ---------------------------------------------------------------- printing

  function Encoding(frame: Frame): (bytes: seq<byte>)
    requires |frame.payload| < 0x1_0000_0000
    ensures |bytes| == FRAME_HEADER_SIZE + |frame.payload|
  {
    NetworkUint32(|frame.payload|) + NetworkUint32(frame.messageId) + frame.payload
  }

  /** The number whose base-256 digits these are, most significant first. */
  function Number(b0: int, b1: int, b2: int, b3: int): int {
    b0 * 0x100_0000 + b1 * 0x1_0000 + b2 * 0x100 + b3
  }

  /** Eight bytes of header, the payload's length before the message id, most significant byte first; then
      the payload. */
  lemma Layout(frame: Frame)
    requires |frame.payload| < 0x1_0000_0000
    ensures var b := Encoding(frame);
      && |b| == 8 + |frame.payload| && b[8..] == frame.payload
      && |frame.payload| == Number(b[0], b[1], b[2], b[3]) && frame.messageId == Number(b[4], b[5], b[6], b[7])
  {
    DigitsOf(|frame.payload|);
    DigitsOf(frame.messageId);
  }

  function EncodeAll(frames: seq<Frame>): (bytes: seq<byte>)
    requires forall i | 0 <= i < |frames| :: |frames[i].payload| < 0x1_0000_0000
  {
    if frames == [] then [] else Encoding(frames[0]) + EncodeAll(frames[1..])
  }

  lemma {:induction false} EncodeAllAppend(a: seq<Frame>, b: seq<Frame>)
    requires forall i | 0 <= i < |a| :: |a[i].payload| < 0x1_0000_0000
    requires forall i | 0 <= i < |b| :: |b[i].payload| < 0x1_0000_0000
    ensures EncodeAll(a + b) == EncodeAll(a) + EncodeAll(b)
  {
    if a == [] {
      assert a + b == b;
    } else {
      EncodeAllAppend(a[1..], b);
      assert (a + b)[1..] == a[1..] + b;
      assert (a + b)[0] == a[0];
      Associative(Encoding(a[0]), EncodeAll(a[1..]), EncodeAll(b));
    }
  }

  lemma Associative<T>(a: seq<T>, b: seq<T>, c: seq<T>)
    ensures (a + b) + c == a + (b + c)
  {}

  lemma EncodeOne(frame: Frame)
    requires |frame.payload| < 0x1_0000_0000
    ensures EncodeAll([frame]) == Encoding(frame)
  {
    assert EncodeAll([frame][1..]) == [];
  }

  method AppendNetworkUint32(output: seq<byte>, value: uint32) returns (result: seq<byte>)
    ensures result == output + NetworkUint32(value)
  {
    result := output + [value / 0x100_0000 % 0x100];
    result := result + [value / 0x1_0000 % 0x100];
    result := result + [value / 0x100 % 0x100];
    result := result + [value % 0x100];
  }

  /** `None` stands for the exceptions thrown on an unknown id or an oversized payload. */
  method EncodeFrame(messageId: uint32, payload: seq<byte>, limit: uint32) returns (encoded: Option<seq<byte>>)
    ensures encoded.Some? <==> Legal(Frame(messageId, payload), limit)
    ensures encoded.Some? ==> Parse(encoded.value, limit) == Parsed([Frame(messageId, payload)], [], None)
    ensures encoded.Some? ==> encoded.value == Encoding(Frame(messageId, payload))
  {
    if !IsKnownMessageId(messageId) {
      return None;
    }
    if |payload| > limit || |payload| > 0xffff_ffff {
      return None;
    }
    var bytes := AppendNetworkUint32([], |payload|);
    bytes := AppendNetworkUint32(bytes, messageId);
    bytes := bytes + payload;
    var frame := Frame(messageId, payload);
    assert bytes == Encoding(frame);
    EncodeOne(frame);
    assert EncodeAll([frame]) + [] == bytes;
    ParseEncoded([frame], [], limit);
    return Some(bytes);
  }

  // ---------------------------------------------------------------- reading a whole stream

  /** The frames of a stream, the bytes left over, and the error that stops the reader there. */
  datatype Parsed = Parsed(frames: seq<Frame>, rest: seq<byte>, failure: Option<DecodeStatus>)

  function Parse(bytes: seq<byte>, limit: uint32): Parsed
    decreases |bytes|
  {
    if |bytes| < FRAME_HEADER_SIZE then Parsed([], bytes, None)
    else
      var size, id := ReadNetworkUint32(bytes, 0), ReadNetworkUint32(bytes, 4);
      if size > limit then Parsed([], bytes, Some(PayloadTooLarge))
      else if !IsKnownMessageId(id) then Parsed([], bytes, Some(UnknownMessageId))
      else if |bytes| < FRAME_HEADER_SIZE + size then Parsed([], bytes, None)
      else
        var tail := Parse(bytes[FRAME_HEADER_SIZE + size..], limit);
        Parsed([Frame(id, bytes[FRAME_HEADER_SIZE..FRAME_HEADER_SIZE + size])] + tail.frames, tail.rest, tail.failure)
  }

  /** Reading after printing: complete frames at the front are read back one for one. */
  lemma {:induction false} ParseEncoded(frames: seq<Frame>, rest: seq<byte>, limit: uint32)
    requires AllLegal(frames, limit)
    ensures var tail := Parse(rest, limit);
      Parse(EncodeAll(frames) + rest, limit) == Parsed(frames + tail.frames, tail.rest, tail.failure)
  {
    if frames == [] {
      assert EncodeAll(frames) + rest == rest;
      assert frames + Parse(rest, limit).frames == Parse(rest, limit).frames;
    } else {
      var frame, more := frames[0], EncodeAll(frames[1..]) + rest;
      Associative(Encoding(frame), EncodeAll(frames[1..]), rest);
      ParseFirst(frame, more, limit);
      ParseEncoded(frames[1..], rest, limit);
      Associative([frame], frames[1..], Parse(rest, limit).frames);
      assert [frame] + frames[1..] == frames;
    }
  }

  lemma ParseFirst(frame: Frame, more: seq<byte>, limit: uint32)
    requires Legal(frame, limit)
    ensures var tail := Parse(more, limit);
      Parse(Encoding(frame) + more, limit) == Parsed([frame] + tail.frames, tail.rest, tail.failure)
  {
    var bytes := Encoding(frame) + more;
    var size, id := NetworkUint32(|frame.payload|), NetworkUint32(frame.messageId);
    assert bytes == [] + size + (id + frame.payload + more);
    ReadAfterWrite(|frame.payload|, [], id + frame.payload + more);
    assert bytes == size + id + (frame.payload + more);
    ReadAfterWrite(frame.messageId, size, frame.payload + more);
    assert bytes[FRAME_HEADER_SIZE..FRAME_HEADER_SIZE + |frame.payload|] == frame.payload;
    assert bytes[FRAME_HEADER_SIZE + |frame.payload|..] == more;
  }

  /** A known header with its whole payload behind it is the encoding of a legal frame. */
  lemma FrameAhead(bytes: seq<byte>, limit: uint32)
    requires |bytes| >= FRAME_HEADER_SIZE
    requires ReadNetworkUint32(bytes, 0) <= limit && IsKnownMessageId(ReadNetworkUint32(bytes, 4))
    requires |bytes| >= FRAME_HEADER_SIZE + ReadNetworkUint32(bytes, 0)
    ensures var size := FRAME_HEADER_SIZE + ReadNetworkUint32(bytes, 0);
      var frame := Frame(ReadNetworkUint32(bytes, 4), bytes[FRAME_HEADER_SIZE..size]);
      Legal(frame, limit) && Encoding(frame) == bytes[..size] && bytes == Encoding(frame) + bytes[size..]
  {
    WriteAfterRead(bytes, 0);
    WriteAfterRead(bytes, 4);
    var size := FRAME_HEADER_SIZE + ReadNetworkUint32(bytes, 0);
    assert bytes[..size] == bytes[0..4] + bytes[4..8] + bytes[FRAME_HEADER_SIZE..size];
    assert bytes == bytes[..size] + bytes[size..];
  }

  /** A reading that finds a frame consumes exactly that frame's encoding, then carries on. */
  lemma ParseStep(bytes: seq<byte>, limit: uint32)
    requires Parse(bytes, limit).frames != []
    ensures var parsed := Parse(bytes, limit);
      var frame := parsed.frames[0];
      var size := FRAME_HEADER_SIZE + |frame.payload|;
      && Legal(frame, limit) && size <= |bytes|
      && Encoding(frame) == bytes[..size]
      && Parse(bytes[size..], limit) == Parsed(parsed.frames[1..], parsed.rest, parsed.failure)
  {
    var size := ReadNetworkUint32(bytes, 0);
    FrameAhead(bytes, limit);
    var frame := Frame(ReadNetworkUint32(bytes, 4), bytes[FRAME_HEADER_SIZE..FRAME_HEADER_SIZE + size]);
    var tail := Parse(bytes[FRAME_HEADER_SIZE + size..], limit);
    assert Parse(bytes, limit).frames == [frame] + tail.frames;
  }

  /** Printing after reading: what was consumed is exactly the encoding of the frames found,
      all of them legal. */
  lemma {:induction false} EncodeParsed(bytes: seq<byte>, limit: uint32)
    ensures AllLegal(Parse(bytes, limit).frames, limit)
    ensures EncodeAll(Parse(bytes, limit).frames) + Parse(bytes, limit).rest == bytes
    decreases |bytes|
  {
    var parsed := Parse(bytes, limit);
    if parsed.frames == [] {
      assert [] + bytes == bytes;
    } else {
      ParseStep(bytes, limit);
      var size := FRAME_HEADER_SIZE + |parsed.frames[0].payload|;
      EncodeParsed(bytes[size..], limit);
      Reassemble(parsed.frames, parsed.rest, bytes, limit);
    }
  }

  lemma Reassemble(frames: seq<Frame>, rest: seq<byte>, bytes: seq<byte>, limit: uint32)
    requires frames != [] && Legal(frames[0], limit) && AllLegal(frames[1..], limit)
    requires FRAME_HEADER_SIZE + |frames[0].payload| <= |bytes|
    requires Encoding(frames[0]) == bytes[..FRAME_HEADER_SIZE + |frames[0].payload|]
    requires EncodeAll(frames[1..]) + rest == bytes[FRAME_HEADER_SIZE + |frames[0].payload|..]
    ensures AllLegal(frames, limit)
    ensures EncodeAll(frames) + rest == bytes
  {
    assert forall i | 0 < i < |frames| :: frames[i] == frames[1..][i - 1];
    Associative(Encoding(frames[0]), EncodeAll(frames[1..]), rest);
  }

  /** A reader that has seen only part of a legal stream holds a prefix of its messages and no
      error; one that has seen all of it holds all of them and nothing else. */
  lemma {:induction false} ParsePrefix(frames: seq<Frame>, n: nat, limit: uint32)
    requires AllLegal(frames, limit) && n <= |EncodeAll(frames)|
    ensures Parse(EncodeAll(frames)[..n], limit).frames <= frames
    ensures Parse(EncodeAll(frames)[..n], limit).failure == None
    ensures n == |EncodeAll(frames)| ==> Parse(EncodeAll(frames)[..n], limit) == Parsed(frames, [], None)
  {
    if frames != [] {
      var frame, bytes := frames[0], EncodeAll(frames);
      var first := |Encoding(frame)|;
      if n >= first {
        ParsePrefix(frames[1..], n - first, limit);
        assert bytes[..n] == Encoding(frame) + EncodeAll(frames[1..])[..n - first];
        ParseFirst(frame, EncodeAll(frames[1..])[..n - first], limit);
        assert [frame] + frames[1..] == frames;
      } else {
        assert bytes[..n] == Encoding(frame)[..n];
        ParseIncomplete(frame, n, limit);
      }
    }
  }

  lemma ParseIncomplete(frame: Frame, n: nat, limit: uint32)
    requires Legal(frame, limit) && n < |Encoding(frame)|
    ensures Parse(Encoding(frame)[..n], limit) == Parsed([], Encoding(frame)[..n], None)
  {
    var bytes := Encoding(frame)[..n];
    if n >= FRAME_HEADER_SIZE {
      var size, id := NetworkUint32(|frame.payload|), NetworkUint32(frame.messageId);
      assert bytes == [] + size + (id + frame.payload[..n - FRAME_HEADER_SIZE]);
      ReadAfterWrite(|frame.payload|, [], id + frame.payload[..n - FRAME_HEADER_SIZE]);
      assert bytes == size + id + frame.payload[..n - FRAME_HEADER_SIZE];
      ReadAfterWrite(frame.messageId, size, frame.payload[..n - FRAME_HEADER_SIZE]);
    }
  }

  /** Once the header at the front is bad, no further input repairs it. */
  lemma BadHeaderStays(bytes: seq<byte>, more: seq<byte>, limit: uint32)
    requires Parse(bytes, limit).frames == [] && Parse(bytes, limit).failure.Some?
    ensures Parse(bytes + more, limit) == Parsed([], bytes + more, Parse(bytes, limit).failure)
  {
    assert forall k | 0 <= k < FRAME_HEADER_SIZE :: (bytes + more)[k] == bytes[k];
  }

  lemma StickyBehindFrame(frame: Frame, tail: seq<byte>, more: seq<byte>, limit: uint32)
    requires Legal(frame, limit)
    requires Parse(tail + more, limit) == Parsed(Parse(tail, limit).frames, Parse(tail, limit).rest + more, Parse(tail, limit).failure)
    ensures var parsed := Parse(Encoding(frame) + tail, limit);
      Parse(Encoding(frame) + tail + more, limit) == Parsed(parsed.frames, parsed.rest + more, parsed.failure)
  {
    ParseFirst(frame, tail, limit);
    ParseFirst(frame, tail + more, limit);
    Associative(Encoding(frame), tail, more);
  }

  /** Once a stream has failed, further input changes neither its frames nor the failure. */
  lemma {:induction false} FailureIsSticky(bytes: seq<byte>, more: seq<byte>, limit: uint32)
    requires Parse(bytes, limit).failure.Some?
    ensures var parsed := Parse(bytes, limit);
      Parse(bytes + more, limit) == Parsed(parsed.frames, parsed.rest + more, parsed.failure)
    decreases |bytes|
  {
    var parsed := Parse(bytes, limit);
    if parsed.frames == [] {
      BadHeaderStays(bytes, more, limit);
      EncodeParsed(bytes, limit);
    } else {
      ParseStep(bytes, limit);
      var size := FRAME_HEADER_SIZE + |parsed.frames[0].payload|;
      FailureIsSticky(bytes[size..], more, limit);
      StickyBehindFrame(parsed.frames[0], bytes[size..], more, limit);
      assert bytes == Encoding(parsed.frames[0]) + bytes[size..];
    }
  }

  /** More bytes never take back a frame. */
  lemma {:induction false} ParseGrows(bytes: seq<byte>, more: seq<byte>, limit: uint32)
    ensures Parse(bytes, limit).frames <= Parse(bytes + more, limit).frames
    decreases |bytes|
  {
    var parsed := Parse(bytes, limit);
    if parsed.frames != [] {
      ParseStep(bytes, limit);
      var size := FRAME_HEADER_SIZE + |parsed.frames[0].payload|;
      ParseGrows(bytes[size..], more, limit);
      GrowsBehindFrame(parsed.frames[0], bytes[size..], more, limit);
      assert bytes == Encoding(parsed.frames[0]) + bytes[size..];
    }
  }

  lemma GrowsBehindFrame(frame: Frame, tail: seq<byte>, more: seq<byte>, limit: uint32)
    requires Legal(frame, limit) && Parse(tail, limit).frames <= Parse(tail + more, limit).frames
    ensures Parse(Encoding(frame) + tail, limit).frames <= Parse(Encoding(frame) + tail + more, limit).frames
  {
    ParseFirst(frame, tail, limit);
    ParseFirst(frame, tail + more, limit);
    Associative(Encoding(frame), tail, more);
  }
}
