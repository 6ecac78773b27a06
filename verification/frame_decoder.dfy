/** The incremental decoder: a read buffer with a lazily compacted consumed prefix. */
module FrameDecoding {
  import opened Wrappers
  import opened FrameFormat

  class FrameDecoder {
    const maxPayloadSize: uint32
    var buffer: seq<byte>
    var readOffset: nat
    var failed: bool
    var failureStatus: DecodeStatus

    // Since the last Reset: every byte appended, every frame handed out, and how many bytes
    // Compact has moved to the front of the buffer.
    ghost var received: seq<byte>
    ghost var emitted: seq<Frame>
    ghost var shifted: nat

    ghost predicate Valid()
      reads this
    {
      && maxPayloadSize > 0
      && readOffset <= |buffer|
      // nothing is lost, duplicated or reordered
      && AllLegal(emitted, maxPayloadSize)
      && received == EncodeAll(emitted) + Unread()
      // a recorded failure is the failure of the bytes at the front
      && (failed ==>
        Parse(Unread(), maxPayloadSize).frames == [] &&
        Parse(Unread(), maxPayloadSize).failure == Some(failureStatus))
      && (!failed ==> failureStatus == NeedMoreData)
      // dead space is bounded, and bytes moved are paid for by bytes consumed
      && (readOffset < 4096 || readOffset < |buffer| - readOffset)
      && shifted + readOffset <= |EncodeAll(emitted)|
    }

    ghost function Unread(): seq<byte>
      requires readOffset <= |buffer|
      reads this
    {
      buffer[readOffset..]
    }

    constructor (maxPayloadSize: uint32)
      requires maxPayloadSize > 0
      ensures Valid() && received == [] && emitted == [] && this.maxPayloadSize == maxPayloadSize
    {
      this.maxPayloadSize := maxPayloadSize;
      buffer, readOffset, failed, failureStatus := [], 0, false, NeedMoreData;
      received, emitted, shifted := [], [], 0;
    }

    /** Whatever the chunking and however `Append` and `Next` were interleaved, the frames handed
        out so far followed by what the unread bytes hold are the frames of the whole stream; the
        reader has failed only where the whole stream fails, with the same status. */
    lemma ChunkIndependence()
      requires Valid()
      ensures var whole, tail := Parse(received, maxPayloadSize), Parse(Unread(), maxPayloadSize);
        && whole.frames == emitted + tail.frames
        && whole.rest == tail.rest && whole.failure == tail.failure
        && (failed ==> whole == Parsed(emitted, Unread(), Some(failureStatus)))
    {
      ParseEncoded(emitted, Unread(), maxPayloadSize);
    }

    /** The total work of compaction is linear: bytes moved never exceed bytes received, and the
        consumed prefix kept around is below 4096 or below the bytes still unread. */
    lemma CompactionIsAmortised()
      requires Valid()
      ensures shifted + readOffset + |Unread()| <= |received|
      ensures |buffer| < 4096 + |Unread()| || |buffer| < 2 * |Unread()|
    {}

    method Append(data: seq<byte>)
      requires Valid()
      modifies this
      ensures Valid()
      ensures received == old(received) + data && emitted == old(emitted)
      ensures Unread() == old(Unread()) + data
      ensures failed == old(failed) && failureStatus == old(failureStatus) && shifted == old(shifted)
    {
      if |data| == 0 {
        assert received + data == received && Unread() + data == Unread();
        return;
      }
      if failed {
        FailureIsSticky(Unread(), data, maxPayloadSize);
      }
      buffer := buffer + data;
      received := received + data;
      assert Unread() == old(Unread()) + data;
      Associative(EncodeAll(emitted), old(Unread()), data);
    }

    /** A frame handed out is the next frame of the stream (by `Valid`, it extends what has been
        emitted); "need more data" is said only when no whole frame is buffered; a bad header
        fails the decoder for good. */
    method Next() returns (status: DecodeStatus, frame: Option<Frame>)
      requires Valid()
      modifies this
      ensures Valid() && received == old(received)
      ensures frame.Some? <==> status == FrameReady
      ensures emitted == old(emitted) + (if frame.Some? then [frame.value] else [])
      ensures status == DecoderFailed <==> old(failed)
      ensures status == NeedMoreData ==> Parse(Unread(), maxPayloadSize) == Parsed([], Unread(), None)
      ensures status == NeedMoreData ==> |Unread()| < FRAME_HEADER_SIZE + maxPayloadSize
      ensures failed <==> status == DecoderFailed || status == PayloadTooLarge || status == UnknownMessageId
      ensures failed && !old(failed) ==> failureStatus == status
      ensures old(failed) ==> failureStatus == old(failureStatus)
    {
      if failed {
        return DecoderFailed, None;
      }
      var available := |buffer| - readOffset;
      if available < FRAME_HEADER_SIZE {
        return NeedMoreData, None;
      }
      ghost var u := Unread();
      HeaderInPlace();
      var payloadSize := ReadNetworkUint32(buffer, readOffset);
      var messageId := ReadNetworkUint32(buffer, readOffset + 4);
      if payloadSize > maxPayloadSize {
        status := Fail(PayloadTooLarge);
        return status, None;
      }
      if !IsKnownMessageId(messageId) {
        status := Fail(UnknownMessageId);
        return status, None;
      }
      var frameSize := FRAME_HEADER_SIZE + payloadSize;
      if available < frameSize {
        return NeedMoreData, None;
      }
      var begin := readOffset + FRAME_HEADER_SIZE;
      frame := Some(Frame(messageId, buffer[begin..begin + payloadSize]));
      assert frame.value.payload == u[FRAME_HEADER_SIZE..frameSize];
      FrameAhead(u, maxPayloadSize);
      Consume(frame.value);
      return FrameReady, frame;
    }

    /** Moves past the frame at the front of the unread bytes. */
    method Consume(frame: Frame)
      requires Valid() && !failed && Legal(frame, maxPayloadSize)
      requires readOffset + FRAME_HEADER_SIZE + |frame.payload| <= |buffer|
      requires Unread() == Encoding(frame) + Unread()[FRAME_HEADER_SIZE + |frame.payload|..]
      modifies `buffer, `readOffset, `shifted, `emitted
      ensures Valid() && emitted == old(emitted) + [frame]
    {
      Consumed(frame);
      Skip(FRAME_HEADER_SIZE + |frame.payload|);
      emitted := emitted + [frame];
    }

    method Skip(size: nat)
      requires readOffset + size <= |buffer|
      modifies `buffer, `readOffset, `shifted
      ensures readOffset <= |buffer| && Unread() == old(Unread()[size..])
      ensures readOffset < 4096 || readOffset < |buffer| - readOffset
      ensures shifted + readOffset <= old(shifted) + old(readOffset) + size
    {
      assert buffer[readOffset + size..] == Unread()[size..];
      readOffset := readOffset + size;
      Compact();
    }

    /** The header at the read offset is the header of the unread bytes. */
    lemma HeaderInPlace()
      requires readOffset + FRAME_HEADER_SIZE <= |buffer|
      ensures ReadNetworkUint32(Unread(), 0) == ReadNetworkUint32(buffer, readOffset)
      ensures ReadNetworkUint32(Unread(), 4) == ReadNetworkUint32(buffer, readOffset + 4)
    {
      assert forall k | 0 <= k < FRAME_HEADER_SIZE :: Unread()[k] == buffer[readOffset + k];
    }

    /** Taking a whole frame off the front moves its encoding from the unread bytes to the
        emitted ones. */
    lemma Consumed(frame: Frame)
      requires Valid() && Legal(frame, maxPayloadSize)
      requires readOffset + FRAME_HEADER_SIZE + |frame.payload| <= |buffer|
      requires Unread() == Encoding(frame) + Unread()[FRAME_HEADER_SIZE + |frame.payload|..]
      ensures var size := FRAME_HEADER_SIZE + |frame.payload|;
        && received == EncodeAll(emitted + [frame]) + Unread()[size..]
        && |EncodeAll(emitted + [frame])| == |EncodeAll(emitted)| + size
    {
      var size := FRAME_HEADER_SIZE + |frame.payload|;
      var u := Unread();
      EncodeOne(frame);
      EncodeAllAppend(emitted, [frame]);
      Associative(EncodeAll(emitted), Encoding(frame), u[size..]);
    }

    method Fail(status: DecodeStatus) returns (r: DecodeStatus)
      modifies `failed, `failureStatus
      ensures failed && failureStatus == status && r == status
    {
      failed := true;
      failureStatus := status;
      return status;
    }

    /** Drops the consumed prefix without touching the unread bytes. */
    method Compact()
      requires readOffset <= |buffer|
      modifies `buffer, `readOffset, `shifted
      ensures readOffset <= |buffer| && Unread() == old(Unread())
      ensures readOffset < 4096 || readOffset < |buffer| - readOffset
      ensures shifted + readOffset <= old(shifted) + old(readOffset)
    {
      if readOffset == |buffer| {
        buffer := [];
        readOffset := 0;
        return;
      }
      if readOffset >= 4096 && readOffset * 2 >= |buffer| {
        shifted := shifted + (|buffer| - readOffset);
        buffer := buffer[readOffset..];
        readOffset := 0;
      }
    }

    method Reset()
      requires maxPayloadSize > 0
      modifies this
      ensures Valid() && received == [] && emitted == [] && Unread() == [] && !failed
    {
      buffer := [];
      readOffset := 0;
      failed := false;
      failureStatus := NeedMoreData;
      received, emitted, shifted := [], [], 0;
    }

    function BufferedBytes(): (n: nat)
      requires Valid()
      reads this
      ensures n + |EncodeAll(emitted)| == |received|
    {
      |buffer| - readOffset
    }
  }
}
