/**
 * Frames on a byte stream. One reader takes a whole frame at once; the other keeps what it has read
 * so far in its own state, so that it can be stopped between any two reads and started again.
 */
module Frames {
  import opened Common
  import opened Wire

  datatype Frame = Frame(header: WireHeader, payload: Bytes)

  // ---------------------------------------------------------------- sending

  function ControlHeader(msgType: U32, flags: U16, peerMsgId: U32, payloadLen: nat): Result<WireHeader, ErrorId> {
    match WirePayloadLen(payloadLen)
    case Err(error) => Err(error)
    case Ok(len) => Ok(WireHeader(PROTOCOL_VERSION, flags, msgType, peerMsgId, 0, 0, len))
  }

  function SendFrame(header: WireHeader, payload: Bytes): Bytes {
    EncodeHeader(header) + payload
  }

  /** The header, the chunk's own header and the chunk are written one after the other. */
  function SendBlobChunk(peerMsgId: U32, chunk: ChunkPayload): Result<Bytes, ErrorId> {
    match ControlHeader(MSG_BLOB_TRANSFER_CHUNK, 0, peerMsgId, CHUNK_HEADER_LEN + |chunk.chunk|)
    case Err(error) => Err(error)
    case Ok(header) => Ok(EncodeHeader(header) + EncodeChunkHeader(chunk) + chunk.chunk)
  }

  /** What any sending function produces: the header says how long the payload is. */
  predicate WellFormed(f: Frame) {
    f.header.version == PROTOCOL_VERSION && f.header.payloadLen == |f.payload|
  }

  function SendAll(frames: seq<Frame>): Bytes {
    if frames == [] then [] else SendFrame(frames[0].header, frames[0].payload) + SendAll(frames[1..])
  }

  // ---------------------------------------------------------------- reading at once

  /** The one-shot reader. The end of the stream inside a header counts as the end of the frames. */
  function ReadFrame(input: Bytes, maxPayloadLen: nat): Result<Option<Taken<Frame>>, ErrorId> {
    if |input| < HEADER_LEN then Ok(None)
    else
      match DecodeHeader(input[..HEADER_LEN])
      case Err(error) => Err(error)
      case Ok(header) =>
        if header.payloadLen > maxPayloadLen then Err(ProtocolViolation)
        else if |input| - HEADER_LEN < header.payloadLen then Err(ConnectionLost)
        else
          var end := HEADER_LEN + header.payloadLen;
          Ok(Some(Taken(Frame(header, input[HEADER_LEN..end]), input[end..])))
  }

  /** How reading a stream ends: cleanly, in the middle of a header, or with an error. */
  datatype Ending = Clean | Truncated | Failure(error: ErrorId)

  datatype Reading = Reading(frames: seq<Frame>, ending: Ending)

  function ReadAll(input: Bytes, maxPayloadLen: nat): Reading
    decreases |input|
  {
    match ReadFrame(input, maxPayloadLen)
    case Err(error) => Reading([], Failure(error))
    case Ok(None) => Reading([], if input == [] then Clean else Truncated)
    case Ok(Some(taken)) =>
      var more := ReadAll(taken.rest, maxPayloadLen);
      Reading([taken.value] + more.frames, more.ending)
  }

  lemma ReadFrameOf(f: Frame, rest: Bytes, maxPayloadLen: nat)
    requires WellFormed(f) && |f.payload| <= maxPayloadLen
    ensures ReadFrame(SendFrame(f.header, f.payload) + rest, maxPayloadLen) == Ok(Some(Taken(f, rest)))
  {
    hide DecodeHeader, EncodeHeader;
    HeaderRoundTrip(f.header);
    var input := SendFrame(f.header, f.payload) + rest;
    assert input[..HEADER_LEN] == EncodeHeader(f.header);
    assert input[HEADER_LEN..HEADER_LEN + |f.payload|] == f.payload;
    assert input[HEADER_LEN + |f.payload|..] == rest;
  }

  /** Reading back what was sent returns the frames sent, in order, and nothing else. */
  lemma {:induction false} FramesRoundTrip(frames: seq<Frame>, maxPayloadLen: nat)
    requires forall i :: 0 <= i < |frames| ==> WellFormed(frames[i]) && |frames[i].payload| <= maxPayloadLen
    ensures ReadAll(SendAll(frames), maxPayloadLen) == Reading(frames, Clean)
  {
    hide ReadFrame, SendFrame, WellFormed;
    if frames == [] {
      EmptyInput(maxPayloadLen);
    } else {
      ReadFrameOf(frames[0], SendAll(frames[1..]), maxPayloadLen);
      FramesRoundTrip(frames[1..], maxPayloadLen);
      assert frames == [frames[0]] + frames[1..];
    }
  }

  lemma EmptyInput(maxPayloadLen: nat)
    ensures ReadFrame([], maxPayloadLen) == Ok(None)
  {
  }

  /** A blob chunk frame is a well-formed control frame, and its payload decodes to the chunk sent. */
  lemma BlobChunkRoundTrip(peerMsgId: U32, chunk: ChunkPayload) returns (f: Frame)
    requires SendBlobChunk(peerMsgId, chunk).Ok?
    ensures WellFormed(f) && SendBlobChunk(peerMsgId, chunk) == Ok(SendFrame(f.header, f.payload))
    ensures DecodeChunk(f.payload) == Ok(chunk) && f.header.peerMsgId == peerMsgId && f.header.msgType == 8
    ensures f.header.flags == 0 && f.header.srcTaberna == 0 && f.header.dstTaberna == 0
  {
    hide DecodeChunk, EncodeHeader, EncodeChunkHeader;
    ChunkRoundTrip(chunk);
    var payload := EncodeChunkHeader(chunk) + chunk.chunk;
    f := Frame(ControlHeader(MSG_BLOB_TRANSFER_CHUNK, 0, peerMsgId, |payload|).value, payload);
    assert EncodeHeader(f.header) + EncodeChunkHeader(chunk) + chunk.chunk == EncodeHeader(f.header) + payload;
  }

  // ---------------------------------------------------------------- a stream that delivers in pieces

  datatype ReadResult = Pending | Got(bytes: Bytes)

  /**
   * The receiving end of a connection. `plan` fixes how many bytes each read delivers at most; when
   * it is used up the stream has nothing to give yet, which is where a caller may give up waiting.
   */
  class ByteStream {
    var remaining: Bytes
    var plan: seq<nat>

    constructor (data: Bytes)
      ensures remaining == data && plan == []
    {
      remaining, plan := data, [];
    }

    method Read(space: nat) returns (r: ReadResult)
      requires 0 < space
      modifies this
      ensures r.Pending? ==> remaining == old(remaining) && plan == old(plan) == []
      ensures r.Got? ==> |r.bytes| <= space && r.bytes + remaining == old(remaining)
      ensures r.Got? ==> old(plan) != [] && plan == old(plan)[1..]
      ensures r.Got? ==> (r.bytes == [] <==> old(remaining) == [])
    {
      if plan == [] {
        return Pending;
      }
      var n := if plan[0] == 0 then 1 else plan[0];
      n := if n < space then n else space;
      n := if n < |remaining| then n else |remaining|;
      r := Got(remaining[..n]);
      remaining := remaining[n..];
      plan := plan[1..];
    }
  }

  datatype Outcome = Cancelled | EndOfStream | Received(frame: Frame) | Failed(error: ErrorId)

  /**
   * The outcome of one call, given the bytes that were held and still to come before it. The only
   * difference to the one-shot reader is the end of the stream inside a header, an error here.
   */
  predicate Agrees(input: Bytes, limit: nat, r: Outcome, held: Bytes, remaining: Bytes) {
    match r
    case Cancelled => held + remaining == input
    case EndOfStream => input == [] && held == [] && remaining == []
    case Received(frame) => held == [] && ReadFrame(input, limit) == Ok(Some(Taken(frame, remaining)))
    case Failed(error) =>
      if 0 < |input| < HEADER_LEN then error == ConnectionLost else ReadFrame(input, limit) == Err(error)
  }

  /** The frame reader with memory. */
  class FrameReadState {
    var headerBuf: Bytes
    var payloadHeader: Option<WireHeader>
    var payloadBuf: Bytes

    ghost predicate Valid()
      reads this
    {
      && |headerBuf| <= HEADER_LEN
      && (payloadHeader.Some? ==>
            headerBuf == [] && payloadHeader.value.version == PROTOCOL_VERSION
              && |payloadBuf| <= payloadHeader.value.payloadLen)
    }

    /** The bytes read from the stream that no frame has been returned for. */
    ghost function Held(): Bytes
      reads this
    {
      if payloadHeader.Some? then EncodeHeader(payloadHeader.value) + payloadBuf else headerBuf
    }

    /** The length limit of a frame whose header was accepted earlier is the one of that time. */
    ghost function Limit(maxPayloadLen: nat): nat
      reads this
    {
      if payloadHeader.Some?
        && payloadHeader.value.payloadLen > maxPayloadLen then payloadHeader.value.payloadLen else maxPayloadLen
    }

    constructor ()
      ensures Valid() && Held() == []
    {
      headerBuf, payloadHeader, payloadBuf := [], None, [];
    }

    /**
     * Whatever the pieces the stream delivers and however often reading was given up before, the
     * outcome is that of the one-shot reader on the bytes held and the bytes still to come.
     */
    method ReadNext(stream: ByteStream, maxPayloadLen: nat) returns (r: Outcome)
      requires Valid()
      modifies this, stream
      ensures Valid() && Limit(maxPayloadLen) <= old(Limit(maxPayloadLen))
      ensures Agrees(old(Held() + stream.remaining), old(Limit(maxPayloadLen)), r, Held(), stream.remaining)
      ensures r.Cancelled? ==> stream.plan == []
      ensures |stream.remaining| <= old(|stream.remaining|)
      ensures old(|stream.plan| > |stream.remaining|) ==> !r.Cancelled?
    {
      hide DecodeHeader, EncodeHeader, ReadFrame;
      if payloadHeader.None? {
        var early := ReadHeader(stream, maxPayloadLen);
        if early.Some? {
          return early.value;
        }
      }
      r := ReadPayload(stream, old(Limit(maxPayloadLen)));
    }

    /** No outcome yet means that the header is in and its payload comes next. */
    method ReadHeader(stream: ByteStream, maxPayloadLen: nat) returns (r: Option<Outcome>)
      requires Valid() && payloadHeader.None?
      modifies this, stream
      ensures Valid() && Limit(maxPayloadLen) == maxPayloadLen
      ensures r.Some? ==> Agrees(old(Held() + stream.remaining), maxPayloadLen, r.value, Held(), stream.remaining)
      ensures r == Some(Cancelled) ==> stream.plan == []
      ensures |stream.remaining| <= old(|stream.remaining|)
      ensures old(|stream.plan| > |stream.remaining|) ==> r != Some(Cancelled) && |stream.plan| >= |stream.remaining|
      ensures old(|stream.plan| > |stream.remaining|) && r.None? ==> |stream.plan| > |stream.remaining|
      ensures r.None? ==> payloadHeader.Some? && Held() + stream.remaining == old(Held() + stream.remaining)
    {
      hide DecodeHeader, EncodeHeader;
      ghost var input := headerBuf + stream.remaining;
      while |headerBuf| < HEADER_LEN
        invariant Valid() && payloadHeader.None? && headerBuf + stream.remaining == input
        invariant |stream.remaining| <= old(|stream.remaining|)
        invariant old(|stream.plan| > |stream.remaining|) ==> |stream.plan| > |stream.remaining|
        decreases |stream.plan|
      {
        var n := stream.Read(HEADER_LEN - |headerBuf|);
        if n.Pending? {
          return Some(Cancelled);
        }
        if n.bytes == [] {
          return Some(if headerBuf == [] then EndOfStream else Failed(ConnectionLost));
        }
        headerBuf := headerBuf + n.bytes;
      }
      assert input[..HEADER_LEN] == headerBuf;
      var decoded := DecodeHeader(headerBuf);
      if decoded.Err? {
        return Some(Failed(decoded.error));
      }
      HeaderCanonical(headerBuf);
      if decoded.value.payloadLen > maxPayloadLen {
        return Some(Failed(ProtocolViolation));
      }
      assert EncodeHeader(decoded.value) + [] == headerBuf;
      headerBuf := [];
      if decoded.value.payloadLen == 0 {
        assert input[HEADER_LEN..] == stream.remaining && input[HEADER_LEN..HEADER_LEN] == [];
        return Some(Received(Frame(decoded.value, [])));
      }
      payloadHeader, payloadBuf := Some(decoded.value), [];
      return None;
    }

    /** Reads until the payload is complete, or until a read gives nothing: that read is returned. */
    method FillPayload(stream: ByteStream) returns (stopped: Option<ReadResult>)
      requires Valid() && payloadHeader.Some?
      modifies this, stream
      ensures Valid() && payloadHeader == old(payloadHeader) && |stream.remaining| <= old(|stream.remaining|)
      ensures payloadBuf + stream.remaining == old(payloadBuf + stream.remaining)
      ensures match stopped
        case None => |payloadBuf| == payloadHeader.value.payloadLen
        case Some(Pending) => stream.plan == [] && old(|stream.plan| <= |stream.remaining|)
        case Some(Got(bytes)) => |old(payloadBuf + stream.remaining)| < payloadHeader.value.payloadLen
    {
      var length := payloadHeader.value.payloadLen;
      ghost var input := payloadBuf + stream.remaining;
      while |payloadBuf| < length
        invariant Valid() && payloadHeader == old(payloadHeader) && payloadBuf + stream.remaining == input
        invariant |stream.remaining| <= old(|stream.remaining|)
        invariant old(|stream.plan| > |stream.remaining|) ==> |stream.plan| > |stream.remaining|
        decreases |stream.plan|
      {
        var n := stream.Read(length - |payloadBuf|);
        if n.Pending? || n.bytes == [] {
          return Some(n);
        }
        payloadBuf := payloadBuf + n.bytes;
      }
      return None;
    }

    method ReadPayload(stream: ByteStream, ghost limit: nat) returns (r: Outcome)
      requires Valid() && payloadHeader.Some? && payloadHeader.value.payloadLen <= limit
      modifies this, stream
      ensures Valid() && (payloadHeader == old(payloadHeader) || payloadHeader.None?)
      ensures Agrees(old(Held() + stream.remaining), limit, r, Held(), stream.remaining)
      ensures r.Cancelled? ==> stream.plan == []
      ensures |stream.remaining| <= old(|stream.remaining|)
      ensures old(|stream.plan| > |stream.remaining|) ==> !r.Cancelled?
    {
      hide EncodeHeader, DecodeHeader, ReadFrame;
      var header := payloadHeader.value;
      ghost var input := payloadBuf + stream.remaining;
      assert old(Held() + stream.remaining) == EncodeHeader(header) + input;
      var stopped := FillPayload(stream);
      assert EncodeHeader(header) + payloadBuf + stream.remaining == EncodeHeader(header) + input;
      if stopped == Some(Pending) {
        return Cancelled;
      }
      if stopped.Some? {
        CutShort(header, input, limit);
        return Failed(ConnectionLost);
      }
      r := Received(Frame(header, payloadBuf));
      ReadFrameOf(r.frame, stream.remaining, limit);
      payloadHeader, payloadBuf := None, [];
    }
  }

  lemma CutShort(header: WireHeader, input: Bytes, limit: nat)
    requires header.version == PROTOCOL_VERSION && |input| < header.payloadLen <= limit
    ensures ReadFrame(EncodeHeader(header) + input, limit) == Err(ConnectionLost)
  {
    hide EncodeHeader, DecodeHeader;
    HeaderRoundTrip(header);
    assert (EncodeHeader(header) + input)[..HEADER_LEN] == EncodeHeader(header);
  }

  // ---------------------------------------------------------------- a whole connection

  /** What has been returned so far, together with what the one-shot reader would still return, never changes. */
  ghost predicate SoFar(whole: Reading, frames: seq<Frame>, left: Reading) {
    whole == Reading(frames + left.frames, left.ending)
  }

  /**
   * One call of the resumable reader after another, each cut off where its plan ends. The frames
   * returned are, in order, those of the one-shot reader on the whole stream. Calls that are given
   * enough reads and are enough in number come to its end.
   */
  method ReadConnection(data: Bytes, maxPayloadLen: nat, plans: seq<seq<nat>>)
      returns (frames: seq<Frame>, last: Outcome)
    ensures frames <= ReadAll(data, maxPayloadLen).frames
    ensures last.EndOfStream? ==> ReadAll(data, maxPayloadLen) == Reading(frames, Clean)
    ensures |plans| > |ReadAll(data, maxPayloadLen).frames| && (forall i :: 0 <= i < |plans| ==> |plans[i]| > |data|)
      ==> last.EndOfStream? || last.Failed?
    ensures last.Failed? ==>
      || ReadAll(data, maxPayloadLen) == Reading(frames, Failure(last.error))
      || (ReadAll(data, maxPayloadLen) == Reading(frames, Truncated) && last.error == ConnectionLost)
  {
    hide ReadFrame, ReadAll;
    var stream := new ByteStream(data);
    var state := new FrameReadState();
    frames, last := [], Cancelled;
    ghost var whole := ReadAll(data, maxPayloadLen);
    assert [] + data == data && [] + whole.frames == whole.frames;
    for i := 0 to |plans|
      invariant state.Valid() && state.Limit(maxPayloadLen) == maxPayloadLen && !last.EndOfStream? && !last.Failed?
      invariant SoFar(whole, frames, ReadAll(state.Held() + stream.remaining, maxPayloadLen))
      invariant fresh(stream) && fresh(state) && |stream.remaining| <= |data|
      invariant (forall j :: 0 <= j < |plans| ==> |plans[j]| > |data|) ==> |frames| == i
    {
      stream.plan := plans[i];
      ghost var input := state.Held() + stream.remaining;
      last := state.ReadNext(stream, maxPayloadLen);
      Advance(whole, frames, input, maxPayloadLen, last, state.Held(), stream.remaining);
      if last.EndOfStream? || last.Failed? {
        return;
      }
      if last.Received? {
        frames := frames + [last.frame];
      }
    }
  }

  lemma Advance(whole: Reading, frames: seq<Frame>, input: Bytes, limit: nat, r: Outcome, held: Bytes, remaining: Bytes)
    requires SoFar(whole, frames, ReadAll(input, limit)) && Agrees(input, limit, r, held, remaining)
    ensures r.Cancelled? ==> SoFar(whole, frames, ReadAll(held + remaining, limit))
    ensures r.EndOfStream? ==> whole == Reading(frames, Clean)
    ensures r.Received? ==> SoFar(whole, frames + [r.frame], ReadAll(held + remaining, limit))
    ensures r.Failed? ==>
      whole == Reading(frames, Failure(r.error)) || (whole == Reading(frames, Truncated) && r.error == ConnectionLost)
  {
    if r.Received? {
      assert held + remaining == remaining;
      assert frames + ([r.frame] + ReadAll(remaining, limit).frames)
        == frames + [r.frame] + ReadAll(remaining, limit).frames;
    }
    assert frames + [] == frames;
  }
}
