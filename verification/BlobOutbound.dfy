/**
 * The sending end of a blob stream: the chunk ring together with the life of the stream, from the
 * first byte to the confirmed end or to a failure.
 */
module BlobOutbound {
  import opened Common
  import opened BlobSender
  import opened BlobChunks

  datatype Lifecycle = Open | Sealing | AwaitingComplete | Completed | Failed(error: ErrorId) | Closed

  datatype Outbound = Outbound(lifecycle: Lifecycle, sender: Sender)

  datatype PushOutcome = Accepted(bytes: nat) | Full | Busy

  // ---------------------------------------------------------------- the life of a stream

  function SenderError(l: Lifecycle): Option<ErrorId> {
    match l
    case Open => None
    case Failed(error) => Some(error)
    case Sealing | AwaitingComplete | Completed | Closed => Some(PeerUnavailable)
  }

  function SealError(l: Lifecycle): Option<ErrorId> {
    match l
    case Failed(error) => Some(error)
    case Closed => Some(PeerUnavailable)
    case Open | Sealing | AwaitingComplete | Completed => None
  }

  predicate CanDrain(l: Lifecycle) {
    !l.Failed? && !l.Closed?
  }

  predicate FinalChunkMade(l: Lifecycle) {
    l.AwaitingComplete? || l.Completed?
  }

  function Unless(failed: Lifecycle, next: Lifecycle): Lifecycle {
    if failed.Failed? then failed else next
  }

  // ---------------------------------------------------------------- steps

  /** A push that reaches the ring: it reports the bytes taken, or a full ring if it took none. */
  ghost predicate Pushed(a: Sender, data: Bytes, outcome: PushOutcome, b: Sender) {
    match outcome
    case Accepted(bytes) => bytes > 0 && PushStep(a, data, bytes, b)
    case Full => PushStep(a, data, 0, b)
    case Busy => false
  }

  /** Bytes are taken only while the stream is open; a push that finds the lock taken gives up at once. */
  ghost predicate PushOutboundStep(
    a: Outbound, contended: bool, data: Bytes, r: Result<PushOutcome, ErrorId>, b: Outbound)
  {
    if contended then r == Ok(Busy) && b == a
    else if SenderError(a.lifecycle).Some? then r == Err(SenderError(a.lifecycle).value) && b == a
    else if !CanAcceptBytes(a.sender) then r == Ok(Full) && b == a
    else r.Ok? && b.lifecycle == a.lifecycle && Pushed(a.sender, data, r.value, b.sender)
  }

  function BytesTaken(outcome: PushOutcome): nat {
    if outcome.Accepted? then outcome.bytes else 0
  }

  /** One attempt to close the stream: `Ok(false)` asks the caller to wait for room and to try again. */
  function SealAttempt(a: Outbound): (Result<bool, ErrorId>, Outbound) {
    if SealError(a.lifecycle).Some? then (Err(SealError(a.lifecycle).value), a)
    else if FinalChunkMade(a.lifecycle) then (Ok(true), a)
    else
      match Finalized(a.sender)
      case None => (Ok(false), a.(lifecycle := Sealing))
      case Some(sealed) => (Ok(true), Outbound(AwaitingComplete, sealed))
  }

  ghost predicate LeaseOutboundStep(
    a: Outbound, callis: CallisId, peerMsgId: PeerMessageId, lease: Option<ChunkWriteLease>, b: Outbound)
  {
    if CanDrain(a.lifecycle) then b.lifecycle == a.lifecycle && LeaseStep(a.sender, callis, peerMsgId, lease, b.sender)
    else lease.None? && b == a
  }

  function AckNoted(a: Outbound, peerMsgId: PeerMessageId): Outbound {
    a.(sender := Answered(a.sender, peerMsgId))
  }

  /** An error answer fails the stream, even when no chunk awaits it and even over an earlier failure. */
  function ErrorNoted(a: Outbound, peerMsgId: PeerMessageId, error: ErrorId): Outbound {
    Outbound(Failed(error), Answered(a.sender, peerMsgId))
  }

  /** What a caller waiting for the end of the transfer is told; nothing means it keeps waiting. */
  function CompletionVerdict(a: Outbound): Option<Result<Unit, ErrorId>> {
    if a.lifecycle.Failed? then Some(Err(a.lifecycle.error))
    else if a.lifecycle.Completed? && IsDrained(a.sender) then Some(Ok(Unit))
    else None
  }

  class OutboundRingBuffer {
    var lifecycle: Lifecycle
    const chunks: OutboundChunks

    ghost function State(): Outbound
      reads this, chunks
    {
      Outbound(lifecycle, chunks.State())
    }

    ghost predicate Valid()
      reads this, chunks
    {
      chunks.Valid()
    }

    constructor (chunkSize: nat, windowSize: nat)
      requires 1 <= chunkSize && 1 <= windowSize
      ensures Valid() && fresh(chunks) && State() == Outbound(Open, NewSender(chunkSize, windowSize))
    {
      lifecycle := Open;
      chunks := new OutboundChunks(chunkSize, windowSize);
    }

    method TryPushAvailable(contended: bool, data: Bytes) returns (r: Result<PushOutcome, ErrorId>)
      requires Valid()
      modifies chunks
      ensures Valid() && PushOutboundStep(old(State()), contended, data, r, State())
    {
      hide SenderOk, RingOk, PushStep;
      if contended {
        return Ok(Busy);
      }
      var error := SenderError(lifecycle);
      if error.Some? {
        return Err(error.value);
      }
      var room := chunks.CanAccept();
      if !room {
        return Ok(Full);
      }
      var bytes := chunks.PushAvailable(data);
      if bytes == 0 {
        return Ok(Full);
      }
      return Ok(Accepted(bytes));
    }

    method TrySeal() returns (r: Result<bool, ErrorId>)
      requires Valid()
      modifies this, chunks
      ensures Valid() && (r, State()) == SealAttempt(old(State()))
    {
      hide SenderOk, RingOk, Finalized;
      var error := SealError(lifecycle);
      if error.Some? {
        return Err(error.value);
      }
      if FinalChunkMade(lifecycle) {
        return Ok(true);
      }
      lifecycle := Sealing;
      var done := chunks.Finalize();
      if done {
        lifecycle := AwaitingComplete;
      }
      return Ok(done);
    }

    method LeaseNextChunkForWrite(callis: CallisId, peerMsgId: PeerMessageId) returns (lease: Option<ChunkWriteLease>)
      requires Valid() && FreshMessage(chunks.live, peerMsgId)
      modifies chunks
      ensures Valid() && LeaseOutboundStep(old(State()), callis, peerMsgId, lease, State())
    {
      hide SenderOk, RingOk, LeaseStep;
      if !CanDrain(lifecycle) {
        return None;
      }
      lease := chunks.LeaseNextChunkForWrite(callis, peerMsgId);
    }

    method MarkChunkInflight(lease: ChunkWriteLease)
      requires Valid()
      modifies chunks
      ensures Valid() && State() == old(State()).(sender := MarkedInFlight(old(State()).sender, lease))
    {
      var _ := chunks.MarkInflight(lease);
    }

    method MarkCallisReplayReady(callis: CallisId)
      requires Valid()
      modifies chunks
      ensures Valid() && State() == old(State()).(sender := CallisLost(old(State()).sender, callis))
    {
      chunks.MarkCallisReplayReady(callis);
    }

    method HasDispatchable(replay: bool) returns (b: bool)
      requires Valid()
      ensures b == (CanDrain(lifecycle) && !NothingOffered(chunks.State(), replay))
    {
      if !CanDrain(lifecycle) {
        return false;
      }
      b := chunks.HasOffered(replay);
    }

    method NoteAck(peerMsgId: PeerMessageId)
      requires Valid()
      modifies chunks
      ensures Valid() && State() == AckNoted(old(State()), peerMsgId)
    {
      var _ := chunks.NoteCompletion(peerMsgId);
    }

    method NoteError(peerMsgId: PeerMessageId, error: ErrorId)
      requires Valid()
      modifies this, chunks
      ensures Valid() && State() == ErrorNoted(old(State()), peerMsgId, error)
    {
      var _ := chunks.NoteCompletion(peerMsgId);
      lifecycle := Failed(error);
    }

    /** The first failure stands; completion and closing do not undo it. */
    method Fail(error: ErrorId)
      requires Valid()
      modifies this
      ensures Valid() && State() == old(State()).(lifecycle := Unless(old(lifecycle), Failed(error)))
    {
      if !lifecycle.Failed? {
        lifecycle := Failed(error);
      }
    }

    method MarkComplete()
      requires Valid()
      modifies this
      ensures Valid() && State() == old(State()).(lifecycle := Unless(old(lifecycle), Completed))
    {
      if !lifecycle.Failed? {
        lifecycle := Completed;
      }
    }

    method Close()
      requires Valid()
      modifies this
      ensures Valid() && State() == old(State()).(lifecycle := Unless(old(lifecycle), Closed))
    {
      if !lifecycle.Failed? {
        lifecycle := Closed;
      }
    }

    method CheckComplete() returns (verdict: Option<Result<Unit, ErrorId>>)
      requires Valid()
      ensures verdict == CompletionVerdict(State())
    {
      hide SenderOk, RingOk;
      if lifecycle.Failed? {
        return Some(Err(lifecycle.error));
      }
      var drained := chunks.CheckDrained();
      if lifecycle.Completed? && drained {
        return Some(Ok(Unit));
      }
      return None;
    }
  }

  /** A zero chunk size or window is refused. */
  method NewOutboundRing(chunkSize: nat, windowSize: nat) returns (r: Result<OutboundRingBuffer, ErrorId>)
    ensures r.Ok? <==> chunkSize > 0 && windowSize > 0
    ensures r.Err? ==> r.error == ProtocolViolation
    ensures r.Ok? ==> r.value.Valid() && r.value.State() == Outbound(Open, NewSender(chunkSize, windowSize))
  {
    if chunkSize == 0 || windowSize == 0 {
      return Err(ProtocolViolation);
    }
    var ring := new OutboundRingBuffer(chunkSize, windowSize);
    return Ok(ring);
  }
}
