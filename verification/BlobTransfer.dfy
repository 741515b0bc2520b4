/**
 * A whole blob transfer: the sending end, the receiving end with the application's reader, and a
 * network that may lose, repeat and reorder what was written to it but writes nothing of its own.
 * What the code does under different locks is a step each.
 */
module BlobTransfer {
  import opened Common
  import opened BlobInbound
  import opened BlobSender
  import opened BlobOutbound

  datatype ChunkFrame = ChunkFrame(peerMsgId: PeerMessageId, chunkId: nat, data: Bytes, isLast: bool)

  datatype Refusal = Refusal(peerMsgId: PeerMessageId, error: ErrorId)

  /**
   * Whether the receiving ring is still to be made for a request that was accepted, can be looked up,
   * was read to its end a short time ago, or is unknown.
   */
  datatype RecvStatus = Awaited | Active | RecentlyCompleted | Gone

  datatype ReadOutcome = NextBytes(bytes: Bytes) | EndOfBlob | ReadError(error: ErrorId)

  /** How far the reader's current attempt has come. */
  datatype ReaderPhase =
    | Idle
    | NoErrorSeen
    | RingSeen
    | NothingNext
    | FlagSeen
    | RingMissing
    | StillNoError
    | Told(outcome: ReadOutcome)

  /**
   * `wire`, `found`, `acks`, `refusals`, `reported` and `completeSent` only grow: a frame once written
   * may arrive at any later time, and a ring once found may be used after it was taken away.
   */
  datatype Transfer = Transfer(
    out: Outbound, accepted: Bytes, acked: set<nat>, wire: set<ChunkFrame>,
    inbound: Inbound, status: RecvStatus, delivered: Bytes, found: set<ChunkFrame>,
    acks: set<PeerMessageId>, refusals: set<Refusal>, reported: bool, completeSent: bool,
    completed: bool, failure: Option<ErrorId>, reader: ReaderPhase)

  predicate Init(t: Transfer) {
    && t.out == Outbound(Open, NewSender(t.out.sender.chunkSize, t.out.sender.windowSize))
    && 1 <= t.out.sender.chunkSize && 1 <= t.out.sender.windowSize
    && t.inbound == NewInbound(t.inbound.chunkSize, t.inbound.windowSize)
    && 1 <= t.inbound.chunkSize && 1 <= t.inbound.windowSize
    && t.accepted == [] && t.acked == {} && t.wire == {}
    && t.status == Awaited && t.delivered == [] && t.found == {}
    && t.acks == {} && t.refusals == {} && !t.reported && !t.completeSent
    && !t.completed && t.failure == None && t.reader == Idle
  }

  datatype Action =
    | Push(contended: bool, data: Bytes, result: Result<PushOutcome, ErrorId>)
    | Seal(outcome: Result<bool, ErrorId>)
    | Lease(callis: CallisId, peerMsgId: PeerMessageId, lease: Option<ChunkWriteLease>)
    | MarkInflight(written: ChunkWriteLease)
    | LoseCallis(lost: CallisId)
    | MakeRing
    | FindRing(frame: ChunkFrame)
    | InsertFrame(frame: ChunkFrame)
    | RefuseOversized(frame: ChunkFrame)
    | RefuseUnknown(frame: ChunkFrame)
    | RefuseExpired(frame: ChunkFrame)
    | AckLate(frame: ChunkFrame)
    | StoreCompleted
    | SendComplete
    | RemoveRing
    | NoteRecvComplete
    | RecordFailure(error: ErrorId)
    | FlagFailure
    | Look
    | TakeAck(ack: PeerMessageId)
    | TakeRefusal(refusal: Refusal)
    | TakeComplete
    | Fail(error: ErrorId)
    | Close

  function FrameOf(l: ChunkWriteLease): ChunkFrame {
    ChunkFrame(l.peerMsgId, l.chunkId, l.data, l.isLast)
  }

  predicate UnusedId(wire: set<ChunkFrame>, peerMsgId: PeerMessageId) {
    forall m :: m in wire ==> m.peerMsgId != peerMsgId
  }

  /** A chunk reaches a ring that was found for it: what is stored, and what is answered. */
  function FrameInserted(t: Transfer, m: ChunkFrame): Transfer {
    var next := Inserted(t.inbound, m.chunkId, m.data, m.isLast);
    match InsertError(t.inbound, m.chunkId, m.data, m.isLast)
    case Some(error) => t.(inbound := next, refusals := t.refusals + {Refusal(m.peerMsgId, error)})
    case None =>
      t.(inbound := next, acks := t.acks + {m.peerMsgId},
         reported := t.reported || (!IsDuplicate(t.inbound, m.chunkId) && AllExpected(next)))
  }

  /**
   * One look by the application's reader: at the recorded failure, at the ring, at the next chunk, at
   * the completion flag, at the ring's end, and, when there is no ring, at the failure again and at
   * the flag.
   */
  function Looked(t: Transfer): Transfer {
    match t.reader
    case Idle | Told(_) => t.(reader := if t.failure.Some? then Told(ReadError(t.failure.value)) else NoErrorSeen)
    case NoErrorSeen => t.(reader := if t.status == Active then RingSeen else RingMissing)
    case RingSeen =>
      if t.inbound.nextDeliver in t.inbound.received then
        var bytes := t.inbound.received[t.inbound.nextDeliver];
        t.(inbound := Taken(t.inbound), delivered := t.delivered + bytes, reader := Told(NextBytes(bytes)))
      else t.(reader := NothingNext)
    case NothingNext => t.(reader := if t.completed then FlagSeen else Idle)
    case FlagSeen => t.(reader := if IsComplete(t.inbound) then Told(EndOfBlob) else Idle)
    case RingMissing => t.(reader := if t.failure.Some? then Told(ReadError(t.failure.value)) else StillNoError)
    case StillNoError => t.(reader := if t.completed then Told(EndOfBlob) else Idle)
  }

  lemma InsertLeaves(t: Transfer, m: ChunkFrame)
    ensures var u := FrameInserted(t, m);
      && u == t.(inbound := u.inbound, acks := u.acks, refusals := u.refusals, reported := u.reported)
      && u.inbound.chunkSize == t.inbound.chunkSize
  {
    hide FirstMissing, Stuck, InsertError;
  }

  lemma LookLeaves(t: Transfer)
    ensures var u := Looked(t);
      && u == t.(inbound := u.inbound, delivered := u.delivered, reader := u.reader)
      && u.inbound == t.inbound.(received := u.inbound.received, nextDeliver := u.inbound.nextDeliver)
  {
    hide IsComplete;
  }

  function AcceptedBytes(result: Result<PushOutcome, ErrorId>): nat {
    if result.Ok? then BytesTaken(result.value) else 0
  }

  ghost predicate SendStep(a: Transfer, action: Action, b: Transfer) {
    match action
    case Push(contended, data, result) =>
      && PushOutboundStep(a.out, contended, data, result, b.out) && AcceptedBytes(result) <= |data|
      && b == a.(out := b.out, accepted := a.accepted + data[..AcceptedBytes(result)])
    case Seal(outcome) => (outcome, b.out) == SealAttempt(a.out) && b == a.(out := b.out)
    case Lease(callis, peerMsgId, lease) =>
      && UnusedId(a.wire, peerMsgId)
      && LeaseOutboundStep(a.out, callis, peerMsgId, lease, b.out)
      && b == a.(out := b.out, wire := a.wire + if lease.Some? then {FrameOf(lease.value)} else {})
    case MarkInflight(written) => b == a.(out := a.out.(sender := MarkedInFlight(a.out.sender, written)))
    case LoseCallis(lost) => b == a.(out := a.out.(sender := CallisLost(a.out.sender, lost)))
    case TakeAck(ack) =>
      ack in a.acks && b == a.(out := AckNoted(a.out, ack), acked := a.acked + AnsweredBy(a.out.sender, ack))
    case TakeRefusal(refusal) =>
      refusal in a.refusals && b == a.(out := ErrorNoted(a.out, refusal.peerMsgId, refusal.error))
    case TakeComplete => a.completeSent && b == a.(out := a.out.(lifecycle := Unless(a.out.lifecycle, Completed)))
    case Fail(error) => b == a.(out := a.out.(lifecycle := Unless(a.out.lifecycle, Failed(error))))
    case Close => b == a.(out := a.out.(lifecycle := Unless(a.out.lifecycle, Closed)))
    case _ => false
  }

  predicate RecvStep(a: Transfer, action: Action, b: Transfer) {
    match action
    case MakeRing => a.status == Awaited && b == a.(status := Active)
    case FindRing(frame) => frame in a.wire && a.status == Active && b == a.(found := a.found + {frame})
    case InsertFrame(frame) => frame in a.found && b == FrameInserted(a, frame)
    case RefuseOversized(frame) =>
      && frame in a.wire && |frame.data| > a.inbound.chunkSize
      && b == a.(refusals := a.refusals + {Refusal(frame.peerMsgId, ProtocolViolation)})
    case RefuseUnknown(frame) =>
      && frame in a.wire && a.status in {Awaited, Gone}
      && b == a.(refusals := a.refusals + {Refusal(frame.peerMsgId, BlobStreamNotFound)})
    case RefuseExpired(frame) =>
      && frame in a.wire && a.status == Active
      && b == a.(status := Gone, refusals := a.refusals + {Refusal(frame.peerMsgId, BlobStreamIdleTimeout)})
    case AckLate(frame) =>
      frame in a.wire && a.status == RecentlyCompleted && b == a.(acks := a.acks + {frame.peerMsgId})
    case StoreCompleted => a.reported && b == a.(completed := true)
    case SendComplete => a.reported && a.completed && b == a.(completeSent := true)
    case RemoveRing => b == a.(status := Gone)
    case NoteRecvComplete => IsComplete(a.inbound) && b == a.(status := RecentlyCompleted)
    case RecordFailure(error) => b == a.(failure := Some(error))
    case FlagFailure => a.failure.Some? && b == a.(completed := true)
    case Look => b == Looked(a)
    case _ => false
  }

  ghost predicate Step(a: Transfer, action: Action, b: Transfer) {
    SendStep(a, action, b) || RecvStep(a, action, b)
  }

  ghost predicate IsRun(states: seq<Transfer>, actions: seq<Action>) {
    && |states| == |actions| + 1 && Init(states[0])
    && forall i :: 0 <= i < |actions| ==> Step(states[i], actions[i], states[i + 1])
  }

  // ---------------------------------------------------------------- the invariant

  predicate FrameFits(created: seq<Chunk>, m: ChunkFrame) {
    m.chunkId < |created| && created[m.chunkId] == Chunk(m.data, m.isLast)
  }

  /** Frames carry chunks as they were cut, and no two attempts share a message id. */
  ghost predicate WireOk(wire: set<ChunkFrame>, created: seq<Chunk>) {
    && (forall m :: m in wire ==> FrameFits(created, m))
    && (forall m, n :: m in wire && n in wire && m.peerMsgId == n.peerMsgId ==> m == n)
  }

  /** Every attempt that may still be answered has been given to the network. */
  ghost predicate LeasesOk(wire: set<ChunkFrame>, s: Sender) {
    forall id :: id in s.live && IsLeased(s.live[id]) ==>
      exists m :: m in wire && m.chunkId == id && m.peerMsgId == s.live[id].peerMsgId
  }

  predicate SealOk(o: Outbound) {
    && (Unsealed(o.sender) || (Sealed(o.sender) && EndsInBytes(o.sender)))
    && (o.lifecycle.Open? || o.lifecycle.Sealing? ==> Unsealed(o.sender))
    && (o.lifecycle.AwaitingComplete? ==> Sealed(o.sender))
  }

  ghost predicate SendOk(o: Outbound, accepted: Bytes, wire: set<ChunkFrame>) {
    && SenderOk(o.sender) && Stream(o.sender) == accepted
    && SealOk(o) && WireOk(wire, o.sender.created) && LeasesOk(wire, o.sender)
  }

  /** Once the final chunk is stored the ring knows which one it is. */
  predicate LastNoticed(r: Inbound, created: seq<Chunk>) {
    forall id :: 0 <= id < |created| && created[id].isLast && StoredAt(r, id) ==> r.lastChunkId == Some(id)
  }

  /** What the receiver holds and has handed out is what was cut under the same ids. */
  ghost predicate RecvOk(r: Inbound, delivered: Bytes, created: seq<Chunk>) {
    && InboundOk(r)
    && r.nextExpected <= |created| && delivered == Concat(created[..r.nextDeliver])
    && (forall id :: id in r.received ==> id < |created| && r.received[id] == created[id].data)
    && (r.lastChunkId.Some? ==> r.lastChunkId.value < |created| && created[r.lastChunkId.value].isLast)
    && LastNoticed(r, created)
  }

  /** What was acknowledged is stored, and completion was reported only with everything stored. */
  ghost predicate AnswersOk(t: Transfer) {
    && t.found <= t.wire
    && (forall m :: m in t.wire && m.peerMsgId in t.acks ==> StoredAt(t.inbound, m.chunkId))
    && (forall p :: p in t.acks ==> !UnusedId(t.wire, p))
    && (t.reported ==> AllExpected(t.inbound))
    && (t.completeSent ==> t.reported)
    && (t.status == RecentlyCompleted ==> IsComplete(t.inbound))
    && (t.out.lifecycle.Completed? ==> t.completeSent)
    && (t.completed ==> t.reported || t.failure.Some?)
  }

  /** Unless the stream has failed, a chunk is awaiting its answer or was acknowledged. */
  ghost predicate ChunksOk(t: Transfer) {
    && (forall id :: id in t.acked ==> StoredAt(t.inbound, id))
    && (!t.out.lifecycle.Failed? ==>
          forall id :: 0 <= id < |t.out.sender.created| ==> id in t.out.sender.live || id in t.acked)
  }

  ghost predicate TransferOk(t: Transfer) {
    && SendOk(t.out, t.accepted, t.wire)
    && RecvOk(t.inbound, t.delivered, t.out.sender.created)
    && AnswersOk(t) && ChunksOk(t)
  }

  // ---------------------------------------------------------------- steps of the sending end

  lemma GrowthKeepsRecv(r: Inbound, delivered: Bytes, a: seq<Chunk>, b: seq<Chunk>)
    requires RecvOk(r, delivered, a) && a <= b
    ensures RecvOk(r, delivered, b)
  {
    assert b[..r.nextDeliver] == a[..r.nextDeliver];
  }

  lemma GrowthKeepsWire(wire: set<ChunkFrame>, a: seq<Chunk>, b: seq<Chunk>)
    requires WireOk(wire, a) && a <= b
    ensures WireOk(wire, b)
  {
    forall m | m in wire ensures FrameFits(b, m) {
      assert FrameFits(a, m);
    }
  }

  lemma NotBoth(s: Sender)
    ensures !(Sealed(s) && Unsealed(s))
  {
  }

  /** The sending end moved and the receiving end did not. */
  lemma SendOnly(a: Transfer, b: Transfer)
    requires TransferOk(a) && b == a.(out := b.out, accepted := b.accepted)
    requires SendOk(b.out, b.accepted, b.wire) && a.out.sender.created <= b.out.sender.created
    requires b.out.lifecycle.Completed? ==> a.completeSent
    requires !b.out.lifecycle.Failed? ==>
      forall id :: 0 <= id < |b.out.sender.created| ==> id in b.out.sender.live || id in a.acked
    ensures TransferOk(b)
  {
    hide SendOk, InboundOk, LastNoticed, AllExpected, IsComplete;
    GrowthKeepsRecv(a.inbound, a.delivered, a.out.sender.created, b.out.sender.created);
  }

  lemma PushKeepsSend(a: Outbound, accepted: Bytes, wire: set<ChunkFrame>, data: Bytes, n: nat, b: Outbound)
    requires SendOk(a, accepted, wire) && a.lifecycle == Open && b.lifecycle == Open
    requires PushStep(a.sender, data, n, b.sender)
    ensures SendOk(b, accepted + data[..n], wire) && a.sender.created <= b.sender.created
    ensures forall id :: 0 <= id < |b.sender.created| ==>
      id in b.sender.live || (id < |a.sender.created| && id !in a.sender.live)
  {
    hide SenderOk, Concat;
    PushKeepsUnsealed(a.sender, data, n, b.sender);
    GrowthKeepsWire(wire, a.sender.created, b.sender.created);
  }

  lemma PushKeeps(a: Transfer, contended: bool, data: Bytes, result: Result<PushOutcome, ErrorId>, b: Transfer)
    requires TransferOk(a) && SendStep(a, Push(contended, data, result), b)
    ensures TransferOk(b)
  {
    hide SendOk, RecvOk, AnswersOk, PushStep;
    if !contended && a.out.lifecycle == Open && CanAcceptBytes(a.out.sender) {
      PushKeepsSend(a.out, a.accepted, a.wire, data, AcceptedBytes(result), b.out);
      SendOnly(a, b);
    } else {
      assert data[..0] == [] && a.accepted + [] == a.accepted;
    }
  }

  lemma SealKeepsSend(a: Outbound, accepted: Bytes, wire: set<ChunkFrame>)
    requires SendOk(a, accepted, wire) && (a.lifecycle.Open? || a.lifecycle.Sealing?) && Finalized(a.sender).Some?
    ensures SendOk(Outbound(AwaitingComplete, Finalized(a.sender).value), accepted, wire)
    ensures a.sender.created <= Finalized(a.sender).value.created
    ensures forall id :: 0 <= id < |Finalized(a.sender).value.created| ==>
      id in Finalized(a.sender).value.live || (id < |a.sender.created| && id !in a.sender.live)
  {
    hide SenderOk, Concat, Stream, Sealed, Unsealed, EndsInBytes;
    FinalizedOk(a.sender);
    FinalizeSeals(a.sender);
    FinalizeEndsInBytes(a.sender);
    GrowthKeepsWire(wire, a.sender.created, Finalized(a.sender).value.created);
  }

  lemma SealKeeps(a: Transfer, outcome: Result<bool, ErrorId>, b: Transfer)
    requires TransferOk(a) && SendStep(a, Seal(outcome), b)
    ensures TransferOk(b)
  {
    hide SenderOk, RecvOk, AnswersOk, Finalized, Sealed, Unsealed, EndsInBytes, Stream, WireOk, LeasesOk;
    if a.out.lifecycle.Open? || a.out.lifecycle.Sealing? {
      if Finalized(a.out.sender).Some? {
        SealKeepsSend(a.out, a.accepted, a.wire);
      }
      SendOnly(a, b);
    }
  }

  /** A change of chunk states: no chunk comes or goes, and no attempt gets a new message id. */
  predicate StatesOnly(a: Sender, b: Sender) {
    && b == a.(live := b.live) && b.live.Keys == a.live.Keys
    && forall id :: id in b.live && IsLeased(b.live[id]) ==>
         IsLeased(a.live[id]) && b.live[id].peerMsgId == a.live[id].peerMsgId
  }

  lemma StatesKeep(a: Transfer, b: Transfer)
    requires TransferOk(a) && b == a.(out := a.out.(sender := b.out.sender))
    requires StatesOnly(a.out.sender, b.out.sender) && SenderOk(b.out.sender)
    ensures TransferOk(b)
  {
    hide SenderOk, Concat, RecvOk, WireOk;
    SendOnly(a, b);
  }

  lemma MarkKeeps(a: Transfer, written: ChunkWriteLease, b: Transfer)
    requires TransferOk(a) && SendStep(a, MarkInflight(written), b)
    ensures TransferOk(b)
  {
    hide SenderOk, SealOk, WireOk, LeasesOk, RecvOk, AnswersOk, ChunksOk, Stream;
    MarkedInFlightOk(a.out.sender, written);
    StatesKeep(a, b);
  }

  lemma CallisKeeps(a: Transfer, lost: CallisId, b: Transfer)
    requires TransferOk(a) && SendStep(a, LoseCallis(lost), b)
    ensures TransferOk(b)
  {
    hide SenderOk, SealOk, WireOk, LeasesOk, RecvOk, AnswersOk, ChunksOk, Stream;
    CallisLostOk(a.out.sender, lost);
    StatesKeep(a, b);
  }

  lemma LeaseInWire(wire: set<ChunkFrame>, s: Sender, l: ChunkWriteLease)
    requires LeasesOk(wire, s) && l.chunkId in s.live
    ensures LeasesOk(wire + {FrameOf(l)}, Leased(s, l))
  {
    var more, t := wire + {FrameOf(l)}, Leased(s, l);
    forall id | id in t.live && IsLeased(t.live[id])
      ensures exists m :: m in more && m.chunkId == id && m.peerMsgId == t.live[id].peerMsgId
    {
      if id == l.chunkId {
        assert FrameOf(l) in more;
      } else {
        var m :| m in wire && m.chunkId == id && m.peerMsgId == s.live[id].peerMsgId;
        assert m in more;
      }
    }
  }

  lemma LeaseKeepsSend(o: Outbound, accepted: Bytes, wire: set<ChunkFrame>, l: ChunkWriteLease)
    requires SendOk(o, accepted, wire) && UnusedId(wire, l.peerMsgId)
    requires l.chunkId in o.sender.live && FrameFits(o.sender.created, FrameOf(l))
    ensures SendOk(o.(sender := Leased(o.sender, l)), accepted, wire + {FrameOf(l)})
  {
    hide Concat, SenderOk;
    LeasedOk(o.sender, l);
    LeaseInWire(wire, o.sender, l);
  }

  lemma LeaseKeeps(
    a: Transfer, callis: CallisId, peerMsgId: PeerMessageId, lease: Option<ChunkWriteLease>, b: Transfer)
    requires TransferOk(a) && SendStep(a, Lease(callis, peerMsgId, lease), b)
    ensures TransferOk(b)
  {
    hide SendOk, RecvOk, AllExpected, IsComplete;
    if lease.Some? {
      LeaseKeepsSend(a.out, a.accepted, a.wire, lease.value);
    } else {
      assert a.wire + {} == a.wire;
    }
  }

  /** The chunk an acknowledgement is about is stored at the receiver. */
  lemma AckedIsStored(a: Transfer, ack: PeerMessageId)
    requires TransferOk(a) && ack in a.acks
    ensures forall id :: id in AnsweredBy(a.out.sender, ack) ==> StoredAt(a.inbound, id)
  {
    hide SenderOk, Stream, RecvOk, WireOk, SealOk, ChunksOk;
    forall id | id in AnsweredBy(a.out.sender, ack) ensures StoredAt(a.inbound, id) {
      var m :| m in a.wire && m.chunkId == id && m.peerMsgId == a.out.sender.live[id].peerMsgId;
    }
  }

  lemma AnswerKeepsSend(o: Outbound, accepted: Bytes, wire: set<ChunkFrame>, p: PeerMessageId)
    requires SendOk(o, accepted, wire)
    ensures SendOk(o.(sender := Answered(o.sender, p)), accepted, wire)
  {
    hide SenderOk, Concat, WireOk;
    AnsweredOk(o.sender, p);
  }

  lemma AckKeeps(a: Transfer, ack: PeerMessageId, b: Transfer)
    requires TransferOk(a) && SendStep(a, TakeAck(ack), b)
    ensures TransferOk(b)
  {
    hide SendOk, RecvOk, AllExpected, IsComplete;
    AnswerKeepsSend(a.out, a.accepted, a.wire, ack);
    AckedIsStored(a, ack);
  }

  /** Only the life of the stream changes, and not to a state in which it could still be written. */
  lemma LifeKeepsSend(o: Outbound, accepted: Bytes, wire: set<ChunkFrame>, next: Lifecycle)
    requires SendOk(o, accepted, wire) && (next.Failed? || next.Closed? || next.Completed?)
    ensures SendOk(o.(lifecycle := next), accepted, wire)
  {
  }

  lemma RefusalKeeps(a: Transfer, refusal: Refusal, b: Transfer)
    requires TransferOk(a) && SendStep(a, TakeRefusal(refusal), b)
    ensures TransferOk(b)
  {
    hide SendOk, RecvOk, AllExpected, IsComplete;
    AnswerKeepsSend(a.out, a.accepted, a.wire, refusal.peerMsgId);
    var answered := a.out.(sender := Answered(a.out.sender, refusal.peerMsgId));
    LifeKeepsSend(answered, a.accepted, a.wire, Failed(refusal.error));
  }

  lemma LifecycleKeeps(a: Transfer, b: Transfer, next: Lifecycle)
    requires TransferOk(a) && b == a.(out := a.out.(lifecycle := Unless(a.out.lifecycle, next)))
    requires next.Failed? || next.Closed? || (next.Completed? && a.completeSent)
    ensures TransferOk(b)
  {
    hide SendOk, RecvOk, AllExpected, IsComplete;
    LifeKeepsSend(a.out, a.accepted, a.wire, next);
  }

  lemma SendStepKeeps(a: Transfer, action: Action, b: Transfer)
    requires TransferOk(a) && SendStep(a, action, b)
    ensures TransferOk(b)
  {
    hide TransferOk, PushOutboundStep, LeaseOutboundStep, SealAttempt, Answered, AnsweredBy;
    if action.Push? {
      PushKeeps(a, action.contended, action.data, action.result, b);
    } else if action.Seal? {
      SealKeeps(a, action.outcome, b);
    } else if action.Lease? {
      LeaseKeeps(a, action.callis, action.peerMsgId, action.lease, b);
    } else if action.MarkInflight? {
      MarkKeeps(a, action.written, b);
    } else if action.LoseCallis? {
      CallisKeeps(a, action.lost, b);
    } else if action.TakeAck? {
      AckKeeps(a, action.ack, b);
    } else if action.TakeRefusal? {
      RefusalKeeps(a, action.refusal, b);
    } else if action.TakeComplete? {
      LifecycleKeeps(a, b, Completed);
    } else if action.Fail? {
      LifecycleKeeps(a, b, Failed(action.error));
    } else {
      LifecycleKeeps(a, b, Closed);
    }
  }

  // ---------------------------------------------------------------- steps of the receiving end

  /** A final chunk is the newest one. */
  predicate LastIsNewest(created: seq<Chunk>) {
    forall id :: 0 <= id < |created| && created[id].isLast ==> id == |created| - 1
  }

  lemma SealedOrNot(o: Outbound)
    requires SealOk(o)
    ensures LastIsNewest(o.sender.created)
  {
  }

  lemma NextAtMost(r: Inbound, created: seq<Chunk>)
    requires InboundOk(r) && (forall id :: id in r.received ==> id < |created|) && r.nextDeliver <= |created|
    ensures r.nextExpected <= |created|
  {
    assert r.nextExpected > r.nextDeliver ==> r.nextExpected - 1 in r.received;
  }

  /** The final chunk is let in only when it is the next one, and is then noticed. */
  lemma LastInserted(r: Inbound, created: seq<Chunk>, m: ChunkFrame)
    requires InboundOk(r) && (forall id :: id in r.received ==> id < |created|)
    requires FrameFits(created, m) && m.isLast && m.chunkId == |created| - 1
    requires Admissible(r, m.chunkId, m.data, m.isLast)
    ensures Inserted(r, m.chunkId, m.data, m.isLast).lastChunkId == Some(m.chunkId)
  {
    hide FirstMissing;
    assert m.chunkId == r.nextExpected;
    FirstMissingUnique(r.received[m.chunkId := m.data].Keys, m.chunkId, m.chunkId + 1);
  }

  lemma InsertedParts(r: Inbound, delivered: Bytes, created: seq<Chunk>, m: ChunkFrame)
    requires RecvOk(r, delivered, created) && FrameFits(created, m)
    ensures var next := Inserted(r, m.chunkId, m.data, m.isLast);
      && InboundOk(next) && next.nextDeliver == r.nextDeliver
      && (forall id :: id in next.received ==> id < |created| && next.received[id] == created[id].data)
      && (forall id :: StoredAt(r, id) ==> StoredAt(next, id))
      && (forall id :: StoredAt(next, id) ==> StoredAt(r, id) || id == m.chunkId)
      && (InsertError(r, m.chunkId, m.data, m.isLast).None? ==> StoredAt(next, m.chunkId))
      && (next.lastChunkId == r.lastChunkId || (m.isLast && next.lastChunkId == Some(m.chunkId)))
      && (m.chunkId == |created| - 1 && m.isLast && StoredAt(next, m.chunkId) ==> next.lastChunkId == Some(m.chunkId))
  {
    hide FirstMissing, Concat;
    InsertedOk(r, m.chunkId, m.data, m.isLast);
    if Admissible(r, m.chunkId, m.data, m.isLast) {
      KeptOk(r, m.chunkId, m.data);
      if m.chunkId == |created| - 1 && m.isLast {
        LastInserted(r, created, m);
      }
    }
  }

  lemma InsertedRecv(r: Inbound, delivered: Bytes, created: seq<Chunk>, m: ChunkFrame)
    requires RecvOk(r, delivered, created) && FrameFits(created, m) && LastIsNewest(created)
    ensures RecvOk(Inserted(r, m.chunkId, m.data, m.isLast), delivered, created)
    ensures forall id :: StoredAt(r, id) ==> StoredAt(Inserted(r, m.chunkId, m.data, m.isLast), id)
    ensures InsertError(r, m.chunkId, m.data, m.isLast).None? ==>
      StoredAt(Inserted(r, m.chunkId, m.data, m.isLast), m.chunkId)
  {
    hide Inserted, InsertError, InboundOk, Concat;
    InsertedParts(r, delivered, created, m);
    DeliverAtMost(r);
    NextAtMost(Inserted(r, m.chunkId, m.data, m.isLast), created);
  }

  lemma DeliverAtMost(r: Inbound)
    requires InboundOk(r)
    ensures r.nextDeliver <= r.nextExpected
  {
  }

  /** A ring that expects nothing more stays so. */
  lemma StaysExpected(r: Inbound, delivered: Bytes, created: seq<Chunk>, m: ChunkFrame)
    requires RecvOk(r, delivered, created) && FrameFits(created, m) && LastIsNewest(created) && AllExpected(r)
    ensures Inserted(r, m.chunkId, m.data, m.isLast) == r
  {
  }

  lemma StoredGrows(a: Transfer, b: Transfer, m: ChunkFrame)
    requires AnswersOk(a) && ChunksOk(a) && WireOk(a.wire, a.out.sender.created) && m in a.wire
    requires b == a.(inbound := b.inbound, refusals := b.refusals, acks := b.acks, reported := b.reported)
    requires forall id :: StoredAt(a.inbound, id) ==> StoredAt(b.inbound, id)
    requires b.acks == a.acks || (b.acks == a.acks + {m.peerMsgId} && StoredAt(b.inbound, m.chunkId))
    ensures forall n :: n in b.wire && n.peerMsgId in b.acks ==> StoredAt(b.inbound, n.chunkId)
    ensures forall p :: p in b.acks ==> !UnusedId(b.wire, p)
    ensures ChunksOk(b)
  {
    hide AllExpected, IsComplete;
  }

  lemma InsertKeeps(a: Transfer, m: ChunkFrame)
    requires TransferOk(a) && m in a.found
    ensures TransferOk(FrameInserted(a, m))
  {
    hide SenderOk, Stream, LeasesOk, Inserted, InsertError, RecvOk, Sealed, Unsealed, EndsInBytes, AllExpected;
    var b := FrameInserted(a, m);
    assert m in a.wire && FrameFits(a.out.sender.created, m);
    SealedOrNot(a.out);
    InsertedRecv(a.inbound, a.delivered, a.out.sender.created, m);
    StoredGrows(a, b, m);
    if a.reported {
      StaysExpected(a.inbound, a.delivered, a.out.sender.created, m);
    }
    CompleteStays(a, m);
  }

  lemma CompleteStays(a: Transfer, m: ChunkFrame)
    requires RecvOk(a.inbound, a.delivered, a.out.sender.created) && FrameFits(a.out.sender.created, m)
    requires LastIsNewest(a.out.sender.created)
    ensures IsComplete(a.inbound) ==> IsComplete(Inserted(a.inbound, m.chunkId, m.data, m.isLast))
  {
  }

  /** A last chunk that has been noticed is the newest, and the stream is sealed. */
  lemma LastReached(s: Sender, r: Inbound, delivered: Bytes)
    requires RecvOk(r, delivered, s.created) && (Sealed(s) || Unsealed(s)) && r.lastChunkId.Some?
    ensures Sealed(s) && r.lastChunkId.value == |s.created| - 1
  {
  }

  lemma AckLateKeeps(a: Transfer, m: ChunkFrame, b: Transfer)
    requires TransferOk(a) && RecvStep(a, AckLate(m), b)
    ensures TransferOk(b)
  {
    hide SenderOk, Stream, LeasesOk, InboundOk, Concat, AllExpected, LastNoticed, EndsInBytes;
    LastReached(a.out.sender, a.inbound, a.delivered);
    assert FrameFits(a.out.sender.created, m);
    assert StoredAt(a.inbound, m.chunkId);
    StoredGrows(a, b, m);
  }

  lemma TakenRecv(r: Inbound, delivered: Bytes, created: seq<Chunk>)
    requires RecvOk(r, delivered, created) && r.nextDeliver in r.received
    ensures RecvOk(Taken(r), delivered + r.received[r.nextDeliver], created)
    ensures forall id :: StoredAt(r, id) <==> StoredAt(Taken(r), id)
    ensures Taken(r).lastChunkId == r.lastChunkId && Taken(r).nextExpected == r.nextExpected
    ensures IsComplete(r) ==> IsComplete(Taken(r))
  {
    TakenOk(r);
    ConcatAppend(created[..r.nextDeliver], created[r.nextDeliver]);
    assert created[..r.nextDeliver + 1] == created[..r.nextDeliver] + [created[r.nextDeliver]];
  }

  lemma LookKeeps(a: Transfer, b: Transfer)
    requires TransferOk(a) && b == Looked(a)
    ensures TransferOk(b)
  {
    hide SendOk, RecvOk, Taken, IsComplete;
    if a.reader == RingSeen && a.inbound.nextDeliver in a.inbound.received {
      TakenRecv(a.inbound, a.delivered, a.out.sender.created);
    }
  }

  /** The rings and what was sent are untouched. */
  lemma FlagsKeep(a: Transfer, b: Transfer)
    requires TransferOk(a)
    requires b == a.(status := b.status, found := b.found, refusals := b.refusals, completeSent := b.completeSent,
                     completed := b.completed, failure := b.failure)
    requires b.found <= a.wire && (b.status == RecentlyCompleted ==> IsComplete(a.inbound))
    requires (b.completed ==> b.failure.Some? || a.reported) && (b.completeSent ==> a.reported)
    requires a.completeSent ==> b.completeSent
    ensures TransferOk(b)
  {
    hide SendOk, RecvOk, AllExpected, IsComplete;
  }

  lemma RecvStepKeeps(a: Transfer, action: Action, b: Transfer)
    requires TransferOk(a) && RecvStep(a, action, b)
    ensures TransferOk(b)
  {
    hide SendOk, RecvOk, ChunksOk, FrameInserted, Looked, AllExpected, IsComplete;
    if action.InsertFrame? {
      InsertKeeps(a, action.frame);
    } else if action.AckLate? {
      AckLateKeeps(a, action.frame, b);
    } else if action.Look? {
      LookKeeps(a, b);
    } else {
      FlagsKeep(a, b);
    }
  }

  // ---------------------------------------------------------------- runs

  lemma StepKeeps(a: Transfer, action: Action, b: Transfer)
    requires TransferOk(a) && Step(a, action, b)
    ensures TransferOk(b)
  {
    hide TransferOk, SendStep, RecvStep;
    if SendStep(a, action, b) {
      SendStepKeeps(a, action, b);
    } else {
      RecvStepKeeps(a, action, b);
    }
  }

  lemma InitOk(t: Transfer)
    requires Init(t)
    ensures TransferOk(t)
  {
    assert t.out.sender.created[..0] == [];
  }

  lemma {:induction false} RunKeeps(states: seq<Transfer>, actions: seq<Action>, n: nat)
    requires IsRun(states, actions) && n < |states|
    ensures TransferOk(states[n])
  {
    hide TransferOk, Step, Init;
    if n == 0 {
      InitOk(states[0]);
    } else {
      RunKeeps(states, actions, n - 1);
      StepKeeps(states[n - 1], actions[n - 1], states[n]);
    }
  }

  // ---------------------------------------------------------------- what every run guarantees

  /** The bytes read so far are always a prefix of the bytes accepted so far. */
  lemma DeliversPrefix(states: seq<Transfer>, actions: seq<Action>, n: nat)
    requires IsRun(states, actions) && n < |states|
    ensures states[n].delivered <= states[n].accepted
    ensures IsComplete(states[n].inbound) ==> states[n].delivered == states[n].accepted
  {
    hide Step, IsRun;
    RunKeeps(states, actions, n);
    PrefixDelivered(states[n]);
  }

  lemma PrefixDelivered(t: Transfer)
    requires TransferOk(t)
    ensures t.delivered <= t.accepted
    ensures IsComplete(t.inbound) ==> t.delivered == t.accepted && Sealed(t.out.sender)
  {
    hide SenderOk, Concat, LeasesOk, WireOk, LastNoticed;
    var s := t.out.sender;
    ConcatPrefix(s.created, t.inbound.nextDeliver);
    assert Concat(s.created) <= Stream(s);
    if IsComplete(t.inbound) {
      LastReached(s, t.inbound, t.delivered);
      assert s.created[..t.inbound.nextDeliver] == s.created;
    }
  }

  /** Everything the receiver has stored without a gap: read already, or ready to be read. */
  function Reassembled(r: Inbound, delivered: Bytes): Bytes
    requires forall id :: r.nextDeliver <= id < r.nextExpected ==> id in r.received
    decreases r.nextExpected - r.nextDeliver
  {
    if r.nextDeliver < r.nextExpected then
      Reassembled(r.(nextDeliver := r.nextDeliver + 1), delivered + r.received[r.nextDeliver])
    else delivered
  }

  lemma {:induction false} ReassembledIs(r: Inbound, delivered: Bytes, created: seq<Chunk>)
    requires r.nextDeliver <= r.nextExpected <= |created| && delivered == Concat(created[..r.nextDeliver])
    requires forall id :: r.nextDeliver <= id < r.nextExpected ==> id in r.received
    requires forall id :: id in r.received ==> id < |created| && r.received[id] == created[id].data
    ensures Reassembled(r, delivered) == Concat(created[..r.nextExpected])
    decreases r.nextExpected - r.nextDeliver
  {
    if r.nextDeliver >= r.nextExpected {
    } else {
      ConcatAppend(created[..r.nextDeliver], created[r.nextDeliver]);
      assert created[..r.nextDeliver + 1] == created[..r.nextDeliver] + [created[r.nextDeliver]];
      ReassembledIs(r.(nextDeliver := r.nextDeliver + 1), delivered + r.received[r.nextDeliver], created);
    }
  }

  /** With everything expected in, the receiver has stored the whole stream. */
  lemma AllStored(t: Transfer)
    requires TransferOk(t) && AllExpected(t.inbound)
    ensures InboundOk(t.inbound) && Reassembled(t.inbound, t.delivered) == t.accepted
    ensures Sealed(t.out.sender) && t.inbound.nextExpected == |t.out.sender.created|
  {
    hide SenderOk, Concat, LeasesOk, WireOk, LastNoticed;
    var created := t.out.sender.created;
    LastReached(t.out.sender, t.inbound, t.delivered);
    ReassembledIs(t.inbound, t.delivered, created);
    assert created[..t.inbound.nextExpected] == created;
  }

  /**
   * A sender is told of success only when every chunk was acknowledged, nothing is left to send, and
   * the receiver has stored, in order and without a gap, every byte ever accepted.
   */
  lemma HonestCompletion(states: seq<Transfer>, actions: seq<Action>, n: nat)
    requires IsRun(states, actions) && n < |states|
    requires CompletionVerdict(states[n].out) == Some(Ok(Unit))
    ensures forall id :: 0 <= id < |states[n].out.sender.created| ==> id in states[n].acked
    ensures InboundOk(states[n].inbound) && Reassembled(states[n].inbound, states[n].delivered) == states[n].accepted
  {
    hide Step, IsRun, SendOk, RecvOk, AllExpected;
    RunKeeps(states, actions, n);
    AllStored(states[n]);
  }

  /** Unless the stream has failed, no chunk is lost: it is acknowledged and stored, or still to be answered. */
  lemma NoChunkLost(states: seq<Transfer>, actions: seq<Action>, n: nat, id: nat)
    requires IsRun(states, actions) && n < |states|
    requires !states[n].out.lifecycle.Failed? && id < |states[n].out.sender.created|
    ensures id in states[n].out.sender.live || (id in states[n].acked && StoredAt(states[n].inbound, id))
  {
    hide Step, IsRun, SendOk, RecvOk, AnswersOk;
    RunKeeps(states, actions, n);
  }

  /** A final chunk is the newest one, there is never a second, and nothing is accepted after it. */
  lemma OneFinalChunk(states: seq<Transfer>, actions: seq<Action>, n: nat, id: nat)
    requires IsRun(states, actions) && n < |states|
    requires id < |states[n].out.sender.created| && states[n].out.sender.created[id].isLast
    ensures id == |states[n].out.sender.created| - 1
    ensures states[n].accepted == Concat(states[n].out.sender.created)
    ensures SenderError(states[n].out.lifecycle).Some?
  {
    hide Step, IsRun, RecvOk, AnswersOk, ChunksOk, SenderOk, Concat;
    RunKeeps(states, actions, n);
  }

  /** An acknowledgement for an attempt that is no longer the one awaited changes nothing at the sender. */
  lemma SupersededAckHarmless(states: seq<Transfer>, actions: seq<Action>, n: nat, m: ChunkFrame)
    requires IsRun(states, actions) && n < |states| && m in states[n].wire
    requires m.chunkId in states[n].out.sender.live ==>
      !AwaitsAnswer(states[n].out.sender.live[m.chunkId], m.peerMsgId)
    ensures AckNoted(states[n].out, m.peerMsgId) == states[n].out
  {
    hide Step, IsRun, RecvOk, AnswersOk, ChunksOk, SenderOk, SealOk, Stream;
    RunKeeps(states, actions, n);
    var s := states[n].out.sender;
    assert AnsweredBy(s, m.peerMsgId) == {};
    assert s.live - {} == s.live;
  }
}
