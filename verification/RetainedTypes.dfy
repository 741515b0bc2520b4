/** The values held by the retained outbound store: lanes, items, slots and queue keys. */
module RetainedTypes {
  import opened Common

  datatype RetainedLane = A1Ack | A1Error | A2 | A3

  predicate IsTrackedLane(lane: RetainedLane) {
    lane.A2? || lane.A3?
  }

  function LaneRank(lane: RetainedLane): nat {
    match lane
    case A1Ack => 0
    case A1Error => 1
    case A2 => 2
    case A3 => 3
  }

  datatype SlotState =
    | Empty
    | Ready
    | ReplayReady(lastSentCallis: CallisId)
    | Writing(callis: CallisId)
    | Inflight(lastSentCallis: CallisId)

  datatype PeerMessage = PeerMessage(
    peerMsgId: PeerMessageId, srcTaberna: nat, dstTaberna: nat,
    msgType: MessageType, flags: nat, payload: seq<Byte>)

  datatype OutboundFrame =
    | AckFrame(peerMsgId: PeerMessageId)
    | MessageFrame(message: PeerMessage)
    | ControlFrame(msgType: MessageType, peerMsgId: PeerMessageId, payload: seq<Byte>)

  /** A one-shot completion sender; the number stands for the channel's identity. */
  type CompletionSender = nat

  datatype TrackedOutbound = TrackedOutbound(message: PeerMessage, ackTx: CompletionSender)

  datatype RetainedItem =
    | AckItem(ackId: PeerMessageId)
    | ErrorItem(errorId: PeerMessageId, frame: OutboundFrame)
    | TrackedItem(tracked: TrackedOutbound)
  {
    function PeerMsgId(): PeerMessageId {
      match this
      case AckItem(id) => id
      case ErrorItem(id, _) => id
      case TrackedItem(t) => t.message.peerMsgId
    }

    function Kind(): ItemKind {
      match this
      case AckItem(_) => AckKind
      case ErrorItem(_, _) => ErrorKind
      case TrackedItem(_) => TrackedKind
    }
  }

  datatype ItemKind = AckKind | ErrorKind | TrackedKind

  datatype ItemIdentity = ItemIdentity(peerMsgId: PeerMessageId, seqNo: nat, kind: ItemKind)

  datatype SlotId = SlotId(lane: RetainedLane, index: nat)

  datatype QueueKey = QueueKey(index: nat, seqNo: nat)

  datatype DeadlineKey = DeadlineKey(deadline: Instant, slot: SlotId, seqNo: nat)

  datatype RetainedSlot = RetainedSlot(
    item: Option<RetainedItem>, deadline: Instant, seqNo: nat, state: SlotState)
  {
    function Identity(): Option<ItemIdentity> {
      match item
      case None => None
      case Some(it) => Some(ItemIdentity(it.PeerMsgId(), seqNo, it.Kind()))
    }
  }

  function EmptySlot(): RetainedSlot {
    RetainedSlot(None, 0, 0, Empty)
  }

  datatype RetainedWriteItem =
    | WriteAck(ackId: PeerMessageId)
    | WriteError(errorId: PeerMessageId, frame: OutboundFrame)
    | WriteMessage(messageId: PeerMessageId, message: PeerMessage)

  function WriteItem(item: RetainedItem): RetainedWriteItem {
    match item
    case AckItem(id) => WriteAck(id)
    case ErrorItem(id, frame) => WriteError(id, frame)
    case TrackedItem(t) => WriteMessage(t.message.peerMsgId, t.message)
  }

  datatype RetainedClaim = RetainedClaim(
    slot: SlotId, identity: ItemIdentity, callis: CallisId,
    deadline: Instant, item: RetainedWriteItem)

  datatype SendResult = Delivered | Failed(error: ErrorId)

  datatype CompletionEffect = CompletionEffect(
    peerMsgId: PeerMessageId, ackTx: CompletionSender, result: SendResult)

  datatype ResponseKind = AckResponse | ErrorResponse

  datatype ResponseInsertOutcome =
    | Inserted
    | DuplicateResponse(attempted: ResponseKind, peerMsgId: PeerMessageId)
    | ResponseFull(lane: RetainedLane, peerMsgId: PeerMessageId)
    | ResponseShutdown(peerMsgId: PeerMessageId)
    | ResponseExpired(peerMsgId: PeerMessageId)

  /** Why a tracked admission was refused; each constructor hands the message back. */
  datatype RetainedInsertError =
    | Full(tracked: TrackedOutbound)
    | Duplicate(tracked: TrackedOutbound)
    | Shutdown(tracked: TrackedOutbound)
    | Expired(tracked: TrackedOutbound)
    | A1Tracked(tracked: TrackedOutbound)

  const A1_MESSAGE_TYPE_MAX: nat := 0x0000_FFFF
  const A2_MESSAGE_TYPE_MAX: nat := 0x00FF_FFFF

  datatype PriorityTier = TierA1 | TierA2 | TierA3

  function ClassifyPriority(msgType: MessageType): PriorityTier {
    if msgType <= A1_MESSAGE_TYPE_MAX then TierA1
    else if msgType <= A2_MESSAGE_TYPE_MAX then TierA2
    else TierA3
  }

  function TrackedLane(msgType: MessageType): RetainedLane
    requires !ClassifyPriority(msgType).TierA1?
  {
    if ClassifyPriority(msgType).TierA2? then A2 else A3
  }

  datatype RetainedCapacities = RetainedCapacities(a1Ack: nat, a1Error: nat, a2: nat, a3: nat)
  {
    function Capacity(lane: RetainedLane): nat {
      match lane
      case A1Ack => a1Ack
      case A1Error => a1Error
      case A2 => a2
      case A3 => a3
    }

    /** The target a lane really gets: capacities are never taken below one. */
    function Target(lane: RetainedLane): nat {
      if Capacity(lane) == 0 then 1 else Capacity(lane)
    }
  }
}
