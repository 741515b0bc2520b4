/**
 * What the retained outbound store promises, without its slot vectors, free lists, lazily
 * invalidated queues, deadline heap or id indexes.
 *
 * A store is a map from admission number to live entry. `turn` is the moment an entry last became
 * `Ready`; fresh work is claimed in `turn` order.
 */
module RetainedSpec {
  import opened Common
  import opened RetainedTypes

  datatype Entry = Entry(
    slot: SlotId, item: RetainedItem, deadline: Instant, state: SlotState, turn: nat)

  datatype Store = Store(
    entries: map<nat, Entry>, nextSeq: nat, clock: nat, shutdown: bool,
    target: map<RetainedLane, nat>)

  predicate ItemFitsLane(item: RetainedItem, lane: RetainedLane) {
    match item
    case AckItem(_) => lane.A1Ack?
    case ErrorItem(_, _) => lane.A1Error?
    case TrackedItem(t) =>
      !ClassifyPriority(t.message.msgType).TierA1? && lane == TrackedLane(t.message.msgType)
  }

  /** Responses are never in flight and never replayed: they are ready or being written. */
  predicate StateFitsItem(item: RetainedItem, state: SlotState) {
    !state.Empty? && (!item.TrackedItem? ==> state.Ready? || state.Writing?)
  }

  predicate EntryOk(a: Store, s: nat)
    requires s in a.entries
  {
    var e := a.entries[s];
    && s < a.nextSeq
    && e.turn < a.clock
    && ItemFitsLane(e.item, e.slot.lane)
    && StateFitsItem(e.item, e.state)
  }

  /** Distinct live entries sit in distinct slots and, within one id index, have distinct ids. */
  predicate Apart(e: Entry, f: Entry) {
    && e.slot != f.slot
    && (e.item.TrackedItem? == f.item.TrackedItem? ==> e.item.PeerMsgId() != f.item.PeerMsgId())
  }

  ghost predicate Inv(a: Store) {
    && (forall lane :: lane in a.target && a.target[lane] >= 1)
    && (forall s :: s in a.entries ==> EntryOk(a, s))
    && (forall s, t :: s in a.entries && t in a.entries && s != t ==> Apart(a.entries[s], a.entries[t]))
    && (forall s, t | s in a.entries && t in a.entries && s < t && Fresh(a.entries[s]) && Fresh(a.entries[t]) ::
          a.entries[s].turn < a.entries[t].turn)
  }

  /** A tracked message that has not been handed to any connection yet. */
  predicate Fresh(e: Entry) {
    e.item.TrackedItem? && e.state.Ready?
  }

  function Init(capacities: RetainedCapacities): Store {
    Store(map[], 1, 0, false, map lane: RetainedLane | true :: capacities.Target(lane))
  }

  function InLane(entries: map<nat, Entry>, lane: RetainedLane): set<nat> {
    set s | s in entries && entries[s].slot.lane == lane
  }

  predicate HoldsTracked(a: Store, id: PeerMessageId) {
    exists s :: s in a.entries && a.entries[s].item.TrackedItem? && a.entries[s].item.PeerMsgId() == id
  }

  predicate HoldsResponse(a: Store, id: PeerMessageId) {
    exists s :: s in a.entries && !a.entries[s].item.TrackedItem? && a.entries[s].item.PeerMsgId() == id
  }

  // ---------------------------------------------------------------- admission

  predicate Admitted(a: Store, slot: SlotId, item: RetainedItem, deadline: Instant, b: Store) {
    && (forall s :: s in a.entries ==> a.entries[s].slot != slot)
    && b == a.(entries := a.entries[a.nextSeq := Entry(slot, item, deadline, Ready, a.clock)],
               nextSeq := a.nextSeq + 1, clock := a.clock + 1)
  }

  /** `item` takes a slot of `lane` that no live entry holds, and joins the end of the lane. */
  predicate AdmittedIn(a: Store, lane: RetainedLane, item: RetainedItem, deadline: Instant, b: Store) {
    && a.nextSeq in b.entries
    && b.entries[a.nextSeq].slot.lane == lane
    && Admitted(a, b.entries[a.nextSeq].slot, item, deadline, b)
  }

  predicate LaneFull(a: Store, lane: RetainedLane) {
    lane in a.target && |InLane(a.entries, lane)| >= a.target[lane]
  }

  predicate InsertResponseStep(
    a: Store, kind: ResponseKind, item: RetainedItem, deadline: Instant, now: Instant,
    outcome: ResponseInsertOutcome, b: Store)
  {
    var lane := if kind.AckResponse? then A1Ack else A1Error;
    var id := item.PeerMsgId();
    if a.shutdown then outcome == ResponseShutdown(id) && b == a
    else if now >= deadline then outcome == ResponseExpired(id) && b == a
    else if HoldsResponse(a, id) then outcome == DuplicateResponse(kind, id) && b == a
    else if LaneFull(a, lane) then
      outcome == ResponseFull(lane, id) && b == a.(nextSeq := a.nextSeq + 1)
    else outcome == Inserted && AdmittedIn(a, lane, item, deadline, b)
  }

  predicate InsertTrackedStep(
    a: Store, tracked: TrackedOutbound, deadline: Instant, now: Instant,
    outcome: Result<Unit, RetainedInsertError>, b: Store)
  {
    var msgType := tracked.message.msgType;
    if a.shutdown then outcome == Err(Shutdown(tracked)) && b == a
    else if now >= deadline then outcome == Err(Expired(tracked)) && b == a
    else if HoldsTracked(a, tracked.message.peerMsgId) then outcome == Err(Duplicate(tracked)) && b == a
    else if ClassifyPriority(msgType).TierA1? then outcome == Err(A1Tracked(tracked)) && b == a
    else if LaneFull(a, TrackedLane(msgType)) then outcome == Err(Full(tracked)) && b == a
    else outcome == Ok(Unit) && AdmittedIn(a, TrackedLane(msgType), TrackedItem(tracked), deadline, b)
  }

  // ---------------------------------------------------------------- dispatch

  /** Entry `s` may be handed to a connection now. */
  predicate Dispatchable(a: Store, s: nat) {
    && s in a.entries
    && (a.entries[s].state.Ready? || a.entries[s].state.ReplayReady?)
    && (a.shutdown ==> !IsTrackedLane(a.entries[s].slot.lane))
  }

  predicate HasDispatchable(a: Store) {
    exists s :: s in a.entries && Dispatchable(a, s)
  }

  /** `s` goes out before `t`: a higher lane first, replay before fresh, then oldest `turn`. */
  predicate Precedes(e: Entry, f: Entry) {
    || LaneRank(e.slot.lane) < LaneRank(f.slot.lane)
    || (e.slot.lane == f.slot.lane && e.state.ReplayReady?)
    || (e.slot.lane == f.slot.lane && e.state.Ready? && f.state.Ready? && e.turn <= f.turn)
  }

  function ClaimOf(s: nat, e: Entry, callis: CallisId): RetainedClaim {
    RetainedClaim(e.slot, ItemIdentity(e.item.PeerMsgId(), s, e.item.Kind()), callis, e.deadline,
                  WriteItem(e.item))
  }

  function WithState(a: Store, s: nat, state: SlotState): Store
    requires s in a.entries
  {
    a.(entries := a.entries[s := a.entries[s].(state := state)])
  }

  predicate Waiting(state: SlotState, replay: bool) {
    if replay then state.ReplayReady? else state.Ready?
  }

  /** A claim on one queue of one lane: nothing exactly when nobody waits there, else the oldest fresh one. */
  predicate QueueClaim(
    a: Store, lane: RetainedLane, replay: bool, callis: CallisId, outcome: Option<RetainedClaim>, b: Store)
  {
    match outcome
    case None =>
      b == a && (forall t :: t in a.entries && a.entries[t].slot.lane == lane ==> !Waiting(a.entries[t].state, replay))
    case Some(claim) =>
      var s := claim.identity.seqNo;
      && s in a.entries && a.entries[s].slot.lane == lane && Waiting(a.entries[s].state, replay)
      && claim == ClaimOf(s, a.entries[s], callis)
      && (!replay ==> forall t :: t in a.entries && a.entries[t].slot.lane == lane && a.entries[t].state.Ready? ==>
            a.entries[s].turn <= a.entries[t].turn)
      && b == WithState(a, s, Writing(callis))
  }

  /** A claim on one lane: nothing exactly when nothing is dispatchable there. */
  predicate LaneClaim(a: Store, lane: RetainedLane, callis: CallisId, outcome: Option<RetainedClaim>, b: Store) {
    match outcome
    case None => b == a && (forall t :: t in a.entries && a.entries[t].slot.lane == lane ==> !Dispatchable(a, t))
    case Some(claim) =>
      var s := claim.identity.seqNo;
      && Dispatchable(a, s) && a.entries[s].slot.lane == lane
      && claim == ClaimOf(s, a.entries[s], callis)
      && (forall t :: t in a.entries && Dispatchable(a, t) && a.entries[t].slot.lane == lane ==>
        Precedes(a.entries[s], a.entries[t]))
      && b == WithState(a, s, Writing(callis))
  }

  predicate ClaimStep(a: Store, callis: CallisId, outcome: Option<RetainedClaim>, b: Store) {
    match outcome
    case None => !HasDispatchable(a) && b == a
    case Some(claim) =>
      var s := claim.identity.seqNo;
      && Dispatchable(a, s)
      && claim == ClaimOf(s, a.entries[s], callis)
      && (forall t :: t in a.entries && Dispatchable(a, t) ==> Precedes(a.entries[s], a.entries[t]))
      && b == WithState(a, s, Writing(callis))
  }

  /** The claim still names the item it was made for, and that item is still being written. */
  predicate Current(a: Store, claim: RetainedClaim) {
    var s := claim.identity.seqNo;
    && s in a.entries
    && a.entries[s].slot == claim.slot
    && a.entries[s].state == Writing(claim.callis)
    && a.entries[s].item.PeerMsgId() == claim.identity.peerMsgId
    && a.entries[s].item.Kind() == claim.identity.kind
  }

  function Without(a: Store, s: nat): Store {
    a.(entries := a.entries - {s})
  }

  function Requeued(a: Store, s: nat): Store
    requires s in a.entries
  {
    a.(entries := a.entries[s := a.entries[s].(state := Ready, turn := a.clock)], clock := a.clock + 1)
  }

  function AfterWrite(a: Store, claim: RetainedClaim, succeeded: bool): Store {
    var s := claim.identity.seqNo;
    if !Current(a, claim) then a
    else if a.entries[s].item.TrackedItem? then
      WithState(a, s, if succeeded then Inflight(claim.callis) else ReplayReady(claim.callis))
    else if succeeded then Without(a, s)
    else Requeued(a, s)
  }

  // ---------------------------------------------------------------- completion

  function EffectFor(e: Entry, result: SendResult): CompletionEffect
    requires e.item.TrackedItem?
  {
    CompletionEffect(e.item.PeerMsgId(), e.item.tracked.ackTx, result)
  }

  /** `effects` answers every tracked entry of `gone` exactly once and nothing else. */
  ghost predicate Settles(gone: map<nat, Entry>, effects: seq<CompletionEffect>, result: SendResult) {
    && (forall i :: 0 <= i < |effects| ==> SettledBy(gone, effects[i], result))
    && (forall s :: s in gone && gone[s].item.TrackedItem? ==> EffectFor(gone[s], result) in effects)
    && (forall i, j :: 0 <= i < j < |effects| ==> effects[i].peerMsgId != effects[j].peerMsgId)
  }

  ghost predicate SettledBy(gone: map<nat, Entry>, effect: CompletionEffect, result: SendResult) {
    exists s :: s in gone && gone[s].item.TrackedItem? && effect == EffectFor(gone[s], result)
  }

  function Part(a: Store, gone: set<nat>): map<nat, Entry> {
    map s | s in a.entries && s in gone :: a.entries[s]
  }

  ghost predicate RemoveStep(
    a: Store, gone: set<nat>, effects: seq<CompletionEffect>, result: SendResult, b: Store)
  {
    && b == a.(entries := a.entries - gone)
    && Settles(Part(a, gone), effects, result)
  }

  function TrackedSeqs(a: Store): set<nat> {
    set s | s in a.entries && a.entries[s].item.TrackedItem?
  }

  function ResponseSeqs(a: Store): set<nat> {
    set s | s in a.entries && !a.entries[s].item.TrackedItem?
  }

  function TrackedWithId(a: Store, id: PeerMessageId): set<nat> {
    set s | s in a.entries && a.entries[s].item.TrackedItem? && a.entries[s].item.PeerMsgId() == id
  }

  function DueSeqs(a: Store, now: Instant): set<nat> {
    set s | s in a.entries && a.entries[s].deadline <= now
  }

  function AsSeq(effect: Option<CompletionEffect>): seq<CompletionEffect> {
    match effect
    case None => []
    case Some(e) => [e]
  }

  predicate NextDeadlineIs(a: Store, outcome: Option<Instant>) {
    match outcome
    case None => a.entries == map[]
    case Some(d) =>
      && (exists s :: s in a.entries && a.entries[s].deadline == d)
      && (forall s :: s in a.entries ==> d <= a.entries[s].deadline)
  }

  /** No acknowledgement or error response is retained: the drain condition of shutdown. */
  predicate ResponsesDrained(a: Store) {
    forall s :: s in a.entries ==> IsTrackedLane(a.entries[s].slot.lane)
  }

  // ---------------------------------------------------------------- replay

  /** The state a tracked item gets when it must be sent again. */
  function Replayed(state: SlotState): SlotState {
    match state
    case Writing(c) => ReplayReady(c)
    case Inflight(c) => ReplayReady(c)
    case _ => state
  }

  function MarkedReplay(a: Store, who: set<nat>): Store {
    a.(entries := map s | s in a.entries ::
         if s in who && a.entries[s].item.TrackedItem?
         then a.entries[s].(state := Replayed(a.entries[s].state)) else a.entries[s])
  }

  predicate OnCallis(e: Entry, callis: CallisId) {
    e.state == Writing(callis) || e.state == Inflight(callis)
  }

  /** A response that the loss of `callis` sends back to the end of its lane. */
  predicate Returns(e: Entry, callis: CallisId) {
    e.slot.lane.A1Error? && e.state == Writing(callis)
  }

  predicate CallisLostEntry(e: Entry, callis: CallisId, f: Entry) {
    if Returns(e, callis) then f == e.(state := Ready, turn := f.turn)
    else if e.item.TrackedItem? && OnCallis(e, callis) then f == e.(state := ReplayReady(callis))
    else f == e
  }

  ghost predicate CallisLostStep(a: Store, callis: CallisId, b: Store) {
    && b == a.(entries := b.entries, clock := b.clock)
    && b.clock >= a.clock
    && b.entries.Keys == a.entries.Keys
    && (forall s :: s in a.entries ==> CallisLostEntry(a.entries[s], callis, b.entries[s]))
    && (forall s :: s in a.entries && Returns(a.entries[s], callis) ==> a.clock <= b.entries[s].turn < b.clock)
    && (forall s, t | s in a.entries && t in a.entries && Returns(a.entries[s], callis)
      && Returns(a.entries[t], callis) ::
          a.entries[s].slot.index < a.entries[t].slot.index ==> b.entries[s].turn < b.entries[t].turn)
  }

  predicate SweptSlot(slot: SlotId, lane: RetainedLane, bound: nat) {
    slot.lane == lane && slot.index < bound
  }

  /** One entry, once the loss of `callis` has reached the slots of `lane` below `bound`. */
  predicate SweptEntry(a: Store, callis: CallisId, b: Store, lane: RetainedLane, bound: nat, s: nat)
    requires s in a.entries && s in b.entries
  {
    if SweptSlot(a.entries[s].slot, lane, bound) then
      && CallisLostEntry(a.entries[s], callis, b.entries[s])
      && (Returns(a.entries[s], callis) ==> a.clock <= b.entries[s].turn < b.clock)
    else b.entries[s] == a.entries[s]
  }

  /** Swept responses rejoin their lane in slot order. */
  ghost predicate SweptInOrder(a: Store, callis: CallisId, b: Store, lane: RetainedLane, bound: nat) {
    forall s, t | s in a.entries && t in a.entries && s in b.entries && t in b.entries
      && Returns(a.entries[s], callis) && Returns(a.entries[t], callis)
      && SweptSlot(a.entries[s].slot, lane, bound) && SweptSlot(a.entries[t].slot, lane, bound) ::
      a.entries[s].slot.index < a.entries[t].slot.index ==> b.entries[s].turn < b.entries[t].turn
  }

  ghost predicate SweptUpTo(a: Store, callis: CallisId, b: Store, lane: RetainedLane, bound: nat) {
    && b == a.(entries := b.entries, clock := b.clock)
    && b.clock >= a.clock
    && b.entries.Keys == a.entries.Keys
    && (forall s :: s in a.entries ==> SweptEntry(a, callis, b, lane, bound, s))
    && SweptInOrder(a, callis, b, lane, bound)
  }

  ghost predicate Swept(a: Store, callis: CallisId, b: Store, lane: RetainedLane) {
    exists bound: nat :: SweptUpTo(a, callis, b, lane, bound)
      && forall s :: s in a.entries && a.entries[s].slot.lane == lane ==> a.entries[s].slot.index < bound
  }

  // ---------------------------------------------------------------- the transition system

  datatype Op =
    | SetCapacities(capacities: RetainedCapacities)
    | SetShutdown
    | InsertAck(id: PeerMessageId, deadline: Instant, now: Instant, response: ResponseInsertOutcome)
    | InsertError(id: PeerMessageId, frame: OutboundFrame, deadline: Instant, now: Instant,
                  response: ResponseInsertOutcome)
    | InsertTracked(tracked: TrackedOutbound, deadline: Instant, now: Instant,
                    admission: Result<Unit, RetainedInsertError>)
    | ClaimNext(callis: CallisId, claimed: Option<RetainedClaim>)
    | CompleteWrite(claim: RetainedClaim, succeeded: bool)
    | AckReceived(id: PeerMessageId, effect: Option<CompletionEffect>)
    | FailOne(id: PeerMessageId, error: ErrorId, effect: Option<CompletionEffect>)
    | FailAll(error: ErrorId, effects: seq<CompletionEffect>)
    | FailNonA1(error: ErrorId, effects: seq<CompletionEffect>)
    | MarkCallisReplayReady(callis: CallisId)
    | MarkAllTrackedReplayReady
    | MarkTrackedReplayReady(ids: seq<PeerMessageId>)
    | ExpireDue(now: Instant, effects: seq<CompletionEffect>)
    | NextDeadline(earliest: Option<Instant>)
    | BeginShutdown(error: ErrorId, effects: seq<CompletionEffect>)
    | DropResponses

  ghost predicate Step(a: Store, op: Op, b: Store) {
    match op
    case SetCapacities(caps) => b == a.(target := Init(caps).target)
    case SetShutdown => b == a.(shutdown := true)
    case InsertAck(id, deadline, now, out) =>
      InsertResponseStep(a, AckResponse, AckItem(id), deadline, now, out, b)
    case InsertError(id, frame, deadline, now, out) =>
      InsertResponseStep(a, ErrorResponse, ErrorItem(id, frame), deadline, now, out, b)
    case InsertTracked(tracked, deadline, now, out) => InsertTrackedStep(a, tracked, deadline, now, out, b)
    case ClaimNext(callis, out) => ClaimStep(a, callis, out, b)
    case CompleteWrite(claim, succeeded) => b == AfterWrite(a, claim, succeeded)
    case AckReceived(id, out) => RemoveStep(a, TrackedWithId(a, id), AsSeq(out), Delivered, b)
    case FailOne(id, error, out) => RemoveStep(a, TrackedWithId(a, id), AsSeq(out), Failed(error), b)
    case FailAll(error, outs) => RemoveStep(a, TrackedSeqs(a), outs, Failed(error), b)
    case FailNonA1(error, outs) => RemoveStep(a, TrackedSeqs(a), outs, Failed(error), b)
    case MarkCallisReplayReady(callis) => CallisLostStep(a, callis, b)
    case MarkAllTrackedReplayReady => b == MarkedReplay(a, TrackedSeqs(a))
    case MarkTrackedReplayReady(ids) =>
      b == MarkedReplay(a, set s | s in a.entries && a.entries[s].item.PeerMsgId() in ids)
    case ExpireDue(now, outs) => RemoveStep(a, DueSeqs(a, now), outs, Failed(SendTimeout), b)
    case NextDeadline(out) => NextDeadlineIs(a, out) && b == a
    case BeginShutdown(error, outs) =>
      RemoveStep(a.(shutdown := true), TrackedSeqs(a), outs, Failed(error), b)
    case DropResponses => b == a.(entries := a.entries - ResponseSeqs(a))
  }
}
