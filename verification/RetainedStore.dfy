/**
 * The retained outbound store itself: lane records, id indexes and deadline heap, updated in place
 * by one method per operation. Each method is proved to be a step of the specification.
 */
module RetainedStores {
  import opened Common
  import opened RetainedTypes
  import opened RetainedSpec
  import opened RetainedLanes
  import opened RetainedInvariant
  import opened RetainedRuns
  import opened RetainedRefinement

  // ---------------------------------------------------------------- lane records

  function AtLeastOne(n: nat): nat {
    if n == 0 then 1 else n
  }

  method NewLane(lane: RetainedLane, targetCapacity: nat) returns (v: Lane)
    ensures v.target == AtLeastOne(targetCapacity)
    ensures LaneOk(lane, v, 1) && Occupied(v.slots) == {} && v.ready == [] && v.replay == []
  {
    var target := AtLeastOne(targetCapacity);
    var slots, free := [], [];
    for index := 0 to target
      invariant |slots| == index && forall i :: 0 <= i < index ==> slots[i] == EmptySlot()
      invariant |free| == index && forall i :: 0 <= i < index ==> free[i] == target - 1 - i
    {
      slots := slots + [EmptySlot()];
      // Aurelia pushes ascending numbers and reverses the list once.
      free := free + [target - 1 - index];
    }
    v := Lane(slots, free, [], [], target, 0);
    forall i: nat | i < target ensures i in free {
      assert free[target - 1 - i] == i;
    }
    assert Occupied(slots) == {};
  }

  method SetTargetCapacity(v: Lane, targetCapacity: nat) returns (w: Lane)
    ensures w == Grown(v, AtLeastOne(targetCapacity)) && w.replay == v.replay
  {
    var target := AtLeastOne(targetCapacity);
    w := v;
    if target > |w.slots| {
      for index := |w.slots| to target
        invariant |w.slots| == index
        invariant w == v.(slots := v.slots + seq(index - |v.slots|, _ => EmptySlot()),
                          free := v.free + seq(index - |v.slots|, i requires 0 <= i => |v.slots| + i))
      {
        w := w.(slots := w.slots + [EmptySlot()], free := w.free + [index]);
      }
    }
    w := w.(target := target);
  }

  /** Allocation fails exactly when the lane is at or above its target. */
  method AllocateSlot(lane: RetainedLane, v: Lane, item: RetainedItem, deadline: Instant, seqNo: nat)
    returns (w: Lane, r: Option<SlotId>)
    requires LaneOk(lane, v, seqNo)
    ensures r.Some? <==> v.live < v.target
    ensures r.None? ==> w == v
    ensures r.Some? ==>
      && v.free != [] && v.free[|v.free| - 1] < |v.slots|
      && r.value == SlotId(lane, v.free[|v.free| - 1])
      && w == Allocated(v, item, deadline, seqNo)
    ensures w.replay == v.replay
  {
    w, r := v, None;
    if w.live < w.target {
      var index: nat, found := |w.slots|, true;
      if |w.free| > 0 {
        index := w.free[|w.free| - 1];
        w := w.(free := w.free[..|w.free| - 1]);
      } else if |w.slots| < w.target {
        w := w.(slots := w.slots + [EmptySlot()]);
      } else {
        found := false;
      }
      RoomMeansFree(lane, v, seqNo);
      if found {
        w := w.(slots := w.slots[index := RetainedSlot(Some(item), deadline, seqNo, Ready)]);
        w := w.(live := w.live + 1);
        w := w.(ready := w.ready + [QueueKey(index, seqNo)]);
        r := Some(SlotId(lane, index));
      }
    }
  }

  /** Empties a live slot; a slot number out of range or an empty slot is left alone. */
  method RemoveSlot(v: Lane, index: nat) returns (w: Lane, r: Option<RetainedItem>)
    ensures if index < |v.slots| && v.slots[index].item.Some?
      then r == v.slots[index].item && w == Freed(v, index)
      else r == None && w == v
    ensures w.replay == v.replay
  {
    w, r := v, None;
    if index < |v.slots| && v.slots[index].item.Some? {
      var slot := v.slots[index];
      r := slot.item;
      w := w.(slots := w.slots[index := slot.(item := None, state := Empty, seqNo := slot.seqNo + 1)]);
      w := w.(live := if w.live == 0 then 0 else w.live - 1);
      w := w.(free := w.free + [index]);
    }
  }

  /** The members of a set, as a hash table would list them. */
  method InSomeOrder(slots: set<SlotId>) returns (order: seq<SlotId>)
    ensures forall slot :: slot in order <==> slot in slots
  {
    order := [];
    var pending := slots;
    while pending != {}
      invariant forall slot :: slot in slots <==> slot in order || slot in pending
      decreases pending
    {
      var slot :| slot in pending;
      order := order + [slot];
      pending := pending - {slot};
    }
  }

  // ---------------------------------------------------------------- the store

  lemma FourLanes(lanes: map<RetainedLane, Lane>, ack: Lane, err: Lane, service: Lane, application: Lane)
    requires lanes == map[A1Ack := ack, A1Error := err, A2 := service, A3 := application]
    requires forall l :: l in [ack, err, service, application] ==> l.ready == [] && Occupied(l.slots) == {}
    requires LaneOk(A1Ack, ack, 1) && LaneOk(A1Error, err, 1) && LaneOk(A2, service, 1) && LaneOk(A3, application, 1)
    ensures forall lane ::
      lane in lanes && LaneOk(lane, lanes[lane], 1) && Occupied(lanes[lane].slots) == {} && lanes[lane].ready == []
  {
    hide LaneOk, Occupied;
    forall lane ensures lane in lanes && LaneOk(lane, lanes[lane], 1) && Occupied(lanes[lane].slots) == {}
      && lanes[lane].ready == [] {
      match lane case A1Ack => case A1Error => case A2 => case A3 =>
    }
  }

  lemma FourTargets(target: map<RetainedLane, nat>, caps: RetainedCapacities)
    ensures target[A1Ack := AtLeastOne(caps.a1Ack)][A1Error := AtLeastOne(caps.a1Error)]
      [A2 := AtLeastOne(caps.a2)][A3 := AtLeastOne(caps.a3)] == Init(caps).target
  {
    var all := target[A1Ack := AtLeastOne(caps.a1Ack)][A1Error := AtLeastOne(caps.a1Error)]
      [A2 := AtLeastOne(caps.a2)][A3 := AtLeastOne(caps.a3)];
    forall lane ensures lane in all && all[lane] == caps.Target(lane) {
      match lane case A1Ack => case A1Error => case A2 => case A3 =>
    }
  }

  lemma AdmittedView(v: Snapshot, lane: RetainedLane, item: RetainedItem, deadline: Instant, filled: Lane)
    requires CanAllocate(v, lane) && filled == Allocated(v.lanes[lane], item, deadline, v.nextSeq)
    ensures var slot := NextSlot(v, lane);
      v.(nextSeq := v.nextSeq + 1, lanes := v.lanes[lane := filled],
         deadlines := HeapPush(v.deadlines, DeadlineKey(deadline, slot, v.nextSeq)),
         entries := v.entries[v.nextSeq := Entry(slot, item, deadline, Ready, v.clock)], clock := v.clock + 1)
      == Admit(v, lane, item, deadline).(tracked := v.tracked, responses := v.responses)
  {
  }

  class RetainedStore {
    var lanes: map<RetainedLane, Lane>
    var tracked: map<PeerMessageId, SlotId>
    var responses: map<PeerMessageId, SlotId>
    var deadlines: seq<DeadlineKey>
    var nextSeq: nat
    var shutdown: bool
    // The live entries this store stands for, and the time of its specification.
    ghost var entries: map<nat, Entry>
    ghost var clock: nat

    ghost function View(): Snapshot
      reads this
    {
      Snapshot(lanes, tracked, responses, deadlines, nextSeq, shutdown, entries, clock)
    }

    /** The store of the specification that this object implements. */
    ghost function Model(): Store
      reads this
    {
      Abs(View())
    }

    ghost predicate Valid()
      reads this
    {
      SnapshotOk(View()) && Inv(Model())
    }

    constructor (capacities: RetainedCapacities)
      ensures Valid() && Model() == Init(capacities)
    {
      hide LaneOk, Occupied, SnapshotOk, Inv;
      var ack := NewLane(A1Ack, capacities.a1Ack);
      var err := NewLane(A1Error, capacities.a1Error);
      var service := NewLane(A2, capacities.a2);
      var application := NewLane(A3, capacities.a3);
      lanes := map[A1Ack := ack, A1Error := err, A2 := service, A3 := application];
      tracked, responses, deadlines := map[], map[], [];
      nextSeq, shutdown := 1, false;
      entries, clock := map[], 0;
      new;
      FourLanes(lanes, ack, err, service, application);
      NewOk(View());
    }

    // -------------------------------------------------------------- admission

    /** The lane gives up a slot, or the store only spends a sequence number. */
    method Allocate(lane: RetainedLane, item: RetainedItem, deadline: Instant) returns (r: Option<SlotId>)
      requires lane in lanes && LaneOk(lane, lanes[lane], nextSeq)
      modifies this
      ensures r.Some? <==> old(lanes[lane].live) < old(lanes[lane].target)
      ensures r.None? ==> View() == old(View()).(nextSeq := old(nextSeq) + 1)
      ensures r.Some? ==>
        && CanAllocate(old(View()), lane) && r.value == NextSlot(old(View()), lane)
        && View() == Admit(old(View()), lane, item, deadline).(tracked := old(tracked), responses := old(responses))
      ensures KeepsPlaces(old(lanes), lanes)
    {
      hide LaneOk, HeapPush, Allocated, Admit;
      ghost var v := View();
      var seqNo := nextSeq;
      nextSeq := nextSeq + 1;
      var filled: Lane;
      filled, r := AllocateSlot(lane, lanes[lane], item, deadline, seqNo);
      if r.Some? {
        lanes := lanes[lane := filled];
        deadlines := HeapPush(deadlines, DeadlineKey(deadline, r.value, seqNo));
        entries := entries[seqNo := Entry(r.value, item, deadline, Ready, clock)];
        clock := clock + 1;
        AdmittedView(v, lane, item, deadline, filled);
      }
    }

    method InsertResponse(kind: ResponseKind, lane: RetainedLane, item: RetainedItem, deadline: Instant, now: Instant)
      returns (outcome: ResponseInsertOutcome)
      requires SnapshotOk(View())
      requires lane == (if kind.AckResponse? then A1Ack else A1Error) && ItemFitsLane(item, lane)
      modifies this
      ensures SnapshotOk(View())
      ensures InsertResponseStep(old(Model()), kind, item, deadline, now, outcome, Model())
      ensures KeepsPlaces(old(lanes), lanes)
    {
      hide SnapshotOk, LaneFull, HoldsResponse, AdmittedIn, Admit;
      ghost var before := View();
      var id := item.PeerMsgId();
      ResponseIndexed(before, id);
      LaneIsOk(before, lane);
      LaneFullIff(before, lane);
      if shutdown {
        return ResponseShutdown(id);
      }
      if now >= deadline {
        return ResponseExpired(id);
      }
      if id in responses {
        return DuplicateResponse(kind, id);
      }
      var slot := Allocate(lane, item, deadline);
      if slot.None? {
        BumpOk(before);
        return ResponseFull(lane, id);
      }
      responses := responses[id := slot.value];
      ResponseAdmitted(before, lane, item, deadline);
      return Inserted;
    }

    method InsertAck(id: PeerMessageId, deadline: Instant, now: Instant) returns (outcome: ResponseInsertOutcome)
      requires Valid()
      modifies this
      ensures Valid() && Step(old(Model()), Op.InsertAck(id, deadline, now, outcome), Model())
      ensures KeepsPlaces(old(lanes), lanes)
    {
      hide SnapshotOk, InsertResponseStep;
      outcome := InsertResponse(AckResponse, A1Ack, AckItem(id), deadline, now);
      StepKeepsInv(old(Model()), Op.InsertAck(id, deadline, now, outcome), Model());
    }

    method InsertError(id: PeerMessageId, frame: OutboundFrame, deadline: Instant, now: Instant)
      returns (outcome: ResponseInsertOutcome)
      requires Valid()
      modifies this
      ensures Valid() && Step(old(Model()), Op.InsertError(id, frame, deadline, now, outcome), Model())
      ensures KeepsPlaces(old(lanes), lanes)
    {
      hide SnapshotOk, InsertResponseStep;
      outcome := InsertResponse(ErrorResponse, A1Error, ErrorItem(id, frame), deadline, now);
      StepKeepsInv(old(Model()), Op.InsertError(id, frame, deadline, now, outcome), Model());
    }

    method InsertTracked(message: TrackedOutbound, deadline: Instant, now: Instant)
      returns (outcome: Result<Unit, RetainedInsertError>)
      requires Valid()
      modifies this
      ensures Valid() && Step(old(Model()), Op.InsertTracked(message, deadline, now, outcome), Model())
      ensures KeepsPlaces(old(lanes), lanes)
    {
      hide SnapshotOk, LaneFull, HoldsTracked, AdmittedIn, Admit, Inv;
      ghost var before := View();
      var id, msgType := message.message.peerMsgId, message.message.msgType;
      TrackedIndexed(before, id);
      if shutdown {
        return Err(Shutdown(message));
      }
      if now >= deadline {
        return Err(Expired(message));
      }
      if id in tracked {
        return Err(Duplicate(message));
      }
      if ClassifyPriority(msgType).TierA1? {
        return Err(A1Tracked(message));
      }
      var lane := TrackedLane(msgType);
      LaneIsOk(before, lane);
      LaneFullIff(before, lane);
      if lanes[lane].live >= lanes[lane].target {
        return Err(Full(message));
      }
      var slot := Allocate(lane, TrackedItem(message), deadline);
      // Room was checked above, so the allocation cannot come back empty.
      tracked := tracked[id := slot.value];
      TrackedAdmitted(before, lane, message, deadline);
      outcome := Ok(Unit);
      StepKeepsInv(old(Model()), Op.InsertTracked(message, deadline, now, outcome), Model());
    }

    // -------------------------------------------------------------- dispatch

    /** Pops keys until one still describes its slot, and hands that slot to the connection. */
    method ClaimFromQueue(lane: RetainedLane, replay: bool, callis: CallisId) returns (claim: Option<RetainedClaim>)
      requires SnapshotOk(View())
      modifies this
      ensures SnapshotOk(View())
      ensures QueueClaim(old(Model()), lane, replay, callis, claim, Model())
      ensures lane in old(lanes) && lane in lanes && TakesFirstLive(old(lanes)[lane], replay, claim, lanes[lane])
      ensures Queue(lanes[lane], !replay) == old(Queue(lanes[lane], !replay))
      ensures lanes == old(lanes)[lane := lanes[lane]]
    {
      hide SnapshotOk, QueueClaim;
      KeyInRange(View(), lane, replay);
      ghost var n, first := 0, lanes[lane];
      while Queue(lanes[lane], replay) != []
        invariant SnapshotOk(View()) && Model() == old(Model())
        invariant lane in lanes && n <= |Queue(first, replay)| && lanes[lane] == WithoutKeys(first, replay, n)
        invariant forall i :: 0 <= i < n ==> !KeyIsLive(first, replay, Queue(first, replay)[i])
        invariant lanes == old(lanes)[lane := lanes[lane]]
        invariant Queue(lanes[lane], replay) != [] ==> Queue(lanes[lane], replay)[0].index < |lanes[lane].slots|
        decreases |Queue(lanes[lane], replay)|
      {
        var l := lanes[lane];
        OneKeyLess(first, replay, n);
        if HeadIsLive(l, replay) {
          claim := TakeQueueHead(lane, replay, callis);
          assert TakesKey(first, replay, n, claim, lanes[lane]);
          return;
        }
        StaleKeyPops(View(), lane, replay);
        lanes := lanes[lane := PopHead(l, replay)];
        n := n + 1;
        KeyInRange(View(), lane, replay);
      }
      claim := None;
      NothingToClaim(View(), lane, replay, callis);
      assert TakesKey(first, replay, n, claim, lanes[lane]);
    }

    /** The key at the head is live: its slot goes to the connection. */
    method TakeQueueHead(lane: RetainedLane, replay: bool, callis: CallisId) returns (claim: Option<RetainedClaim>)
      requires lane in lanes && Queue(lanes[lane], replay) != [] && HeadIsLive(lanes[lane], replay)
      requires SnapshotOk(View())
      modifies this
      ensures SnapshotOk(View()) && QueueClaim(old(Model()), lane, replay, callis, claim, Model())
      ensures lane in lanes && claim.Some?
      ensures QueueKey(claim.value.slot.index, claim.value.identity.seqNo) == old(Queue(lanes[lane], replay)[0])
      ensures Queue(lanes[lane], replay) == old(Queue(lanes[lane], replay)[1..])
      ensures Queue(lanes[lane], !replay) == old(Queue(lanes[lane], !replay))
      ensures lanes == old(lanes)[lane := lanes[lane]]
    {
      hide SnapshotOk, QueueClaim;
      LiveKeyEntry(View(), lane, replay);
      var l := lanes[lane];
      var key := Queue(l, replay)[0];
      var slot := l.slots[key.index];
      claim := Some(RetainedClaim(SlotId(lane, key.index), slot.Identity().value, callis, slot.deadline,
                                  WriteItem(slot.item.value)));
      LiveKeyTaken(View(), lane, replay, callis, claim.value);
      lanes := lanes[lane := TakeHead(l, replay, callis)];
      entries := entries[key.seqNo := entries[key.seqNo].(state := Writing(callis))];
    }

    /** Replay before fresh in the tracked lanes, and no tracked lane at all once shut down. */
    method ClaimLane(lane: RetainedLane, callis: CallisId) returns (claim: Option<RetainedClaim>)
      requires Valid()
      modifies this
      ensures SnapshotOk(View()) && LaneClaim(old(Model()), lane, callis, claim, Model())
      ensures lane in old(lanes) && lane in lanes && ReplayMove(old(lanes)[lane], lane, claim, lanes[lane])
      ensures lanes == old(lanes)[lane := lanes[lane]]
    {
      hide SnapshotOk, QueueClaim, Inv, TakesFirstLive;
      LaneIsOk(View(), lane);
      if shutdown && IsTrackedLane(lane) {
        return None;
      }
      if IsTrackedLane(lane) {
        claim := ClaimFromQueue(lane, true, callis);
        if claim.Some? {
          ReplayClaimFirst(old(Model()), lane, callis, claim, Model());
          ClaimedHere(old(Model()), lane, callis, claim, Model());
          return;
        }
        QueueClaimNone(old(Model()), lane, true, callis, Model());
      }
      ghost var before := lanes[lane];
      claim := ClaimFromQueue(lane, false, callis);
      StillNone(old(lanes)[lane], before, lanes[lane]);
      ThenFreshClaim(old(Model()), lane, callis, claim, Model());
    }

    method ClaimNext(callis: CallisId) returns (claim: Option<RetainedClaim>)
      requires Valid()
      modifies this
      ensures Valid() && Step(old(Model()), Op.ClaimNext(callis, claim), Model())
      ensures claim.None? <==> !HasDispatchable(old(Model()))
      ensures ReplayMoves(old(lanes), claim, lanes)
    {
      hide SnapshotOk, Inv, StateFitsItem, ItemFitsLane, ReplayMove, ReplayMoves, MovedBelow;
      var order := [A1Ack, A1Error, A2, A3];
      MovedNone(lanes);
      for i := 0 to 4
        invariant Valid() && Model() == old(Model())
        invariant forall t :: t in entries && LaneRank(entries[t].slot.lane) < i ==> !Dispatchable(Model(), t)
        invariant MovedBelow(old(lanes), lanes, i)
      {
        ghost var before := lanes;
        claim := ClaimLane(order[i], callis);
        if claim.Some? {
          HighestLaneFirst(old(Model()), order[i], callis, claim, Model());
          MovedAll(old(lanes), before, order[i], claim, lanes);
          StepKeepsInv(old(Model()), Op.ClaimNext(callis, claim), Model());
          return;
        }
        MovedOneMore(old(lanes), before, order[i], lanes, i);
      }
      claim := None;
      MovedFour(old(lanes), lanes);
    }

    method CompleteWrite(claim: RetainedClaim, succeeded: bool)
      requires Valid()
      modifies this
      ensures Valid() && Step(old(Model()), Op.CompleteWrite(claim, succeeded), Model())
      ensures KeepsPlaces(old(lanes), lanes)
    {
      hide SnapshotOk, Inv, Current, ItemFitsLane;
      LeaseFitsIffCurrent(View(), claim);
      var l := lanes[claim.slot.lane];
      if claim.slot.index < |l.slots| && LeaseFits(l.slots[claim.slot.index], claim) {
        CurrentEntry(View(), claim);
        if l.slots[claim.slot.index].item.value.TrackedItem? {
          if succeeded {
            SetSlotState(claim, Inflight(claim.callis));
          } else {
            SetSlotState(claim, ReplayReady(claim.callis));
          }
        } else if succeeded {
          var _ := RemoveBySlot(claim.slot);
        } else {
          SetSlotState(claim, Ready);
        }
      }
      StepKeepsInv(old(Model()), Op.CompleteWrite(claim, succeeded), Model());
    }

    /** The slot of a current lease changes state and, if it waits again, joins the end of its queue. */
    method SetSlotState(claim: RetainedClaim, state: SlotState)
      requires SnapshotOk(View()) && Current(Model(), claim)
      requires StateFitsItem(entries[claim.identity.seqNo].item, state)
      modifies this
      ensures SnapshotOk(View())
      ensures Model() == if state.Ready? then Requeued(old(Model()), claim.identity.seqNo)
                         else WithState(old(Model()), claim.identity.seqNo, state)
      ensures KeepsPlaces(old(lanes), lanes)
    {
      hide SnapshotOk, StateFitsItem;
      CurrentEntry(View(), claim);
      LeaseRestated(View(), claim, state);
      var l, index := lanes[claim.slot.lane], claim.slot.index;
      var slot := l.slots[index];
      l := l.(slots := l.slots[index := slot.(state := state)]);
      if state.Ready? {
        l := l.(ready := l.ready + [QueueKey(index, slot.seqNo)]);
      }
      if state.ReplayReady? {
        l := l.(replay := l.replay + [QueueKey(index, slot.seqNo)]);
      }
      lanes := lanes[claim.slot.lane := l];
      ghost var s := claim.identity.seqNo;
      entries := entries[s := entries[s].(state := state, turn := if state.Ready? then clock else entries[s].turn)];
      clock := if state.Ready? then clock + 1 else clock;
      assert Model().target == old(Model()).target;
    }

    /** Frees a live slot and forgets its id; anything else is left alone. */
    method RemoveBySlot(slot: SlotId) returns (r: Option<RetainedItem>)
      requires SnapshotOk(View())
      modifies this
      ensures SnapshotOk(View()) && deadlines == old(deadlines) && SameReplays(old(lanes), lanes)
      ensures if InRange(old(View()), slot) && SlotAt(old(View()), slot).item.Some?
        then
          var s := SlotAt(old(View()), slot).seqNo;
          && s in old(entries) && old(entries)[s].slot == slot && r == Some(old(entries)[s].item)
          && Model() == Without(old(Model()), s)
        else r == None && View() == old(View())
    {
      hide SnapshotOk, Freed, Reindexed;
      LaneIsOk(View(), slot.lane);
      ghost var before := View();
      var freed: Lane;
      freed, r := RemoveSlot(lanes[slot.lane], slot.index);
      if r.Some? {
        SlotRemoved(before, slot);
        var id := r.value.PeerMsgId();
        var keepTracked := if r.value.TrackedItem? then tracked - {id} else tracked;
        var keepResponses := if r.value.TrackedItem? then responses else responses - {id};
        lanes, tracked, responses := lanes[slot.lane := freed], keepTracked, keepResponses;
        entries := entries - {SlotAt(before, slot).seqNo};
      }
    }

    // -------------------------------------------------------------- completion

    /** Removes the tracked item with this id, if there is one, and answers its sender. */
    method RemoveTracked(id: PeerMessageId, result: SendResult) returns (effect: Option<CompletionEffect>)
      requires Valid()
      modifies this
      ensures SnapshotOk(View())
      ensures RemoveStep(old(Model()), TrackedWithId(old(Model()), id), AsSeq(effect), result, Model())
      ensures KeepsPlaces(old(lanes), lanes)
    {
      hide SnapshotOk, Inv;
      effect := None;
      TrackedIdUnique(View(), id);
      if id in tracked {
        var item := RemoveBySlot(tracked[id]);
        effect := Some(CompletionEffect(id, item.value.tracked.ackTx, result));
        OneSettled(old(Model()), old(SlotAt(View(), tracked[id]).seqNo), result);
      }
    }

    method Ack(id: PeerMessageId) returns (effect: Option<CompletionEffect>)
      requires Valid()
      modifies this
      ensures Valid() && Step(old(Model()), AckReceived(id, effect), Model())
      ensures KeepsPlaces(old(lanes), lanes)
    {
      hide SnapshotOk, RemoveStep;
      effect := RemoveTracked(id, Delivered);
      StepKeepsInv(old(Model()), AckReceived(id, effect), Model());
    }

    method FailOne(id: PeerMessageId, error: ErrorId) returns (effect: Option<CompletionEffect>)
      requires Valid()
      modifies this
      ensures Valid() && Step(old(Model()), Op.FailOne(id, error, effect), Model())
      ensures KeepsPlaces(old(lanes), lanes)
    {
      hide SnapshotOk, RemoveStep;
      effect := RemoveTracked(id, Failed(error));
      StepKeepsInv(old(Model()), Op.FailOne(id, error, effect), Model());
    }

    /** Empties the given slots, which are those of the entries `who`, in any order. */
    method RemoveEach(slots: set<SlotId>, result: SendResult, ghost who: set<nat>)
        returns (effects: seq<CompletionEffect>)
      requires Valid() && SlotsOf(entries, who) == slots && who <= entries.Keys
      modifies this
      ensures SnapshotOk(View()) && RemoveStep(old(Model()), who, effects, result, Model())
      ensures KeepsPlaces(old(lanes), lanes)
    {
      hide SnapshotOk, Inv, Settles;
      effects := [];
      var pending := slots;
      ghost var gone: set<nat> := {};
      NothingSettled(Model(), result);
      while pending != {}
        invariant SnapshotOk(View()) && gone <= who
        invariant Model() == old(Model()).(entries := old(entries) - gone)
        invariant pending == SlotsOf(old(entries), who - gone)
        invariant Settles(Part(old(Model()), gone), effects, result)
        invariant KeepsPlaces(old(lanes), lanes)
        decreases pending
      {
        var slot :| slot in pending;
        ghost var s :| s in who - gone && old(entries)[s].slot == slot;
        LiveSlot(View(), s);
        OneSlotLess(old(Model()), who - gone, s);
        var item := RemoveBySlot(slot);
        if item.value.TrackedItem? {
          SettlesOneMore(old(Model()), gone, effects, result, s);
          effects := effects + [CompletionEffect(item.value.PeerMsgId(), item.value.tracked.ackTx, result)];
        } else {
          SettlesResponse(old(Model()), gone, effects, result, s);
        }
        pending, gone := pending - {slot}, gone + {s};
      }
      NobodyLeft(old(entries), who - gone);
      assert gone == who;
    }

    method FailAll(error: ErrorId) returns (effects: seq<CompletionEffect>)
      requires Valid()
      modifies this
      ensures Valid() && Step(old(Model()), Op.FailAll(error, effects), Model())
      ensures KeepsPlaces(old(lanes), lanes)
    {
      hide SnapshotOk, RemoveStep;
      TrackedSlots(View());
      effects := RemoveEach(tracked.Values, Failed(error), TrackedSeqs(Model()));
      StepKeepsInv(old(Model()), Op.FailAll(error, effects), Model());
    }

    method FailNonA1(error: ErrorId) returns (effects: seq<CompletionEffect>)
      requires Valid()
      modifies this
      ensures Valid() && Step(old(Model()), Op.FailNonA1(error, effects), Model())
      ensures KeepsPlaces(old(lanes), lanes)
    {
      hide SnapshotOk, RemoveStep, Inv, OutsideA1;
      TrackedSlots(View());
      effects := RemoveEach(OutsideA1(tracked.Values), Failed(error), TrackedSeqs(Model()));
      StepKeepsInv(old(Model()), Op.FailNonA1(error, effects), Model());
    }

    method SetShutdown()
      requires Valid()
      modifies this
      ensures Valid() && Step(old(Model()), Op.SetShutdown, Model())
      ensures KeepsPlaces(old(lanes), lanes)
      ensures View() == old(View()).(shutdown := true)
    {
      hide SnapshotOk, Inv;
      ShutdownFlagOk(View(), true);
      shutdown := true;
      StepKeepsInv(old(Model()), Op.SetShutdown, Model());
    }

    method BeginShutdown(error: ErrorId) returns (effects: seq<CompletionEffect>)
      requires Valid()
      modifies this
      ensures Valid() && Step(old(Model()), Op.BeginShutdown(error, effects), Model())
      ensures KeepsPlaces(old(lanes), lanes)
    {
      hide SnapshotOk, RemoveStep, Inv, OutsideA1;
      TrackedSlots(View());
      SetShutdown();
      effects := RemoveEach(OutsideA1(tracked.Values), Failed(error), TrackedSeqs(Model()));
      StepKeepsInv(old(Model()), Op.BeginShutdown(error, effects), Model());
    }

    method DropResponses()
      requires Valid()
      modifies this
      ensures Valid() && Step(old(Model()), Op.DropResponses, Model())
      ensures KeepsPlaces(old(lanes), lanes)
    {
      hide SnapshotOk, Settles;
      ResponseSlots(View());
      var _ := RemoveEach(responses.Values, Delivered, ResponseSeqs(Model()));
      StepKeepsInv(old(Model()), Op.DropResponses, Model());
    }

    // -------------------------------------------------------------- deadlines

    /** The key at the head of the heap still describes the item in its slot. */
    method HeadIsCurrent() returns (current: bool)
      requires SnapshotOk(View()) && deadlines != []
      ensures current <==> LiveHeapKey(View(), deadlines[0])
    {
      hide SnapshotOk;
      var key := deadlines[0];
      HeapHeadSlot(View());
      var slots := lanes[key.slot.lane].slots;
      current := key.slot.index < |slots|
        && slots[key.slot.index].seqNo == key.seqNo
        && slots[key.slot.index].deadline == key.deadline
        && !slots[key.slot.index].state.Empty?;
    }

    method ExpireDue(now: Instant) returns (effects: seq<CompletionEffect>)
      requires Valid()
      modifies this
      ensures Valid() && Step(old(Model()), Op.ExpireDue(now, effects), Model())
      ensures KeepsPlaces(old(lanes), lanes)
    {
      hide SnapshotOk, Inv, Settles, LiveHeapKey, Step;
      effects := [];
      ghost var gone: set<nat> := {};
      NothingSettled(Model(), Failed(SendTimeout));
      while deadlines != [] && deadlines[0].deadline <= now
        invariant SnapshotOk(View()) && gone <= DueSeqs(old(Model()), now)
        invariant Model() == old(Model()).(entries := old(entries) - gone)
        invariant Settles(Part(old(Model()), gone), effects, Failed(SendTimeout))
        invariant KeepsPlaces(old(lanes), lanes)
        decreases |deadlines|
      {
        var key := deadlines[0];
        var current := HeadIsCurrent();
        if current {
          HeadEntry(View());
          var item := RemoveBySlot(key.slot);
          HeadIsStaleNow(View());
          if item.value.TrackedItem? {
            SettlesOneMore(old(Model()), gone, effects, Failed(SendTimeout), key.seqNo);
            var sender := item.value.tracked.ackTx;
            effects := effects + [CompletionEffect(item.value.PeerMsgId(), sender, Failed(SendTimeout))];
          } else {
            SettlesResponse(old(Model()), gone, effects, Failed(SendTimeout), key.seqNo);
          }
          gone := gone + {key.seqNo};
        }
        // Aurelia takes the key off the heap first; removing the item does not touch the heap.
        PopHeapOk(View());
        deadlines := deadlines[1..];
      }
      AllDueGone(old(Model()), View(), now, gone, effects);
    }

    method NextDeadline() returns (earliest: Option<Instant>)
      requires Valid()
      modifies this
      ensures Valid() && Step(old(Model()), Op.NextDeadline(earliest), Model())
      ensures KeepsPlaces(old(lanes), lanes)
    {
      hide SnapshotOk, Inv, LiveHeapKey, NextDeadlineIs;
      while deadlines != []
        invariant SnapshotOk(View()) && Model() == old(Model()) && lanes == old(lanes)
        decreases |deadlines|
      {
        var current := HeadIsCurrent();
        if current {
          HeadIsEarliest(View());
          return Some(deadlines[0].deadline);
        }
        PopHeapOk(View());
        deadlines := deadlines[1..];
      }
      EmptyHeap(View());
      earliest := None;
    }

    // -------------------------------------------------------------- replay

    /** Marks one slot for replay if it holds a tracked item that was handed to a connection. */
    method MarkSlotReplayReady(slot: SlotId)
      requires SnapshotOk(View())
      modifies this
      ensures SnapshotOk(View())
      ensures Model() == MarkedReplay(old(Model()), SeqsIn(old(entries), [slot]))
      ensures KeepsPlaces(old(lanes), lanes)
    {
      hide SnapshotOk, MarkedReplay, SeqsIn;
      LaneIsOk(View(), slot.lane);
      var l := lanes[slot.lane];
      if slot.index < |l.slots| && l.slots[slot.index].item.Some? && l.slots[slot.index].item.value.TrackedItem?
        && !l.slots[slot.index].state.Ready? && !l.slots[slot.index].state.Empty?
      {
        var here := l.slots[slot.index];
        var callis := if here.state.Writing? then here.state.callis else here.state.lastSentCallis;
        ReplayMarked(View(), slot, callis);
        lanes := lanes[slot.lane := l.(slots := l.slots[slot.index := here.(state := ReplayReady(callis))],
                                       replay := l.replay + [QueueKey(slot.index, here.seqNo)])];
        entries := entries[here.seqNo := entries[here.seqNo].(state := ReplayReady(callis))];
      } else {
        MarkPassesOver(View(), slot);
      }
    }

    method MarkSlotsReplayReady(slots: seq<SlotId>)
      requires SnapshotOk(View())
      modifies this
      ensures SnapshotOk(View())
      ensures Model() == MarkedReplay(old(Model()), SeqsIn(old(entries), slots))
      ensures KeepsPlaces(old(lanes), lanes)
    {
      hide SnapshotOk, MarkedReplay, SeqsIn;
      MarkNobody(Model());
      for i := 0 to |slots|
        invariant SnapshotOk(View())
        invariant Model() == MarkedReplay(old(Model()), SeqsIn(old(entries), slots[..i]))
        invariant KeepsPlaces(old(lanes), lanes)
      {
        MarkOneMore(old(Model()), slots[..i], slots[i]);
        assert slots[..i] + [slots[i]] == slots[..i + 1];
        MarkSlotReplayReady(slots[i]);
      }
      assert slots[..|slots|] == slots;
    }

    method MarkAllTrackedReplayReady()
      requires Valid()
      modifies this
      ensures Valid() && Step(old(Model()), Op.MarkAllTrackedReplayReady, Model())
      ensures KeepsPlaces(old(lanes), lanes)
    {
      hide SnapshotOk, Inv;
      TrackedSlots(View());
      var slots := InSomeOrder(tracked.Values);
      assert SeqsIn(entries, slots) == TrackedSeqs(Model()) by { SlotsNameThem(View(), slots); }
      MarkSlotsReplayReady(slots);
      StepKeepsInv(old(Model()), Op.MarkAllTrackedReplayReady, Model());
    }

    method MarkTrackedReplayReady(ids: seq<PeerMessageId>)
      requires Valid()
      modifies this
      ensures Valid() && Step(old(Model()), Op.MarkTrackedReplayReady(ids), Model())
      ensures KeepsPlaces(old(lanes), lanes)
    {
      hide SnapshotOk, Inv, MarkedReplay, SeqsIn;
      var slots: seq<SlotId> := [];
      for i := 0 to |ids|
        invariant forall slot ::
          slot in slots <==> exists j :: 0 <= j < i && ids[j] in tracked && tracked[ids[j]] == slot
      {
        if ids[i] in tracked {
          slots := slots + [tracked[ids[i]]];
        }
      }
      MarkByIds(View(), ids, slots);
      MarkSlotsReplayReady(slots);
      StepKeepsInv(old(Model()), Op.MarkTrackedReplayReady(ids), Model());
    }

    /** A response that was being written waits again. */
    method RequeueSwept(
      lane: RetainedLane, index: nat, callis: CallisId, ghost replay: seq<QueueKey>, ghost start: Store)
      requires lane in lanes && index < |lanes[lane].slots| && !lane.A1Ack?
      requires var slot := lanes[lane].slots[index];
        slot.state == Writing(callis) && slot.item.Some? && !slot.item.value.TrackedItem?
      requires SnapshotOk(Pending(View(), lane, replay)) && Inv(start) && SweptUpTo(start, callis, Model(), lane, index)
      modifies this
      ensures lane in lanes && |lanes[lane].slots| == old(|lanes[lane].slots|) && SameReplays(old(lanes), lanes)
      ensures SnapshotOk(Pending(View(), lane, replay)) && SweptUpTo(start, callis, Model(), lane, index + 1)
    {
      hide SnapshotOk, Inv, SweptUpTo;
      var l := lanes[lane];
      var slot := l.slots[index];
      SlotIsOk(Pending(View(), lane, replay), SlotId(lane, index));
      SweepResponse(View(), lane, index, callis, replay);
      ghost var s := slot.seqNo;
      SweptSame(start, callis, Model(), lane, index, s);
      lanes := lanes[lane := l.(slots := l.slots[index := slot.(state := Ready)],
                                ready := l.ready + [QueueKey(index, slot.seqNo)])];
      entries := entries[s := entries[s].(state := Ready, turn := clock)];
      clock := clock + 1;
      SweepStep(start, callis, old(Model()), lane, index, s, entries[s], clock);
      assert Model().target == old(Model()).target;
    }

    /** A tracked item that was handed to the connection is to be sent again. */
    method ReplaySwept(lane: RetainedLane, index: nat, callis: CallisId, replay: seq<QueueKey>, ghost start: Store)
      returns (collected: seq<QueueKey>)
      requires lane in lanes && index < |lanes[lane].slots| && !lane.A1Ack?
      requires var slot := lanes[lane].slots[index];
        slot.state in {Writing(callis), Inflight(callis)} && slot.item.Some? && slot.item.value.TrackedItem?
      requires SnapshotOk(Pending(View(), lane, replay)) && Inv(start) && SweptUpTo(start, callis, Model(), lane, index)
      modifies this
      ensures lane in lanes && |lanes[lane].slots| == old(|lanes[lane].slots|) && SameReplays(old(lanes), lanes)
      ensures SnapshotOk(Pending(View(), lane, collected)) && SweptUpTo(start, callis, Model(), lane, index + 1)
      ensures collected == replay + [QueueKey(index, old(lanes[lane].slots[index].seqNo))]
    {
      hide SnapshotOk, Inv, SweptUpTo;
      var l := lanes[lane];
      var slot := l.slots[index];
      SlotIsOk(Pending(View(), lane, replay), SlotId(lane, index));
      SweepTracked(View(), lane, index, callis, replay);
      ghost var s := slot.seqNo;
      SweptSame(start, callis, Model(), lane, index, s);
      lanes := lanes[lane := l.(slots := l.slots[index := slot.(state := ReplayReady(callis))])];
      entries := entries[s := entries[s].(state := ReplayReady(callis))];
      collected := replay + [QueueKey(index, slot.seqNo)];
      SweepStep(start, callis, old(Model()), lane, index, s, entries[s], clock);
      assert Model().target == old(Model()).target;
    }

    /** One slot of a lane the connection is lost to; `replay` collects keys for the end of the sweep. */
    method SweepSlot(lane: RetainedLane, index: nat, callis: CallisId, replay: seq<QueueKey>, ghost start: Store)
      returns (collected: seq<QueueKey>)
      requires lane in lanes && index < |lanes[lane].slots| && SnapshotOk(Pending(View(), lane, replay))
      requires Inv(start) && SweptUpTo(start, callis, Model(), lane, index) && !lane.A1Ack?
      modifies this
      ensures lane in lanes && |lanes[lane].slots| == old(|lanes[lane].slots|)
      ensures SnapshotOk(Pending(View(), lane, collected)) && SweptUpTo(start, callis, Model(), lane, index + 1)
      ensures SameReplays(old(lanes), lanes)
      ensures InSlotOrder(replay, index) ==> InSlotOrder(collected, index + 1)
    {
      hide SnapshotOk, Inv, SweptUpTo;
      var slot := lanes[lane].slots[index];
      collected := replay;
      SlotIsOk(Pending(View(), lane, replay), SlotId(lane, index));
      if slot.state == Writing(callis) && slot.item.Some? && !slot.item.value.TrackedItem? {
        RequeueSwept(lane, index, callis, replay, start);
      } else if slot.state in {Writing(callis), Inflight(callis)} && slot.item.Some? && slot.item.value.TrackedItem? {
        collected := ReplaySwept(lane, index, callis, replay, start);
      } else {
        SkippedEntries(start, callis, Model(), Pending(View(), lane, replay), lane, index);
        SweepSkips(start, callis, Model(), lane, index);
      }
    }

    method SweepLane(lane: RetainedLane, callis: CallisId)
      requires Valid() && !lane.A1Ack?
      modifies this
      ensures SnapshotOk(View()) && Swept(old(Model()), callis, Model(), lane)
      ensures KeepsPlaces(old(lanes), lanes) && lane in old(lanes) && lane in lanes
      ensures InSlotOrder(lanes[lane].replay[|old(lanes)[lane].replay|..], |lanes[lane].slots|)
    {
      hide SnapshotOk, Inv, SweptUpTo, Pending;
      LaneIsOk(View(), lane);
      var replay: seq<QueueKey> := [];
      NothingPending(View(), lane);
      NothingSwept(Model(), callis, lane);
      var count := |lanes[lane].slots|;
      LaneHolds(View(), lane);
      for index := 0 to count
        invariant lane in lanes && |lanes[lane].slots| == count
        invariant SnapshotOk(Pending(View(), lane, replay))
        invariant SweptUpTo(old(Model()), callis, Model(), lane, index)
        invariant SameReplays(old(lanes), lanes) && InSlotOrder(replay, index)
      {
        replay := SweepSlot(lane, index, callis, replay, old(Model()));
      }
      PendingIsNow(View(), lane, replay);
      lanes := lanes[lane := lanes[lane].(replay := lanes[lane].replay + replay)];
      assert lanes[lane].replay[|old(lanes)[lane].replay|..] == replay;
    }

    method MarkCallisReplayReady(callis: CallisId)
      requires Valid()
      modifies this
      ensures Valid() && Step(old(Model()), Op.MarkCallisReplayReady(callis), Model())
      ensures KeepsPlaces(old(lanes), lanes)
    {
      hide SnapshotOk, Inv, Swept;
      SweepLane(A1Error, callis);
      ghost var b := Model();
      SweptKeepsInv(old(Model()), callis, b, A1Error);
      SweepLane(A2, callis);
      ghost var c := Model();
      SweptKeepsInv(b, callis, c, A2);
      SweepLane(A3, callis);
      SweptLanes(old(Model()), callis, b, c, Model());
      StepKeepsInv(old(Model()), Op.MarkCallisReplayReady(callis), Model());
    }

    // -------------------------------------------------------------- capacity and queries

    method SetCapacities(capacities: RetainedCapacities)
      requires Valid()
      modifies this
      ensures Valid() && Step(old(Model()), Op.SetCapacities(capacities), Model())
      ensures KeepsPlaces(old(lanes), lanes)
    {
      hide SnapshotOk, Inv;
      SetLaneCapacity(A1Ack, capacities.a1Ack);
      SetLaneCapacity(A1Error, capacities.a1Error);
      SetLaneCapacity(A2, capacities.a2);
      SetLaneCapacity(A3, capacities.a3);
      FourTargets(old(Model()).target, capacities);
      StepKeepsInv(old(Model()), Op.SetCapacities(capacities), Model());
    }

    method SetLaneCapacity(lane: RetainedLane, capacity: nat)
      requires SnapshotOk(View())
      modifies this
      ensures SnapshotOk(View())
      ensures Model() == old(Model()).(target := old(Model()).target[lane := AtLeastOne(capacity)])
      ensures KeepsPlaces(old(lanes), lanes)
    {
      hide SnapshotOk;
      LaneIsOk(View(), lane);
      GrowOk(View(), lane, AtLeastOne(capacity));
      var grown := SetTargetCapacity(lanes[lane], capacity);
      lanes := lanes[lane := grown];
    }

    method LaneHasDispatchableWork(lane: RetainedLane) returns (found: bool)
      requires SnapshotOk(View())
      ensures found <==> exists s ::
        s in entries && entries[s].slot.lane == lane && (entries[s].state.Ready? || entries[s].state.ReplayReady?)
    {
      hide SnapshotOk;
      LaneIsOk(View(), lane);
      var slots := lanes[lane].slots;
      for i := 0 to |slots|
        invariant forall j: nat :: j < i ==>
          !(slots[j].item.Some? && (slots[j].state.Ready? || slots[j].state.ReplayReady?))
      {
        if (slots[i].state.Ready? || slots[i].state.ReplayReady?) && slots[i].item.Some? {
          SlotEntry(View(), SlotId(lane, i));
          return true;
        }
      }
      found := false;
      forall s | s in entries && entries[s].slot.lane == lane
        ensures !(entries[s].state.Ready? || entries[s].state.ReplayReady?) {
        SlotOfEntry(View(), s);
      }
    }

    method HasDispatchableWork() returns (found: bool)
      requires SnapshotOk(View())
      ensures found <==> HasDispatchable(Model())
    {
      hide SnapshotOk;
      var ack := LaneHasDispatchableWork(A1Ack);
      var err := LaneHasDispatchableWork(A1Error);
      var service := LaneHasDispatchableWork(A2);
      var application := LaneHasDispatchableWork(A3);
      found := ack || err || (!shutdown && (service || application));
      if found {
        var lane := if ack then A1Ack else if err then A1Error else if service then A2 else A3;
        ghost var s :| s in entries && entries[s].slot.lane == lane
          && (entries[s].state.Ready? || entries[s].state.ReplayReady?);
        assert Dispatchable(Model(), s);
      }
    }

    method IsEmpty() returns (empty: bool)
      requires SnapshotOk(View())
      ensures empty <==> entries == map[]
    {
      hide SnapshotOk;
      LaneEmptyIff(View(), A1Ack);
      LaneEmptyIff(View(), A1Error);
      LaneEmptyIff(View(), A2);
      LaneEmptyIff(View(), A3);
      empty := lanes[A1Ack].live == 0 && lanes[A1Error].live == 0 && lanes[A2].live == 0 && lanes[A3].live == 0;
      assert forall s :: s in entries ==> entries[s].slot.lane in {A1Ack, A1Error, A2, A3};
    }

    method ResponseLanesEmpty() returns (empty: bool)
      requires Valid()
      ensures empty <==> ResponsesDrained(Model())
    {
      hide SnapshotOk, Inv;
      LaneIsOk(View(), A1Ack);
      LaneEmptyIff(View(), A1Ack);
      var errors := set id | id in responses && responses[id].lane.A1Error?;
      NoErrorsIff(View(), errors);
      empty := lanes[A1Ack].live == 0 && |errors| == 0;
    }
  }
}
