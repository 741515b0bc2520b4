/**
 * One lane of the retained store: a growable slot vector with a free list and two queues of keys.
 * A key is invalidated lazily, by comparing its sequence number with that of the slot it names.
 */
module RetainedLanes {
  import opened Common
  import opened RetainedTypes
  import opened RetainedSpec

  datatype Lane = Lane(
    slots: seq<RetainedSlot>, free: seq<nat>, ready: seq<QueueKey>, replay: seq<QueueKey>,
    target: nat, live: nat)

  function Occupied(slots: seq<RetainedSlot>): set<nat> {
    set i: nat | i < |slots| && slots[i].item.Some?
  }

  predicate SlotOk(lane: RetainedLane, slot: RetainedSlot, bound: nat) {
    match slot.item
    case None => slot.state.Empty? && slot.seqNo <= bound
    case Some(item) =>
      1 <= slot.seqNo < bound && ItemFitsLane(item, lane) && StateFitsItem(item, slot.state)
  }

  /** A key never runs ahead of its slot, and an empty slot has left every key behind. */
  predicate KeyOk(slots: seq<RetainedSlot>, key: QueueKey) {
    && key.index < |slots|
    && key.seqNo <= slots[key.index].seqNo
    && (slots[key.index].item.None? ==> key.seqNo < slots[key.index].seqNo)
  }

  predicate KeysOk(slots: seq<RetainedSlot>, keys: seq<QueueKey>) {
    forall p :: 0 <= p < |keys| ==> KeyOk(slots, keys[p])
  }

  /** The free list is exactly the empty slots, without repeats. */
  predicate FreeOk(slots: seq<RetainedSlot>, free: seq<nat>) {
    && (forall p :: 0 <= p < |free| ==> free[p] < |slots| && slots[free[p]].item.None?)
    && (forall p, q :: 0 <= p < q < |free| ==> free[p] != free[q])
    && (forall i: nat :: i < |slots| && slots[i].item.None? ==> i in free)
  }

  /** Every ready slot is named by a key of the ready queue, every replayable one by the replay queue. */
  predicate Covered(v: Lane) {
    && (forall i: nat :: i < |v.slots| && v.slots[i].state.Ready? ==> QueueKey(i, v.slots[i].seqNo) in v.ready)
    && (forall i: nat :: i < |v.slots| && v.slots[i].state.ReplayReady? ==> QueueKey(i, v.slots[i].seqNo) in v.replay)
  }

  /** Ready keys do not repeat, and one that still matches its slot names a ready slot. */
  predicate ReadyExact(slots: seq<RetainedSlot>, ready: seq<QueueKey>)
    requires KeysOk(slots, ready)
  {
    && (forall p, q :: 0 <= p < q < |ready| ==> ready[p] != ready[q])
    && (forall p :: 0 <= p < |ready| ==> MatchesOnlyReady(slots, ready[p]))
  }

  predicate MatchesOnlyReady(slots: seq<RetainedSlot>, key: QueueKey)
    requires KeyOk(slots, key)
  {
    slots[key.index].seqNo == key.seqNo ==> slots[key.index].state.Ready?
  }

  predicate SlotsOk(lane: RetainedLane, v: Lane, bound: nat) {
    && 1 <= v.target <= |v.slots|
    && v.live == |Occupied(v.slots)|
    && FreeOk(v.slots, v.free)
    && (forall i: nat :: i < |v.slots| ==> SlotOk(lane, v.slots[i], bound))
  }

  predicate QueuesOk(v: Lane) {
    && KeysOk(v.slots, v.ready) && ReadyExact(v.slots, v.ready)
    && KeysOk(v.slots, v.replay)
    && Covered(v)
  }

  predicate LaneOk(lane: RetainedLane, v: Lane, bound: nat) {
    SlotsOk(lane, v, bound) && QueuesOk(v)
  }

  // ---------------------------------------------------------------- counting

  /** The first `n` slot numbers. */
  function Below(n: nat): (s: set<nat>)
    ensures |s| == n
    ensures forall i :: i in s <==> 0 <= i < n
  {
    if n == 0 then {} else Below(n - 1) + {n - 1}
  }

  /** A lane below its target has an empty slot on its free list: allocation cannot fail. */
  lemma RoomMeansFree(lane: RetainedLane, v: Lane, bound: nat)
    requires LaneOk(lane, v, bound) && v.live < v.target
    ensures v.free != []
  {
    hide QueuesOk, SlotOk;
    assert Occupied(v.slots) != Below(|v.slots|);
    var i :| i in Below(|v.slots|) && i !in Occupied(v.slots);
    assert i in v.free;
  }

  // ---------------------------------------------------------------- elementary changes

  function Allocated(v: Lane, item: RetainedItem, deadline: Instant, seqNo: nat): Lane
    requires v.free != [] && v.free[|v.free| - 1] < |v.slots|
  {
    var index := v.free[|v.free| - 1];
    v.(slots := v.slots[index := RetainedSlot(Some(item), deadline, seqNo, Ready)],
       free := v.free[..|v.free| - 1],
       ready := v.ready + [QueueKey(index, seqNo)],
       live := v.live + 1)
  }

  function Freed(v: Lane, index: nat): Lane
    requires index < |v.slots|
  {
    var slot := v.slots[index];
    v.(slots := v.slots[index := slot.(item := None, state := Empty, seqNo := slot.seqNo + 1)],
       free := v.free + [index],
       live := if v.live == 0 then 0 else v.live - 1)
  }

  /** The slot changes state and the given keys join the two queues. */
  function Restated(v: Lane, index: nat, state: SlotState, ready: seq<QueueKey>, replay: seq<QueueKey>): Lane
    requires index < |v.slots|
  {
    v.(slots := v.slots[index := v.slots[index].(state := state)],
       ready := v.ready + ready, replay := v.replay + replay)
  }

  function Grown(v: Lane, target: nat): Lane {
    if target <= |v.slots| then v.(target := target)
    else v.(slots := v.slots + seq(target - |v.slots|, _ => EmptySlot()),
            free := v.free + seq(target - |v.slots|, i requires 0 <= i => |v.slots| + i),
            target := target)
  }

  lemma KeysStayOk(slots: seq<RetainedSlot>, slots': seq<RetainedSlot>, keys: seq<QueueKey>)
    requires KeysOk(slots, keys) && |slots| <= |slots'|
    requires forall i: nat :: i < |slots| ==>
      && slots[i].seqNo <= slots'[i].seqNo
      && (slots'[i].item.None? ==> slots[i].item.None? || slots[i].seqNo < slots'[i].seqNo)
    ensures KeysOk(slots', keys)
  {
  }

  lemma KeysAppend(slots: seq<RetainedSlot>, keys: seq<QueueKey>, more: seq<QueueKey>)
    requires KeysOk(slots, keys)
    requires forall k :: k in more ==> KeyOk(slots, k)
    ensures KeysOk(slots, keys + more)
  {
  }

  lemma FreeAfterPop(slots: seq<RetainedSlot>, free: seq<nat>, slot: RetainedSlot)
    requires FreeOk(slots, free) && free != [] && slot.item.Some?
    ensures FreeOk(slots[free[|free| - 1] := slot], free[..|free| - 1])
  {
    var last := |free| - 1;
    var slots' := slots[free[last] := slot];
    forall i: nat | i < |slots'| && slots'[i].item.None? ensures i in free[..last] {
      assert i in free && i != free[last];
    }
  }

  lemma FreeHead(slots: seq<RetainedSlot>, free: seq<nat>)
    requires FreeOk(slots, free) && free != []
    ensures free[|free| - 1] < |slots| && slots[free[|free| - 1]].item.None?
  {
  }

  lemma OneMoreOccupied(slots: seq<RetainedSlot>, index: nat, slot: RetainedSlot)
    requires index < |slots| && slots[index].item.None? && slot.item.Some?
    ensures |Occupied(slots[index := slot])| == |Occupied(slots)| + 1
  {
    assert Occupied(slots[index := slot]) == Occupied(slots) + {index};
  }

  lemma AllocatedSlots(lane: RetainedLane, v: Lane, item: RetainedItem, deadline: Instant, bound: nat)
    requires SlotsOk(lane, v, bound) && v.free != [] && 1 <= bound
    requires ItemFitsLane(item, lane)
    ensures SlotsOk(lane, Allocated(v, item, deadline, bound), bound + 1)
  {
    hide Occupied, FreeOk;
    FreeHead(v.slots, v.free);
    var index := v.free[|v.free| - 1];
    var w := Allocated(v, item, deadline, bound);
    OneMoreOccupied(v.slots, index, w.slots[index]);
    FreeAfterPop(v.slots, v.free, w.slots[index]);
    forall i: nat | i < |w.slots| ensures SlotOk(lane, w.slots[i], bound + 1) {
      assert SlotOk(lane, v.slots[i], bound);
    }
  }

  lemma AllocatedQueues(v: Lane, item: RetainedItem, deadline: Instant, seqNo: nat)
    requires QueuesOk(v) && v.free != []
    requires var index := v.free[|v.free| - 1];
      index < |v.slots| && v.slots[index].item.None? && v.slots[index].seqNo <= seqNo
    ensures QueuesOk(Allocated(v, item, deadline, seqNo))
  {
    var index := v.free[|v.free| - 1];
    var w := Allocated(v, item, deadline, seqNo);
    KeysStayOk(v.slots, w.slots, v.ready);
    KeysAppend(w.slots, v.ready, [QueueKey(index, seqNo)]);
    KeysStayOk(v.slots, w.slots, v.replay);
    assert w.ready[|v.ready|] == QueueKey(index, seqNo);
    forall p | 0 <= p < |v.ready|
      ensures v.ready[p] != QueueKey(index, seqNo) && MatchesOnlyReady(w.slots, v.ready[p])
    {
      assert KeyOk(v.slots, v.ready[p]) && MatchesOnlyReady(v.slots, v.ready[p]);
    }
  }

  lemma AllocatedOk(lane: RetainedLane, v: Lane, item: RetainedItem, deadline: Instant, bound: nat)
    requires LaneOk(lane, v, bound) && v.free != [] && 1 <= bound
    requires ItemFitsLane(item, lane)
    ensures LaneOk(lane, Allocated(v, item, deadline, bound), bound + 1)
  {
    hide QueuesOk;
    AllocatedSlots(lane, v, item, deadline, bound);
    assert SlotOk(lane, v.slots[v.free[|v.free| - 1]], bound);
    AllocatedQueues(v, item, deadline, bound);
  }

  lemma FreedSlots(lane: RetainedLane, v: Lane, index: nat, bound: nat)
    requires SlotsOk(lane, v, bound)
    requires index < |v.slots| && v.slots[index].item.Some?
    ensures SlotsOk(lane, Freed(v, index), bound)
  {
    assert index in Occupied(v.slots);
    assert SlotOk(lane, v.slots[index], bound);
    var w := Freed(v, index);
    assert Occupied(w.slots) == Occupied(v.slots) - {index};
    assert w.free[|v.free|] == index;
    forall i: nat | i < |w.slots| && w.slots[i].item.None? ensures i in w.free {
      assert i != index ==> i in v.free;
    }
  }

  lemma FreedQueues(v: Lane, index: nat)
    requires QueuesOk(v)
    requires index < |v.slots| && v.slots[index].item.Some?
    ensures QueuesOk(Freed(v, index))
  {
    var w := Freed(v, index);
    KeysStayOk(v.slots, w.slots, v.ready);
    KeysStayOk(v.slots, w.slots, v.replay);
    forall p | 0 <= p < |v.ready| ensures MatchesOnlyReady(w.slots, v.ready[p]) {
      assert KeyOk(v.slots, v.ready[p]) && MatchesOnlyReady(v.slots, v.ready[p]);
    }
  }

  lemma FreedOk(lane: RetainedLane, v: Lane, index: nat, bound: nat)
    requires LaneOk(lane, v, bound)
    requires index < |v.slots| && v.slots[index].item.Some?
    ensures LaneOk(lane, Freed(v, index), bound)
  {
    hide QueuesOk, SlotsOk;
    FreedSlots(lane, v, index, bound);
    FreedQueues(v, index);
  }

  lemma StateChangeSlots(lane: RetainedLane, v: Lane, w: Lane, index: nat, state: SlotState, bound: nat)
    requires SlotsOk(lane, v, bound)
    requires index < |v.slots| && v.slots[index].item.Some? && StateFitsItem(v.slots[index].item.value, state)
    requires w.slots == v.slots[index := v.slots[index].(state := state)]
    requires w.free == v.free && w.live == v.live && w.target == v.target
    ensures SlotsOk(lane, w, bound)
  {
    assert SlotOk(lane, v.slots[index], bound);
    assert Occupied(w.slots) == Occupied(v.slots);
  }

  lemma RestatedQueues(v: Lane, index: nat, state: SlotState, ready: seq<QueueKey>, replay: seq<QueueKey>)
    requires QueuesOk(v)
    requires index < |v.slots| && v.slots[index].item.Some? && !v.slots[index].state.Ready?
    requires ready == if state.Ready? then [QueueKey(index, v.slots[index].seqNo)] else []
    requires forall k :: k in replay ==> k == QueueKey(index, v.slots[index].seqNo)
    requires state.ReplayReady? ==> replay != []
    ensures QueuesOk(Restated(v, index, state, ready, replay))
  {
    var w := Restated(v, index, state, ready, replay);
    KeysStayOk(v.slots, w.slots, v.ready);
    KeysStayOk(v.slots, w.slots, v.replay);
    KeysAppend(w.slots, v.ready, ready);
    KeysAppend(w.slots, v.replay, replay);
    forall p | 0 <= p < |v.ready|
      ensures v.ready[p] != QueueKey(index, v.slots[index].seqNo) && MatchesOnlyReady(w.slots, v.ready[p])
    {
      assert KeyOk(v.slots, v.ready[p]) && MatchesOnlyReady(v.slots, v.ready[p]);
    }
    if state.Ready? { assert ready[0] in w.ready; }
    if state.ReplayReady? { assert replay[0] in replay && replay[0] in w.replay; }
  }

  lemma RestatedOk(
    lane: RetainedLane, v: Lane, index: nat, state: SlotState, ready: seq<QueueKey>, replay: seq<QueueKey>, bound: nat)
    requires LaneOk(lane, v, bound)
    requires index < |v.slots| && v.slots[index].item.Some? && StateFitsItem(v.slots[index].item.value, state)
    requires !v.slots[index].state.Ready?
    requires ready == if state.Ready? then [QueueKey(index, v.slots[index].seqNo)] else []
    requires forall k :: k in replay ==> k == QueueKey(index, v.slots[index].seqNo)
    requires state.ReplayReady? ==> replay != []
    ensures LaneOk(lane, Restated(v, index, state, ready, replay), bound)
  {
    hide QueuesOk, SlotsOk;
    StateChangeSlots(lane, v, Restated(v, index, state, ready, replay), index, state, bound);
    RestatedQueues(v, index, state, ready, replay);
  }

  lemma OccupiedGrown(slots: seq<RetainedSlot>, n: nat)
    ensures Occupied(slots + seq(n, _ => EmptySlot())) == Occupied(slots)
  {
  }

  lemma FreeGrown(slots: seq<RetainedSlot>, free: seq<nat>, n: nat)
    requires FreeOk(slots, free)
    ensures FreeOk(slots + seq(n, _ => EmptySlot()), free + seq(n, i requires 0 <= i => |slots| + i))
  {
    var slots', free' := slots + seq(n, _ => EmptySlot()), free + seq(n, i requires 0 <= i => |slots| + i);
    forall i: nat | i < |slots'| && slots'[i].item.None? ensures i in free' {
      if i < |slots| {
        assert i in free;
      } else {
        assert free'[|free| + i - |slots|] == i;
      }
    }
  }

  lemma GrownSlots(lane: RetainedLane, v: Lane, target: nat, bound: nat)
    requires SlotsOk(lane, v, bound) && 1 <= target
    ensures SlotsOk(lane, Grown(v, target), bound)
  {
    hide Occupied, FreeOk;
    if target > |v.slots| {
      OccupiedGrown(v.slots, target - |v.slots|);
      FreeGrown(v.slots, v.free, target - |v.slots|);
    }
  }

  lemma GrownOk(lane: RetainedLane, v: Lane, target: nat, bound: nat)
    requires LaneOk(lane, v, bound) && 1 <= target
    ensures LaneOk(lane, Grown(v, target), bound)
  {
    GrownSlots(lane, v, target, bound);
    hide SlotsOk;
    var w := Grown(v, target);
    KeysStayOk(v.slots, w.slots, v.ready);
    KeysStayOk(v.slots, w.slots, v.replay);
    forall p | 0 <= p < |v.ready| ensures MatchesOnlyReady(w.slots, v.ready[p]) {
      assert KeyOk(v.slots, v.ready[p]) && MatchesOnlyReady(v.slots, v.ready[p]);
    }
  }

  /** The slot a ready key names is still waiting for it. */
  predicate ReadyKey(v: Lane, key: QueueKey) {
    key.index < |v.slots| && v.slots[key.index].seqNo == key.seqNo && v.slots[key.index].state.Ready?
  }

  predicate ReplayKey(v: Lane, key: QueueKey) {
    key.index < |v.slots| && v.slots[key.index].seqNo == key.seqNo && v.slots[key.index].state.ReplayReady?
  }

  lemma ReadyTailOk(lane: RetainedLane, v: Lane, bound: nat)
    requires LaneOk(lane, v, bound) && v.ready != [] && !ReadyKey(v, v.ready[0])
    ensures LaneOk(lane, v.(ready := v.ready[1..]), bound)
  {
    forall p | 1 <= p < |v.ready| ensures MatchesOnlyReady(v.slots, v.ready[p]) {}
  }

  lemma ReplayTailOk(lane: RetainedLane, v: Lane, bound: nat)
    requires LaneOk(lane, v, bound) && v.replay != [] && !ReplayKey(v, v.replay[0])
    ensures LaneOk(lane, v.(replay := v.replay[1..]), bound)
  {
  }

  /** The head of the ready queue is taken and its slot handed to a connection. */
  function ClaimedHead(v: Lane, callis: CallisId): Lane
    requires v.ready != [] && v.ready[0].index < |v.slots|
  {
    var index := v.ready[0].index;
    v.(slots := v.slots[index := v.slots[index].(state := Writing(callis))], ready := v.ready[1..])
  }

  lemma ClaimedHeadQueues(v: Lane, callis: CallisId)
    requires QueuesOk(v) && v.ready != [] && ReadyKey(v, v.ready[0])
    ensures QueuesOk(ClaimedHead(v, callis))
  {
    var w := ClaimedHead(v, callis);
    KeysStayOk(v.slots, w.slots, v.replay);
    forall p | 0 <= p < |w.ready| ensures KeyOk(w.slots, w.ready[p]) && MatchesOnlyReady(w.slots, w.ready[p]) {
      assert w.ready[p] == v.ready[p + 1] && v.ready[p + 1] != v.ready[0];
      assert KeyOk(v.slots, v.ready[p + 1]) && MatchesOnlyReady(v.slots, v.ready[p + 1]);
    }
  }

  lemma ClaimedHeadOk(lane: RetainedLane, v: Lane, callis: CallisId, bound: nat)
    requires LaneOk(lane, v, bound) && v.ready != [] && ReadyKey(v, v.ready[0])
    ensures LaneOk(lane, ClaimedHead(v, callis), bound)
  {
    assert SlotOk(lane, v.slots[v.ready[0].index], bound);
    hide QueuesOk, SlotsOk;
    StateChangeSlots(lane, v, ClaimedHead(v, callis), v.ready[0].index, Writing(callis), bound);
    ClaimedHeadQueues(v, callis);
  }
}
