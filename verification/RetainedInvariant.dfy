/**
 * The invariant that ties the four lanes, the two id indexes and the deadline heap of the retained
 * store to the live entries of its specification, and its preservation by each elementary change.
 */
module RetainedInvariant {
  import opened Common
  import opened RetainedTypes
  import opened RetainedSpec
  import opened RetainedLanes

  /** Everything the store holds, with the entries it stands for. */
  datatype Snapshot = Snapshot(
    lanes: map<RetainedLane, Lane>,
    tracked: map<PeerMessageId, SlotId>, responses: map<PeerMessageId, SlotId>,
    deadlines: seq<DeadlineKey>, nextSeq: nat, shutdown: bool,
    entries: map<nat, Entry>, clock: nat)

  // ---------------------------------------------------------------- the deadline heap

  /** The order of heap keys: deadline, then lane, then slot number, then sequence number. */
  predicate KeyLe(a: DeadlineKey, b: DeadlineKey) {
    a.deadline < b.deadline || (a.deadline == b.deadline &&
    (LaneRank(a.slot.lane) < LaneRank(b.slot.lane) || (a.slot.lane == b.slot.lane &&
    (a.slot.index < b.slot.index || (a.slot.index == b.slot.index && a.seqNo <= b.seqNo)))))
  }

  predicate Sorted(keys: seq<DeadlineKey>) {
    forall i, j :: 0 <= i < j < |keys| ==> KeyLe(keys[i], keys[j])
  }

  /** A binary min-heap seen from outside: the keys in the order they would be popped. */
  function HeapPush(keys: seq<DeadlineKey>, key: DeadlineKey): (r: seq<DeadlineKey>)
    ensures forall k :: k in r <==> k == key || k in keys
    ensures Sorted(keys) ==> Sorted(r)
  {
    if keys == [] || KeyLe(key, keys[0]) then [key] + keys
    else
      var rest := HeapPush(keys[1..], key);
      assert forall i :: 0 <= i < |rest| ==> rest[i] in rest;
      [keys[0]] + rest
  }

  // ---------------------------------------------------------------- the invariant

  ghost predicate LanesOk(v: Snapshot) {
    1 <= v.nextSeq && forall lane :: lane in v.lanes && LaneOk(lane, v.lanes[lane], v.nextSeq)
  }

  ghost predicate InRange(v: Snapshot, slot: SlotId) {
    slot.lane in v.lanes && slot.index < |v.lanes[slot.lane].slots|
  }

  ghost function SlotAt(v: Snapshot, slot: SlotId): RetainedSlot
    requires InRange(v, slot)
  {
    v.lanes[slot.lane].slots[slot.index]
  }

  ghost predicate Held(v: Snapshot, s: nat)
    requires s in v.entries
  {
    var e := v.entries[s];
    InRange(v, e.slot) && SlotAt(v, e.slot) == RetainedSlot(Some(e.item), e.deadline, s, e.state)
  }

  /** Live slots and entries correspond one to one. */
  ghost predicate Agree(v: Snapshot) {
    && (forall s :: s in v.entries ==> Held(v, s))
    && (forall slot :: InRange(v, slot) && SlotAt(v, slot).item.Some? ==>
          SlotAt(v, slot).seqNo in v.entries && v.entries[SlotAt(v, slot).seqNo].slot == slot)
  }

  /** Valid keys of a ready queue stand in the order in which their items became ready. */
  ghost predicate TurnsOk(v: Snapshot) {
    && (forall s :: s in v.entries ==> v.entries[s].turn < v.clock)
    && (forall lane :: lane in v.lanes ==> QueueInTurn(v.lanes[lane], v.entries))
  }

  ghost predicate QueueInTurn(lane: Lane, entries: map<nat, Entry>) {
    forall p, q | 0 <= p < q < |lane.ready| && ReadyKey(lane, lane.ready[p]) && ReadyKey(lane, lane.ready[q]) ::
      lane.ready[p].seqNo in entries && lane.ready[q].seqNo in entries
      && entries[lane.ready[p].seqNo].turn < entries[lane.ready[q].seqNo].turn
  }

  /** An id index names exactly the slots whose item it is responsible for. */
  ghost predicate Indexes(v: Snapshot, index: map<PeerMessageId, SlotId>, tracked: bool) {
    && (forall s :: s in v.entries && v.entries[s].item.TrackedItem? == tracked ==>
          v.entries[s].item.PeerMsgId() in index && index[v.entries[s].item.PeerMsgId()] == v.entries[s].slot)
    && (forall id :: id in index ==> Names(v, index[id], id, tracked))
  }

  ghost predicate Names(v: Snapshot, slot: SlotId, id: PeerMessageId, tracked: bool) {
    && InRange(v, slot) && SlotAt(v, slot).item.Some?
    && SlotAt(v, slot).item.value.TrackedItem? == tracked
    && SlotAt(v, slot).item.value.PeerMsgId() == id
  }

  ghost predicate HeapKeyOk(v: Snapshot, key: DeadlineKey) {
    && InRange(v, key.slot)
    && KeyOk(v.lanes[key.slot.lane].slots, QueueKey(key.slot.index, key.seqNo))
    && (SlotAt(v, key.slot).seqNo == key.seqNo ==> SlotAt(v, key.slot).deadline == key.deadline)
  }

  ghost function HeapKey(v: Snapshot, s: nat): DeadlineKey
    requires s in v.entries
  {
    DeadlineKey(v.entries[s].deadline, v.entries[s].slot, s)
  }

  ghost predicate HeapOk(v: Snapshot) {
    && Sorted(v.deadlines)
    && (forall s :: s in v.entries ==> HeapKey(v, s) in v.deadlines)
    && (forall k :: k in v.deadlines ==> HeapKeyOk(v, k))
  }

  ghost predicate SnapshotOk(v: Snapshot) {
    && LanesOk(v) && Agree(v) && TurnsOk(v)
    && Indexes(v, v.tracked, true) && Indexes(v, v.responses, false)
    && HeapOk(v)
  }

  ghost function Abs(v: Snapshot): Store {
    Store(v.entries, v.nextSeq, v.clock, v.shutdown, map lane | lane in v.lanes :: v.lanes[lane].target)
  }

  // ---------------------------------------------------------------- lane counts

  /** Slot numbers of a lane and admission numbers of its entries match up, so there are as many. */
  lemma {:induction false} SameCount(v: Snapshot, lane: RetainedLane, indices: set<nat>, seqs: set<nat>)
    requires LanesOk(v) && Agree(v)
    requires forall i :: i in indices ==> i in Occupied(v.lanes[lane].slots)
    requires forall s ::
      s in seqs <==> s in v.entries && v.entries[s].slot.lane == lane && v.entries[s].slot.index in indices
    ensures |indices| == |seqs|
    decreases |indices|
  {
    hide Agree, LaneOk;
    if indices == {} {
      assert seqs == {};
    } else {
      var i :| i in indices;
      var s := SlotHolder(v, lane, i);
      SameCount(v, lane, indices - {i}, seqs - {s});
    }
  }

  /** The one entry that an occupied slot holds. */
  lemma SlotHolder(v: Snapshot, lane: RetainedLane, i: nat) returns (s: nat)
    requires LanesOk(v) && Agree(v) && i in Occupied(v.lanes[lane].slots)
    ensures s in v.entries && v.entries[s].slot == SlotId(lane, i)
    ensures forall t :: t in v.entries && v.entries[t].slot == SlotId(lane, i) ==> t == s
  {
    assert InRange(v, SlotId(lane, i));
    s := SlotAt(v, SlotId(lane, i)).seqNo;
    forall t | t in v.entries && v.entries[t].slot == SlotId(lane, i) ensures t == s {
      assert Held(v, t);
    }
  }

  lemma LiveIsLaneCount(v: Snapshot, lane: RetainedLane)
    requires LanesOk(v) && Agree(v)
    ensures v.lanes[lane].live == |InLane(v.entries, lane)|
  {
    forall s | s in InLane(v.entries, lane) ensures v.entries[s].slot.index in Occupied(v.lanes[lane].slots) {
      assert Held(v, s);
    }
    SameCount(v, lane, Occupied(v.lanes[lane].slots), InLane(v.entries, lane));
  }

  lemma SeqsBelow(v: Snapshot)
    requires LanesOk(v) && Agree(v)
    ensures forall s :: s in v.entries ==> 1 <= s < v.nextSeq
  {
    forall s | s in v.entries ensures 1 <= s < v.nextSeq {
      assert Held(v, s);
      assert SlotOk(v.entries[s].slot.lane, SlotAt(v, v.entries[s].slot), v.nextSeq);
    }
  }

  // ---------------------------------------------------------------- changes to one slot

  /** Outside slot `at`, the snapshots hold the same slots and the same entries. */
  ghost predicate Touches(v: Snapshot, w: Snapshot, at: SlotId) {
    SlotsTouched(v, w, at) && EntriesTouched(v.entries, w.entries, at)
  }

  ghost predicate SlotsTouched(v: Snapshot, w: Snapshot, at: SlotId) {
    && InRange(v, at)
    && (forall x :: InRange(v, x) <==> InRange(w, x))
    && (forall x :: InRange(v, x) && x != at ==> SlotAt(w, x) == SlotAt(v, x))
  }

  ghost predicate EntriesTouched(a: map<nat, Entry>, b: map<nat, Entry>, at: SlotId) {
    && (forall s :: s in a && a[s].slot != at ==> s in b && b[s] == a[s])
    && (forall s :: s in b && b[s].slot != at ==> s in a && b[s] == a[s])
  }

  lemma EntryRemoved(a: map<nat, Entry>, s: nat)
    requires s in a && forall t :: t in a && a[t].slot == a[s].slot ==> t == s
    ensures EntriesTouched(a, a - {s}, a[s].slot)
  {
  }

  lemma EntryAdded(a: map<nat, Entry>, s: nat, e: Entry)
    requires s !in a && forall t :: t in a ==> a[t].slot != e.slot
    ensures EntriesTouched(a, a[s := e], e.slot)
  {
  }

  lemma EntryChanged(a: map<nat, Entry>, s: nat, e: Entry)
    requires s in a && e.slot == a[s].slot && forall t :: t in a && a[t].slot == a[s].slot ==> t == s
    ensures EntriesTouched(a, a[s := e], e.slot)
  {
  }

  lemma SlotUpdate(v: Snapshot, w: Snapshot, at: SlotId, lane: Lane, slot: RetainedSlot)
    requires InRange(v, at)
    requires w.lanes == v.lanes[at.lane := lane]
    requires lane.slots == v.lanes[at.lane].slots[at.index := slot]
    ensures SlotsTouched(v, w, at) && SlotAt(w, at) == slot
  {
  }

  /** The entry of slot `at`, if any, is the one the slot holds. */
  ghost predicate AgreesAt(w: Snapshot, at: SlotId)
    requires InRange(w, at)
  {
    if SlotAt(w, at).item.Some? then
      && SlotAt(w, at).seqNo in w.entries && w.entries[SlotAt(w, at).seqNo].slot == at
      && (forall s :: s in w.entries && w.entries[s].slot == at ==> Held(w, s))
    else forall s :: s in w.entries ==> w.entries[s].slot != at
  }

  lemma AgreeAfterTouch(v: Snapshot, w: Snapshot, at: SlotId)
    requires Agree(v) && Touches(v, w, at) && InRange(w, at) && AgreesAt(w, at)
    ensures Agree(w)
  {
    forall s | s in w.entries ensures Held(w, s) {
      if w.entries[s].slot != at { assert Held(v, s); }
    }
  }

  /** Keys of the heap survive a change that moves the slot's sequence number forward, if at all. */
  lemma HeapAfterTouch(v: Snapshot, w: Snapshot, at: SlotId, more: set<DeadlineKey>)
    requires HeapOk(v) && Agree(w) && Touches(v, w, at)
    requires var a, b := SlotAt(v, at), SlotAt(w, at);
      && a.seqNo <= b.seqNo && (b.item.None? ==> a.item.None? || a.seqNo < b.seqNo)
      && (a.seqNo == b.seqNo && a.item.Some? ==> a.deadline == b.deadline)
      && (a.item.None? && b.item.Some? ==> HeapFresh(v, at, b.seqNo))
    requires Sorted(w.deadlines)
    requires forall k :: k in w.deadlines <==> k in v.deadlines || k in more
    requires forall k :: k in more ==> HeapKeyOk(w, k)
    requires forall s :: s in w.entries && w.entries[s].slot == at ==> HeapKey(w, s) in w.deadlines
    ensures HeapOk(w)
  {
    forall s | s in w.entries ensures HeapKey(w, s) in w.deadlines {
      if w.entries[s].slot != at {
        assert HeapKey(w, s) == HeapKey(v, s);
      }
    }
    forall k | k in v.deadlines ensures HeapKeyOk(w, k) {
      assert HeapKeyOk(v, k);
    }
  }

  /** No heap key names slot `at` with the given sequence number yet. */
  ghost predicate HeapFresh(v: Snapshot, at: SlotId, seqNo: nat) {
    forall k :: k in v.deadlines && k.slot == at ==> k.seqNo != seqNo
  }

  // How a change to one slot shows in an id index.

  ghost function Reindexed(
    index: map<PeerMessageId, SlotId>, before: Option<RetainedItem>, after: Option<RetainedItem>, at: SlotId,
        tracked: bool)
    : map<PeerMessageId, SlotId>
  {
    var base := if before.Some?
      && before.value.TrackedItem? == tracked then index - {before.value.PeerMsgId()} else index;
    if after.Some? && after.value.TrackedItem? == tracked then base[after.value.PeerMsgId() := at] else base
  }

  ghost predicate CanReindex(v: Snapshot, w: Snapshot, at: SlotId, index: map<PeerMessageId, SlotId>, tracked: bool) {
    && Agree(v) && Agree(w) && Touches(v, w, at) && Indexes(v, index, tracked)
    && var before, after := SlotAt(v, at).item, SlotAt(w, at).item;
      (after.Some? && after.value.TrackedItem? == tracked && after != before ==>
         after.value.PeerMsgId() !in index && before.None?)
  }

  /** Two tracked (or two response) entries of different slots have different ids. */
  lemma IdsDiffer(v: Snapshot, index: map<PeerMessageId, SlotId>, tracked: bool, s: nat, at: SlotId)
    requires Agree(v) && Indexes(v, index, tracked)
    requires s in v.entries && v.entries[s].slot != at && v.entries[s].item.TrackedItem? == tracked
    requires InRange(v, at) && SlotAt(v, at).item.Some? && SlotAt(v, at).item.value.TrackedItem? == tracked
    ensures v.entries[s].item.PeerMsgId() != SlotAt(v, at).item.value.PeerMsgId()
  {
    assert Held(v, SlotAt(v, at).seqNo);
  }

  lemma ReindexFindsHere(v: Snapshot, w: Snapshot, at: SlotId, index: map<PeerMessageId, SlotId>, tracked: bool, s: nat)
    requires Agree(w) && s in w.entries && w.entries[s].item.TrackedItem? == tracked && w.entries[s].slot == at
    requires InRange(v, at) && InRange(w, at)
    ensures var index' := Reindexed(index, SlotAt(v, at).item, SlotAt(w, at).item, at, tracked);
      w.entries[s].item.PeerMsgId() in index' && index'[w.entries[s].item.PeerMsgId()] == w.entries[s].slot
  {
    assert Held(w, s);
  }

  lemma ReindexFinds(v: Snapshot, w: Snapshot, at: SlotId, index: map<PeerMessageId, SlotId>, tracked: bool, s: nat)
    requires CanReindex(v, w, at, index, tracked)
    requires s in w.entries && w.entries[s].item.TrackedItem? == tracked
    ensures var index' := Reindexed(index, SlotAt(v, at).item, SlotAt(w, at).item, at, tracked);
      w.entries[s].item.PeerMsgId() in index' && index'[w.entries[s].item.PeerMsgId()] == w.entries[s].slot
  {
    hide Agree;
    if w.entries[s].slot == at {
      ReindexFindsHere(v, w, at, index, tracked, s);
    } else if SlotAt(v, at).item.Some? && SlotAt(v, at).item.value.TrackedItem? == tracked {
      IdsDiffer(v, index, tracked, s, at);
    }
  }

  lemma ReindexNames(
    v: Snapshot, w: Snapshot, at: SlotId, index: map<PeerMessageId, SlotId>, tracked: bool, id: PeerMessageId)
    requires CanReindex(v, w, at, index, tracked)
    requires id in Reindexed(index, SlotAt(v, at).item, SlotAt(w, at).item, at, tracked)
    ensures Names(w, Reindexed(index, SlotAt(v, at).item, SlotAt(w, at).item, at, tracked)[id], id, tracked)
  {
    hide Agree;
    if id in index {
      assert Names(v, index[id], id, tracked);
    }
  }

  lemma IndexAfterTouch(v: Snapshot, w: Snapshot, at: SlotId, index: map<PeerMessageId, SlotId>, tracked: bool)
    requires CanReindex(v, w, at, index, tracked)
    ensures Indexes(w, Reindexed(index, SlotAt(v, at).item, SlotAt(w, at).item, at, tracked), tracked)
  {
    hide Agree, Names, Reindexed, EntriesTouched;
    var index' := Reindexed(index, SlotAt(v, at).item, SlotAt(w, at).item, at, tracked);
    forall s | s in w.entries && w.entries[s].item.TrackedItem? == tracked
      ensures w.entries[s].item.PeerMsgId() in index' && index'[w.entries[s].item.PeerMsgId()] == w.entries[s].slot
    {
      ReindexFinds(v, w, at, index, tracked, s);
    }
    forall id | id in index' ensures Names(w, index'[id], id, tracked) {
      ReindexNames(v, w, at, index, tracked, id);
    }
  }

  // How a change to one slot shows in the ready queues.

  lemma ReadyKeyEntry(v: Snapshot, lane: RetainedLane, key: QueueKey)
    requires LanesOk(v) && Agree(v) && ReadyKey(v.lanes[lane], key)
    ensures key.seqNo in v.entries && v.entries[key.seqNo].slot == SlotId(lane, key.index)
  {
    assert SlotOk(lane, v.lanes[lane].slots[key.index], v.nextSeq);
    assert InRange(v, SlotId(lane, key.index));
    assert SlotAt(v, SlotId(lane, key.index)).seqNo == key.seqNo;
  }

  lemma QueueElsewhere(v: Snapshot, w: Snapshot, at: SlotId, lane: RetainedLane)
    requires LanesOk(v) && Agree(v) && EntriesTouched(v.entries, w.entries, at)
    requires lane != at.lane && QueueInTurn(v.lanes[lane], v.entries)
    ensures QueueInTurn(v.lanes[lane], w.entries)
  {
    var l := v.lanes[lane];
    forall p | 0 <= p < |l.ready| && ReadyKey(l, l.ready[p])
      ensures l.ready[p].seqNo in v.entries && l.ready[p].seqNo in w.entries
      ensures w.entries[l.ready[p].seqNo] == v.entries[l.ready[p].seqNo]
    {
      ReadyKeyEntry(v, lane, l.ready[p]);
    }
  }

  /** The queue loses keys at its head, and no key it keeps comes back to life. */
  lemma QueueShrinks(l: Lane, m: Lane, a: map<nat, Entry>, b: map<nat, Entry>, drop: nat)
    requires QueueInTurn(l, a)
    requires drop <= |l.ready| && m.ready == l.ready[drop..]
    requires forall p :: 0 <= p < |m.ready| && ReadyKey(m, m.ready[p]) ==>
      && ReadyKey(l, m.ready[p])
      && m.ready[p].seqNo in a && m.ready[p].seqNo in b && b[m.ready[p].seqNo].turn == a[m.ready[p].seqNo].turn
    ensures QueueInTurn(m, b)
  {
    forall p, q | 0 <= p < q < |m.ready| && ReadyKey(m, m.ready[p]) && ReadyKey(m, m.ready[q])
      ensures m.ready[p].seqNo in b && m.ready[q].seqNo in b && b[m.ready[p].seqNo].turn < b[m.ready[q].seqNo].turn
    {
      assert m.ready[p] == l.ready[p + drop] && m.ready[q] == l.ready[q + drop];
    }
  }

  /** A key joins the queue with a turn later than all others. */
  lemma QueueGrows(l: Lane, m: Lane, a: map<nat, Entry>, b: map<nat, Entry>, key: QueueKey, turn: nat)
    requires QueueInTurn(l, a)
    requires m.ready == l.ready + [key]
    requires key.seqNo in b && b[key.seqNo].turn == turn
    requires forall p :: 0 <= p < |l.ready| && ReadyKey(m, l.ready[p]) ==>
      && ReadyKey(l, l.ready[p])
      && l.ready[p].seqNo in a && l.ready[p].seqNo in b
      && b[l.ready[p].seqNo].turn == a[l.ready[p].seqNo].turn < turn
    ensures QueueInTurn(m, b)
  {
    forall p, q | 0 <= p < q < |m.ready| && ReadyKey(m, m.ready[p]) && ReadyKey(m, m.ready[q])
      ensures m.ready[p].seqNo in b && m.ready[q].seqNo in b && b[m.ready[p].seqNo].turn < b[m.ready[q].seqNo].turn
    {
      assert m.ready[p] == l.ready[p];
      assert q < |l.ready| ==> m.ready[q] == l.ready[q];
    }
  }

  // ---------------------------------------------------------------- admission

  ghost function NextSlot(v: Snapshot, lane: RetainedLane): SlotId
    requires lane in v.lanes && v.lanes[lane].free != []
  {
    SlotId(lane, v.lanes[lane].free[|v.lanes[lane].free| - 1])
  }

  ghost predicate CanAllocate(v: Snapshot, lane: RetainedLane) {
    lane in v.lanes && v.lanes[lane].free != [] && v.lanes[lane].free[|v.lanes[lane].free| - 1] < |v.lanes[lane].slots|
  }

  ghost function Admit(v: Snapshot, lane: RetainedLane, item: RetainedItem, deadline: Instant): Snapshot
    requires CanAllocate(v, lane)
  {
    var slot := NextSlot(v, lane);
    v.(lanes := v.lanes[lane := Allocated(v.lanes[lane], item, deadline, v.nextSeq)],
       deadlines := HeapPush(v.deadlines, DeadlineKey(deadline, slot, v.nextSeq)),
       nextSeq := v.nextSeq + 1,
       entries := v.entries[v.nextSeq := Entry(slot, item, deadline, Ready, v.clock)],
       clock := v.clock + 1,
       tracked := Reindexed(v.tracked, None, Some(item), slot, true),
       responses := Reindexed(v.responses, None, Some(item), slot, false))
  }

  lemma BoundMonotone(lane: RetainedLane, l: Lane, bound: nat)
    requires LaneOk(lane, l, bound)
    ensures LaneOk(lane, l, bound + 1)
  {
    forall i: nat | i < |l.slots| ensures SlotOk(lane, l.slots[i], bound + 1) {
      assert SlotOk(lane, l.slots[i], bound);
    }
  }

  lemma AdmitLanes(v: Snapshot, lane: RetainedLane, item: RetainedItem, deadline: Instant)
    requires LanesOk(v) && CanAllocate(v, lane) && ItemFitsLane(item, lane)
    ensures LanesOk(Admit(v, lane, item, deadline))
  {
    hide LaneOk, HeapPush, Reindexed, ItemFitsLane;
    AllocatedOk(lane, v.lanes[lane], item, deadline, v.nextSeq);
    forall l ensures LaneOk(l, v.lanes[l], v.nextSeq + 1) {
      BoundMonotone(l, v.lanes[l], v.nextSeq);
    }
  }

  /** The slot an admission takes is empty, and nobody refers to it. */
  lemma NextSlotIsUnused(v: Snapshot, lane: RetainedLane)
    requires LanesOk(v) && Agree(v) && CanAllocate(v, lane)
    ensures InRange(v, NextSlot(v, lane)) && SlotAt(v, NextSlot(v, lane)).item.None?
    ensures SlotAt(v, NextSlot(v, lane)).seqNo <= v.nextSeq
    ensures forall s :: s in v.entries ==> v.entries[s].slot != NextSlot(v, lane)
  {
    var at := NextSlot(v, lane);
    assert SlotOk(lane, v.lanes[lane].slots[at.index], v.nextSeq);
    forall s | s in v.entries ensures v.entries[s].slot != at {
      assert Held(v, s);
    }
  }

  lemma AdmitTouches(v: Snapshot, lane: RetainedLane, item: RetainedItem, deadline: Instant)
    requires LanesOk(v) && Agree(v) && CanAllocate(v, lane)
    ensures var w, at := Admit(v, lane, item, deadline), NextSlot(v, lane);
      && Touches(v, w, at)
      && SlotAt(w, at) == RetainedSlot(Some(item), deadline, v.nextSeq, Ready)
  {
    hide LaneOk, HeapPush, Reindexed, Agree, EntriesTouched, SlotsTouched;
    var w, at := Admit(v, lane, item, deadline), NextSlot(v, lane);
    NextSlotIsUnused(v, lane);
    SeqsBelow(v);
    EntryAdded(v.entries, v.nextSeq, w.entries[v.nextSeq]);
    var filled := Allocated(v.lanes[lane], item, deadline, v.nextSeq);
    SlotUpdate(v, w, at, filled, RetainedSlot(Some(item), deadline, v.nextSeq, Ready));
  }

  lemma AdmitAgrees(v: Snapshot, lane: RetainedLane, item: RetainedItem, deadline: Instant)
    requires LanesOk(v) && Agree(v) && CanAllocate(v, lane)
    ensures Agree(Admit(v, lane, item, deadline))
  {
    hide LaneOk, HeapPush, Reindexed, Agree;
    AdmitTouches(v, lane, item, deadline);
    NextSlotIsUnused(v, lane);
    AgreeAfterTouch(v, Admit(v, lane, item, deadline), NextSlot(v, lane));
  }

  lemma AdmitHeap(v: Snapshot, lane: RetainedLane, item: RetainedItem, deadline: Instant)
    requires LanesOk(v) && Agree(v) && HeapOk(v) && CanAllocate(v, lane)
    ensures HeapOk(Admit(v, lane, item, deadline))
  {
    hide LaneOk, HeapPush, Reindexed, Agree;
    var w, at := Admit(v, lane, item, deadline), NextSlot(v, lane);
    NextSlotIsUnused(v, lane);
    AdmitTouches(v, lane, item, deadline);
    AdmitAgrees(v, lane, item, deadline);
    assert HeapFresh(v, at, v.nextSeq) by {
      forall k | k in v.deadlines && k.slot == at ensures k.seqNo != v.nextSeq {
        assert HeapKeyOk(v, k);
      }
    }
    HeapAfterTouch(v, w, at, {DeadlineKey(deadline, at, v.nextSeq)});
  }

  lemma AdmitTurns(v: Snapshot, lane: RetainedLane, item: RetainedItem, deadline: Instant)
    requires LanesOk(v) && Agree(v) && TurnsOk(v) && CanAllocate(v, lane)
    ensures TurnsOk(Admit(v, lane, item, deadline))
  {
    hide LaneOk, HeapPush, Reindexed, Agree, QueueInTurn, SlotsTouched;
    var w, at := Admit(v, lane, item, deadline), NextSlot(v, lane);
    AdmitTouches(v, lane, item, deadline);
    SeqsBelow(v);
    AdmitQueue(v, lane, item, deadline);
    forall l | l in w.lanes ensures QueueInTurn(w.lanes[l], w.entries) {
      if l != lane { QueueElsewhere(v, w, at, l); }
    }
  }

  lemma OldKeyAfterAdmit(v: Snapshot, lane: RetainedLane, item: RetainedItem, deadline: Instant, p: nat)
    requires LanesOk(v) && Agree(v) && CanAllocate(v, lane)
    requires p < |v.lanes[lane].ready| && ReadyKey(Admit(v, lane, item, deadline).lanes[lane], v.lanes[lane].ready[p])
    ensures ReadyKey(v.lanes[lane], v.lanes[lane].ready[p])
    ensures v.lanes[lane].ready[p].seqNo in v.entries && v.lanes[lane].ready[p].seqNo < v.nextSeq
  {
    hide HeapPush, Reindexed;
    var l, at := v.lanes[lane], NextSlot(v, lane);
    NextSlotIsUnused(v, lane);
    assert KeyOk(l.slots, l.ready[p]);
    if l.ready[p].index != at.index { ReadyKeyEntry(v, lane, l.ready[p]); }
    SeqsBelow(v);
  }

  lemma AdmitQueue(v: Snapshot, lane: RetainedLane, item: RetainedItem, deadline: Instant)
    requires LanesOk(v) && Agree(v) && TurnsOk(v) && CanAllocate(v, lane)
    ensures QueueInTurn(Admit(v, lane, item, deadline).lanes[lane], Admit(v, lane, item, deadline).entries)
  {
    hide LaneOk, HeapPush, Reindexed, Agree, ReadyKey;
    var w, at := Admit(v, lane, item, deadline), NextSlot(v, lane);
    var l, m := v.lanes[lane], w.lanes[lane];
    forall p | 0 <= p < |l.ready| && ReadyKey(m, l.ready[p])
      ensures ReadyKey(l, l.ready[p]) && l.ready[p].seqNo in v.entries && l.ready[p].seqNo < v.nextSeq
    {
      OldKeyAfterAdmit(v, lane, item, deadline, p);
    }
    QueueGrows(l, m, v.entries, w.entries, QueueKey(at.index, v.nextSeq), v.clock);
  }

  /** An admission into a lane with room keeps the invariant. */
  lemma AdmitOk(v: Snapshot, lane: RetainedLane, item: RetainedItem, deadline: Instant)
    requires SnapshotOk(v) && CanAllocate(v, lane) && ItemFitsLane(item, lane)
    requires item.PeerMsgId() !in (if item.TrackedItem? then v.tracked else v.responses)
    ensures SnapshotOk(Admit(v, lane, item, deadline))
  {
    hide LaneOk, HeapPush, Reindexed, Agree, TurnsOk, HeapOk, Indexes, Touches;
    var w, at := Admit(v, lane, item, deadline), NextSlot(v, lane);
    NextSlotIsUnused(v, lane);
    AdmitLanes(v, lane, item, deadline);
    AdmitTouches(v, lane, item, deadline);
    AdmitAgrees(v, lane, item, deadline);
    AdmitTurns(v, lane, item, deadline);
    AdmitHeap(v, lane, item, deadline);
    IndexAfterTouch(v, w, at, v.tracked, true);
    IndexAfterTouch(v, w, at, v.responses, false);
  }

  // ---------------------------------------------------------------- removal

  ghost function Remove(v: Snapshot, s: nat): Snapshot
    requires s in v.entries && InRange(v, v.entries[s].slot)
  {
    var e := v.entries[s];
    v.(lanes := v.lanes[e.slot.lane := Freed(v.lanes[e.slot.lane], e.slot.index)],
       entries := v.entries - {s},
       tracked := Reindexed(v.tracked, Some(e.item), None, e.slot, true),
       responses := Reindexed(v.responses, Some(e.item), None, e.slot, false))
  }

  /** What holds around the slot of a live entry. */
  lemma EntrySlot(v: Snapshot, s: nat)
    requires LanesOk(v) && Agree(v) && s in v.entries
    ensures Held(v, s)
    ensures forall t :: t in v.entries && v.entries[t].slot == v.entries[s].slot ==> t == s
    ensures 1 <= s < v.nextSeq && StateFitsItem(v.entries[s].item, v.entries[s].state)
    ensures ItemFitsLane(v.entries[s].item, v.entries[s].slot.lane)
  {
    assert Held(v, s);
    assert SlotOk(v.entries[s].slot.lane, SlotAt(v, v.entries[s].slot), v.nextSeq);
    forall t | t in v.entries && v.entries[t].slot == v.entries[s].slot ensures t == s {
      assert Held(v, t);
    }
  }

  lemma RemoveTouches(v: Snapshot, s: nat)
    requires LanesOk(v) && Agree(v) && s in v.entries
    ensures InRange(v, v.entries[s].slot)
    ensures var w, at := Remove(v, s), v.entries[s].slot;
      && Touches(v, w, at)
      && SlotAt(w, at) == RetainedSlot(None, v.entries[s].deadline, s + 1, Empty)
  {
    hide LaneOk, LanesOk, Reindexed, Agree, EntriesTouched, SlotsTouched;
    EntrySlot(v, s);
    var w, at := Remove(v, s), v.entries[s].slot;
    EntryRemoved(v.entries, s);
    SlotUpdate(v, w, at, Freed(v.lanes[at.lane], at.index), RetainedSlot(None, v.entries[s].deadline, s + 1, Empty));
  }

  lemma RemoveAgrees(v: Snapshot, s: nat)
    requires LanesOk(v) && Agree(v) && s in v.entries
    ensures InRange(v, v.entries[s].slot) && Agree(Remove(v, s))
  {
    hide LaneOk, LanesOk, Reindexed, Agree;
    RemoveTouches(v, s);
    EntrySlot(v, s);
    AgreeAfterTouch(v, Remove(v, s), v.entries[s].slot);
  }

  lemma RemoveLanes(v: Snapshot, s: nat)
    requires LanesOk(v) && Agree(v) && s in v.entries
    ensures InRange(v, v.entries[s].slot) && LanesOk(Remove(v, s))
  {
    hide LaneOk, Reindexed, Agree;
    EntrySlot(v, s);
    FreedOk(v.entries[s].slot.lane, v.lanes[v.entries[s].slot.lane], v.entries[s].slot.index, v.nextSeq);
  }

  lemma RemoveQueue(v: Snapshot, s: nat)
    requires LanesOk(v) && Agree(v) && TurnsOk(v) && s in v.entries && InRange(v, v.entries[s].slot)
    ensures QueueInTurn(Remove(v, s).lanes[v.entries[s].slot.lane], Remove(v, s).entries)
  {
    hide LaneOk, Reindexed, Agree;
    EntrySlot(v, s);
    var w, at := Remove(v, s), v.entries[s].slot;
    var l, m := v.lanes[at.lane], w.lanes[at.lane];
    assert l.ready[0..] == l.ready;
    forall p | 0 <= p < |m.ready| && ReadyKey(m, m.ready[p])
      ensures ReadyKey(l, m.ready[p]) && m.ready[p].seqNo in v.entries && m.ready[p].seqNo in w.entries
    {
      ReadyKeyEntry(v, at.lane, m.ready[p]);
    }
    QueueShrinks(l, m, v.entries, w.entries, 0);
  }

  lemma RemoveTurns(v: Snapshot, s: nat)
    requires LanesOk(v) && Agree(v) && TurnsOk(v) && s in v.entries
    ensures InRange(v, v.entries[s].slot) && TurnsOk(Remove(v, s))
  {
    hide LaneOk, Reindexed, Agree, QueueInTurn, SlotsTouched;
    RemoveTouches(v, s);
    RemoveQueue(v, s);
    var w, at := Remove(v, s), v.entries[s].slot;
    forall l | l in w.lanes ensures QueueInTurn(w.lanes[l], w.entries) {
      if l != at.lane { QueueElsewhere(v, w, at, l); }
    }
  }

  lemma RemoveHeap(v: Snapshot, s: nat)
    requires LanesOk(v) && Agree(v) && HeapOk(v) && s in v.entries
    ensures InRange(v, v.entries[s].slot) && HeapOk(Remove(v, s))
  {
    hide LaneOk, Reindexed, Agree;
    EntrySlot(v, s);
    RemoveTouches(v, s);
    RemoveAgrees(v, s);
    HeapAfterTouch(v, Remove(v, s), v.entries[s].slot, {});
  }

  /** Taking a live item out of its slot keeps the invariant. */
  lemma RemoveOk(v: Snapshot, s: nat)
    requires SnapshotOk(v) && s in v.entries
    ensures InRange(v, v.entries[s].slot) && SnapshotOk(Remove(v, s))
  {
    hide LaneOk, Reindexed, LanesOk, Agree, TurnsOk, HeapOk, Indexes, Touches;
    EntrySlot(v, s);
    RemoveLanes(v, s);
    RemoveTouches(v, s);
    RemoveAgrees(v, s);
    RemoveTurns(v, s);
    RemoveHeap(v, s);
    var w, at := Remove(v, s), v.entries[s].slot;
    IndexAfterTouch(v, w, at, v.tracked, true);
    IndexAfterTouch(v, w, at, v.responses, false);
  }

  // ---------------------------------------------------------------- changes of state

  /** Entry `s` and its slot get a new state (and turn); the queues of that lane become those of `m`. */
  ghost predicate StateChanged(v: Snapshot, w: Snapshot, s: nat, m: Lane, state: SlotState, turn: nat) {
    && s in v.entries && InRange(v, v.entries[s].slot)
    && var e := v.entries[s];
    && m.slots == v.lanes[e.slot.lane].slots[e.slot.index := SlotAt(v, e.slot).(state := state)]
    && w == v.(lanes := v.lanes[e.slot.lane := m],
               entries := v.entries[s := e.(state := state, turn := turn)],
               clock := w.clock)
  }

  lemma StateChangeTouches(v: Snapshot, w: Snapshot, s: nat, m: Lane, state: SlotState, turn: nat)
    requires LanesOk(v) && Agree(v) && StateChanged(v, w, s, m, state, turn)
    ensures Held(v, s)
    ensures Touches(v, w, v.entries[s].slot)
    ensures SlotAt(w, v.entries[s].slot) == SlotAt(v, v.entries[s].slot).(state := state)
  {
    hide LaneOk, LanesOk, Agree, EntriesTouched, SlotsTouched;
    EntrySlot(v, s);
    EntryChanged(v.entries, s, w.entries[s]);
    SlotUpdate(v, w, v.entries[s].slot, m, SlotAt(v, v.entries[s].slot).(state := state));
  }

  lemma StateChangeAgrees(v: Snapshot, w: Snapshot, s: nat, m: Lane, state: SlotState, turn: nat)
    requires LanesOk(v) && Agree(v) && StateChanged(v, w, s, m, state, turn)
    ensures Agree(w)
  {
    hide LaneOk, LanesOk, Agree;
    EntrySlot(v, s);
    StateChangeTouches(v, w, s, m, state, turn);
    AgreeAfterTouch(v, w, v.entries[s].slot);
  }

  lemma StateChangeHeap(v: Snapshot, w: Snapshot, s: nat, m: Lane, state: SlotState, turn: nat)
    requires LanesOk(v) && Agree(v) && HeapOk(v) && StateChanged(v, w, s, m, state, turn)
    ensures HeapOk(w)
  {
    hide LaneOk, LanesOk, Agree;
    EntrySlot(v, s);
    StateChangeTouches(v, w, s, m, state, turn);
    StateChangeAgrees(v, w, s, m, state, turn);
    assert HeapKey(w, s) == HeapKey(v, s);
    HeapAfterTouch(v, w, v.entries[s].slot, {});
  }

  lemma ReindexSame(v: Snapshot, s: nat, index: map<PeerMessageId, SlotId>, tracked: bool)
    requires s in v.entries && Indexes(v, index, tracked)
    ensures Reindexed(index, Some(v.entries[s].item), Some(v.entries[s].item), v.entries[s].slot, tracked) == index
  {
  }

  lemma StateChangeIndexes(v: Snapshot, w: Snapshot, s: nat, m: Lane, state: SlotState, turn: nat)
    requires LanesOk(v) && Agree(v) && StateChanged(v, w, s, m, state, turn)
    requires Indexes(v, v.tracked, true) && Indexes(v, v.responses, false)
    ensures Indexes(w, v.tracked, true) && Indexes(w, v.responses, false)
  {
    hide LaneOk, LanesOk, Agree, Indexes, Reindexed, Touches;
    StateChangeTouches(v, w, s, m, state, turn);
    StateChangeAgrees(v, w, s, m, state, turn);
    IndexAfterTouch(v, w, v.entries[s].slot, v.tracked, true);
    IndexAfterTouch(v, w, v.entries[s].slot, v.responses, false);
    ReindexSame(v, s, v.tracked, true);
    ReindexSame(v, s, v.responses, false);
  }

  lemma StateChangeTurns(v: Snapshot, w: Snapshot, s: nat, m: Lane, state: SlotState, turn: nat)
    requires LanesOk(v) && Agree(v) && TurnsOk(v) && StateChanged(v, w, s, m, state, turn)
    requires v.clock <= w.clock && turn < w.clock && QueueInTurn(m, w.entries)
    ensures TurnsOk(w)
  {
    hide LaneOk, Agree, QueueInTurn, SlotsTouched;
    StateChangeTouches(v, w, s, m, state, turn);
    var at := v.entries[s].slot;
    forall l | l in w.lanes ensures QueueInTurn(w.lanes[l], w.entries) {
      if l != at.lane { QueueElsewhere(v, w, at, l); }
    }
  }

  /** A state change keeps the invariant once its own lane and queue do. */
  lemma StateChangeOk(v: Snapshot, w: Snapshot, s: nat, m: Lane, state: SlotState, turn: nat)
    requires SnapshotOk(v) && StateChanged(v, w, s, m, state, turn)
    requires LaneOk(v.entries[s].slot.lane, m, v.nextSeq)
    requires v.clock <= w.clock && turn < w.clock && QueueInTurn(m, w.entries)
    ensures SnapshotOk(w)
  {
    hide LaneOk, Agree, HeapOk, Indexes, TurnsOk, QueueInTurn, InRange;
    StateChangeAgrees(v, w, s, m, state, turn);
    StateChangeHeap(v, w, s, m, state, turn);
    StateChangeIndexes(v, w, s, m, state, turn);
    StateChangeTurns(v, w, s, m, state, turn);
  }

  ghost function Restate(v: Snapshot, s: nat, state: SlotState, replay: seq<QueueKey>): Snapshot
    requires s in v.entries && InRange(v, v.entries[s].slot)
  {
    var e := v.entries[s];
    var ready := if state.Ready? then [QueueKey(e.slot.index, s)] else [];
    v.(lanes := v.lanes[e.slot.lane := Restated(v.lanes[e.slot.lane], e.slot.index, state, ready, replay)],
       entries := v.entries[s := e.(state := state, turn := if state.Ready? then v.clock else e.turn)],
       clock := if state.Ready? then v.clock + 1 else v.clock)
  }

  ghost predicate CanRestate(v: Snapshot, s: nat, state: SlotState, replay: seq<QueueKey>) {
    && s in v.entries && !v.entries[s].state.Ready? && StateFitsItem(v.entries[s].item, state)
    && (forall k :: k in replay ==> k == QueueKey(v.entries[s].slot.index, s))
    && (state.ReplayReady? ==> replay != [])
  }

  lemma RestateLane(v: Snapshot, s: nat, state: SlotState, replay: seq<QueueKey>)
    requires LanesOk(v) && Agree(v) && CanRestate(v, s, state, replay)
    ensures InRange(v, v.entries[s].slot)
    ensures LaneOk(v.entries[s].slot.lane, Restate(v, s, state, replay).lanes[v.entries[s].slot.lane], v.nextSeq)
  {
    hide LaneOk, Agree;
    EntrySlot(v, s);
    var at := v.entries[s].slot;
    var ready := if state.Ready? then [QueueKey(at.index, s)] else [];
    RestatedOk(at.lane, v.lanes[at.lane], at.index, state, ready, replay, v.nextSeq);
  }

  /** A key that is valid after the change was valid before, unless it is the one just queued. */
  lemma OldKeyAfterRestate(v: Snapshot, s: nat, state: SlotState, replay: seq<QueueKey>, p: nat)
    requires LanesOk(v) && Agree(v) && CanRestate(v, s, state, replay) && InRange(v, v.entries[s].slot)
    requires var lane := v.entries[s].slot.lane;
      p < |v.lanes[lane].ready| && ReadyKey(Restate(v, s, state, replay).lanes[lane], v.lanes[lane].ready[p])
    ensures var key := v.lanes[v.entries[s].slot.lane].ready[p];
      ReadyKey(v.lanes[v.entries[s].slot.lane], key) && key.seqNo in v.entries && key.seqNo != s
  {
    EntrySlot(v, s);
    var at := v.entries[s].slot;
    var key := v.lanes[at.lane].ready[p];
    assert KeyOk(v.lanes[at.lane].slots, key) && MatchesOnlyReady(v.lanes[at.lane].slots, key);
    if key.index != at.index { ReadyKeyEntry(v, at.lane, key); }
  }

  lemma RestateQueue(v: Snapshot, s: nat, state: SlotState, replay: seq<QueueKey>)
    requires LanesOk(v) && Agree(v) && TurnsOk(v) && CanRestate(v, s, state, replay) && InRange(v, v.entries[s].slot)
    ensures var w := Restate(v, s, state, replay); QueueInTurn(w.lanes[v.entries[s].slot.lane], w.entries)
  {
    hide LaneOk, Agree, ReadyKey, LanesOk, QueueInTurn, StateFitsItem;
    var w, at := Restate(v, s, state, replay), v.entries[s].slot;
    var l, m := v.lanes[at.lane], w.lanes[at.lane];
    forall p | 0 <= p < |l.ready| && ReadyKey(m, l.ready[p])
      ensures ReadyKey(l, l.ready[p]) && l.ready[p].seqNo in v.entries && l.ready[p].seqNo != s
    {
      OldKeyAfterRestate(v, s, state, replay, p);
    }
    if state.Ready? {
      QueueGrows(l, m, v.entries, w.entries, QueueKey(at.index, s), v.clock);
    } else {
      assert m.ready == l.ready[0..];
      QueueShrinks(l, m, v.entries, w.entries, 0);
    }
  }

  /** A slot that is not ready changes state, joining the queue its new state calls for. */
  lemma RestateOk(v: Snapshot, s: nat, state: SlotState, replay: seq<QueueKey>)
    requires SnapshotOk(v) && CanRestate(v, s, state, replay)
    ensures InRange(v, v.entries[s].slot) && SnapshotOk(Restate(v, s, state, replay))
  {
    hide LaneOk, LanesOk, Agree, HeapOk, Indexes, QueueInTurn, StateFitsItem, ItemFitsLane;
    EntrySlot(v, s);
    RestateLane(v, s, state, replay);
    RestateQueue(v, s, state, replay);
    var w, at := Restate(v, s, state, replay), v.entries[s].slot;
    StateChangeOk(v, w, s, w.lanes[at.lane], state, w.entries[s].turn);
  }

  // ---------------------------------------------------------------- claims

  ghost function ClaimHead(v: Snapshot, lane: RetainedLane, callis: CallisId): Snapshot
    requires lane in v.lanes && v.lanes[lane].ready != [] && ReadyKey(v.lanes[lane], v.lanes[lane].ready[0])
    requires v.lanes[lane].ready[0].seqNo in v.entries
  {
    var s := v.lanes[lane].ready[0].seqNo;
    v.(lanes := v.lanes[lane := ClaimedHead(v.lanes[lane], callis)],
       entries := v.entries[s := v.entries[s].(state := Writing(callis))])
  }

  lemma ClaimHeadQueue(v: Snapshot, lane: RetainedLane, callis: CallisId)
    requires LanesOk(v) && Agree(v) && TurnsOk(v)
    requires v.lanes[lane].ready != [] && ReadyKey(v.lanes[lane], v.lanes[lane].ready[0])
    requires v.lanes[lane].ready[0].seqNo in v.entries
    ensures QueueInTurn(ClaimHead(v, lane, callis).lanes[lane], ClaimHead(v, lane, callis).entries)
  {
    hide LaneOk, Agree;
    var w := ClaimHead(v, lane, callis);
    var l, m := v.lanes[lane], w.lanes[lane];
    forall p | 0 <= p < |m.ready| && ReadyKey(m, m.ready[p])
      ensures ReadyKey(l, m.ready[p]) && m.ready[p].seqNo in v.entries
    {
      assert m.ready[p] == l.ready[p + 1];
      ReadyKeyEntry(v, lane, m.ready[p]);
    }
    QueueShrinks(l, m, v.entries, w.entries, 1);
  }

  lemma ClaimHeadOk(v: Snapshot, lane: RetainedLane, callis: CallisId)
    requires SnapshotOk(v)
    requires v.lanes[lane].ready != [] && ReadyKey(v.lanes[lane], v.lanes[lane].ready[0])
    ensures v.lanes[lane].ready[0].seqNo in v.entries && SnapshotOk(ClaimHead(v, lane, callis))
  {
    hide LaneOk, Agree, HeapOk, Indexes, QueueInTurn;
    var s := v.lanes[lane].ready[0].seqNo;
    ReadyKeyEntry(v, lane, v.lanes[lane].ready[0]);
    EntrySlot(v, s);
    ClaimHeadQueue(v, lane, callis);
    ClaimedHeadOk(lane, v.lanes[lane], callis, v.nextSeq);
    var w := ClaimHead(v, lane, callis);
    StateChangeOk(v, w, s, w.lanes[lane], Writing(callis), v.entries[s].turn);
  }

  // ---------------------------------------------------------------- stale keys

  /** The same entries and indexes, and the same slots, perhaps with empty ones added. */
  ghost predicate SameContents(v: Snapshot, w: Snapshot) {
    && (forall x :: InRange(v, x) ==> InRange(w, x))
    && (forall x :: InRange(v, x) ==> SlotAt(w, x) == SlotAt(v, x))
    && (forall x :: InRange(w, x) && SlotAt(w, x).item.Some? ==> InRange(v, x))
    && w.entries == v.entries && w.tracked == v.tracked && w.responses == v.responses
  }

  lemma SameAgree(v: Snapshot, w: Snapshot)
    requires Agree(v) && SameContents(v, w)
    ensures Agree(w)
  {
    forall s | s in w.entries ensures Held(w, s) { assert Held(v, s); }
  }

  lemma SameIndexes(v: Snapshot, w: Snapshot, index: map<PeerMessageId, SlotId>, tracked: bool)
    requires Indexes(v, index, tracked) && SameContents(v, w)
    ensures Indexes(w, index, tracked)
  {
    forall id | id in index ensures Names(w, index[id], id, tracked) { assert Names(v, index[id], id, tracked); }
  }

  lemma SameHeap(v: Snapshot, w: Snapshot)
    requires HeapOk(v) && SameContents(v, w)
    requires Sorted(w.deadlines) && (forall k :: k in w.deadlines ==> k in v.deadlines)
    requires forall s :: s in v.entries ==> HeapKey(v, s) in w.deadlines
    ensures HeapOk(w)
  {
    forall s | s in w.entries ensures HeapKey(w, s) in w.deadlines { assert HeapKey(w, s) == HeapKey(v, s); }
    forall k | k in w.deadlines ensures HeapKeyOk(w, k) { assert HeapKeyOk(v, k); }
  }

  predicate Lengthens(slots: seq<RetainedSlot>, more: seq<RetainedSlot>) {
    slots <= more && forall i :: |slots| <= i < |more| ==> more[i].item.None?
  }

  lemma SwapSame(v: Snapshot, lane: RetainedLane, m: Lane)
    requires lane in v.lanes && Lengthens(v.lanes[lane].slots, m.slots)
    ensures SameContents(v, v.(lanes := v.lanes[lane := m]))
  {
  }

  lemma PopHeapSame(v: Snapshot)
    requires v.deadlines != []
    ensures SameContents(v, v.(deadlines := v.deadlines[1..]))
  {
  }

  /** Dropping queue keys or adding empty slots touches no live slot, so only the lane at hand matters. */
  lemma LaneSwapOk(v: Snapshot, lane: RetainedLane, m: Lane)
    requires SnapshotOk(v) && Lengthens(v.lanes[lane].slots, m.slots)
    requires LaneOk(lane, m, v.nextSeq) && QueueInTurn(m, v.entries)
    ensures SnapshotOk(v.(lanes := v.lanes[lane := m]))
  {
    hide LaneOk, QueueInTurn, Agree, HeapOk, Indexes, SameContents;
    var w := v.(lanes := v.lanes[lane := m]);
    SwapSame(v, lane, m);
    SameAgree(v, w);
    SameIndexes(v, w, v.tracked, true);
    SameIndexes(v, w, v.responses, false);
    HeapUnchanged(v, w);
  }

  lemma HeapUnchanged(v: Snapshot, w: Snapshot)
    requires HeapOk(v) && SameContents(v, w) && w.deadlines == v.deadlines
    ensures HeapOk(w)
  {
    SameHeap(v, w);
  }

  lemma PopReadyOk(v: Snapshot, lane: RetainedLane)
    requires SnapshotOk(v) && v.lanes[lane].ready != [] && !ReadyKey(v.lanes[lane], v.lanes[lane].ready[0])
    ensures SnapshotOk(v.(lanes := v.lanes[lane := v.lanes[lane].(ready := v.lanes[lane].ready[1..])]))
  {
    hide LaneOk, Agree, HeapOk, Indexes;
    var l := v.lanes[lane];
    var m := l.(ready := l.ready[1..]);
    ReadyTailOk(lane, l, v.nextSeq);
    forall p | 0 <= p < |m.ready| && ReadyKey(m, m.ready[p])
      ensures ReadyKey(l, m.ready[p]) && m.ready[p].seqNo in v.entries
    {
      assert m.ready[p] == l.ready[p + 1];
      ReadyKeyEntry(v, lane, m.ready[p]);
    }
    QueueShrinks(l, m, v.entries, v.entries, 1);
    LaneSwapOk(v, lane, m);
  }

  lemma PopReplayOk(v: Snapshot, lane: RetainedLane)
    requires SnapshotOk(v) && v.lanes[lane].replay != [] && !ReplayKey(v.lanes[lane], v.lanes[lane].replay[0])
    ensures SnapshotOk(v.(lanes := v.lanes[lane := v.lanes[lane].(replay := v.lanes[lane].replay[1..])]))
  {
    hide LaneOk, Agree, HeapOk, Indexes;
    var l := v.lanes[lane];
    var m := l.(replay := l.replay[1..]);
    ReplayTailOk(lane, l, v.nextSeq);
    assert QueueInTurn(l, v.entries);
    assert QueueInTurn(m, v.entries);
    LaneSwapOk(v, lane, m);
  }

  /** The heap key describes the item its slot holds now. */
  ghost predicate LiveHeapKey(v: Snapshot, key: DeadlineKey) {
    InRange(v, key.slot) && SlotAt(v, key.slot).seqNo == key.seqNo && SlotAt(v, key.slot).item.Some?
  }

  lemma PopHeapKeepsEntries(v: Snapshot)
    requires LanesOk(v) && Agree(v) && HeapOk(v) && v.deadlines != [] && !LiveHeapKey(v, v.deadlines[0])
    ensures HeapOk(v.(deadlines := v.deadlines[1..]))
  {
    hide LaneOk, SameContents;
    var w := v.(deadlines := v.deadlines[1..]);
    forall s | s in v.entries ensures HeapKey(v, s) in w.deadlines {
      assert Held(v, s) && HeapKey(v, s) in v.deadlines;
    }
    PopHeapSame(v);
    SameHeap(v, w);
  }

  lemma PopHeapOk(v: Snapshot)
    requires SnapshotOk(v) && v.deadlines != [] && !LiveHeapKey(v, v.deadlines[0])
    ensures SnapshotOk(v.(deadlines := v.deadlines[1..]))
  {
    hide LaneOk, QueueInTurn, Agree, HeapOk, Indexes, LiveHeapKey, SameContents;
    var w := v.(deadlines := v.deadlines[1..]);
    PopHeapKeepsEntries(v);
    PopHeapSame(v);
    SameAgree(v, w);
    SameIndexes(v, w, v.tracked, true);
    SameIndexes(v, w, v.responses, false);
  }

  lemma GrowOk(v: Snapshot, lane: RetainedLane, target: nat)
    requires SnapshotOk(v) && 1 <= target
    ensures SnapshotOk(v.(lanes := v.lanes[lane := Grown(v.lanes[lane], target)]))
  {
    hide Agree, HeapOk, Indexes;
    var l := v.lanes[lane];
    var m := Grown(l, target);
    GrownOk(lane, l, target, v.nextSeq);
    assert QueueInTurn(l, v.entries);
    forall p | 0 <= p < |m.ready| && ReadyKey(m, m.ready[p]) ensures ReadyKey(l, l.ready[p]) {
      assert KeyOk(l.slots, l.ready[p]);
    }
    LaneSwapOk(v, lane, m);
  }
}
