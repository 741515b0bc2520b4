/** What the invariant says about the specification's questions: who is live, full, next or due. */
module RetainedRefinement {
  import opened Common
  import opened RetainedTypes
  import opened RetainedSpec
  import opened RetainedLanes
  import opened RetainedInvariant
  import opened RetainedRuns

  lemma NewOk(v: Snapshot)
    requires forall lane :: lane in v.lanes && LaneOk(lane, v.lanes[lane], 1) && Occupied(v.lanes[lane].slots) == {}
    requires forall lane :: lane in v.lanes ==> v.lanes[lane].ready == []
    requires v.tracked == map[] && v.responses == map[] && v.deadlines == []
    requires v.nextSeq == 1 && v.entries == map[]
    ensures SnapshotOk(v) && Inv(Abs(v))
  {
    assert forall lane :: LaneOk(lane, v.lanes[lane], 1) ==> 1 <= v.lanes[lane].target;
    hide LaneOk;
    forall slot | InRange(v, slot) ensures SlotAt(v, slot).item.None? {
      assert slot.index !in Occupied(v.lanes[slot.lane].slots);
    }
  }

  lemma LaneIsOk(v: Snapshot, lane: RetainedLane)
    requires SnapshotOk(v)
    ensures lane in v.lanes && LaneOk(lane, v.lanes[lane], v.nextSeq)
  {
  }

  lemma LaneFullIff(v: Snapshot, lane: RetainedLane)
    requires SnapshotOk(v)
    ensures LaneFull(Abs(v), lane) <==> v.lanes[lane].live >= v.lanes[lane].target
  {
    hide LaneOk, Agree, HeapOk, Indexes, TurnsOk;
    LiveIsLaneCount(v, lane);
  }

  lemma TrackedIndexed(v: Snapshot, id: PeerMessageId)
    requires SnapshotOk(v)
    ensures HoldsTracked(Abs(v), id) <==> id in v.tracked
  {
    hide LaneOk, HeapOk, TurnsOk;
    if id in v.tracked {
      var slot := v.tracked[id];
      assert Names(v, slot, id, true);
      assert Held(v, SlotAt(v, slot).seqNo);
    }
  }

  lemma ResponseIndexed(v: Snapshot, id: PeerMessageId)
    requires SnapshotOk(v)
    ensures HoldsResponse(Abs(v), id) <==> id in v.responses
  {
    hide LaneOk, HeapOk, TurnsOk;
    if id in v.responses {
      var slot := v.responses[id];
      assert Names(v, slot, id, false);
      assert Held(v, SlotAt(v, slot).seqNo);
    }
  }

  /** The entry an id index leads to. */
  lemma IndexLeadsTo(v: Snapshot, slot: SlotId, id: PeerMessageId, tracked: bool)
    requires Agree(v) && Names(v, slot, id, tracked)
    ensures SlotAt(v, slot).seqNo in v.entries
    ensures var e := v.entries[SlotAt(v, slot).seqNo];
      e.slot == slot && e.item.TrackedItem? == tracked && e.item.PeerMsgId() == id
        && SlotAt(v, slot).item == Some(e.item)
  {
    assert Held(v, SlotAt(v, slot).seqNo);
  }

  lemma BumpOk(v: Snapshot)
    requires SnapshotOk(v)
    ensures SnapshotOk(v.(nextSeq := v.nextSeq + 1))
  {
    hide LaneOk, Agree, HeapOk, Indexes, QueueInTurn, SameContents;
    var w := v.(nextSeq := v.nextSeq + 1);
    forall l ensures LaneOk(l, v.lanes[l], v.nextSeq + 1) { BoundMonotone(l, v.lanes[l], v.nextSeq); }
    FieldsAside(v, w);
  }

  /** Nothing but the lanes, entries, indexes and heap keys matters to three parts of the invariant. */
  lemma FieldsAside(v: Snapshot, w: Snapshot)
    requires Agree(v) && HeapOk(v) && Indexes(v, v.tracked, true) && Indexes(v, v.responses, false)
    requires w.lanes == v.lanes && w.entries == v.entries && w.deadlines == v.deadlines
    requires w.tracked == v.tracked && w.responses == v.responses
    ensures Agree(w) && HeapOk(w) && Indexes(w, w.tracked, true) && Indexes(w, w.responses, false)
  {
    hide LaneOk, Agree, HeapOk, Indexes;
    assert SameContents(v, w);
    SameAgree(v, w);
    SameIndexes(v, w, v.tracked, true);
    SameIndexes(v, w, v.responses, false);
    HeapUnchanged(v, w);
  }

  lemma ShutdownFlagOk(v: Snapshot, shutdown: bool)
    requires SnapshotOk(v)
    ensures SnapshotOk(v.(shutdown := shutdown))
  {
    hide LaneOk, Agree, HeapOk, Indexes, QueueInTurn;
    FieldsAside(v, v.(shutdown := shutdown));
  }

  lemma AdmitIsAdmitted(v: Snapshot, lane: RetainedLane, item: RetainedItem, deadline: Instant)
    requires SnapshotOk(v) && CanAllocate(v, lane)
    requires LanesOk(Admit(v, lane, item, deadline))
    ensures AdmittedIn(Abs(v), lane, item, deadline, Abs(Admit(v, lane, item, deadline)))
  {
    hide LaneOk, HeapOk, Indexes, TurnsOk, Agree, HeapPush, Reindexed;
    NextSlotIsUnused(v, lane);
  }

  lemma ResponseAdmitted(v: Snapshot, lane: RetainedLane, item: RetainedItem, deadline: Instant)
    requires SnapshotOk(v) && CanAllocate(v, lane) && ItemFitsLane(item, lane)
    requires !item.TrackedItem? && item.PeerMsgId() !in v.responses
    ensures Admit(v, lane, item, deadline).tracked == v.tracked
    ensures Admit(v, lane, item, deadline).responses == v.responses[item.PeerMsgId() := NextSlot(v, lane)]
    ensures SnapshotOk(Admit(v, lane, item, deadline))
    ensures AdmittedIn(Abs(v), lane, item, deadline, Abs(Admit(v, lane, item, deadline)))
  {
    hide LaneOk, LanesOk, HeapOk, Indexes, TurnsOk, Agree, HeapPush, AdmittedIn;
    AdmitOk(v, lane, item, deadline);
    AdmitIsAdmitted(v, lane, item, deadline);
  }

  lemma TrackedAdmitted(v: Snapshot, lane: RetainedLane, message: TrackedOutbound, deadline: Instant)
    requires SnapshotOk(v) && CanAllocate(v, lane) && ItemFitsLane(TrackedItem(message), lane)
    requires message.message.peerMsgId !in v.tracked
    ensures Admit(v, lane, TrackedItem(message), deadline).tracked
      == v.tracked[message.message.peerMsgId := NextSlot(v, lane)]
    ensures Admit(v, lane, TrackedItem(message), deadline).responses == v.responses
    ensures SnapshotOk(Admit(v, lane, TrackedItem(message), deadline))
    ensures var w := Admit(v, lane, TrackedItem(message), deadline);
      AdmittedIn(Abs(v), lane, TrackedItem(message), deadline, Abs(w))
  {
    hide LaneOk, LanesOk, HeapOk, Indexes, TurnsOk, Agree, HeapPush, AdmittedIn;
    AdmitOk(v, lane, TrackedItem(message), deadline);
    AdmitIsAdmitted(v, lane, TrackedItem(message), deadline);
  }

  // ---------------------------------------------------------------- dispatch

  lemma EmptyReadyQueue(v: Snapshot, lane: RetainedLane, s: nat)
    requires SnapshotOk(v) && v.lanes[lane].ready == []
    requires s in v.entries && v.entries[s].slot.lane == lane
    ensures !v.entries[s].state.Ready?
  {
    hide HeapOk, Indexes, TurnsOk, SlotsOk;
    assert Held(v, s);
  }

  lemma EmptyReplayQueue(v: Snapshot, lane: RetainedLane, s: nat)
    requires SnapshotOk(v) && v.lanes[lane].replay == []
    requires s in v.entries && v.entries[s].slot.lane == lane
    ensures !v.entries[s].state.ReplayReady?
  {
    hide HeapOk, Indexes, TurnsOk, SlotsOk;
    assert Held(v, s);
  }

  lemma NothingQueued(v: Snapshot, lane: RetainedLane, replay: bool)
    requires SnapshotOk(v) && Queue(v.lanes[lane], replay) == []
    ensures forall s :: s in v.entries && v.entries[s].slot.lane == lane ==> !Waiting(v.entries[s].state, replay)
  {
    hide HeapOk, Indexes, TurnsOk, Agree, LaneOk;
    forall s | s in v.entries && v.entries[s].slot.lane == lane ensures !Waiting(v.entries[s].state, replay) {
      if replay { EmptyReplayQueue(v, lane, s); } else { EmptyReadyQueue(v, lane, s); }
    }
  }

  lemma NothingToClaim(v: Snapshot, lane: RetainedLane, replay: bool, callis: CallisId)
    requires SnapshotOk(v) && Queue(v.lanes[lane], replay) == []
    ensures QueueClaim(Abs(v), lane, replay, callis, None, Abs(v))
  {
    hide SnapshotOk;
    NothingQueued(v, lane, replay);
  }

  lemma HeadIsOldest(v: Snapshot, lane: RetainedLane, t: nat)
    requires SnapshotOk(v)
    requires v.lanes[lane].ready != [] && ReadyKey(v.lanes[lane], v.lanes[lane].ready[0])
    requires t in v.entries && v.entries[t].slot.lane == lane && v.entries[t].state.Ready?
    ensures v.lanes[lane].ready[0].seqNo in v.entries
    ensures v.entries[v.lanes[lane].ready[0].seqNo].turn <= v.entries[t].turn
  {
    hide HeapOk, Indexes, SlotsOk;
    var l := v.lanes[lane];
    ReadyKeyEntry(v, lane, l.ready[0]);
    assert Held(v, t);
    assert QueueKey(v.entries[t].slot.index, t) in l.ready;
    var q :| 0 <= q < |l.ready| && l.ready[q] == QueueKey(v.entries[t].slot.index, t);
    assert QueueInTurn(l, v.entries);
    assert ReadyKey(l, l.ready[q]);
  }

  // A lane has two queues; these are the operations the claim loop does on either.

  function Queue(l: Lane, replay: bool): seq<QueueKey> {
    if replay then l.replay else l.ready
  }

  function PopHead(l: Lane, replay: bool): Lane
    requires Queue(l, replay) != []
  {
    if replay then l.(replay := l.replay[1..]) else l.(ready := l.ready[1..])
  }

  /** The key still describes its slot, and the slot waits in this queue. */
  predicate KeyIsLive(l: Lane, replay: bool, key: QueueKey) {
    key.index < |l.slots| && l.slots[key.index].seqNo == key.seqNo && Waiting(l.slots[key.index].state, replay)
  }

  predicate HeadIsLive(l: Lane, replay: bool)
    requires Queue(l, replay) != []
  {
    KeyIsLive(l, replay, Queue(l, replay)[0])
  }

  /** The lane without the first `n` keys of one queue. */
  function WithoutKeys(l: Lane, replay: bool, n: nat): Lane
    requires n <= |Queue(l, replay)|
  {
    if replay then l.(replay := l.replay[n..]) else l.(ready := l.ready[n..])
  }

  lemma OneKeyLess(l: Lane, replay: bool, n: nat)
    requires n < |Queue(l, replay)|
    ensures PopHead(WithoutKeys(l, replay, n), replay) == WithoutKeys(l, replay, n + 1)
    ensures Queue(WithoutKeys(l, replay, n), replay)[0] == Queue(l, replay)[n]
  {
  }

  /** The claim goes to the first key that is still live; the keys behind it keep their order. */
  predicate TakesKey(l: Lane, replay: bool, n: nat, claim: Option<RetainedClaim>, m: Lane) {
    && n <= |Queue(l, replay)|
    && (forall i :: 0 <= i < n ==> !KeyIsLive(l, replay, Queue(l, replay)[i]))
    && match claim
       case None => n == |Queue(l, replay)| && Queue(m, replay) == []
       case Some(c) =>
         && n < |Queue(l, replay)| && KeyIsLive(l, replay, Queue(l, replay)[n])
         && Queue(l, replay)[n] == QueueKey(c.slot.index, c.identity.seqNo)
         && Queue(m, replay) == Queue(l, replay)[n + 1..]
  }

  ghost predicate TakesFirstLive(l: Lane, replay: bool, claim: Option<RetainedClaim>, m: Lane) {
    exists n :: TakesKey(l, replay, n, claim, m)
  }

  /**
   * What a claim may do to the replay queue of one lane: nothing, drop it because no key is live, or
   * take its first live key.
   */
  ghost predicate ReplayMove(l: Lane, lane: RetainedLane, claim: Option<RetainedClaim>, m: Lane) {
    || m.replay == l.replay
    || TakesFirstLive(l, true, None, m)
    || (claim.Some? && claim.value.slot.lane == lane && TakesFirstLive(l, true, claim, m))
  }

  ghost predicate ReplayMoves(a: map<RetainedLane, Lane>, claim: Option<RetainedClaim>, b: map<RetainedLane, Lane>) {
    forall lane :: lane in a ==> lane in b && ReplayMove(a[lane], lane, claim, b[lane])
  }

  lemma ClaimedHere(a: Store, lane: RetainedLane, callis: CallisId, claim: Option<RetainedClaim>, b: Store)
    requires QueueClaim(a, lane, true, callis, claim, b) && claim.Some?
    ensures claim.value.slot.lane == lane
  {
  }

  lemma StillNone(l: Lane, m: Lane, e: Lane)
    requires e.replay == m.replay
    ensures m.replay == l.replay ==> e.replay == l.replay
    ensures TakesFirstLive(l, true, None, m) ==> TakesFirstLive(l, true, None, e)
  {
    if n :| TakesKey(l, true, n, None, m) {
      assert TakesKey(l, true, n, None, e);
    }
  }

  /** The lanes of a higher rank have been asked in vain, the others not at all. */
  ghost predicate MovedBelow(a: map<RetainedLane, Lane>, b: map<RetainedLane, Lane>, rank: nat) {
    forall lane :: lane in a ==>
      && lane in b
      && if LaneRank(lane) < rank then ReplayMove(a[lane], lane, None, b[lane]) else b[lane] == a[lane]
  }

  lemma MovedNone(a: map<RetainedLane, Lane>)
    ensures MovedBelow(a, a, 0)
  {
  }

  lemma MovedOneMore(
    a: map<RetainedLane, Lane>, b: map<RetainedLane, Lane>, lane: RetainedLane, c: map<RetainedLane, Lane>, rank: nat)
    requires MovedBelow(a, b, rank) && LaneRank(lane) == rank && lane in b && lane in c
    requires ReplayMove(b[lane], lane, None, c[lane])
    requires c == b[lane := c[lane]]
    ensures MovedBelow(a, c, rank + 1)
  {
    hide ReplayMove;
    assert forall other :: LaneRank(other) == rank ==> other == lane by { OneLanePerRank(lane); }
  }

  lemma OneLanePerRank(lane: RetainedLane)
    ensures forall other :: LaneRank(other) == LaneRank(lane) ==> other == lane
  {
  }

  lemma MovedAll(
    a: map<RetainedLane, Lane>, b: map<RetainedLane, Lane>, lane: RetainedLane, claim: Option<RetainedClaim>,
    c: map<RetainedLane, Lane>)
    requires MovedBelow(a, b, LaneRank(lane)) && lane in b && lane in c && ReplayMove(b[lane], lane, claim, c[lane])
    requires c == b[lane := c[lane]]
    ensures ReplayMoves(a, claim, c)
  {
    hide TakesFirstLive;
  }

  lemma MovedFour(a: map<RetainedLane, Lane>, b: map<RetainedLane, Lane>)
    requires MovedBelow(a, b, 4)
    ensures ReplayMoves(a, None, b)
  {
    hide ReplayMove;
  }

  predicate InSlotOrder(keys: seq<QueueKey>, bound: nat) {
    && (forall i, j :: 0 <= i < j < |keys| ==> keys[i].index < keys[j].index)
    && (forall i :: 0 <= i < |keys| ==> keys[i].index < bound)
  }

  ghost predicate SameReplays(a: map<RetainedLane, Lane>, b: map<RetainedLane, Lane>) {
    forall lane :: lane in a ==> lane in b && b[lane].replay == a[lane].replay
  }

  /** New keys go to the end, so whoever is in a replay queue keeps its place, even if marked again. */
  ghost predicate KeepsPlaces(a: map<RetainedLane, Lane>, b: map<RetainedLane, Lane>) {
    forall lane :: lane in a ==> lane in b && a[lane].replay <= b[lane].replay
  }

  // ---------------------------------------------------------------- replay order over runs

  /**
   * The lanes of a store after each of its operations, and what was claimed: an operation that claims
   * makes a `ReplayMove` in every lane, any other keeps places.
   */
  ghost predicate ReplayRun(lanes: seq<map<RetainedLane, Lane>>, claims: seq<Option<RetainedClaim>>) {
    && |lanes| == |claims| + 1
    && forall i :: 0 <= i < |claims| ==>
         ReplayMoves(lanes[i], claims[i], lanes[i + 1]) || KeepsPlaces(lanes[i], lanes[i + 1])
  }

  /** The claim took this key from the replay queue. */
  ghost predicate TakesReplay(l: Lane, claim: Option<RetainedClaim>, m: Lane, key: QueueKey) {
    && claim.Some? && key == QueueKey(claim.value.slot.index, claim.value.identity.seqNo)
    && TakesFirstLive(l, true, claim, m)
  }

  /** `first` is in the queue, with no `second` in front of it. */
  predicate InFrontOf(queue: seq<QueueKey>, first: QueueKey, second: QueueKey) {
    exists p :: 0 <= p < |queue| && queue[p] == first && second !in queue[..p]
  }

  lemma TakenBehind(l: Lane, n: nat, claim: Option<RetainedClaim>, m: Lane, first: QueueKey, second: QueueKey)
    requires TakesKey(l, true, n, claim, m) && InFrontOf(l.replay, first, second) && KeyIsLive(l, true, first)
    requires claim.Some? ==> QueueKey(claim.value.slot.index, claim.value.identity.seqNo) != first
    ensures claim.Some? && QueueKey(claim.value.slot.index, claim.value.identity.seqNo) != second
    ensures InFrontOf(m.replay, first, second)
  {
    var p :| 0 <= p < |l.replay| && l.replay[p] == first && second !in l.replay[..p];
    assert p >= n;
    assert claim.Some? && p > n;
    assert l.replay[n] == l.replay[..p][n];
    assert m.replay[p - n - 1] == first;
    assert m.replay[..p - n - 1] == l.replay[n + 1..p];
  }

  lemma StaysInFront(
    a: map<RetainedLane, Lane>, claim: Option<RetainedClaim>, b: map<RetainedLane, Lane>, lane: RetainedLane,
    first: QueueKey, second: QueueKey)
    requires ReplayMoves(a, claim, b) || KeepsPlaces(a, b)
    requires lane in a && InFrontOf(a[lane].replay, first, second) && KeyIsLive(a[lane], true, first)
    requires lane in b && !TakesReplay(a[lane], claim, b[lane], first)
    ensures InFrontOf(b[lane].replay, first, second) && !TakesReplay(a[lane], claim, b[lane], second)
  {
    hide KeyIsLive;
    forall c, n | TakesKey(a[lane], true, n, c, b[lane]) && (c == claim || c == None)
      ensures InFrontOf(b[lane].replay, first, second)
      ensures c.Some? && QueueKey(c.value.slot.index, c.value.identity.seqNo) != second
    {
      if c.Some? {
        assert TakesFirstLive(a[lane], true, c, b[lane]);
      }
      TakenBehind(a[lane], n, c, b[lane], first, second);
    }
    if a[lane].replay <= b[lane].replay {
      var p :| 0 <= p < |a[lane].replay| && a[lane].replay[p] == first && second !in a[lane].replay[..p];
      assert b[lane].replay[p] == first && b[lane].replay[..p] == a[lane].replay[..p];
    }
  }

  /**
   * No overtaking: while an entry waits to be sent again and is in front of another in its lane, the
   * other is not sent again before it. Entries are in front of those marked after them.
   */
  lemma {:induction false} NoReplayOvertakes(
    lanes: seq<map<RetainedLane, Lane>>, claims: seq<Option<RetainedClaim>>, i: nat, j: nat, lane: RetainedLane,
    first: QueueKey, second: QueueKey)
    requires ReplayRun(lanes, claims) && i <= j < |claims|
    requires forall n :: i <= n <= j + 1 ==> lane in lanes[n]
    requires InFrontOf(lanes[i][lane].replay, first, second)
    requires forall n :: i <= n <= j ==> KeyIsLive(lanes[n][lane], true, first)
    requires forall n :: i <= n <= j ==> !TakesReplay(lanes[n][lane], claims[n], lanes[n + 1][lane], first)
    ensures InFrontOf(lanes[j + 1][lane].replay, first, second)
    ensures !TakesReplay(lanes[j][lane], claims[j], lanes[j + 1][lane], second)
    decreases j
  {
    hide KeyIsLive, TakesReplay, InFrontOf, ReplayMoves, KeepsPlaces;
    if i == j {
    } else {
      NoReplayOvertakes(lanes, claims, i, j - 1, lane, first, second);
    }
    StaysInFront(lanes[j], claims[j], lanes[j + 1], lane, first, second);
  }

  function TakeHead(l: Lane, replay: bool, callis: CallisId): Lane
    requires Queue(l, replay) != [] && HeadIsLive(l, replay)
  {
    var index := Queue(l, replay)[0].index;
    PopHead(l, replay).(slots := l.slots[index := l.slots[index].(state := Writing(callis))])
  }

  lemma KeyInRange(v: Snapshot, lane: RetainedLane, replay: bool)
    requires SnapshotOk(v)
    ensures lane in v.lanes
    ensures Queue(v.lanes[lane], replay) != [] ==> Queue(v.lanes[lane], replay)[0].index < |v.lanes[lane].slots|
  {
    hide Agree, HeapOk, Indexes, TurnsOk, SlotsOk;
    var queue := Queue(v.lanes[lane], replay);
    if queue != [] { assert KeyOk(v.lanes[lane].slots, queue[0]); }
  }

  /** Dropping a key that no longer describes its slot changes nothing that matters. */
  lemma StaleKeyPops(v: Snapshot, lane: RetainedLane, replay: bool)
    requires SnapshotOk(v) && Queue(v.lanes[lane], replay) != [] && !HeadIsLive(v.lanes[lane], replay)
    ensures var w := v.(lanes := v.lanes[lane := PopHead(v.lanes[lane], replay)]);
      SnapshotOk(w) && Abs(w) == Abs(v)
  {
    hide Agree, HeapOk, Indexes, TurnsOk, LaneOk;
    if replay { PopReplayOk(v, lane); } else { PopReadyOk(v, lane); }
  }

  lemma LiveKeyEntry(v: Snapshot, lane: RetainedLane, replay: bool)
    requires SnapshotOk(v) && Queue(v.lanes[lane], replay) != [] && HeadIsLive(v.lanes[lane], replay)
    ensures var key := Queue(v.lanes[lane], replay)[0];
      && key.seqNo in v.entries
      && var e := v.entries[key.seqNo];
      && e.slot == SlotId(lane, key.index) && Waiting(e.state, replay)
      && v.lanes[lane].slots[key.index] == RetainedSlot(Some(e.item), e.deadline, key.seqNo, e.state)
  {
    hide HeapOk, Indexes, TurnsOk, QueuesOk;
    var key := Queue(v.lanes[lane], replay)[0];
    var at := SlotId(lane, key.index);
    assert SlotOk(lane, v.lanes[lane].slots[key.index], v.nextSeq);
    assert InRange(v, at) && SlotAt(v, at).seqNo == key.seqNo;
    assert Held(v, key.seqNo);
  }

  lemma ReadyHeadTaken(v: Snapshot, lane: RetainedLane, callis: CallisId, s: nat)
    requires lane in v.lanes && v.lanes[lane].ready != [] && HeadIsLive(v.lanes[lane], false)
    requires s == v.lanes[lane].ready[0].seqNo && s in v.entries && SnapshotOk(v)
    ensures SnapshotOk(v.(lanes := v.lanes[lane := TakeHead(v.lanes[lane], false, callis)],
                          entries := v.entries[s := v.entries[s].(state := Writing(callis))]))
    ensures forall t :: t in v.entries && v.entries[t].slot.lane == lane && v.entries[t].state.Ready? ==>
      v.entries[s].turn <= v.entries[t].turn
  {
    hide HeapOk, Indexes, TurnsOk, Agree, LaneOk;
    ClaimHeadOk(v, lane, callis);
    forall t | t in v.entries && v.entries[t].slot.lane == lane && v.entries[t].state.Ready?
      ensures v.entries[s].turn <= v.entries[t].turn
    {
      HeadIsOldest(v, lane, t);
    }
  }

  lemma ReplayHeadTaken(v: Snapshot, lane: RetainedLane, callis: CallisId, s: nat)
    requires lane in v.lanes && v.lanes[lane].replay != [] && HeadIsLive(v.lanes[lane], true)
    requires s == v.lanes[lane].replay[0].seqNo && s in v.entries && SnapshotOk(v)
    requires v.entries[s].slot == SlotId(lane, v.lanes[lane].replay[0].index) && v.entries[s].state.ReplayReady?
    ensures SnapshotOk(v.(lanes := v.lanes[lane := TakeHead(v.lanes[lane], true, callis)],
                          entries := v.entries[s := v.entries[s].(state := Writing(callis))]))
  {
    hide HeapOk, Indexes, TurnsOk, Agree, LaneOk;
    RestateOk(v, s, Writing(callis), []);
    var w := Restate(v, s, Writing(callis), []);
    assert v.lanes[lane].ready + [] == v.lanes[lane].ready && v.lanes[lane].replay + [] == v.lanes[lane].replay;
    PopReplayOk(w, lane);
    assert w.lanes[lane := w.lanes[lane].(replay := w.lanes[lane].replay[1..])]
      == v.lanes[lane := TakeHead(v.lanes[lane], true, callis)];
  }

  /** Taking a live key hands its own entry, the oldest fresh one of the lane, to the connection. */
  lemma LiveKeyTaken(v: Snapshot, lane: RetainedLane, replay: bool, callis: CallisId, claim: RetainedClaim)
    requires SnapshotOk(v) && Queue(v.lanes[lane], replay) != [] && HeadIsLive(v.lanes[lane], replay)
    requires claim.identity.seqNo == Queue(v.lanes[lane], replay)[0].seqNo && claim.identity.seqNo in v.entries
    requires claim == ClaimOf(claim.identity.seqNo, v.entries[claim.identity.seqNo], callis)
    ensures var s := claim.identity.seqNo;
      var w := v.(lanes := v.lanes[lane := TakeHead(v.lanes[lane], replay, callis)],
                  entries := v.entries[s := v.entries[s].(state := Writing(callis))]);
      SnapshotOk(w) && QueueClaim(Abs(v), lane, replay, callis, Some(claim), Abs(w))
  {
    hide HeapOk, Indexes, TurnsOk, Agree, LaneOk;
    LiveKeyEntry(v, lane, replay);
    if replay {
      ReplayHeadTaken(v, lane, callis, claim.identity.seqNo);
    } else {
      ReadyHeadTaken(v, lane, callis, claim.identity.seqNo);
    }
  }

  lemma ReplayClaimFirst(a: Store, lane: RetainedLane, callis: CallisId, outcome: Option<RetainedClaim>, b: Store)
    requires QueueClaim(a, lane, true, callis, outcome, b) && outcome.Some? && !(a.shutdown && IsTrackedLane(lane))
    ensures LaneClaim(a, lane, callis, outcome, b)
  {
  }

  lemma ThenFreshClaim(a: Store, lane: RetainedLane, callis: CallisId, outcome: Option<RetainedClaim>, b: Store)
    requires Inv(a) && QueueClaim(a, lane, false, callis, outcome, b) && !(a.shutdown && IsTrackedLane(lane))
    requires IsTrackedLane(lane) ==> QueueClaim(a, lane, true, callis, None, a)
    ensures LaneClaim(a, lane, callis, outcome, b)
  {
    forall t | t in a.entries && a.entries[t].slot.lane == lane ensures !a.entries[t].state.ReplayReady? {
      assert EntryOk(a, t);
    }
  }

  lemma HighestLaneFirst(a: Store, lane: RetainedLane, callis: CallisId, outcome: Option<RetainedClaim>, b: Store)
    requires LaneClaim(a, lane, callis, outcome, b) && outcome.Some?
    requires forall t :: t in a.entries && LaneRank(a.entries[t].slot.lane) < LaneRank(lane) ==> !Dispatchable(a, t)
    ensures ClaimStep(a, callis, outcome, b)
  {
  }

  // ---------------------------------------------------------------- write completion

  /** What the store compares when a write lease comes back. */
  predicate LeaseFits(slot: RetainedSlot, claim: RetainedClaim) {
    slot.state == Writing(claim.callis) && slot.Identity() == Some(claim.identity)
  }

  lemma LeaseFitsIffCurrent(v: Snapshot, claim: RetainedClaim)
    requires SnapshotOk(v)
    ensures claim.slot.lane in v.lanes
    ensures (claim.slot.index < |v.lanes[claim.slot.lane].slots|
      && LeaseFits(v.lanes[claim.slot.lane].slots[claim.slot.index], claim))
      <==> Current(Abs(v), claim)
  {
    hide HeapOk, Indexes, TurnsOk, LaneOk;
    var s := claim.identity.seqNo;
    if s in v.entries && v.entries[s].slot == claim.slot {
      assert Held(v, s);
    }
    if InRange(v, claim.slot) && LeaseFits(SlotAt(v, claim.slot), claim) {
      assert s in v.entries && v.entries[s].slot == claim.slot;
    }
  }

  lemma CurrentEntry(v: Snapshot, claim: RetainedClaim)
    requires SnapshotOk(v) && Current(Abs(v), claim)
    ensures InRange(v, claim.slot) && claim.identity.seqNo in v.entries
    ensures var e := v.entries[claim.identity.seqNo];
      && e.slot == claim.slot && StateFitsItem(e.item, e.state)
      && v.lanes[claim.slot.lane].slots[claim.slot.index]
        == RetainedSlot(Some(e.item), e.deadline, claim.identity.seqNo, e.state)
  {
    hide HeapOk, Indexes, TurnsOk, LaneOk, Agree;
    EntrySlot(v, claim.identity.seqNo);
  }

  /** The slot of a current lease gets a new state; this is the lane record the store then holds. */
  lemma LeaseRestated(v: Snapshot, claim: RetainedClaim, state: SlotState)
    requires SnapshotOk(v) && Current(Abs(v), claim)
    requires StateFitsItem(v.entries[claim.identity.seqNo].item, state)
    ensures InRange(v, claim.slot)
    ensures var s, l := claim.identity.seqNo, v.lanes[claim.slot.lane];
      var key := [QueueKey(claim.slot.index, s)];
      var turn := if state.Ready? then v.clock else v.entries[s].turn;
      var m := l.(slots := l.slots[claim.slot.index := l.slots[claim.slot.index].(state := state)],
                  ready := if state.Ready? then l.ready + key else l.ready,
                  replay := if state.ReplayReady? then l.replay + key else l.replay);
      var w := v.(lanes := v.lanes[claim.slot.lane := m],
                  entries := v.entries[s := v.entries[s].(state := state, turn := turn)],
                  clock := if state.Ready? then v.clock + 1 else v.clock);
      SnapshotOk(w)
  {
    hide HeapOk, Indexes, TurnsOk, LaneOk, Agree, StateFitsItem;
    CurrentEntry(v, claim);
    var s, l := claim.identity.seqNo, v.lanes[claim.slot.lane];
    assert l.ready + [] == l.ready && l.replay + [] == l.replay;
    RestateOk(v, s, state, if state.ReplayReady? then [QueueKey(claim.slot.index, s)] else []);
  }

  lemma SlotRemoved(v: Snapshot, slot: SlotId)
    requires SnapshotOk(v) && InRange(v, slot) && SlotAt(v, slot).item.Some?
    ensures var s := SlotAt(v, slot).seqNo;
      && s in v.entries && v.entries[s].slot == slot && SlotAt(v, slot).item == Some(v.entries[s].item)
      && SnapshotOk(Remove(v, s)) && Abs(Remove(v, s)) == Without(Abs(v), s)
      && var id, isTracked := v.entries[s].item.PeerMsgId(), v.entries[s].item.TrackedItem?;
      && Remove(v, s).tracked == (if isTracked then v.tracked - {id} else v.tracked)
      && Remove(v, s).responses == (if isTracked then v.responses else v.responses - {id})
  {
    hide HeapOk, Indexes, TurnsOk, LaneOk;
    var s := SlotAt(v, slot).seqNo;
    assert Held(v, s);
    RemoveOk(v, s);
  }

  lemma QueueClaimNone(a: Store, lane: RetainedLane, replay: bool, callis: CallisId, b: Store)
    requires QueueClaim(a, lane, replay, callis, None, b)
    ensures a == b
  {
  }

  // ---------------------------------------------------------------- deadlines

  lemma HeapHeadIsMinimum(v: Snapshot, s: nat)
    requires HeapOk(v) && s in v.entries
    ensures v.deadlines != [] && v.deadlines[0].deadline <= v.entries[s].deadline
  {
    var i :| 0 <= i < |v.deadlines| && v.deadlines[i] == HeapKey(v, s);
    assert i > 0 ==> KeyLe(v.deadlines[0], v.deadlines[i]);
  }

  lemma LiveHeapKeyEntry(v: Snapshot, key: DeadlineKey)
    requires Agree(v) && HeapOk(v) && key in v.deadlines && LiveHeapKey(v, key)
    ensures key.seqNo in v.entries && v.entries[key.seqNo].slot == key.slot
      && v.entries[key.seqNo].deadline == key.deadline
  {
    assert HeapKeyOk(v, key);
    assert Held(v, key.seqNo);
  }

  lemma HeapHeadSlot(v: Snapshot)
    requires SnapshotOk(v) && v.deadlines != []
    ensures var key := v.deadlines[0];
      && InRange(v, key.slot)
      && (SlotAt(v, key.slot).seqNo == key.seqNo ==> SlotAt(v, key.slot).deadline == key.deadline)
      && (SlotAt(v, key.slot).state.Empty? <==> SlotAt(v, key.slot).item.None?)
  {
    hide Agree, Indexes, TurnsOk, QueuesOk;
    var key := v.deadlines[0];
    assert key in v.deadlines && HeapKeyOk(v, key);
    assert SlotOk(key.slot.lane, SlotAt(v, key.slot), v.nextSeq);
  }

  lemma HeadEntry(v: Snapshot)
    requires SnapshotOk(v) && v.deadlines != [] && LiveHeapKey(v, v.deadlines[0])
    ensures var key := v.deadlines[0];
      && key.seqNo in v.entries && v.entries[key.seqNo].slot == key.slot
        && v.entries[key.seqNo].deadline == key.deadline
      && InRange(v, key.slot) && SlotAt(v, key.slot).item.Some? && SlotAt(v, key.slot).seqNo == key.seqNo
  {
    hide Indexes, TurnsOk, LaneOk;
    LiveHeapKeyEntry(v, v.deadlines[0]);
  }

  lemma HeadIsStaleNow(v: Snapshot)
    requires SnapshotOk(v) && v.deadlines != [] && v.deadlines[0].seqNo !in v.entries
    ensures !LiveHeapKey(v, v.deadlines[0])
  {
    hide HeapOk, Indexes, TurnsOk, LaneOk;
  }

  lemma NobodyDue(v: Snapshot, now: Instant)
    requires SnapshotOk(v) && (v.deadlines == [] || v.deadlines[0].deadline > now)
    ensures forall s :: s in v.entries ==> v.entries[s].deadline > now
  {
    hide HeapOk, Agree, Indexes, TurnsOk, LaneOk;
    forall s | s in v.entries ensures v.entries[s].deadline > now { HeapHeadIsMinimum(v, s); }
  }

  /** Nobody at the head is due any more, so all who were due are gone. */
  lemma AllDueGone(a: Store, v: Snapshot, now: Instant, gone: set<nat>, effects: seq<CompletionEffect>)
    requires Inv(a) && SnapshotOk(v) && (v.deadlines == [] || v.deadlines[0].deadline > now)
    requires gone <= DueSeqs(a, now) && Abs(v) == a.(entries := a.entries - gone)
    requires Settles(Part(a, gone), effects, Failed(SendTimeout))
    ensures Step(a, Op.ExpireDue(now, effects), Abs(v)) && Inv(Abs(v))
  {
    hide SnapshotOk, Inv, Settles;
    NobodyDue(v, now);
    assert forall s :: s in a.entries && s !in gone ==> s in v.entries && v.entries[s] == a.entries[s];
    assert gone == DueSeqs(a, now);
    StepKeepsInv(a, Op.ExpireDue(now, effects), Abs(v));
  }

  lemma HeadIsEarliest(v: Snapshot)
    requires SnapshotOk(v) && v.deadlines != [] && LiveHeapKey(v, v.deadlines[0])
    ensures NextDeadlineIs(Abs(v), Some(v.deadlines[0].deadline))
  {
    hide HeapOk, Agree, Indexes, TurnsOk, LaneOk;
    HeadEntry(v);
    forall s | s in v.entries ensures v.deadlines[0].deadline <= v.entries[s].deadline { HeapHeadIsMinimum(v, s); }
  }

  lemma EmptyHeap(v: Snapshot)
    requires SnapshotOk(v) && v.deadlines == []
    ensures NextDeadlineIs(Abs(v), None)
  {
    hide HeapOk, Agree, Indexes, TurnsOk, LaneOk;
    if v.entries.Keys != {} {
      var s :| s in v.entries;
      HeapHeadIsMinimum(v, s);
      assert false;
    }
  }

  // ---------------------------------------------------------------- queries

  lemma SlotEntry(v: Snapshot, slot: SlotId)
    requires SnapshotOk(v) && InRange(v, slot) && SlotAt(v, slot).item.Some?
    ensures SlotAt(v, slot).seqNo in v.entries
    ensures var e := v.entries[SlotAt(v, slot).seqNo];
      e.slot == slot && e.state == SlotAt(v, slot).state && SlotAt(v, slot).item == Some(e.item)
  {
    hide HeapOk, Indexes, TurnsOk, LaneOk;
    assert Held(v, SlotAt(v, slot).seqNo);
  }

  lemma SlotOfEntry(v: Snapshot, s: nat)
    requires SnapshotOk(v) && s in v.entries
    ensures InRange(v, v.entries[s].slot)
    ensures SlotAt(v, v.entries[s].slot)
      == RetainedSlot(Some(v.entries[s].item), v.entries[s].deadline, s, v.entries[s].state)
  {
    hide HeapOk, Indexes, TurnsOk, LaneOk;
    assert Held(v, s);
  }

  lemma LaneEmptyIff(v: Snapshot, lane: RetainedLane)
    requires SnapshotOk(v)
    ensures lane in v.lanes
    ensures v.lanes[lane].live == 0 <==> forall s :: s in v.entries ==> v.entries[s].slot.lane != lane
  {
    hide HeapOk, Indexes, TurnsOk, LaneOk, Agree;
    LiveIsLaneCount(v, lane);
    assert forall s :: s in v.entries && v.entries[s].slot.lane == lane ==> s in InLane(v.entries, lane);
    if InLane(v.entries, lane) != {} {
      var s :| s in InLane(v.entries, lane);
    }
  }

  lemma NoErrorsIff(v: Snapshot, errors: set<PeerMessageId>)
    requires SnapshotOk(v) && errors == set id | id in v.responses && v.responses[id].lane.A1Error?
    ensures |errors| == 0 <==> forall s :: s in v.entries ==> !v.entries[s].slot.lane.A1Error?
  {
    hide HeapOk, TurnsOk, LaneOk;
    forall s | s in v.entries && v.entries[s].slot.lane.A1Error? ensures v.entries[s].item.PeerMsgId() in errors {
      EntrySlot(v, s);
    }
    forall id | id in errors ensures exists s :: s in v.entries && v.entries[s].slot.lane.A1Error? {
      IndexLeadsTo(v, v.responses[id], id, false);
    }
  }

  // ---------------------------------------------------------------- completions

  lemma SettledStays(was: map<nat, Entry>, now: map<nat, Entry>, effect: CompletionEffect, result: SendResult)
    requires SettledBy(was, effect, result) && forall t :: t in was ==> t in now && now[t] == was[t]
    ensures SettledBy(now, effect, result)
  {
    var t :| t in was && was[t].item.TrackedItem? && effect == EffectFor(was[t], result);
    assert t in now;
  }

  lemma SettledApart(a: Store, gone: set<nat>, effect: CompletionEffect, result: SendResult, s: nat)
    requires Inv(a) && SettledBy(Part(a, gone), effect, result)
    requires s in a.entries && s !in gone && a.entries[s].item.TrackedItem?
    ensures effect.peerMsgId != a.entries[s].item.PeerMsgId()
  {
    var was := Part(a, gone);
    var t :| t in was && was[t].item.TrackedItem? && effect == EffectFor(was[t], result);
    assert Apart(a.entries[t], a.entries[s]);
  }

  /** One more tracked entry goes, and its effect joins the list. */
  lemma SettlesOneMore(
    a: Store, gone: set<nat>, effects: seq<CompletionEffect>, result: SendResult, s: nat)
    requires Inv(a) && Settles(Part(a, gone), effects, result)
    requires s in a.entries && s !in gone && a.entries[s].item.TrackedItem?
    ensures Settles(Part(a, gone + {s}), effects + [EffectFor(a.entries[s], result)], result)
  {
    hide Inv, SettledBy;
    var last := EffectFor(a.entries[s], result);
    var was, now := Part(a, gone), Part(a, gone + {s});
    assert s in now && now[s] == a.entries[s];
    assert SettledBy(now, last, result) by { SettledNow(now, s, result); }
    forall i | 0 <= i < |effects| ensures SettledBy(now, effects[i], result) && effects[i].peerMsgId != last.peerMsgId {
      SettledStays(was, now, effects[i], result);
      SettledApart(a, gone, effects[i], result, s);
    }
    forall t | t in now && now[t].item.TrackedItem? ensures EffectFor(now[t], result) in effects + [last] {
      assert t == s || t in was;
    }
  }

  lemma SettledNow(now: map<nat, Entry>, s: nat, result: SendResult)
    requires s in now && now[s].item.TrackedItem?
    ensures SettledBy(now, EffectFor(now[s], result), result)
  {
  }

  /** A response goes without an effect. */
  lemma SettlesResponse(
    a: Store, gone: set<nat>, effects: seq<CompletionEffect>, result: SendResult, s: nat)
    requires Settles(Part(a, gone), effects, result)
    requires s in a.entries && !a.entries[s].item.TrackedItem?
    ensures Settles(Part(a, gone + {s}), effects, result)
  {
    hide SettledBy;
    var was, now := Part(a, gone), Part(a, gone + {s});
    forall i | 0 <= i < |effects| ensures SettledBy(now, effects[i], result) {
      SettledStays(was, now, effects[i], result);
    }
    forall t | t in now && now[t].item.TrackedItem? ensures EffectFor(now[t], result) in effects {
      assert t in was;
    }
  }

  function SlotsOf(entries: map<nat, Entry>, who: set<nat>): set<SlotId> {
    set s | s in who && s in entries :: entries[s].slot
  }

  function OutsideA1(slots: set<SlotId>): set<SlotId> {
    set slot | slot in slots && IsTrackedLane(slot.lane)
  }

  lemma NobodyLeft(entries: map<nat, Entry>, who: set<nat>)
    requires who <= entries.Keys && SlotsOf(entries, who) == {}
    ensures who == {}
  {
    assert forall s :: s in who ==> entries[s].slot in SlotsOf(entries, who);
  }

  lemma NothingSettled(a: Store, result: SendResult)
    ensures Settles(Part(a, {}), [], result)
  {
  }

  /** The only tracked entry with an id is the one its index leads to. */
  lemma TrackedIdUnique(v: Snapshot, id: PeerMessageId)
    requires SnapshotOk(v)
    ensures if id in v.tracked then
        && InRange(v, v.tracked[id]) && SlotAt(v, v.tracked[id]).item.Some?
        && var s := SlotAt(v, v.tracked[id]).seqNo;
        && s in v.entries && v.entries[s].slot == v.tracked[id]
        && v.entries[s].item.TrackedItem? && v.entries[s].item.PeerMsgId() == id
        && TrackedWithId(Abs(v), id) == {s}
      else TrackedWithId(Abs(v), id) == {}
  {
    hide HeapOk, TurnsOk, LaneOk;
    if id in v.tracked {
      assert Names(v, v.tracked[id], id, true);
      IndexLeadsTo(v, v.tracked[id], id, true);
      var s := SlotAt(v, v.tracked[id]).seqNo;
      forall t | t in TrackedWithId(Abs(v), id) ensures t == s {
        assert Held(v, t);
      }
    }
  }

  lemma OneSettled(a: Store, s: nat, result: SendResult)
    requires s in a.entries && a.entries[s].item.TrackedItem?
    ensures Settles(Part(a, {s}), [EffectFor(a.entries[s], result)], result)
    ensures Without(a, s) == a.(entries := a.entries - {s})
  {
    assert s in Part(a, {s});
  }

  lemma LiveSlot(v: Snapshot, s: nat)
    requires SnapshotOk(v) && s in v.entries
    ensures InRange(v, v.entries[s].slot)
    ensures SlotAt(v, v.entries[s].slot).item.Some? && SlotAt(v, v.entries[s].slot).seqNo == s
  {
    hide HeapOk, Indexes, TurnsOk, LaneOk;
    assert Held(v, s);
  }

  lemma OneSlotLess(a: Store, who: set<nat>, s: nat)
    requires Inv(a) && who <= a.entries.Keys && s in who
    ensures SlotsOf(a.entries, who - {s}) == SlotsOf(a.entries, who) - {a.entries[s].slot}
  {
    forall t | t in who && t != s ensures a.entries[t].slot != a.entries[s].slot {
      assert Apart(a.entries[t], a.entries[s]);
    }
  }

  lemma IndexedSlots(v: Snapshot, index: map<PeerMessageId, SlotId>, tracked: bool)
    requires Agree(v) && Indexes(v, index, tracked)
    ensures index.Values == SlotsOf(v.entries, set s | s in v.entries && v.entries[s].item.TrackedItem? == tracked)
  {
    var who := set s | s in v.entries && v.entries[s].item.TrackedItem? == tracked;
    forall slot | slot in index.Values ensures slot in SlotsOf(v.entries, who) {
      var id :| id in index && index[id] == slot;
      IndexLeadsTo(v, slot, id, tracked);
      assert SlotAt(v, slot).seqNo in who;
    }
    forall slot | slot in SlotsOf(v.entries, who) ensures slot in index.Values {
      var s :| s in who && v.entries[s].slot == slot;
      assert index[v.entries[s].item.PeerMsgId()] == slot;
    }
  }

  lemma TrackedSlots(v: Snapshot)
    requires SnapshotOk(v)
    ensures v.tracked.Values == SlotsOf(v.entries, TrackedSeqs(Abs(v)))
    ensures OutsideA1(v.tracked.Values) == v.tracked.Values
  {
    hide HeapOk, TurnsOk, LaneOk, Agree, Indexes;
    IndexedSlots(v, v.tracked, true);
    assert TrackedSeqs(Abs(v)) == set s | s in v.entries && v.entries[s].item.TrackedItem? == true;
    forall s | s in v.entries && v.entries[s].item.TrackedItem? ensures IsTrackedLane(v.entries[s].slot.lane) {
      EntrySlot(v, s);
    }
  }

  lemma ResponseSlots(v: Snapshot)
    requires SnapshotOk(v)
    ensures v.responses.Values == SlotsOf(v.entries, ResponseSeqs(Abs(v)))
  {
    hide HeapOk, TurnsOk, LaneOk, Agree, Indexes;
    IndexedSlots(v, v.responses, false);
    assert ResponseSeqs(Abs(v)) == set s | s in v.entries && v.entries[s].item.TrackedItem? == false;
  }

  // ---------------------------------------------------------------- replay marks

  function SeqsIn(entries: map<nat, Entry>, slots: seq<SlotId>): set<nat> {
    set s | s in entries && entries[s].slot in slots
  }

  lemma MarkNobody(a: Store)
    ensures MarkedReplay(a, SeqsIn(a.entries, [])) == a
  {
    assert MarkedReplay(a, SeqsIn(a.entries, [])).entries == a.entries;
  }

  lemma MarkOneMore(a: Store, slots: seq<SlotId>, slot: SlotId)
    ensures var b := MarkedReplay(a, SeqsIn(a.entries, slots));
      MarkedReplay(b, SeqsIn(b.entries, [slot])) == MarkedReplay(a, SeqsIn(a.entries, slots + [slot]))
  {
    var b := MarkedReplay(a, SeqsIn(a.entries, slots));
    assert MarkedReplay(b, SeqsIn(b.entries, [slot])).entries
      == MarkedReplay(a, SeqsIn(a.entries, slots + [slot])).entries;
  }

  /** A tracked item that has been handed out goes to the end of its replay queue. */
  lemma ReplayMarked(v: Snapshot, slot: SlotId, callis: CallisId)
    requires SnapshotOk(v) && InRange(v, slot) && SlotAt(v, slot).item.Some? && SlotAt(v, slot).item.value.TrackedItem?
    requires SlotAt(v, slot).state in {Writing(callis), Inflight(callis), ReplayReady(callis)}
    ensures SlotAt(v, slot).seqNo in v.entries
    ensures var s, l := SlotAt(v, slot).seqNo, v.lanes[slot.lane];
      var m := l.(slots := l.slots[slot.index := SlotAt(v, slot).(state := ReplayReady(callis))],
                  replay := l.replay + [QueueKey(slot.index, s)]);
      var w := v.(lanes := v.lanes[slot.lane := m],
          entries := v.entries[s := v.entries[s].(state := ReplayReady(callis))]);
      SnapshotOk(w) && Abs(w) == MarkedReplay(Abs(v), SeqsIn(v.entries, [slot]))
  {
    hide HeapOk, Indexes, TurnsOk, LaneOk, Agree;
    SlotEntry(v, slot);
    var s, l := SlotAt(v, slot).seqNo, v.lanes[slot.lane];
    EntrySlot(v, s);
    assert l.ready + [] == l.ready;
    RestateOk(v, s, ReplayReady(callis), [QueueKey(slot.index, s)]);
    assert v.entries[s := v.entries[s].(state := ReplayReady(callis))]
      == MarkedReplay(Abs(v), SeqsIn(v.entries, [slot])).entries;
  }

  /** Slots that are out of range, empty, untracked or still fresh are passed over. */
  lemma MarkPassesOver(v: Snapshot, slot: SlotId)
    requires SnapshotOk(v)
    requires InRange(v, slot) && SlotAt(v, slot).item.Some? && SlotAt(v, slot).item.value.TrackedItem? ==>
      SlotAt(v, slot).state.Ready? || SlotAt(v, slot).state.Empty?
    ensures MarkedReplay(Abs(v), SeqsIn(v.entries, [slot])) == Abs(v)
  {
    hide HeapOk, Indexes, TurnsOk, LaneOk, Agree;
    forall s | s in v.entries && v.entries[s].slot == slot && v.entries[s].item.TrackedItem?
      ensures Replayed(v.entries[s].state) == v.entries[s].state
    {
      EntrySlot(v, s);
    }
    assert MarkedReplay(Abs(v), SeqsIn(v.entries, [slot])).entries == v.entries;
  }

  lemma MarkedAlike(a: Store, p: set<nat>, q: set<nat>)
    requires forall s :: s in a.entries && a.entries[s].item.TrackedItem? ==> (s in p <==> s in q)
    ensures MarkedReplay(a, p) == MarkedReplay(a, q)
  {
    assert MarkedReplay(a, p).entries == MarkedReplay(a, q).entries;
  }

  lemma SlotsByIds(v: Snapshot, ids: seq<PeerMessageId>, slots: seq<SlotId>, s: nat)
    requires SnapshotOk(v) && s in v.entries && v.entries[s].item.TrackedItem?
    requires forall slot ::
      slot in slots <==> exists i :: 0 <= i < |ids| && ids[i] in v.tracked && v.tracked[ids[i]] == slot
    ensures v.entries[s].slot in slots <==> v.entries[s].item.PeerMsgId() in ids
  {
    hide HeapOk, TurnsOk, LaneOk, Agree;
    var id := v.entries[s].item.PeerMsgId();
    assert id in v.tracked && v.tracked[id] == v.entries[s].slot;
    if v.entries[s].slot in slots {
      var i :| 0 <= i < |ids| && ids[i] in v.tracked && v.tracked[ids[i]] == v.entries[s].slot;
      IndexLeadsTo(v, v.tracked[ids[i]], ids[i], true);
      EntrySlot(v, s);
    }
  }

  lemma MarkByIds(v: Snapshot, ids: seq<PeerMessageId>, slots: seq<SlotId>)
    requires SnapshotOk(v)
    requires forall slot ::
      slot in slots <==> exists i :: 0 <= i < |ids| && ids[i] in v.tracked && v.tracked[ids[i]] == slot
    ensures MarkedReplay(Abs(v), SeqsIn(v.entries, slots))
      == MarkedReplay(Abs(v), set s | s in v.entries && v.entries[s].item.PeerMsgId() in ids)
  {
    hide SnapshotOk, MarkedReplay;
    var byId := set s | s in v.entries && v.entries[s].item.PeerMsgId() in ids;
    forall s | s in v.entries && v.entries[s].item.TrackedItem? ensures s in SeqsIn(v.entries, slots) <==> s in byId {
      SlotsByIds(v, ids, slots, s);
    }
    MarkedAlike(Abs(v), SeqsIn(v.entries, slots), byId);
  }

  // ---------------------------------------------------------------- losing a connection

  /** The lane with the keys collected so far already on its replay queue. */
  ghost function Pending(v: Snapshot, lane: RetainedLane, replay: seq<QueueKey>): Snapshot
    requires lane in v.lanes
  {
    v.(lanes := v.lanes[lane := v.lanes[lane].(replay := v.lanes[lane].replay + replay)])
  }

  lemma NothingPending(v: Snapshot, lane: RetainedLane)
    requires lane in v.lanes
    ensures Pending(v, lane, []) == v
  {
    assert v.lanes[lane].replay + [] == v.lanes[lane].replay;
  }

  lemma OverwriteTwice(lanes: map<RetainedLane, Lane>, lane: RetainedLane, first: Lane, second: Lane)
    ensures lanes[lane := first][lane := second] == lanes[lane := second]
  {
  }

  lemma SweepTracked(v: Snapshot, lane: RetainedLane, index: nat, callis: CallisId, replay: seq<QueueKey>)
    requires lane in v.lanes && SnapshotOk(Pending(v, lane, replay)) && index < |v.lanes[lane].slots|
    requires var slot := v.lanes[lane].slots[index];
      && slot.item.Some? && slot.item.value.TrackedItem? && slot.state in {Writing(callis), Inflight(callis)}
    ensures var s, l := v.lanes[lane].slots[index].seqNo, v.lanes[lane];
      && s in v.entries && v.entries[s].slot == SlotId(lane, index)
      && v.entries[s].state == l.slots[index].state && Some(v.entries[s].item) == l.slots[index].item
      && var slots := l.slots[index := l.slots[index].(state := ReplayReady(callis))];
         var w := v.(lanes := v.lanes[lane := l.(slots := slots)],
                     entries := v.entries[s := v.entries[s].(state := ReplayReady(callis))]);
      SnapshotOk(Pending(w, lane, replay + [QueueKey(index, s)]))
  {
    hide SnapshotOk, MarkedReplay;
    var p, slot := Pending(v, lane, replay), SlotId(lane, index);
    ReplayMarked(p, slot, callis);
    SlotEntry(p, slot);
    var s := v.lanes[lane].slots[index].seqNo;
    var l := v.lanes[lane];
    assert l.replay + replay + [QueueKey(index, s)] == l.replay + (replay + [QueueKey(index, s)]);
    var slots := l.slots[index := l.slots[index].(state := ReplayReady(callis))];
    var done := l.(slots := slots, replay := l.replay + (replay + [QueueKey(index, s)]));
    OverwriteTwice(v.lanes, lane, l.(slots := slots), done);
    OverwriteTwice(v.lanes, lane, p.lanes[lane], done);
  }

  lemma SweepResponse(v: Snapshot, lane: RetainedLane, index: nat, callis: CallisId, replay: seq<QueueKey>)
    requires lane in v.lanes && SnapshotOk(Pending(v, lane, replay)) && index < |v.lanes[lane].slots|
    requires var slot := v.lanes[lane].slots[index];
      slot.item.Some? && !slot.item.value.TrackedItem? && slot.state == Writing(callis)
    ensures var s, l := v.lanes[lane].slots[index].seqNo, v.lanes[lane];
      && s in v.entries && v.entries[s].slot == SlotId(lane, index)
      && v.entries[s].state == l.slots[index].state && Some(v.entries[s].item) == l.slots[index].item
      && var slots := l.slots[index := l.slots[index].(state := Ready)];
         var w := v.(lanes := v.lanes[lane := l.(slots := slots, ready := l.ready + [QueueKey(index, s)])],
                     entries := v.entries[s := v.entries[s].(state := Ready, turn := v.clock)],
                     clock := v.clock + 1);
      SnapshotOk(Pending(w, lane, replay))
  {
    hide HeapOk, Indexes, TurnsOk, LaneOk, Agree;
    var p, slot := Pending(v, lane, replay), SlotId(lane, index);
    SlotEntry(p, slot);
    var s := v.lanes[lane].slots[index].seqNo;
    EntrySlot(p, s);
    assert p.lanes[lane].replay + [] == p.lanes[lane].replay;
    RestateOk(p, s, Ready, []);
    var l := v.lanes[lane];
    var m := l.(slots := l.slots[index := l.slots[index].(state := Ready)], ready := l.ready + [QueueKey(index, s)]);
    OverwriteTwice(v.lanes, lane, m, m.(replay := l.replay + replay));
    OverwriteTwice(v.lanes, lane, p.lanes[lane], m.(replay := l.replay + replay));
  }

  lemma SweepOrder(a: Store, callis: CallisId, b: Store, lane: RetainedLane, index: nat, s: nat, f: Entry, clock: nat)
    requires Inv(a) && SweptUpTo(a, callis, b, lane, index)
    requires s in a.entries && a.entries[s].slot == SlotId(lane, index)
    requires Returns(a.entries[s], callis) ==> f.turn == b.clock
    ensures SweptInOrder(a, callis, b.(entries := b.entries[s := f], clock := clock), lane, index + 1)
  {
    forall t | t in a.entries && t != s && SweptSlot(a.entries[t].slot, lane, index + 1)
      ensures SweptSlot(a.entries[t].slot, lane, index) && t in b.entries
    {
      assert Apart(a.entries[t], a.entries[s]);
      assert t in b.entries.Keys;
    }
    forall t | t in a.entries && t != s && SweptSlot(a.entries[t].slot, lane, index + 1)
      && Returns(a.entries[t], callis)
      ensures t in b.entries && b.entries[t].turn < b.clock
    {
      assert SweptEntry(a, callis, b, lane, index, t);
    }
  }

  lemma SweepStep(a: Store, callis: CallisId, b: Store, lane: RetainedLane, index: nat, s: nat, f: Entry, clock: nat)
    requires Inv(a) && SweptUpTo(a, callis, b, lane, index)
    requires s in a.entries && a.entries[s].slot == SlotId(lane, index)
    requires CallisLostEntry(a.entries[s], callis, f)
    requires if Returns(a.entries[s], callis) then f.turn == b.clock && clock == b.clock + 1 else clock == b.clock
    ensures SweptUpTo(a, callis, b.(entries := b.entries[s := f], clock := clock), lane, index + 1)
  {
    hide SweptInOrder;
    SweepOrder(a, callis, b, lane, index, s, f, clock);
    var c := b.(entries := b.entries[s := f], clock := clock);
    assert s in b.entries.Keys;
    forall t | t in a.entries ensures SweptEntry(a, callis, c, lane, index + 1, t) {
      assert SweptEntry(a, callis, b, lane, index, t);
      if t != s { assert Apart(a.entries[t], a.entries[s]); }
    }
  }

  /** An empty slot, or one the connection does not hold, is passed over. */
  lemma SweepSkips(a: Store, callis: CallisId, b: Store, lane: RetainedLane, index: nat)
    requires SweptUpTo(a, callis, b, lane, index)
    requires forall s :: s in a.entries && a.entries[s].slot == SlotId(lane, index) ==>
      CallisLostEntry(a.entries[s], callis, a.entries[s]) && !Returns(a.entries[s], callis)
    ensures SweptUpTo(a, callis, b, lane, index + 1)
  {
    forall t | t in a.entries ensures SweptEntry(a, callis, b, lane, index + 1, t) {
      assert SweptEntry(a, callis, b, lane, index, t);
    }
  }

  /** The part of `Swept` that concerns one entry. */
  lemma SweptOne(a: Store, callis: CallisId, b: Store, lane: RetainedLane, s: nat)
    requires Swept(a, callis, b, lane) && s in a.entries
    ensures s in b.entries && a.clock <= b.clock
    ensures if a.entries[s].slot.lane == lane then
        && CallisLostEntry(a.entries[s], callis, b.entries[s])
        && (Returns(a.entries[s], callis) ==> a.clock <= b.entries[s].turn < b.clock)
      else b.entries[s] == a.entries[s]
  {
    hide SweptInOrder;
    var bound: nat :| SweptUpTo(a, callis, b, lane, bound)
      && forall s :: s in a.entries && a.entries[s].slot.lane == lane ==> a.entries[s].slot.index < bound;
    assert s in b.entries.Keys && SweptEntry(a, callis, b, lane, bound, s);
  }

  lemma SweptLanesOne(a: Store, callis: CallisId, b: Store, c: Store, d: Store, s: nat)
    requires Inv(a) && s in a.entries
    requires Swept(a, callis, b, A1Error) && Swept(b, callis, c, A2) && Swept(c, callis, d, A3)
    ensures s in b.entries && s in d.entries && CallisLostEntry(a.entries[s], callis, d.entries[s])
    ensures Returns(a.entries[s], callis) ==> d.entries[s] == b.entries[s] && a.clock <= b.entries[s].turn < d.clock
  {
    hide Swept;
    SweptOne(a, callis, b, A1Error, s);
    SweptOne(b, callis, c, A2, s);
    SweptOne(c, callis, d, A3, s);
    assert EntryOk(a, s);
  }

  lemma SweptFrame(a: Store, callis: CallisId, b: Store, lane: RetainedLane)
    requires Swept(a, callis, b, lane)
    ensures b == a.(entries := b.entries, clock := b.clock) && b.clock >= a.clock && b.entries.Keys == a.entries.Keys
  {
  }

  lemma SweptOrder(a: Store, callis: CallisId, b: Store, s: nat, t: nat)
    requires Swept(a, callis, b, A1Error)
    requires s in a.entries && t in a.entries && Returns(a.entries[s], callis) && Returns(a.entries[t], callis)
    requires a.entries[s].slot.index < a.entries[t].slot.index
    ensures s in b.entries && t in b.entries && b.entries[s].turn < b.entries[t].turn
  {
    var bound: nat :| SweptUpTo(a, callis, b, A1Error, bound)
      && forall s :: s in a.entries && a.entries[s].slot.lane == A1Error ==> a.entries[s].slot.index < bound;
    assert s in b.entries.Keys && t in b.entries.Keys;
  }

  /** Sweeping the error lane and both tracked lanes is what losing the connection means. */
  lemma SweptLanes(a: Store, callis: CallisId, b: Store, c: Store, d: Store)
    requires Inv(a)
    requires Swept(a, callis, b, A1Error) && Swept(b, callis, c, A2) && Swept(c, callis, d, A3)
    ensures CallisLostStep(a, callis, d)
  {
    hide Swept, Inv, CallisLostEntry;
    SweptFrame(a, callis, b, A1Error);
    SweptFrame(b, callis, c, A2);
    SweptFrame(c, callis, d, A3);
    forall s | s in a.entries
      ensures s in b.entries && s in d.entries && CallisLostEntry(a.entries[s], callis, d.entries[s])
      ensures Returns(a.entries[s], callis) ==> d.entries[s] == b.entries[s] && a.clock <= b.entries[s].turn < d.clock
    {
      SweptLanesOne(a, callis, b, c, d, s);
    }
    forall s, t | s in a.entries && t in a.entries && Returns(a.entries[s], callis) && Returns(a.entries[t], callis)
      && a.entries[s].slot.index < a.entries[t].slot.index
      ensures d.entries[s].turn < d.entries[t].turn
    {
      SweptOrder(a, callis, b, s, t);
    }
  }

  lemma SlotsNameThem(v: Snapshot, slots: seq<SlotId>)
    requires SnapshotOk(v) && forall slot :: slot in slots <==> slot in v.tracked.Values
    ensures SeqsIn(v.entries, slots) == TrackedSeqs(Abs(v))
  {
    hide HeapOk, TurnsOk, LaneOk, Agree, Indexes;
    TrackedSlots(v);
    forall s | s in SeqsIn(v.entries, slots) ensures s in TrackedSeqs(Abs(v)) {
      assert v.entries[s].slot in SlotsOf(v.entries, TrackedSeqs(Abs(v)));
      var t :| t in TrackedSeqs(Abs(v)) && v.entries[t].slot == v.entries[s].slot;
      EntrySlot(v, t);
    }
    forall s | s in TrackedSeqs(Abs(v)) ensures s in SeqsIn(v.entries, slots) {
      assert v.entries[s].slot in SlotsOf(v.entries, TrackedSeqs(Abs(v)));
    }
  }

  lemma SlotIsOk(v: Snapshot, slot: SlotId)
    requires SnapshotOk(v) && InRange(v, slot)
    ensures SlotOk(slot.lane, SlotAt(v, slot), v.nextSeq)
  {
    hide HeapOk, TurnsOk, QueuesOk, Agree, Indexes;
  }

  lemma SweptSame(a: Store, callis: CallisId, b: Store, lane: RetainedLane, index: nat, s: nat)
    requires SweptUpTo(a, callis, b, lane, index)
    requires s in b.entries && b.entries[s].slot == SlotId(lane, index)
    ensures s in a.entries && b.entries[s] == a.entries[s]
  {
    assert s in a.entries.Keys && SweptEntry(a, callis, b, lane, index, s);
  }

  lemma SkippedEntries(a: Store, callis: CallisId, b: Store, v: Snapshot, lane: RetainedLane, index: nat)
    requires SnapshotOk(v) && SweptUpTo(a, callis, b, lane, index) && b.entries == v.entries
    requires InRange(v, SlotId(lane, index))
    requires var slot := SlotAt(v, SlotId(lane, index));
      slot.item.Some? ==> if slot.item.value.TrackedItem? then slot.state !in {Writing(callis), Inflight(callis)}
        else slot.state != Writing(callis)
    ensures forall s :: s in a.entries && a.entries[s].slot == SlotId(lane, index) ==>
      CallisLostEntry(a.entries[s], callis, a.entries[s]) && !Returns(a.entries[s], callis)
  {
    hide HeapOk, TurnsOk, LaneOk, Agree, Indexes;
    forall s | s in a.entries && a.entries[s].slot == SlotId(lane, index)
      ensures CallisLostEntry(a.entries[s], callis, a.entries[s]) && !Returns(a.entries[s], callis)
    {
      assert s in b.entries.Keys && SweptEntry(a, callis, b, lane, index, s);
      SlotOfEntry(v, s);
      EntrySlot(v, s);
    }
  }

  lemma NothingSwept(a: Store, callis: CallisId, lane: RetainedLane)
    ensures SweptUpTo(a, callis, a, lane, 0)
  {
    assert forall s :: s in a.entries ==> SweptEntry(a, callis, a, lane, 0, s);
  }

  lemma LaneHolds(v: Snapshot, lane: RetainedLane)
    requires SnapshotOk(v)
    ensures lane in v.lanes
    ensures forall s :: s in v.entries && v.entries[s].slot.lane == lane ==>
      v.entries[s].slot.index < |v.lanes[lane].slots|
  {
    hide HeapOk, TurnsOk, LaneOk, Agree, Indexes;
    forall s | s in v.entries && v.entries[s].slot.lane == lane
      ensures v.entries[s].slot.index < |v.lanes[lane].slots| {
      SlotOfEntry(v, s);
    }
  }

  lemma PendingIsNow(v: Snapshot, lane: RetainedLane, replay: seq<QueueKey>)
    requires lane in v.lanes
    ensures Pending(v, lane, replay)
      == v.(lanes := v.lanes[lane := v.lanes[lane].(replay := v.lanes[lane].replay + replay)])
    ensures Abs(Pending(v, lane, replay)) == Abs(v)
  {
  }

  lemma SweptKeepsInv(a: Store, callis: CallisId, b: Store, lane: RetainedLane)
    requires Inv(a) && Swept(a, callis, b, lane)
    ensures Inv(b)
  {
    hide Swept;
    SweptFrame(a, callis, b, lane);
    forall s | s in b.entries
      ensures s in a.entries && EvolvesTo(a.entries[s], b.entries[s]) && b.entries[s].turn < b.clock
    {
      assert s in a.entries.Keys && EntryOk(a, s);
      SweptOne(a, callis, b, lane, s);
    }
    InvAfterUpdate(a, b);
  }
}
