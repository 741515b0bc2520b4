/**
 * The sending ring of a blob stream as it is stored: a ring of slots searched from a cursor, an index
 * from chunk id to slot, a map from message id to chunk id, and a counter. Every method is proved
 * against `BlobSender`.
 */
module BlobChunks {
  import opened Common
  import opened BlobSender

  datatype OutboundSlot = Empty | Held(chunkId: nat, data: Bytes, isLast: bool, state: ChunkState)

  datatype Ring = Ring(
    slots: seq<OutboundSlot>, chunkIndex: map<nat, nat>, ackMap: map<PeerMessageId, nat>, inflight: nat)

  function InFlightIds(live: map<nat, ChunkState>): set<nat> {
    set id | id in live && live[id].InFlight?
  }

  // ---------------------------------------------------------------- ring and sender agree

  predicate SlotFits(r: Ring, s: Sender, i: nat)
    requires i < |r.slots| && r.slots[i].Held?
  {
    var slot := r.slots[i];
    && slot.chunkId in s.live && slot.chunkId in r.chunkIndex && r.chunkIndex[slot.chunkId] == i
    && slot.chunkId < |s.created| && s.created[slot.chunkId] == Chunk(slot.data, slot.isLast)
    && slot.state == s.live[slot.chunkId]
  }

  ghost predicate SlotsFit(r: Ring, s: Sender) {
    forall i | 0 <= i < |r.slots| && r.slots[i].Held? :: SlotFits(r, s, i)
  }

  predicate HeldAt(r: Ring, id: nat) {
    id in r.chunkIndex && r.chunkIndex[id] < |r.slots| && r.slots[r.chunkIndex[id]].Held?
      && r.slots[r.chunkIndex[id]].chunkId == id
  }

  ghost predicate IndexFits(r: Ring, s: Sender) {
    && (forall id :: id in s.live ==> HeldAt(r, id))
    && (forall id :: id in r.chunkIndex ==> id in s.live)
  }

  ghost predicate AcksFit(ackMap: map<PeerMessageId, nat>, live: map<nat, ChunkState>) {
    && (forall p :: p in ackMap ==> ackMap[p] in live && AwaitsAnswer(live[ackMap[p]], p))
    && (forall id :: id in live && live[id].InFlight? ==>
      live[id].peerMsgId in ackMap && ackMap[live[id].peerMsgId] == id)
  }

  ghost predicate RingOk(r: Ring, s: Sender) {
    && |r.slots| == s.windowSize
    && SlotsFit(r, s) && IndexFits(r, s)
    && AcksFit(r.ackMap, s.live)
    && r.inflight == |InFlightIds(s.live)|
  }

  function HeldSlots(slots: seq<OutboundSlot>): nat {
    if slots == [] then 0
    else HeldSlots(slots[..|slots| - 1]) + (if slots[|slots| - 1].Held? then 1 else 0)
  }

  function IdsBelow(r: Ring, n: nat): set<nat> {
    set id | id in r.chunkIndex && r.chunkIndex[id] < n
  }

  lemma HeldSlotMore(r: Ring, s: Sender, n: nat)
    requires n < |r.slots| && r.slots[n].Held? && SlotsFit(r, s) && IndexFits(r, s)
    ensures |IdsBelow(r, n + 1)| == |IdsBelow(r, n)| + 1
  {
    assert SlotFits(r, s, n);
    forall id | id in r.chunkIndex && r.chunkIndex[id] == n ensures id == r.slots[n].chunkId {
      assert HeldAt(r, id);
    }
    hide SlotsFit, IndexFits;
    assert IdsBelow(r, n + 1) == IdsBelow(r, n) + {r.slots[n].chunkId};
  }

  lemma EmptySlotMore(r: Ring, s: Sender, n: nat)
    requires n < |r.slots| && r.slots[n].Empty? && IndexFits(r, s)
    ensures IdsBelow(r, n + 1) == IdsBelow(r, n)
  {
    forall id | id in r.chunkIndex ensures r.chunkIndex[id] != n {
      assert HeldAt(r, id);
    }
  }

  lemma OneSlotMore(r: Ring, s: Sender, n: nat)
    requires n < |r.slots| && SlotsFit(r, s) && IndexFits(r, s)
    ensures |IdsBelow(r, n + 1)| == |IdsBelow(r, n)| + if r.slots[n].Held? then 1 else 0
  {
    hide SlotsFit, IndexFits, IdsBelow;
    if r.slots[n].Held? {
      HeldSlotMore(r, s, n);
    } else {
      EmptySlotMore(r, s, n);
    }
  }

  lemma {:induction false} HeldBelow(r: Ring, s: Sender, n: nat)
    requires SlotsFit(r, s) && IndexFits(r, s) && n <= |r.slots|
    ensures |IdsBelow(r, n)| == HeldSlots(r.slots[..n])
  {
    hide SlotsFit, IndexFits, IdsBelow;
    if n > 0 {
      HeldBelow(r, s, n - 1);
      OneSlotMore(r, s, n - 1);
      assert r.slots[..n][..n - 1] == r.slots[..n - 1];
    } else {
      NoneBelow(r);
    }
  }

  lemma NoneBelow(r: Ring)
    ensures IdsBelow(r, 0) == {}
  {
  }

  /** The slots in use are as many as the chunks awaiting an answer. */
  lemma HeldIsLive(r: Ring, s: Sender)
    requires RingOk(r, s)
    ensures HeldSlots(r.slots) == |s.live|
  {
    HeldBelow(r, s, |r.slots|);
    assert r.slots[..|r.slots|] == r.slots;
    assert IdsBelow(r, |r.slots|) == s.live.Keys;
  }

  lemma {:induction false} AllHeld(slots: seq<OutboundSlot>)
    requires forall i :: 0 <= i < |slots| ==> slots[i].Held?
    ensures HeldSlots(slots) == |slots|
  {
    if slots == [] {
    } else {
      AllHeld(slots[..|slots| - 1]);
    }
  }

  // ---------------------------------------------------------------- elementary changes

  function Placed(r: Ring, index: nat, id: nat, data: Bytes, isLast: bool): Ring
    requires index < |r.slots|
  {
    r.(slots := r.slots[index := Held(id, data, isLast, Ready(0))], chunkIndex := r.chunkIndex[id := index])
  }

  lemma PlacedFits(r: Ring, s: Sender, index: nat, data: Bytes, isLast: bool)
    requires SlotsFit(r, s) && IndexFits(r, s) && |s.created| !in s.live
    requires index < |r.slots| && r.slots[index].Empty?
    ensures SlotsFit(Placed(r, index, |s.created|, data, isLast), Enqueued(s, data, isLast))
    ensures IndexFits(Placed(r, index, |s.created|, data, isLast), Enqueued(s, data, isLast))
  {
    var id := |s.created|;
    var q, t := Placed(r, index, id, data, isLast), Enqueued(s, data, isLast);
    forall i | 0 <= i < |q.slots| && q.slots[i].Held? ensures SlotFits(q, t, i) {
      if i != index { assert SlotFits(r, s, i); }
    }
    forall other | other in t.live ensures HeldAt(q, other) {
      if other != id { assert HeldAt(r, other); }
    }
  }

  lemma PlacedOk(r: Ring, s: Sender, index: nat, data: Bytes, isLast: bool)
    requires index < |r.slots| && r.slots[index].Empty? && |s.created| !in s.live
    requires RingOk(r, s)
    ensures RingOk(Placed(r, index, |s.created|, data, isLast), Enqueued(s, data, isLast))
  {
    hide SlotsFit, IndexFits;
    PlacedFits(r, s, index, data, isLast);
    assert InFlightIds(Enqueued(s, data, isLast).live) == InFlightIds(s.live);
  }

  function Restated(r: Ring, id: nat, state: ChunkState): Ring
    requires HeldAt(r, id)
  {
    r.(slots := r.slots[r.chunkIndex[id] := r.slots[r.chunkIndex[id]].(state := state)])
  }

  lemma RestatedFits(r: Ring, s: Sender, id: nat, state: ChunkState)
    requires SlotsFit(r, s) && IndexFits(r, s) && id in s.live && HeldAt(r, id)
    ensures SlotsFit(Restated(r, id, state), s.(live := s.live[id := state]))
    ensures IndexFits(Restated(r, id, state), s.(live := s.live[id := state]))
  {
    var q, t := Restated(r, id, state), s.(live := s.live[id := state]);
    forall i | 0 <= i < |q.slots| && q.slots[i].Held? ensures SlotFits(q, t, i) {
      assert SlotFits(r, s, i);
    }
    forall other | other in t.live ensures HeldAt(q, other) {
      assert HeldAt(r, other);
    }
  }

  /** A chunk that was not in flight and will not be: the message map and the counter stay. */
  lemma StateOk(r: Ring, s: Sender, id: nat, state: ChunkState)
    requires id in s.live && HeldAt(r, id) && !s.live[id].InFlight? && !state.InFlight?
    requires RingOk(r, s)
    ensures RingOk(Restated(r, id, state), s.(live := s.live[id := state]))
  {
    hide SlotsFit, IndexFits;
    RestatedFits(r, s, id, state);
    assert InFlightIds(s.live[id := state]) == InFlightIds(s.live);
  }

  function Launched(r: Ring, id: nat, state: ChunkState): Ring
    requires HeldAt(r, id) && state.InFlight?
  {
    Restated(r, id, state).(ackMap := r.ackMap[state.peerMsgId := id], inflight := r.inflight + 1)
  }

  lemma LaunchedOk(r: Ring, s: Sender, id: nat, state: ChunkState)
    requires id in s.live && HeldAt(r, id) && s.live[id].Writing?
    requires state.InFlight? && state.peerMsgId == s.live[id].peerMsgId
    requires SenderOk(s) && RingOk(r, s)
    ensures RingOk(Launched(r, id, state), s.(live := s.live[id := state]))
  {
    hide SlotsFit, IndexFits;
    RestatedFits(r, s, id, state);
    assert InFlightIds(s.live[id := state]) == InFlightIds(s.live) + {id};
    assert Restated(r, id, state).(ackMap := r.ackMap[state.peerMsgId := id], inflight := r.inflight + 1)
      == Launched(r, id, state);
    LaunchedAcks(r.ackMap, s, id, state);
    FitsIgnoresAcks(Restated(r, id, state), Launched(r, id, state), s.(live := s.live[id := state]));
  }

  lemma LaunchedAcks(ackMap: map<PeerMessageId, nat>, s: Sender, id: nat, state: ChunkState)
    requires id in s.live && s.live[id].Writing? && state.InFlight? && state.peerMsgId == s.live[id].peerMsgId
    requires AcksFit(ackMap, s.live) && SenderOk(s)
    ensures AcksFit(ackMap[state.peerMsgId := id], s.live[id := state])
  {
    assert state.peerMsgId !in ackMap;
  }

  lemma FitsIgnoresAcks(r: Ring, q: Ring, s: Sender)
    requires q.slots == r.slots && q.chunkIndex == r.chunkIndex && SlotsFit(r, s) && IndexFits(r, s)
    ensures SlotsFit(q, s) && IndexFits(q, s)
  {
    forall i | 0 <= i < |q.slots| && q.slots[i].Held? ensures SlotFits(q, s, i) {
      assert SlotFits(r, s, i);
    }
    forall id | id in s.live ensures HeldAt(q, id) {
      assert HeldAt(r, id);
    }
  }

  function Recalled(r: Ring, id: nat, peerMsgId: PeerMessageId, state: ChunkState): Ring
    requires HeldAt(r, id) && r.inflight > 0
  {
    Restated(r, id, state).(ackMap := r.ackMap - {peerMsgId}, inflight := r.inflight - 1)
  }

  lemma SomeInFlight(r: Ring, s: Sender, id: nat)
    requires id in s.live && s.live[id].InFlight? && RingOk(r, s)
    ensures r.inflight > 0 && s.live[id].peerMsgId in r.ackMap && r.ackMap[s.live[id].peerMsgId] == id
  {
    assert id in InFlightIds(s.live);
  }

  lemma RecalledOk(r: Ring, s: Sender, id: nat, state: ChunkState)
    requires id in s.live && HeldAt(r, id) && s.live[id].InFlight? && !state.InFlight? && r.inflight > 0
    requires RingOk(r, s)
    ensures RingOk(Recalled(r, id, s.live[id].peerMsgId, state), s.(live := s.live[id := state]))
  {
    hide SlotsFit, IndexFits;
    RestatedFits(r, s, id, state);
    var p := s.live[id].peerMsgId;
    assert InFlightIds(s.live[id := state]) == InFlightIds(s.live) - {id} && id in InFlightIds(s.live);
    assert AcksFit(r.ackMap - {p}, s.live[id := state]);
    FitsIgnoresAcks(Restated(r, id, state), Recalled(r, id, p, state), s.(live := s.live[id := state]));
  }

  function Dropped(r: Ring, id: nat, peerMsgId: PeerMessageId): Ring
    requires HeldAt(r, id) && r.inflight > 0
  {
    Ring(r.slots[r.chunkIndex[id] := Empty], r.chunkIndex - {id}, r.ackMap - {peerMsgId}, r.inflight - 1)
  }

  lemma DroppedFits(r: Ring, s: Sender, id: nat, peerMsgId: PeerMessageId)
    requires id in s.live && HeldAt(r, id) && r.inflight > 0 && SlotsFit(r, s) && IndexFits(r, s)
    ensures SlotsFit(Dropped(r, id, peerMsgId), s.(live := s.live - {id}))
    ensures IndexFits(Dropped(r, id, peerMsgId), s.(live := s.live - {id}))
  {
    var q, t := Dropped(r, id, peerMsgId), s.(live := s.live - {id});
    forall i | 0 <= i < |q.slots| && q.slots[i].Held? ensures SlotFits(q, t, i) {
      assert SlotFits(r, s, i);
    }
    forall other | other in t.live ensures HeldAt(q, other) {
      assert HeldAt(r, other) && SlotFits(r, s, r.chunkIndex[other]);
    }
  }

  lemma DroppedOk(r: Ring, s: Sender, id: nat)
    requires id in s.live && HeldAt(r, id) && s.live[id].InFlight? && r.inflight > 0
    requires RingOk(r, s)
    ensures RingOk(Dropped(r, id, s.live[id].peerMsgId), s.(live := s.live - {id}))
  {
    hide SlotsFit, IndexFits;
    var p := s.live[id].peerMsgId;
    DroppedFits(r, s, id, p);
    assert InFlightIds(s.live - {id}) == InFlightIds(s.live) - {id} && id in InFlightIds(s.live);
    assert AcksFit(r.ackMap - {p}, s.live - {id});
  }

  /** The answer to a message is about the chunk the message map names, or about none. */
  lemma AnswerFound(r: Ring, s: Sender, peerMsgId: PeerMessageId)
    requires RingOk(r, s)
    ensures AnsweredBy(s, peerMsgId) == if peerMsgId in r.ackMap then {r.ackMap[peerMsgId]} else {}
    ensures Answered(s, peerMsgId) == if peerMsgId in r.ackMap then s.(live := s.live - {r.ackMap[peerMsgId]}) else s
  {
    assert s.live - {} == s.live;
  }

  // ---------------------------------------------------------------- the ring itself

  function Min(a: nat, b: nat): nat {
    if a < b then a else b
  }

  /** Stepping round a ring from any position reaches every position. */
  lemma RoundTheRing(cursor: nat, size: nat, i: nat) returns (offset: nat)
    requires cursor < size && i < size
    ensures offset < size && Around(cursor, offset, size) == i
  {
    offset := if cursor <= i then i - cursor else i + size - cursor;
  }

  function Around(cursor: nat, offset: nat, size: nat): (i: nat)
    requires 1 <= size
    ensures i < size
  {
    (cursor + offset) % size
  }

  class OutboundChunks {
    const chunkSize: nat
    const windowSize: nat
    var nextChunkId: nat
    var writeCursor: nat
    var writeBuf: Bytes
    var pendingFull: Option<Bytes>
    var slots: seq<OutboundSlot>
    var chunkIndex: map<nat, nat>
    var ackMap: map<PeerMessageId, nat>
    var inflight: nat
    var createdAny: bool
    ghost var created: seq<Chunk>
    ghost var live: map<nat, ChunkState>

    ghost function State(): Sender
      reads this
    {
      Sender(chunkSize, windowSize, created, pendingFull, writeBuf, createdAny, live)
    }

    ghost function Layout(): Ring
      reads this
    {
      Ring(slots, chunkIndex, ackMap, inflight)
    }

    ghost predicate Valid()
      reads this
    {
      SenderOk(State()) && RingOk(Layout(), State()) && nextChunkId == |created| && writeCursor < windowSize
    }

    constructor (chunkSize: nat, windowSize: nat)
      requires 1 <= chunkSize && 1 <= windowSize
      ensures Valid() && State() == NewSender(chunkSize, windowSize)
    {
      this.chunkSize, this.windowSize := chunkSize, windowSize;
      nextChunkId, writeCursor, writeBuf, pendingFull := 0, 0, [], None;
      slots := seq(windowSize, _ => Empty);
      chunkIndex, ackMap, inflight, createdAny := map[], map[], 0, false;
      created, live := [], map[];
      new;
      assert InFlightIds(live) == {};
    }

    method LiveChunkCount() returns (count: nat)
      requires Valid()
      ensures count == |live|
    {
      hide SenderOk, SlotsFit, IndexFits, AcksFit;
      count := 0;
      for i := 0 to |slots|
        invariant count == HeldSlots(slots[..i])
      {
        assert slots[..i + 1][..i] == slots[..i];
        if slots[i].Held? {
          count := count + 1;
        }
      }
      assert slots[..|slots|] == slots;
      HeldIsLive(Layout(), State());
    }

    method HasWindowCapacityFor(count: nat) returns (b: bool)
      requires Valid()
      ensures b == HasCapacityFor(State(), count)
    {
      hide SenderOk, RingOk;
      var liveCount := LiveChunkCount();
      b := liveCount + (if pendingFull.Some? then 1 else 0) + count <= windowSize;
    }

    /** The first empty slot from the cursor on; there is one exactly when the window is not full. */
    method NextEmptySlot() returns (index: Option<nat>)
      requires Valid()
      ensures index.Some? ==> index.value < |slots| && slots[index.value].Empty?
      ensures index.Some? <==> |live| < windowSize
    {
      hide SenderOk, SlotsFit, IndexFits, AcksFit, Around, HeldSlots;
      HeldIsLive(Layout(), State());
      for offset := 0 to windowSize
        invariant forall k :: 0 <= k < offset ==> slots[Around(writeCursor, k, windowSize)].Held?
      {
        var i := Around(writeCursor, offset, windowSize);
        if slots[i].Empty? {
          EmptyMeansRoom(slots, i);
          return Some(i);
        }
      }
      forall i | 0 <= i < |slots| ensures slots[i].Held? {
        var offset := RoundTheRing(writeCursor, windowSize, i);
      }
      AllHeld(slots);
      return None;
    }

    method EnqueueChunk(data: Bytes, isLast: bool)
      requires Valid() && pendingFull.None? && |data| <= chunkSize
      modifies this
      ensures Valid()
      ensures State() == if old(|live|) < windowSize then Enqueued(old(State()), data, isLast) else old(State())
      ensures old(|live|) < windowSize ==> |live| == old(|live|) + 1
    {
      hide SenderOk, RingOk, Enqueued;
      var index := NextEmptySlot();
      if index.Some? {
        PlaceChunk(index.value, data, isLast);
      }
    }

    method PlaceChunk(index: nat, data: Bytes, isLast: bool)
      requires index < |slots| && slots[index].Empty? && pendingFull.None? && |data| <= chunkSize && |live| < windowSize
      requires Valid()
      modifies this
      ensures Valid() && State() == Enqueued(old(State()), data, isLast) && |live| == old(|live|) + 1
    {
      hide SenderOk, RingOk;
      FreshId(State());
      var chunkId := nextChunkId;
      PlacedOk(Layout(), State(), index, data, isLast);
      EnqueuedOk(State(), data, isLast);
      nextChunkId := nextChunkId + 1;
      createdAny := true;
      slots := slots[index := Held(chunkId, data, isLast, Ready(0))];
      chunkIndex := chunkIndex[chunkId := index];
      writeCursor := Around(index, 1, windowSize);
      created, live := created + [Chunk(data, isLast)], live[chunkId := Ready(0)];
    }

    method PushAvailable(data: Bytes) returns (accepted: nat)
      requires Valid()
      modifies this
      ensures Valid() && PushStep(old(State()), data, accepted, State())
    {
      hide SenderOk, RingOk, Pushing;
      ghost var a := State();
      StartPushing(a, data);
      accepted := FillBuffer(a, data, 0);
      while |writeBuf| >= chunkSize
        invariant Valid() && 1 <= chunkSize && |writeBuf| <= chunkSize && accepted <= |data|
        invariant Pushing(a, data, accepted, State())
        invariant accepted == |data| || |writeBuf| == chunkSize
        decreases |writeBuf| + (|data| - accepted)
      {
        var room := HasWindowCapacityFor(1);
        if !room {
          break;
        }
        CutBuffer(a, data, accepted);
        if accepted >= |data| {
          break;
        }
        accepted := FillBuffer(a, data, accepted);
      }
      FlushPending(a, data, accepted);
    }

    method FillBuffer(ghost a: Sender, data: Bytes, start: nat) returns (accepted: nat)
      requires Valid() && start <= |data| && Pushing(a, data, start, State())
      modifies this
      ensures Valid() && start <= accepted <= |data| && Pushing(a, data, accepted, State())
      ensures |writeBuf| <= chunkSize && |writeBuf| == old(|writeBuf|) + (accepted - start)
      ensures accepted == |data| || |writeBuf| == chunkSize
      ensures State() == old(State()).(buf := writeBuf)
    {
      hide RingOk, Pushing;
      var take := Min(|data| - start, chunkSize - |writeBuf|);
      FillPushes(a, data, start, State(), take);
      RingIgnoresBuffers(Layout(), State(), State().(buf := writeBuf + data[start..start + take]));
      writeBuf := writeBuf + data[start..start + take];
      accepted := start + take;
    }

    method CutBuffer(ghost a: Sender, data: Bytes, ghost n: nat)
      requires Valid() && |writeBuf| == chunkSize && HasCapacityFor(State(), 1)
      requires Pushing(a, data, n, State())
      modifies this
      ensures Valid() && writeBuf == [] && pendingFull.Some? && Pushing(a, data, n, State())
    {
      hide RingOk, Pushing;
      CutOk(State());
      CutPushes(a, data, n, State());
      var chunk := writeBuf[..chunkSize];
      RingIgnoresBuffers(Layout(), State(), State().(buf := [], pending := None, createdAny := true));
      var pending := pendingFull;
      writeBuf := writeBuf[chunkSize..];
      createdAny := true;
      pendingFull := None;
      if pending.Some? {
        EnqueueChunk(pending.value, false);
      }
      RingIgnoresBuffers(Layout(), State(), State().(pending := Some(chunk)));
      pendingFull := Some(chunk);
      assert State() == Cut(old(State()));
    }

    method FlushPending(ghost a: Sender, data: Bytes, ghost n: nat)
      requires Valid() && Pushing(a, data, n, State())
      modifies this
      ensures Valid() && Pushing(a, data, n, State())
      ensures writeBuf == old(writeBuf) && (pendingFull.Some? ==> writeBuf == [])
      ensures HasCapacityFor(State(), 1) == old(HasCapacityFor(State(), 1))
    {
      hide RingOk, Pushing;
      if pendingFull.Some? && writeBuf != [] {
        ReleasePushes(a, data, n, State());
        ReleasedOk(State());
        RingIgnoresBuffers(Layout(), State(), State().(pending := None));
        var pending := pendingFull.value;
        pendingFull := None;
        EnqueueChunk(pending, false);
        assert State() == Released(old(State()));
      }
    }

    method CanAccept() returns (b: bool)
      requires Valid()
      ensures b == CanAcceptBytes(State())
    {
      hide SenderOk, RingOk;
      if |writeBuf| < chunkSize {
        return true;
      }
      b := HasWindowCapacityFor(1);
    }

    /** Refused, without any change, while the window lacks the slots for what is left. */
    method Finalize() returns (done: bool)
      requires Valid()
      modifies this
      ensures Valid() && done == Finalized(old(State())).Some?
      ensures State() == if done then Finalized(old(State())).value else old(State())
    {
      hide RingOk;
      var needsExtra := if pendingFull.Some? && writeBuf == [] then 0 else 1;
      done := HasWindowCapacityFor(needsExtra);
      if !done {
        return;
      }
      if pendingFull.Some? {
        var pending := pendingFull.value;
        RingIgnoresBuffers(Layout(), State(), State().(pending := None));
        pendingFull := None;
        if writeBuf == [] {
          EnqueueChunk(pending, true);
        } else {
          EnqueueChunk(pending, false);
          EnqueueRest();
        }
      } else if writeBuf != [] || !createdAny {
        EnqueueRest();
      }
    }

    method EnqueueRest()
      requires Valid() && pendingFull.None? && |live| < windowSize
      modifies this
      ensures Valid() && State() == Enqueued(old(State()).(buf := []), old(writeBuf), true)
    {
      hide RingOk;
      var chunk := writeBuf;
      RingIgnoresBuffers(Layout(), State(), State().(buf := []));
      writeBuf := [];
      EnqueueChunk(chunk, true);
    }

    /** The slot with the lowest chunk id among those offered in this way. */
    method FindOffered(replay: bool) returns (best: Option<nat>)
      requires Valid()
      ensures match best
        case None => NothingOffered(State(), replay)
        case Some(i) =>
          && i < |slots| && slots[i].Held? && SlotFits(Layout(), State(), i)
          && IsNextChunk(State(), replay, slots[i].chunkId)
    {
      hide SenderOk, SlotsFit, IndexFits, AcksFit, SlotFits;
      best := None;
      for i := 0 to |slots|
        invariant BestBelow(slots, replay, i, best)
      {
        if OfferedSlot(slots[i], replay) && (best.None? || slots[i].chunkId < slots[best.value].chunkId) {
          best := Some(i);
        }
      }
      BestIsNext(Layout(), State(), replay, best);
    }

    method LeaseMatching(replay: bool, callis: CallisId, peerMsgId: PeerMessageId)
        returns (lease: Option<ChunkWriteLease>)
      requires Valid() && FreshMessage(live, peerMsgId)
      modifies this
      ensures Valid() && LeaseFrom(old(State()), replay, callis, peerMsgId, lease, State())
    {
      hide SenderOk, RingOk, IsNextChunk;
      var best := FindOffered(replay);
      if best.None? {
        return None;
      }
      var slot := slots[best.value];
      var nextSeq := slot.state.seqNo + 1;
      var l := ChunkWriteLease(slot.chunkId, slot.data, slot.isLast, peerMsgId, callis, nextSeq);
      NextChunkOffered(State(), replay, slot.chunkId);
      SlotIsHeldAt(Layout(), State(), best.value);
      StateOk(Layout(), State(), slot.chunkId, Writing(peerMsgId, callis, nextSeq));
      LeasedOk(State(), l);
      slots := slots[best.value := slot.(state := Writing(peerMsgId, callis, nextSeq))];
      live := live[slot.chunkId := Writing(peerMsgId, callis, nextSeq)];
      return Some(l);
    }

    method LeaseNextChunkForWrite(callis: CallisId, peerMsgId: PeerMessageId) returns (lease: Option<ChunkWriteLease>)
      requires Valid() && FreshMessage(live, peerMsgId)
      modifies this
      ensures Valid() && LeaseStep(old(State()), callis, peerMsgId, lease, State())
    {
      hide SenderOk, RingOk, LeaseOf;
      lease := LeaseMatching(true, callis, peerMsgId);
      if lease.Some? {
        return;
      }
      lease := LeaseMatching(false, callis, peerMsgId);
    }

    /** A lease that is not the latest one of its chunk changes nothing. */
    method MarkInflight(lease: ChunkWriteLease) returns (marked: bool)
      requires Valid()
      modifies this
      ensures Valid() && marked == LeaseCurrent(old(State()), lease) && State() == MarkedInFlight(old(State()), lease)
    {
      hide SenderOk, RingOk;
      if lease.chunkId !in chunkIndex {
        LeaseNeedsIndex(Layout(), State(), lease);
        return false;
      }
      IndexedIsHeld(Layout(), State(), lease.chunkId);
      var index := chunkIndex[lease.chunkId];
      var slot := slots[index];
      if slot.state != Writing(lease.peerMsgId, lease.callis, lease.slotSeq) || slot.isLast != lease.isLast {
        return false;
      }
      var state := InFlight(lease.peerMsgId, lease.callis, lease.slotSeq);
      LaunchedOk(Layout(), State(), lease.chunkId, state);
      MarkedInFlightOk(State(), lease);
      slots := slots[index := slot.(state := state)];
      ackMap := ackMap[lease.peerMsgId := lease.chunkId];
      inflight := inflight + 1;
      live := live[lease.chunkId := state];
      return true;
    }

    method NoteCompletion(peerMsgId: PeerMessageId) returns (handled: bool)
      requires Valid()
      modifies this
      ensures Valid() && State() == Answered(old(State()), peerMsgId)
      ensures handled == (AnsweredBy(old(State()), peerMsgId) != {})
    {
      hide SenderOk, RingOk, AnsweredBy, Answered;
      AnswerFound(Layout(), State(), peerMsgId);
      if peerMsgId !in ackMap {
        return false;
      }
      CompletionOk(Layout(), State(), peerMsgId);
      var chunkId := ackMap[peerMsgId];
      slots := slots[chunkIndex[chunkId] := Empty];
      chunkIndex := chunkIndex - {chunkId};
      ackMap := ackMap - {peerMsgId};
      inflight := inflight - 1;
      live := live - {chunkId};
      return true;
    }

    method ReplaySlot(i: nat, callis: CallisId)
      requires Valid() && i < |slots|
      modifies this
      ensures Valid() && chunkIndex == old(chunkIndex) && |slots| == old(|slots|)
      ensures State() == old(State()).(live := live) && live.Keys == old(live.Keys)
      ensures forall id | id in live ::
        id in chunkIndex
          && live[id] == if chunkIndex[id] == i then AfterCallisLoss(old(live)[id], callis) else old(live)[id]
    {
      hide SenderOk, RingOk;
      LiveIndexed(Layout(), State());
      var slot := slots[i];
      if slot.Held? {
        SlotIsHeldAt(Layout(), State(), i);
        if IsLeased(slot.state) && slot.state.callis == callis {
          RestatedKeepsSender(State(), slot.chunkId, ReplayReady(callis, slot.state.seqNo));
          if slot.state.InFlight? {
            SomeInFlight(Layout(), State(), slot.chunkId);
            RecalledOk(Layout(), State(), slot.chunkId, ReplayReady(callis, slot.state.seqNo));
            ackMap := ackMap - {slot.state.peerMsgId};
            inflight := inflight - 1;
          } else {
            StateOk(Layout(), State(), slot.chunkId, ReplayReady(callis, slot.state.seqNo));
          }
          slots := slots[i := slot.(state := ReplayReady(callis, slot.state.seqNo))];
          live := live[slot.chunkId := ReplayReady(callis, slot.state.seqNo)];
        }
      }
    }

    method MarkCallisReplayReady(callis: CallisId)
      requires Valid()
      modifies this
      ensures Valid() && State() == CallisLost(old(State()), callis)
    {
      hide SenderOk, RingOk, AfterCallisLoss;
      LiveIndexed(Layout(), State());
      for i := 0 to |slots|
        invariant Valid() && chunkIndex == old(chunkIndex) && |slots| == old(|slots|)
        invariant State() == old(State()).(live := live) && live.Keys == old(live.Keys)
        invariant forall id | id in live ::
          id in chunkIndex
            && live[id] == if chunkIndex[id] < i then AfterCallisLoss(old(live)[id], callis) else old(live)[id]
      {
        ReplaySlot(i, callis);
      }
    }

    method HasOffered(replay: bool) returns (b: bool)
      requires Valid()
      ensures b == !NothingOffered(State(), replay)
    {
      hide SenderOk, RingOk;
      var best := FindOffered(replay);
      b := best.Some?;
    }

    method CheckDrained() returns (b: bool)
      requires Valid()
      ensures b == IsDrained(State())
    {
      hide SenderOk, RingOk;
      var count := LiveChunkCount();
      b := count == 0 && pendingFull.None?;
    }
  }

  // ---------------------------------------------------------------- from slots to the sender

  predicate OfferedSlot(slot: OutboundSlot, replay: bool) {
    slot.Held? && Offered(slot.state, replay)
  }

  predicate BestBelow(slots: seq<OutboundSlot>, replay: bool, n: nat, best: Option<nat>) {
    n <= |slots|
    && match best
       case None => forall i :: 0 <= i < n ==> !OfferedSlot(slots[i], replay)
       case Some(b) =>
         && b < n && OfferedSlot(slots[b], replay)
         && forall i :: 0 <= i < n && OfferedSlot(slots[i], replay) ==> slots[b].chunkId <= slots[i].chunkId
  }

  lemma BestIsNext(r: Ring, s: Sender, replay: bool, best: Option<nat>)
    requires RingOk(r, s) && BestBelow(r.slots, replay, |r.slots|, best)
    ensures best.None? ==> NothingOffered(s, replay)
    ensures best.Some? ==> SlotFits(r, s, best.value) && IsNextChunk(s, replay, r.slots[best.value].chunkId)
  {
    if best.Some? { assert SlotFits(r, s, best.value); }
    forall id | id in s.live && Offered(s.live[id], replay)
      ensures id in r.chunkIndex && r.chunkIndex[id] < |r.slots| && OfferedSlot(r.slots[r.chunkIndex[id]], replay)
      ensures r.slots[r.chunkIndex[id]].chunkId == id
    {
      assert HeldAt(r, id) && SlotFits(r, s, r.chunkIndex[id]);
    }
  }

  lemma NextChunkOffered(s: Sender, replay: bool, id: nat)
    requires IsNextChunk(s, replay, id)
    ensures id in s.live && !s.live[id].InFlight?
  {
  }

  /** No attempt that may still be answered uses this message id. */
  predicate FreshMessage(live: map<nat, ChunkState>, peerMsgId: PeerMessageId) {
    forall id :: id in live && IsLeased(live[id]) ==> live[id].peerMsgId != peerMsgId
  }

  lemma SlotIsHeldAt(r: Ring, s: Sender, i: nat)
    requires RingOk(r, s) && i < |r.slots| && r.slots[i].Held?
    ensures HeldAt(r, r.slots[i].chunkId) && SlotFits(r, s, i)
  {
  }

  lemma IndexedIsHeld(r: Ring, s: Sender, id: nat)
    requires RingOk(r, s) && id in r.chunkIndex
    ensures HeldAt(r, id) && SlotFits(r, s, r.chunkIndex[id])
  {
  }

  lemma LeaseNeedsIndex(r: Ring, s: Sender, lease: ChunkWriteLease)
    requires RingOk(r, s) && lease.chunkId !in r.chunkIndex
    ensures !LeaseCurrent(s, lease)
  {
    assert forall id :: id in s.live ==> HeldAt(r, id);
  }

  lemma AckedIsInFlight(r: Ring, s: Sender, peerMsgId: PeerMessageId)
    requires RingOk(r, s) && peerMsgId in r.ackMap
    ensures var id := r.ackMap[peerMsgId];
      id in s.live && HeldAt(r, id) && s.live[id].InFlight? && s.live[id].peerMsgId == peerMsgId && r.inflight > 0
  {
    SomeInFlight(r, s, r.ackMap[peerMsgId]);
  }

  lemma CompletionOk(r: Ring, s: Sender, peerMsgId: PeerMessageId)
    requires RingOk(r, s) && SenderOk(s) && peerMsgId in r.ackMap
    ensures HeldAt(r, r.ackMap[peerMsgId]) && r.inflight > 0
    ensures RingOk(Dropped(r, r.ackMap[peerMsgId], peerMsgId), s.(live := s.live - {r.ackMap[peerMsgId]}))
    ensures SenderOk(s.(live := s.live - {r.ackMap[peerMsgId]}))
  {
    hide SenderOk, RingOk, AnsweredBy, Answered;
    AckedIsInFlight(r, s, peerMsgId);
    DroppedOk(r, s, r.ackMap[peerMsgId]);
    AnswerFound(r, s, peerMsgId);
    AnsweredOk(s, peerMsgId);
  }

  lemma LiveIndexed(r: Ring, s: Sender)
    requires RingOk(r, s)
    ensures forall id :: id in s.live ==> HeldAt(r, id)
  {
  }

  lemma RestatedKeepsSender(s: Sender, id: nat, state: ChunkState)
    requires SenderOk(s) && id in s.live && !IsLeased(state)
    ensures SenderOk(s.(live := s.live[id := state]))
  {
    assert s.live[id := state].Keys == s.live.Keys;
  }

  lemma {:induction false} EmptyMeansRoom(slots: seq<OutboundSlot>, i: nat)
    requires i < |slots| && slots[i].Empty?
    ensures HeldSlots(slots) < |slots|
  {
    HeldAtMost(slots[..|slots| - 1]);
    if i < |slots| - 1 {
      EmptyMeansRoom(slots[..|slots| - 1], i);
    }
  }

  lemma {:induction false} HeldAtMost(slots: seq<OutboundSlot>)
    ensures HeldSlots(slots) <= |slots|
  {
    if slots == [] {
    } else {
      HeldAtMost(slots[..|slots| - 1]);
    }
  }

  lemma RingIgnoresBuffers(r: Ring, s: Sender, t: Sender)
    requires RingOk(r, s) && t == s.(buf := t.buf, pending := t.pending, createdAny := t.createdAny)
    ensures RingOk(r, t)
  {
    forall i | 0 <= i < |r.slots| && r.slots[i].Held? ensures SlotFits(r, t, i) {
      assert SlotFits(r, s, i);
    }
  }

  lemma FreshId(s: Sender)
    requires SenderOk(s)
    ensures |s.created| !in s.live && 1 <= s.chunkSize
  {
  }

  lemma StartPushing(a: Sender, data: Bytes)
    requires SenderOk(a)
    ensures 1 <= a.chunkSize && Pushing(a, data, 0, a)
  {
  }
}
