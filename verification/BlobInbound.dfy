/**
 * The receiving ring of a blob stream: chunks may arrive in any order and more than once, and are
 * handed out in order of their ids.
 */
module BlobInbound {
  import opened Common

  datatype Inbound = Inbound(
    chunkSize: nat, windowSize: nat, nextExpected: nat, nextDeliver: nat,
    lastChunkId: Option<nat>, received: map<nat, Bytes>)

  datatype InsertOutcome = Duplicate | Stored(complete: bool)

  /**
   * Everything from the reader's position up to the first missing chunk is held, the first missing
   * chunk is not, and what is held are legal chunks, at most a window of them, within a window of the
   * first missing one.
   */
  ghost predicate InboundOk(r: Inbound) {
    && 1 <= r.windowSize && 1 <= r.chunkSize
    && r.nextDeliver <= r.nextExpected && r.nextExpected !in r.received
    && (forall id :: r.nextDeliver <= id < r.nextExpected ==> id in r.received)
    && (forall id :: id in r.received ==>
          r.nextDeliver <= id < r.nextExpected + r.windowSize && |r.received[id]| <= r.chunkSize)
    && |r.received| <= r.windowSize
  }

  function NewInbound(chunkSize: nat, windowSize: nat): Inbound {
    Inbound(chunkSize, windowSize, 0, 0, None, map[])
  }

  /** The first id at or after `n` that is not among `keys`. */
  function FirstMissing(keys: set<nat>, n: nat): (m: nat)
    ensures n <= m && m !in keys
    ensures forall id :: n <= id < m ==> id in keys
    decreases Beyond(keys, n)
  {
    if n in keys then
      assert n in Beyond(keys, n) && n !in Beyond(keys, n + 1);
      FirstMissing(keys, n + 1)
    else n
  }

  function Beyond(keys: set<nat>, n: nat): set<nat> {
    set id | id in keys && n <= id
  }

  lemma FirstMissingUnique(keys: set<nat>, n: nat, m: nat)
    requires n <= m && m !in keys && forall id :: n <= id < m ==> id in keys
    ensures m == FirstMissing(keys, n)
  {
    var k := FirstMissing(keys, n);
    assert !(n <= k < m) && !(n <= m < k);
  }

  function Kept(r: Inbound, chunkId: nat, data: Bytes): Inbound {
    var received := r.received[chunkId := data];
    r.(received := received,
       nextExpected := if chunkId == r.nextExpected then FirstMissing(received.Keys, chunkId) else r.nextExpected)
  }

  /** A full window with a hole in front of its last chunk can never be drained. */
  predicate Stuck(r: Inbound) {
    |r.received| >= r.windowSize && r.nextExpected !in r.received && exists id ::
      id in r.received && id > r.nextExpected
  }

  function InsertError(r: Inbound, chunkId: nat, data: Bytes, isLast: bool): Option<ErrorId> {
    if |data| > r.chunkSize then Some(ProtocolViolation)
    else if chunkId < r.nextDeliver then None
    else if chunkId >= r.nextExpected + r.windowSize then Some(BlobAckWindowExceeded)
    else if chunkId in r.received then None
    else if |r.received| >= r.windowSize then Some(BlobBufferFull)
    else if isLast && chunkId > r.nextExpected then Some(BlobStreamMissingChunk)
    else if Stuck(Kept(r, chunkId, data)) then Some(BlobStreamMissingChunk)
    else None
  }

  predicate IsDuplicate(r: Inbound, chunkId: nat) {
    chunkId < r.nextDeliver || chunkId in r.received
  }

  /** The chunk is one the ring lets in: legal, new, inside the window and with room for it. */
  predicate Admissible(r: Inbound, chunkId: nat, data: Bytes, isLast: bool) {
    && |data| <= r.chunkSize && r.nextDeliver <= chunkId < r.nextExpected + r.windowSize
    && chunkId !in r.received && |r.received| < r.windowSize
    && (isLast ==> chunkId <= r.nextExpected)
  }

  /** The ring after an insertion attempt. A chunk that leaves the ring stuck is kept nevertheless. */
  function Inserted(r: Inbound, chunkId: nat, data: Bytes, isLast: bool): Inbound {
    if !Admissible(r, chunkId, data, isLast) then r
    else
      var kept := Kept(r, chunkId, data);
      if Stuck(kept) || !isLast then kept else kept.(lastChunkId := Some(chunkId))
  }

  /** What the sender of the chunk is told. */
  function InsertResult(r: Inbound, chunkId: nat, data: Bytes, isLast: bool): Result<InsertOutcome, ErrorId> {
    match InsertError(r, chunkId, data, isLast)
    case Some(error) => Err(error)
    case None =>
      Ok(if IsDuplicate(r, chunkId) then Duplicate else Stored(AllExpected(Inserted(r, chunkId, data, isLast))))
  }

  predicate AllExpected(r: Inbound) {
    r.lastChunkId.Some? && r.nextExpected == r.lastChunkId.value + 1
  }

  predicate IsComplete(r: Inbound) {
    r.lastChunkId.Some? && r.nextDeliver > r.lastChunkId.value
  }

  function Taken(r: Inbound): Inbound
    requires r.nextDeliver in r.received
  {
    r.(received := r.received - {r.nextDeliver}, nextDeliver := r.nextDeliver + 1)
  }

  // ---------------------------------------------------------------- the ring keeps its invariant

  lemma KeptOk(r: Inbound, chunkId: nat, data: Bytes)
    requires InboundOk(r) && |data| <= r.chunkSize
    requires r.nextDeliver <= chunkId < r.nextExpected + r.windowSize
    requires chunkId !in r.received && |r.received| < r.windowSize
    ensures InboundOk(Kept(r, chunkId, data)) && r.nextExpected <= Kept(r, chunkId, data).nextExpected
  {
    assert |r.received[chunkId := data]| == |r.received| + 1;
  }

  lemma InsertedOk(r: Inbound, chunkId: nat, data: Bytes, isLast: bool)
    requires InboundOk(r)
    ensures InboundOk(Inserted(r, chunkId, data, isLast))
  {
    if Admissible(r, chunkId, data, isLast) {
      KeptOk(r, chunkId, data);
    }
  }

  lemma TakenOk(r: Inbound)
    requires InboundOk(r) && r.nextDeliver in r.received
    ensures InboundOk(Taken(r)) && r.nextDeliver < r.nextExpected
  {
    assert r.nextDeliver != r.nextExpected;
    assert |r.received - {r.nextDeliver}| == |r.received| - 1;
  }

  /** All chunks before the first missing one have arrived: what holds while arrivals are in order. */
  predicate InOrder(r: Inbound) {
    forall id :: id in r.received ==> id < r.nextExpected
  }

  /**
   * In-order arrival of a legal chunk fails in one way only, and exactly when a full window of
   * chunks is waiting for the reader.
   */
  lemma InOrderInsertion(r: Inbound, data: Bytes, isLast: bool)
    requires InboundOk(r) && InOrder(r) && |data| <= r.chunkSize
    ensures InsertError(r, r.nextExpected, data, isLast)
      == if r.nextExpected - r.nextDeliver == r.windowSize then Some(BlobBufferFull) else None
    ensures InOrder(Inserted(r, r.nextExpected, data, isLast))
    ensures r.nextExpected - r.nextDeliver < r.windowSize ==>
      Inserted(r, r.nextExpected, data, isLast).nextExpected == r.nextExpected + 1
  {
    HeldCount(r);
    if |r.received| < r.windowSize {
      FirstMissingUnique(r.received[r.nextExpected := data].Keys, r.nextExpected, r.nextExpected + 1);
    }
  }

  function IdRange(lo: nat, hi: nat): (s: set<nat>)
    requires lo <= hi
    ensures |s| == hi - lo
    ensures forall id :: id in s <==> lo <= id < hi
  {
    if lo == hi then {} else IdRange(lo, hi - 1) + {hi - 1}
  }

  lemma HeldCount(r: Inbound)
    requires InboundOk(r) && InOrder(r)
    ensures |r.received| == r.nextExpected - r.nextDeliver
  {
    assert r.received.Keys == IdRange(r.nextDeliver, r.nextExpected);
  }

  // ---------------------------------------------------------------- chunks out of order

  /** The chunk has been handed to the reader or is held. */
  predicate StoredAt(r: Inbound, id: nat) {
    id < r.nextDeliver || id in r.received
  }

  lemma {:induction false} AtMostRange(ids: set<nat>, lo: nat, hi: nat)
    requires lo <= hi && forall id :: id in ids ==> lo <= id < hi
    ensures |ids| <= hi - lo
    ensures |ids| == hi - lo ==> forall id :: lo <= id < hi ==> id in ids
    decreases hi - lo
  {
    if lo == hi {
      assert ids == {};
    } else {
      AtMostRange(ids - {hi - 1}, lo, hi - 1);
      assert if hi - 1 in ids then |ids - {hi - 1}| == |ids| - 1 else ids - {hi - 1} == ids;
      forall id | lo <= id < hi && |ids| == hi - lo ensures id in ids {
        assert id < hi - 1 ==> id in ids - {hi - 1};
      }
    }
  }

  /**
   * Gaps are allowed: a new legal chunk inside the window is stored whatever is missing before it, if
   * at least one place is left after it. It changes nothing else that is held.
   */
  lemma GapsAreAllowed(r: Inbound, chunkId: nat, data: Bytes)
    requires InboundOk(r) && |data| <= r.chunkSize && !StoredAt(r, chunkId)
    requires chunkId < r.nextExpected + r.windowSize && |r.received| + 1 < r.windowSize
    ensures InsertResult(r, chunkId, data, false).Ok? && InsertResult(r, chunkId, data, false).value.Stored?
    ensures Inserted(r, chunkId, data, false).received == r.received[chunkId := data]
    ensures Inserted(r, chunkId, data, false).nextDeliver == r.nextDeliver
  {
    assert |r.received[chunkId := data]| == |r.received| + 1;
  }

  /**
   * The chunk that is missing first is always let in once the reader has taken all that can be read,
   * however full the ring is: what else is held then fits a window without a gap.
   */
  lemma MissingChunkFits(r: Inbound, data: Bytes, isLast: bool)
    requires InboundOk(r) && r.nextDeliver == r.nextExpected && |data| <= r.chunkSize
    ensures InsertResult(r, r.nextExpected, data, isLast).Ok?
    ensures InsertResult(r, r.nextExpected, data, isLast).value.Stored?
    ensures Inserted(r, r.nextExpected, data, isLast).received == r.received[r.nextExpected := data]
    ensures Inserted(r, r.nextExpected, data, isLast).nextExpected > r.nextExpected
    ensures isLast ==> Inserted(r, r.nextExpected, data, isLast).lastChunkId == Some(r.nextExpected)
  {
    hide FirstMissing, Stuck;
    var kept := Kept(r, r.nextExpected, data);
    RoomForMissing(r, data);
    NotStuckThen(r, data);
    KeptOk(r, r.nextExpected, data);
    assert kept.nextExpected != r.nextExpected;
  }

  lemma RoomForMissing(r: Inbound, data: Bytes)
    requires InboundOk(r) && r.nextDeliver == r.nextExpected
    ensures |r.received| < r.windowSize && |r.received[r.nextExpected := data]| == |r.received| + 1
    ensures |r.received| + 1 == r.windowSize ==>
      forall id :: r.nextExpected < id < r.nextExpected + r.windowSize ==> id in r.received
  {
    AtMostRange(r.received.Keys, r.nextExpected + 1, r.nextExpected + r.windowSize);
  }

  lemma NotStuckThen(r: Inbound, data: Bytes)
    requires InboundOk(r) && r.nextDeliver == r.nextExpected
    ensures !Stuck(Kept(r, r.nextExpected, data))
  {
    hide FirstMissing;
    RoomForMissing(r, data);
    var n, w := r.nextExpected, r.windowSize;
    if |r.received| + 1 == w {
      FirstMissingUnique(r.received[n := data].Keys, n, n + w);
    }
  }

  /** Some id is missing between `lo` and one that is there. */
  predicate HasGap(ids: set<nat>, lo: nat) {
    exists x :: x in ids && exists g :: lo <= g < x && g !in ids
  }

  lemma StuckIff(r: Inbound)
    requires InboundOk(r)
    ensures Stuck(r) <==> |r.received| == r.windowSize && HasGap(r.received.Keys, r.nextDeliver)
  {
    if x :| x in r.received && x > r.nextExpected {
      assert r.nextDeliver <= r.nextExpected < x && r.nextExpected !in r.received.Keys;
    }
  }

  /** Each refusal happens under its condition and under no other. */
  lemma RefusedIff(r: Inbound, chunkId: nat, data: Bytes, isLast: bool)
    requires InboundOk(r)
    ensures var told, ahead := InsertResult(r, chunkId, data, isLast), chunkId >= r.nextExpected + r.windowSize;
      && (told == Err(ProtocolViolation) <==> |data| > r.chunkSize)
      && (told == Ok(Duplicate) <==> |data| <= r.chunkSize && StoredAt(r, chunkId))
      && (told == Err(BlobAckWindowExceeded) <==> |data| <= r.chunkSize && ahead)
      && (told == Err(BlobBufferFull) <==>
            |data| <= r.chunkSize && !ahead && !StoredAt(r, chunkId) && |r.received| == r.windowSize)
      && (told == Err(BlobStreamMissingChunk) <==>
            && |data| <= r.chunkSize && !ahead && !StoredAt(r, chunkId) && |r.received| < r.windowSize
            && ((isLast && chunkId > r.nextExpected)
                || (|r.received| + 1 == r.windowSize && HasGap(r.received.Keys + {chunkId}, r.nextDeliver))))
  {
    hide FirstMissing, HasGap, Stuck;
    if Admissible(r, chunkId, data, isLast) {
      KeptOk(r, chunkId, data);
      StuckIff(Kept(r, chunkId, data));
      assert r.received[chunkId := data].Keys == r.received.Keys + {chunkId};
      assert |r.received[chunkId := data]| == |r.received| + 1;
    }
  }

  /**
   * What an attempt leaves in the ring. A chunk that is stored is held, and noticed if it is the last. One
   * refused because it fills a ring with a gap is held all the same, but never noticed as the last. Any
   * other attempt leaves nothing.
   */
  lemma LeftInRing(r: Inbound, chunkId: nat, data: Bytes, isLast: bool)
    requires InboundOk(r)
    ensures var told, next := InsertResult(r, chunkId, data, isLast), Inserted(r, chunkId, data, isLast);
      && next.nextDeliver == r.nextDeliver
      && if told.Ok? && told.value.Stored? then
           && next.received == r.received[chunkId := data]
           && next.lastChunkId == if isLast then Some(chunkId) else r.lastChunkId
         else if told == Err(BlobStreamMissingChunk) && !(isLast && chunkId > r.nextExpected) then
           next.received == r.received[chunkId := data] && next.lastChunkId == r.lastChunkId
         else next == r
  {
    hide FirstMissing, Stuck;
  }

  /** What may happen to a ring: one of the chunks of a blob arrives, or the reader asks for the next one. */
  datatype RingEvent = Arrives(id: nat) | Read

  function AfterEvent(r: Inbound, chunks: seq<Bytes>, e: RingEvent): Inbound {
    match e
    case Arrives(id) => if id < |chunks| then Inserted(r, id, chunks[id], id == |chunks| - 1) else r
    case Read => if r.nextDeliver in r.received then Taken(r) else r
  }

  /** Only chunks that are not the last one arrive. */
  predicate BeforeTheLast(events: seq<RingEvent>, n: nat) {
    forall i :: 0 <= i < |events| && events[i].Arrives? ==> events[i].id + 1 < n
  }

  function AfterEvents(r: Inbound, chunks: seq<Bytes>, events: seq<RingEvent>): Inbound {
    if events == [] then r
    else AfterEvent(AfterEvents(r, chunks, events[..|events| - 1]), chunks, events[|events| - 1])
  }

  /** Some chunks of a blob other than its last one are held or have been read. */
  ghost predicate PartOf(r: Inbound, chunks: seq<Bytes>) {
    && InboundOk(r) && r.nextExpected < |chunks| <= r.windowSize && r.lastChunkId == None
    && (forall i :: 0 <= i < |chunks| ==> |chunks[i]| <= r.chunkSize)
    && (forall id :: id in r.received ==> id < |chunks| - 1 && r.received[id] == chunks[id])
  }

  lemma PartArrives(r: Inbound, chunks: seq<Bytes>, id: nat)
    requires PartOf(r, chunks) && id + 1 < |chunks|
    ensures InsertResult(r, id, chunks[id], false).Ok?
    ensures PartOf(Inserted(r, id, chunks[id], false), chunks) && StoredAt(Inserted(r, id, chunks[id], false), id)
    ensures forall other :: StoredAt(r, other) ==> StoredAt(Inserted(r, id, chunks[id], false), other)
  {
    hide FirstMissing, Stuck;
    InsertedOk(r, id, chunks[id], false);
    if !StoredAt(r, id) {
      RoomInPart(r, chunks, id);
      GapsAreAllowed(r, id, chunks[id]);
      var next := Inserted(r, id, chunks[id], false);
      assert next.nextExpected > next.nextDeliver ==> next.nextExpected - 1 in next.received;
    }
  }

  lemma RoomInPart(r: Inbound, chunks: seq<Bytes>, id: nat)
    requires PartOf(r, chunks) && id + 1 < |chunks| && !StoredAt(r, id)
    ensures |r.received| + 1 < r.windowSize && id < r.nextExpected + r.windowSize
  {
    AtMostRange(r.received.Keys + {id}, r.nextDeliver, |chunks| - 1);
    assert |r.received.Keys + {id}| == |r.received| + 1;
  }

  lemma PartRead(r: Inbound, chunks: seq<Bytes>)
    requires PartOf(r, chunks) && r.nextDeliver in r.received
    ensures PartOf(Taken(r), chunks) && forall id :: StoredAt(r, id) ==> StoredAt(Taken(r), id)
  {
    TakenOk(r);
  }

  /**
   * The order of arrival does not matter. Chunks of a blob no longer than the window, other than its
   * last one, may come in any order, any number of times, with the reader reading in between: each is
   * accepted, and stays stored.
   */
  lemma {:induction false} AnyOrderIsAccepted(r: Inbound, chunks: seq<Bytes>, events: seq<RingEvent>)
    requires PartOf(r, chunks) && BeforeTheLast(events, |chunks|)
    ensures PartOf(AfterEvents(r, chunks, events), chunks)
    ensures forall i :: 0 <= i < |events| && events[i].Arrives? ==>
      InsertResult(AfterEvents(r, chunks, events[..i]), events[i].id, chunks[events[i].id], false).Ok?
    ensures forall i :: 0 <= i < |events| && events[i].Arrives? ==>
      StoredAt(AfterEvents(r, chunks, events), events[i].id)
    decreases |events|
  {
    hide PartOf, Inserted, InsertResult, Taken, StoredAt;
    if events == [] {
    } else {
      var n := |events| - 1;
      AnyOrderIsAccepted(r, chunks, events[..n]);
      var before := AfterEvents(r, chunks, events[..n]);
      if events[n].Arrives? {
        PartArrives(before, chunks, events[n].id);
      } else if before.nextDeliver in before.received {
        PartRead(before, chunks);
      }
      forall i | 0 <= i < n ensures events[..n][..i] == events[..i] {
      }
    }
  }

  /** With all others in, the last chunk completes the blob. */
  lemma LastChunkCompletes(r: Inbound, chunks: seq<Bytes>)
    requires PartOf(r, chunks) && forall id :: 0 <= id < |chunks| - 1 ==> StoredAt(r, id)
    ensures InsertResult(r, |chunks| - 1, chunks[|chunks| - 1], true) == Ok(Stored(true))
  {
    hide FirstMissing;
    var last := |chunks| - 1;
    assert !StoredAt(r, r.nextExpected);
    assert r.nextExpected == last;
    AtMostRange(r.received.Keys, r.nextDeliver, last);
    FirstMissingUnique(r.received[last := chunks[last]].Keys, last, last + 1);
  }

  /** A blob no longer than the window is complete after its chunks came in any order, the last one at the end. */
  lemma AnyOrderCompletes(chunkSize: nat, windowSize: nat, chunks: seq<Bytes>, events: seq<RingEvent>)
    requires 1 <= chunkSize && 1 <= |chunks| <= windowSize
    requires forall i :: 0 <= i < |chunks| ==> |chunks[i]| <= chunkSize
    requires BeforeTheLast(events, |chunks|) && forall id :: 0 <= id < |chunks| - 1 ==> Arrives(id) in events
    ensures InsertResult(AfterEvents(NewInbound(chunkSize, windowSize), chunks, events), |chunks| - 1,
                         chunks[|chunks| - 1], true) == Ok(Stored(true))
  {
    hide InsertResult, AfterEvents, StoredAt;
    var r := NewInbound(chunkSize, windowSize);
    AnyOrderIsAccepted(r, chunks, events);
    var before := AfterEvents(r, chunks, events);
    forall id | 0 <= id < |chunks| - 1 ensures StoredAt(before, id) {
      assert Arrives(id) in events;
      var i :| 0 <= i < |events| && events[i] == Arrives(id);
    }
    LastChunkCompletes(before, chunks);
  }

  ghost function BufferedBytes(received: map<nat, Bytes>): nat
    decreases |received|
  {
    if received == map[] then 0
    else
      var id :| id in received;
      |received[id]| + BufferedBytes(received - {id})
  }

  lemma OneMoreChunk(n: nat, chunkSize: nat)
    ensures n * chunkSize + chunkSize == (n + 1) * chunkSize
  {
  }

  lemma {:induction false} BytesPerChunk(received: map<nat, Bytes>, chunkSize: nat)
    requires forall id :: id in received ==> |received[id]| <= chunkSize
    ensures BufferedBytes(received) <= |received| * chunkSize
    decreases |received|
  {
    if received == map[] {
    } else {
      var id :| id in received && BufferedBytes(received) == |received[id]| + BufferedBytes(received - {id});
      assert |received - {id}| == |received| - 1;
      BytesPerChunk(received - {id}, chunkSize);
      OneMoreChunk(|received| - 1, chunkSize);
    }
  }

  /** The receiver never buffers more than its reservation of window times chunk size. */
  lemma InboundBytesBounded(r: Inbound)
    requires InboundOk(r)
    ensures BufferedBytes(r.received) <= r.windowSize * r.chunkSize
  {
    BytesPerChunk(r.received, r.chunkSize);
    assert |r.received| * r.chunkSize <= r.windowSize * r.chunkSize by {
      MulMonotone(|r.received|, r.windowSize, r.chunkSize);
    }
  }

  lemma MulMonotone(a: nat, b: nat, c: nat)
    requires a <= b
    ensures a * c <= b * c
  {
  }

  // ---------------------------------------------------------------- the ring itself

  method FirstMissingFrom(received: map<nat, Bytes>, start: nat) returns (nextExpected: nat)
    ensures nextExpected == FirstMissing(received.Keys, start)
  {
    nextExpected := start;
    while nextExpected in received
      invariant FirstMissing(received.Keys, start) == FirstMissing(received.Keys, nextExpected)
      decreases Beyond(received.Keys, nextExpected)
    {
      assert nextExpected in Beyond(received.Keys, nextExpected)
        && nextExpected !in Beyond(received.Keys, nextExpected + 1);
      nextExpected := nextExpected + 1;
    }
  }

  function Max(a: nat, b: nat): nat {
    if a < b then b else a
  }

  class InboundRingBuffer {
    const chunkSize: nat
    const windowSize: nat
    var nextExpected: nat
    var nextDeliver: nat
    var lastChunkId: Option<nat>
    var received: map<nat, Bytes>

    ghost function State(): Inbound
      reads this
    {
      Inbound(chunkSize, windowSize, nextExpected, nextDeliver, lastChunkId, received)
    }

    constructor (chunkSize: nat, windowSize: nat)
      requires 1 <= chunkSize && 1 <= windowSize
      ensures State() == NewInbound(chunkSize, windowSize) && InboundOk(State())
    {
      this.chunkSize, this.windowSize := chunkSize, windowSize;
      nextExpected, nextDeliver, lastChunkId, received := 0, 0, None, map[];
    }

    method InsertChunk(chunkId: nat, data: Bytes, isLast: bool) returns (r: Result<InsertOutcome, ErrorId>)
      requires InboundOk(State())
      modifies this
      ensures InboundOk(State()) && State() == Inserted(old(State()), chunkId, data, isLast)
      ensures r == InsertResult(old(State()), chunkId, data, isLast)
    {
      hide InboundOk, FirstMissing;
      InsertedOk(State(), chunkId, data, isLast);
      if |data| > chunkSize {
        return Err(ProtocolViolation);
      }
      if chunkId < nextDeliver {
        return Ok(Duplicate);
      }
      if chunkId >= nextExpected + windowSize {
        return Err(BlobAckWindowExceeded);
      }
      if chunkId in received {
        return Ok(Duplicate);
      }
      if |received| >= windowSize {
        return Err(BlobBufferFull);
      }
      if isLast && chunkId > nextExpected {
        return Err(BlobStreamMissingChunk);
      }
      received := received[chunkId := data];
      if chunkId == nextExpected {
        nextExpected := FirstMissingFrom(received, nextExpected);
      }
      assert State() == Kept(old(State()), chunkId, data);
      if |received| >= windowSize && nextExpected !in received {
        if exists id :: id in received && id > nextExpected {
          return Err(BlobStreamMissingChunk);
        }
      }
      if isLast {
        lastChunkId := Some(chunkId);
      }
      var complete := match lastChunkId { case Some(last) => nextExpected == last + 1 case None => false };
      return Ok(Stored(complete));
    }

    method TakeNext() returns (data: Option<Bytes>)
      requires InboundOk(State())
      modifies this
      ensures InboundOk(State())
      ensures if old(nextDeliver) in old(received)
        then data == Some(old(received)[old(nextDeliver)]) && State() == Taken(old(State()))
        else data == None && State() == old(State())
    {
      if nextDeliver !in received {
        return None;
      }
      TakenOk(State());
      data := Some(received[nextDeliver]);
      received := received - {nextDeliver};
      nextDeliver := nextDeliver + 1;
      nextExpected := Max(nextExpected, nextDeliver);
    }
  }

  /** A zero chunk size or window is refused. */
  method NewInboundRing(chunkSize: nat, windowSize: nat) returns (r: Result<InboundRingBuffer, ErrorId>)
    ensures r == Err(ProtocolViolation) <==> chunkSize == 0 || windowSize == 0
    ensures r.Ok? <==> chunkSize > 0 && windowSize > 0
    ensures r.Ok? ==>
      fresh(r.value) && r.value.State() == NewInbound(chunkSize, windowSize) && InboundOk(r.value.State())
  {
    if chunkSize == 0 || windowSize == 0 {
      return Err(ProtocolViolation);
    }
    var ring := new InboundRingBuffer(chunkSize, windowSize);
    return Ok(ring);
  }
}
