/**
 * What the sending side of a blob stream does, without its slot ring, indexes and counters: the
 * chunks cut so far, the bytes not yet in a chunk, and the state of every chunk not yet answered.
 */
module BlobSender {
  import opened Common
  import opened BlobInbound

  datatype Chunk = Chunk(data: Bytes, isLast: bool)

  datatype ChunkState =
    | Ready(seqNo: nat)
    | Writing(peerMsgId: PeerMessageId, callis: CallisId, seqNo: nat)
    | InFlight(peerMsgId: PeerMessageId, callis: CallisId, seqNo: nat)
    | ReplayReady(previousCallis: CallisId, seqNo: nat)

  datatype ChunkWriteLease = ChunkWriteLease(
    chunkId: nat, data: Bytes, isLast: bool, peerMsgId: PeerMessageId, callis: CallisId, slotSeq: nat)

  /** Chunk ids are positions in `created`; `live` holds the ids whose answer is still awaited. */
  datatype Sender = Sender(
    chunkSize: nat, windowSize: nat, created: seq<Chunk>, pending: Option<Bytes>, buf: Bytes,
    createdAny: bool, live: map<nat, ChunkState>)

  function Concat(chunks: seq<Chunk>): Bytes {
    if chunks == [] then [] else Concat(chunks[..|chunks| - 1]) + chunks[|chunks| - 1].data
  }

  function PendingBytes(pending: Option<Bytes>): Bytes {
    if pending.Some? then pending.value else []
  }

  /** All bytes accepted from the application so far. */
  function Stream(s: Sender): Bytes {
    Concat(s.created) + PendingBytes(s.pending) + s.buf
  }

  function PendingCount(s: Sender): nat {
    if s.pending.Some? then 1 else 0
  }

  predicate HasCapacityFor(s: Sender, count: nat) {
    |s.live| + PendingCount(s) + count <= s.windowSize
  }

  predicate IsLeased(state: ChunkState) {
    state.Writing? || state.InFlight?
  }

  ghost predicate SenderOk(s: Sender) {
    && 1 <= s.chunkSize && 1 <= s.windowSize
    && HasCapacityFor(s, 0)
    && |s.buf| <= s.chunkSize
    && (s.pending.Some? ==> |s.pending.value| == s.chunkSize)
    && (forall i :: 0 <= i < |s.created| ==> |s.created[i].data| <= s.chunkSize)
    && (forall id :: id in s.live ==> id < |s.created|)
    && (s.pending.Some? || s.created != [] ==> s.createdAny)
    && (forall i, j | i in s.live && j in s.live && i != j && IsLeased(s.live[i]) && IsLeased(s.live[j]) ::
          s.live[i].peerMsgId != s.live[j].peerMsgId)
  }

  function NewSender(chunkSize: nat, windowSize: nat): Sender {
    Sender(chunkSize, windowSize, [], None, [], false, map[])
  }

  // ---------------------------------------------------------------- cutting chunks

  function Enqueued(s: Sender, data: Bytes, isLast: bool): Sender {
    s.(created := s.created + [Chunk(data, isLast)],
       live := s.live[|s.created| := Ready(0)],
       createdAny := true)
  }

  function NewIds(lo: nat, hi: nat): set<nat> {
    if lo <= hi then IdRange(lo, hi) else {}
  }

  function FreshRange(lo: nat, hi: nat): map<nat, ChunkState> {
    map id | id in NewIds(lo, hi) :: Ready(0)
  }

  /**
   * `n` bytes of `data` were taken. They follow the bytes taken before; only full, non-final chunks
   * were cut; and no more could have been taken: either all of `data` was, or a full buffer waits
   * for the window to open.
   */
  ghost predicate PushStep(a: Sender, data: Bytes, n: nat, b: Sender) {
    && SenderOk(b) && Pushing(a, data, n, b)
    && (n == |data| || |b.buf| == a.chunkSize)
    && (|b.buf| == a.chunkSize ==> !HasCapacityFor(b, 1))
    && (b.pending.Some? ==> b.buf == [])
  }

  /** Once a chunk has been cut, some accepted bytes are still held back for the final chunk. */
  predicate HasTail(s: Sender) {
    s.createdAny ==> s.pending.Some? || s.buf != []
  }

  // The three things a push does, over and over: fill the buffer, cut a full one, release a held chunk.

  function Filled(s: Sender, more: Bytes): Sender {
    s.(buf := s.buf + more)
  }

  function Released(s: Sender): Sender {
    if s.pending.Some? then Enqueued(s.(pending := None), s.pending.value, false) else s
  }

  function Cut(s: Sender): Sender
    requires s.chunkSize <= |s.buf|
  {
    Released(s).(pending := Some(s.buf[..s.chunkSize]), buf := s.buf[s.chunkSize..], createdAny := true)
  }

  /** Full, non-final chunks were cut, and they await their first write. */
  ghost predicate Grew(a: Sender, b: Sender) {
    && b.chunkSize == a.chunkSize && b.windowSize == a.windowSize
    && a.created <= b.created
    && (forall i :: |a.created| <= i < |b.created| ==> !b.created[i].isLast && |b.created[i].data| == a.chunkSize)
    && b.live == a.live + FreshRange(|a.created|, |b.created|)
  }

  /** A push under way: everything `PushStep` asks except that no more could be taken. */
  ghost predicate Pushing(a: Sender, data: Bytes, n: nat, b: Sender) {
    && n <= |data|
    && Grew(a, b)
    && Stream(b) == Stream(a) + data[..n]
    && (b.createdAny <==> a.createdAny || b.pending.Some? || |b.created| > |a.created|)
    && (HasTail(a) ==> HasTail(b))
  }

  lemma FillPushes(a: Sender, data: Bytes, n: nat, b: Sender, take: nat)
    requires Pushing(a, data, n, b) && n + take <= |data|
    ensures Pushing(a, data, n + take, Filled(b, data[n..n + take]))
  {
    hide Concat, Grew;
    assert data[..n + take] == data[..n] + data[n..n + take];
    assert Stream(Filled(b, data[n..n + take])) == Stream(b) + data[n..n + take];
    assert Grew(a, Filled(b, data[n..n + take])) by { SameGrowth(a, b, Filled(b, data[n..n + take])); }
  }

  lemma SameGrowth(a: Sender, b: Sender, c: Sender)
    requires Grew(a, b) && c == b.(pending := c.pending, buf := c.buf, createdAny := c.createdAny)
    ensures Grew(a, c)
  {
  }

  lemma ReleasedStream(s: Sender)
    ensures Stream(Released(s)) == Stream(s)
  {
    if s.pending.Some? {
      ConcatAppend(s.created, Chunk(s.pending.value, false));
      assert Concat(s.created) + s.pending.value + [] + s.buf == Concat(s.created) + s.pending.value + s.buf;
    }
  }

  lemma OneMoreFresh(live: map<nat, ChunkState>, lo: nat, hi: nat)
    requires lo <= hi
    ensures live + FreshRange(lo, hi + 1) == (live + FreshRange(lo, hi))[hi := Ready(0)]
  {
  }

  lemma ReleaseGrows(a: Sender, b: Sender)
    requires Grew(a, b) && (b.pending.Some? ==> |b.pending.value| == b.chunkSize)
    ensures Grew(a, Released(b))
  {
    hide FreshRange;
    OneMoreFresh(a.live, |a.created|, |b.created|);
  }

  lemma ReleasePushes(a: Sender, data: Bytes, n: nat, b: Sender)
    requires Pushing(a, data, n, b) && b.buf != [] && (b.pending.Some? ==> |b.pending.value| == b.chunkSize)
    ensures Pushing(a, data, n, Released(b))
  {
    hide Concat, Stream, FreshRange;
    ReleasedStream(b);
    ReleaseGrows(a, b);
  }

  lemma CutPushes(a: Sender, data: Bytes, n: nat, b: Sender)
    requires Pushing(a, data, n, b) && |b.buf| == b.chunkSize && b.buf != []
    requires b.pending.Some? ==> |b.pending.value| == b.chunkSize
    ensures Pushing(a, data, n, Cut(b))
  {
    hide Concat, Grew;
    ReleasePushes(a, data, n, b);
    var c := Released(b);
    SameGrowth(a, c, Cut(b));
    assert c.pending.None?;
    assert c.buf[..b.chunkSize] == c.buf && c.buf[b.chunkSize..] == [];
    assert Stream(Cut(b)) == Stream(c);
  }

  lemma ReleasedOk(s: Sender)
    requires SenderOk(s)
    ensures SenderOk(Released(s)) && Released(s).pending.None?
    ensures |Released(s).live| + 0 == |s.live| + PendingCount(s)
  {
    hide SenderOk;
    if s.pending.Some? {
      PendingReleased(s);
      EnqueuedOk(s.(pending := None), s.pending.value, false);
    }
  }

  lemma CutOk(s: Sender)
    requires SenderOk(s) && |s.buf| == s.chunkSize && HasCapacityFor(s, 1)
    ensures SenderOk(Cut(s)) && Cut(s).buf == []
  {
    ReleasedOk(s);
  }

  predicate CanAcceptBytes(s: Sender) {
    |s.buf| < s.chunkSize || HasCapacityFor(s, 1)
  }

  function ExtraNeeded(s: Sender): nat {
    if s.pending.Some? && s.buf == [] then 0 else 1
  }

  /** The stream is closed: what is left becomes the final chunk, which may be empty. */
  function Finalized(s: Sender): Option<Sender> {
    if !HasCapacityFor(s, ExtraNeeded(s)) then None
    else if s.pending.Some? then
      if s.buf == [] then Some(Enqueued(s.(pending := None), s.pending.value, true))
      else Some(Enqueued(Enqueued(s.(pending := None), s.pending.value, false).(buf := []), s.buf, true))
    else if s.buf == [] && s.createdAny then Some(s)
    else Some(Enqueued(s.(buf := []), s.buf, true))
  }

  // ---------------------------------------------------------------- leases

  predicate Offered(state: ChunkState, replay: bool) {
    if replay then state.ReplayReady? else state.Ready?
  }

  /** The lowest chunk id that is offered in this way. */
  predicate IsNextChunk(s: Sender, replay: bool, id: nat) {
    && id in s.live && Offered(s.live[id], replay)
    && (forall other :: other in s.live && Offered(s.live[other], replay) ==> id <= other)
  }

  predicate NothingOffered(s: Sender, replay: bool) {
    forall id :: id in s.live ==> !Offered(s.live[id], replay)
  }

  function LeaseOf(s: Sender, id: nat, callis: CallisId, peerMsgId: PeerMessageId): ChunkWriteLease
    requires id in s.live && id < |s.created|
  {
    ChunkWriteLease(id, s.created[id].data, s.created[id].isLast, peerMsgId, callis, s.live[id].seqNo + 1)
  }

  function Leased(s: Sender, lease: ChunkWriteLease): Sender {
    s.(live := s.live[lease.chunkId := Writing(lease.peerMsgId, lease.callis, lease.slotSeq)])
  }

  predicate LeaseFrom(
    a: Sender, replay: bool, callis: CallisId, peerMsgId: PeerMessageId, lease: Option<ChunkWriteLease>, b: Sender)
  {
    match lease
    case None => NothingOffered(a, replay) && b == a
    case Some(l) =>
      && IsNextChunk(a, replay, l.chunkId) && l.chunkId < |a.created|
      && l == LeaseOf(a, l.chunkId, callis, peerMsgId) && b == Leased(a, l)
  }

  /** Chunks to be sent again go first; within either group the lowest id goes first. */
  predicate LeaseStep(
    a: Sender, callis: CallisId, peerMsgId: PeerMessageId, lease: Option<ChunkWriteLease>, b: Sender)
  {
    if NothingOffered(a, true) then LeaseFrom(a, false, callis, peerMsgId, lease, b)
    else lease.Some? && LeaseFrom(a, true, callis, peerMsgId, lease, b)
  }

  /** The lease is the latest one given for its chunk, and the chunk is still being written. */
  predicate LeaseCurrent(s: Sender, lease: ChunkWriteLease) {
    && lease.chunkId in s.live && lease.chunkId < |s.created|
    && s.live[lease.chunkId] == Writing(lease.peerMsgId, lease.callis, lease.slotSeq)
    && s.created[lease.chunkId].isLast == lease.isLast
  }

  function MarkedInFlight(s: Sender, lease: ChunkWriteLease): Sender {
    if LeaseCurrent(s, lease) then
      s.(live := s.live[lease.chunkId := InFlight(lease.peerMsgId, lease.callis, lease.slotSeq)])
    else s
  }

  function AfterCallisLoss(state: ChunkState, callis: CallisId): ChunkState {
    if IsLeased(state) && state.callis == callis then ReplayReady(callis, state.seqNo) else state
  }

  function CallisLost(s: Sender, callis: CallisId): Sender {
    s.(live := map id | id in s.live :: AfterCallisLoss(s.live[id], callis))
  }

  predicate AwaitsAnswer(state: ChunkState, peerMsgId: PeerMessageId) {
    state.InFlight? && state.peerMsgId == peerMsgId
  }

  /** The chunks an answer with this message id is about: at most one. */
  function AnsweredBy(s: Sender, peerMsgId: PeerMessageId): set<nat> {
    set id | id in s.live && AwaitsAnswer(s.live[id], peerMsgId)
  }

  function Answered(s: Sender, peerMsgId: PeerMessageId): Sender {
    s.(live := s.live - AnsweredBy(s, peerMsgId))
  }

  predicate IsDrained(s: Sender) {
    s.live == map[] && s.pending.None?
  }

  // ---------------------------------------------------------------- the invariant is kept

  lemma ConcatAppend(chunks: seq<Chunk>, chunk: Chunk)
    ensures Concat(chunks + [chunk]) == Concat(chunks) + chunk.data
  {
    assert (chunks + [chunk])[..|chunks|] == chunks;
  }

  lemma {:induction false} ConcatPrefix(chunks: seq<Chunk>, n: nat)
    requires n <= |chunks|
    ensures Concat(chunks[..n]) <= Concat(chunks)
  {
    if n < |chunks| {
      ConcatPrefix(chunks[..|chunks| - 1], n);
      assert chunks[..|chunks| - 1][..n] == chunks[..n];
    } else {
      assert chunks[..n] == chunks;
    }
  }

  lemma EnqueuedOk(s: Sender, data: Bytes, isLast: bool)
    requires SenderOk(s) && |data| <= s.chunkSize && HasCapacityFor(s, 1)
    ensures SenderOk(Enqueued(s, data, isLast))
    ensures |Enqueued(s, data, isLast).live| == |s.live| + 1
  {
    assert |s.created| !in s.live;
    assert |s.live[|s.created| := Ready(0)]| == |s.live| + 1;
  }

  lemma FinalizedOk(s: Sender)
    requires SenderOk(s) && Finalized(s).Some?
    ensures SenderOk(Finalized(s).value)
  {
    hide SenderOk;
    if s.pending.Some? {
      PendingReleased(s);
      if s.buf == [] {
        EnqueuedOk(s.(pending := None), s.pending.value, true);
      } else {
        EnqueuedOk(s.(pending := None), s.pending.value, false);
        BufReleased(Enqueued(s.(pending := None), s.pending.value, false), s.buf);
        EnqueuedOk(Enqueued(s.(pending := None), s.pending.value, false).(buf := []), s.buf, true);
      }
    } else if !(s.buf == [] && s.createdAny) {
      BufReleased(s, s.buf);
      EnqueuedOk(s.(buf := []), s.buf, true);
    }
  }

  lemma PendingReleased(s: Sender)
    requires SenderOk(s) && s.pending.Some?
    ensures SenderOk(s.(pending := None)) && |s.pending.value| <= s.chunkSize && HasCapacityFor(s.(pending := None), 1)
    ensures |s.buf| <= s.chunkSize
  {
  }

  lemma BufReleased(s: Sender, buf: Bytes)
    requires SenderOk(s) && s.buf == buf
    ensures SenderOk(s.(buf := [])) && |buf| <= s.chunkSize
  {
  }

  /** No final chunk has been cut, and whatever was accepted is in a chunk or in the buffer. */
  predicate Unsealed(s: Sender) {
    && (forall i :: 0 <= i < |s.created| ==> !s.created[i].isLast)
    && HasTail(s)
  }

  /** The last chunk, and only that one, is final, and nothing is left outside the chunks. */
  predicate Sealed(s: Sender) {
    && s.created != [] && s.created[|s.created| - 1].isLast
    && (forall i :: 0 <= i < |s.created| - 1 ==> !s.created[i].isLast)
    && s.pending.None? && s.buf == []
  }

  /** The final chunk carries bytes, unless the whole stream is empty. */
  predicate EndsInBytes(s: Sender) {
    s.created != [] && (s.created[|s.created| - 1].data != [] || Stream(s) == [])
  }

  lemma TailHasBytes(s: Sender)
    requires SenderOk(s) && Unsealed(s)
    ensures s.pending.Some? ==> s.pending.value != []
    ensures s.pending.None? && s.buf == [] ==> s.created == [] && Stream(s) == []
  {
  }

  /** Closing an open stream makes exactly one final chunk, the one with the highest id, even for an empty stream. */
  lemma FinalizeSeals(s: Sender)
    requires SenderOk(s) && Unsealed(s) && Finalized(s).Some?
    ensures Sealed(Finalized(s).value) && Stream(Finalized(s).value) == Stream(s)
    ensures s.created <= Finalized(s).value.created
  {
    hide SenderOk, Concat;
    if s.pending.Some? && s.buf == [] {
      ConcatAppend(s.created, Chunk(s.pending.value, true));
    } else if s.pending.Some? {
      ConcatAppend(s.created, Chunk(s.pending.value, false));
      ConcatAppend(s.created + [Chunk(s.pending.value, false)], Chunk(s.buf, true));
    } else {
      ConcatAppend(s.created, Chunk(s.buf, true));
    }
  }

  lemma FinalizeEndsInBytes(s: Sender)
    requires SenderOk(s) && Unsealed(s) && Finalized(s).Some?
    ensures EndsInBytes(Finalized(s).value)
  {
    hide SenderOk, Concat, Stream, Unsealed, Sealed;
    TailHasBytes(s);
    FinalizeSeals(s);
    SealedNotEmpty(Finalized(s).value);
  }

  lemma SealedNotEmpty(s: Sender)
    requires Sealed(s)
    ensures s.created != []
  {
  }

  lemma PushKeepsUnsealed(a: Sender, data: Bytes, n: nat, b: Sender)
    requires Unsealed(a) && PushStep(a, data, n, b)
    ensures Unsealed(b)
  {
    forall i | 0 <= i < |b.created| ensures !b.created[i].isLast {
      if i < |a.created| { assert b.created[i] == a.created[i]; }
    }
  }

  lemma LeasedOk(s: Sender, lease: ChunkWriteLease)
    requires SenderOk(s) && lease.chunkId in s.live
    requires forall id :: id in s.live && IsLeased(s.live[id]) ==> s.live[id].peerMsgId != lease.peerMsgId
    ensures SenderOk(Leased(s, lease))
  {
    assert Leased(s, lease).live.Keys == s.live.Keys;
  }

  lemma MarkedInFlightOk(s: Sender, lease: ChunkWriteLease)
    requires SenderOk(s)
    ensures SenderOk(MarkedInFlight(s, lease))
  {
    if LeaseCurrent(s, lease) {
      assert MarkedInFlight(s, lease).live.Keys == s.live.Keys;
    }
  }

  lemma CallisLostOk(s: Sender, callis: CallisId)
    requires SenderOk(s)
    ensures SenderOk(CallisLost(s, callis))
  {
    assert CallisLost(s, callis).live.Keys == s.live.Keys;
  }

  lemma AnsweredOk(s: Sender, peerMsgId: PeerMessageId)
    requires SenderOk(s)
    ensures SenderOk(Answered(s, peerMsgId)) && |Answered(s, peerMsgId).live| <= |s.live|
    ensures forall i, j :: i in AnsweredBy(s, peerMsgId) && j in AnsweredBy(s, peerMsgId) ==> i == j
  {
    assert Answered(s, peerMsgId).live.Keys == s.live.Keys - AnsweredBy(s, peerMsgId);
  }

  /** How many bytes can be taken: a window of chunks and a buffer, less what is in them. */
  function Room(s: Sender): int {
    (s.windowSize - |s.live| + 1) * s.chunkSize - |PendingBytes(s.pending)| - |s.buf|
  }

  lemma {:induction false} ConcatLength(a: seq<Chunk>, b: seq<Chunk>, size: nat)
    requires a <= b && forall i :: |a| <= i < |b| ==> |b[i].data| == size
    ensures |Concat(b)| == |Concat(a)| + (|b| - |a|) * size
    decreases |b|
  {
    if |a| == |b| {
      assert a == b;
    } else {
      ConcatLength(a, b[..|b| - 1], size);
      assert (|b| - |a|) * size == (|b| - 1 - |a|) * size + size;
    }
  }

  lemma FreshCount(s: Sender, t: Sender)
    requires Grew(s, t) && forall id :: id in s.live ==> id < |s.created|
    ensures |t.live| == |s.live| + (|t.created| - |s.created|)
  {
    var added := FreshRange(|s.created|, |t.created|);
    assert added.Keys == IdRange(|s.created|, |t.created|);
    assert t.live.Keys == s.live.Keys + added.Keys && s.live.Keys !! added.Keys;
    assert |t.live.Keys| == |t.live| && |s.live.Keys| == |s.live| && |added.Keys| == |t.created| - |s.created|;
  }

  lemma Distributes(x: int, k: int, c: int)
    ensures (x - k) * c == x * c - k * c
  {
  }

  /** A push uses up exactly the room its bytes take. */
  lemma RoomUsed(a: Sender, n: nat, b: Sender)
    requires Grew(a, b) && (forall id :: id in a.live ==> id < |a.created|) && |Stream(b)| == |Stream(a)| + n
    ensures Room(b) == Room(a) - n
  {
    hide Concat, Grew;
    FreshCount(a, b);
    CutLength(a, b);
    Distributes(a.windowSize - |a.live| + 1, |b.created| - |a.created|, a.chunkSize);
  }

  lemma CutLength(a: Sender, b: Sender)
    requires Grew(a, b)
    ensures |Concat(b.created)| == |Concat(a.created)| + (|b.created| - |a.created|) * a.chunkSize
    ensures b.chunkSize == a.chunkSize && b.windowSize == a.windowSize
  {
    ConcatLength(a.created, b.created, a.chunkSize);
  }

  lemma PushParts(a: Sender, data: Bytes, n: nat, b: Sender)
    requires PushStep(a, data, n, b)
    ensures Grew(a, b) && |Stream(b)| == |Stream(a)| + n && n <= |data| && SenderOk(b)
    ensures n < |data| ==> |b.buf| == b.chunkSize && !HasCapacityFor(b, 1)
  {
    hide SenderOk, Stream;
  }

  /** How much of what is offered can be taken. */
  function Takes(s: Sender, wanted: nat): nat {
    if wanted <= Room(s) then wanted else if Room(s) < 0 then 0 else Room(s)
  }

  /** A push takes as much as there is room for, neither more nor less. */
  lemma PushTakesAll(a: Sender, data: Bytes, n: nat, b: Sender)
    requires SenderOk(a) && PushStep(a, data, n, b)
    ensures n == Takes(a, |data|)
  {
    hide Stream, PushStep, Grew, Room;
    PushParts(a, data, n, b);
    RoomUsed(a, n, b);
    RoomLeft(b);
    if n < |data| {
      FullHasNoRoom(b);
    }
  }

  lemma RoomLeft(s: Sender)
    requires SenderOk(s)
    ensures Room(s) >= 0
  {
    MulMonotone(PendingCount(s), s.windowSize - |s.live|, s.chunkSize);
    assert (s.windowSize - |s.live| + 1) * s.chunkSize == (s.windowSize - |s.live|) * s.chunkSize + s.chunkSize;
  }

  lemma FullHasNoRoom(s: Sender)
    requires SenderOk(s) && |s.buf| == s.chunkSize && !HasCapacityFor(s, 1)
    ensures Room(s) == 0
  {
    assert s.windowSize - |s.live| == PendingCount(s);
    assert (PendingCount(s) + 1) * s.chunkSize == PendingCount(s) * s.chunkSize + s.chunkSize;
  }

  /** The sender buffers at most one chunk more than its window: the one being filled. */
  lemma OutboundBytesBounded(s: Sender)
    requires SenderOk(s)
    ensures HeldBytes(s.live.Keys, s.created) + |PendingBytes(s.pending)| + |s.buf| <= (s.windowSize + 1) * s.chunkSize
  {
    HeldBytesBounded(s.live.Keys, s.created, s.chunkSize);
    MulMonotone(|s.live| + PendingCount(s), s.windowSize, s.chunkSize);
    assert (|s.live| + PendingCount(s)) * s.chunkSize == |s.live| * s.chunkSize + PendingCount(s) * s.chunkSize;
    assert (s.windowSize + 1) * s.chunkSize == s.windowSize * s.chunkSize + s.chunkSize;
  }

  ghost function HeldBytes(ids: set<nat>, created: seq<Chunk>): nat
    requires forall id :: id in ids ==> id < |created|
    decreases ids
  {
    if ids == {} then 0
    else
      var id :| id in ids;
      |created[id].data| + HeldBytes(ids - {id}, created)
  }

  lemma {:induction false} HeldBytesBounded(ids: set<nat>, created: seq<Chunk>, chunkSize: nat)
    requires forall id :: id in ids ==> id < |created|
    requires forall i :: 0 <= i < |created| ==> |created[i].data| <= chunkSize
    ensures HeldBytes(ids, created) <= |ids| * chunkSize
    decreases ids
  {
    if ids == {} {
    } else {
      var id :| id in ids && HeldBytes(ids, created) == |created[id].data| + HeldBytes(ids - {id}, created);
      HeldBytesBounded(ids - {id}, created, chunkSize);
      assert (|ids| - 1) * chunkSize + chunkSize == |ids| * chunkSize;
    }
  }
}
