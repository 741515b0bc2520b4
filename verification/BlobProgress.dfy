/**
 * A blob transfer never gets stuck: from every state it can reach, as long as the stream has neither
 * failed nor been closed and the receiver keeps what it has stored, it can still be completed.
 */
module BlobProgress {
  import opened Common
  import opened BlobInbound
  import opened BlobSender
  import opened BlobOutbound
  import opened BlobTransfer

  // ---------------------------------------------------------------- ways on

  /** What the two ends do of themselves. Nothing more is written, and nothing fails or is given up. */
  predicate Helps(action: Action) {
    || action.Seal? || action.Lease? || action.MarkInflight? || action.LoseCallis? || action.TakeAck?
    || action.TakeComplete? || action.MakeRing? || action.FindRing? || action.InsertFrame? || action.AckLate?
    || action.StoreCompleted? || action.SendComplete? || action.Look?
  }

  ghost predicate Way(states: seq<Transfer>, actions: seq<Action>) {
    && |states| == |actions| + 1
    && forall i :: 0 <= i < |actions| ==> Helps(actions[i]) && Step(states[i], actions[i], states[i + 1])
  }

  ghost predicate Leads(a: Transfer, b: Transfer) {
    exists states, actions :: Way(states, actions) && states[0] == a && states[|actions|] == b
  }

  lemma LeadsBy(a: Transfer, action: Action, b: Transfer)
    requires Helps(action) && Step(a, action, b)
    ensures Leads(a, b)
  {
    hide Step;
    assert Way([a, b], [action]);
  }

  lemma LeadsNowhere(a: Transfer)
    ensures Leads(a, a)
  {
    assert Way([a], []);
  }

  lemma LeadsOn(a: Transfer, b: Transfer, c: Transfer)
    requires Leads(a, b) && Leads(b, c)
    ensures Leads(a, c)
  {
    hide Step, Helps;
    var s, p :| Way(s, p) && s[0] == a && s[|p|] == b;
    var t, q :| Way(t, q) && t[0] == b && t[|q|] == c;
    var states, actions := s + t[1..], p + q;
    forall i | 0 <= i < |actions| ensures Helps(actions[i]) && Step(states[i], actions[i], states[i + 1]) {
      if i >= |p| {
        assert states[i] == t[i - |p|] && states[i + 1] == t[i - |p| + 1] && actions[i] == q[i - |p|];
      }
    }
    assert Way(states, actions);
  }

  // ---------------------------------------------------------------- more that every run keeps

  /** Nothing is held back behind a full chunk, and the end was noticed only with everything in. */
  predicate Tidy(t: Transfer) {
    && (t.out.sender.pending.Some? ==> t.out.sender.buf == [])
    && (t.inbound.lastChunkId.Some? ==> AllExpected(t.inbound) && t.reported)
  }

  lemma LastMeansAll(r: Inbound, delivered: Bytes, created: seq<Chunk>, m: ChunkFrame)
    requires RecvOk(r, delivered, created) && FrameFits(created, m) && LastIsNewest(created) && r.lastChunkId == None
    requires Inserted(r, m.chunkId, m.data, m.isLast).lastChunkId.Some?
    ensures AllExpected(Inserted(r, m.chunkId, m.data, m.isLast)) && !IsDuplicate(r, m.chunkId)
    ensures InsertError(r, m.chunkId, m.data, m.isLast).None?
  {
    hide FirstMissing, Concat;
    assert m.isLast && m.chunkId == r.nextExpected;
    FirstMissingUnique(r.received[m.chunkId := m.data].Keys, m.chunkId, m.chunkId + 1);
  }

  lemma InsertTidy(a: Transfer, m: ChunkFrame)
    requires TransferOk(a) && Tidy(a) && m in a.found
    ensures Tidy(FrameInserted(a, m))
  {
    hide SenderOk, Stream, LeasesOk, Inserted, InsertError, Sealed, Unsealed, EndsInBytes, AllExpected, RecvOk;
    assert m in a.wire && FrameFits(a.out.sender.created, m);
    SealedOrNot(a.out);
    if a.inbound.lastChunkId.Some? {
      StaysExpected(a.inbound, a.delivered, a.out.sender.created, m);
    } else if Inserted(a.inbound, m.chunkId, m.data, m.isLast).lastChunkId.Some? {
      LastMeansAll(a.inbound, a.delivered, a.out.sender.created, m);
    }
  }

  lemma SendTidy(a: Transfer, action: Action, b: Transfer)
    requires Tidy(a) && SendStep(a, action, b)
    ensures Tidy(b)
  {
    hide SenderOk, Stream, AllExpected, Grew, LeasesOk;
  }

  lemma RecvTidy(a: Transfer, action: Action, b: Transfer)
    requires Tidy(a) && RecvStep(a, action, b) && !action.InsertFrame?
    ensures Tidy(b)
  {
    hide Looked, IsComplete, FrameInserted;
    LookLeaves(a);
  }

  lemma StepTidy(a: Transfer, action: Action, b: Transfer)
    requires TransferOk(a) && Tidy(a) && Step(a, action, b)
    ensures Tidy(b)
  {
    hide TransferOk, SendStep, FrameInserted, Looked, Tidy, IsComplete;
    if SendStep(a, action, b) {
      SendTidy(a, action, b);
    } else if action.InsertFrame? {
      InsertTidy(a, action.frame);
    } else {
      RecvTidy(a, action, b);
    }
  }

  lemma {:induction false} RunTidy(states: seq<Transfer>, actions: seq<Action>, n: nat)
    requires IsRun(states, actions) && n < |states|
    ensures Tidy(states[n])
  {
    hide Step, TransferOk, Tidy;
    if n == 0 {
      InitTidy(states[0]);
    } else {
      RunTidy(states, actions, n - 1);
      RunKeeps(states, actions, n - 1);
      StepTidy(states[n - 1], actions[n - 1], states[n]);
    }
  }

  lemma InitTidy(t: Transfer)
    requires Init(t)
    ensures Tidy(t)
  {
  }

  // ---------------------------------------------------------------- a transfer under way

  /** Neither failed nor closed, with a receiver that takes chunks of the sender's size and keeps them. */
  ghost predicate Going(t: Transfer) {
    && TransferOk(t) && Tidy(t)
    && !t.out.lifecycle.Failed? && !t.out.lifecycle.Closed?
    && (t.status == Active || t.status == RecentlyCompleted)
    && t.failure == None && t.out.sender.chunkSize <= t.inbound.chunkSize
  }

  lemma HelpKeepsSend(a: Transfer, action: Action, b: Transfer)
    requires SendStep(a, action, b) && Helps(action) && !a.out.lifecycle.Failed? && !a.out.lifecycle.Closed?
    ensures !b.out.lifecycle.Failed? && !b.out.lifecycle.Closed?
    ensures b == a.(out := b.out, acked := b.acked, wire := b.wire)
    ensures b.out.sender.chunkSize == a.out.sender.chunkSize
  {
  }

  lemma HelpKeepsRecv(a: Transfer, action: Action, b: Transfer)
    requires RecvStep(a, action, b) && Helps(action) && (a.status == Active || a.status == RecentlyCompleted)
    ensures b.status == a.status && b.out == a.out && b.accepted == a.accepted && b.failure == a.failure
    ensures b.inbound.chunkSize == a.inbound.chunkSize
  {
    hide FrameInserted, Looked, IsComplete;
    if action.InsertFrame? {
      InsertLeaves(a, action.frame);
    } else if action.Look? {
      LookLeaves(a);
    }
  }

  /** Whatever helps keeps a transfer going. */
  lemma Goes(a: Transfer, action: Action, b: Transfer)
    requires Going(a) && Helps(action) && Step(a, action, b)
    ensures Going(b) && Leads(a, b) && b.accepted == a.accepted
  {
    hide TransferOk, Tidy, SendStep, RecvStep, Leads;
    LeadsBy(a, action, b);
    StepKeeps(a, action, b);
    StepTidy(a, action, b);
    if SendStep(a, action, b) {
      HelpKeepsSend(a, action, b);
    } else {
      HelpKeepsRecv(a, action, b);
    }
  }

  // ---------------------------------------------------------------- reading

  /** Only the reader has moved; nothing that was stored is lost. */
  ghost predicate OnlyRead(t: Transfer, u: Transfer) {
    && u == t.(inbound := u.inbound, delivered := u.delivered, reader := u.reader)
    && u.inbound.nextExpected == t.inbound.nextExpected && u.inbound.lastChunkId == t.inbound.lastChunkId
    && (forall id :: StoredAt(t.inbound, id) <==> StoredAt(u.inbound, id))
  }

  /** How many looks it takes at most until the reader looks into the ring. */
  function LooksLeft(phase: ReaderPhase): nat {
    match phase
    case RingSeen => 0
    case NoErrorSeen => 1
    case Idle | Told(_) => 2
    case FlagSeen | StillNoError => 3
    case NothingNext | RingMissing => 4
  }

  lemma LookOnlyReads(t: Transfer)
    requires TransferOk(t)
    ensures Step(t, Look, Looked(t)) && OnlyRead(t, Looked(t))
  {
    hide SendStep, Looked, SendOk, AnswersOk, ChunksOk, RecvOk;
    assert RecvStep(t, Look, Looked(t));
    LookLeaves(t);
    LookKeepsStored(t);
  }

  lemma LookKeepsStored(t: Transfer)
    requires RecvOk(t.inbound, t.delivered, t.out.sender.created)
    ensures forall id :: StoredAt(t.inbound, id) <==> StoredAt(Looked(t).inbound, id)
  {
    hide RecvOk, Taken, IsComplete;
    if t.reader == RingSeen && t.inbound.nextDeliver in t.inbound.received {
      TakenRecv(t.inbound, t.delivered, t.out.sender.created);
    }
  }

  lemma LookComesNearer(t: Transfer)
    requires InboundOk(t.inbound) && t.status == Active && t.failure == None
    requires t.inbound.nextDeliver < t.inbound.nextExpected
    ensures var u := Looked(t);
      if t.reader == RingSeen then u.inbound.nextDeliver == t.inbound.nextDeliver + 1
      else u.inbound.nextDeliver == t.inbound.nextDeliver && LooksLeft(u.reader) < LooksLeft(t.reader)
  {
    hide IsComplete;
  }

  lemma GoingParts(t: Transfer)
    requires Going(t)
    ensures TransferOk(t) && InboundOk(t.inbound) && t.failure == None
    ensures t.inbound.nextDeliver <= t.inbound.nextExpected
    ensures t.status == RecentlyCompleted ==> t.inbound.nextDeliver == t.inbound.nextExpected
  {
    if t.status == RecentlyCompleted {
      LastReached(t.out.sender, t.inbound, t.delivered);
    }
  }

  /** The reader can take everything up to the first missing chunk. */
  lemma {:induction false} CanReadOn(t: Transfer) returns (u: Transfer)
    requires Going(t)
    ensures Going(u) && Leads(t, u) && OnlyRead(t, u) && u.inbound.nextDeliver == u.inbound.nextExpected
    decreases t.inbound.nextExpected - t.inbound.nextDeliver, LooksLeft(t.reader)
  {
    hide Going, Step, Looked, Leads, TransferOk, StoredAt, InboundOk;
    GoingParts(t);
    if t.inbound.nextDeliver == t.inbound.nextExpected {
      u := t;
      LeadsNowhere(t);
    } else {
      GoingStatus(t);
      LookOnlyReads(t);
      LookComesNearer(t);
      Goes(t, Look, Looked(t));
      u := CanReadOn(Looked(t));
      LeadsOn(t, Looked(t), u);
    }
  }

  lemma GoingStatus(t: Transfer)
    requires Going(t)
    ensures t.status == Active || t.status == RecentlyCompleted
    ensures !t.out.lifecycle.Failed? && !t.out.lifecycle.Closed?
  {
  }

  function LooksToEnd(phase: ReaderPhase): nat {
    match phase
    case Told(EndOfBlob) => 0
    case FlagSeen => 1
    case NothingNext | StillNoError => 2
    case RingSeen | RingMissing => 3
    case NoErrorSeen => 4
    case Idle | Told(_) => 5
  }

  lemma LookEndsSooner(t: Transfer)
    requires InboundOk(t.inbound) && t.failure == None && t.completed && IsComplete(t.inbound)
    requires t.inbound.nextDeliver == t.inbound.nextExpected && t.reader != Told(EndOfBlob)
    ensures Looked(t) == t.(reader := Looked(t).reader) && LooksToEnd(Looked(t).reader) < LooksToEnd(t.reader)
  {
  }

  /** With everything read and the flag set, the reader is told of the end. */
  lemma {:induction false} CanBeToldTheEnd(t: Transfer) returns (u: Transfer)
    requires Going(t) && t.completed && IsComplete(t.inbound) && t.inbound.nextDeliver == t.inbound.nextExpected
    ensures Going(u) && Leads(t, u) && u == t.(reader := Told(EndOfBlob))
    decreases LooksToEnd(t.reader)
  {
    hide Going, Step, Looked, Leads, TransferOk, InboundOk, IsComplete;
    if t.reader == Told(EndOfBlob) {
      u := t;
      LeadsNowhere(t);
    } else {
      GoingParts(t);
      LookOnlyReads(t);
      LookEndsSooner(t);
      Goes(t, Look, Looked(t));
      u := CanBeToldTheEnd(Looked(t));
      LeadsOn(t, Looked(t), u);
    }
  }

  // ---------------------------------------------------------------- one chunk, from its lease to its answer

  lemma {:induction false} Lowest(ids: set<nat>) returns (least: nat)
    requires ids != {}
    ensures least in ids && forall id :: id in ids ==> least <= id
    decreases ids
  {
    var id :| id in ids;
    if ids == {id} {
      least := id;
    } else {
      var rest := Lowest(ids - {id});
      least := if id < rest then id else rest;
      assert forall other :: other in ids ==> other == id || other in ids - {id};
    }
  }

  lemma UnusedNumber(wire: set<ChunkFrame>) returns (p: PeerMessageId)
    ensures UnusedId(wire, p)
    decreases wire
  {
    p := AboveAll(wire);
  }

  lemma {:induction false} AboveAll(wire: set<ChunkFrame>) returns (p: PeerMessageId)
    ensures forall m :: m in wire ==> m.peerMsgId < p
    decreases wire
  {
    if wire == {} {
      p := 0;
    } else {
      var m :| m in wire;
      var q := AboveAll(wire - {m});
      p := if q <= m.peerMsgId then m.peerMsgId + 1 else q;
      assert forall n :: n in wire ==> n == m || n in wire - {m};
    }
  }

  function OfferedIds(s: Sender): set<nat> {
    set id | id in s.live && !IsLeased(s.live[id])
  }

  /** Some chunk can be leased while one is offered. */
  lemma SomeLease(s: Sender, callis: CallisId, p: PeerMessageId) returns (l: ChunkWriteLease)
    requires OfferedIds(s) != {} && forall id :: id in s.live ==> id < |s.created|
    ensures LeaseStep(s, callis, p, Some(l), Leased(s, l)) && l.chunkId in OfferedIds(s) && l.peerMsgId == p
    ensures s.created[l.chunkId] == Chunk(l.data, l.isLast)
  {
    var again := !NothingOffered(s, true);
    var ids := set id | id in s.live && Offered(s.live[id], again);
    var some :| some in OfferedIds(s);
    if again {
      var other :| other in s.live && Offered(s.live[other], true);
      assert other in ids;
    } else {
      assert some in ids;
    }
    var id := Lowest(ids);
    l := LeaseOf(s, id, callis, p);
    assert forall other :: other in s.live && Offered(s.live[other], again) ==> other in ids;
    assert IsNextChunk(s, again, id);
  }

  /** The chunk has been given to the network under a message id, and is being written. */
  predicate BeingWritten(t: Transfer, id: nat, l: ChunkWriteLease) {
    && l.chunkId == id && id in t.out.sender.live
    && t.out.sender.live[id] == Writing(l.peerMsgId, l.callis, l.slotSeq)
    && id < |t.out.sender.created| && t.out.sender.created[id] == Chunk(l.data, l.isLast) && FrameOf(l) in t.wire
  }

  /** Only states of chunks have changed at the sending end. */
  predicate OnlyLeased(t: Transfer, u: Transfer) {
    && u == t.(out := t.out.(sender := u.out.sender), wire := u.wire)
    && u.out.sender == t.out.sender.(live := u.out.sender.live) && u.out.sender.live.Keys == t.out.sender.live.Keys
  }

  lemma LeaseMoves(t: Transfer, p: PeerMessageId) returns (l: ChunkWriteLease, u: Transfer)
    requires Going(t) && UnusedId(t.wire, p) && OfferedIds(t.out.sender) != {}
    ensures Step(t, Lease(0, p, Some(l)), u) && OnlyLeased(t, u) && BeingWritten(u, l.chunkId, l)
    ensures l.chunkId in OfferedIds(t.out.sender) && OfferedIds(u.out.sender) == OfferedIds(t.out.sender) - {l.chunkId}
  {
    hide RecvOk, AnswersOk, ChunksOk, Tidy, Stream, SealOk, WireOk, LeasesOk, LeaseStep;
    l := SomeLease(t.out.sender, 0, p);
    u := t.(out := t.out.(sender := Leased(t.out.sender, l)), wire := t.wire + {FrameOf(l)});
    assert SendStep(t, Lease(0, p, Some(l)), u);
  }

  /** An offered chunk can be given to a connection, after those that go before it. */
  lemma {:induction false} CanLease(t: Transfer, id: nat) returns (u: Transfer, l: ChunkWriteLease)
    requires Going(t) && id in OfferedIds(t.out.sender)
    ensures Going(u) && Leads(t, u) && OnlyLeased(t, u) && BeingWritten(u, id, l)
    decreases OfferedIds(t.out.sender)
  {
    hide Going, Step, Leads, OfferedIds, UnusedId;
    var p := UnusedNumber(t.wire);
    var m: ChunkWriteLease;
    m, u := LeaseMoves(t, p);
    Goes(t, Lease(0, p, Some(m)), u);
    l := m;
    if m.chunkId != id {
      var v: Transfer;
      v, l := CanLease(u, id);
      LeadsOn(t, u, v);
      u := v;
    }
  }

  lemma LossOffers(t: Transfer, id: nat) returns (u: Transfer)
    requires Going(t) && id in t.out.sender.live && IsLeased(t.out.sender.live[id])
    ensures Step(t, LoseCallis(t.out.sender.live[id].callis), u) && OnlyLeased(t, u) && id in OfferedIds(u.out.sender)
  {
    hide Going, TransferOk;
    var c := t.out.sender.live[id].callis;
    u := t.(out := t.out.(sender := CallisLost(t.out.sender, c)));
    assert SendStep(t, LoseCallis(c), u);
  }

  /** A live chunk can be brought to the network, under a new message id, whatever has become of it before. */
  lemma CanWrite(t: Transfer, id: nat) returns (u: Transfer, l: ChunkWriteLease)
    requires Going(t) && id in t.out.sender.live
    ensures Going(u) && Leads(t, u) && OnlyLeased(t, u) && BeingWritten(u, id, l)
  {
    hide Going, Step, Leads;
    if IsLeased(t.out.sender.live[id]) {
      var v := LossOffers(t, id);
      Goes(t, LoseCallis(t.out.sender.live[id].callis), v);
      u, l := CanLease(v, id);
      LeadsOn(t, v, u);
    } else {
      u, l := CanLease(t, id);
    }
  }

  lemma MarkMoves(t: Transfer, id: nat, l: ChunkWriteLease) returns (u: Transfer)
    requires BeingWritten(t, id, l)
    ensures Step(t, MarkInflight(l), u) && OnlyLeased(t, u) && FrameOf(l) in u.wire
    ensures u.out.sender.live[id] == InFlight(l.peerMsgId, l.callis, l.slotSeq)
  {
    u := t.(out := t.out.(sender := MarkedInFlight(t.out.sender, l)));
    assert SendStep(t, MarkInflight(l), u);
  }

  /** The receiver lets the chunk in: it has it already, or it is the one missing first and all else was read. */
  predicate Welcome(t: Transfer, id: nat) {
    StoredAt(t.inbound, id) || (id == t.inbound.nextExpected == t.inbound.nextDeliver)
  }

  lemma WelcomeIsAccepted(t: Transfer, m: ChunkFrame)
    requires Going(t) && m in t.wire && Welcome(t, m.chunkId)
    ensures InsertError(t.inbound, m.chunkId, m.data, m.isLast).None?
  {
    hide SealOk, LeasesOk, Stream, Concat, AnswersOk, ChunksOk, Tidy, FirstMissing;
    assert FrameFits(t.out.sender.created, m) && |m.data| <= t.inbound.chunkSize;
    if !StoredAt(t.inbound, m.chunkId) {
      MissingChunkFits(t.inbound, m.data, m.isLast);
    }
  }

  /** Only the receiving ring and its answers have changed. */
  predicate OnlyAnswered(t: Transfer, u: Transfer) {
    u == t.(inbound := u.inbound, found := u.found, acks := u.acks, reported := u.reported)
  }

  lemma ArrivalMoves(t: Transfer, m: ChunkFrame) returns (v: Transfer, u: Transfer)
    requires Going(t) && t.status == Active && m in t.wire && Welcome(t, m.chunkId)
    ensures Step(t, FindRing(m), v) && Step(v, InsertFrame(m), u)
    ensures OnlyAnswered(t, u) && m.peerMsgId in u.acks
  {
    hide Going, SendStep, Inserted, InsertError;
    WelcomeIsAccepted(t, m);
    v := t.(found := t.found + {m});
    assert RecvStep(t, FindRing(m), v);
    u := FrameInserted(v, m);
    assert RecvStep(v, InsertFrame(m), u);
  }

  lemma LateMoves(t: Transfer, m: ChunkFrame) returns (u: Transfer)
    requires t.status == RecentlyCompleted && m in t.wire
    ensures Step(t, AckLate(m), u) && OnlyAnswered(t, u) && m.peerMsgId in u.acks
  {
    hide SendStep;
    u := t.(acks := t.acks + {m.peerMsgId});
    assert RecvStep(t, AckLate(m), u);
  }

  /** A frame that is welcome can be acknowledged. */
  lemma CanArrive(t: Transfer, m: ChunkFrame) returns (u: Transfer)
    requires Going(t) && m in t.wire && Welcome(t, m.chunkId)
    ensures Going(u) && Leads(t, u) && OnlyAnswered(t, u) && m.peerMsgId in u.acks
  {
    hide Going, Step, Leads, Welcome;
    GoingStatus(t);
    if t.status == Active {
      var v: Transfer;
      v, u := ArrivalMoves(t, m);
      Goes(t, FindRing(m), v);
      Goes(v, InsertFrame(m), u);
      LeadsOn(t, v, u);
    } else {
      u := LateMoves(t, m);
      Goes(t, AckLate(m), u);
    }
  }

  lemma AckMoves(t: Transfer, id: nat, p: PeerMessageId) returns (u: Transfer)
    requires Going(t) && p in t.acks && id in t.out.sender.live && AwaitsAnswer(t.out.sender.live[id], p)
    ensures Step(t, TakeAck(p), u) && u == t.(out := u.out, acked := u.acked)
    ensures u.out == t.out.(sender := t.out.sender.(live := u.out.sender.live))
    ensures |u.out.sender.live| < |t.out.sender.live|
  {
    hide Going, TransferOk;
    u := t.(out := AckNoted(t.out, p), acked := t.acked + AnsweredBy(t.out.sender, p));
    assert SendStep(t, TakeAck(p), u);
    FewerLive(t.out.sender.live, AnsweredBy(t.out.sender, p), id);
  }

  lemma FewerLive(live: map<nat, ChunkState>, gone: set<nat>, id: nat)
    requires id in live && id in gone
    ensures |live - gone| < |live|
  {
    SmallerSet((live - gone).Keys, live.Keys, id);
    assert |(live - gone).Keys| == |live - gone| && |live.Keys| == |live|;
  }

  lemma {:induction false} SmallerSet(a: set<nat>, b: set<nat>, id: nat)
    requires a <= b && id in b && id !in a
    ensures |a| < |b|
    decreases a
  {
    if a == {} {
    } else {
      var x :| x in a;
      SmallerSet(a - {x}, b - {x}, id);
    }
  }

  /** What changes while chunks are written and answered: neither the bytes nor the life of the stream. */
  predicate SameStream(t: Transfer, u: Transfer) {
    && u.out.lifecycle == t.out.lifecycle && u.accepted == t.accepted
    && u.out.sender == t.out.sender.(live := u.out.sender.live)
  }

  /** A chunk that is welcome can be written, stored and acknowledged. */
  lemma CanFinishChunk(t: Transfer, id: nat) returns (u: Transfer)
    requires Going(t) && id in t.out.sender.live && Welcome(t, id)
    ensures Going(u) && Leads(t, u) && SameStream(t, u) && |u.out.sender.live| < |t.out.sender.live|
  {
    hide Going, Step, Leads, StoredAt;
    var v, l := CanWrite(t, id);
    var w := MarkMoves(v, id, l);
    Goes(v, MarkInflight(l), w);
    LeadsOn(t, v, w);
    var x := CanArrive(w, FrameOf(l));
    LeadsOn(t, w, x);
    u := AckMoves(x, id, l.peerMsgId);
    Goes(x, TakeAck(l.peerMsgId), u);
    LeadsOn(t, x, u);
    assert |x.out.sender.live.Keys| == |t.out.sender.live.Keys|;
  }

  /** Of the live chunks one is always welcome once all that can be read was read. */
  lemma SomeoneIsWelcome(t: Transfer) returns (id: nat)
    requires Going(t) && t.out.sender.live != map[] && t.inbound.nextDeliver == t.inbound.nextExpected
    ensures id in t.out.sender.live && Welcome(t, id)
  {
    hide Stream, Concat, WireOk, LeasesOk, AnswersOk, Tidy, SealOk;
    var some :| some in t.out.sender.live;
    if StoredAt(t.inbound, some) {
      id := some;
    } else {
      id := t.inbound.nextExpected;
      assert id <= some < |t.out.sender.created|;
      assert !StoredAt(t.inbound, id);
    }
  }

  /** Every chunk that awaits its answer can get it. */
  lemma {:induction false} CanFinishChunks(t: Transfer) returns (u: Transfer)
    requires Going(t)
    ensures Going(u) && Leads(t, u) && SameStream(t, u) && u.out.sender.live == map[]
    decreases |t.out.sender.live|
  {
    hide Going, Step, Leads, StoredAt, Welcome;
    if t.out.sender.live == map[] {
      u := t;
      LeadsNowhere(t);
    } else {
      var v := CanReadOn(t);
      var id := SomeoneIsWelcome(v);
      var w := CanFinishChunk(v, id);
      LeadsOn(t, v, w);
      u := CanFinishChunks(w);
      LeadsOn(t, w, u);
    }
  }

  // ---------------------------------------------------------------- the end

  lemma SealMoves(t: Transfer) returns (u: Transfer)
    requires Going(t) && t.out.sender.live == map[] && (t.out.lifecycle.Open? || t.out.lifecycle.Sealing?)
    ensures Step(t, Seal(Ok(true)), u) && u.out.lifecycle == AwaitingComplete
  {
    hide RecvOk, AnswersOk, ChunksOk, Stream, SealOk, WireOk, LeasesOk, Enqueued;
    u := t.(out := SealAttempt(t.out).1);
    assert SendStep(t, Seal(Ok(true)), u);
  }

  /** The final chunk can be made and answered, together with all others. */
  lemma CanSeal(t: Transfer) returns (u: Transfer)
    requires Going(t)
    ensures Going(u) && Leads(t, u) && u.accepted == t.accepted && u.out.sender.live == map[]
    ensures u.out.lifecycle.AwaitingComplete? || u.out.lifecycle.Completed?
  {
    hide Going, Step, Leads;
    u := CanFinishChunks(t);
    GoingStatus(u);
    if u.out.lifecycle.Open? || u.out.lifecycle.Sealing? {
      var v := SealMoves(u);
      Goes(u, Seal(Ok(true)), v);
      LeadsOn(t, u, v);
      u := CanFinishChunks(v);
      LeadsOn(t, v, u);
    }
  }

  /** With every chunk answered and the last one made, the receiver has everything, and has said so. */
  lemma AllIn(t: Transfer)
    requires Going(t) && t.out.sender.live == map[]
    requires t.out.lifecycle.AwaitingComplete? || t.out.lifecycle.Completed?
    ensures AllExpected(t.inbound) && t.reported && t.out.sender.pending == None
  {
    hide SenderOk, Stream, Concat, WireOk, LeasesOk, InboundOk;
    if t.out.lifecycle.Completed? {
      AllStored(t);
    }
    var last := |t.out.sender.created| - 1;
    assert last in t.acked && StoredAt(t.inbound, last);
  }

  lemma ConfirmMoves(t: Transfer) returns (u: Transfer, v: Transfer, w: Transfer)
    requires t.reported && !t.out.lifecycle.Failed?
    ensures Step(t, StoreCompleted, u) && Step(u, SendComplete, v) && Step(v, TakeComplete, w)
    ensures w == t.(completed := true, completeSent := true, out := t.out.(lifecycle := Completed))
  {
    u := t.(completed := true);
    v := u.(completeSent := true);
    w := v.(out := v.out.(lifecycle := Completed));
    assert RecvStep(t, StoreCompleted, u) && RecvStep(u, SendComplete, v) && SendStep(v, TakeComplete, w);
  }

  /** The sender can be told that the receiver has everything. */
  lemma CanConfirm(t: Transfer) returns (u: Transfer)
    requires Going(t) && t.reported
    ensures Going(u) && Leads(t, u)
    ensures u == t.(completed := true, completeSent := true, out := t.out.(lifecycle := Completed))
  {
    hide Going, Step, Leads;
    GoingStatus(t);
    var v, w: Transfer;
    v, w, u := ConfirmMoves(t);
    Goes(t, StoreCompleted, v);
    Goes(v, SendComplete, w);
    LeadsOn(t, v, w);
    Goes(w, TakeComplete, u);
    LeadsOn(t, w, u);
  }

  /** The sender is told of success, and the reader has read everything and is told of the end. */
  ghost predicate Done(t: Transfer) {
    CompletionVerdict(t.out) == Some(Ok(Unit)) && t.delivered == t.accepted && t.reader == Told(EndOfBlob)
  }

  lemma CanBeDone(t: Transfer) returns (u: Transfer)
    requires Going(t)
    ensures Leads(t, u) && Done(u) && u.accepted == t.accepted
  {
    hide Going, Step, Leads, StoredAt;
    var sealed := CanSeal(t);
    AllIn(sealed);
    var told := CanConfirm(sealed);
    LeadsOn(t, sealed, told);
    var read := CanReadOn(told);
    LeadsOn(t, told, read);
    assert IsComplete(read.inbound);
    u := CanBeToldTheEnd(read);
    LeadsOn(t, read, u);
    DeliveredAll(u);
  }

  lemma DeliveredAll(t: Transfer)
    requires Going(t) && IsComplete(t.inbound)
    ensures t.delivered == t.accepted
  {
    hide TransferOk;
    PrefixDelivered(t);
  }

  /**
   * Every run can be continued to a good end, unless the stream has failed or was closed, the receiver
   * has failed, lost its ring or takes only smaller chunks. Nothing more needs to be written for it: all
   * bytes accepted so far are read, the reader is told of the end, and the sender of success.
   */
  lemma CanComplete(states: seq<Transfer>, actions: seq<Action>) returns (longer: seq<Transfer>, more: seq<Action>)
    requires IsRun(states, actions)
    requires var t := states[|actions|];
      && !t.out.lifecycle.Failed? && !t.out.lifecycle.Closed?
      && t.status != Gone && t.failure == None && t.out.sender.chunkSize <= t.inbound.chunkSize
    ensures IsRun(longer, more) && states <= longer && actions <= more
    ensures forall i :: |actions| <= i < |more| ==> Helps(more[i])
    ensures Done(longer[|more|]) && longer[|more|].accepted == states[|actions|].accepted
  {
    hide Step, Init, TransferOk, Done, Helps;
    var n := |actions|;
    RunKeeps(states, actions, n);
    RunTidy(states, actions, n);
    var t := states[n];
    var start := RingThere(t);
    var u := CanBeDone(start);
    LeadsOn(t, start, u);
    var s, p :| Way(s, p) && s[0] == t && s[|p|] == u;
    longer, more := Continued(states, actions, s, p);
  }

  lemma Continued(states: seq<Transfer>, actions: seq<Action>, s: seq<Transfer>, p: seq<Action>)
      returns (longer: seq<Transfer>, more: seq<Action>)
    requires IsRun(states, actions) && Way(s, p) && s[0] == states[|actions|]
    ensures IsRun(longer, more) && states <= longer && actions <= more
    ensures forall i :: |actions| <= i < |more| ==> Helps(more[i])
    ensures longer[|more|] == s[|p|]
  {
    hide Step, Init, Helps;
    var n := |actions|;
    longer, more := states + s[1..], actions + p;
    forall i | 0 <= i < |more| ensures Step(longer[i], more[i], longer[i + 1]) && (i >= n ==> Helps(more[i])) {
      if i >= n {
        assert longer[i] == s[i - n] && longer[i + 1] == s[i - n + 1] && more[i] == p[i - n];
      } else {
        assert longer[i] == states[i] && longer[i + 1] == states[i + 1] && more[i] == actions[i];
      }
    }
  }

  lemma RingThere(t: Transfer) returns (u: Transfer)
    requires TransferOk(t) && Tidy(t) && !t.out.lifecycle.Failed? && !t.out.lifecycle.Closed?
    requires t.status != Gone && t.failure == None && t.out.sender.chunkSize <= t.inbound.chunkSize
    ensures Going(u) && Leads(t, u) && u.accepted == t.accepted
  {
    hide TransferOk, SendStep;
    if t.status == Awaited {
      u := t.(status := Active);
      assert RecvStep(t, MakeRing, u);
      StepKeeps(t, MakeRing, u);
      LeadsBy(t, MakeRing, u);
    } else {
      u := t;
      LeadsNowhere(t);
    }
  }
}
