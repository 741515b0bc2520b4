/**
 * The life of one retained item, told from the operations alone: what was admitted, when it waits to
 * be sent, when it leaves and what its sender is told.
 */
module RetainedLife {
  import opened Common
  import opened RetainedTypes
  import opened RetainedSpec
  import opened RetainedRuns

  // ---------------------------------------------------------------- operations about one item

  predicate Claims(op: Op, s: nat) {
    op.ClaimNext? && op.claimed.Some? && op.claimed.value.identity.seqNo == s
  }

  predicate Admits(op: Op) {
    match op
    case InsertAck(_, _, _, out) => out.Inserted?
    case InsertError(_, _, _, _, out) => out.Inserted?
    case InsertTracked(_, _, _, out) => out.Ok?
    case _ => false
  }

  predicate SameLease(c: RetainedClaim, d: RetainedClaim) {
    c.slot == d.slot && c.identity == d.identity && c.callis == d.callis
  }

  /** The connection that was given `c` reports how writing it ended. */
  predicate Reports(op: Op, c: RetainedClaim, succeeded: bool) {
    op.CompleteWrite? && SameLease(op.claim, c) && op.succeeded == succeeded
  }

  /** The operation makes the item of claim `c` wait again. A write reported as done cannot fail any more. */
  predicate SendsBack(op: Op, c: RetainedClaim, written: bool) {
    || (Reports(op, c, false) && !written)
    || (op == MarkCallisReplayReady(c.callis) && !c.identity.kind.AckKind?)
    || (op.MarkAllTrackedReplayReady? && c.identity.kind.TrackedKind?)
    || (op.MarkTrackedReplayReady? && c.identity.kind.TrackedKind? && c.identity.peerMsgId in op.ids)
  }

  /** The operation takes out an item of this kind, whatever state it is in. */
  predicate Removes(op: Op, item: RetainedItem, deadline: Instant) {
    match op
    case AckReceived(id, _) => item.TrackedItem? && item.tracked.message.peerMsgId == id
    case FailOne(id, _, _) => item.TrackedItem? && item.tracked.message.peerMsgId == id
    case FailAll(_, _) => item.TrackedItem?
    case FailNonA1(_, _) => item.TrackedItem?
    case BeginShutdown(_, _) => item.TrackedItem?
    case ExpireDue(now, _) => deadline <= now
    case DropResponses => !item.TrackedItem?
    case _ => false
  }

  // ---------------------------------------------------------------- one step of one item

  /** The entry is the one the claim was made for. */
  predicate ClaimFits(c: RetainedClaim, s: nat, e: Entry) {
    c.slot == e.slot && c.identity == ItemIdentity(e.item.PeerMsgId(), s, e.item.Kind())
  }

  function WaitState(item: RetainedItem, callis: CallisId): SlotState {
    if item.TrackedItem? then ReplayReady(callis) else Ready
  }

  /** The state a claimed item is in, given what has been reported about the claim. */
  predicate StateAfter(e: Entry, c: RetainedClaim, written: bool, back: bool) {
    if back then e.state == WaitState(e.item, c.callis)
    else if written then e.item.TrackedItem? && e.state == Inflight(c.callis)
    else e.state == Writing(c.callis)
  }

  lemma WriteMovesEntry(a: Store, op: Op, b: Store, s: nat, c: RetainedClaim, written: bool, back: bool)
    requires op.CompleteWrite? && Step(a, op, b) && s in a.entries && s in b.entries
    requires ClaimFits(c, s, a.entries[s]) && StateAfter(a.entries[s], c, written, back)
    ensures ClaimFits(c, s, b.entries[s])
    ensures StateAfter(b.entries[s], c, written || Reports(op, c, true), back || SendsBack(op, c, written))
  {
  }

  lemma CallisMovesEntry(a: Store, op: Op, b: Store, s: nat, c: RetainedClaim, written: bool, back: bool)
    requires op.MarkCallisReplayReady? && Step(a, op, b) && s in a.entries && s in b.entries && EntryOk(a, s)
    requires ClaimFits(c, s, a.entries[s]) && StateAfter(a.entries[s], c, written, back)
    ensures ClaimFits(c, s, b.entries[s])
    ensures StateAfter(b.entries[s], c, written, back || SendsBack(op, c, written))
  {
    assert CallisLostEntry(a.entries[s], op.callis, b.entries[s]);
  }

  lemma MarkMovesEntry(a: Store, op: Op, b: Store, s: nat, c: RetainedClaim, written: bool, back: bool)
    requires (op.MarkAllTrackedReplayReady? || op.MarkTrackedReplayReady?) && Step(a, op, b)
    requires s in a.entries && s in b.entries
    requires ClaimFits(c, s, a.entries[s]) && StateAfter(a.entries[s], c, written, back)
    ensures ClaimFits(c, s, b.entries[s])
    ensures StateAfter(b.entries[s], c, written, back || SendsBack(op, c, written))
  {
  }

  lemma OtherLeavesEntry(a: Store, op: Op, b: Store, s: nat)
    requires Inv(a) && Step(a, op, b) && s in a.entries && s in b.entries && !Claims(op, s)
    requires !op.CompleteWrite? && !op.MarkCallisReplayReady?
    requires !op.MarkAllTrackedReplayReady? && !op.MarkTrackedReplayReady?
    ensures b.entries[s] == a.entries[s]
  {
    SeqsBelowNext(a);
  }

  lemma StepMovesEntry(a: Store, op: Op, b: Store, s: nat, c: RetainedClaim, written: bool, back: bool)
    requires Inv(a) && Step(a, op, b) && s in a.entries && s in b.entries && !Claims(op, s)
    requires ClaimFits(c, s, a.entries[s]) && StateAfter(a.entries[s], c, written, back)
    ensures ClaimFits(c, s, b.entries[s])
    ensures StateAfter(b.entries[s], c, written || Reports(op, c, true), back || SendsBack(op, c, written))
  {
    hide Step, StateAfter, ClaimFits;
    if op.CompleteWrite? {
      WriteMovesEntry(a, op, b, s, c, written, back);
    } else if op.MarkCallisReplayReady? {
      CallisMovesEntry(a, op, b, s, c, written, back);
    } else if op.MarkAllTrackedReplayReady? || op.MarkTrackedReplayReady? {
      MarkMovesEntry(a, op, b, s, c, written, back);
    } else {
      OtherLeavesEntry(a, op, b, s);
    }
  }

  // ---------------------------------------------------------------- what has happened since a claim

  predicate WrittenBy(ops: seq<Op>, i: nat, n: nat, c: RetainedClaim)
    requires n <= |ops|
  {
    exists k :: i < k < n && Reports(ops[k], c, true)
  }

  predicate SentBackBy(ops: seq<Op>, i: nat, n: nat, c: RetainedClaim)
    requires n <= |ops|
  {
    exists k :: i < k < n && SendsBack(ops[k], c, WrittenBy(ops, i, k, c))
  }

  lemma OneMore(ops: seq<Op>, i: nat, n: nat, c: RetainedClaim)
    requires i < n < |ops|
    ensures WrittenBy(ops, i, n + 1, c) <==> WrittenBy(ops, i, n, c) || Reports(ops[n], c, true)
    ensures SentBackBy(ops, i, n + 1, c)
      <==> SentBackBy(ops, i, n, c) || SendsBack(ops[n], c, WrittenBy(ops, i, n, c))
  {
    hide Reports, SendsBack;
    if WrittenBy(ops, i, n, c) {
      var k :| i < k < n && Reports(ops[k], c, true);
      assert i < k < n + 1;
    }
    if SentBackBy(ops, i, n, c) {
      var k :| i < k < n && SendsBack(ops[k], c, WrittenBy(ops, i, k, c));
      assert i < k < n + 1;
    }
  }

  /** The last time the item was handed to a connection, before `n`, was at `i`. */
  predicate LastClaim(ops: seq<Op>, i: nat, n: nat, s: nat)
    requires n <= |ops|
  {
    i < n && Claims(ops[i], s) && forall k :: i < k < n ==> !Claims(ops[k], s)
  }

  predicate NeverClaimed(ops: seq<Op>, n: nat, s: nat)
    requires n <= |ops|
  {
    forall k :: 0 <= k < n ==> !Claims(ops[k], s)
  }

  /** The state of a claimed item follows from what happened since its last claim. */
  lemma {:induction false} StateFromHistory(stores: seq<Store>, ops: seq<Op>, i: nat, n: nat, s: nat)
    requires IsRun(stores, ops) && n <= |ops| && LastClaim(ops, i, n, s) && s in stores[n].entries
    ensures ClaimFits(ops[i].claimed.value, s, stores[n].entries[s])
    ensures var c := ops[i].claimed.value;
      StateAfter(stores[n].entries[s], c, WrittenBy(ops, i, n, c), SentBackBy(ops, i, n, c))
    decreases n
  {
    hide Step, StateAfter, ClaimFits, Reports, SendsBack, WrittenBy, SentBackBy;
    var c := ops[i].claimed.value;
    RunKeepsInv(stores, ops, n - 1);
    if n == i + 1 {
      ClaimedEntry(stores[i], ops[i], stores[n], s);
      NothingYet(ops, i, c);
    } else {
      SeqStaysOut(stores, ops, n - 1, s, i);
      StateFromHistory(stores, ops, i, n - 1, s);
      OneMore(ops, i, n - 1, c);
      StepMovesEntry(stores[n - 1], ops[n - 1], stores[n], s, c, WrittenBy(ops, i, n - 1, c),
                     SentBackBy(ops, i, n - 1, c));
    }
  }

  lemma NothingYet(ops: seq<Op>, i: nat, c: RetainedClaim)
    requires i < |ops|
    ensures !WrittenBy(ops, i, i + 1, c) && !SentBackBy(ops, i, i + 1, c)
  {
  }

  lemma ClaimedEntry(a: Store, op: Op, b: Store, s: nat)
    requires Step(a, op, b) && Claims(op, s)
    ensures s in a.entries && s in b.entries && ClaimFits(op.claimed.value, s, b.entries[s])
    ensures StateAfter(b.entries[s], op.claimed.value, false, false)
  {
  }

  /** An item that is live now, and was claimed before, was live in between. */
  lemma SeqStaysOut(stores: seq<Store>, ops: seq<Op>, n: nat, s: nat, i: nat)
    requires IsRun(stores, ops) && i <= n < |ops| && Claims(ops[i], s) && s in stores[n + 1].entries
    ensures s in stores[n].entries
  {
    RunKeepsInv(stores, ops, i);
    assert Step(stores[i], ops[i], stores[i + 1]);
    SeqsBelowNext(stores[i]);
    RunEvolves(stores, ops, i, n);
    RunEvolves(stores, ops, n, n + 1);
  }

  // ---------------------------------------------------------------- what was admitted

  /** The entry is what the operation put in: item, deadline and the lane of its class. */
  predicate AdmittedAs(op: Op, e: Entry) {
    match op
    case InsertAck(id, deadline, _, _) => e.item == AckItem(id) && e.deadline == deadline && e.slot.lane == A1Ack
    case InsertError(id, frame, deadline, _, _) =>
      e.item == ErrorItem(id, frame) && e.deadline == deadline && e.slot.lane == A1Error
    case InsertTracked(t, deadline, _, _) =>
      && e.item == TrackedItem(t) && e.deadline == deadline && 0xFFFF < t.message.msgType
      && e.slot.lane == if t.message.msgType <= 0xFF_FFFF then A2 else A3
    case _ => false
  }

  lemma AdmissionMakesEntry(a: Store, op: Op, b: Store, s: nat)
    requires Inv(a) && Step(a, op, b) && s in b.entries && s !in a.entries
    ensures Admits(op) && s == a.nextSeq && AdmittedAs(op, b.entries[s]) && b.entries[s].state == Ready
  {
    if !IsInsert(op) {
      NoGrowth(a, op, b);
    }
  }

  lemma AdmittedIsThere(a: Store, op: Op, b: Store)
    requires Inv(a) && Step(a, op, b) && Admits(op)
    ensures a.nextSeq !in a.entries && a.nextSeq in b.entries && b.nextSeq == a.nextSeq + 1
  {
    SeqsBelowNext(a);
  }

  /** Whatever is retained was admitted by one operation, and is what that operation put in. */
  lemma {:induction false} AdmissionOf(stores: seq<Store>, ops: seq<Op>, n: nat, s: nat) returns (i: nat)
    requires IsRun(stores, ops) && n < |stores| && s in stores[n].entries
    ensures i < n && Admits(ops[i]) && stores[i].nextSeq == s && AdmittedAs(ops[i], stores[n].entries[s])
    ensures s !in stores[i].entries && forall k :: i < k <= n ==> s in stores[k].entries
    decreases n
  {
    hide Step, Inv, Admits, AdmittedAs;
    if n == 0 {
      assert false;
    } else {
      RunKeepsInv(stores, ops, n - 1);
      if s in stores[n - 1].entries {
        i := AdmissionOf(stores, ops, n - 1, s);
        StepEvolves(stores[n - 1], ops[n - 1], stores[n]);
        SameAdmission(ops[i], stores[n - 1].entries[s], stores[n].entries[s]);
      } else {
        AdmissionMakesEntry(stores[n - 1], ops[n - 1], stores[n], s);
        i := n - 1;
      }
    }
  }

  lemma SameAdmission(op: Op, e: Entry, f: Entry)
    requires AdmittedAs(op, e) && EvolvesTo(e, f)
    ensures AdmittedAs(op, f)
  {
  }

  lemma {:induction false} NumbersGrow(stores: seq<Store>, ops: seq<Op>, i: nat, j: nat)
    requires IsRun(stores, ops) && i < j < |stores| && Admits(ops[i])
    ensures stores[i].nextSeq < stores[j].nextSeq
  {
    hide Step, Inv;
    RunKeepsInv(stores, ops, i);
    AdmittedIsThere(stores[i], ops[i], stores[i + 1]);
    RunEvolves(stores, ops, i + 1, j);
  }

  /**
   * What is handed to a connection is what was admitted under that number: an acknowledgement as an
   * acknowledgement, an error response as its frame, a message as itself, with the deadline given then.
   */
  lemma ClaimCarriesItem(stores: seq<Store>, ops: seq<Op>, i: nat, j: nat)
    requires IsRun(stores, ops) && i < j < |ops| && Admits(ops[i]) && Claims(ops[j], stores[i].nextSeq)
    ensures var c, s := ops[j].claimed.value, stores[i].nextSeq;
      && c.callis == ops[j].callis
      && match ops[i]
         case InsertAck(id, deadline, _, _) =>
           c.item == WriteAck(id) && c.deadline == deadline && c.identity == ItemIdentity(id, s, AckKind)
         case InsertError(id, frame, deadline, _, _) =>
           c.item == WriteError(id, frame) && c.deadline == deadline && c.identity == ItemIdentity(id, s, ErrorKind)
         case InsertTracked(t, deadline, _, _) =>
           && c.item == WriteMessage(t.message.peerMsgId, t.message) && c.deadline == deadline
           && c.identity == ItemIdentity(t.message.peerMsgId, s, TrackedKind)
         case _ => false
  {
    assert Step(stores[j], ops[j], stores[j + 1]);
    var k := AdmissionOf(stores, ops, j, stores[i].nextSeq);
    if k < i {
      NumbersGrow(stores, ops, k, i);
    } else if i < k {
      NumbersGrow(stores, ops, i, k);
    }
  }

  // ---------------------------------------------------------------- when an item waits

  lemma ReadyStays(a: Store, op: Op, b: Store, s: nat)
    requires Inv(a) && Step(a, op, b) && s in a.entries && s in b.entries && !Claims(op, s)
    requires a.entries[s].state.Ready?
    ensures b.entries[s] == a.entries[s]
  {
    if op.MarkCallisReplayReady? {
      assert CallisLostEntry(a.entries[s], op.callis, b.entries[s]);
    } else if !op.CompleteWrite? && !op.MarkAllTrackedReplayReady? && !op.MarkTrackedReplayReady? {
      OtherLeavesEntry(a, op, b, s);
    }
  }

  lemma {:induction false} UnclaimedIsReady(stores: seq<Store>, ops: seq<Op>, n: nat, s: nat)
    requires IsRun(stores, ops) && n <= |ops| && NeverClaimed(ops, n, s) && s in stores[n].entries
    ensures stores[n].entries[s].state.Ready?
    decreases n
  {
    hide Step, Inv, Claims;
    if n == 0 {
      assert false;
    } else {
      RunKeepsInv(stores, ops, n - 1);
      if s in stores[n - 1].entries {
        UnclaimedIsReady(stores, ops, n - 1, s);
        ReadyStays(stores[n - 1], ops[n - 1], stores[n], s);
      } else {
        AdmissionMakesEntry(stores[n - 1], ops[n - 1], stores[n], s);
      }
    }
  }

  lemma {:induction false} LastClaimOf(ops: seq<Op>, n: nat, s: nat) returns (i: nat)
    requires n <= |ops| && !NeverClaimed(ops, n, s)
    ensures LastClaim(ops, i, n, s)
    decreases n
  {
    if n == 0 {
      assert false;
    } else if Claims(ops[n - 1], s) {
      i := n - 1;
    } else {
      i := LastClaimOf(ops, n - 1, s);
    }
  }

  /** The item was handed to a connection, and what happened since made it wait again. */
  predicate WaitsAgain(ops: seq<Op>, n: nat, s: nat)
    requires n <= |ops|
  {
    exists i :: 0 <= i < n && LastClaim(ops, i, n, s) && SentBackBy(ops, i, n, ops[i].claimed.value)
  }

  predicate Waits(ops: seq<Op>, n: nat, s: nat)
    requires n <= |ops|
  {
    NeverClaimed(ops, n, s) || WaitsAgain(ops, n, s)
  }

  /**
   * An item waits to be sent if and only if it was never handed out, or its last writing failed, or it
   * was taken back since. A message that waits for another time is told apart from one that is new.
   */
  lemma WaitingIff(stores: seq<Store>, ops: seq<Op>, n: nat, s: nat)
    requires IsRun(stores, ops) && n <= |ops| && s in stores[n].entries
    ensures var e := stores[n].entries[s];
      && (e.state.Ready? || e.state.ReplayReady? <==> Waits(ops, n, s))
      && (e.state.ReplayReady? <==> e.item.TrackedItem? && WaitsAgain(ops, n, s))
  {
    hide Step, IsRun, Claims, SentBackBy, WrittenBy;
    if NeverClaimed(ops, n, s) {
      UnclaimedIsReady(stores, ops, n, s);
    } else {
      var i := LastClaimOf(ops, n, s);
      StateFromHistory(stores, ops, i, n, s);
      OneLastClaim(ops, n, s, i);
    }
  }

  lemma OneLastClaim(ops: seq<Op>, n: nat, s: nat, i: nat)
    requires n <= |ops| && LastClaim(ops, i, n, s)
    ensures WaitsAgain(ops, n, s) <==> SentBackBy(ops, i, n, ops[i].claimed.value)
  {
    hide Claims, SentBackBy;
    forall j | 0 <= j < n && LastClaim(ops, j, n, s) ensures j == i {
    }
  }

  /**
   * Nothing is sent twice without a reason: between two hand-outs of one item lies a failed write of
   * the earlier one, the loss of its connection, or a demand to send it again.
   */
  lemma SentAgainForAReason(stores: seq<Store>, ops: seq<Op>, i: nat, j: nat, s: nat) returns (m: nat, k: nat)
    requires IsRun(stores, ops) && i < j < |ops| && Claims(ops[i], s) && Claims(ops[j], s)
    ensures i <= m < k < j && LastClaim(ops, m, j, s)
    ensures SendsBack(ops[k], ops[m].claimed.value, WrittenBy(ops, m, k, ops[m].claimed.value))
  {
    hide WrittenBy, SendsBack;
    assert Step(stores[j], ops[j], stores[j + 1]);
    assert s in stores[j].entries;
    WaitingIff(stores, ops, j, s);
    m := LastClaimOf(ops, j, s);
    OneLastClaim(ops, j, s, m);
    k :| m < k < j && SendsBack(ops[k], ops[m].claimed.value, WrittenBy(ops, m, k, ops[m].claimed.value));
  }

  /** A failed write makes its item wait again, unless it is gone or was reported as written before. */
  lemma FailedWriteWaits(stores: seq<Store>, ops: seq<Op>, i: nat, k: nat, s: nat)
    requires IsRun(stores, ops) && k < |ops| && LastClaim(ops, i, k, s)
    requires Reports(ops[k], ops[i].claimed.value, false) && !WrittenBy(ops, i, k, ops[i].claimed.value)
    requires s in stores[k + 1].entries
    ensures stores[k + 1].entries[s].state == WaitState(stores[k + 1].entries[s].item, ops[i].callis)
    ensures Dispatchable(stores[k + 1], s) || (stores[k + 1].shutdown && stores[k + 1].entries[s].item.TrackedItem?)
  {
    var c := ops[i].claimed.value;
    assert Step(stores[i], ops[i], stores[i + 1]);
    assert LastClaim(ops, i, k + 1, s) && SendsBack(ops[k], c, WrittenBy(ops, i, k, c));
    assert SentBackBy(ops, i, k + 1, c);
    StateFromHistory(stores, ops, i, k + 1, s);
    RunKeepsInv(stores, ops, k + 1);
    assert EntryOk(stores[k + 1], s);
  }

  /** A message reported as written is not handed out again until something takes it back. */
  lemma WrittenIsNotSentAgain(stores: seq<Store>, ops: seq<Op>, i: nat, k: nat, j: nat, s: nat)
    requires IsRun(stores, ops) && i < k < j < |ops| && LastClaim(ops, i, j, s)
    requires Reports(ops[k], ops[i].claimed.value, true)
    requires forall m :: i < m < k ==> !Reports(ops[m], ops[i].claimed.value, false)
    requires forall m :: i < m < j ==> !SendsBack(ops[m], ops[i].claimed.value, true)
    ensures !Claims(ops[j], s)
  {
    var c := ops[i].claimed.value;
    forall m | i < m < j ensures !SendsBack(ops[m], c, WrittenBy(ops, i, m, c)) {
      assert m > k ==> WrittenBy(ops, i, m, c);
    }
    OneLastClaim(ops, j, s, i);
    assert Step(stores[j], ops[j], stores[j + 1]);
    if s in stores[j].entries {
      WaitingIff(stores, ops, j, s);
    }
  }

  // ---------------------------------------------------------------- who is sent next

  /** The store was told to shut down. */
  predicate ShutBy(ops: seq<Op>, n: nat)
    requires n <= |ops|
  {
    exists k :: 0 <= k < n && (ops[k].SetShutdown? || ops[k].BeginShutdown?)
  }

  lemma ShutStep(a: Store, op: Op, b: Store)
    requires Step(a, op, b)
    ensures b.shutdown <==> a.shutdown || op.SetShutdown? || op.BeginShutdown?
  {
  }

  lemma {:induction false} ShutIff(stores: seq<Store>, ops: seq<Op>, n: nat)
    requires IsRun(stores, ops) && n <= |ops|
    ensures stores[n].shutdown <==> ShutBy(ops, n)
    decreases n
  {
    hide Step;
    if n == 0 {
    } else {
      ShutIff(stores, ops, n - 1);
      ShutStep(stores[n - 1], ops[n - 1], stores[n]);
      if ShutBy(ops, n - 1) {
        var k :| 0 <= k < n - 1 && (ops[k].SetShutdown? || ops[k].BeginShutdown?);
        assert 0 <= k < n;
      }
    }
  }

  /** Acknowledgements, then error responses, then messages by the range of their type. */
  function Class(item: RetainedItem): nat {
    match item
    case AckItem(_) => 0
    case ErrorItem(_, _) => 1
    case TrackedItem(t) => if t.message.msgType <= 0xFF_FFFF then 2 else 3
  }

  lemma ClassIsLane(a: Store, s: nat)
    requires Inv(a) && s in a.entries
    ensures Class(a.entries[s].item) == LaneRank(a.entries[s].slot.lane)
    ensures IsTrackedLane(a.entries[s].slot.lane) <==> a.entries[s].item.TrackedItem?
  {
    assert EntryOk(a, s);
  }

  /** May be handed out: it waits, and after shutdown only responses are. */
  ghost predicate MayGo(stores: seq<Store>, ops: seq<Op>, n: nat, s: nat)
    requires |stores| == |ops| + 1 && n <= |ops|
  {
    s in stores[n].entries && Waits(ops, n, s) && (ShutBy(ops, n) ==> !stores[n].entries[s].item.TrackedItem?)
  }

  /** The better class first; of one class of messages those to be sent again, then the older ones. */
  ghost predicate GoesBefore(stores: seq<Store>, ops: seq<Op>, n: nat, s: nat, t: nat)
    requires |stores| == |ops| + 1 && n <= |ops| && s in stores[n].entries && t in stores[n].entries
  {
    var p, q := stores[n].entries[s].item, stores[n].entries[t].item;
    || Class(p) < Class(q)
    || (Class(p) == Class(q) && (p.TrackedItem? ==> WaitsAgain(ops, n, s) || (!WaitsAgain(ops, n, t) && s < t)))
  }

  lemma MayGoIff(stores: seq<Store>, ops: seq<Op>, n: nat, s: nat)
    requires IsRun(stores, ops) && n <= |ops|
    ensures MayGo(stores, ops, n, s) <==> Dispatchable(stores[n], s)
  {
    hide Step, Waits, ShutBy, Inv;
    if s in stores[n].entries {
      WaitingIff(stores, ops, n, s);
      ShutIff(stores, ops, n);
      RunKeepsInv(stores, ops, n);
      ClassIsLane(stores[n], s);
    }
  }

  lemma BeforeIf(stores: seq<Store>, ops: seq<Op>, n: nat, s: nat, t: nat)
    requires IsRun(stores, ops) && n <= |ops| && s != t
    requires Dispatchable(stores[n], s) && Dispatchable(stores[n], t)
    requires Precedes(stores[n].entries[s], stores[n].entries[t])
    ensures GoesBefore(stores, ops, n, s, t)
  {
    hide Step, WaitsAgain, Waits, Class, LaneRank;
    RunKeepsInv(stores, ops, n);
    ClassIsLane(stores[n], s);
    ClassIsLane(stores[n], t);
    WaitingIff(stores, ops, n, s);
    WaitingIff(stores, ops, n, t);
  }

  /** A hand-out finds nothing if and only if nothing may go, and else takes what goes before all others. */
  lemma NextIsFirst(stores: seq<Store>, ops: seq<Op>, n: nat)
    requires IsRun(stores, ops) && n < |ops| && ops[n].ClaimNext?
    ensures ops[n].claimed.None? <==> forall s :: !MayGo(stores, ops, n, s)
    ensures ops[n].claimed.Some? ==> var s := ops[n].claimed.value.identity.seqNo;
      MayGo(stores, ops, n, s)
      && forall t :: t != s && MayGo(stores, ops, n, t) ==> GoesBefore(stores, ops, n, s, t)
  {
    hide MayGo, GoesBefore, Dispatchable, Precedes;
    assert Step(stores[n], ops[n], stores[n + 1]);
    forall s ensures MayGo(stores, ops, n, s) <==> Dispatchable(stores[n], s) {
      MayGoIff(stores, ops, n, s);
    }
    DispatchableIsLive(stores[n]);
    if ops[n].claimed.Some? {
      var s := ops[n].claimed.value.identity.seqNo;
      forall t | t != s && MayGo(stores, ops, n, t) ensures GoesBefore(stores, ops, n, s, t) {
        BeforeIf(stores, ops, n, s, t);
      }
    }
  }

  lemma DispatchableIsLive(a: Store)
    ensures forall s :: Dispatchable(a, s) ==> s in a.entries
  {
  }

  lemma TurnGrows(a: Store, op: Op, b: Store, t: nat)
    requires Inv(a) && Step(a, op, b) && t in b.entries && b.entries[t].state.Ready?
    requires t !in a.entries || !a.entries[t].state.Ready?
    ensures b.entries[t].turn >= a.clock
  {
    hide Inv;
    if t !in a.entries {
      AdmittedLast(a, op, b, t);
    } else if op.MarkCallisReplayReady? {
      assert CallisLostEntry(a.entries[t], op.callis, b.entries[t]);
    } else {
      OthersStayUnready(a, op, b, t);
    }
  }

  lemma AdmittedLast(a: Store, op: Op, b: Store, t: nat)
    requires Inv(a) && Step(a, op, b) && t in b.entries && t !in a.entries
    ensures b.entries[t].turn == a.clock
  {
    AdmissionMakesEntry(a, op, b, t);
  }

  lemma OthersStayUnready(a: Store, op: Op, b: Store, t: nat)
    requires Inv(a) && Step(a, op, b) && t in a.entries && t in b.entries && !op.MarkCallisReplayReady?
    requires !a.entries[t].state.Ready? && b.entries[t].state.Ready?
    ensures b.entries[t].turn == a.clock
  {
    hide Inv;
    if Claims(op, t) {
      ClaimedEntry(a, op, b, t);
    } else if !op.CompleteWrite? && !op.MarkAllTrackedReplayReady? && !op.MarkTrackedReplayReady? {
      OtherLeavesEntry(a, op, b, t);
    }
  }

  /** Where two entries of the store stand: `t` came to its line when `s` was already in it. */
  predicate Behind(a: Store, s: nat, t: nat, clock: nat) {
    && s in a.entries && a.entries[s].state.Ready? && a.entries[s].turn < clock <= a.clock
    && (t in a.entries && a.entries[t].state.Ready? ==> clock <= a.entries[t].turn)
  }

  lemma StaysBehind(a: Store, op: Op, b: Store, s: nat, t: nat, clock: nat)
    requires Inv(a) && Step(a, op, b) && Behind(a, s, t, clock) && s in b.entries && !Claims(op, s)
    ensures Behind(b, s, t, clock)
  {
    hide Step, Inv;
    StepEvolves(a, op, b);
    ReadyStays(a, op, b, s);
    if t in b.entries && b.entries[t].state.Ready? {
      if t in a.entries && a.entries[t].state.Ready? {
        StillReady(a, op, b, t);
      } else {
        TurnGrows(a, op, b, t);
      }
    }
  }

  lemma StillReady(a: Store, op: Op, b: Store, t: nat)
    requires Inv(a) && Step(a, op, b) && t in a.entries && t in b.entries
    requires a.entries[t].state.Ready? && b.entries[t].state.Ready?
    ensures b.entries[t] == a.entries[t]
  {
    hide Inv;
    if Claims(op, t) {
      ClaimedEntry(a, op, b, t);
      assert false;
    } else {
      ReadyStays(a, op, b, t);
    }
  }

  /**
   * Lines are first come, first served: an item that was admitted to its lane or returned to it while
   * another was ready there is not handed out before the other, as long as that stays.
   */
  lemma {:induction false} LinesAreFifo(stores: seq<Store>, ops: seq<Op>, m: nat, n: nat, s: nat, t: nat)
    requires IsRun(stores, ops) && m <= n < |ops|
    requires s in stores[m].entries && stores[m].entries[s].state.Ready?
    requires t !in stores[m].entries || !stores[m].entries[t].state.Ready?
    requires forall k :: m <= k <= n ==> s in stores[k].entries && !Claims(ops[k], s)
    requires t in stores[n].entries && stores[n].entries[t].state.Ready?
    requires stores[n].entries[t].slot.lane == stores[n].entries[s].slot.lane
    ensures !Claims(ops[n], t)
  {
    hide Inv;
    RunKeepsInv(stores, ops, m);
    assert Behind(stores[m], s, t, stores[m].clock) by { assert EntryOk(stores[m], s); }
    LineKept(stores, ops, m, n, s, t, stores[m].clock);
    NotBefore(stores, ops, n, s, t, stores[m].clock);
  }

  lemma NotBefore(stores: seq<Store>, ops: seq<Op>, n: nat, s: nat, t: nat, clock: nat)
    requires IsRun(stores, ops) && n < |ops| && Behind(stores[n], s, t, clock)
    requires t in stores[n].entries && stores[n].entries[t].state.Ready?
    requires stores[n].entries[t].slot.lane == stores[n].entries[s].slot.lane
    ensures !Claims(ops[n], t)
  {
    hide Inv;
    assert Step(stores[n], ops[n], stores[n + 1]);
    RunKeepsInv(stores, ops, n);
    ClassIsLane(stores[n], s);
    ClassIsLane(stores[n], t);
    assert Dispatchable(stores[n], t) ==> Dispatchable(stores[n], s);
  }

  lemma {:induction false} LineKept(stores: seq<Store>, ops: seq<Op>, m: nat, n: nat, s: nat, t: nat, clock: nat)
    requires IsRun(stores, ops) && m <= n < |ops|
    requires Behind(stores[m], s, t, clock)
    requires forall k :: m <= k <= n ==> s in stores[k].entries && !Claims(ops[k], s)
    ensures Behind(stores[n], s, t, clock)
    decreases n
  {
    hide Step, Inv, Claims, Behind;
    if m == n {
    } else {
      LineKept(stores, ops, m, n - 1, s, t, clock);
      RunKeepsInv(stores, ops, n - 1);
      StaysBehind(stores[n - 1], ops[n - 1], stores[n], s, t, clock);
    }
  }

  /** Error responses that the loss of a connection returns together line up in the order of their slots. */
  lemma ReturnedInSlotOrder(stores: seq<Store>, ops: seq<Op>, m: nat, n: nat, s: nat, t: nat)
    requires IsRun(stores, ops) && m < n < |ops| && ops[m].MarkCallisReplayReady?
    requires s in stores[m].entries && t in stores[m].entries
    requires stores[m].entries[s].item.ErrorItem? && stores[m].entries[s].state == Writing(ops[m].callis)
    requires stores[m].entries[t].item.ErrorItem? && stores[m].entries[t].state == Writing(ops[m].callis)
    requires stores[m].entries[s].slot.index < stores[m].entries[t].slot.index
    requires forall k :: m < k <= n ==> s in stores[k].entries && !Claims(ops[k], s)
    requires t in stores[n].entries && stores[n].entries[t].state.Ready?
    ensures !Claims(ops[n], t)
  {
    hide Inv;
    RunKeepsInv(stores, ops, m);
    RunKeepsInv(stores, ops, n);
    LinedUp(stores[m], ops[m], stores[m + 1], s, t);
    var clock := stores[m + 1].entries[t].turn;
    LineKept(stores, ops, m + 1, n, s, t, clock);
    ItemNeverChanges(stores, ops, m, n, s) by { SeqsBelowNext(stores[m]); }
    ItemNeverChanges(stores, ops, m, n, t) by { SeqsBelowNext(stores[m]); }
    SameErrorLane(stores[n], s, t);
    NotBefore(stores, ops, n, s, t, clock);
  }

  lemma SameErrorLane(a: Store, s: nat, t: nat)
    requires Inv(a) && s in a.entries && t in a.entries && a.entries[s].item.ErrorItem? && a.entries[t].item.ErrorItem?
    ensures a.entries[s].slot.lane == a.entries[t].slot.lane
  {
    assert EntryOk(a, s) && EntryOk(a, t);
  }

  lemma LinedUp(a: Store, op: Op, b: Store, s: nat, t: nat)
    requires Inv(a) && op.MarkCallisReplayReady? && Step(a, op, b) && s in a.entries && t in a.entries
    requires a.entries[s].item.ErrorItem? && a.entries[s].state == Writing(op.callis)
    requires a.entries[t].item.ErrorItem? && a.entries[t].state == Writing(op.callis)
    requires a.entries[s].slot.index < a.entries[t].slot.index
    ensures t in b.entries && Behind(b, s, t, b.entries[t].turn)
  {
    assert EntryOk(a, s) && EntryOk(a, t);
    assert CallisLostEntry(a.entries[s], op.callis, b.entries[s]);
    assert CallisLostEntry(a.entries[t], op.callis, b.entries[t]);
  }

  // ---------------------------------------------------------------- leaving, and what the sender is told

  lemma RemovalTakesOut(a: Store, op: Op, b: Store, s: nat)
    requires Step(a, op, b) && s in a.entries && !op.CompleteWrite?
    ensures s !in b.entries <==> Removes(op, a.entries[s].item, a.entries[s].deadline)
  {
  }

  lemma WriteTakesOut(a: Store, op: Op, b: Store, s: nat, c: RetainedClaim, written: bool, back: bool)
    requires op.CompleteWrite? && Step(a, op, b) && s in a.entries
    requires ClaimFits(c, s, a.entries[s]) && StateAfter(a.entries[s], c, written, back)
    ensures s !in b.entries <==> !a.entries[s].item.TrackedItem? && !back && Reports(op, c, true)
  {
  }

  lemma WriteLeavesUnclaimed(a: Store, op: Op, b: Store, s: nat)
    requires op.CompleteWrite? && Step(a, op, b) && s in a.entries && a.entries[s].state.Ready?
    ensures s in b.entries
  {
  }

  /** The response is written: it was handed out, not taken back since, and its connection reports success. */
  predicate Delivers(ops: seq<Op>, n: nat, s: nat)
    requires n < |ops|
  {
    exists i :: 0 <= i < n && LastClaim(ops, i, n, s) && !SentBackBy(ops, i, n, ops[i].claimed.value)
      && Reports(ops[n], ops[i].claimed.value, true)
  }

  /** An item leaves if and only if it is answered, expires or is dropped, or is a response that was written. */
  lemma LeavesIff(stores: seq<Store>, ops: seq<Op>, n: nat, s: nat)
    requires IsRun(stores, ops) && n < |ops| && s in stores[n].entries
    ensures var e := stores[n].entries[s];
      s !in stores[n + 1].entries
      <==> Removes(ops[n], e.item, e.deadline) || (!e.item.TrackedItem? && Delivers(ops, n, s))
  {
    hide Step, SentBackBy, WrittenBy, StateAfter, ClaimFits;
    if !ops[n].CompleteWrite? {
      RemovalTakesOut(stores[n], ops[n], stores[n + 1], s);
    } else if NeverClaimed(ops, n, s) {
      UnclaimedIsReady(stores, ops, n, s);
      WriteLeavesUnclaimed(stores[n], ops[n], stores[n + 1], s);
    } else {
      var i := LastClaimOf(ops, n, s);
      var c := ops[i].claimed.value;
      StateFromHistory(stores, ops, i, n, s);
      WriteTakesOut(stores[n], ops[n], stores[n + 1], s, c, WrittenBy(ops, i, n, c), SentBackBy(ops, i, n, c));
      forall j | 0 <= j < n && LastClaim(ops, j, n, s) ensures j == i {
      }
    }
  }

  /** What an operation that answers senders tells them. */
  predicate Tells(op: Op, result: SendResult) {
    match op
    case AckReceived(_, _) => result == Delivered
    case FailOne(_, error, _) => result == Failed(error)
    case FailAll(error, _) => result == Failed(error)
    case FailNonA1(error, _) => result == Failed(error)
    case BeginShutdown(error, _) => result == Failed(error)
    case ExpireDue(_, _) => result == Failed(SendTimeout)
    case _ => false
  }

  /** The message of this sender is retained, and the operation takes it out. */
  predicate TakesSender(a: Store, op: Op, id: PeerMessageId, tx: CompletionSender) {
    exists s :: s in a.entries && IsTracked(a.entries[s], id, tx)
                && Removes(op, a.entries[s].item, a.entries[s].deadline)
  }

  lemma SettledIff(
    a: Store, gone: set<nat>, effects: seq<CompletionEffect>, result: SendResult, effect: CompletionEffect)
    requires Settles(Part(a, gone), effects, result)
    ensures effect in effects
      <==> effect.result == result && HoldsSender(Part(a, gone), effect.peerMsgId, effect.ackTx)
  {
    var part := Part(a, gone);
    if effect in effects {
      var i :| 0 <= i < |effects| && effects[i] == effect;
      assert SettledBy(part, effects[i], result);
      var s :| s in part && part[s].item.TrackedItem? && effect == EffectFor(part[s], result);
      assert IsTracked(part[s], effect.peerMsgId, effect.ackTx);
    }
    if HoldsSender(part, effect.peerMsgId, effect.ackTx) && effect.result == result {
      var s :| s in part && IsTracked(part[s], effect.peerMsgId, effect.ackTx);
      assert EffectFor(part[s], result) in effects;
    }
  }

  lemma GoneIff(a: Store, op: Op, s: nat)
    requires s in a.entries
    ensures s in Gone(a, op) <==> Removes(op, a.entries[s].item, a.entries[s].deadline)
  {
  }

  lemma TakenSender(a: Store, op: Op, id: PeerMessageId, tx: CompletionSender)
    ensures HoldsSender(Part(a, Gone(a, op)), id, tx) <==> TakesSender(a, op, id, tx)
    ensures Part(a.(shutdown := true), Gone(a, op)) == Part(a, Gone(a, op))
  {
    hide Removes, IsTracked, Gone;
    forall s | s in a.entries ensures s in Gone(a, op) <==> Removes(op, a.entries[s].item, a.entries[s].deadline) {
      GoneIff(a, op, s);
    }
    assert forall s :: s in Part(a, Gone(a, op)) <==> s in a.entries && s in Gone(a, op);
  }

  /** A sender is told if and only if its message is taken out, and is told what the operation means. */
  lemma AnswersIff(stores: seq<Store>, ops: seq<Op>, n: nat, effect: CompletionEffect)
    requires IsRun(stores, ops) && n < |ops|
    ensures effect in Effects(ops[n])
      <==> Tells(ops[n], effect.result) && TakesSender(stores[n], ops[n], effect.peerMsgId, effect.ackTx)
  {
    var a, op := stores[n], ops[n];
    assert Step(a, op, stores[n + 1]);
    AnswersStep(a, op, stores[n + 1], effect);
  }

  lemma AnswersStep(a: Store, op: Op, b: Store, effect: CompletionEffect)
    requires Step(a, op, b)
    ensures effect in Effects(op)
      <==> Tells(op, effect.result) && TakesSender(a, op, effect.peerMsgId, effect.ackTx)
  {
    hide Settles, TrackedSeqs, TrackedWithId, DueSeqs, ResponseSeqs, HoldsSender, TakesSender, Part;
    TakenSender(a, op, effect.peerMsgId, effect.ackTx);
    if op.AckReceived? {
      SettledIff(a, Gone(a, op), Effects(op), Delivered, effect);
    } else if op.ExpireDue? {
      SettledIff(a, Gone(a, op), Effects(op), Failed(SendTimeout), effect);
    } else if op.BeginShutdown? {
      SettledIff(a.(shutdown := true), Gone(a, op), Effects(op), Failed(op.error), effect);
    } else if op.FailOne? || op.FailAll? || op.FailNonA1? {
      SettledIff(a, Gone(a, op), Effects(op), Failed(op.error), effect);
    }
  }

  // ---------------------------------------------------------------- admission, from the operations

  /** The capacities in force: the last ones set, or the first ones. */
  function CapacitiesAt(first: RetainedCapacities, ops: seq<Op>, n: nat): RetainedCapacities
    requires n <= |ops|
  {
    if n == 0 then first
    else if ops[n - 1].SetCapacities? then ops[n - 1].capacities
    else CapacitiesAt(first, ops, n - 1)
  }

  /** How many items of a class may be retained: the capacity of the class, but never none. */
  function Limit(caps: RetainedCapacities, rank: nat): nat {
    var limit := if rank == 0 then caps.a1Ack else if rank == 1 then caps.a1Error
                 else if rank == 2 then caps.a2 else caps.a3;
    if limit == 0 then 1 else limit
  }

  lemma {:induction false} LimitIsTarget(
    first: RetainedCapacities, stores: seq<Store>, ops: seq<Op>, n: nat, lane: RetainedLane)
    requires IsRun(stores, ops) && stores[0] == Init(first) && n <= |ops|
    ensures lane in stores[n].target && stores[n].target[lane] == Limit(CapacitiesAt(first, ops, n), LaneRank(lane))
  {
    hide Step;
    if n == 0 {
    } else {
      LimitIsTarget(first, stores, ops, n - 1, lane);
      if ops[n - 1].SetCapacities? {
        TargetsSet(stores[n - 1], ops[n - 1], stores[n], lane);
      } else {
        TargetsStay(stores[n - 1], ops[n - 1], stores[n]);
      }
    }
  }

  lemma TargetsSet(a: Store, op: Op, b: Store, lane: RetainedLane)
    requires op.SetCapacities? && Step(a, op, b)
    ensures lane in b.target && b.target[lane] == Limit(op.capacities, LaneRank(lane))
  {
  }

  function OfClass(a: Store, rank: nat): set<nat> {
    set s | s in a.entries && Class(a.entries[s].item) == rank
  }

  lemma ClassFills(a: Store, lane: RetainedLane)
    requires Inv(a)
    ensures OfClass(a, LaneRank(lane)) == InLane(a.entries, lane)
  {
    hide Inv;
    forall s | s in a.entries ensures Class(a.entries[s].item) == LaneRank(lane) <==> a.entries[s].slot.lane == lane {
      ClassIsLane(a, s);
    }
  }

  predicate Retains(a: Store, tracked: bool, id: PeerMessageId) {
    exists s :: s in a.entries && a.entries[s].item.TrackedItem? == tracked && a.entries[s].item.PeerMsgId() == id
  }

  lemma LaneFullIff(first: RetainedCapacities, stores: seq<Store>, ops: seq<Op>, n: nat, lane: RetainedLane)
    requires IsRun(stores, ops) && stores[0] == Init(first) && n <= |ops|
    ensures LaneFull(stores[n], lane)
      <==> |OfClass(stores[n], LaneRank(lane))| >= Limit(CapacitiesAt(first, ops, n), LaneRank(lane))
  {
    hide Step, InLane, OfClass;
    RunKeepsInv(stores, ops, n);
    ClassFills(stores[n], lane);
    LimitIsTarget(first, stores, ops, n, lane);
  }

  /** Takes an admission number: every admission does, and a response that finds its lane full. */
  predicate TakesNumber(op: Op) {
    Admits(op) || (op.InsertAck? && op.response.ResponseFull?) || (op.InsertError? && op.response.ResponseFull?)
  }

  function NumbersTaken(ops: seq<Op>, n: nat): nat
    requires n <= |ops|
  {
    if n == 0 then 0 else NumbersTaken(ops, n - 1) + if TakesNumber(ops[n - 1]) then 1 else 0
  }

  lemma NumberStep(a: Store, op: Op, b: Store)
    requires Step(a, op, b)
    ensures b.nextSeq == a.nextSeq + if TakesNumber(op) then 1 else 0
  {
  }

  /** Admission numbers count up from one, without gaps other than those responses. */
  lemma {:induction false} NumbersCount(stores: seq<Store>, ops: seq<Op>, n: nat)
    requires IsRun(stores, ops) && n <= |ops|
    ensures stores[n].nextSeq == 1 + NumbersTaken(ops, n)
  {
    hide Step, TakesNumber;
    if n == 0 {
    } else {
      NumbersCount(stores, ops, n - 1);
      NumberStep(stores[n - 1], ops[n - 1], stores[n]);
    }
  }

  /** A message is refused for the first reason that applies, and admitted if none does. */
  lemma MessageAdmission(first: RetainedCapacities, stores: seq<Store>, ops: seq<Op>, n: nat)
    requires IsRun(stores, ops) && stores[0] == Init(first) && n < |ops| && ops[n].InsertTracked?
    ensures var t := ops[n].tracked;
      ops[n].admission ==
        if ShutBy(ops, n) then Err(Shutdown(t))
        else if ops[n].now >= ops[n].deadline then Err(Expired(t))
        else if Retains(stores[n], true, t.message.peerMsgId) then Err(Duplicate(t))
        else if t.message.msgType <= 0xFFFF then Err(A1Tracked(t))
        else
          var rank := Class(TrackedItem(t));
          if |OfClass(stores[n], rank)| >= Limit(CapacitiesAt(first, ops, n), rank) then Err(Full(t)) else Ok(Unit)
  {
    hide ShutBy, OfClass, Limit, LaneFull;
    assert Step(stores[n], ops[n], stores[n + 1]);
    ShutIff(stores, ops, n);
    LaneFullIff(first, stores, ops, n, A2);
    LaneFullIff(first, stores, ops, n, A3);
  }

  /** The same for responses; the number of a response refused for want of room is used up. */
  lemma ResponseAdmission(first: RetainedCapacities, stores: seq<Store>, ops: seq<Op>, n: nat)
    requires IsRun(stores, ops) && stores[0] == Init(first) && n < |ops| && (ops[n].InsertAck? || ops[n].InsertError?)
    ensures var rank := if ops[n].InsertAck? then 0 else 1;
      ops[n].response ==
        if ShutBy(ops, n) then ResponseShutdown(ops[n].id)
        else if ops[n].now >= ops[n].deadline then ResponseExpired(ops[n].id)
        else if Retains(stores[n], false, ops[n].id) then
          DuplicateResponse(if ops[n].InsertAck? then AckResponse else ErrorResponse, ops[n].id)
        else if |OfClass(stores[n], rank)| >= Limit(CapacitiesAt(first, ops, n), rank) then
          ResponseFull(if ops[n].InsertAck? then A1Ack else A1Error, ops[n].id)
        else Inserted
  {
    hide ShutBy, OfClass, Limit, LaneFull;
    assert Step(stores[n], ops[n], stores[n + 1]);
    ShutIff(stores, ops, n);
    LaneFullIff(first, stores, ops, n, A1Ack);
    LaneFullIff(first, stores, ops, n, A1Error);
  }
}
