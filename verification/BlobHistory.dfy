/**
 * The sending end of a blob transfer, told from its actions alone: when a chunk waits to be written,
 * which one is written next, when it is done with, and what the writer of the stream is told.
 */
module BlobHistory {
  import opened Common
  import opened BlobInbound
  import opened BlobSender
  import opened BlobOutbound
  import opened BlobTransfer

  // ---------------------------------------------------------------- actions about one chunk

  predicate Leases(action: Action, id: nat) {
    action.Lease? && action.lease.Some? && action.lease.value.chunkId == id
  }

  /** The connection reports that the chunk of this lease has been written. */
  predicate ReportsWritten(action: Action, l: ChunkWriteLease) {
    action.MarkInflight? && action.written.(data := l.data) == l
  }

  /** An answer, good or bad, to the message the chunk was sent in. */
  predicate AnswersLease(action: Action, l: ChunkWriteLease) {
    action == TakeAck(l.peerMsgId) || (action.TakeRefusal? && action.refusal.peerMsgId == l.peerMsgId)
  }

  predicate StateAfter(state: ChunkState, l: ChunkWriteLease, written: bool, lost: bool) {
    if lost then state == ReplayReady(l.callis, l.slotSeq)
    else if written then state == InFlight(l.peerMsgId, l.callis, l.slotSeq)
    else state == Writing(l.peerMsgId, l.callis, l.slotSeq)
  }

  // ---------------------------------------------------------------- one step of one chunk

  /** The chunk the lease was made for. */
  predicate LeaseFits(l: ChunkWriteLease, created: seq<Chunk>) {
    l.chunkId < |created| && created[l.chunkId] == Chunk(l.data, l.isLast)
  }

  /** The actions that change the state of chunks, and cut none. */
  predicate MovesChunks(action: Action) {
    action.Lease? || action.MarkInflight? || action.LoseCallis? || action.TakeAck? || action.TakeRefusal?
  }

  /** What these actions do to the sender. */
  ghost predicate MovesStates(s: Sender, action: Action, t: Sender) {
    match action
    case Lease(callis, peerMsgId, lease) => t == s || LeaseStep(s, callis, peerMsgId, lease, t)
    case MarkInflight(l) => t == MarkedInFlight(s, l)
    case LoseCallis(c) => t == CallisLost(s, c)
    case TakeAck(p) => t == Answered(s, p)
    case TakeRefusal(r) => t == Answered(s, r.peerMsgId)
    case _ => false
  }

  lemma MovesThem(a: Transfer, action: Action, b: Transfer)
    requires Step(a, action, b) && MovesChunks(action)
    ensures MovesStates(a.out.sender, action, b.out.sender)
  {
  }

  /** Chunks cut earlier stay as they were cut and keep their state; new ones have not been written yet. */
  ghost predicate CutsOnly(s: Sender, t: Sender) {
    && s.created <= t.created
    && (forall id :: id in s.live ==> id in t.live && t.live[id] == s.live[id])
    && (forall id :: id in t.live && id !in s.live ==> id >= |s.created| && t.live[id] == Ready(0))
  }

  lemma PushCuts(a: Outbound, contended: bool, data: Bytes, r: Result<PushOutcome, ErrorId>, b: Outbound)
    requires PushOutboundStep(a, contended, data, r, b) && forall id :: id in a.sender.live ==> id < |a.sender.created|
    ensures CutsOnly(a.sender, b.sender)
  {
    hide SenderOk, Stream;
    if b != a {
      assert Grew(a.sender, b.sender);
    }
  }

  lemma SealCuts(a: Outbound, outcome: Result<bool, ErrorId>, b: Outbound)
    requires (outcome, b) == SealAttempt(a) && forall id :: id in a.sender.live ==> id < |a.sender.created|
    ensures CutsOnly(a.sender, b.sender)
  {
  }

  lemma CutsThem(a: Transfer, action: Action, b: Transfer)
    requires TransferOk(a) && Step(a, action, b) && (action.Push? || action.Seal?)
    ensures CutsOnly(a.out.sender, b.out.sender)
  {
    hide TransferOk, PushOutboundStep, SealAttempt, CutsOnly;
    LiveIsCreated(a);
    if action.Push? {
      PushCuts(a.out, action.contended, action.data, action.result, b.out);
    } else {
      SealCuts(a.out, action.outcome, b.out);
    }
  }

  lemma LiveIsCreated(t: Transfer)
    requires TransferOk(t)
    ensures forall id :: id in t.out.sender.live ==> id < |t.out.sender.created|
  {
  }

  lemma {:induction false} NoOtherSend(a: Transfer, action: Action, b: Transfer)
    requires Step(a, action, b) && !action.Push? && !action.Seal? && !MovesChunks(action)
    ensures b.out.sender == a.out.sender
  {
    hide FrameInserted, Looked;
    if SendStep(a, action, b) {
    } else {
      RecvLeavesOut(a, action, b);
    }
  }

  lemma RecvLeavesOut(a: Transfer, action: Action, b: Transfer)
    requires RecvStep(a, action, b)
    ensures b.out == a.out && b.accepted == a.accepted && b.acked == a.acked && b.wire == a.wire
  {
    hide FrameInserted, Looked, IsComplete;
    if action.InsertFrame? {
      InsertLeaves(a, action.frame);
    } else if action.Look? {
      LookLeaves(a);
    }
  }

  lemma StepMovesChunk(
    a: Transfer, action: Action, b: Transfer, l: ChunkWriteLease, written: bool, lost: bool)
    requires TransferOk(a) && Step(a, action, b) && !Leases(action, l.chunkId)
    requires LeaseFits(l, a.out.sender.created) && l.chunkId in a.out.sender.live
    requires StateAfter(a.out.sender.live[l.chunkId], l, written, lost)
    ensures LeaseFits(l, b.out.sender.created)
    ensures l.chunkId !in b.out.sender.live <==> written && !lost && AnswersLease(action, l)
    ensures l.chunkId in b.out.sender.live ==>
      StateAfter(b.out.sender.live[l.chunkId], l, written || ReportsWritten(action, l),
                 lost || action == LoseCallis(l.callis))
  {
    hide TransferOk, StateAfter, Step, MovesStates;
    if action.Push? || action.Seal? {
      CutsThem(a, action, b);
    } else if MovesChunks(action) {
      MovesThem(a, action, b);
      StatesMoveChunk(a.out.sender, action, b.out.sender, l, written, lost);
    } else {
      NoOtherSend(a, action, b);
    }
  }

  lemma StatesMoveChunk(s: Sender, action: Action, t: Sender, l: ChunkWriteLease, written: bool, lost: bool)
    requires MovesStates(s, action, t) && !Leases(action, l.chunkId)
    requires LeaseFits(l, s.created) && l.chunkId in s.live && StateAfter(s.live[l.chunkId], l, written, lost)
    ensures t.created == s.created
    ensures l.chunkId !in t.live <==> written && !lost && AnswersLease(action, l)
    ensures l.chunkId in t.live ==>
      StateAfter(t.live[l.chunkId], l, written || ReportsWritten(action, l), lost || action == LoseCallis(l.callis))
  {
  }

  // ---------------------------------------------------------------- what has happened since a lease

  predicate WrittenBy(actions: seq<Action>, i: nat, n: nat, l: ChunkWriteLease)
    requires n <= |actions|
  {
    exists k :: i < k < n && ReportsWritten(actions[k], l)
  }

  predicate LostBy(actions: seq<Action>, i: nat, n: nat, callis: CallisId)
    requires n <= |actions|
  {
    exists k :: i < k < n && actions[k] == LoseCallis(callis)
  }

  lemma OneMore(actions: seq<Action>, i: nat, n: nat, l: ChunkWriteLease)
    requires i < n < |actions|
    ensures WrittenBy(actions, i, n + 1, l) <==> WrittenBy(actions, i, n, l) || ReportsWritten(actions[n], l)
    ensures LostBy(actions, i, n + 1, l.callis)
      <==> LostBy(actions, i, n, l.callis) || actions[n] == LoseCallis(l.callis)
  {
    hide ReportsWritten;
    if WrittenBy(actions, i, n, l) {
      var k :| i < k < n && ReportsWritten(actions[k], l);
      assert i < k < n + 1;
    }
    if LostBy(actions, i, n, l.callis) {
      var k :| i < k < n && actions[k] == LoseCallis(l.callis);
      assert i < k < n + 1;
    }
  }

  predicate LastLease(actions: seq<Action>, i: nat, n: nat, id: nat)
    requires n <= |actions|
  {
    i < n && Leases(actions[i], id) && forall k :: i < k < n ==> !Leases(actions[k], id)
  }

  predicate NeverLeased(actions: seq<Action>, n: nat, id: nat)
    requires n <= |actions|
  {
    forall k :: 0 <= k < n ==> !Leases(actions[k], id)
  }

  lemma {:induction false} LastLeaseOf(actions: seq<Action>, n: nat, id: nat) returns (i: nat)
    requires n <= |actions| && !NeverLeased(actions, n, id)
    ensures LastLease(actions, i, n, id)
    decreases n
  {
    if n == 0 {
      assert false;
    } else if Leases(actions[n - 1], id) {
      i := n - 1;
    } else {
      i := LastLeaseOf(actions, n - 1, id);
    }
  }

  lemma LeaseMakesState(a: Transfer, action: Action, b: Transfer, id: nat)
    requires TransferOk(a) && Step(a, action, b) && Leases(action, id)
    ensures id in a.out.sender.live && id in b.out.sender.live && b.out.sender.created == a.out.sender.created
    ensures LeaseFits(action.lease.value, b.out.sender.created)
    ensures StateAfter(b.out.sender.live[id], action.lease.value, false, false)
  {
  }

  lemma NothingYet(actions: seq<Action>, i: nat, l: ChunkWriteLease)
    requires i < |actions|
    ensures !WrittenBy(actions, i, i + 1, l) && !LostBy(actions, i, i + 1, l.callis)
  {
  }

  /** A step adds chunks only under new ids, and a new chunk has not been written yet. */
  lemma OnlyNewChunks(a: Transfer, action: Action, b: Transfer, id: nat)
    requires TransferOk(a) && Step(a, action, b) && id in b.out.sender.live && id !in a.out.sender.live
    ensures id >= |a.out.sender.created| && b.out.sender.live[id] == Ready(0)
  {
    hide TransferOk, Step;
    if action.Push? || action.Seal? {
      CutsThem(a, action, b);
    } else if MovesChunks(action) {
      MovesThem(a, action, b);
      NoNewStates(a.out.sender, action, b.out.sender);
      assert false;
    } else {
      NoOtherSend(a, action, b);
      assert false;
    }
  }

  lemma NoNewStates(s: Sender, action: Action, t: Sender)
    requires MovesStates(s, action, t)
    ensures t.live.Keys <= s.live.Keys && t.created == s.created
  {
  }

  lemma CreatedGrows(a: Transfer, action: Action, b: Transfer)
    requires TransferOk(a) && Step(a, action, b)
    ensures a.out.sender.created <= b.out.sender.created
  {
    hide TransferOk, Step;
    if action.Push? || action.Seal? {
      CutsThem(a, action, b);
    } else if MovesChunks(action) {
      MovesThem(a, action, b);
      NoNewStates(a.out.sender, action, b.out.sender);
    } else {
      NoOtherSend(a, action, b);
    }
  }

  /** A chunk that was cut before and is live now was live in between. */
  lemma LiveBefore(a: Transfer, action: Action, b: Transfer, id: nat)
    requires TransferOk(a) && Step(a, action, b) && id in b.out.sender.live && id < |a.out.sender.created|
    ensures id in a.out.sender.live
  {
    if id !in a.out.sender.live {
      OnlyNewChunks(a, action, b, id);
      assert false;
    }
  }

  /** The state of a chunk follows from what happened since it was last given to a connection. */
  lemma {:induction false} StateFromHistory(states: seq<Transfer>, actions: seq<Action>, i: nat, n: nat, id: nat)
    requires IsRun(states, actions) && n <= |actions| && LastLease(actions, i, n, id)
    ensures var l := actions[i].lease.value;
      && LeaseFits(l, states[n].out.sender.created)
      && (id in states[n].out.sender.live ==>
            StateAfter(states[n].out.sender.live[id], l, WrittenBy(actions, i, n, l), LostBy(actions, i, n, l.callis)))
    decreases n
  {
    hide Step, Init, TransferOk, StateAfter, ReportsWritten, WrittenBy, LostBy;
    var l := actions[i].lease.value;
    RunKeeps(states, actions, n - 1);
    if n == i + 1 {
      LeaseMakesState(states[i], actions[i], states[n], id);
      NothingYet(actions, i, l);
    } else {
      StateFromHistory(states, actions, i, n - 1, id);
      OneMore(actions, i, n - 1, l);
      CreatedGrows(states[n - 1], actions[n - 1], states[n]);
      if id in states[n].out.sender.live {
        LiveBefore(states[n - 1], actions[n - 1], states[n], id);
        StepMovesChunk(states[n - 1], actions[n - 1], states[n], l, WrittenBy(actions, i, n - 1, l),
                       LostBy(actions, i, n - 1, l.callis));
      }
    }
  }

  /** An offered chunk stays as it is until it is given to a connection. */
  lemma OfferStays(a: Transfer, action: Action, b: Transfer, id: nat)
    requires TransferOk(a) && Step(a, action, b) && id in a.out.sender.live && !Leases(action, id)
    requires a.out.sender.live[id].Ready? || a.out.sender.live[id].ReplayReady?
    ensures id in b.out.sender.live && b.out.sender.live[id] == a.out.sender.live[id]
  {
    hide TransferOk;
    LiveIsCreated(a);
    if action.Push? || action.Seal? {
      CutsThem(a, action, b);
    } else if MovesChunks(action) {
      MovesThem(a, action, b);
      OfferUnmoved(a.out.sender, action, b.out.sender, id);
    } else {
      NoOtherSend(a, action, b);
    }
  }

  lemma OfferUnmoved(s: Sender, action: Action, t: Sender, id: nat)
    requires MovesStates(s, action, t) && id in s.live && !Leases(action, id)
    requires s.live[id].Ready? || s.live[id].ReplayReady?
    ensures id in t.live && t.live[id] == s.live[id]
  {
  }

  lemma {:induction false} UnleasedIsReady(states: seq<Transfer>, actions: seq<Action>, n: nat, id: nat)
    requires IsRun(states, actions) && n <= |actions| && NeverLeased(actions, n, id) && id in states[n].out.sender.live
    ensures states[n].out.sender.live[id] == Ready(0)
    decreases n
  {
    hide Step, TransferOk, Leases;
    if n == 0 {
    } else {
      RunKeeps(states, actions, n - 1);
      if id in states[n - 1].out.sender.live {
        UnleasedIsReady(states, actions, n - 1, id);
        OfferStays(states[n - 1], actions[n - 1], states[n], id);
      } else {
        OnlyNewChunks(states[n - 1], actions[n - 1], states[n], id);
      }
    }
  }

  /** The chunk was given to a connection, and that connection was lost since. */
  predicate WaitsAgain(actions: seq<Action>, n: nat, id: nat)
    requires n <= |actions|
  {
    exists i :: 0 <= i < n && LastLease(actions, i, n, id) && LostBy(actions, i, n, actions[i].lease.value.callis)
  }

  lemma OneLastLease(actions: seq<Action>, n: nat, id: nat, i: nat)
    requires n <= |actions| && LastLease(actions, i, n, id)
    ensures WaitsAgain(actions, n, id) <==> LostBy(actions, i, n, actions[i].lease.value.callis)
  {
    hide LostBy;
    forall j | 0 <= j < n && LastLease(actions, j, n, id) ensures j == i {
    }
  }

  /** A chunk is offered if and only if no connection was given it yet, or the one it was given to is lost. */
  lemma OfferedIff(states: seq<Transfer>, actions: seq<Action>, n: nat, id: nat)
    requires IsRun(states, actions) && n <= |actions| && id in states[n].out.sender.live
    ensures states[n].out.sender.live[id].Ready? <==> NeverLeased(actions, n, id)
    ensures states[n].out.sender.live[id].ReplayReady? <==> WaitsAgain(actions, n, id)
  {
    hide Step, Leases, LostBy, WrittenBy;
    if NeverLeased(actions, n, id) {
      UnleasedIsReady(states, actions, n, id);
    } else {
      var i := LastLeaseOf(actions, n, id);
      StateFromHistory(states, actions, i, n, id);
      OneLastLease(actions, n, id, i);
    }
  }

  // ---------------------------------------------------------------- which chunk is written next

  /** May be given to a connection: first the ones to be written again, if there are any. */
  ghost predicate IsOffered(states: seq<Transfer>, actions: seq<Action>, n: nat, id: nat, again: bool)
    requires |states| == |actions| + 1 && n <= |actions|
  {
    id in states[n].out.sender.live && if again then WaitsAgain(actions, n, id) else NeverLeased(actions, n, id)
  }

  ghost predicate AnyAgain(states: seq<Transfer>, actions: seq<Action>, n: nat)
    requires |states| == |actions| + 1 && n <= |actions|
  {
    exists id :: IsOffered(states, actions, n, id, true)
  }

  lemma IsOfferedIff(states: seq<Transfer>, actions: seq<Action>, n: nat, id: nat, again: bool)
    requires IsRun(states, actions) && n <= |actions|
    ensures IsOffered(states, actions, n, id, again)
      <==> id in states[n].out.sender.live && Offered(states[n].out.sender.live[id], again)
  {
    hide Step, Init, WaitsAgain, NeverLeased;
    if id in states[n].out.sender.live {
      OfferedIff(states, actions, n, id);
    }
  }

  /**
   * While the stream may drain, a connection that asks gets nothing if and only if no chunk is offered.
   * Else it gets the lowest of those to be written again, if there are any, and otherwise the lowest
   * new one, with the bytes it was cut with.
   */
  lemma NextIsLowest(states: seq<Transfer>, actions: seq<Action>, n: nat)
    requires IsRun(states, actions) && n < |actions| && actions[n].Lease?
    requires !states[n].out.lifecycle.Failed? && !states[n].out.lifecycle.Closed?
    ensures var again := AnyAgain(states, actions, n);
      && (actions[n].lease.None? <==> forall id :: !IsOffered(states, actions, n, id, again))
      && (actions[n].lease.Some? ==>
            var l := actions[n].lease.value;
            && IsOffered(states, actions, n, l.chunkId, again) && LeaseFits(l, states[n].out.sender.created)
            && l.callis == actions[n].callis && l.peerMsgId == actions[n].peerMsgId
            && forall id :: IsOffered(states, actions, n, id, again) ==> l.chunkId <= id)
  {
    hide IsOffered, TransferOk;
    assert Step(states[n], actions[n], states[n + 1]) && SendStep(states[n], actions[n], states[n + 1]);
    forall id, again ensures IsOffered(states, actions, n, id, again)
      <==> id in states[n].out.sender.live && Offered(states[n].out.sender.live[id], again)
    {
      IsOfferedIff(states, actions, n, id, again);
    }
    var s := states[n].out.sender;
    assert AnyAgain(states, actions, n) <==> !NothingOffered(s, true);
    RunKeeps(states, actions, n);
    LiveIsCreated(states[n]);
  }

  /** After the loss of a connection its chunks, written or not, are offered again, and no other chunk is touched. */
  lemma LossTakesBack(states: seq<Transfer>, actions: seq<Action>, n: nat, c: CallisId)
    requires IsRun(states, actions) && n < |actions| && actions[n] == LoseCallis(c)
    ensures states[n + 1].out.sender.live.Keys == states[n].out.sender.live.Keys
    ensures forall id :: id in states[n].out.sender.live ==>
      var was, now := states[n].out.sender.live[id], states[n + 1].out.sender.live[id];
      if (was.Writing? || was.InFlight?) && was.callis == c then now == ReplayReady(c, was.seqNo) else now == was
  {
    assert Step(states[n], actions[n], states[n + 1]);
  }

  /** A chunk that waits to be written again stays so until it is. */
  lemma {:induction false} WaitsUntilLeased(
    states: seq<Transfer>, actions: seq<Action>, m: nat, n: nat, id: nat)
    requires IsRun(states, actions) && m <= n <= |actions|
    requires id in states[m].out.sender.live && states[m].out.sender.live[id].ReplayReady?
    requires forall k :: m <= k < n ==> !Leases(actions[k], id)
    ensures id in states[n].out.sender.live && states[n].out.sender.live[id].ReplayReady?
    decreases n
  {
    hide Step, TransferOk, Leases;
    if m == n {
    } else {
      WaitsUntilLeased(states, actions, m, n - 1, id);
      RunKeeps(states, actions, n - 1);
      OfferStays(states[n - 1], actions[n - 1], states[n], id);
    }
  }

  /**
   * What a lost connection had is written again before anything new: between the loss and the first
   * writing of any new chunk, every chunk that connection held has been given to another.
   */
  lemma AgainBeforeNew(states: seq<Transfer>, actions: seq<Action>, i: nat, j: nat, id: nat, c: CallisId)
      returns (k: nat)
    requires IsRun(states, actions) && i < j < |actions| && actions[i] == LoseCallis(c)
    requires id in states[i].out.sender.live && IsLeased(states[i].out.sender.live[id])
    requires states[i].out.sender.live[id].callis == c
    requires actions[j].Lease? && actions[j].lease.Some? && NeverLeased(actions, j, actions[j].lease.value.chunkId)
    ensures i < k < j && Leases(actions[k], id)
  {
    hide Step, TransferOk;
    LossTakesBack(states, actions, i, c);
    if forall k :: i + 1 <= k < j ==> !Leases(actions[k], id) {
      WaitsUntilLeased(states, actions, i + 1, j, id);
      var x := actions[j].lease.value.chunkId;
      IsOfferedIff(states, actions, j, id, true);
      DrainsIfLeases(states[j], actions[j], states[j + 1]);
      NextIsLowest(states, actions, j);
      WaitedWasLeased(actions, j, x);
      assert false;
    }
    k :| i + 1 <= k < j && Leases(actions[k], id);
  }

  lemma DrainsIfLeases(a: Transfer, action: Action, b: Transfer)
    requires Step(a, action, b) && action.Lease? && action.lease.Some?
    ensures !a.out.lifecycle.Failed? && !a.out.lifecycle.Closed?
  {
  }

  lemma WaitedWasLeased(actions: seq<Action>, n: nat, id: nat)
    requires n <= |actions|
    ensures WaitsAgain(actions, n, id) ==> !NeverLeased(actions, n, id)
  {
  }

  /** Nothing is written twice without need: between two leases of a chunk the connection of the first was lost. */
  lemma AgainOnlyAfterLoss(states: seq<Transfer>, actions: seq<Action>, i: nat, j: nat, id: nat)
      returns (m: nat, k: nat)
    requires IsRun(states, actions) && i < j < |actions| && Leases(actions[i], id) && Leases(actions[j], id)
    ensures i <= m < k < j && LastLease(actions, m, j, id) && actions[k] == LoseCallis(actions[m].lease.value.callis)
  {
    hide TransferOk;
    RunKeeps(states, actions, j);
    assert Step(states[j], actions[j], states[j + 1]);
    LeaseMakesState(states[j], actions[j], states[j + 1], id);
    LeasedWasOffered(states[j], actions[j], states[j + 1], id);
    OfferedIff(states, actions, j, id);
    m := LastLeaseOf(actions, j, id);
    OneLastLease(actions, j, id, m);
    k :| m < k < j && actions[k] == LoseCallis(actions[m].lease.value.callis);
  }

  /** The leases of a chunk are numbered from one on. */
  lemma LeasesAreNumbered(states: seq<Transfer>, actions: seq<Action>, j: nat, id: nat)
    requires IsRun(states, actions) && j < |actions| && Leases(actions[j], id)
    ensures NeverLeased(actions, j, id) ==> actions[j].lease.value.slotSeq == 1
    ensures forall i :: 0 <= i < j && LastLease(actions, i, j, id) ==>
      actions[j].lease.value.slotSeq == actions[i].lease.value.slotSeq + 1
  {
    hide TransferOk, WrittenBy, LostBy;
    assert Step(states[j], actions[j], states[j + 1]);
    RunKeeps(states, actions, j);
    LeaseMakesState(states[j], actions[j], states[j + 1], id);
    LeasedWasOffered(states[j], actions[j], states[j + 1], id);
    if NeverLeased(actions, j, id) {
      UnleasedIsReady(states, actions, j, id);
    } else {
      var i := LastLeaseOf(actions, j, id);
      StateFromHistory(states, actions, i, j, id);
      forall k | 0 <= k < j && LastLease(actions, k, j, id) ensures k == i {
      }
    }
  }

  lemma LeasedWasOffered(a: Transfer, action: Action, b: Transfer, id: nat)
    requires Step(a, action, b) && Leases(action, id) && id in a.out.sender.live
    ensures a.out.sender.live[id].Ready? || a.out.sender.live[id].ReplayReady?
  {
  }

  /** A chunk is done with if and only if the answer to its last writing comes while its connection lives. */
  lemma DoneIff(states: seq<Transfer>, actions: seq<Action>, n: nat, id: nat)
    requires IsRun(states, actions) && n < |actions| && id in states[n].out.sender.live
    ensures id !in states[n + 1].out.sender.live
      <==> exists i :: 0 <= i < n && LastLease(actions, i, n, id) && AnsweredAt(actions, i, n)
  {
    hide Step, TransferOk, Leases, AnswersLease, WrittenBy, LostBy;
    RunKeeps(states, actions, n);
    if NeverLeased(actions, n, id) {
      UnleasedIsReady(states, actions, n, id);
      if Leases(actions[n], id) {
        LeaseMakesState(states[n], actions[n], states[n + 1], id);
      } else {
        OfferStays(states[n], actions[n], states[n + 1], id);
      }
    } else {
      var i := LastLeaseOf(actions, n, id);
      forall j | 0 <= j < n && LastLease(actions, j, n, id) ensures j == i {
      }
      DoneAfter(states, actions, i, n, id);
    }
  }

  /** The lease made at `i` is answered at `n`, after the chunk was reported written and with its connection alive. */
  predicate AnsweredAt(actions: seq<Action>, i: nat, n: nat)
    requires i < n < |actions|
  {
    && actions[i].Lease? && actions[i].lease.Some?
    && var l := actions[i].lease.value;
       AnswersLease(actions[n], l) && WrittenBy(actions, i, n, l) && !LostBy(actions, i, n, l.callis)
  }

  lemma DoneAfter(states: seq<Transfer>, actions: seq<Action>, i: nat, n: nat, id: nat)
    requires IsRun(states, actions) && n < |actions| && id in states[n].out.sender.live
    requires LastLease(actions, i, n, id)
    ensures id !in states[n + 1].out.sender.live <==> AnsweredAt(actions, i, n)
  {
    hide Step, TransferOk, WrittenBy, LostBy;
    RunKeeps(states, actions, n);
    StateFromHistory(states, actions, i, n, id);
    var l := actions[i].lease.value;
    if Leases(actions[n], id) {
      LeaseMakesState(states[n], actions[n], states[n + 1], id);
    } else {
      StepMovesChunk(states[n], actions[n], states[n + 1], l, WrittenBy(actions, i, n, l),
                     LostBy(actions, i, n, l.callis));
    }
  }

  // ---------------------------------------------------------------- the life of the stream

  /** Why the stream has failed: the last refusal of a chunk, or else the first failure. */
  function FailureAt(actions: seq<Action>, n: nat): Option<ErrorId>
    requires n <= |actions|
  {
    if n == 0 then None
    else
      var before := FailureAt(actions, n - 1);
      match actions[n - 1]
      case TakeRefusal(refusal) => Some(refusal.error)
      case Fail(error) => if before.Some? then before else Some(error)
      case _ => before
  }

  datatype End = NotEnded | ByClose | ByComplete

  /** Which came last, closing the stream or the receiver's word that it has everything. */
  function EndAt(actions: seq<Action>, n: nat): End
    requires n <= |actions|
  {
    if n == 0 then NotEnded
    else if actions[n - 1].Close? then ByClose
    else if actions[n - 1].TakeComplete? then ByComplete
    else EndAt(actions, n - 1)
  }

  predicate SealTried(actions: seq<Action>, n: nat)
    requires n <= |actions|
  {
    exists k :: 0 <= k < n && actions[k].Seal?
  }

  /** What the life of the stream is, given what was done to it. */
  predicate LifeIs(l: Lifecycle, failure: Option<ErrorId>, end: End, tried: bool) {
    if failure.Some? then l == Failed(failure.value)
    else if end.ByClose? then l == Closed
    else if end.ByComplete? then l == Completed
    else if tried then l == Sealing || l == AwaitingComplete
    else l == Open
  }

  lemma LifeStep(a: Transfer, action: Action, b: Transfer, failure: Option<ErrorId>, end: End, tried: bool)
    requires Step(a, action, b)
    requires action.Seal? || action.TakeRefusal? || action.Fail? || action.Close? || action.TakeComplete?
    requires LifeIs(a.out.lifecycle, failure, end, tried)
    ensures LifeIs(b.out.lifecycle,
                   match action
                   case TakeRefusal(refusal) => Some(refusal.error)
                   case Fail(error) => if failure.Some? then failure else Some(error)
                   case _ => failure,
                   if action.Close? then ByClose else if action.TakeComplete? then ByComplete else end,
                   tried || action.Seal?)
  {
  }

  lemma LifeStays(a: Transfer, action: Action, b: Transfer)
    requires Step(a, action, b)
    requires !action.Seal? && !action.TakeRefusal? && !action.Fail? && !action.Close? && !action.TakeComplete?
    ensures b.out.lifecycle == a.out.lifecycle
  {
    hide PushStep, FrameInserted, Looked;
    if RecvStep(a, action, b) {
      RecvLeavesOut(a, action, b);
    }
  }

  /** The life of the stream follows from the failures, closings and confirmations it has seen. */
  lemma {:induction false} LifeFromHistory(states: seq<Transfer>, actions: seq<Action>, n: nat)
    requires IsRun(states, actions) && n <= |actions|
    ensures LifeIs(states[n].out.lifecycle, FailureAt(actions, n), EndAt(actions, n), SealTried(actions, n))
    decreases n
  {
    hide Step, LifeIs;
    if n == 0 {
      OpenAtFirst(states, actions);
    } else {
      LifeFromHistory(states, actions, n - 1);
      var action := actions[n - 1];
      if SealTried(actions, n - 1) {
        var k :| 0 <= k < n - 1 && actions[k].Seal?;
        assert 0 <= k < n;
      }
      assert SealTried(actions, n) <==> SealTried(actions, n - 1) || action.Seal?;
      if action.Seal? || action.TakeRefusal? || action.Fail? || action.Close? || action.TakeComplete? {
        LifeStep(states[n - 1], action, states[n], FailureAt(actions, n - 1), EndAt(actions, n - 1),
                 SealTried(actions, n - 1));
      } else {
        LifeStays(states[n - 1], action, states[n]);
      }
    }
  }

  lemma OpenAtFirst(states: seq<Transfer>, actions: seq<Action>)
    requires IsRun(states, actions)
    ensures LifeIs(states[0].out.lifecycle, None, NotEnded, false) && !SealTried(actions, 0)
  {
  }

  /**
   * A writer is told to come again if another is at the ring. Else it is told of the failure, that the
   * stream is ended, or how many bytes were taken: all of them, or as many as there is room for.
   */
  lemma WriterIsTold(states: seq<Transfer>, actions: seq<Action>, n: nat)
    requires IsRun(states, actions) && n < |actions| && actions[n].Push?
    ensures if actions[n].contended then actions[n].result == Ok(Busy) && states[n + 1] == states[n]
      else
        match FailureAt(actions, n)
        case Some(error) => actions[n].result == Err(error)
        case None =>
          if EndAt(actions, n).NotEnded? && !SealTried(actions, n) then
            var taken := Takes(states[n].out.sender, |actions[n].data|);
            actions[n].result == if taken == 0 then Ok(Full) else Ok(Accepted(taken))
          else actions[n].result == Err(PeerUnavailable)
  {
    hide TransferOk, Takes, PushStep;
    LifeFromHistory(states, actions, n);
    var a, b, action := states[n], states[n + 1], actions[n];
    assert Step(a, action, b) && SendStep(a, action, b);
    RunKeeps(states, actions, n);
    if action.contended {
      assert action.data[..0] == [] && a.accepted + [] == a.accepted;
    } else {
      PushTold(a.out, action.data, action.result, b.out) by { SenderIsOk(a); }
    }
  }

  lemma SenderIsOk(t: Transfer)
    requires TransferOk(t)
    ensures SenderOk(t.out.sender)
  {
  }

  lemma PushTold(a: Outbound, data: Bytes, r: Result<PushOutcome, ErrorId>, b: Outbound)
    requires SenderOk(a.sender) && PushOutboundStep(a, false, data, r, b)
    ensures match a.lifecycle
      case Open => r == if Takes(a.sender, |data|) == 0 then Ok(Full) else Ok(Accepted(Takes(a.sender, |data|)))
      case Failed(error) => r == Err(error)
      case _ => r == Err(PeerUnavailable)
  {
    hide PushStep, SenderOk, Room;
    if a.lifecycle.Open? {
      if !CanAcceptBytes(a.sender) {
        BufferAtMost(a.sender);
        FullHasNoRoom(a.sender);
      } else {
        PushTakesAll(a.sender, data, AcceptedBytes(r), b.sender);
      }
    }
  }

  lemma BufferAtMost(s: Sender)
    requires SenderOk(s)
    ensures |s.buf| <= s.chunkSize
  {
  }

  /**
   * Whoever closes the stream is told of the failure, that it was closed, or whether its final chunk is
   * made: it is, unless what is left needs more slots than the window has free.
   */
  lemma CloserIsTold(states: seq<Transfer>, actions: seq<Action>, n: nat)
    requires IsRun(states, actions) && n < |actions| && actions[n].Seal?
    ensures match FailureAt(actions, n)
      case Some(error) => actions[n].outcome == Err(error)
      case None =>
        if EndAt(actions, n).ByClose? then actions[n].outcome == Err(PeerUnavailable)
        else actions[n].outcome == Ok(Sealed(states[n + 1].out.sender))
    ensures actions[n].outcome == Ok(false) ==>
      var s := states[n].out.sender;
      |s.live| + (if s.pending.Some? && s.buf != [] then 2 else 1) > s.windowSize
  {
    hide RecvOk, WireOk, LeasesOk, ChunksOk, Stream, EndsInBytes;
    LifeFromHistory(states, actions, n);
    assert Step(states[n], actions[n], states[n + 1]) && SendStep(states[n], actions[n], states[n + 1]);
    RunKeeps(states, actions, n);
    SealedWhenMade(states[n]);
    var a := states[n].out;
    if (a.lifecycle.Open? || a.lifecycle.Sealing?) && Finalized(a.sender).Some? {
      FinalizeSeals(a.sender);
    } else if a.lifecycle.Open? || a.lifecycle.Sealing? {
      NotBoth(a.sender);
    }
  }

  lemma SealedWhenMade(t: Transfer)
    requires TransferOk(t)
    ensures t.out.lifecycle.AwaitingComplete? || t.out.lifecycle.Completed? ==> Sealed(t.out.sender)
  {
    hide SenderOk, Stream, WireOk, LeasesOk, ChunksOk, Sealed, Unsealed, EndsInBytes, AllExpected, RecvOk;
    if t.out.lifecycle.Completed? {
      AllStored(t);
    }
  }

  /** Whoever waits for the end is told of a failure at once, and of success when all is confirmed and answered. */
  lemma WaiterIsTold(states: seq<Transfer>, actions: seq<Action>, n: nat)
    requires IsRun(states, actions) && n <= |actions|
    ensures CompletionVerdict(states[n].out) ==
      match FailureAt(actions, n)
      case Some(error) => Some(Err(error))
      case None =>
        var s := states[n].out.sender;
        if EndAt(actions, n).ByComplete? && s.live == map[] && s.pending == None then Some(Ok(Unit)) else None
  {
    LifeFromHistory(states, actions, n);
  }

  // ---------------------------------------------------------------- why a chunk is refused

  /** What is wrong with the chunk, or with the place it comes to, for the error it is refused with. */
  predicate Deserves(t: Transfer, m: ChunkFrame, error: ErrorId) {
    var r := t.inbound;
    match error
    case ProtocolViolation => |m.data| > r.chunkSize
    case BlobStreamNotFound => t.status == Awaited || t.status == Gone
    case BlobStreamIdleTimeout => t.status == Active
    case BlobAckWindowExceeded => m.chunkId >= r.nextExpected + r.windowSize
    case BlobBufferFull => !StoredAt(r, m.chunkId) && |r.received| == r.windowSize
    case BlobStreamMissingChunk =>
      && !StoredAt(r, m.chunkId) && |r.received| < r.windowSize
      && ((m.isLast && m.chunkId > r.nextExpected)
          || (|r.received| + 1 == r.windowSize && HasGap(r.received.Keys + {m.chunkId}, r.nextDeliver)))
    case _ => false
  }

  lemma InsertRefuses(t: Transfer, m: ChunkFrame, refusal: Refusal)
    requires InboundOk(t.inbound) && refusal in FrameInserted(t, m).refusals && refusal !in t.refusals
    ensures refusal.peerMsgId == m.peerMsgId && Deserves(t, m, refusal.error)
  {
    hide InboundOk, HasGap, Inserted, AllExpected, StoredAt;
    RefusedIff(t.inbound, m.chunkId, m.data, m.isLast);
    var error := InsertError(t.inbound, m.chunkId, m.data, m.isLast).value;
    assert refusal == Refusal(m.peerMsgId, error);
    assert InsertResult(t.inbound, m.chunkId, m.data, m.isLast) == Err(error);
  }

  lemma OtherRefuses(a: Transfer, action: Action, b: Transfer, refusal: Refusal)
    requires RecvStep(a, action, b) && !action.InsertFrame? && refusal in b.refusals && refusal !in a.refusals
    ensures (action.RefuseOversized? || action.RefuseUnknown? || action.RefuseExpired?) && action.frame in a.wire
    ensures refusal.peerMsgId == action.frame.peerMsgId && Deserves(a, action.frame, refusal.error)
  {
    hide Looked, IsComplete;
    LookLeaves(a);
  }

  lemma SendRefusesNothing(a: Transfer, action: Action, b: Transfer)
    requires SendStep(a, action, b)
    ensures b.refusals == a.refusals
  {
  }

  /** Every refusal answers a frame that was sent, and for the reason it gives. */
  lemma RefusedForItsReason(states: seq<Transfer>, actions: seq<Action>, n: nat, refusal: Refusal)
      returns (m: ChunkFrame)
    requires IsRun(states, actions) && n < |actions|
    requires refusal in states[n + 1].refusals && refusal !in states[n].refusals
    ensures m in states[n].wire && m.peerMsgId == refusal.peerMsgId && Deserves(states[n], m, refusal.error)
  {
    hide SendStep, FrameInserted, Looked, Deserves, SendOk, ChunksOk;
    var a, action := states[n], actions[n];
    assert Step(a, action, states[n + 1]);
    RunKeeps(states, actions, n);
    if SendStep(a, action, states[n + 1]) {
      SendRefusesNothing(a, action, states[n + 1]);
      assert false;
    } else if action.InsertFrame? {
      m := action.frame;
      InsertRefuses(a, m, refusal);
    } else {
      OtherRefuses(a, action, states[n + 1], refusal);
      m := action.frame;
    }
  }
}
