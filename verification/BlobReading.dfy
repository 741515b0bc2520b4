/** When the application's reader is told that a blob has ended, and when that is true. */
module BlobReading {
  import opened Common
  import opened BlobInbound
  import opened BlobSender
  import opened BlobOutbound
  import opened BlobTransfer

  /** The blob has ended, and the reader has been given every byte of it. */
  predicate WholeBlobRead(t: Transfer) {
    Sealed(t.out.sender) && t.delivered == t.accepted
  }

  /** All that the receiver can see: it expects no more chunks, and those it still holds carry no bytes. */
  predicate NothingLeft(r: Inbound) {
    AllExpected(r) && forall id :: id in r.received ==> r.received[id] == []
  }

  lemma {:induction false} ReassembledSame(r: Inbound, delivered: Bytes)
    requires forall id :: r.nextDeliver <= id < r.nextExpected ==> id in r.received
    ensures |delivered| <= |Reassembled(r, delivered)|
    ensures Reassembled(r, delivered) == delivered
      <==> forall id :: r.nextDeliver <= id < r.nextExpected ==> r.received[id] == []
    decreases r.nextExpected - r.nextDeliver
  {
    if r.nextDeliver >= r.nextExpected {
    } else {
      ReassembledSame(r.(nextDeliver := r.nextDeliver + 1), delivered + r.received[r.nextDeliver]);
      if r.received[r.nextDeliver] == [] {
        assert delivered + [] == delivered;
      }
    }
  }

  lemma NothingLeftMeansRead(t: Transfer)
    requires TransferOk(t) && AllExpected(t.inbound)
    ensures WholeBlobRead(t) <==> NothingLeft(t.inbound)
  {
    hide SendOk, Concat, LastNoticed;
    AllStored(t);
    ReassembledSame(t.inbound, t.delivered);
  }

  lemma ConcatShorter(created: seq<Chunk>, n: nat)
    requires n < |created| && created[|created| - 1].data != []
    ensures |Concat(created[..n])| < |Concat(created)|
  {
    var front := created[..|created| - 1];
    ConcatPrefix(front, n);
    assert front[..n] == created[..n];
  }

  /** A reader past the final chunk has a ring that expects nothing more. */
  lemma PastTheEnd(t: Transfer)
    requires TransferOk(t) && Sealed(t.out.sender) && t.inbound.nextDeliver == |t.out.sender.created|
    ensures AllExpected(t.inbound)
  {
    hide SendOk, Concat;
    assert StoredAt(t.inbound, |t.out.sender.created| - 1);
  }

  /** If the bytes are all read although a chunk is still expected, then there were no bytes. */
  lemma ReadEarly(t: Transfer)
    requires TransferOk(t) && WholeBlobRead(t) && !AllExpected(t.inbound)
    ensures t.accepted == []
  {
    hide SenderOk, Concat, LeasesOk, WireOk, InboundOk, LastNoticed, AllExpected;
    var created := t.out.sender.created;
    DeliverAtMost(t.inbound);
    NotBoth(t.out.sender);
    if t.inbound.nextDeliver == |created| {
      PastTheEnd(t);
      assert false;
    } else if created[|created| - 1].data != [] {
      ConcatShorter(created, t.inbound.nextDeliver);
      assert false;
    }
  }

  /**
   * In every reachable state: the whole blob has been read if and only if the receiver expects no more
   * and holds no bytes. The one exception is an empty blob, which has been read before it arrives.
   */
  lemma WholeBlobReadIff(states: seq<Transfer>, actions: seq<Action>, n: nat)
    requires IsRun(states, actions) && n < |states|
    ensures WholeBlobRead(states[n])
      <==> NothingLeft(states[n].inbound) || (Sealed(states[n].out.sender) && states[n].accepted == [])
  {
    hide Step, IsRun, TransferOk, AllExpected, Sealed;
    RunKeeps(states, actions, n);
    PrefixDelivered(states[n]);
    if AllExpected(states[n].inbound) {
      NothingLeftMeansRead(states[n]);
    } else if WholeBlobRead(states[n]) {
      ReadEarly(states[n]);
    }
  }

  /**
   * The end is reported in two ways. To a reader that had the ring it is always true. To one that found
   * no ring and no failure it is reported as soon as the flag is set, which a complete blob does, but
   * so does a failure.
   */
  lemma EndOfBlobTold(states: seq<Transfer>, actions: seq<Action>, n: nat)
    requires IsRun(states, actions) && n < |actions| && actions[n] == Look
    requires states[n + 1].reader == Told(EndOfBlob)
    ensures states[n].reader == FlagSeen || states[n].reader == StillNoError
    ensures states[n].reader == FlagSeen ==> WholeBlobRead(states[n])
    ensures states[n].reader == StillNoError ==> states[n].reported || states[n].failure.Some?
  {
    hide SendOk, RecvOk, ChunksOk, IsComplete, Sealed;
    RunKeeps(states, actions, n);
    PrefixDelivered(states[n]);
    assert Step(states[n], actions[n], states[n + 1]) && !SendStep(states[n], Look, states[n + 1]);
  }

  /** A reader is told the bytes it is given, each once and in order, and a failure as it was recorded. */
  lemma ReaderIsTold(states: seq<Transfer>, actions: seq<Action>, n: nat)
    requires IsRun(states, actions) && n < |actions| && actions[n] == Look
    ensures match states[n + 1].reader
      case Told(NextBytes(bytes)) => states[n + 1].delivered == states[n].delivered + bytes
      case Told(ReadError(error)) => states[n].failure == Some(error) && states[n + 1].delivered == states[n].delivered
      case _ => states[n + 1].delivered == states[n].delivered
  {
    hide SendStep, IsComplete, Taken;
    assert Step(states[n], actions[n], states[n + 1]);
    assert !SendStep(states[n], Look, states[n + 1]) by { LookIsNotSent(states[n], states[n + 1]); }
  }

  lemma LookIsNotSent(a: Transfer, b: Transfer)
    ensures !SendStep(a, Look, b)
  {
  }

  // ---------------------------------------------------------------- ends that are not true

  const EARLY_LEASE: ChunkWriteLease := ChunkWriteLease(0, [7], true, 5, 0, 1)
  const EARLY_FRAME: ChunkFrame := ChunkFrame(5, 0, [7], true)

  function Started(): Transfer {
    Transfer(Outbound(Open, NewSender(4, 2)), [], {}, {}, NewInbound(4, 2), Awaited, [], {}, {}, {},
             false, false, false, None, Idle)
  }

  /** The same with the ring made. */
  function Made(): Transfer {
    Started().(status := Active)
  }

  function PushedOne(): Transfer {
    Made().(out := Outbound(Open, NewSender(4, 2).(buf := [7])), accepted := [7])
  }

  lemma OneBytePushed()
    ensures Step(Started(), MakeRing, Made())
    ensures Step(Made(), Push(false, [7], Ok(Accepted(1))), PushedOne())
  {
    hide PushStep;
    OneBytePush();
    assert [7][..1] == [7] && [] + [7] == [7];
  }

  lemma OneBytePush()
    ensures PushStep(NewSender(4, 2), [7], 1, NewSender(4, 2).(buf := [7]))
  {
    assert FreshRange(0, 0) == map[];
    assert [7][..1] == [7];
  }

  // First run: the blob is stored and complete, its unread ring expires, and the reader looks before
  // the failure is recorded.

  function SealedOne(): Transfer {
    PushedOne().(out := Outbound(AwaitingComplete, Enqueued(NewSender(4, 2), [7], true)))
  }

  function LeasedOne(): Transfer {
    SealedOne().(out := Outbound(AwaitingComplete, Leased(Enqueued(NewSender(4, 2), [7], true), EARLY_LEASE)),
                 wire := {EARLY_FRAME})
  }

  function StoredOne(): Transfer {
    LeasedOne().(found := {EARLY_FRAME}, acks := {5}, reported := true,
                 inbound := Inbound(4, 2, 1, 0, Some(0), map[0 := [7]]))
  }

  function EarlyStates(): seq<Transfer> {
    var gone := StoredOne().(completed := true, status := Gone);
    [Started(), Made(), PushedOne(), SealedOne(), LeasedOne(), LeasedOne().(found := {EARLY_FRAME}), StoredOne(),
     StoredOne().(completed := true), gone, gone.(reader := NoErrorSeen), gone.(reader := RingMissing),
     gone.(reader := StillNoError), gone.(reader := Told(EndOfBlob))]
  }

  function EarlyActions(): seq<Action> {
    [MakeRing, Push(false, [7], Ok(Accepted(1))), Seal(Ok(true)), Lease(0, 5, Some(EARLY_LEASE)), FindRing(EARLY_FRAME),
     InsertFrame(EARLY_FRAME), StoreCompleted, RemoveRing, Look, Look, Look, Look]
  }

  lemma OneByteSealed()
    ensures Step(PushedOne(), Seal(Ok(true)), SealedOne())
  {
    hide Enqueued;
  }

  lemma OneByteLeased()
    ensures Step(SealedOne(), Lease(0, 5, Some(EARLY_LEASE)), LeasedOne())
  {
    assert {} + {FrameOf(EARLY_LEASE)} == {EARLY_FRAME};
  }

  lemma OneByteStored()
    ensures Step(LeasedOne(), FindRing(EARLY_FRAME), LeasedOne().(found := {EARLY_FRAME}))
    ensures Step(LeasedOne().(found := {EARLY_FRAME}), InsertFrame(EARLY_FRAME), StoredOne())
  {
    hide Enqueued, Leased, Inserted, InsertError, IsDuplicate;
    OneByteInserted();
    assert {} + {EARLY_FRAME} == {EARLY_FRAME} && {} + {5} == {5};
    var found := LeasedOne().(found := {EARLY_FRAME});
    assert RecvStep(LeasedOne(), FindRing(EARLY_FRAME), found);
    assert RecvStep(found, InsertFrame(EARLY_FRAME), StoredOne());
  }

  lemma OneByteInserted()
    ensures var r := NewInbound(4, 2);
      && Inserted(r, 0, [7], true) == Inbound(4, 2, 1, 0, Some(0), map[0 := [7]])
      && InsertError(r, 0, [7], true) == None && !IsDuplicate(r, 0)
  {
    var r := NewInbound(4, 2);
    assert r.received[0 := [7]] == map[0 := [7]];
    FirstMissingUnique(r.received[0 := [7]].Keys, 0, 1);
  }

  lemma EarlySends(i: nat)
    requires i < 6
    ensures Step(EarlyStates()[i], EarlyActions()[i], EarlyStates()[i + 1])
  {
    hide Step, Enqueued, Leased;
    OneBytePushed();
    OneByteSealed();
    OneByteLeased();
    OneByteStored();
  }

  lemma EarlyLooks(i: nat)
    requires 6 <= i < 12
    ensures Step(EarlyStates()[i], EarlyActions()[i], EarlyStates()[i + 1])
  {
    hide SendStep, Enqueued, Leased, FrameInserted;
    assert RecvStep(EarlyStates()[i], EarlyActions()[i], EarlyStates()[i + 1]);
  }

  /** The end may be reported with bytes left unread in a ring that has been taken away. */
  lemma EndMayBeEarly() returns (states: seq<Transfer>, actions: seq<Action>)
    ensures IsRun(states, actions) && states[|actions|].reader == Told(EndOfBlob)
    ensures states[|actions|].delivered == [] && states[|actions|].accepted == [7] && states[|actions|].reported
  {
    hide Step;
    states, actions := EarlyStates(), EarlyActions();
    forall i | 0 <= i < |actions| ensures Step(states[i], actions[i], states[i + 1]) {
      if i < 6 {
        EarlySends(i);
      } else {
        EarlyLooks(i);
      }
    }
  }

  // Second run: nothing has arrived when the stream fails. The ring is taken away, the reader finds
  // neither ring nor failure, and then the failure is recorded and sets the flag.

  function FailedStates(): seq<Transfer> {
    var gone := PushedOne().(status := Gone);
    var failed := gone.(reader := StillNoError, failure := Some(ConnectionLost));
    [Started(), Made(), PushedOne(), gone, gone.(reader := NoErrorSeen), gone.(reader := RingMissing),
     gone.(reader := StillNoError), failed, failed.(completed := true),
     failed.(completed := true, reader := Told(EndOfBlob))]
  }

  function FailedActions(): seq<Action> {
    [MakeRing, Push(false, [7], Ok(Accepted(1))), RemoveRing, Look, Look, Look,
     RecordFailure(ConnectionLost), FlagFailure, Look]
  }

  lemma FailedStep(i: nat)
    requires i < |FailedActions()|
    ensures Step(FailedStates()[i], FailedActions()[i], FailedStates()[i + 1])
  {
    hide SendStep, FrameInserted;
    OneBytePushed();
    if i > 1 {
      assert RecvStep(FailedStates()[i], FailedActions()[i], FailedStates()[i + 1]);
    }
  }

  /** A failure may be reported as the end of the blob, with nothing read and nothing stored. */
  lemma FailureMayLookLikeTheEnd() returns (states: seq<Transfer>, actions: seq<Action>)
    ensures IsRun(states, actions) && states[|actions|].reader == Told(EndOfBlob)
    ensures states[|actions|].delivered == [] && states[|actions|].accepted == [7]
    ensures !states[|actions|].reported && states[|actions|].inbound.received == map[]
  {
    hide Step;
    states, actions := FailedStates(), FailedActions();
    forall i | 0 <= i < |actions| ensures Step(states[i], actions[i], states[i + 1]) {
      FailedStep(i);
    }
  }

  // Third run: the reader looks before the ring is made and finds neither ring nor failure. Then the ring
  // is made and the whole blob is stored in it.

  /** The states of the first run up to the flag, seen by a reader that has looked early. */
  function Overtaken(t: Transfer): Transfer {
    t.(reader := StillNoError)
  }

  function OvertakenStates(): seq<Transfer> {
    var done := Overtaken(StoredOne()).(completed := true);
    [Started(), Started().(reader := NoErrorSeen), Started().(reader := RingMissing), Overtaken(Started()),
     Overtaken(Made()), Overtaken(PushedOne()), Overtaken(SealedOne()), Overtaken(LeasedOne()),
     Overtaken(LeasedOne().(found := {EARLY_FRAME})), Overtaken(StoredOne()), done, done.(reader := Told(EndOfBlob))]
  }

  function OvertakenActions(): seq<Action> {
    [Look, Look, Look, MakeRing, Push(false, [7], Ok(Accepted(1))), Seal(Ok(true)), Lease(0, 5, Some(EARLY_LEASE)),
     FindRing(EARLY_FRAME), InsertFrame(EARLY_FRAME), StoreCompleted, Look]
  }

  lemma SendOvertakes(a: Transfer, action: Action, b: Transfer)
    requires SendStep(a, action, b)
    ensures SendStep(Overtaken(a), action, Overtaken(b))
  {
    hide PushOutboundStep, LeaseOutboundStep, SealAttempt, MarkedInFlight, CallisLost, Answered, AnsweredBy, UnusedId;
  }

  lemma RecvOvertakes(a: Transfer, action: Action, b: Transfer)
    requires RecvStep(a, action, b) && !action.Look?
    ensures RecvStep(Overtaken(a), action, Overtaken(b))
  {
    hide Inserted, InsertError, IsDuplicate, AllExpected, IsComplete;
  }

  /** Steps other than looks do not depend on how far the reader has come. */
  lemma StepOvertakes(a: Transfer, action: Action, b: Transfer)
    requires Step(a, action, b) && !action.Look?
    ensures Step(Overtaken(a), action, Overtaken(b))
  {
    hide SendStep, RecvStep;
    if SendStep(a, action, b) {
      SendOvertakes(a, action, b);
    } else {
      RecvOvertakes(a, action, b);
    }
  }

  lemma OvertakenSends(i: nat)
    requires 3 <= i < 9
    ensures Step(OvertakenStates()[i], OvertakenActions()[i], OvertakenStates()[i + 1])
  {
    hide Step, Enqueued, Leased;
    EarlySends(i - 3);
    StepOvertakes(EarlyStates()[i - 3], EarlyActions()[i - 3], EarlyStates()[i - 2]);
  }

  lemma OvertakenLooks(i: nat)
    requires i < 3 || 9 <= i < 11
    ensures Step(OvertakenStates()[i], OvertakenActions()[i], OvertakenStates()[i + 1])
  {
    hide SendStep, Enqueued, Leased, FrameInserted;
    assert RecvStep(OvertakenStates()[i], OvertakenActions()[i], OvertakenStates()[i + 1]);
  }

  /** The end may be reported while the ring is there with the whole blob unread in it, and nothing has failed. */
  lemma EndMayOvertakeTheRing() returns (states: seq<Transfer>, actions: seq<Action>)
    ensures IsRun(states, actions) && states[|actions|].reader == Told(EndOfBlob)
    ensures states[|actions|].delivered == [] && states[|actions|].accepted == [7]
    ensures states[|actions|].status == Active && states[|actions|].failure == None
  {
    hide Step;
    states, actions := OvertakenStates(), OvertakenActions();
    forall i | 0 <= i < |actions| ensures Step(states[i], actions[i], states[i + 1]) {
      if 3 <= i < 9 {
        OvertakenSends(i);
      } else {
        OvertakenLooks(i);
      }
    }
  }
}
