/** What holds over whole runs of the retained store, for every interleaving of its operations. */
module RetainedRuns {
  import opened Common
  import opened RetainedTypes
  import opened RetainedSpec

  /** A run: each operation leads from one store to the next, starting from a new store. */
  ghost predicate IsRun(stores: seq<Store>, ops: seq<Op>) {
    && |stores| == |ops| + 1
    && (exists caps :: stores[0] == Init(caps))
    && (forall i :: 0 <= i < |ops| ==> Step(stores[i], ops[i], stores[i + 1]))
  }

  // ---------------------------------------------------------------- the invariant

  lemma InvAfterInsert(a: Store, lane: RetainedLane, item: RetainedItem, deadline: Instant, b: Store)
    requires Inv(a)
    requires ItemFitsLane(item, lane)
    requires if item.TrackedItem? then !HoldsTracked(a, item.PeerMsgId()) else !HoldsResponse(a, item.PeerMsgId())
    requires AdmittedIn(a, lane, item, deadline, b)
    ensures Inv(b)
  {
    forall s, t | s in b.entries && t in b.entries && s != t
      ensures Apart(b.entries[s], b.entries[t])
    {
      assert s != a.nextSeq ==> s in a.entries;
      assert t != a.nextSeq ==> t in a.entries;
    }
    forall s | s in b.entries ensures EntryOk(b, s) {
      assert s != a.nextSeq ==> EntryOk(a, s);
    }
    forall s, t | s in b.entries && t in b.entries && s < t && Fresh(b.entries[s]) && Fresh(b.entries[t])
      ensures b.entries[s].turn < b.entries[t].turn
    {
      assert s in a.entries && EntryOk(a, s);
      assert t != a.nextSeq ==> t in a.entries && EntryOk(a, t);
    }
  }

  lemma SeqsBelowNext(a: Store)
    requires Inv(a)
    ensures forall s :: s in a.entries ==> s < a.nextSeq
  {
    forall s | s in a.entries ensures s < a.nextSeq {
      assert EntryOk(a, s);
    }
  }

  /** One entry later in its life: same slot, same item, same deadline, and never fresh again. */
  predicate EvolvesTo(e: Entry, f: Entry) {
    && f.slot == e.slot && f.item == e.item && f.deadline == e.deadline
    && StateFitsItem(f.item, f.state)
    && (Fresh(f) ==> f == e)
  }

  /** Every live entry of `b` is a later form of the same entry of `a`, or was admitted since. */
  ghost predicate Evolves(a: Store, b: Store) {
    && a.nextSeq <= b.nextSeq && a.clock <= b.clock
    && (forall s :: s in b.entries ==>
          if s in a.entries then EvolvesTo(a.entries[s], b.entries[s]) && b.entries[s].turn < b.clock
          else s >= a.nextSeq)
  }

  lemma InvAfterUpdate(a: Store, b: Store)
    requires Inv(a) && Evolves(a, b)
    requires b.entries.Keys <= a.entries.Keys
    requires forall lane :: lane in b.target && b.target[lane] >= 1
    ensures Inv(b)
  {
    forall s | s in b.entries ensures EntryOk(b, s) {
      assert EntryOk(a, s);
    }
    forall s, t | s in b.entries && t in b.entries && s != t
      ensures Apart(b.entries[s], b.entries[t])
    {
      assert Apart(a.entries[s], a.entries[t]);
    }
  }

  predicate IsInsert(op: Op) {
    op.InsertAck? || op.InsertError? || op.InsertTracked?
  }

  lemma RemovalEvolves(a: Store, gone: set<nat>, b: Store)
    requires Inv(a)
    requires b == a.(entries := a.entries - gone, shutdown := b.shutdown)
    ensures Evolves(a, b)
  {
    forall s | s in b.entries ensures EvolvesTo(a.entries[s], b.entries[s]) {
      assert EntryOk(a, s);
    }
  }

  lemma WriteEvolvesEntry(a: Store, claim: RetainedClaim, succeeded: bool, s: nat)
    requires s in a.entries && EntryOk(a, s) && s in AfterWrite(a, claim, succeeded).entries
    ensures var b := AfterWrite(a, claim, succeeded);
      EvolvesTo(a.entries[s], b.entries[s]) && b.entries[s].turn < b.clock
  {
  }

  lemma WriteEvolves(a: Store, claim: RetainedClaim, succeeded: bool)
    requires Inv(a)
    ensures Evolves(a, AfterWrite(a, claim, succeeded))
  {
    hide EvolvesTo, EntryOk;
    var b := AfterWrite(a, claim, succeeded);
    assert b.entries.Keys <= a.entries.Keys && b.nextSeq == a.nextSeq && a.clock <= b.clock;
    forall s | s in b.entries ensures EvolvesTo(a.entries[s], b.entries[s]) && b.entries[s].turn < b.clock {
      assert EntryOk(a, s);
      WriteEvolvesEntry(a, claim, succeeded, s);
    }
  }

  lemma ReplayEvolves(a: Store, who: set<nat>)
    requires Inv(a)
    ensures Evolves(a, MarkedReplay(a, who))
  {
    var b := MarkedReplay(a, who);
    forall s | s in b.entries ensures EvolvesTo(a.entries[s], b.entries[s]) && b.entries[s].turn < b.clock {
      assert EntryOk(a, s);
    }
  }

  lemma CallisLostEvolves(a: Store, callis: CallisId, b: Store)
    requires Inv(a) && CallisLostStep(a, callis, b)
    ensures Evolves(a, b)
  {
    forall s | s in b.entries ensures EvolvesTo(a.entries[s], b.entries[s]) && b.entries[s].turn < b.clock {
      assert EntryOk(a, s) && CallisLostEntry(a.entries[s], callis, b.entries[s]);
    }
  }

  lemma InsertEvolves(a: Store, op: Op, b: Store)
    requires Inv(a) && Step(a, op, b) && IsInsert(op)
    ensures Evolves(a, b)
  {
    forall s | s in b.entries && s in a.entries
      ensures EvolvesTo(a.entries[s], b.entries[s]) && b.entries[s].turn < b.clock {
      assert EntryOk(a, s);
    }
  }

  lemma ClaimEvolves(a: Store, callis: CallisId, out: Option<RetainedClaim>, b: Store)
    requires Inv(a) && ClaimStep(a, callis, out, b)
    ensures Evolves(a, b)
  {
    forall s | s in b.entries ensures EvolvesTo(a.entries[s], b.entries[s]) && b.entries[s].turn < b.clock {
      assert EntryOk(a, s);
    }
  }

  /** The entries an operation takes out of the store without regard to what it answers. */
  function Gone(a: Store, op: Op): set<nat> {
    match op
    case AckReceived(id, _) => TrackedWithId(a, id)
    case FailOne(id, _, _) => TrackedWithId(a, id)
    case FailAll(_, _) => TrackedSeqs(a)
    case FailNonA1(_, _) => TrackedSeqs(a)
    case BeginShutdown(_, _) => TrackedSeqs(a)
    case ExpireDue(now, _) => DueSeqs(a, now)
    case DropResponses => ResponseSeqs(a)
    case _ => {}
  }

  predicate IsRemoval(op: Op) {
    || op.AckReceived? || op.FailOne? || op.FailAll? || op.FailNonA1? || op.BeginShutdown?
    || op.ExpireDue? || op.DropResponses?
  }

  lemma StepEvolves(a: Store, op: Op, b: Store)
    requires Inv(a) && Step(a, op, b)
    ensures Evolves(a, b)
  {
    if IsInsert(op) {
      InsertEvolves(a, op, b);
    } else if IsRemoval(op) {
      RemovalEvolves(a, Gone(a, op), b);
    } else if op.ClaimNext? {
      ClaimEvolves(a, op.callis, op.claimed, b);
    } else if op.CompleteWrite? {
      WriteEvolves(a, op.claim, op.succeeded);
    } else if op.MarkCallisReplayReady? {
      CallisLostEvolves(a, op.callis, b);
    } else if op.MarkAllTrackedReplayReady? {
      ReplayEvolves(a, TrackedSeqs(a));
    } else if op.MarkTrackedReplayReady? {
      ReplayEvolves(a, set s | s in a.entries && a.entries[s].item.PeerMsgId() in op.ids);
    } else {
      RemovalEvolves(a.(target := b.target), {}, b);
    }
  }

  lemma InsertKeepsInv(a: Store, op: Op, b: Store)
    requires Inv(a) && Step(a, op, b) && IsInsert(op)
    ensures Inv(b)
  {
    match op
    case InsertAck(id, deadline, now, out) =>
      if out.Inserted? { InvAfterInsert(a, A1Ack, AckItem(id), deadline, b); }
    case InsertError(id, frame, deadline, now, out) =>
      if out.Inserted? { InvAfterInsert(a, A1Error, ErrorItem(id, frame), deadline, b); }
    case InsertTracked(tracked, deadline, now, out) =>
      if out.Ok? {
        InvAfterInsert(a, TrackedLane(tracked.message.msgType), TrackedItem(tracked), deadline, b);
      }
  }

  lemma StepKeepsInv(a: Store, op: Op, b: Store)
    requires Inv(a) && Step(a, op, b)
    ensures Inv(b)
  {
    if IsInsert(op) {
      InsertKeepsInv(a, op, b);
    } else {
      StepEvolves(a, op, b);
      NoGrowth(a, op, b);
      InvAfterUpdate(a, b);
    }
  }

  lemma NoGrowth(a: Store, op: Op, b: Store)
    requires Inv(a) && Step(a, op, b) && !IsInsert(op)
    ensures b.entries.Keys <= a.entries.Keys
    ensures forall lane :: lane in b.target && b.target[lane] >= 1
  {
  }

  lemma {:induction false} RunKeepsInv(stores: seq<Store>, ops: seq<Op>, i: nat)
    requires IsRun(stores, ops) && i < |stores|
    ensures Inv(stores[i])
  {
    if i == 0 {
    } else {
      RunKeepsInv(stores, ops, i - 1);
      StepKeepsInv(stores[i - 1], ops[i - 1], stores[i]);
    }
  }

  // ---------------------------------------------------------------- capacity

  lemma AdmissionFits(
    a: Store, lane: RetainedLane, item: RetainedItem, deadline: Instant, b: Store, other: RetainedLane)
    requires Inv(a) && AdmittedIn(a, lane, item, deadline, b) && !LaneFull(a, lane)
    ensures |InLane(b.entries, other)| > |InLane(a.entries, other)| ==> |InLane(b.entries, other)| <= b.target[other]
  {
    SeqsBelowNext(a);
    if other == lane {
      assert InLane(b.entries, lane) == InLane(a.entries, lane) + {a.nextSeq};
    } else {
      assert InLane(b.entries, other) == InLane(a.entries, other);
    }
  }

  lemma {:induction false} SubsetIsSmaller(x: set<nat>, y: set<nat>)
    requires x <= y
    ensures |x| <= |y|
  {
    if x == {} {
    } else {
      var s :| s in x;
      SubsetIsSmaller(x - {s}, y - {s});
    }
  }

  /** No step lifts a lane above its target: a lane that grows ends at or below it. */
  lemma GrowthFits(a: Store, op: Op, b: Store, lane: RetainedLane)
    requires Inv(a) && Step(a, op, b)
    ensures Inv(b)
    ensures |InLane(b.entries, lane)| > |InLane(a.entries, lane)| ==>
      |InLane(b.entries, lane)| <= b.target[lane]
  {
    StepKeepsInv(a, op, b);
    if !IsInsert(op) {
      StepEvolves(a, op, b);
      NoGrowth(a, op, b);
      SubsetIsSmaller(InLane(b.entries, lane), InLane(a.entries, lane));
    } else if op.InsertTracked? {
      if op.admission.Ok? {
        AdmissionFits(a, TrackedLane(op.tracked.message.msgType), TrackedItem(op.tracked), op.deadline, b, lane);
      }
    } else if op.response.Inserted? {
      if op.InsertAck? {
        AdmissionFits(a, A1Ack, AckItem(op.id), op.deadline, b, lane);
      } else {
        AdmissionFits(a, A1Error, ErrorItem(op.id, op.frame), op.deadline, b, lane);
      }
    }
  }

  lemma TargetsStay(a: Store, op: Op, b: Store)
    requires Step(a, op, b) && !op.SetCapacities?
    ensures b.target == a.target
  {
  }

  /** While capacities are left alone, no lane ever holds more than its target. */
  lemma {:induction false} LanesStayWithinTarget(stores: seq<Store>, ops: seq<Op>, i: nat, lane: RetainedLane)
    requires IsRun(stores, ops) && i < |stores|
    requires forall k :: 0 <= k < i ==> !ops[k].SetCapacities?
    ensures lane in stores[i].target && |InLane(stores[i].entries, lane)| <= stores[i].target[lane]
  {
    hide Step, InLane;
    RunKeepsInv(stores, ops, i);
    if i == 0 {
      NothingInLane(stores[0].entries, lane);
    } else {
      LanesStayWithinTarget(stores, ops, i - 1, lane);
      RunKeepsInv(stores, ops, i - 1);
      GrowthFits(stores[i - 1], ops[i - 1], stores[i], lane);
      TargetsStay(stores[i - 1], ops[i - 1], stores[i]);
    }
  }

  lemma NothingInLane(entries: map<nat, Entry>, lane: RetainedLane)
    requires entries == map[]
    ensures InLane(entries, lane) == {}
  {
  }

  // ---------------------------------------------------------------- completion conservation

  predicate IsTracked(e: Entry, id: PeerMessageId, tx: CompletionSender) {
    e.item.TrackedItem? && e.item.PeerMsgId() == id && e.item.tracked.ackTx == tx
  }

  predicate HoldsSender(entries: map<nat, Entry>, id: PeerMessageId, tx: CompletionSender) {
    exists s :: s in entries && IsTracked(entries[s], id, tx)
  }

  /** 1 while the message with this id and completion sender is retained, 0 otherwise. */
  function Live(a: Store, id: PeerMessageId, tx: CompletionSender): nat {
    if HoldsSender(a.entries, id, tx) then 1 else 0
  }

  function Admissions(op: Op, id: PeerMessageId, tx: CompletionSender): nat {
    if op.InsertTracked? && op.admission.Ok? && op.tracked.message.peerMsgId == id && op.tracked.ackTx == tx
    then 1 else 0
  }

  function Effects(op: Op): seq<CompletionEffect> {
    match op
    case AckReceived(_, out) => AsSeq(out)
    case FailOne(_, _, out) => AsSeq(out)
    case FailAll(_, outs) => outs
    case FailNonA1(_, outs) => outs
    case BeginShutdown(_, outs) => outs
    case ExpireDue(_, outs) => outs
    case _ => []
  }

  predicate Answers(effect: CompletionEffect, id: PeerMessageId, tx: CompletionSender) {
    effect.peerMsgId == id && effect.ackTx == tx
  }

  function Completions(effects: seq<CompletionEffect>, id: PeerMessageId, tx: CompletionSender): nat {
    if effects == [] then 0
    else (if Answers(effects[0], id, tx) then 1 else 0) + Completions(effects[1..], id, tx)
  }

  lemma {:induction false} CompletionsOfDistinct(
    effects: seq<CompletionEffect>, id: PeerMessageId, tx: CompletionSender)
    requires forall i, j :: 0 <= i < j < |effects| ==> effects[i].peerMsgId != effects[j].peerMsgId
    ensures Completions(effects, id, tx) == if exists e :: e in effects && Answers(e, id, tx) then 1 else 0
  {
    if effects == [] {
    } else {
      CompletionsOfDistinct(effects[1..], id, tx);
      assert effects == [effects[0]] + effects[1..];
    }
  }

  lemma SettlesCounts(
    gone: map<nat, Entry>, effects: seq<CompletionEffect>, result: SendResult,
    id: PeerMessageId, tx: CompletionSender)
    requires Settles(gone, effects, result)
    ensures Completions(effects, id, tx) == if HoldsSender(gone, id, tx) then 1 else 0
  {
    CompletionsOfDistinct(effects, id, tx);
    if HoldsSender(gone, id, tx) {
      var s :| s in gone && IsTracked(gone[s], id, tx);
      assert Answers(EffectFor(gone[s], result), id, tx);
    } else {
      forall e | e in effects ensures !Answers(e, id, tx) {
        assert SettledBy(gone, e, result);
      }
    }
  }

  lemma RemovalConserves(
    a: Store, gone: set<nat>, effects: seq<CompletionEffect>, result: SendResult, b: Store,
    id: PeerMessageId, tx: CompletionSender)
    requires Inv(a) && RemoveStep(a, gone, effects, result, b)
    ensures Live(b, id, tx) + Completions(effects, id, tx) == Live(a, id, tx)
  {
    SettlesCounts(Part(a, gone), effects, result, id, tx);
    if HoldsSender(a.entries, id, tx) {
      var s :| s in a.entries && IsTracked(a.entries[s], id, tx);
      forall t | t in a.entries && IsTracked(a.entries[t], id, tx) ensures t == s {
        assert t != s ==> Apart(a.entries[s], a.entries[t]);
      }
      if s in gone {
        assert s in Part(a, gone);
      } else {
        assert s in b.entries;
      }
    }
  }

  /** Steps that only move entries between states keep every sender that was live. */
  lemma UpdateConserves(a: Store, b: Store, id: PeerMessageId, tx: CompletionSender)
    requires a.entries.Keys <= b.entries.Keys
    requires forall s :: s in a.entries ==> b.entries[s].item == a.entries[s].item
    requires forall s :: s in b.entries && s !in a.entries ==> !IsTracked(b.entries[s], id, tx)
    ensures Live(b, id, tx) == Live(a, id, tx)
  {
    if HoldsSender(a.entries, id, tx) {
      var s :| s in a.entries && IsTracked(a.entries[s], id, tx);
      assert s in b.entries && IsTracked(b.entries[s], id, tx);
    }
    if HoldsSender(b.entries, id, tx) {
      var s :| s in b.entries && IsTracked(b.entries[s], id, tx);
      assert s in a.entries && IsTracked(a.entries[s], id, tx);
    }
  }

  /** A response that leaves after its write carries no completion sender. */
  lemma WriteConserves(a: Store, claim: RetainedClaim, succeeded: bool, id: PeerMessageId, tx: CompletionSender)
    ensures Live(AfterWrite(a, claim, succeeded), id, tx) == Live(a, id, tx)
  {
    var b := AfterWrite(a, claim, succeeded);
    if a.entries.Keys <= b.entries.Keys {
      UpdateConserves(a, b, id, tx);
    } else {
      ResponsesCarryNoSender(a, {claim.identity.seqNo}, b, id, tx);
    }
  }

  lemma ResponsesCarryNoSender(a: Store, gone: set<nat>, b: Store, id: PeerMessageId, tx: CompletionSender)
    requires b.entries == a.entries - gone
    requires forall s :: s in gone && s in a.entries ==> !a.entries[s].item.TrackedItem?
    ensures Live(b, id, tx) == Live(a, id, tx)
  {
    if HoldsSender(a.entries, id, tx) {
      var s :| s in a.entries && IsTracked(a.entries[s], id, tx);
      assert s in b.entries && IsTracked(b.entries[s], id, tx);
    }
  }

  lemma AdmissionConserves(a: Store, op: Op, b: Store, id: PeerMessageId, tx: CompletionSender)
    requires Inv(a) && op.InsertTracked? && Step(a, op, b)
    ensures Live(b, id, tx) == Live(a, id, tx) + Admissions(op, id, tx)
  {
    if op.admission.Err? {
    } else if Admissions(op, id, tx) == 1 {
      assert IsTracked(b.entries[a.nextSeq], id, tx);
      assert !HoldsTracked(a, id);
    } else {
      SeqsBelowNext(a);
      UpdateConserves(a, b, id, tx);
    }
  }

  lemma ResponseInsertConserves(a: Store, op: Op, b: Store, id: PeerMessageId, tx: CompletionSender)
    requires Inv(a) && (op.InsertAck? || op.InsertError?) && Step(a, op, b)
    ensures Live(b, id, tx) == Live(a, id, tx)
  {
    SeqsBelowNext(a);
    UpdateConserves(a, b, id, tx);
  }

  lemma CallisLostConserves(a: Store, callis: CallisId, b: Store, id: PeerMessageId, tx: CompletionSender)
    requires CallisLostStep(a, callis, b)
    ensures Live(b, id, tx) == Live(a, id, tx)
  {
    forall s | s in a.entries ensures b.entries[s].item == a.entries[s].item {
      assert CallisLostEntry(a.entries[s], callis, b.entries[s]);
    }
    UpdateConserves(a, b, id, tx);
  }

  lemma RemovalStepConserves(a: Store, op: Op, b: Store, id: PeerMessageId, tx: CompletionSender)
    requires Inv(a) && Step(a, op, b) && IsRemoval(op)
    ensures Live(b, id, tx) + Completions(Effects(op), id, tx) == Live(a, id, tx)
  {
    hide Inv, Live, Completions, RemoveStep, TrackedSeqs, TrackedWithId, DueSeqs, ResponseSeqs;
    if op.DropResponses? {
      ResponsesCarryNoSender(a, ResponseSeqs(a), b, id, tx) by { OnlyResponses(a); }
      NoCompletions(id, tx);
    } else if op.AckReceived? {
      RemovalConserves(a, Gone(a, op), Effects(op), Delivered, b, id, tx);
    } else if op.ExpireDue? {
      RemovalConserves(a, Gone(a, op), Effects(op), Failed(SendTimeout), b, id, tx);
    } else if op.BeginShutdown? {
      ShutdownFlag(a, id, tx);
      RemovalConserves(a.(shutdown := true), Gone(a, op), Effects(op), Failed(op.error), b, id, tx);
    } else {
      RemovalConserves(a, Gone(a, op), Effects(op), Failed(op.error), b, id, tx);
    }
  }

  lemma OnlyResponses(a: Store)
    ensures forall s :: s in ResponseSeqs(a) && s in a.entries ==> !a.entries[s].item.TrackedItem?
  {
  }

  lemma NoCompletions(id: PeerMessageId, tx: CompletionSender)
    ensures Completions([], id, tx) == 0
  {
  }

  lemma ShutdownFlag(a: Store, id: PeerMessageId, tx: CompletionSender)
    requires Inv(a)
    ensures Inv(a.(shutdown := true)) && Live(a.(shutdown := true), id, tx) == Live(a, id, tx)
  {
    forall s | s in a.entries ensures EntryOk(a.(shutdown := true), s) {
      assert EntryOk(a, s);
    }
  }

  /** Operations that neither admit nor remove. */
  lemma OtherStepConserves(a: Store, op: Op, b: Store, id: PeerMessageId, tx: CompletionSender)
    requires Step(a, op, b) && !IsInsert(op) && !IsRemoval(op)
    ensures Live(b, id, tx) == Live(a, id, tx)
  {
    hide Live;
    if op.CompleteWrite? {
      WriteConserves(a, op.claim, op.succeeded, id, tx);
    } else if op.MarkCallisReplayReady? {
      CallisLostConserves(a, op.callis, b, id, tx);
    } else {
      UpdateConserves(a, b, id, tx);
    }
  }

  /** One step neither loses nor repeats the answer owed to a tracked message. */
  lemma StepConserves(a: Store, op: Op, b: Store, id: PeerMessageId, tx: CompletionSender)
    requires Inv(a) && Step(a, op, b)
    ensures Live(b, id, tx) + Completions(Effects(op), id, tx) == Live(a, id, tx) + Admissions(op, id, tx)
  {
    hide Inv, Step, Live, Completions;
    NoCompletions(id, tx);
    if op.InsertTracked? {
      AdmissionConserves(a, op, b, id, tx);
    } else if IsInsert(op) {
      ResponseInsertConserves(a, op, b, id, tx);
    } else if IsRemoval(op) {
      RemovalStepConserves(a, op, b, id, tx);
    } else {
      OtherStepConserves(a, op, b, id, tx);
    }
  }

  function TotalAdmissions(ops: seq<Op>, id: PeerMessageId, tx: CompletionSender): nat {
    if ops == [] then 0
    else TotalAdmissions(ops[..|ops| - 1], id, tx) + Admissions(ops[|ops| - 1], id, tx)
  }

  function TotalCompletions(ops: seq<Op>, id: PeerMessageId, tx: CompletionSender): nat {
    if ops == [] then 0
    else TotalCompletions(ops[..|ops| - 1], id, tx) + Completions(Effects(ops[|ops| - 1]), id, tx)
  }

  /**
   * Completion conservation. However claims, write failures, replays, expiries, acknowledgements,
   * capacity changes and shutdown interleave, the admissions of a message equal its completions,
   * plus one while it is still retained.
   */
  lemma {:induction false} CompletionConservation(
    stores: seq<Store>, ops: seq<Op>, id: PeerMessageId, tx: CompletionSender)
    requires IsRun(stores, ops)
    ensures TotalAdmissions(ops, id, tx) == TotalCompletions(ops, id, tx) + Live(stores[|ops|], id, tx)
    decreases |ops|
  {
    if ops == [] {
    } else {
      var n := |ops| - 1;
      CompletionConservation(stores[..n + 1], ops[..n], id, tx);
      RunKeepsInv(stores, ops, n);
      StepConserves(stores[n], ops[n], stores[n + 1], id, tx);
    }
  }

  /** With a fresh completion sender per message, nobody is answered twice or before leaving the store. */
  lemma AnsweredExactlyOnce(stores: seq<Store>, ops: seq<Op>, id: PeerMessageId, tx: CompletionSender)
    requires IsRun(stores, ops)
    requires TotalAdmissions(ops, id, tx) == 1
    ensures TotalCompletions(ops, id, tx) == if HoldsSender(stores[|ops|].entries, id, tx) then 0 else 1
  {
    CompletionConservation(stores, ops, id, tx);
  }

  // ---------------------------------------------------------------- stale keys and leases

  lemma EvolvesTransitive(a: Store, b: Store, c: Store)
    requires Evolves(a, b) && Evolves(b, c)
    requires forall s :: s in a.entries ==> s < a.nextSeq
    ensures Evolves(a, c)
  {
  }

  lemma {:induction false} RunEvolves(stores: seq<Store>, ops: seq<Op>, i: nat, j: nat)
    requires IsRun(stores, ops) && i <= j < |stores|
    ensures Evolves(stores[i], stores[j])
    decreases j
  {
    hide Step;
    RunKeepsInv(stores, ops, i);
    if i == j {
      RemovalEvolves(stores[i], {}, stores[i]);
    } else {
      RunEvolves(stores, ops, i, j - 1);
      RunKeepsInv(stores, ops, j - 1);
      SeqsBelowNext(stores[i]);
      StepEvolves(stores[j - 1], ops[j - 1], stores[j]);
      EvolvesTransitive(stores[i], stores[j - 1], stores[j]);
    }
  }

  /**
   * An admission number names one item for ever: while it is live its slot, item and deadline
   * never change, and once it has left the store it never comes back, whoever reuses the slot.
   */
  lemma ItemNeverChanges(stores: seq<Store>, ops: seq<Op>, i: nat, j: nat, s: nat)
    requires IsRun(stores, ops) && i <= j < |stores|
    requires s < stores[i].nextSeq && s in stores[j].entries
    ensures s in stores[i].entries
    ensures stores[j].entries[s].slot == stores[i].entries[s].slot
    ensures stores[j].entries[s].item == stores[i].entries[s].item
    ensures stores[j].entries[s].deadline == stores[i].entries[s].deadline
  {
    RunEvolves(stores, ops, i, j);
  }

  /**
   * A write lease acts only on the item it was made for. If that item is gone when the lease comes
   * back, or is no longer being written by that connection, the completion changes nothing.
   */
  lemma StaleLeaseIsHarmless(stores: seq<Store>, ops: seq<Op>, i: nat, j: nat)
    requires IsRun(stores, ops) && i < j < |ops|
    requires ops[i].ClaimNext? && ops[i].claimed.Some?
    requires ops[j].CompleteWrite? && ops[j].claim == ops[i].claimed.value
    ensures var s := ops[j].claim.identity.seqNo;
      if s in stores[j].entries && stores[j].entries[s].state == Writing(ops[j].claim.callis)
      then && s in stores[i].entries && stores[j].entries[s].item == stores[i].entries[s].item
           && (forall t :: t in stores[j].entries && t != s ==>
             t in stores[j + 1].entries && stores[j + 1].entries[t] == stores[j].entries[t])
           && (s in stores[j + 1].entries ==> stores[j + 1].entries[s].state != stores[j].entries[s].state)
      else stores[j + 1] == stores[j]
  {
    var s := ops[j].claim.identity.seqNo;
    assert Step(stores[i], ops[i], stores[i + 1]);
    assert Step(stores[j], ops[j], stores[j + 1]);
    RunKeepsInv(stores, ops, i);
    assert EntryOk(stores[i], s);
    if s in stores[j].entries {
      ItemNeverChanges(stores, ops, i, j, s);
    }
  }

  // ---------------------------------------------------------------- order

  /** Entry `s` of a tracked lane leaves for the first time at step `i`. */
  ghost predicate FreshClaim(stores: seq<Store>, ops: seq<Op>, i: nat, s: nat)
    requires |stores| == |ops| + 1
  {
    && i < |ops|
    && ops[i].ClaimNext? && ops[i].claimed.Some? && ops[i].claimed.value.identity.seqNo == s
    && s in stores[i].entries && Fresh(stores[i].entries[s])
  }

  /** First sends of one tracked lane happen in admission order, over the whole run. */
  lemma FirstSendsAreFifo(stores: seq<Store>, ops: seq<Op>, i: nat, j: nat, s: nat, t: nat)
    requires IsRun(stores, ops) && i < j
    requires FreshClaim(stores, ops, i, s) && FreshClaim(stores, ops, j, t)
    requires stores[i].entries[s].slot.lane == stores[j].entries[t].slot.lane
    ensures s < t
  {
    assert Step(stores[i], ops[i], stores[i + 1]);
    RunKeepsInv(stores, ops, i);
    RunKeepsInv(stores, ops, j);
    assert EntryOk(stores[i], s) && EntryOk(stores[j], t);
    RunEvolves(stores, ops, i + 1, j);
    if t < stores[i].nextSeq {
      RunEvolves(stores, ops, i, j);
      assert EvolvesTo(stores[i].entries[t], stores[j].entries[t]);
      assert EvolvesTo(stores[i + 1].entries[t], stores[j].entries[t]);
      assert Dispatchable(stores[i], t);
    }
  }

  // ---------------------------------------------------------------- shutdown

  predicate NoTracked(a: Store) {
    forall s :: s in a.entries ==> !a.entries[s].item.TrackedItem?
  }

  lemma StepAfterShutdown(a: Store, op: Op, b: Store)
    requires Inv(a) && Step(a, op, b) && a.shutdown && NoTracked(a)
    ensures b.shutdown && NoTracked(b) && b.entries.Keys <= a.entries.Keys
    ensures op.ClaimNext? && op.claimed.Some? ==> !op.claimed.value.identity.kind.TrackedKind?
  {
    StepEvolves(a, op, b);
    if !IsInsert(op) {
      NoGrowth(a, op, b);
    }
  }

  lemma BeginShutdownClears(a: Store, op: Op, b: Store)
    requires op.BeginShutdown? && Step(a, op, b)
    ensures b.shutdown && NoTracked(b) && b.entries.Keys <= a.entries.Keys
  {
  }

  lemma DrainedMeansEmpty(a: Store)
    requires Inv(a) && NoTracked(a)
    ensures ResponsesDrained(a) <==> a.entries == map[]
  {
    assert forall s :: s in a.entries ==> EntryOk(a, s);
  }

  /**
   * Shutdown drains. From `begin_shutdown` on, no tracked item exists or is claimed, nothing is
   * added, and the response lanes are empty exactly when the store is.
   */
  lemma {:induction false} ShutdownDrains(stores: seq<Store>, ops: seq<Op>, i: nat, j: nat)
    requires IsRun(stores, ops) && i < j < |stores|
    requires ops[i].BeginShutdown?
    ensures stores[j].shutdown && NoTracked(stores[j])
    ensures stores[j].entries.Keys <= stores[i].entries.Keys
    ensures ResponsesDrained(stores[j]) <==> stores[j].entries == map[]
    ensures j < |ops| && ops[j].ClaimNext? && ops[j].claimed.Some? ==>
      !ops[j].claimed.value.identity.kind.TrackedKind?
    decreases j
  {
    hide Step, Inv, ResponsesDrained;
    BeginShutdownClears(stores[i], ops[i], stores[i + 1]);
    if i + 1 < j {
      ShutdownDrains(stores, ops, i, j - 1);
      RunKeepsInv(stores, ops, j - 1);
      StepAfterShutdown(stores[j - 1], ops[j - 1], stores[j]);
    }
    RunKeepsInv(stores, ops, j);
    DrainedMeansEmpty(stores[j]);
    if j < |ops| {
      StepAfterShutdown(stores[j], ops[j], stores[j + 1]);
    }
  }

  /** After shutdown began, the set of retained items only ever shrinks. */
  lemma {:induction false} ShutdownOnlyShrinks(stores: seq<Store>, ops: seq<Op>, i: nat, j: nat, k: nat)
    requires IsRun(stores, ops) && i < j <= k < |stores|
    requires ops[i].BeginShutdown?
    ensures stores[k].entries.Keys <= stores[j].entries.Keys
    decreases k
  {
    hide Step, Inv, ResponsesDrained;
    if j == k {
    } else {
      ShutdownOnlyShrinks(stores, ops, i, j, k - 1);
      ShutdownDrains(stores, ops, i, k - 1);
      RunKeepsInv(stores, ops, k - 1);
      StepAfterShutdown(stores[k - 1], ops[k - 1], stores[k]);
    }
  }

  // ---------------------------------------------------------------- losing a connection

  /**
   * After a connection is lost its leases are all taken back, except those of acknowledgement
   * items: their lane is not swept, so exactly the acknowledgements it was writing stay claimed.
   */
  lemma CallisLossTakesBackLeases(a: Store, callis: CallisId, b: Store, s: nat)
    requires Inv(a) && CallisLostStep(a, callis, b) && s in b.entries
    ensures OnCallis(b.entries[s], callis) <==> OnCallis(a.entries[s], callis) && a.entries[s].slot.lane.A1Ack?
  {
    assert EntryOk(a, s) && CallisLostEntry(a.entries[s], callis, b.entries[s]);
  }

  /**
   * The documented rule that no lease survives its connection fails. In this run an acknowledgement
   * is retained, claimed by a connection and, when that connection is lost, still leased to it.
   */
  lemma AckLeaseSurvivesItsConnection() returns (stores: seq<Store>, ops: seq<Op>)
    ensures IsRun(stores, ops) && |ops| == 3
    ensures ops[1].ClaimNext? && ops[1].claimed.Some? && ops[2] == MarkCallisReplayReady(ops[1].callis)
    ensures var s := ops[1].claimed.value.identity.seqNo;
      s in stores[3].entries && OnCallis(stores[3].entries[s], ops[1].callis)
  {
    var caps := RetainedCapacities(1, 1, 1, 1);
    var e := Entry(SlotId(A1Ack, 0), AckItem(7), 10, Ready, 0);
    var empty := Init(caps);
    var held := empty.(entries := map[1 := e], nextSeq := 2, clock := 1);
    var leased := held.(entries := map[1 := e.(state := Writing(3))]);
    stores := [empty, held, leased, leased];
    ops := [InsertAck(7, 10, 0, Inserted), ClaimNext(3, Some(ClaimOf(1, e, 3))), MarkCallisReplayReady(3)];
    assert empty.entries[1 := e] == held.entries && InLane(empty.entries, A1Ack) == {};
    assert Step(empty, ops[0], held);
    assert held.entries[1 := e.(state := Writing(3))] == leased.entries;
    assert Dispatchable(held, 1) && Step(held, ops[1], leased);
    assert Step(leased, ops[2], leased);
  }
}
