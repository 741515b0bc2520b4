/**
 * Suppression of duplicate inbound messages: a bounded history of accepted message ids, and the
 * attempts under way, each with the duplicates waiting for its outcome.
 */
module SessionDedupe {
  import opened Common

  const MIN_DEDUPE_HISTORY: nat := 128
  const USIZE_MAX: nat := 0xFFFF_FFFF_FFFF_FFFF

  /** Identifies one waiting duplicate: the reply channel it was given. */
  type Waiter = nat

  datatype Decision = Accept | Reject(error: ErrorId) | Abandoned

  /** What is sent to a waiting duplicate. */
  datatype Answer = Answer(waiter: Waiter, decision: Decision)

  datatype Verdict = New | Duplicate | PendingDuplicate(waiter: Waiter)

  /** `accepted` lists every id ever recorded and `used` every waiter ever made; they only grow. */
  datatype Dedupe = Dedupe(
    history: set<PeerMessageId>, order: seq<PeerMessageId>, pending: map<PeerMessageId, seq<Waiter>>,
    accepted: seq<PeerMessageId>, used: set<Waiter>)

  function DedupeLimit(sendQueueSize: nat): (limit: nat)
    ensures MIN_DEDUPE_HISTORY <= limit
    ensures sendQueueSize <= 64 ==> limit == 128
    ensures 64 <= sendQueueSize < 0x8000_0000_0000_0000 ==> limit == 2 * sendQueueSize
  {
    var doubled := if 2 * sendQueueSize > USIZE_MAX then USIZE_MAX else 2 * sendQueueSize;
    if doubled < MIN_DEDUPE_HISTORY then MIN_DEDUPE_HISTORY else doubled
  }

  // ---------------------------------------------------------------- steps

  function Elements(order: seq<PeerMessageId>): set<PeerMessageId> {
    set id | id in order
  }

  function Newest(order: seq<PeerMessageId>, limit: nat): seq<PeerMessageId> {
    if |order| <= limit then order else order[|order| - limit..]
  }

  function Begun(d: Dedupe, id: PeerMessageId, waiter: Waiter): (Verdict, Dedupe) {
    if id in d.history then (Duplicate, d)
    else if id in d.pending then
      (PendingDuplicate(waiter), d.(pending := d.pending[id := d.pending[id] + [waiter]], used := d.used + {waiter}))
    else (New, d.(pending := d.pending[id := []]))
  }

  /** The waiters of the attempt under way, if there is one. */
  function WaitersOf(d: Dedupe, id: PeerMessageId): seq<Waiter> {
    if id in d.pending then d.pending[id] else []
  }

  function DecisionOf(result: Result<Unit, ErrorId>): Decision {
    match result
    case Ok(_) => Accept
    case Err(error) => Reject(error)
  }

  /** Every waiter is sent the same decision, in the order in which they came. */
  function AnswersTo(waiters: seq<Waiter>, decision: Decision): seq<Answer> {
    seq(|waiters|, i requires 0 <= i < |waiters| => Answer(waiters[i], decision))
  }

  function Ended(d: Dedupe, id: PeerMessageId): Dedupe {
    d.(pending := d.pending - {id})
  }

  function Recorded(d: Dedupe, id: PeerMessageId, limit: nat): Dedupe {
    var order := Newest(d.order + [id], limit);
    d.(order := order, history := Elements(order), accepted := d.accepted + [id])
  }

  function Completed(d: Dedupe, id: PeerMessageId, success: bool, limit: nat): Dedupe {
    if success && id !in d.history then Recorded(Ended(d, id), id, limit) else Ended(d, id)
  }

  datatype Event =
    | Begin(id: PeerMessageId, waiter: Waiter, verdict: Verdict)
    | Complete(id: PeerMessageId, result: Result<Unit, ErrorId>, limit: nat, answers: seq<Answer>)
    | Abandon(id: PeerMessageId, answers: seq<Answer>)

  predicate Step(a: Dedupe, e: Event, b: Dedupe) {
    match e
    case Begin(id, waiter, verdict) => waiter !in a.used && (verdict, b) == Begun(a, id, waiter)
    case Complete(id, result, limit, answers) =>
      && MIN_DEDUPE_HISTORY <= limit && answers == AnswersTo(WaitersOf(a, id), DecisionOf(result))
      && b == Completed(a, id, result.Ok?, limit)
    case Abandon(id, answers) => answers == AnswersTo(WaitersOf(a, id), Abandoned) && b == Ended(a, id)
  }

  predicate IsRun(states: seq<Dedupe>, events: seq<Event>) {
    && |states| == |events| + 1 && states[0] == Dedupe({}, [], map[], [], {})
    && forall i :: 0 <= i < |events| ==> Step(states[i], events[i], states[i + 1])
  }

  // ---------------------------------------------------------------- the invariant

  predicate Distinct<T(==)>(s: seq<T>) {
    forall i, j :: 0 <= i < j < |s| ==> s[i] != s[j]
  }

  predicate IsSuffix<T(==)>(part: seq<T>, whole: seq<T>) {
    |part| <= |whole| && part == whole[|whole| - |part|..]
  }

  /** The remembered ids are the newest accepted ones, at least 128 of them once there were that many. */
  predicate HistoryOk(d: Dedupe) {
    && d.history == Elements(d.order) && Distinct(d.order)
    && IsSuffix(d.order, d.accepted)
    && (MIN_DEDUPE_HISTORY <= |d.order| || |d.order| == |d.accepted|)
    && d.pending.Keys !! d.history
  }

  predicate WaitersOk(pending: map<PeerMessageId, seq<Waiter>>, used: set<Waiter>) {
    && (forall id, w :: id in pending && w in pending[id] ==> w in used)
    && (forall id :: id in pending ==> Distinct(pending[id]))
    && (forall i, j, w :: i in pending && j in pending && w in pending[i] && w in pending[j] ==> i == j)
  }

  predicate DedupeOk(d: Dedupe) {
    HistoryOk(d) && WaitersOk(d.pending, d.used)
  }

  lemma SuffixOfSuffix<T>(a: seq<T>, b: seq<T>, c: seq<T>)
    requires IsSuffix(a, b) && IsSuffix(b, c)
    ensures IsSuffix(a, c)
  {
  }

  lemma Appended(order: seq<PeerMessageId>, accepted: seq<PeerMessageId>, id: PeerMessageId)
    requires IsSuffix(order, accepted) && Distinct(order) && id !in order
    ensures IsSuffix(order + [id], accepted + [id]) && Distinct(order + [id])
  {
  }

  lemma NewestOf(order: seq<PeerMessageId>, limit: nat)
    requires Distinct(order) && order != [] && 0 < limit
    ensures var n := Newest(order, limit);
      Distinct(n) && IsSuffix(n, order) && Elements(n) <= Elements(order) && order[|order| - 1] in Elements(n)
    ensures |Newest(order, limit)| <= limit && (|Newest(order, limit)| == |order| || |Newest(order, limit)| == limit)
  {
    var n := Newest(order, limit);
    assert n[|n| - 1] == order[|order| - 1];
  }

  lemma RecordedOk(d: Dedupe, id: PeerMessageId, limit: nat)
    requires HistoryOk(d) && id !in d.history && id !in d.pending && MIN_DEDUPE_HISTORY <= limit
    ensures HistoryOk(Recorded(d, id, limit)) && |Recorded(d, id, limit).order| <= limit
    ensures id in Recorded(d, id, limit).history
  {
    hide Distinct, Newest, Elements, IsSuffix;
    var b := Recorded(d, id, limit);
    OneElementMore(d.order, id);
    Appended(d.order, d.accepted, id);
    NewestOf(d.order + [id], limit);
    SuffixOfSuffix(b.order, d.order + [id], b.accepted);
    SuffixNoLonger(d.order, d.accepted);
  }

  lemma SuffixNoLonger<T>(part: seq<T>, whole: seq<T>)
    requires IsSuffix(part, whole)
    ensures |part| <= |whole|
  {
  }

  lemma OneElementMore(order: seq<PeerMessageId>, id: PeerMessageId)
    ensures Elements(order + [id]) == Elements(order) + {id}
    ensures id in order <==> id in Elements(order)
  {
  }

  lemma BegunWaiters(d: Dedupe, id: PeerMessageId, waiter: Waiter)
    requires WaitersOk(d.pending, d.used) && waiter !in d.used
    ensures WaitersOk(Begun(d, id, waiter).1.pending, Begun(d, id, waiter).1.used)
  {
    var b := Begun(d, id, waiter).1;
    assert forall i, w :: i in b.pending && w in b.pending[i] ==>
      (i in d.pending && w in d.pending[i]) || (i == id && w == waiter);
  }

  lemma EndedOk(d: Dedupe, id: PeerMessageId)
    requires HistoryOk(d)
    ensures HistoryOk(Ended(d, id))
  {
  }

  lemma BegunHistory(d: Dedupe, id: PeerMessageId, waiter: Waiter)
    requires HistoryOk(d)
    ensures HistoryOk(Begun(d, id, waiter).1)
  {
    hide Distinct, Elements;
  }

  lemma StepOk(a: Dedupe, e: Event, b: Dedupe)
    requires DedupeOk(a) && Step(a, e, b)
    ensures DedupeOk(b) && a.accepted <= b.accepted && a.used <= b.used
  {
    hide WaitersOk, HistoryOk, Newest, Elements;
    match e
    case Begin(id, waiter, verdict) =>
      BegunWaiters(a, id, waiter);
      BegunHistory(a, id, waiter);
    case Complete(id, result, limit, answers) =>
      FewerWaiters(a, id);
      EndedOk(a, id);
      if result.Ok? && id !in a.history {
        RecordedOk(Ended(a, id), id, limit);
      }
    case Abandon(id, answers) =>
      FewerWaiters(a, id);
      EndedOk(a, id);
  }

  lemma FewerWaiters(d: Dedupe, id: PeerMessageId)
    requires WaitersOk(d.pending, d.used)
    ensures WaitersOk(d.pending - {id}, d.used)
  {
  }

  lemma {:induction false} RunOk(states: seq<Dedupe>, events: seq<Event>, n: nat)
    requires IsRun(states, events) && n < |states|
    ensures DedupeOk(states[n])
  {
    hide Step, DedupeOk;
    if n == 0 {
      EmptyOk();
    } else {
      RunOk(states, events, n - 1);
      StepOk(states[n - 1], events[n - 1], states[n]);
    }
  }

  lemma EmptyOk()
    ensures DedupeOk(Dedupe({}, [], map[], [], {}))
  {
  }

  // ---------------------------------------------------------------- an id is new once

  predicate GivesUp(e: Event, id: PeerMessageId) {
    e.id == id && (e.Abandon? || (e.Complete? && e.result.Err?))
  }

  predicate GivenUpBetween(events: seq<Event>, i: nat, j: nat, id: PeerMessageId)
    requires j <= |events|
  {
    exists k :: i < k < j && GivesUp(events[k], id)
  }

  predicate AcceptedSince(a: Dedupe, b: Dedupe, id: PeerMessageId) {
    exists p :: |a.accepted| <= p < |b.accepted| && b.accepted[p] == id
  }

  /** Once begun, an attempt is under way until it is given up or its id is recorded. */
  lemma {:induction false} AttemptFate(states: seq<Dedupe>, events: seq<Event>, i: nat, n: nat, id: PeerMessageId)
    requires IsRun(states, events) && i < n < |states| && events[i].Begin? && events[i].id == id
      && events[i].verdict == New
    ensures id in states[n].pending || GivenUpBetween(events, i, n, id) || AcceptedSince(states[i], states[n], id)
  {
    hide DedupeOk;
    var e := events[n - 1];
    assert Step(states[n - 1], e, states[n]);
    if n == i + 1 {
    } else {
      AttemptFate(states, events, i, n - 1, id);
      RunOk(states, events, n - 1);
      StepOk(states[n - 1], e, states[n]);
      if GivenUpBetween(events, i, n - 1, id) {
        var k :| i < k < n - 1 && GivesUp(events[k], id);
        assert GivenUpBetween(events, i, n, id);
      } else if AcceptedSince(states[i], states[n - 1], id) {
        var p :| |states[i].accepted| <= p < |states[n - 1].accepted| && states[n - 1].accepted[p] == id;
        assert states[n].accepted[p] == id;
      } else {
        LogGrows(states, events, i, n - 1);
        FateStep(states, events, i, n, id);
      }
    }
  }

  lemma FateStep(states: seq<Dedupe>, events: seq<Event>, i: nat, n: nat, id: PeerMessageId)
    requires IsRun(states, events) && i + 1 < n < |states| && id in states[n - 1].pending && DedupeOk(states[n - 1])
    requires |states[i].accepted| <= |states[n - 1].accepted|
    ensures id in states[n].pending || GivenUpBetween(events, i, n, id) || AcceptedSince(states[i], states[n], id)
  {
    var e := events[n - 1];
    assert Step(states[n - 1], e, states[n]);
    if id !in states[n].pending {
      assert e.id == id && !e.Begin?;
      if e.Complete? && e.result.Ok? {
        assert id !in states[n - 1].history;
        assert states[n].accepted[|states[n - 1].accepted|] == id;
      } else {
        assert GivesUp(events[n - 1], id);
      }
    }
  }

  lemma {:induction false} LogGrows(states: seq<Dedupe>, events: seq<Event>, i: nat, n: nat)
    requires IsRun(states, events) && i <= n < |states|
    ensures states[i].accepted <= states[n].accepted && states[i].used <= states[n].used
  {
    hide DedupeOk, Step;
    if i == n {
    } else {
      LogGrows(states, events, i, n - 1);
      RunOk(states, events, n - 1);
      StepOk(states[n - 1], events[n - 1], states[n]);
    }
  }

  /** At least 128 other ids, all different, were recorded after the last time `id` was. */
  predicate Forgotten(d: Dedupe, since: nat, id: PeerMessageId) {
    && MIN_DEDUPE_HISTORY <= |d.accepted|
    && Distinct(d.accepted[|d.accepted| - MIN_DEDUPE_HISTORY..])
    && id !in d.accepted[|d.accepted| - MIN_DEDUPE_HISTORY..]
    && exists p :: since <= p && p + MIN_DEDUPE_HISTORY < |d.accepted| && d.accepted[p] == id
  }

  /**
   * The same id is taken for new twice only if the first attempt was given up, or its acceptance has
   * since been followed by at least 128 other accepted ids.
   */
  lemma NewOnlyOnce(states: seq<Dedupe>, events: seq<Event>, i: nat, j: nat, id: PeerMessageId)
    requires IsRun(states, events) && i < j < |events|
    requires events[i].Begin? && events[i].id == id && events[i].verdict == New
    requires events[j].Begin? && events[j].id == id && events[j].verdict == New
    ensures GivenUpBetween(events, i, j, id) || Forgotten(states[j], |states[i].accepted|, id)
  {
    hide WaitersOk;
    AttemptFate(states, events, i, j, id);
    RunOk(states, events, j);
    var d := states[j];
    assert Step(d, events[j], states[j + 1]) && id !in d.pending && id !in d.history;
    if !GivenUpBetween(events, i, j, id) {
      var p :| |states[i].accepted| <= p < |d.accepted| && d.accepted[p] == id;
      NotRemembered(d, p);
      RecentIds(d);
      assert id !in d.order;
    }
  }

  lemma NotRemembered(d: Dedupe, p: nat)
    requires HistoryOk(d) && p < |d.accepted| && d.accepted[p] !in d.history
    ensures p < |d.accepted| - |d.order|
  {
    assert forall k :: |d.accepted| - |d.order| <= k < |d.accepted| ==>
      d.accepted[k] == d.order[k - (|d.accepted| - |d.order|)];
  }

  lemma RecentIds(d: Dedupe)
    requires HistoryOk(d) && MIN_DEDUPE_HISTORY <= |d.order|
    ensures Distinct(d.accepted[|d.accepted| - MIN_DEDUPE_HISTORY..])
    ensures forall x :: x in d.accepted[|d.accepted| - MIN_DEDUPE_HISTORY..] ==> x in d.order
  {
    var recent := d.accepted[|d.accepted| - MIN_DEDUPE_HISTORY..];
    assert recent == d.order[|d.order| - MIN_DEDUPE_HISTORY..];
  }

  // ---------------------------------------------------------------- every waiter is answered once

  predicate Ends(e: Event, id: PeerMessageId) {
    e.id == id && !e.Begin?
  }

  lemma {:induction false} StillWaiting(states: seq<Dedupe>, events: seq<Event>, i: nat, n: nat)
    requires IsRun(states, events) && i < n < |states| && events[i].Begin? && events[i].verdict.PendingDuplicate?
    requires forall k :: i < k < n ==> !Ends(events[k], events[i].id)
    ensures events[i].id in states[n].pending && events[i].waiter in states[n].pending[events[i].id]
  {
    assert Step(states[n - 1], events[n - 1], states[n]);
    if n > i + 1 {
      StillWaiting(states, events, i, n - 1);
    } else {
      assert states[n].pending[events[i].id][|states[i].pending[events[i].id]|] == events[i].waiter;
    }
  }

  predicate WaitingIn(d: Dedupe, waiter: Waiter) {
    exists id :: id in d.pending && waiter in d.pending[id]
  }

  lemma {:induction false} StaysAnswered(states: seq<Dedupe>, events: seq<Event>, k: nat, n: nat, waiter: Waiter)
    requires IsRun(states, events) && k <= n < |states|
    requires waiter in states[k].used && !WaitingIn(states[k], waiter)
    ensures !WaitingIn(states[n], waiter)
  {
    if k == n {
    } else {
      StaysAnswered(states, events, k, n - 1, waiter);
      LogGrows(states, events, k, n - 1);
      assert Step(states[n - 1], events[n - 1], states[n]);
      forall id | id in states[n].pending ensures waiter !in states[n].pending[id] {
        assert id in states[n - 1].pending ==> waiter !in states[n - 1].pending[id];
      }
    }
  }

  function AnswersOf(e: Event): seq<Answer> {
    if e.Begin? then [] else e.answers
  }

  predicate AnswersNothing(e: Event, waiter: Waiter) {
    forall n :: 0 <= n < |AnswersOf(e)| ==> AnswersOf(e)[n].waiter != waiter
  }

  predicate AnswersOnce(e: Event, waiter: Waiter, decision: Decision) {
    exists n :: 0 <= n < |AnswersOf(e)| && AnswersOf(e)[n] == Answer(waiter, decision)
                && forall m :: 0 <= m < |AnswersOf(e)| && m != n ==> AnswersOf(e)[m].waiter != waiter
  }

  /** The waiter is told, once, what the event that ends the attempt says about it. */
  predicate TellsOutcome(e: Event, waiter: Waiter) {
    match e
    case Begin(_, _, _) => false
    case Complete(_, Ok(_), _, _) => AnswersOnce(e, waiter, Accept)
    case Complete(_, Err(error), _, _) => AnswersOnce(e, waiter, Reject(error))
    case Abandon(_, _) => AnswersOnce(e, waiter, Abandoned)
  }

  /** An event answers those, and only those, that wait for the attempt it ends. */
  lemma AnswersWaiting(a: Dedupe, e: Event, b: Dedupe, waiter: Waiter)
    requires Step(a, e, b) && WaitersOk(a.pending, a.used)
    ensures if !e.Begin? && e.id in a.pending && waiter in a.pending[e.id]
      then TellsOutcome(e, waiter) else AnswersNothing(e, waiter)
  {
    if !e.Begin? {
      var waiters := WaitersOf(a, e.id);
      var decision := if e.Complete? then DecisionOf(e.result) else Abandoned;
      assert e.answers == AnswersTo(waiters, decision) && Distinct(waiters);
      if waiter in waiters {
        var n :| 0 <= n < |waiters| && waiters[n] == waiter;
        assert AnswersOf(e)[n] == Answer(waiter, decision);
      }
    }
  }

  /** Nobody is answered before waiting, nor by an event about another attempt. */
  lemma NotAnsweredEarly(states: seq<Dedupe>, events: seq<Event>, i: nat, l: nat)
    requires IsRun(states, events) && i < |events| && l < |events|
    requires events[i].Begin? && events[i].verdict.PendingDuplicate?
    requires forall m :: i < m <= l ==> !Ends(events[m], events[i].id)
    ensures AnswersNothing(events[l], events[i].waiter)
  {
    hide HistoryOk, AnswersNothing, AnswersOnce, TellsOutcome;
    var w := events[i].waiter;
    assert Step(states[i], events[i], states[i + 1]) && Step(states[l], events[l], states[l + 1]);
    RunOk(states, events, l);
    AnswersWaiting(states[l], events[l], states[l + 1], w);
    if l < i {
      LogGrows(states, events, l, i);
      assert w !in states[l].used;
    } else if l > i {
      StillWaiting(states, events, i, l);
    }
  }

  /**
   * The first event that ends the attempt sends the waiter its outcome, once: accepted, rejected with
   * the error, or given up. No other event of the run ever answers it.
   */
  lemma AnsweredExactlyOnce(states: seq<Dedupe>, events: seq<Event>, i: nat, k: nat, l: nat)
    requires IsRun(states, events) && i < k < |events| && l < |events|
    requires events[i].Begin? && events[i].verdict.PendingDuplicate?
    requires Ends(events[k], events[i].id) && forall m :: i < m < k ==> !Ends(events[m], events[i].id)
    ensures if l == k then TellsOutcome(events[l], events[i].waiter)
      else AnswersNothing(events[l], events[i].waiter)
  {
    hide HistoryOk, AnswersNothing, AnswersOnce, TellsOutcome;
    var w := events[i].waiter;
    if l < k {
      NotAnsweredEarly(states, events, i, l);
    } else {
      assert Step(states[i], events[i], states[i + 1]) && Step(states[k], events[k], states[k + 1]);
      assert Step(states[l], events[l], states[l + 1]);
      RunOk(states, events, l);
      RunOk(states, events, k);
      AnswersWaiting(states[l], events[l], states[l + 1], w);
      StillWaiting(states, events, i, k);
      if l > k {
        assert !WaitingIn(states[k + 1], w);
        LogGrows(states, events, i + 1, k + 1);
        StaysAnswered(states, events, k + 1, l, w);
      }
    }
  }

  /** While the attempt has not ended its waiters are left without an answer. */
  lemma UnansweredWhileOpen(states: seq<Dedupe>, events: seq<Event>, i: nat, l: nat)
    requires IsRun(states, events) && i < |events| && l < |events|
    requires events[i].Begin? && events[i].verdict.PendingDuplicate?
    requires forall m :: i < m < |events| ==> !Ends(events[m], events[i].id)
    ensures AnswersNothing(events[l], events[i].waiter)
    ensures events[i].id in states[|events|].pending && events[i].waiter in states[|events|].pending[events[i].id]
  {
    NotAnsweredEarly(states, events, i, l);
    StillWaiting(states, events, i, |events|);
  }

  // ---------------------------------------------------------------- verdicts, from the events alone

  predicate BeginsNew(e: Event, id: PeerMessageId) {
    e.Begin? && e.id == id && e.verdict == New
  }

  /** An attempt was begun and has not ended. */
  predicate OpenAt(events: seq<Event>, n: nat, id: PeerMessageId)
    requires n <= |events|
  {
    exists i :: 0 <= i < n && BeginsNew(events[i], id) && forall k :: i < k < n ==> !Ends(events[k], id)
  }

  predicate Accepts(e: Event, id: PeerMessageId) {
    e.Complete? && e.id == id && e.result.Ok?
  }

  function AcceptCount(events: seq<Event>, from: nat, n: nat): nat
    requires from <= n <= |events|
    decreases n
  {
    if from == n then 0
    else AcceptCount(events, from, n - 1) + if events[n - 1].Complete? && events[n - 1].result.Ok? then 1 else 0
  }

  lemma OpenStep(events: seq<Event>, n: nat, id: PeerMessageId)
    requires n < |events|
    ensures OpenAt(events, n + 1, id) <==> BeginsNew(events[n], id) || (OpenAt(events, n, id) && !Ends(events[n], id))
  {
    hide BeginsNew, Ends;
    if OpenAt(events, n, id) && !Ends(events[n], id) {
      var i :| 0 <= i < n && BeginsNew(events[i], id) && forall k :: i < k < n ==> !Ends(events[k], id);
      assert 0 <= i < n + 1 && forall k :: i < k < n + 1 ==> !Ends(events[k], id);
    }
  }

  lemma {:induction false} PendingIff(states: seq<Dedupe>, events: seq<Event>, n: nat, id: PeerMessageId)
    requires IsRun(states, events) && n <= |events|
    ensures id in states[n].pending <==> OpenAt(events, n, id)
    decreases n
  {
    hide OpenAt;
    if n == 0 {
      NothingOpen(events, id);
    } else {
      PendingIff(states, events, n - 1, id);
      OpenStep(events, n - 1, id);
      assert Step(states[n - 1], events[n - 1], states[n]);
    }
  }

  lemma NothingOpen(events: seq<Event>, id: PeerMessageId)
    ensures !OpenAt(events, 0, id)
  {
  }

  lemma LogStep(a: Dedupe, e: Event, b: Dedupe)
    requires Step(a, e, b)
    ensures b.accepted == a.accepted || (Accepts(e, e.id) && b.accepted == a.accepted + [e.id])
  {
  }

  lemma {:induction false} LoggedWasAccepted(states: seq<Dedupe>, events: seq<Event>, n: nat, id: PeerMessageId)
      returns (k: nat)
    requires IsRun(states, events) && n <= |events| && id in states[n].accepted
    ensures k < n && Accepts(events[k], id)
    decreases n
  {
    hide Step;
    if n == 0 {
      assert false;
    } else if id in states[n - 1].accepted {
      k := LoggedWasAccepted(states, events, n - 1, id);
    } else {
      LogStep(states[n - 1], events[n - 1], states[n]);
      k := n - 1;
    }
  }

  lemma {:induction false} LogBounded(states: seq<Dedupe>, events: seq<Event>, m: nat, n: nat)
    requires IsRun(states, events) && m <= n <= |events|
    ensures states[m].accepted <= states[n].accepted
    ensures |states[n].accepted| <= |states[m].accepted| + AcceptCount(events, m, n)
    decreases n
  {
    hide Step;
    if m == n {
    } else {
      LogBounded(states, events, m, n - 1);
      LogStep(states[n - 1], events[n - 1], states[n]);
    }
  }

  lemma AcceptanceIsLogged(a: Dedupe, e: Event, b: Dedupe, id: PeerMessageId)
    requires DedupeOk(a) && Step(a, e, b) && Accepts(e, id) && id in a.pending
    ensures b.accepted == a.accepted + [id]
  {
  }

  /** An accepted message is remembered until 128 others were accepted. */
  lemma AcceptedIsRemembered(states: seq<Dedupe>, events: seq<Event>, k: nat, n: nat, id: PeerMessageId)
    requires IsRun(states, events) && k < n <= |events| && Accepts(events[k], id) && OpenAt(events, k, id)
    requires AcceptCount(events, k + 1, n) < 128
    ensures id in states[n].history
  {
    hide Step, WaitersOk, OpenAt;
    PendingIff(states, events, k, id);
    RunOk(states, events, k);
    RunOk(states, events, n);
    AcceptanceIsLogged(states[k], events[k], states[k + 1], id);
    LogBounded(states, events, k + 1, n);
    var p := |states[k].accepted|;
    assert states[n].accepted[p] == states[k + 1].accepted[p] == id;
    RecentIsRemembered(states[n], p);
  }

  lemma RecentIsRemembered(d: Dedupe, p: nat)
    requires HistoryOk(d) && |d.accepted| - 128 <= p < |d.accepted|
    ensures d.accepted[p] in d.history
  {
    assert d.accepted[p] == d.order[p - (|d.accepted| - |d.order|)];
  }

  /**
   * What a message is told when it comes: that it waits for an attempt, if and only if one is open; that
   * it is a duplicate only if it was accepted before; and that it is new only if every acceptance of it
   * is 128 other acceptances ago.
   */
  lemma VerdictFromEvents(states: seq<Dedupe>, events: seq<Event>, n: nat)
    requires IsRun(states, events) && n < |events| && events[n].Begin?
    ensures var id := events[n].id;
      match events[n].verdict
      case PendingDuplicate(waiter) => waiter == events[n].waiter && OpenAt(events, n, id)
      case Duplicate => !OpenAt(events, n, id) && exists k :: 0 <= k < n && Accepts(events[k], id)
      case New =>
        && !OpenAt(events, n, id)
        && forall k :: 0 <= k < n && Accepts(events[k], id) && OpenAt(events, k, id) ==>
          AcceptCount(events, k + 1, n) >= 128
  {
    hide OpenAt, Accepts, WaitersOk;
    var id := events[n].id;
    assert Step(states[n], events[n], states[n + 1]);
    RunOk(states, events, n);
    PendingIff(states, events, n, id);
    if id in states[n].history {
      HistoryIsLogged(states[n], id);
      var k := LoggedWasAccepted(states, events, n, id);
    } else {
      forall k | 0 <= k < n && Accepts(events[k], id) && OpenAt(events, k, id)
        ensures AcceptCount(events, k + 1, n) >= 128
      {
        if AcceptCount(events, k + 1, n) < 128 {
          AcceptedIsRemembered(states, events, k, n, id);
          assert false;
        }
      }
    }
  }

  lemma HistoryIsLogged(d: Dedupe, id: PeerMessageId)
    requires HistoryOk(d) && id in d.history
    ensures id in d.accepted
  {
  }

  // ---------------------------------------------------------------- the state itself

  lemma CompleteParts(d: Dedupe, id: PeerMessageId, limit: nat)
    requires DedupeOk(d) && MIN_DEDUPE_HISTORY <= limit
    ensures id !in d.history ==> d.history + {id} == Elements(d.order + [id]) && Distinct(d.order + [id])
    ensures id !in d.history ==> var b := Recorded(Ended(d, id), id, limit); id in b.history && |b.order| <= limit
  {
    hide Distinct, IsSuffix, Newest, Elements, WaitersOk;
    if id !in d.history {
      OneElementMore(d.order, id);
      Appended(d.order, d.accepted, id);
      EndedOk(d, id);
      RecordedOk(Ended(d, id), id, limit);
    }
  }

  method SendAll(waiters: seq<Waiter>, decision: Decision) returns (answers: seq<Answer>)
    ensures answers == AnswersTo(waiters, decision)
  {
    answers := [];
    for i := 0 to |waiters|
      invariant answers == AnswersTo(waiters[..i], decision)
    {
      answers := answers + [Answer(waiters[i], decision)];
    }
    assert waiters[..|waiters|] == waiters;
  }

  class DedupeState {
    var history: set<PeerMessageId>
    var order: seq<PeerMessageId>
    var pending: map<PeerMessageId, seq<Waiter>>
    ghost var accepted: seq<PeerMessageId>
    ghost var used: set<Waiter>

    ghost function State(): Dedupe
      reads this
    {
      Dedupe(history, order, pending, accepted, used)
    }

    constructor ()
      ensures State() == Dedupe({}, [], map[], [], {}) && DedupeOk(State())
    {
      history, order, pending, accepted, used := {}, [], map[], [], {};
    }

    method Begin(id: PeerMessageId, waiter: Waiter) returns (verdict: Verdict)
      requires DedupeOk(State()) && waiter !in used
      modifies this
      ensures DedupeOk(State()) && (verdict, State()) == Begun(old(State()), id, waiter)
    {
      hide DedupeOk;
      StepOk(State(), Event.Begin(id, waiter, Begun(State(), id, waiter).0), Begun(State(), id, waiter).1);
      if id in history {
        return Duplicate;
      }
      if id in pending {
        pending := pending[id := pending[id] + [waiter]];
        used := used + {waiter};
        return PendingDuplicate(waiter);
      }
      pending := pending[id := []];
      return New;
    }

    /** Ends an attempt, and returns what its waiters are sent. */
    method Complete(id: PeerMessageId, result: Result<Unit, ErrorId>, sendQueueSize: nat)
      returns (answers: seq<Answer>)
      requires DedupeOk(State())
      modifies this
      ensures DedupeOk(State()) && answers == AnswersTo(WaitersOf(old(State()), id), DecisionOf(result))
      ensures State() == Completed(old(State()), id, result.Ok?, DedupeLimit(sendQueueSize))
      ensures forall i :: 0 <= i < |answers| ==>
        answers[i].decision == if result.Ok? then Accept else Reject(result.error)
      ensures result.Ok? ==> id in history && (id !in old(history) ==> |order| <= DedupeLimit(sendQueueSize))
    {
      hide DedupeOk, HistoryOk, Newest, Elements, Distinct;
      StepOk(State(),
             Event.Complete(id, result, DedupeLimit(sendQueueSize),
                            AnswersTo(WaitersOf(State(), id), DecisionOf(result))),
             Completed(State(), id, result.Ok?, DedupeLimit(sendQueueSize)));
      var waiters := if id in pending then pending[id] else [];
      CompleteParts(State(), id, DedupeLimit(sendQueueSize));
      pending := pending - {id};
      if result.Ok? && id !in history {
        history := history + {id};
        order := order + [id];
        accepted := accepted + [id];
        Evict(DedupeLimit(sendQueueSize));
      }
      answers := SendAll(waiters, DecisionOf(result));
    }

    method Evict(limit: nat)
      requires history == Elements(order) && Distinct(order)
      modifies `history, `order
      ensures order == Newest(old(order), limit) && history == Elements(order)
    {
      while |order| > limit
        invariant history == Elements(order) && Distinct(order)
        invariant |order| <= |old(order)| && order == old(order)[|old(order)| - |order|..]
        invariant |order| == |old(order)| || |order| >= limit
      {
        var evicted := order[0];
        order := order[1..];
        history := history - {evicted};
      }
    }

    method Abandon(id: PeerMessageId) returns (answers: seq<Answer>)
      requires DedupeOk(State())
      modifies this
      ensures DedupeOk(State()) && State() == Ended(old(State()), id)
      ensures answers == AnswersTo(WaitersOf(old(State()), id), Abandoned)
    {
      hide DedupeOk;
      StepOk(State(), Event.Abandon(id, AnswersTo(WaitersOf(State(), id), Abandoned)), Ended(State(), id));
      var waiters := if id in pending then pending[id] else [];
      pending := pending - {id};
      answers := SendAll(waiters, Abandoned);
    }

    /** Forgets everything, including the waiters, whose channels close unanswered. */
    method Clear()
      requires DedupeOk(State())
      modifies this
      ensures DedupeOk(State()) && State() == Dedupe({}, [], map[], [], old(used))
    {
      history, order, pending, accepted := {}, [], map[], [];
    }
  }
}
