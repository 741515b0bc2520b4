/**
 * How long a blob stream can be passed over. With `k` transmitters and `m` streams there may be as
 * many picks of other streams as there are ways to choose `k` of `k + m - 1`, less one: with a single
 * transmitter `m - 1`, with more transmitters more, because each of them may act on an old look.
 */
module BlobFairness {
  import opened Common
  import opened BlobDispatch

  ghost predicate IsRun(states: seq<Turns>, actions: seq<Action>) {
    && |states| == |actions| + 1
    && forall i :: 0 <= i < |actions| ==> Step(states[i], actions[i], states[i + 1])
  }

  predicate PicksStream(action: Action, x: StreamId) {
    action.Pick? && action.picked == Some(x)
  }

  /** When asked, the stream gives a chunk to be sent again if any stream does, and else a new one. */
  predicate Competes(action: Action, x: StreamId) {
    action.Pick? && x in action.answers ==> Sends(action.answers[x], AnySends(action.answers, true))
  }

  /** All along, `x` is there with chunks whose turn it is, and the streams there are belong to `ever`. */
  ghost predicate Serves(states: seq<Turns>, actions: seq<Action>, x: StreamId, ever: set<StreamId>) {
    && (forall i :: 0 <= i < |states| ==> x in states[i].streams && states[i].streams <= ever)
    && (forall i :: 0 <= i < |actions| ==> Competes(actions[i], x))
  }

  function PickCount(action: Action): nat {
    if action.Pick? && action.picked.Some? then 1 else 0
  }

  function Picks(actions: seq<Action>): nat {
    if actions == [] then 0 else Picks(actions[..|actions| - 1]) + PickCount(actions[|actions| - 1])
  }

  predicate AllIdle(s: Turns) {
    forall w :: 0 <= w < |s.workers| ==> s.workers[w].Idle?
  }

  // ---------------------------------------------------------------- which kind of chunk is picked

  predicate GivesAgain(offer: Offer) {
    offer.again && offer.givesAgain
  }

  predicate GivesNew(offer: Offer) {
    offer.anew && offer.givesAnew
  }

  /**
   * Nothing new is sent while any stream seen at the look has a chunk to send again, and nothing is
   * picked only if none of them has anything. Among those that have such a chunk the one whose turn comes
   * first, counted from the cursor as it was at the look, is picked.
   */
  lemma AgainBeforeNew(states: seq<Turns>, actions: seq<Action>, m: nat, n: nat, w: nat)
    requires IsRun(states, actions) && m < n < |actions| && actions[m] == Look(w)
    requires actions[n].Pick? && actions[n].w == w
    requires forall k :: m < k < n ==> !(actions[k].Pick? && actions[k].w == w)
    ensures actions[n].answers.Keys == states[m].streams
    ensures var offers, start := actions[n].answers, if states[m].cursor.Some? then states[m].cursor.value else 0;
      match actions[n].picked
      case None => forall y :: y in offers ==> !GivesAgain(offers[y]) && !GivesNew(offers[y])
      case Some(x) =>
        if exists y :: y in offers && GivesAgain(offers[y]) then
          && x in offers && GivesAgain(offers[x])
          && forall y :: y in offers && y != x && GivesAgain(offers[y]) ==> Before(start, x, y)
        else
          && x in offers && GivesNew(offers[x])
          && forall y :: y in offers && y != x && GivesNew(offers[y]) ==> Before(start, x, y)
  {
    hide Before;
    LookIsKept(states, actions, m, n, w);
    assert Step(states[n], actions[n], states[n + 1]);
  }

  lemma {:induction false} LookIsKept(states: seq<Turns>, actions: seq<Action>, m: nat, n: nat, w: nat)
    requires IsRun(states, actions) && m < n <= |actions| && actions[m] == Look(w)
    requires forall k :: m < k < n ==> !(actions[k].Pick? && actions[k].w == w)
    ensures w < |states[n].workers| && states[n].workers[w] == Looked(states[m].streams, Start(states[m].cursor))
    decreases n
  {
    hide PickStep, IsNextAfter;
    assert Step(states[n - 1], actions[n - 1], states[n]);
    if n == m + 1 {
    } else {
      LookIsKept(states, actions, m, n - 1, w);
    }
  }

  // ---------------------------------------------------------------- ranks

  /** The streams whose turn comes before `x`. */
  function Ahead(ever: set<StreamId>, start: StreamId, x: StreamId): set<StreamId> {
    set y | y in ever && Before(start, y, x)
  }

  function Rank(ever: set<StreamId>, start: StreamId, x: StreamId): nat {
    |Ahead(ever, start, x)|
  }

  lemma {:induction false} Fewer<T>(a: set<T>, b: set<T>)
    requires a <= b
    ensures |a| <= |b|
    decreases a
  {
    if a == {} {
    } else {
      var x :| x in a;
      Fewer(a - {x}, b - {x});
    }
  }

  lemma RankBelow(ever: set<StreamId>, start: StreamId, x: StreamId)
    requires x in ever
    ensures Rank(ever, start, x) < |ever|
  {
    Fewer(Ahead(ever, start, x), ever - {x});
  }

  /** Moving the cursor past a stream that was ahead of `x` leaves fewer ahead, whatever opened or ended meanwhile. */
  lemma RankDrops(
    ever: set<StreamId>, start: StreamId, picked: StreamId, left: set<StreamId>, next: StreamId, x: StreamId)
    requires picked in Ahead(ever, start, x) && x in left && left <= ever
    requires IsNextAfter(left, picked, Some(next))
    ensures Rank(ever, next, x) < Rank(ever, start, x)
  {
    assert Ahead(ever, next, x) <= Ahead(ever, start, x) - {picked};
    Fewer(Ahead(ever, next, x), Ahead(ever, start, x) - {picked});
  }

  // ---------------------------------------------------------------- the most picks there can be

  /** Picks of other streams that `n` idle transmitters can make when `c` streams are ahead. */
  function Worst(n: nat, c: nat): nat {
    if n == 0 || c == 0 then 0 else Worst(n - 1, c) + 1 + Worst(n, c - 1)
  }

  function Choose(n: nat, k: nat): nat {
    if k == 0 then 1 else if n == 0 then 0 else Choose(n - 1, k - 1) + Choose(n - 1, k)
  }

  lemma {:induction false} ChooseAll(n: nat, more: nat)
    ensures Choose(n, n) == 1 && Choose(n, n + 1 + more) == 0
  {
    if n == 0 {
    } else {
      ChooseAll(n - 1, more);
      ChooseAll(n - 1, more + 1);
      ChooseAll(n - 1, 0);
    }
  }

  lemma {:induction false} WorstIsChoose(n: nat, c: nat)
    ensures Worst(n, c) + 1 == Choose(n + c, n)
  {
    if n == 0 {
    } else if c == 0 {
      ChooseAll(n, 0);
    } else {
      WorstIsChoose(n - 1, c);
      WorstIsChoose(n, c - 1);
    }
  }

  lemma {:induction false} WorstGrows(n: nat, c: nat, d: nat)
    requires c <= d
    ensures Worst(n, c) <= Worst(n, d)
    decreases n, d
  {
    if n == 0 || c == 0 {
    } else {
      WorstGrows(n - 1, c, d);
      WorstGrows(n, c - 1, d - 1);
    }
  }

  lemma {:induction false} WorstAlone(c: nat)
    ensures Worst(1, c) == c
  {
    if c == 0 {
    } else {
      WorstAlone(c - 1);
    }
  }

  /** What one transmitter adds to that: its next pick, and what follows when it moves the cursor. */
  function Free(n: nat, c: nat): nat {
    if c == 0 then 0 else 1 + Worst(n, c - 1)
  }

  lemma FreeGrows(n: nat, c: nat, d: nat)
    requires c <= d
    ensures Free(n, c) <= Free(n, d)
  {
    if c > 0 {
      WorstGrows(n, c - 1, d - 1);
    }
  }

  // ---------------------------------------------------------------- the worth of a state

  /** From how many streams ahead a transmitter acts. One whose look says nothing about `x` may act from anywhere. */
  function Reach(s: Turns, w: nat, x: StreamId, ever: set<StreamId>): nat
    requires w < |s.workers|
  {
    match s.workers[w]
    case Idle => Rank(ever, Start(s.cursor), x)
    case Looked(ids, start) => if x in ids && ids <= ever then Rank(ever, start, x) else |ever|
    case Picked(start, stream) => if stream in Ahead(ever, start, x) then Rank(ever, start, x) else |ever|
  }

  function Worth(s: Turns, w: nat, n: nat, x: StreamId, ever: set<StreamId>): nat
    requires w < |s.workers|
  {
    var c := Reach(s, w, x, ever);
    if !s.workers[w].Picked? then Free(n, c) else if c == 0 then 0 else Worst(n, c - 1)
  }

  predicate Within(order: seq<nat>, k: nat) {
    forall i :: 0 <= i < |order| ==> order[i] < k
  }

  /** Transmitters acting one after the other: the `n`-th can count on `n` idle ones. */
  function Value(s: Turns, order: seq<nat>, x: StreamId, ever: set<StreamId>): nat
    requires Within(order, |s.workers|)
  {
    if order == [] then 0
    else
      Value(s, order[..|order| - 1], x, ever) + Worth(s, order[|order| - 1], |order|, x, ever)
  }

  predicate IsOrder(order: seq<nat>, k: nat) {
    && |order| == k && Within(order, k)
    && (forall i, j :: 0 <= i < j < |order| ==> order[i] != order[j])
    && (forall w :: 0 <= w < k ==> w in order)
  }

  lemma {:induction false} ValueMost(s: Turns, order: seq<nat>, x: StreamId, ever: set<StreamId>, most: nat)
    requires Within(order, |s.workers|)
    requires forall w :: 0 <= w < |s.workers| ==> Reach(s, w, x, ever) <= most
    ensures Value(s, order, x, ever) <= Worst(|order|, most)
  {
    if order == [] {
    } else {
      var n, w := |order|, order[|order| - 1];
      ValueMost(s, order[..n - 1], x, ever, most);
      FreeGrows(n, Reach(s, w, x, ever), most);
    }
  }

  /** Worths that do not fall anywhere do not fall in sum. */
  lemma {:induction false} ValueGrows(a: Turns, b: Turns, order: seq<nat>, x: StreamId, ever: set<StreamId>)
    requires |a.workers| == |b.workers| && Within(order, |a.workers|)
    requires forall w, n :: 0 <= w < |a.workers| && 0 < n ==> Worth(b, w, n, x, ever) <= Worth(a, w, n, x, ever)
    ensures Value(b, order, x, ever) <= Value(a, order, x, ever)
  {
    if order == [] {
    } else {
      ValueGrows(a, b, order[..|order| - 1], x, ever);
    }
  }

  lemma {:induction false} ValueDrops(a: Turns, b: Turns, order: seq<nat>, t: nat, x: StreamId, ever: set<StreamId>)
    requires |a.workers| == |b.workers| && Within(order, |a.workers|) && t in order
    requires forall w, n :: 0 <= w < |a.workers| && 0 < n ==> Worth(b, w, n, x, ever) <= Worth(a, w, n, x, ever)
    requires forall n :: 0 < n ==> t < |a.workers| && Worth(b, t, n, x, ever) < Worth(a, t, n, x, ever)
    ensures Value(b, order, x, ever) < Value(a, order, x, ever)
  {
    var front, last := order[..|order| - 1], order[|order| - 1];
    if last == t {
      ValueGrows(a, b, front, x, ever);
    } else {
      assert t in front;
      ValueDrops(a, b, front, t, x, ever);
    }
  }

  // ---------------------------------------------------------------- a step does not add to it

  lemma LookValue(a: Turns, w: nat, b: Turns, order: seq<nat>, x: StreamId, ever: set<StreamId>)
    requires Step(a, Look(w), b) && x in a.streams && a.streams <= ever && IsOrder(order, |a.workers|)
    ensures Value(b, order, x, ever) <= Value(a, order, x, ever)
  {
    hide Worst, Ahead;
    ValueGrows(a, b, order, x, ever);
  }

  /** Who picks another stream acts from a place with streams ahead of `x`, and has that pick behind it. */
  lemma PickWorth(a: Turns, action: Action, b: Turns, n: nat, x: StreamId, ever: set<StreamId>)
    requires action.Pick? && Step(a, action, b) && Competes(action, x) && !PicksStream(action, x) && x in ever
    ensures Worth(b, action.w, n, x, ever) + PickCount(action) <= Worth(a, action.w, n, x, ever)
  {
    hide Worst;
    var w := action.w;
    var before, after := Reach(a, w, x, ever), Reach(b, w, x, ever);
    RankBelow(ever, a.workers[w].start, x);
    RankBelow(ever, Start(b.cursor), x);
    if x in a.workers[w].ids && a.workers[w].ids <= ever {
      assert action.picked.Some? && action.picked.value in Ahead(ever, a.workers[w].start, x);
      assert before == after;
    } else if action.picked.Some? {
      assert before == |ever| && after <= before;
      if after > 0 { WorstGrows(n, after - 1, before - 1); }
    } else {
      FreeGrows(n, after, before);
    }
  }

  lemma PickValue(a: Turns, action: Action, b: Turns, order: seq<nat>, x: StreamId, ever: set<StreamId>)
    requires action.Pick? && Step(a, action, b) && Competes(action, x) && !PicksStream(action, x) && x in ever
    requires IsOrder(order, |a.workers|)
    ensures Value(b, order, x, ever) + PickCount(action) <= Value(a, order, x, ever)
  {
    hide Worst, Reach, Free;
    forall v, n | 0 <= v < |a.workers| && 0 < n ensures Worth(b, v, n, x, ever) <= Worth(a, v, n, x, ever) {
      if v == action.w {
        PickWorth(a, action, b, n, x, ever);
      } else {
        SameWorth(a, b, v, n, x, ever);
      }
    }
    if action.picked.Some? {
      forall n | 0 < n ensures Worth(b, action.w, n, x, ever) < Worth(a, action.w, n, x, ever) {
        PickWorth(a, action, b, n, x, ever);
      }
      ValueDrops(a, b, order, action.w, x, ever);
    } else {
      ValueGrows(a, b, order, x, ever);
    }
  }

  lemma SameWorth(a: Turns, b: Turns, w: nat, n: nat, x: StreamId, ever: set<StreamId>)
    requires w < |a.workers| && w < |b.workers| && a.workers[w] == b.workers[w]
    requires a.cursor == b.cursor || !a.workers[w].Idle?
    ensures Worth(b, w, n, x, ever) == Worth(a, w, n, x, ever)
  {
  }

  /** The worth of those in `order` that are not idle in `b`, at their places. */
  function Busy(b: Turns, order: seq<nat>, x: StreamId, ever: set<StreamId>): nat
    requires Within(order, |b.workers|)
  {
    if order == [] then 0
    else
      var w := order[|order| - 1];
      Busy(b, order[..|order| - 1], x, ever) + if b.workers[w].Idle? then 0 else Worth(b, w, |order|, x, ever)
  }

  lemma {:induction false} IdleAtMost(b: Turns, order: seq<nat>, x: StreamId, ever: set<StreamId>)
    requires Within(order, |b.workers|)
    ensures Value(b, order, x, ever) <= Busy(b, order, x, ever) + Worst(|order|, Rank(ever, Start(b.cursor), x))
  {
    if order == [] {
    } else {
      IdleAtMost(b, order[..|order| - 1], x, ever);
    }
  }

  /** Those not idle after the move were so before it, so their worth is still there. */
  lemma {:induction false} BusyAtLeast(
    a: Turns, t: nat, next: Option<StreamId>, b: Turns, was: seq<nat>, order: seq<nat>, x: StreamId,
        ever: set<StreamId>)
    requires Step(a, Move(t, next), b) && Within(order, |b.workers|) && Within(was, |b.workers|) && |was| == |order|
    requires forall i :: 0 <= i < |order| ==> was[i] == order[i] || b.workers[order[i]].Idle?
    ensures Busy(b, order, x, ever) <= Value(a, was, x, ever)
  {
    hide Worst, Reach;
    if order == [] {
    } else {
      var n, w := |order|, order[|order| - 1];
      BusyAtLeast(a, t, next, b, was[..n - 1], order[..n - 1], x, ever);
      if !b.workers[w].Idle? {
        SameWorth(a, b, w, n, x, ever);
      }
    }
  }

  /** The cursor is handed a smaller rank than its mover acted from. */
  lemma MoveReach(a: Turns, t: nat, next: Option<StreamId>, b: Turns, x: StreamId, ever: set<StreamId>)
    requires Step(a, Move(t, next), b) && x in a.streams && a.streams <= ever
    ensures Rank(ever, Start(b.cursor), x) < Reach(a, t, x, ever)
  {
    assert next.Some?;
    if a.workers[t].stream in Ahead(ever, a.workers[t].from, x) {
      RankDrops(ever, a.workers[t].from, a.workers[t].stream, a.streams, next.value, x);
    } else {
      RankBelow(ever, next.value, x);
    }
  }

  /** The same transmitters, each once, in some order. */
  predicate SameMembers(was: seq<nat>, order: seq<nat>, k: nat) {
    && |was| == |order| && Within(was, k) && Within(order, k)
    && (forall i, j :: 0 <= i < j < |was| ==> was[i] != was[j])
    && (forall w :: w in order ==> w in was) && (forall w :: w in was ==> w in order)
  }

  lemma SwappedMembers(order: seq<nat>, j: nat, k: nat)
    requires j < |order| && Within(order, k) && forall i, j :: 0 <= i < j < |order| ==> order[i] != order[j]
    ensures SameMembers(order[j := order[|order| - 1]][|order| - 1 := order[j]], order, k)
  {
    var n := |order|;
    var was := order[j := order[n - 1]][n - 1 := order[j]];
    forall w | w in order ensures w in was {
      var i :| 0 <= i < n && order[i] == w;
      assert was[if i == j then n - 1 else if i == n - 1 then j else i] == w;
    }
  }

  lemma ExtendedMembers(was: seq<nat>, order: seq<nat>, last: nat, k: nat)
    requires SameMembers(was, order, k) && last < k && last !in order
    ensures SameMembers(was + [last], order + [last], k)
  {
  }

  /** All that idle transmitters can do after a move is worth no more than the one that moves, if it acts last. */
  lemma MoveAtLast(
    a: Turns, t: nat, next: Option<StreamId>, b: Turns, was: seq<nat>, order: seq<nat>, x: StreamId,
        ever: set<StreamId>)
    requires Step(a, Move(t, next), b) && x in a.streams && a.streams <= ever
    requires Within(order, |a.workers|) && Within(was, |a.workers|) && |was| == |order| > 0
    requires was[|was| - 1] == t && b.workers[order[|order| - 1]].Idle?
    requires forall i :: 0 <= i < |order| - 1 ==> was[i] == order[i] || b.workers[order[i]].Idle?
    ensures Value(b, order, x, ever) <= Value(a, was, x, ever)
  {
    hide Step, Worth, Worst, Reach, Rank;
    MoveIdles(a, t, next, b);
    var n := |order|;
    IdleAtMost(b, order, x, ever);
    BusyAtLeast(a, t, next, b, was[..n - 1], order[..n - 1], x, ever);
    MoverWorth(a, t, next, b, n, x, ever);
  }

  lemma MoverWorth(a: Turns, t: nat, next: Option<StreamId>, b: Turns, n: nat, x: StreamId, ever: set<StreamId>)
    requires Step(a, Move(t, next), b) && x in a.streams && a.streams <= ever
    ensures Worst(n, Rank(ever, Start(b.cursor), x)) <= Worth(a, t, n, x, ever)
  {
    hide Worst, Reach, Rank, IsNextAfter;
    MoveReach(a, t, next, b, x, ever);
    WorstGrows(n, Rank(ever, Start(b.cursor), x), Reach(a, t, x, ever) - 1);
  }

  lemma {:induction false} MoveValue(
    a: Turns, t: nat, next: Option<StreamId>, b: Turns, order: seq<nat>, x: StreamId, ever: set<StreamId>)
    returns (was: seq<nat>)
    requires Step(a, Move(t, next), b) && x in a.streams && a.streams <= ever
    requires Within(order, |a.workers|) && t in order
    requires forall i, j :: 0 <= i < j < |order| ==> order[i] != order[j]
    ensures SameMembers(was, order, |a.workers|) && Value(b, order, x, ever) <= Value(a, was, x, ever)
  {
    hide Worth, Step, SameMembers;
    MoveIdles(a, t, next, b);
    var n, last := |order|, order[|order| - 1];
    if b.workers[last].Idle? {
      var j :| 0 <= j < n && order[j] == t;
      was := order[j := last][n - 1 := t];
      SwappedMembers(order, j, |a.workers|);
      InRange(was, order, |a.workers|);
      MoveAtLast(a, t, next, b, was, order, x, ever);
    } else {
      assert order == order[..n - 1] + [last] && t in order[..n - 1];
      var front := MoveValue(a, t, next, b, order[..n - 1], x, ever);
      ExtendedMembers(front, order[..n - 1], last, |a.workers|);
      InRange(front, order[..n - 1], |a.workers|);
      was := front + [last];
      assert was[..n - 1] == front;
      SameWorth(a, b, last, n, x, ever);
    }
  }

  lemma InRange(was: seq<nat>, order: seq<nat>, k: nat)
    requires SameMembers(was, order, k)
    ensures Within(was, k) && |was| == |order|
  {
  }

  lemma MoveIdles(a: Turns, t: nat, next: Option<StreamId>, b: Turns)
    requires Step(a, Move(t, next), b)
    ensures |b.workers| == |a.workers| && t < |b.workers| && b.workers[t].Idle?
    ensures forall w :: 0 <= w < |b.workers| && w != t ==> b.workers[w] == a.workers[w]
  {
  }

  lemma StepValue(a: Turns, action: Action, b: Turns, order: seq<nat>, x: StreamId, ever: set<StreamId>)
    returns (was: seq<nat>)
    requires Step(a, action, b) && Competes(action, x) && !PicksStream(action, x)
    requires x in a.streams && a.streams <= ever && IsOrder(order, |a.workers|)
    ensures IsOrder(was, |a.workers|) && |b.workers| == |a.workers|
    ensures Value(b, order, x, ever) + PickCount(action) <= Value(a, was, x, ever)
  {
    hide Worst, Reach, Rank, Worth, Competes;
    was := order;
    match action
    case Look(w) => LookValue(a, w, b, order, x, ever);
    case Pick(w, answers, picked) => PickValue(a, action, b, order, x, ever);
    case Move(w, next) => was := MoveValue(a, w, next, b, order, x, ever);
    case OpenOrEnd(streams) =>
      forall w, n | 0 <= w < |a.workers| && 0 < n ensures Worth(b, w, n, x, ever) <= Worth(a, w, n, x, ever) {
        SameWorth(a, b, w, n, x, ever);
      }
      ValueGrows(a, b, order, x, ever);
  }

  lemma {:induction false} RunValue(
    states: seq<Turns>, actions: seq<Action>, order: seq<nat>, x: StreamId, ever: set<StreamId>) returns (was: seq<nat>)
    requires IsRun(states, actions) && Serves(states, actions, x, ever)
    requires forall i :: 0 <= i < |actions| ==> !PicksStream(actions[i], x)
    requires IsOrder(order, |states[|actions|].workers|)
    ensures IsOrder(was, |states[0].workers|) && |was| == |order|
    ensures Value(states[|actions|], order, x, ever) + Picks(actions) <= Value(states[0], was, x, ever)
    decreases |actions|
  {
    hide Worst, Worth, Competes, PickStep;
    var n := |actions|;
    if n == 0 {
      was := order;
    } else {
      assert Step(states[n - 1], actions[n - 1], states[n]);
      var mid := StepValue(states[n - 1], actions[n - 1], states[n], order, x, ever);
      was := RunValue(states[..n], actions[..n - 1], mid, x, ever);
    }
  }

  // ---------------------------------------------------------------- no stream is starved

  lemma AnyOrder(k: nat) returns (order: seq<nat>)
    ensures IsOrder(order, k)
  {
    order := seq(k, i => i);
    forall w | 0 <= w < k ensures w in order {
      assert order[w] == w;
    }
  }

  lemma ReachAtMost(s: Turns, w: nat, x: StreamId, ever: set<StreamId>)
    requires w < |s.workers| && x in ever
    ensures Reach(s, w, x, ever) <= if s.workers[w].Idle? then |ever| - 1 else |ever|
  {
    RankBelow(ever, Start(s.cursor), x);
    if s.workers[w].Looked? {
      RankBelow(ever, s.workers[w].start, x);
    } else if s.workers[w].Picked? {
      RankBelow(ever, s.workers[w].from, x);
    }
  }

  lemma PassedOverAtMost(states: seq<Turns>, actions: seq<Action>, x: StreamId, ever: set<StreamId>, most: nat)
    requires IsRun(states, actions) && Serves(states, actions, x, ever)
    requires forall i :: 0 <= i < |actions| ==> !PicksStream(actions[i], x)
    requires forall w :: 0 <= w < |states[0].workers| ==> Reach(states[0], w, x, ever) <= most
    ensures Picks(actions) <= Worst(|states[0].workers|, most)
  {
    hide Reach, Worth, Step, Competes;
    var order := AnyOrder(|states[|actions|].workers|);
    var was := RunValue(states, actions, order, x, ever);
    ValueMost(states[0], was, x, ever, most);
  }

  /**
   * However many transmitters there are, and however their looks, picks and moves interleave: a stream
   * that keeps having chunks whose turn it is is picked before as many picks as there are ways to choose `k` of
   * `k + m`, where `m` counts the streams there ever are. Transmitters may be at any point when this
   * begins, streams may open and end, and the cursor may name one that is gone.
   */
  lemma NoStarvation(states: seq<Turns>, actions: seq<Action>, x: StreamId, ever: set<StreamId>) returns (i: nat)
    requires IsRun(states, actions) && Serves(states, actions, x, ever)
    requires Picks(actions) >= Choose(|states[0].workers| + |ever|, |states[0].workers|)
    ensures i < |actions| && PicksStream(actions[i], x)
  {
    hide Reach, Step, Competes, Picks;
    var k := |states[0].workers|;
    WorstIsChoose(k, |ever|);
    assert x in states[0].streams && states[0].streams <= ever;
    forall w | 0 <= w < k ensures Reach(states[0], w, x, ever) <= |ever| {
      ReachAtMost(states[0], w, x, ever);
    }
    if !exists i :: 0 <= i < |actions| && PicksStream(actions[i], x) {
      PassedOverAtMost(states, actions, x, ever, |ever|);
      assert false;
    }
    i :| 0 <= i < |actions| && PicksStream(actions[i], x);
  }

  /** From a moment at which no transmitter is at work the bound is smaller, and for one transmitter it is `m`. */
  lemma NoStarvationFromRest(states: seq<Turns>, actions: seq<Action>, x: StreamId, ever: set<StreamId>)
    returns (i: nat)
    requires IsRun(states, actions) && Serves(states, actions, x, ever) && AllIdle(states[0])
    requires Picks(actions) > Worst(|states[0].workers|, |ever| - 1)
    ensures i < |actions| && PicksStream(actions[i], x)
  {
    hide Reach, Step, Competes, Picks;
    assert x in states[0].streams && states[0].streams <= ever;
    forall w | 0 <= w < |states[0].workers| ensures Reach(states[0], w, x, ever) <= |ever| - 1 {
      ReachAtMost(states[0], w, x, ever);
    }
    if !exists i :: 0 <= i < |actions| && PicksStream(actions[i], x) {
      PassedOverAtMost(states, actions, x, ever, |ever| - 1);
      assert false;
    }
    i :| 0 <= i < |actions| && PicksStream(actions[i], x);
  }

  // ---------------------------------------------------------------- the bound is met

  function Upto(n: nat): (s: set<nat>)
    ensures |s| == n && forall i :: i in s <==> 0 <= i < n
  {
    if n == 0 then {} else Upto(n - 1) + {n - 1}
  }

  function AllFresh(ids: set<StreamId>): map<StreamId, Offer> {
    map id | id in ids :: Offer(false, true, false, true)
  }

  /** A run in which the last of the streams `0` to `x` is there with new chunks and is never picked. */
  ghost predicate PassesOver(states: seq<Turns>, actions: seq<Action>, x: StreamId) {
    && IsRun(states, actions) && Serves(states, actions, x, Upto(x + 1))
    && forall i :: 0 <= i < |actions| ==> !PicksStream(actions[i], x)
  }

  lemma {:induction false} PicksJoin(p: seq<Action>, q: seq<Action>)
    ensures Picks(p + q) == Picks(p) + Picks(q)
  {
    if q == [] {
      assert p + q == p;
    } else {
      PicksJoin(p, q[..|q| - 1]);
      assert (p + q)[..|p + q| - 1] == p + q[..|q| - 1];
    }
  }

  lemma Joined(
    s: seq<Turns>, p: seq<Action>, action: Action, t: seq<Turns>, q: seq<Action>, x: StreamId)
    requires PassesOver(s, p, x) && PassesOver(t, q, x)
    requires Step(s[|p|], action, t[0]) && Competes(action, x) && !PicksStream(action, x)
    ensures PassesOver(s + t, p + [action] + q, x)
    ensures Picks(p + [action] + q) == Picks(p) + PickCount(action) + Picks(q)
  {
    hide Step, Competes;
    PicksJoin(p + [action], q);
    PicksJoin(p, [action]);
    assert Picks([action]) == PickCount(action) by { assert [action][..0] == []; }
    var states, actions := s + t, p + [action] + q;
    forall i | 0 <= i < |actions| ensures Step(states[i], actions[i], states[i + 1]) {
      if i < |p| {
        assert Step(s[i], p[i], s[i + 1]);
      } else if i > |p| {
        assert Step(t[i - |p| - 1], q[i - |p| - 1], t[i - |p| - 1 + 1]);
      }
    }
  }

  /** The first `n` transmitters are idle, and all of the streams up to `x` have new chunks. */
  predicate AtCursor(s: Turns, n: nat, v: nat, x: StreamId) {
    && n <= |s.workers| && v <= x && s.streams == Upto(x + 1) && Start(s.cursor) == v
    && forall w :: 0 <= w < n ==> s.workers[w].Idle?
  }

  /** The last of `n` transmitters looks at the cursor at `v`, and picks `v`. */
  lemma LookAndPick(s: Turns, n: nat, v: nat, x: StreamId) returns (looked: Turns, picked: Turns)
    requires AtCursor(s, n, v, x) && 0 < n && v < x
    ensures looked == s.(workers := s.workers[n - 1 := Looked(s.streams, v)])
    ensures picked == s.(workers := s.workers[n - 1 := Picked(v, v)])
    ensures Step(s, Look(n - 1), looked)
    ensures Step(looked, Pick(n - 1, AllFresh(s.streams), Some(v)), picked)
    ensures Competes(Pick(n - 1, AllFresh(s.streams), Some(v)), x)
  {
    looked := s.(workers := s.workers[n - 1 := Looked(s.streams, v)]);
    picked := s.(workers := s.workers[n - 1 := Picked(v, v)]);
    assert looked.workers[n - 1 := Picked(v, v)] == picked.workers;
    assert AllFresh(s.streams).Keys == s.streams && Sends(AllFresh(s.streams)[v], false);
  }

  lemma Alone(s: Turns, x: StreamId)
    requires s.streams == Upto(x + 1)
    ensures PassesOver([s], [], x)
  {
  }

  /**
   * What one of them picked stays in its hands while the others exhaust theirs; then it moves the
   * cursor back to `v + 1`.
   */
  lemma {:induction false} LongestRun(s: Turns, n: nat, v: nat, x: StreamId)
    returns (states: seq<Turns>, actions: seq<Action>)
    requires AtCursor(s, n, v, x)
    ensures PassesOver(states, actions, x) && states[0] == s && Picks(actions) == Worst(n, x - v)
    ensures var e := states[|actions|];
      && |e.workers| == |s.workers| && e.streams == s.streams
      && (forall w :: 0 <= w < n ==> e.workers[w].Idle?)
      && (forall w :: n <= w < |s.workers| ==> e.workers[w] == s.workers[w])
    decreases x - v, n
  {
    hide Step, PassesOver, Upto, Competes;
    if n == 0 || v == x {
      states, actions := [s], [];
      Alone(s, x);
    } else {
      var looked, picked := LookAndPick(s, n, v, x);
      var t, p := LongestRun(picked, n - 1, v, x);
      Lengths(t, p, x);
      var last := t[|p|];
      var moved := last.(cursor := Some(v + 1), workers := last.workers[n - 1 := Idle]);
      assert Step(last, Move(n - 1, Some(v + 1)), moved) by { MovesOn(last, n - 1, v, x); }
      var u, q := LongestRun(moved, n, v + 1, x);
      NotAPick(n - 1, Some(v + 1), x);
      Lengths(u, q, x);
      Joined(t, p, Move(n - 1, Some(v + 1)), u, q, x);
      var pick := Pick(n - 1, AllFresh(s.streams), Some(v));
      Alone(looked, x);
      Joined([looked], [], pick, t + u, p + [Move(n - 1, Some(v + 1))] + q, x);
      Alone(s, x);
      var tail := [] + [pick] + (p + [Move(n - 1, Some(v + 1))] + q);
      Joined([s], [], Look(n - 1), [looked] + (t + u), tail, x);
      states, actions := [s] + ([looked] + (t + u)), [] + [Look(n - 1)] + tail;
    }
  }

  lemma Lengths(states: seq<Turns>, actions: seq<Action>, x: StreamId)
    requires PassesOver(states, actions, x)
    ensures |states| == |actions| + 1
  {
  }

  lemma NotAPick(w: nat, next: Option<StreamId>, x: StreamId)
    ensures Competes(Move(w, next), x) && !PicksStream(Move(w, next), x) && PickCount(Move(w, next)) == 0
    ensures Competes(Look(w), x) && !PicksStream(Look(w), x) && PickCount(Look(w)) == 0
  {
  }

  lemma MovesOn(s: Turns, w: nat, v: nat, x: StreamId)
    requires w < |s.workers| && s.workers[w] == Picked(v, v) && v < x && s.streams == Upto(x + 1)
    ensures Step(s, Move(w, Some(v + 1)), s.(cursor := Some(v + 1), workers := s.workers[w := Idle]))
  {
  }

  /** For any number of transmitters and of streams there is a run from rest that meets the bound. */
  lemma BoundIsMet(k: nat, m: nat) returns (states: seq<Turns>, actions: seq<Action>)
    requires 0 < m
    ensures PassesOver(states, actions, m - 1) && states[0] == Turns(Upto(m), None, seq(k, _ => Idle))
    ensures Picks(actions) == Worst(k, m - 1)
  {
    states, actions := LongestRun(Turns(Upto(m), None, seq(k, _ => Idle)), k, 0, m - 1);
  }

  /** Two transmitters and three streams: five picks, none of them of the third. */
  lemma ThirdStreamPassedOver() returns (states: seq<Turns>, actions: seq<Action>)
    ensures PassesOver(states, actions, 2) && states[0] == Turns(Upto(3), None, seq(2, _ => Idle))
      && Picks(actions) == 5
  {
    hide PassesOver, Picks;
    states, actions := BoundIsMet(2, 3);
    WorstAlone(1);
    WorstAlone(2);
    assert Worst(2, 1) == 2;
  }

  // ---------------------------------------------------------------- when as many picks as streams are enough

  /** No transmitter looks while another is between its look and its move. */
  ghost predicate OneAtATime(states: seq<Turns>, actions: seq<Action>) {
    |states| == |actions| + 1 && forall i :: 0 <= i < |actions| && actions[i].Look? ==> AllIdle(states[i])
  }

  predicate OnlyBusy(s: Turns, w: nat) {
    w < |s.workers| && forall v :: 0 <= v < |s.workers| && v != w ==> s.workers[v].Idle?
  }

  /** Picks of other streams that the one transmitter at work may still make. */
  function Left(s: Turns, w: nat, x: StreamId, ever: set<StreamId>): nat
    requires w < |s.workers|
  {
    var c := Reach(s, w, x, ever);
    if s.workers[w].Picked? && c > 0 then c - 1 else c
  }

  lemma OneStepLeft(a: Turns, action: Action, b: Turns, w: nat, x: StreamId, ever: set<StreamId>) returns (v: nat)
    requires Step(a, action, b) && Competes(action, x) && !PicksStream(action, x)
    requires x in a.streams && a.streams <= ever && OnlyBusy(a, w) && (action.Look? ==> AllIdle(a))
    ensures OnlyBusy(b, v) && Left(b, v, x, ever) + PickCount(action) <= Left(a, w, x, ever)
  {
    hide Rank;
    v := if action.Look? then action.w else w;
    if action.Pick? {
      PickLeft(a, action, b, x, ever);
    } else if action.Move? {
      MoveReach(a, action.w, action.next, b, x, ever);
    }
  }

  lemma PickLeft(a: Turns, action: Action, b: Turns, x: StreamId, ever: set<StreamId>)
    requires action.Pick? && Step(a, action, b) && Competes(action, x) && !PicksStream(action, x) && x in ever
    ensures Left(b, action.w, x, ever) + PickCount(action) <= Left(a, action.w, x, ever)
  {
    var w := action.w;
    RankBelow(ever, a.workers[w].start, x);
    RankBelow(ever, Start(b.cursor), x);
    if x in a.workers[w].ids && a.workers[w].ids <= ever {
      assert action.picked.Some? && action.picked.value in Ahead(ever, a.workers[w].start, x);
    }
  }

  lemma {:induction false} RunLeft(states: seq<Turns>, actions: seq<Action>, n: nat, x: StreamId, ever: set<StreamId>)
    returns (w: nat)
    requires IsRun(states, actions) && Serves(states, actions, x, ever) && OneAtATime(states, actions)
    requires AllIdle(states[0]) && 0 < |states[0].workers| && n <= |actions|
    requires forall i :: 0 <= i < |actions| ==> !PicksStream(actions[i], x)
    ensures OnlyBusy(states[n], w)
    ensures Left(states[n], w, x, ever) + Picks(actions[..n]) <= Rank(ever, Start(states[0].cursor), x)
  {
    hide Step, Competes, Rank, Left, PickStep;
    if n == 0 {
      w := 0;
      NothingDone(states[0], x, ever);
    } else {
      var v := RunLeft(states, actions, n - 1, x, ever);
      w := OneStepLeft(states[n - 1], actions[n - 1], states[n], v, x, ever);
      assert actions[..n][..n - 1] == actions[..n - 1];
    }
  }

  lemma NothingDone(s: Turns, x: StreamId, ever: set<StreamId>)
    requires AllIdle(s) && 0 < |s.workers|
    ensures OnlyBusy(s, 0) && Left(s, 0, x, ever) == Rank(ever, Start(s.cursor), x)
  {
  }

  /** One at a time, a stream is picked within as many picks as there are streams,
      however many transmitters there are. */
  lemma OneAtATimeBound(states: seq<Turns>, actions: seq<Action>, x: StreamId, ever: set<StreamId>) returns (i: nat)
    requires IsRun(states, actions) && Serves(states, actions, x, ever) && OneAtATime(states, actions)
    requires AllIdle(states[0]) && 0 < |states[0].workers| && Picks(actions) >= |ever|
    ensures i < |actions| && PicksStream(actions[i], x)
  {
    hide Step, Competes, Rank, Left;
    assert x in states[0].streams && states[0].streams <= ever;
    RankBelow(ever, Start(states[0].cursor), x);
    assert actions[..|actions|] == actions;
    if !exists i :: 0 <= i < |actions| && PicksStream(actions[i], x) {
      var w := RunLeft(states, actions, |actions|, x, ever);
      assert false;
    }
    i :| 0 <= i < |actions| && PicksStream(actions[i], x);
  }

  /** `k` transmitters at rest, a stream with new chunks among `m`, and at least `m` picks. */
  ghost predicate LongRun(states: seq<Turns>, actions: seq<Action>, x: StreamId, ever: set<StreamId>, k: nat, m: nat) {
    && IsRun(states, actions) && Serves(states, actions, x, ever) && AllIdle(states[0])
    && |states[0].workers| == k && |ever| == m && Picks(actions) >= m
  }

  /** From rest, `k` transmitters never make as many picks as there are streams without picking every one. */
  ghost predicate AsManyAsStreams(k: nat, m: nat) {
    forall states, actions, x, ever | LongRun(states, actions, x, ever, k, m) ::
      exists i :: 0 <= i < |actions| && PicksStream(actions[i], x)
  }

  lemma {:induction false} WorstAtLeast(k: nat, c: nat)
    requires 2 <= k && 1 <= c
    ensures Worst(k, c) > c
  {
    if k == 2 {
      WorstAlone(c);
    } else {
      WorstAtLeast(k - 1, c);
    }
  }

  /** That holds for one transmitter, or one stream, and for no other numbers of them. */
  lemma AsManyAsStreamsIff(k: nat, m: nat)
    requires 1 <= m
    ensures AsManyAsStreams(k, m) <==> k <= 1 || m == 1
  {
    hide IsRun, Serves, Picks, AllIdle;
    if k <= 1 || m == 1 {
      WorstAlone(m - 1);
      forall states, actions, x, ever | LongRun(states, actions, x, ever, k, m)
        ensures exists i :: 0 <= i < |actions| && PicksStream(actions[i], x)
      {
        var i := NoStarvationFromRest(states, actions, x, ever);
      }
    } else {
      var states, actions := BoundIsMet(k, m);
      WorstAtLeast(k, m - 1);
      RestedStart(states, actions, k, m);
    }
  }

  lemma RestedStart(states: seq<Turns>, actions: seq<Action>, k: nat, m: nat)
    requires 1 <= m && PassesOver(states, actions, m - 1) && Picks(actions) >= m
    requires states[0] == Turns(Upto(m), None, seq(k, _ => Idle))
    ensures !AsManyAsStreams(k, m)
  {
    hide IsRun, Serves, Picks;
    assert LongRun(states, actions, m - 1, Upto(m), k, m);
  }
}
