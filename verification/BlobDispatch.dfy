/**
 * Which blob stream sends its next chunk: streams take turns from a cursor that all transmitters
 * share, and chunks to be sent again go before new ones. A transmitter looks at the cursor, asks the
 * streams one by one, and moves the cursor under three different locks, so each is a step of its own.
 */
module BlobDispatch {
  import opened Common

  type StreamId = nat

  /**
   * What a stream has to send, at the moment it is asked. A stream that offers a chunk may have lost
   * it by the time it is to give it: the last two fields say whether it gives one then.
   */
  datatype Offer = Offer(again: bool, anew: bool, givesAgain: bool, givesAnew: bool)

  function Start(cursor: Option<StreamId>): StreamId {
    if cursor.Some? then cursor.value else 0
  }

  /** Going round the ids from `start`, wrapping at the end, `x` comes before `y`. */
  predicate Before(start: StreamId, x: StreamId, y: StreamId) {
    (start <= x && y < start) || ((start <= x <==> start <= y) && x < y)
  }

  /** `order` lists `ids` once each, in the order of `Before`. */
  ghost predicate OrderedFrom(order: seq<StreamId>, ids: set<StreamId>, start: StreamId) {
    && (forall id :: id in order <==> id in ids)
    && (forall i, j :: 0 <= i < j < |order| ==> Before(start, order[i], order[j]))
  }

  /** The stream whose turn is next after `id`: the next higher id, or the lowest one. */
  predicate IsNextAfter(ids: set<StreamId>, id: StreamId, next: Option<StreamId>) {
    match next
    case None => ids == {}
    case Some(n) =>
      && n in ids
      && if exists other :: other in ids && other > id
         then n > id && forall other :: other in ids && other > id ==> n <= other
         else forall other :: other in ids ==> n <= other
  }

  predicate Sends(offer: Offer, replay: bool) {
    if replay then offer.again && offer.givesAgain else offer.anew && offer.givesAnew
  }

  predicate AnySends(offers: map<StreamId, Offer>, replay: bool) {
    exists id :: id in offers && Sends(offers[id], replay)
  }

  predicate IsFirstTo(offers: map<StreamId, Offer>, start: StreamId, replay: bool, id: StreamId) {
    && id in offers && Sends(offers[id], replay)
    && forall other :: other in offers && Sends(offers[other], replay) && other != id ==> Before(start, id, other)
  }

  predicate PickStep(offers: map<StreamId, Offer>, start: StreamId, picked: Option<StreamId>) {
    match picked
    case None => !AnySends(offers, true) && !AnySends(offers, false)
    case Some(id) => IsFirstTo(offers, start, AnySends(offers, true), id)
  }

  // ---------------------------------------------------------------- transmitters taking turns

  /** How far a transmitter has come: the streams it saw and where it starts, and which one it picked. */
  datatype Phase = Idle | Looked(ids: set<StreamId>, start: StreamId) | Picked(from: StreamId, stream: StreamId)

  datatype Turns = Turns(streams: set<StreamId>, cursor: Option<StreamId>, workers: seq<Phase>)

  datatype Action =
    | Look(w: nat)
    | Pick(w: nat, answers: map<StreamId, Offer>, picked: Option<StreamId>)
    | Move(w: nat, next: Option<StreamId>)
    | OpenOrEnd(streams: set<StreamId>)

  predicate Step(a: Turns, action: Action, b: Turns) {
    match action
    case Look(w) =>
      && w < |a.workers| && a.workers[w].Idle?
      && b == a.(workers := a.workers[w := Looked(a.streams, Start(a.cursor))])
    case Pick(w, answers, picked) =>
      && w < |a.workers| && a.workers[w].Looked? && answers.Keys == a.workers[w].ids
      && PickStep(answers, a.workers[w].start, picked)
      && b == a.(workers := a.workers[w := if picked.Some? then Picked(a.workers[w].start, picked.value) else Idle])
    case Move(w, next) =>
      && w < |a.workers| && a.workers[w].Picked? && IsNextAfter(a.streams, a.workers[w].stream, next)
      && b == a.(cursor := next, workers := a.workers[w := Idle])
    case OpenOrEnd(streams) => b == a.(streams := streams)
  }

  // ---------------------------------------------------------------- the dispatcher

  lemma LowestExists(ids: set<StreamId>) returns (lowest: StreamId)
    requires ids != {}
    ensures lowest in ids && forall other :: other in ids ==> lowest <= other
    decreases ids
  {
    var id :| id in ids;
    if ids == {id} {
      return id;
    }
    var rest := LowestExists(ids - {id});
    assert forall other :: other in ids ==> other == id || other in ids - {id};
    return if id < rest then id else rest;
  }

  method SortIds(ids: set<StreamId>) returns (sorted: seq<StreamId>)
    ensures forall id :: id in sorted <==> id in ids
    ensures forall i, j :: 0 <= i < j < |sorted| ==> sorted[i] < sorted[j]
  {
    sorted := [];
    var rest := ids;
    while rest != {}
      invariant forall id :: id in ids <==> id in sorted || id in rest
      invariant forall i, j :: 0 <= i < j < |sorted| ==> sorted[i] < sorted[j]
      invariant forall i, id :: 0 <= i < |sorted| && id in rest ==> sorted[i] < id
      decreases rest
    {
      var _ := LowestExists(rest);
      var lowest :| lowest in rest && forall other :: other in rest ==> lowest <= other;
      sorted := sorted + [lowest];
      rest := rest - {lowest};
    }
  }

  method OrderStreamsFromCursor(ids: set<StreamId>, cursor: Option<StreamId>) returns (order: seq<StreamId>)
    ensures OrderedFrom(order, ids, Start(cursor))
  {
    order := SortIds(ids);
    if cursor.None? {
      return;
    }
    var split := 0;
    while split < |order| && order[split] < cursor.value
      invariant split <= |order|
      invariant forall i :: 0 <= i < split ==> order[i] < cursor.value
    {
      split := split + 1;
    }
    if split == |order| {
      split := 0;
    }
    order := order[split..] + order[..split];
  }

  method NextStreamAfter(ids: set<StreamId>, id: StreamId) returns (next: Option<StreamId>)
    ensures IsNextAfter(ids, id, next)
  {
    var sorted := SortIds(ids);
    if sorted == [] {
      assert forall other :: other !in ids;
      return None;
    }
    for i := 0 to |sorted|
      invariant forall k :: 0 <= k < i ==> sorted[k] <= id
    {
      if sorted[i] > id {
        assert sorted[i] in ids;
        return Some(sorted[i]);
      }
    }
    assert sorted[0] in sorted;
    return Some(sorted[0]);
  }

  method PickFrom(offers: map<StreamId, Offer>, order: seq<StreamId>, ghost start: StreamId, replay: bool)
    returns (picked: Option<StreamId>)
    requires OrderedFrom(order, offers.Keys, start)
    ensures picked.None? <==> !AnySends(offers, replay)
    ensures picked.Some? ==> IsFirstTo(offers, start, replay, picked.value)
  {
    for i := 0 to |order|
      invariant forall k :: 0 <= k < i ==> order[k] in offers && !Sends(offers[order[k]], replay)
    {
      assert order[i] in order;
      var offer := offers[order[i]];
      if !(if replay then offer.again else offer.anew) {
        continue;
      }
      if !(if replay then offer.givesAgain else offer.givesAnew) {
        continue;
      }
      return Some(order[i]);
    }
    return None;
  }

  /** What the transmitters share. Which phase each of them is in is known to it alone. */
  class ChunkDispatcher {
    var streams: set<StreamId>
    var cursor: Option<StreamId>
    ghost var workers: seq<Phase>

    ghost function State(): Turns
      reads this
    {
      Turns(streams, cursor, workers)
    }

    constructor (ghost k: nat)
      ensures streams == {} && cursor == None && |workers| == k && forall w :: 0 <= w < k ==> workers[w].Idle?
    {
      streams, cursor := {}, None;
      workers := seq(k, _ => Idle);
    }

    method LookFromCursor(ghost w: nat) returns (order: seq<StreamId>)
      requires w < |workers| && workers[w].Idle?
      modifies this
      ensures Step(old(State()), Look(w), State())
      ensures OrderedFrom(order, workers[w].ids, workers[w].start)
    {
      order := OrderStreamsFromCursor(streams, cursor);
      workers := workers[w := Looked(streams, Start(cursor))];
    }

    /** Chunks to be sent again go before new ones, whichever stream they belong to. */
    method PickChunk(ghost w: nat, order: seq<StreamId>, answers: map<StreamId, Offer>)
        returns (picked: Option<StreamId>)
      requires w < |workers| && workers[w].Looked? && answers.Keys == workers[w].ids
      requires OrderedFrom(order, workers[w].ids, workers[w].start)
      modifies this
      ensures Step(old(State()), Pick(w, answers, picked), State())
    {
      hide OrderedFrom, IsFirstTo, AnySends;
      picked := PickFrom(answers, order, workers[w].start, true);
      if picked.None? {
        picked := PickFrom(answers, order, workers[w].start, false);
      }
      workers := workers[w := if picked.Some? then Picked(workers[w].start, picked.value) else Idle];
    }

    method AdvanceCursor(ghost w: nat, stream: StreamId)
      requires w < |workers| && workers[w].Picked? && workers[w].stream == stream
      modifies this
      ensures Step(old(State()), Move(w, cursor), State())
    {
      hide IsNextAfter;
      cursor := NextStreamAfter(streams, stream);
      workers := workers[w := Idle];
    }
  }
}
