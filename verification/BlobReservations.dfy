/**
 * Accounting for blob buffer memory. Two counters, shared by all peers and by local delivery, are
 * moved by compare-and-exchange; what was reserved is held by a task, by a peer's reservation table
 * or by a local stream, and goes back to its counter when it is let go.
 */
module BlobReservations {
  import opened Common

  const U64_MAX: nat := 0xFFFF_FFFF_FFFF_FFFF

  type TaskId = nat

  datatype Side = Outbound | Inbound

  datatype Holding = Holding(side: Side, bytes: nat)

  /** A row of the reservation table of one peer's blob manager. */
  datatype Key = Key(manager: nat, side: Side, stream: nat)

  datatype Place = InTable(key: Key) | InHand(task: TaskId, slot: nat) | InStream(stream: nat)

  type Ledger = map<Place, Holding>

  datatype Load = Load(side: Side, seen: nat)

  datatype Buffers = Buffers(outboundUsed: nat, inboundUsed: nat, ledger: Ledger, loads: map<TaskId, Load>)

  function Used(b: Buffers, side: Side): nat {
    if side == Outbound then b.outboundUsed else b.inboundUsed
  }

  function SetUsed(b: Buffers, side: Side, used: nat): Buffers {
    if side == Outbound then b.(outboundUsed := used) else b.(inboundUsed := used)
  }

  predicate Fits(used: nat, bytes: nat, cap: nat) {
    used + bytes <= U64_MAX && used + bytes <= cap
  }

  /** What a counter holds after a release; it never goes below zero. */
  function Lowered(used: nat, bytes: nat): nat {
    if used < bytes then 0 else used - bytes
  }

  function Moved(l: Ledger, from: Place, dest: Place): Ledger
    requires from in l
  {
    (l - {from})[dest := l[from]]
  }

  /** Every listed row leaves its table, into the hands of `task`. */
  function Drained(l: Ledger, rows: seq<Key>, task: TaskId, slot: nat): Ledger
    decreases rows
  {
    if rows == [] || InTable(rows[0]) !in l then l
    else Drained(Moved(l, InTable(rows[0]), InHand(task, slot)), rows[1..], task, slot + 1)
  }

  datatype Action =
    | LoadCounter(task: TaskId, side: Side)
    | Exchange(task: TaskId, bytes: nat, cap: nat, slot: nat)
    | InsertRow(task: TaskId, slot: nat, key: Key)
    | RemoveRow(task: TaskId, slot: nat, key: Key)
    | DrainTables(task: TaskId, slot: nat, manager: nat, rows: seq<Key>)
    | OpenStream(task: TaskId, slot: nat, stream: nat)
    | DropStream(task: TaskId, slot: nat, stream: nat)
    | GiveBack(task: TaskId, slot: nat)
    | Cancel(task: TaskId, slot: nat)

  predicate Succeeds(a: Buffers, load: Load, bytes: nat, cap: nat) {
    Fits(load.seen, bytes, cap) && Used(a, load.side) == load.seen
  }

  ghost predicate FreeSlots(l: Ledger, task: TaskId, slot: nat) {
    forall s :: slot <= s ==> InHand(task, s) !in l
  }

  /** The rows of one manager, both sides, each listed once. */
  ghost predicate ListsRows(l: Ledger, manager: nat, rows: seq<Key>) {
    && (forall key :: key in rows <==> key.manager == manager && InTable(key) in l)
    && (forall i, j :: 0 <= i < j < |rows| ==> rows[i] != rows[j])
  }

  ghost predicate Step(a: Buffers, action: Action, b: Buffers) {
    match action
    case LoadCounter(task, side) => b == a.(loads := a.loads[task := Load(side, Used(a, side))])
    case Exchange(task, bytes, cap, slot) =>
      && task in a.loads && InHand(task, slot) !in a.ledger
      && b == if Succeeds(a, a.loads[task], bytes, cap)
              then SetUsed(a, a.loads[task].side, a.loads[task].seen + bytes)
                     .(ledger := a.ledger[InHand(task, slot) := Holding(a.loads[task].side, bytes)])
              else a
    case InsertRow(task, slot, key) =>
      && InHand(task, slot) in a.ledger && a.ledger[InHand(task, slot)].side == key.side
      && b == a.(ledger := Moved(a.ledger, InHand(task, slot), InTable(key)))
    case RemoveRow(task, slot, key) =>
      && InHand(task, slot) !in a.ledger
      && b == if InTable(key) in a.ledger then a.(ledger := Moved(a.ledger, InTable(key), InHand(task, slot))) else a
    case DrainTables(task, slot, manager, rows) =>
      && FreeSlots(a.ledger, task, slot) && ListsRows(a.ledger, manager, rows)
      && b == a.(ledger := Drained(a.ledger, rows, task, slot))
    case OpenStream(task, slot, stream) =>
      && InHand(task, slot) in a.ledger && InStream(stream) !in a.ledger
      && b == a.(ledger := Moved(a.ledger, InHand(task, slot), InStream(stream)))
    case DropStream(task, slot, stream) =>
      && InStream(stream) in a.ledger && InHand(task, slot) !in a.ledger
      && b == a.(ledger := Moved(a.ledger, InStream(stream), InHand(task, slot)))
    case GiveBack(task, slot) =>
      && InHand(task, slot) in a.ledger
      && var h := a.ledger[InHand(task, slot)];
         b == SetUsed(a, h.side, Lowered(Used(a, h.side), h.bytes)).(ledger := a.ledger - {InHand(task, slot)})
    case Cancel(task, slot) =>
      InHand(task, slot) in a.ledger && b == a.(ledger := a.ledger - {InHand(task, slot)})
  }

  ghost predicate IsRun(states: seq<Buffers>, actions: seq<Action>) {
    && |states| == |actions| + 1 && states[0] == Buffers(0, 0, map[], map[])
    && forall i :: 0 <= i < |actions| ==> Step(states[i], actions[i], states[i + 1])
  }

  /**
   * The bytes that a step makes nobody's: those of a row that is overwritten because its stream id is
   * used again, and those in the hands of a task that is dropped before it has put them into a table.
   */
  function LostBy(a: Buffers, action: Action, side: Side): nat {
    if action.InsertRow? && InTable(action.key) in a.ledger then Amount(a.ledger[InTable(action.key)], side)
    else if action.Cancel? && InHand(action.task, action.slot) in a.ledger then
      Amount(a.ledger[InHand(action.task, action.slot)], side)
    else 0
  }

  function Lost(states: seq<Buffers>, actions: seq<Action>, n: nat, side: Side): nat
    requires n <= |actions| < |states|
  {
    if n == 0 then 0 else Lost(states, actions, n - 1, side) + LostBy(states[n - 1], actions[n - 1], side)
  }

  // ---------------------------------------------------------------- sums over the ledger

  function Amount(h: Holding, side: Side): nat {
    if h.side == side then h.bytes else 0
  }

  ghost function Sum<K(!new)>(m: map<K, nat>): nat
    decreases |m|
  {
    if m == map[] then 0
    else
      var k :| k in m;
      m[k] + Sum(m - {k})
  }

  lemma {:induction false} SumWithout<K(!new)>(m: map<K, nat>, k: K)
    requires k in m
    ensures Sum(m) == m[k] + Sum(m - {k})
    decreases |m|
  {
    var q :| q in m && Sum(m) == m[q] + Sum(m - {q});
    if q != k {
      SumWithout(m - {q}, k);
      SumWithout(m - {k}, q);
      assert (m - {q}) - {k} == (m - {k}) - {q};
    }
  }

  function Amounts(l: Ledger, side: Side): map<Place, nat> {
    map p | p in l :: Amount(l[p], side)
  }

  ghost function Total(l: Ledger, side: Side): nat {
    Sum(Amounts(l, side))
  }

  lemma TotalWithout(l: Ledger, p: Place, side: Side)
    requires p in l
    ensures Total(l, side) == Amount(l[p], side) + Total(l - {p}, side)
  {
    SumWithout(Amounts(l, side), p);
    assert Amounts(l, side) - {p} == Amounts(l - {p}, side);
  }

  lemma TotalWith(l: Ledger, p: Place, h: Holding, side: Side)
    requires p !in l
    ensures Total(l[p := h], side) == Amount(h, side) + Total(l, side)
  {
    TotalWithout(l[p := h], p, side);
    assert l[p := h] - {p} == l;
  }

  lemma MovedTotal(l: Ledger, from: Place, dest: Place, side: Side)
    requires from in l && dest !in l
    ensures Total(Moved(l, from, dest), side) == Total(l, side)
  {
    TotalWithout(l, from, side);
    TotalWith(l - {from}, dest, l[from], side);
  }

  lemma {:induction false} DrainedTotal(l: Ledger, rows: seq<Key>, task: TaskId, slot: nat, side: Side)
    requires FreeSlots(l, task, slot)
    ensures Total(Drained(l, rows, task, slot), side) == Total(l, side)
    decreases rows
  {
    if rows != [] && InTable(rows[0]) in l {
      MovedTotal(l, InTable(rows[0]), InHand(task, slot), side);
      DrainedTotal(Moved(l, InTable(rows[0]), InHand(task, slot)), rows[1..], task, slot + 1, side);
    }
  }

  // ---------------------------------------------------------------- conservation

  ghost predicate Balanced(b: Buffers) {
    b.outboundUsed == Total(b.ledger, Outbound) && b.inboundUsed == Total(b.ledger, Inbound)
  }

  lemma InsertLoses(a: Buffers, task: TaskId, slot: nat, key: Key, b: Buffers, side: Side)
    requires Step(a, InsertRow(task, slot, key), b)
    ensures Total(b.ledger, side) + LostBy(a, InsertRow(task, slot, key), side) == Total(a.ledger, side)
  {
    hide Total;
    if InTable(key) in a.ledger {
      TotalWithout(a.ledger, InTable(key), side);
      var l := a.ledger - {InTable(key)};
      MovedTotal(l, InHand(task, slot), InTable(key), side);
      assert b.ledger == Moved(l, InHand(task, slot), InTable(key));
    } else {
      MovedTotal(a.ledger, InHand(task, slot), InTable(key), side);
    }
  }

  /** Used beyond what is reserved: only lost bytes add to it, and nothing takes from it. */
  lemma StepAccounts(a: Buffers, action: Action, b: Buffers, side: Side)
    requires Step(a, action, b) && Used(a, side) >= Total(a.ledger, side)
    ensures Used(b, side) + Total(a.ledger, side)
      == Total(b.ledger, side) + Used(a, side) + LostBy(a, action, side)
  {
    hide Total, FreeSlots, ListsRows;
    match action
    case LoadCounter(_, _) =>
    case Exchange(task, bytes, cap, slot) =>
      TotalWith(a.ledger, InHand(task, slot), Holding(a.loads[task].side, bytes), side);
    case InsertRow(task, slot, key) => InsertLoses(a, task, slot, key, b, side);
    case RemoveRow(task, slot, key) =>
      if InTable(key) in a.ledger { MovedTotal(a.ledger, InTable(key), InHand(task, slot), side); }
    case DrainTables(task, slot, manager, rows) => DrainedTotal(a.ledger, rows, task, slot, side);
    case OpenStream(task, slot, stream) => MovedTotal(a.ledger, InHand(task, slot), InStream(stream), side);
    case DropStream(task, slot, stream) => MovedTotal(a.ledger, InStream(stream), InHand(task, slot), side);
    case GiveBack(task, slot) => TotalWithout(a.ledger, InHand(task, slot), side);
    case Cancel(task, slot) => TotalWithout(a.ledger, InHand(task, slot), side);
  }

  /** In every interleaving each counter is the sum of what is still reserved on its side and of what was ever lost. */
  lemma {:induction false} Conservation(states: seq<Buffers>, actions: seq<Action>, n: nat, side: Side)
    requires IsRun(states, actions) && n < |states|
    ensures Used(states[n], side) == Total(states[n].ledger, side) + Lost(states, actions, n, side)
  {
    hide Step;
    if n == 0 {
      assert Amounts(states[0].ledger, side) == map[];
    } else {
      Conservation(states, actions, n - 1, side);
      StepAccounts(states[n - 1], actions[n - 1], states[n], side);
    }
  }

  /** The counters are exact if and only if no row with bytes was overwritten and no task dropped with bytes in hand. */
  lemma BalancedIff(states: seq<Buffers>, actions: seq<Action>, n: nat)
    requires IsRun(states, actions) && n < |states|
    ensures Balanced(states[n])
      <==> forall i, side :: 0 <= i < n ==> LostBy(states[i], actions[i], side) == 0
  {
    hide Step, Total, LostBy;
    Conservation(states, actions, n, Outbound);
    Conservation(states, actions, n, Inbound);
    forall side ensures Lost(states, actions, n, side) == 0
      <==> forall i :: 0 <= i < n ==> LostBy(states[i], actions[i], side) == 0
    {
      NothingLost(states, actions, n, side);
    }
    assert Used(states[n], Outbound) == states[n].outboundUsed && Used(states[n], Inbound) == states[n].inboundUsed;
    if Balanced(states[n]) {
      forall i, side | 0 <= i < n ensures LostBy(states[i], actions[i], side) == 0 {
        assert Lost(states, actions, n, side) == 0 by { assert side == Outbound || side == Inbound; }
      }
    }
  }

  lemma {:induction false} NothingLost(states: seq<Buffers>, actions: seq<Action>, n: nat, side: Side)
    requires n <= |actions| < |states|
    ensures Lost(states, actions, n, side) == 0
      <==> forall i :: 0 <= i < n ==> LostBy(states[i], actions[i], side) == 0
  {
    hide LostBy;
    if n == 0 {
    } else {
      NothingLost(states, actions, n - 1, side);
    }
  }

  /** The branch that clamps a counter at zero is never taken, in no run whatever. */
  lemma NoUnderflow(states: seq<Buffers>, actions: seq<Action>, n: nat)
    requires IsRun(states, actions) && n < |actions| && actions[n].GiveBack?
    ensures InHand(actions[n].task, actions[n].slot) in states[n].ledger
    ensures var h := states[n].ledger[InHand(actions[n].task, actions[n].slot)];
      h.bytes <= Used(states[n], h.side) && Used(states[n + 1], h.side) == Used(states[n], h.side) - h.bytes
  {
    assert Step(states[n], actions[n], states[n + 1]);
    var p := InHand(actions[n].task, actions[n].slot);
    Conservation(states, actions, n, states[n].ledger[p].side);
    TotalWithout(states[n].ledger, p, states[n].ledger[p].side);
  }

  predicate CapsAtMost(actions: seq<Action>, n: nat, cap: nat)
    requires n <= |actions|
  {
    forall i :: 0 <= i < n && actions[i].Exchange? ==> actions[i].cap <= cap
  }

  /** The task last read the counter of this side at `m`. */
  predicate LastLoad(actions: seq<Action>, m: nat, n: nat, task: TaskId, side: Side)
    requires n <= |actions|
  {
    m < n && actions[m] == LoadCounter(task, side)
    && forall k :: m < k < n ==> !(actions[k].LoadCounter? && actions[k].task == task)
  }

  lemma {:induction false} LoadIsKept(
    states: seq<Buffers>, actions: seq<Action>, m: nat, n: nat, task: TaskId, side: Side)
    requires IsRun(states, actions) && n <= |actions| && LastLoad(actions, m, n, task, side)
    ensures task in states[n].loads && states[n].loads[task] == Load(side, Used(states[m], side))
    decreases n
  {
    hide Used, Total, ListsRows, FreeSlots, Drained;
    assert Step(states[n - 1], actions[n - 1], states[n]);
    if n == m + 1 {
    } else {
      LoadIsKept(states, actions, m, n - 1, task, side);
    }
  }

  /**
   * An attempt reserves if and only if the counter is as it was when it was read and the bytes fit its
   * cap and 64 bits. Then the bytes are counted and in the hands of the task; else nothing changes.
   */
  lemma ReservedIff(states: seq<Buffers>, actions: seq<Action>, m: nat, n: nat, side: Side)
    requires IsRun(states, actions) && n < |actions| && actions[n].Exchange?
    requires LastLoad(actions, m, n, actions[n].task, side)
    ensures var seen, bytes := Used(states[m], side), actions[n].bytes;
      if Used(states[n], side) == seen && seen + bytes <= actions[n].cap && seen + bytes <= 0xFFFF_FFFF_FFFF_FFFF
      then
        && Used(states[n + 1], side) == Used(states[n], side) + bytes
        && states[n + 1].ledger == states[n].ledger[InHand(actions[n].task, actions[n].slot) := Holding(side, bytes)]
      else states[n + 1] == states[n]
  {
    LoadIsKept(states, actions, m, n, actions[n].task, side);
    assert Step(states[n], actions[n], states[n + 1]);
  }

  /** A counter never passes the largest cap that reservations were made with, nor what 64 bits hold. */
  lemma {:induction false} CapsRespected(states: seq<Buffers>, actions: seq<Action>, n: nat, side: Side, cap: nat)
    requires IsRun(states, actions) && n < |states| && CapsAtMost(actions, n, cap)
    ensures Used(states[n], side) <= cap && Used(states[n], side) <= U64_MAX
  {
    if n == 0 {
    } else {
      CapsRespected(states, actions, n - 1, side, cap);
      assert Step(states[n - 1], actions[n - 1], states[n]);
    }
  }

  /** When every holder has let go, only lost bytes are still counted. */
  lemma AllReturned(states: seq<Buffers>, actions: seq<Action>, n: nat, side: Side)
    requires IsRun(states, actions) && n < |states| && states[n].ledger == map[]
    ensures Used(states[n], side) == Lost(states, actions, n, side)
  {
    Conservation(states, actions, n, side);
    assert Amounts(states[n].ledger, side) == map[];
  }

  lemma {:induction false} DrainedRows(l: Ledger, rows: seq<Key>, task: TaskId, slot: nat, key: Key)
    requires forall i, j :: 0 <= i < j < |rows| ==> rows[i] != rows[j]
    requires forall i :: 0 <= i < |rows| ==> InTable(rows[i]) in l
    ensures InTable(key) in Drained(l, rows, task, slot) <==> InTable(key) in l && key !in rows
    decreases rows
  {
    if rows == [] {
    } else {
      var next := Moved(l, InTable(rows[0]), InHand(task, slot));
      DrainedRows(next, rows[1..], task, slot + 1, key);
    }
  }

  /** Failing all streams of a peer empties that peer's table, and no other. */
  lemma DrainEmptiesTables(a: Buffers, task: TaskId, slot: nat, manager: nat, rows: seq<Key>, b: Buffers, key: Key)
    requires Step(a, DrainTables(task, slot, manager, rows), b)
    ensures InTable(key) in b.ledger <==> InTable(key) in a.ledger && key.manager != manager
  {
    forall i | 0 <= i < |rows| ensures InTable(rows[i]) in a.ledger {
      assert rows[i] in rows;
    }
    DrainedRows(a.ledger, rows, task, slot, key);
  }

  // One stream id reserved twice: the second row replaces the first.

  function Leak(bytes: nat, key: Key, task: TaskId): seq<Buffers> {
    var h, hand, row := Holding(Inbound, bytes), InHand(task, 0), InTable(key);
    var first, second := map[task := Load(Inbound, 0)], map[task := Load(Inbound, bytes)];
    [Buffers(0, 0, map[], map[]),
     Buffers(0, 0, map[], first),
     Buffers(0, bytes, map[hand := h], first),
     Buffers(0, bytes, map[row := h], first),
     Buffers(0, bytes, map[row := h], second),
     Buffers(0, bytes + bytes, map[row := h][hand := h], second),
     Buffers(0, bytes + bytes, map[row := h], second),
     Buffers(0, bytes + bytes, map[hand := h], second),
     Buffers(0, bytes, map[], second)]
  }

  function LeakActions(bytes: nat, cap: nat, key: Key, task: TaskId): seq<Action> {
    [LoadCounter(task, Inbound), Exchange(task, bytes, cap, 0), InsertRow(task, 0, key),
     LoadCounter(task, Inbound), Exchange(task, bytes, cap, 0), InsertRow(task, 0, key),
     RemoveRow(task, 0, key), GiveBack(task, 0)]
  }

  lemma LeakReserves(bytes: nat, cap: nat, key: Key, task: TaskId, i: nat)
    requires key.side == Inbound && bytes + bytes <= cap <= U64_MAX && i < 5
    ensures Step(Leak(bytes, key, task)[i], LeakActions(bytes, cap, key, task)[i], Leak(bytes, key, task)[i + 1])
  {
    var h, hand, row := Holding(Inbound, bytes), InHand(task, 0), InTable(key);
    if i == 2 {
      assert Moved(map[hand := h], hand, row) == map[row := h];
    } else if i == 3 {
      assert map[task := Load(Inbound, 0)][task := Load(Inbound, bytes)] == map[task := Load(Inbound, bytes)];
    }
  }

  lemma LeakReleases(bytes: nat, cap: nat, key: Key, task: TaskId, i: nat)
    requires key.side == Inbound && 5 <= i < 8
    ensures Step(Leak(bytes, key, task)[i], LeakActions(bytes, cap, key, task)[i], Leak(bytes, key, task)[i + 1])
  {
    var h, hand, row := Holding(Inbound, bytes), InHand(task, 0), InTable(key);
    if i == 5 {
      assert Moved(map[row := h][hand := h], hand, row) == map[row := h];
    } else if i == 6 {
      assert Moved(map[row := h], row, hand) == map[hand := h];
    } else {
      assert map[hand := h] - {hand} == map[];
    }
  }

  /**
   * A run from the start in which no task is dropped and one stream id is used twice. At its end nobody
   * holds anything, and yet the bytes of the first reservation are still counted.
   */
  lemma ReusedIdLeaks(bytes: nat, cap: nat, key: Key, task: TaskId) returns (states: seq<Buffers>, actions: seq<Action>)
    requires 0 < bytes && key.side == Inbound && bytes + bytes <= cap <= U64_MAX
    ensures IsRun(states, actions) && forall i :: 0 <= i < |actions| ==> !actions[i].Cancel?
    ensures states[|actions|].ledger == map[] && states[|actions|].inboundUsed == bytes
  {
    hide Step;
    states, actions := Leak(bytes, key, task), LeakActions(bytes, cap, key, task);
    forall i | 0 <= i < |actions| ensures Step(states[i], actions[i], states[i + 1]) {
      if i < 5 {
        LeakReserves(bytes, cap, key, task, i);
      } else {
        LeakReleases(bytes, cap, key, task, i);
      }
    }
  }

  /** A run in which a task reserves and is dropped before its row is in the table, although its id is new. */
  lemma DroppedTaskLeaks(bytes: nat, cap: nat, task: TaskId) returns (states: seq<Buffers>, actions: seq<Action>)
    requires 0 < bytes <= cap <= U64_MAX
    ensures IsRun(states, actions) && forall i :: 0 <= i < |actions| ==> !actions[i].InsertRow?
    ensures states[|actions|].ledger == map[] && states[|actions|].outboundUsed == bytes
  {
    var h, loads := Holding(Outbound, bytes), map[task := Load(Outbound, 0)];
    var s0, s1 := Buffers(0, 0, map[], map[]), Buffers(0, 0, map[], loads);
    var s2 := Buffers(bytes, 0, map[InHand(task, 0) := h], loads);
    var s3 := Buffers(bytes, 0, map[], loads);
    states := [s0, s1, s2, s3];
    actions := [LoadCounter(task, Outbound), Exchange(task, bytes, cap, 0), Cancel(task, 0)];
    assert Step(s0, actions[0], s1) && Step(s1, actions[1], s2);
    assert s2.ledger - {InHand(task, 0)} == map[];
    assert Step(s2, actions[2], s3);
  }

  // ---------------------------------------------------------------- the counters themselves

  datatype PairFailure = OutboundFull | InboundFull

  class BlobBufferTracker {
    var outboundUsed: nat
    var inboundUsed: nat

    function CounterOf(side: Side): nat
      reads this
    {
      if side == Outbound then outboundUsed else inboundUsed
    }

    constructor ()
      ensures outboundUsed == 0 && inboundUsed == 0
    {
      outboundUsed, inboundUsed := 0, 0;
    }

    method SetCounter(side: Side, used: nat)
      modifies this
      ensures CounterOf(side) == used && forall other :: other != side ==> CounterOf(other) == old(CounterOf(other))
    {
      if side == Outbound {
        outboundUsed := used;
      } else {
        inboundUsed := used;
      }
    }

    /**
     * `writes` are what other tasks leave in the counter between a read and the exchange that follows
     * it, one at each attempt. The decision is made on the value the counter has at that moment.
     */
    method TryReserve(side: Side, bytes: nat, cap: nat, writes: seq<nat>) returns (reserved: bool, n: nat)
      modifies this
      ensures n <= |writes|
      ensures var seen := ([old(CounterOf(side))] + writes)[n];
        reserved <==> seen + bytes <= cap && seen + bytes <= 0xFFFF_FFFF_FFFF_FFFF
      ensures CounterOf(side) == ([old(CounterOf(side))] + writes)[n] + if reserved then bytes else 0
      ensures forall other :: other != side ==> CounterOf(other) == old(CounterOf(other))
    {
      n := 0;
      while true
        invariant n <= |writes| && CounterOf(side) == ([old(CounterOf(side))] + writes)[n]
        invariant forall other :: other != side ==> CounterOf(other) == old(CounterOf(other))
        decreases |writes| - n
      {
        var current := CounterOf(side);
        if current + bytes > U64_MAX {
          return false, n;
        }
        if current + bytes > cap {
          return false, n;
        }
        if n < |writes| {
          SetCounter(side, writes[n]);
          n := n + 1;
        }
        if CounterOf(side) == current {
          SetCounter(side, current + bytes);
          return true, n;
        }
      }
    }

    method Release(side: Side, bytes: nat)
      modifies this
      ensures CounterOf(side) == Lowered(old(CounterOf(side)), bytes)
      ensures forall other :: other != side ==> CounterOf(other) == old(CounterOf(other))
    {
      var current := CounterOf(side);
      SetCounter(side, if current < bytes then 0 else current - bytes);
    }

    /** Both sides or neither; a refusal names the first side without room. */
    method TryReservePair(outboundBytes: nat, outboundCap: nat, inboundBytes: nat, inboundCap: nat)
      returns (r: Result<Unit, PairFailure>)
      modifies this
      ensures r == (if !Fits(old(outboundUsed), outboundBytes, outboundCap) then Err(OutboundFull)
                    else if !Fits(old(inboundUsed), inboundBytes, inboundCap) then Err(InboundFull)
                    else Ok(Unit))
      ensures r.Ok? ==>
        outboundUsed == old(outboundUsed) + outboundBytes && inboundUsed == old(inboundUsed) + inboundBytes
      ensures r.Err? ==> outboundUsed == old(outboundUsed) && inboundUsed == old(inboundUsed)
    {
      var first, _ := TryReserve(Outbound, outboundBytes, outboundCap, []);
      if !first {
        assert CounterOf(Inbound) == old(CounterOf(Inbound));
        return Err(OutboundFull);
      }
      assert CounterOf(Inbound) == old(CounterOf(Inbound));
      var second, _ := TryReserve(Inbound, inboundBytes, inboundCap, []);
      assert CounterOf(Outbound) == old(CounterOf(Outbound)) + outboundBytes;
      if !second {
        Release(Outbound, outboundBytes);
        assert CounterOf(Inbound) == old(CounterOf(Inbound));
        return Err(InboundFull);
      }
      return Ok(Unit);
    }
  }

  // ---------------------------------------------------------------- one peer's reservations

  class ReservationTables {
    const tracker: BlobBufferTracker
    var outbound: map<nat, nat>
    var inbound: map<nat, nat>

    function TableOf(side: Side): map<nat, nat>
      reads this
    {
      if side == Outbound then outbound else inbound
    }

    /** What the counter holds beyond this peer's own reservations. */
    ghost function Others(side: Side): int
      reads this, tracker
    {
      tracker.CounterOf(side) - Sum(TableOf(side))
    }

    constructor (tracker: BlobBufferTracker)
      ensures this.tracker == tracker && outbound == map[] && inbound == map[]
    {
      this.tracker := tracker;
      outbound, inbound := map[], map[];
    }

    method SetTable(side: Side, table: map<nat, nat>)
      modifies this
      ensures TableOf(side) == table && forall other :: other != side ==> TableOf(other) == old(TableOf(other))
    {
      if side == Outbound {
        outbound := table;
      } else {
        inbound := table;
      }
    }

    /** A stream id that is still in the table turns its old reservation into one nobody can release. */
    method Reserve(side: Side, stream: nat, bytes: nat, cap: nat) returns (reserved: bool)
      modifies this, tracker
      ensures reserved == Fits(old(tracker.CounterOf(side)), bytes, cap)
      ensures TableOf(side) == if reserved then old(TableOf(side))[stream := bytes] else old(TableOf(side))
      ensures Others(side) == old(Others(side)) + if reserved
        && stream in old(TableOf(side)) then old(TableOf(side))[stream] else 0
      ensures forall other :: other != side ==>
        TableOf(other) == old(TableOf(other)) && Others(other) == old(Others(other))
    {
      var fits, _ := tracker.TryReserve(side, bytes, cap, []);
      reserved := fits;
      if !reserved {
        return;
      }
      ghost var table := TableOf(side);
      SetTable(side, TableOf(side)[stream := bytes]);
      SumWithout(table[stream := bytes], stream);
      assert table[stream := bytes] - {stream} == table - {stream};
      if stream in table {
        SumWithout(table, stream);
      } else {
        assert table - {stream} == table;
      }
    }

    /** Only what is in the table is given back, so a second release of the same stream does nothing. */
    method Release(side: Side, stream: nat)
      requires Others(side) >= 0
      modifies this, tracker
      ensures TableOf(side) == old(TableOf(side)) - {stream} && Others(side) == old(Others(side))
      ensures forall other :: other != side ==>
        TableOf(other) == old(TableOf(other)) && Others(other) == old(Others(other))
    {
      if stream !in TableOf(side) {
        assert TableOf(side) - {stream} == TableOf(side);
        return;
      }
      var bytes := TableOf(side)[stream];
      SumWithout(TableOf(side), stream);
      SetTable(side, TableOf(side) - {stream});
      tracker.Release(side, bytes);
    }

    method GiveBackAll(side: Side, rows: map<nat, nat>)
      requires Sum(rows) <= tracker.CounterOf(side)
      modifies tracker
      ensures tracker.CounterOf(side) == old(tracker.CounterOf(side)) - Sum(rows)
      ensures forall other :: other != side ==> tracker.CounterOf(other) == old(tracker.CounterOf(other))
    {
      var rest := rows;
      while rest != map[]
        invariant tracker.CounterOf(side) - Sum(rest) == old(tracker.CounterOf(side)) - Sum(rows)
        invariant forall other :: other != side ==> tracker.CounterOf(other) == old(tracker.CounterOf(other))
        decreases |rest|
      {
        var stream :| stream in rest;
        SumWithout(rest, stream);
        assert |rest - {stream}| == |rest| - 1;
        tracker.Release(side, rest[stream]);
        rest := rest - {stream};
      }
    }

    /** Both tables are emptied first; then what they held is given back. */
    method FailAllStreams()
      requires Others(Outbound) >= 0 && Others(Inbound) >= 0
      modifies this, tracker
      ensures outbound == map[] && inbound == map[]
      ensures Others(Outbound) == old(Others(Outbound)) && Others(Inbound) == old(Others(Inbound))
    {
      var outboundRows, inboundRows := outbound, inbound;
      outbound, inbound := map[], map[];
      GiveBackAll(Outbound, outboundRows);
      assert tracker.CounterOf(Inbound) == old(tracker.CounterOf(Inbound));
      GiveBackAll(Inbound, inboundRows);
      assert tracker.CounterOf(Outbound) == old(tracker.CounterOf(Outbound)) - Sum(outboundRows);
    }
  }
}
