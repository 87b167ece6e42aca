/** Harvester, queue and aggregator together, in any interleaving: draining the queue makes all tables agree. */
module Pipeline {
  import opened Types
  import opened Sums
  import opened Schema
  import opened Indexing
  import opened Conservation
  import opened Aggregation
  import opened Draining
  import opened Chain
  import opened Follower
  import opened Drifting

  /** `states` are the states the aggregator went through: one at the start, and one after each message it took. */
  datatype System = System(follower: Follower, states: seq<State>)

  const BOOT := System(FRESH, [START])

  ghost predicate HarvesterMoves(w: World, x: System, y: System)
    requires ValidWorld(w)
  {
    Next(w, x.follower, y.follower) && y.states == x.states
  }

  /** The aggregator takes the next message; a reorganisation for which its log has no row stops it for good. */
  ghost predicate AggregatorMoves(x: System, y: System) {
    && 0 < |x.states| <= |x.follower.sent|
    && |y.states| == |x.states| + 1
    && y == System(x.follower, x.states + [Final(y.states)])
    && Consumes(Final(x.states), x.follower.sent[|x.states| - 1], Final(y.states))
  }

  ghost predicate Moves(w: World, x: System, y: System)
    requires ValidWorld(w)
  {
    HarvesterMoves(w, x, y) || AggregatorMoves(x, y)
  }

  ghost predicate Reachable(w: World, steps: nat, y: System)
    requires ValidWorld(w)
  {
    if steps == 0 then y == BOOT
    else
      var before := steps - 1;
      exists x :: Reachable(w, before, x) && Moves(w, x, y)
  }

  /** What every reachable state satisfies: the messages taken so far, handled one by one, led here. */
  ghost predicate Consistent(w: World, x: System) {
    && InStep(w, x.follower)
    && x.states != []
    && x.states[0] == START
    && |x.states| <= |x.follower.sent| + 1
    && Trace(x.states, x.follower.sent[..|x.states| - 1])
  }

  lemma SentGrows(w: World, f: Follower, f': Follower)
    requires ValidWorld(w) && Next(w, f, f')
    ensures f.sent <= f'.sent
  {
    hide Indexed, IndexAll, RolledBack, BlockMsgs, ValidOrders, UnstoredBranch, Passing, CanIndex, CanIndexAll;
    hide TriedOrders, ValidAllOrders, AllMsgs;
  }

  lemma ConsistentAfterConsume(w: World, x: System, y: System)
    requires Consistent(w, x) && AggregatorMoves(x, y)
    ensures Consistent(w, y)
  {
    hide InStep, Consumes, Trace;
    var k := |x.states| - 1;
    TraceSnoc(x.states, x.follower.sent[..k], x.follower.sent[k], Final(y.states));
    assert x.follower.sent[..k] + [x.follower.sent[k]] == x.follower.sent[..k + 1];
  }

  lemma ConsistentAfterMove(w: World, x: System, y: System)
    requires ValidWorld(w) && Consistent(w, x) && Moves(w, x, y)
    ensures Consistent(w, y)
  {
    hide Next, InStep, AggregatorMoves, Trace;
    if HarvesterMoves(w, x, y) {
      NextKeeps(w, x.follower, y.follower);
      SentGrows(w, x.follower, y.follower);
      assert y.follower.sent[..|y.states| - 1] == x.follower.sent[..|x.states| - 1];
    } else {
      ConsistentAfterConsume(w, x, y);
    }
  }

  lemma BootConsistent(w: World)
    requires BitcoinWorld(w)
    ensures Consistent(w, BOOT)
  {
    FreshInStep(w);
  }

  /** Whatever the node serves and however the two halves interleave. */
  lemma {:induction false} ReachableConsistent(w: World, steps: nat, y: System)
    requires BitcoinWorld(w) && Reachable(w, steps, y)
    ensures Consistent(w, y)
    decreases steps
  {
    hide Moves, Consistent, BitcoinRules;
    if steps == 0 {
      BootConsistent(w);
    } else {
      var before := steps - 1;
      var x :| Reachable(w, before, x) && Moves(w, x, y);
      ReachableConsistent(w, before, x);
      ConsistentAfterMove(w, x, y);
    }
  }

  // ---- draining ----

  /** `states` carry on from where the aggregator is, through the whole queue. */
  ghost predicate Drains(x: System, states: seq<State>) {
    x.states != [] && x.states <= states && Trace(states, x.follower.sent)
  }

  lemma QueueDescribesTables(w: World, f: Follower)
    requires InStep(w, f)
    ensures History(f.sent, f.tables)
  {
    hide BitcoinRules, StoredChain;
    if f.cursor.None? {
      EmptyHistory();
    }
  }

  /**
   * In every reachable state, draining the queue gives, for each height and address: committed plus pending is what the
   * stored block of that height created minus what it spent, plus what the reorganisations so far took it off.
   */
  lemma DrainedAccountsMatchUtxos(w: World, steps: nat, x: System, states: seq<State>, h: nat, a: Address)
    requires BitcoinWorld(w) && Reachable(w, steps, x) && Drains(x, states)
    ensures LogCell(Final(states), h, a) + PendingCell(Final(states), h, a)
         == Cell(x.follower.tables.utxos, h, a) + Drift(states, x.follower.sent, h, a)
  {
    hide Reachable, Drained, Cell, BitcoinRules, InStep, Trace;
    ReachableConsistent(w, steps, x);
    AccountsDrift(states, x.follower.sent, h, a);
    QueueDescribesTables(w, x.follower);
  }

  lemma EmptyHistory()
    ensures History(FRESH.sent, FRESH.tables)
  {
    forall h: nat, a: Address
      ensures Drained(0, [], h, a) == Cell(EMPTY.utxos, h, a)
    {
    }
  }

  // ---- from heights to balances ----

  ghost function HeightSum(f: nat -> int, top: nat): int {
    if top == 0 then 0 else HeightSum(f, top - 1) + f(top - 1)
  }

  lemma {:induction false} HeightSumAgree(f: nat -> int, g: nat -> int, top: nat)
    requires forall h: nat | h < top :: f(h) == g(h)
    ensures HeightSum(f, top) == HeightSum(g, top)
  {
    if top == 0 {
    } else {
      HeightSumAgree(f, g, top - 1);
    }
  }

  lemma {:induction false} HeightSumAdd(f: nat -> int, g: nat -> int, sum: nat -> int, top: nat)
    requires forall h: nat | h < top :: sum(h) == f(h) + g(h)
    ensures HeightSum(sum, top) == HeightSum(f, top) + HeightSum(g, top)
  {
    if top == 0 {
    } else {
      HeightSumAdd(f, g, sum, top - 1);
    }
  }

  /** A value sitting at one height. */
  lemma {:induction false} HeightSumOne(f: nat -> int, k: nat, v: int, top: nat)
    requires forall h: nat | h < top :: f(h) == if h == k then v else 0
    ensures HeightSum(f, top) == if k < top then v else 0
  {
    if top == 0 {
    } else {
      HeightSumOne(f, k, v, top - 1);
    }
  }

  lemma {:induction false} HeightSumZero(f: nat -> int, top: nat)
    requires forall h: nat | h < top :: f(h) == 0
    ensures HeightSum(f, top) == 0
  {
    if top == 0 {
    } else {
      HeightSumZero(f, top - 1);
    }
  }

  /** Summing each row over all heights, or each height over all rows. */
  lemma {:induction false} SeqByHeight<T>(s: seq<T>, cell: nat -> (T -> int), w: T -> int, top: nat)
    requires forall x | x in s :: HeightSum((h: nat) => cell(h)(x), top) == w(x)
    ensures HeightSum((h: nat) => SeqSum(s, cell(h)), top) == SeqSum(s, w)
  {
    if s == [] {
      assert forall h: nat :: SeqSum(s, cell(h)) == 0;
      HeightSumZero((h: nat) => SeqSum(s, cell(h)), top);
    } else {
      var init, x := s[..|s| - 1], s[|s| - 1];
      assert x in s;
      SeqByHeight(init, cell, w, top);
      HeightSumAdd((h: nat) => SeqSum(init, cell(h)), (h: nat) => cell(h)(x), (h: nat) => SeqSum(s, cell(h)), top);
    }
  }

  lemma {:induction false} SetByHeight<K>(keys: set<K>, cell: nat -> (K -> int), w: K -> int, top: nat)
    requires forall k | k in keys :: HeightSum((h: nat) => cell(h)(k), top) == w(k)
    ensures HeightSum((h: nat) => SetSum(keys, cell(h)), top) == SetSum(keys, w)
  {
    if keys == {} {
      assert forall h: nat :: SetSum(keys, cell(h)) == 0;
      HeightSumZero((h: nat) => SetSum(keys, cell(h)), top);
    } else {
      var k :| k in keys;
      SetByHeight(keys - {k}, cell, w, top);
      SetSumRemove(keys, w, k);
      forall h: nat
        ensures SetSum(keys, cell(h)) == SetSum(keys - {k}, cell(h)) + cell(h)(k)
      {
        SetSumRemove(keys, cell(h), k);
      }
      HeightSumAdd((h: nat) => SetSum(keys - {k}, cell(h)), (h: nat) => cell(h)(k),
                   (h: nat) => SetSum(keys, cell(h)), top);
    }
  }

  /** No height in the log or the pending table reaches `top`. */
  ghost predicate HeightsBelow(s: State, top: nat) {
    (forall r | r in s.log :: r.height < top) && (forall e | e in s.pending :: e.height < top)
  }

  /** No height in the UTXO table reaches `top`. */
  ghost predicate RowsBelow(utxos: Utxos, top: nat) {
    forall o | o in utxos :: utxos[o].blockNumber < top && !SpentSince(utxos[o], top)
  }

  lemma AccountsByHeight(s: State, a: Address, top: nat)
    requires HeightsBelow(s, top)
    ensures HeightSum((h: nat) => Account(s, h, a), top)
         == SeqSum(s.log, RowWeight(a)) + SeqSum(s.pending, EventWeight(a))
  {
    var rowCell := (h: nat) => RowCellWeight(h, a);
    var eventCell := (h: nat) => EventCellWeight(h, a);
    forall r | r in s.log
      ensures HeightSum((h: nat) => rowCell(h)(r), top) == RowWeight(a)(r)
    {
      HeightSumOne((h: nat) => rowCell(h)(r), r.height, RowWeight(a)(r), top);
    }
    forall e | e in s.pending
      ensures HeightSum((h: nat) => eventCell(h)(e), top) == EventWeight(a)(e)
    {
      HeightSumOne((h: nat) => eventCell(h)(e), e.height, EventWeight(a)(e), top);
    }
    SeqByHeight(s.log, rowCell, RowWeight(a), top);
    SeqByHeight(s.pending, eventCell, EventWeight(a), top);
    HeightSumAdd((h: nat) => SeqSum(s.log, rowCell(h)), (h: nat) => SeqSum(s.pending, eventCell(h)),
                 (h: nat) => Account(s, h, a), top);
  }

  lemma UtxosByHeight(utxos: Utxos, a: Address, top: nat)
    requires RowsBelow(utxos, top)
    ensures HeightSum((h: nat) => Cell(utxos, h, a), top) == Unspent(utxos, a)
  {
    var cell := (h: nat) => Weight(utxos, CellWeight(h, a));
    forall o | o in utxos.Keys
      ensures HeightSum((h: nat) => cell(h)(o), top) == Weight(utxos, UnspentWeight(a))(o)
    {
      var r := utxos[o];
      var mine := if r.owner == a then r.amount else 0;
      var made := (h: nat) => if h == r.blockNumber then mine else 0;
      var spent := (h: nat) => if r.spentBlock == Some(h) then -mine else 0;
      HeightSumOne(made, r.blockNumber, mine, top);
      if r.spentBlock.Some? {
        HeightSumOne(spent, r.spentBlock.value, -mine, top);
      } else {
        HeightSumOne(spent, 0, 0, top);
      }
      HeightSumAdd(made, spent, (h: nat) => cell(h)(o), top);
    }
    SetByHeight(utxos.Keys, cell, Weight(utxos, UnspentWeight(a)), top);
    HeightSumAgree((h: nat) => Cell(utxos, h, a), (h: nat) => SetSum(utxos.Keys, cell(h)), top);
  }

  lemma {:induction false} LogBound(log: seq<LogRow>) returns (top: nat)
    ensures forall r | r in log :: r.height < top
  {
    if log == [] {
      top := 0;
    } else {
      var before := LogBound(log[..|log| - 1]);
      var last := log[|log| - 1];
      assert log == log[..|log| - 1] + [last];
      top := if last.height < before then before else last.height + 1;
    }
  }

  lemma PendingBound(pending: seq<Event>) returns (top: nat)
    ensures forall e | e in pending :: e.height < top
  {
    top := LogBound(ToRows(pending));
    forall e | e in pending
      ensures e.height < top
    {
      var i :| 0 <= i < |pending| && pending[i] == e;
      assert ToRows(pending)[i] in ToRows(pending);
    }
  }

  lemma UtxoBound(w: World, f: Follower) returns (top: nat)
    requires InStep(w, f)
    ensures RowsBelow(f.tables.utxos, top)
  {
    if f.cursor.None? {
      top := 0;
    } else {
      var t, c := f.tables, f.cursor.value.header;
      hide History, BitcoinRules;
      var lo :| StoredChain(w, t, c.hash, lo);
      top := c.height + 1;
      forall o | o in t.utxos
        ensures t.utxos[o].blockNumber < top && !SpentSince(t.utxos[o], top)
      {
        assert StoredBlock(w, t, c.hash, Range(lo, top), t.txs[o.txid].blockHash);
      }
    }
  }

  /** What the reorganisations took the balance of `a` off, over all heights below `top`. */
  ghost function BalanceDrift(states: seq<State>, msgs: seq<Msg>, a: Address, top: nat): int
    requires |states| == |msgs| + 1
  {
    HeightSum((h: nat) => Drift(states, msgs, h, a), top)
  }

  /** No height in the tables of either half reaches `top`. */
  ghost predicate AllBelow(x: System, s: State, top: nat) {
    HeightsBelow(s, top) && RowsBelow(x.follower.tables.utxos, top)
  }

  lemma SomeTop(w: World, steps: nat, x: System, s: State) returns (top: nat)
    requires BitcoinWorld(w) && Reachable(w, steps, x)
    ensures AllBelow(x, s, top)
  {
    hide Reachable, BitcoinRules, InStep;
    ReachableConsistent(w, steps, x);
    var t1 := LogBound(s.log);
    var t2 := PendingBound(s.pending);
    var t3 := UtxoBound(w, x.follower);
    top := t1 + t2 + t3;
  }

  /**
   * And so, for every address: balance plus what is pending is the sum of its unspent outputs, plus what the
   * reorganisations took it off. The balance row agrees with the log and the hourly statistics in any case.
   */
  lemma DrainedBalanceDrifts(w: World, steps: nat, x: System, states: seq<State>, a: Address, top: nat)
    requires BitcoinWorld(w) && Reachable(w, steps, x) && Drains(x, states) && AllBelow(x, Final(states), top)
    ensures var agg := Final(states);
      && GetOrZero(agg.balances, a) + SeqSum(agg.pending, EventWeight(a))
         == Unspent(x.follower.tables.utxos, a) + BalanceDrift(states, x.follower.sent, a, top)
      && GetOrZero(agg.balances, a) == SeqSum(agg.log, RowWeight(a)) == Total(agg.stats, StatWeight(a))
  {
    hide Reachable, Cell, LogCell, PendingCell, BitcoinRules, InStep, Drift, Consumes;
    var agg, utxos, sent := Final(states), x.follower.tables.utxos, x.follower.sent;
    forall h: nat | h < top
      ensures Account(agg, h, a) == Cell(utxos, h, a) + Drift(states, sent, h, a)
    {
      DrainedAccountsMatchUtxos(w, steps, x, states, h, a);
    }
    HeightSumAdd((h: nat) => Cell(utxos, h, a), (h: nat) => Drift(states, sent, h, a),
                 (h: nat) => Account(agg, h, a), top);
    AccountsByHeight(agg, a, top);
    UtxosByHeight(utxos, a, top);
    DrainedAgrees(w, steps, x, states);
  }

  lemma DrainedAgrees(w: World, steps: nat, x: System, states: seq<State>)
    requires BitcoinWorld(w) && Reachable(w, steps, x) && Drains(x, states)
    ensures Agree(Final(states))
  {
    hide Reachable, BitcoinRules, InStep, Agree, ConsumesAll;
    ReachableConsistent(w, steps, x);
    TraceConsumes(states, x.follower.sent);
    ReachableAgrees(x.follower.sent, Final(states));
  }

  /** Where every reorganisation met only pending events between its fork point and the rows above, nothing is off. */
  lemma DrainedBalanceIsUnspent(w: World, steps: nat, x: System, states: seq<State>, a: Address)
    requires BitcoinWorld(w) && Reachable(w, steps, x) && Drains(x, states) && SafeTrace(states, x.follower.sent)
    ensures forall h: nat :: LogCell(Final(states), h, a) + PendingCell(Final(states), h, a)
                          == Cell(x.follower.tables.utxos, h, a)
    ensures GetOrZero(Final(states).balances, a) + SeqSum(Final(states).pending, EventWeight(a))
         == Unspent(x.follower.tables.utxos, a)
  {
    hide Reachable, Cell, LogCell, PendingCell, BitcoinRules, InStep, Drift, Consumes, SafeTrace, Agree, AllBelow;
    var sent := x.follower.sent;
    var top := SomeTop(w, steps, x, Final(states));
    DrainedBalanceDrifts(w, steps, x, states, a, top);
    forall h: nat
      ensures Drift(states, sent, h, a) == 0
    {
      SafeHasNoDrift(states, sent, h, a);
    }
    forall h: nat
      ensures LogCell(Final(states), h, a) + PendingCell(Final(states), h, a) == Cell(x.follower.tables.utxos, h, a)
    {
      DrainedAccountsMatchUtxos(w, steps, x, states, h, a);
    }
    HeightSumZero((h: nat) => Drift(states, sent, h, a), top);
  }
}
