/** The queue between the two halves: what a stream of messages means for the account of one address at one height. */
module Draining {
  import opened Types
  import opened Sums
  import opened Schema
  import opened Indexing
  import opened Integrity
  import opened Conservation
  import opened Aggregation

  /** The value of cell (h, a) after the messages: an event adds its amount, a reorganisation clears its heights. */
  ghost function Drained(value: int, msgs: seq<Msg>, h: nat, a: Address): int {
    if msgs == [] then value
    else
      var before := Drained(value, msgs[..|msgs| - 1], h, a);
      match msgs[|msgs| - 1]
      case EventMsg(e) => before + EventCellWeight(h, a)(e)
      case ReorgMsg(n) => if h < n then before else 0
  }

  lemma {:induction false} DrainedConcat(value: int, ms: seq<Msg>, ns: seq<Msg>, h: nat, a: Address)
    ensures Drained(value, ms + ns, h, a) == Drained(Drained(value, ms, h, a), ns, h, a)
  {
    if ns == [] {
      assert ms + ns == ms;
    } else {
      assert (ms + ns)[..|ms + ns| - 1] == ms + ns[..|ns| - 1];
      DrainedConcat(value, ms, ns[..|ns| - 1], h, a);
    }
  }

  lemma {:induction false} DrainedEvents(value: int, ms: seq<Msg>, h: nat, a: Address)
    requires forall m | m in ms :: m.EventMsg?
    ensures Drained(value, ms, h, a) == value + SeqSum(ms, CellAmountWeight(h, a))
  {
    if ms == [] {
    } else {
      assert ms[|ms| - 1] in ms;
      DrainedEvents(value, ms[..|ms| - 1], h, a);
    }
  }

  // ---- the producer side ----

  /** The messages describe the UTXO table, cell by cell. */
  ghost predicate Describes(sent: seq<Msg>, utxos: Utxos) {
    forall h: nat, a: Address :: Drained(0, sent, h, a) == Cell(utxos, h, a)
  }

  ghost predicate History(sent: seq<Msg>, t: Tables) {
    Describes(sent, t.utxos)
  }

  lemma {:induction false} BlockMsgsAreEvents(utxos: Utxos, b: Block, orders: BlockOrder)
    requires |orders| <= |b.txs|
    ensures forall m | m in BlockMsgs(utxos, b, orders) :: m.EventMsg? && m.event.height == b.header.height
  {
    if orders == [] {
    } else {
      BlockMsgsAreEvents(utxos, b, orders[..|orders| - 1]);
    }
  }

  lemma DrainedBlock(sent: seq<Msg>, utxos: Utxos, b: Block, orders: BlockOrder, h: nat, a: Address)
    requires ValidOrders(utxos, b, orders)
    ensures Drained(0, sent + BlockMsgs(utxos, b, orders), h, a)
         == Drained(0, sent, h, a) + When(h == b.header.height, NetSum(utxos, b.txs, |orders|, a))
  {
    BlockMsgsAreEvents(utxos, b, orders);
    DrainedConcat(0, sent, BlockMsgs(utxos, b, orders), h, a);
    DrainedEvents(Drained(0, sent, h, a), BlockMsgs(utxos, b, orders), h, a);
    BlockMsgsSum(utxos, b, orders, CellAmountWeight(h, a), a, h == b.header.height);
  }

  /** In the middle of a block, the messages describe the table as it is at that moment. */
  lemma DescribesPartway(sent: seq<Msg>, utxos: Utxos, b: Block, orders: BlockOrder)
    requires Describes(sent, utxos) && ValidOrders(utxos, b, orders) && CanCreateUpTo(utxos, b, |orders|)
    ensures Describes(sent + BlockMsgs(utxos, b, orders), Partway(utxos, b, |orders|))
  {
    hide Partway, BlockMsgs, CanCreateUpTo, ValidOrder, NetSum;
    forall h: nat, a: Address
      ensures Drained(0, sent + BlockMsgs(utxos, b, orders), h, a) == Cell(Partway(utxos, b, |orders|), h, a)
    {
      DrainedBlock(sent, utxos, b, orders, h, a);
      BlockTotal(utxos, b, |orders|, CellWeight(h, a), a, h == b.header.height);
    }
  }

  /** A block that indexes keeps the history in step with the table. */
  lemma HistoryAfterBlock(sent: seq<Msg>, t: Tables, b: Block, orders: BlockOrder)
    requires History(sent, t) && CanIndex(t, b) && ValidOrders(t.utxos, b, orders) && |orders| == |b.txs|
    ensures History(sent + BlockMsgs(t.utxos, b, orders), Indexed(t, b))
  {
    DescribesPartway(sent, t.utxos, b, orders);
  }

  /** No row is spent below the height that made it. */
  ghost predicate SpentAfterMade(utxos: Utxos) {
    forall o | o in utxos && utxos[o].spentBlock.Some? :: utxos[o].spentBlock.value >= utxos[o].blockNumber
  }

  /** A rollback clears the cells from `n` on and keeps the others. */
  lemma CellsAfterRollback(t: Tables, n: nat, h: nat, a: Address)
    requires Referential(t) && SpentAfterMade(t.utxos)
    ensures Cell(RolledBack(t, n).utxos, h, a) == if h < n then Cell(t.utxos, h, a) else 0
  {
    CascadeIsByHeight(t, n);
    var u, u' := t.utxos, RolledBack(t, n).utxos;
    var w := CellWeight(h, a);
    if h < n {
      forall o | o in u.Keys + u'.Keys
        ensures Weight(u, w)(o) == Weight(u', w)(o)
      {
      }
      TotalAgree(u, w, u', w);
    } else {
      forall o | o in u'.Keys
        ensures Weight(u', w)(o) == 0
      {
      }
      SetSumZero(u'.Keys, Weight(u', w));
    }
  }

  lemma HistoryAfterRollback(sent: seq<Msg>, t: Tables, n: nat)
    requires History(sent, t) && Referential(t) && SpentAfterMade(t.utxos)
    ensures History(sent + [ReorgMsg(n)], RolledBack(t, n))
  {
    forall h: nat, a: Address
      ensures Drained(0, sent + [ReorgMsg(n)], h, a) == Cell(RolledBack(t, n).utxos, h, a)
    {
      assert (sent + [ReorgMsg(n)])[..|sent|] == sent;
      CellsAfterRollback(t, n, h, a);
    }
  }

  lemma {:induction false} HistoryAfterFork(sent: seq<Msg>, t: Tables, bs: seq<Block>, orders: seq<BlockOrder>)
    requires History(sent, t) && |orders| <= |bs| && CanIndexUpTo(t, bs, |orders|)
    requires ValidAllOrders(t, bs, orders) && FullOrders(bs, orders)
    ensures History(sent + AllMsgs(t, bs, orders), IndexUpTo(t, bs, |orders|))
  {
    hide History, Indexed, CanIndex, ValidOrders, BlockMsgs;
    if orders == [] {
      assert sent + AllMsgs(t, bs, orders) == sent;
    } else {
      var i := |orders| - 1;
      HistoryAfterFork(sent, t, bs, orders[..i]);
      HistoryAfterBlock(sent + AllMsgs(t, bs, orders[..i]), IndexUpTo(t, bs, i), bs[i], orders[i]);
      assert sent + AllMsgs(t, bs, orders)
          == sent + AllMsgs(t, bs, orders[..i]) + BlockMsgs(IndexUpTo(t, bs, i).utxos, bs[i], orders[i]);
    }
  }

  // ---- failures: the queue describes the tables as they were when the failing statement was reached ----

  lemma LeakShows(sent: seq<Msg>, ms: seq<Msg>, utxos: Utxos, h: nat, net: Address -> int)
    requires Describes(sent, utxos)
    requires forall g: nat, a: Address :: Drained(0, sent + ms, g, a) == Drained(0, sent, g, a) + When(g == h, net(a))
    ensures Describes(sent + ms, utxos) <==> forall a: Address :: net(a) == 0
  {
    if Describes(sent + ms, utxos) {
      forall a: Address
        ensures net(a) == 0
      {
        assert Drained(0, sent + ms, h, a) == Drained(0, sent, h, a) + When(h == h, net(a));
      }
    }
  }

  /** The UTXO table when the failing transaction of `b` is reached. */
  function AtFailure(t: Tables, b: Block): Utxos {
    Partway(t.utxos, b, Passing(t, b))
  }

  lemma NetUntilFailure(t: Tables, b: Block, a: Address)
    ensures NetSum(t.utxos, b.txs, Passing(t, b), a) == Unspent(AtFailure(t, b), a) - Unspent(t.utxos, a)
  {
    BlockTotal(t.utxos, b, Passing(t, b), UnspentWeight(a), a, true);
  }

  /**
   * The events of a block that fails stay in the queue while the tables roll back. They do no harm exactly when the
   * transactions before the failing one leave every unspent total as it was.
   */
  lemma LeakedEventsIff(sent: seq<Msg>, t: Tables, b: Block, orders: BlockOrder)
    requires History(sent, t) && ValidOrders(t.utxos, b, orders) && |orders| == Passing(t, b)
    ensures History(sent + BlockMsgs(t.utxos, b, orders), t)
       <==> forall a: Address :: Unspent(AtFailure(t, b), a) == Unspent(t.utxos, a)
  {
    hide Describes, Drained, NetSum, BlockMsgs, ValidOrder, Passing, AtFailure, Unspent;
    var net := (a: Address) => NetSum(t.utxos, b.txs, |orders|, a);
    forall g: nat, a: Address
      ensures Drained(0, sent + BlockMsgs(t.utxos, b, orders), g, a)
           == Drained(0, sent, g, a) + When(g == b.header.height, net(a))
    {
      DrainedBlock(sent, t.utxos, b, orders, g, a);
    }
    LeakShows(sent, BlockMsgs(t.utxos, b, orders), t.utxos, b.header.height, net);
    forall a: Address
      ensures net(a) == Unspent(AtFailure(t, b), a) - Unspent(t.utxos, a)
    {
      NetUntilFailure(t, b, a);
    }
  }

  /** The UTXO table when the failing transaction of a fork is reached, after the rollback to `base`. */
  function ForkAtFailure(base: Tables, fork: seq<Block>): Utxos {
    var i := Fitting(base, fork, |fork|);
    if i < |fork| then AtFailure(IndexUpTo(base, fork, i), fork[i]) else IndexAll(base, fork).utxos
  }

  lemma PassedBlocksAreFull(base: Tables, fork: seq<Block>, orders: seq<BlockOrder>, i: nat)
    requires PassingOrders(base, fork, orders) && i <= |orders| && CanIndexUpTo(base, fork, i)
    ensures FullOrders(fork, orders[..i])
  {
    hide CanIndex, IndexUpTo, CanIndexUpTo;
    forall j | 0 <= j < i
      ensures |orders[j]| == |fork[j].txs|
    {
      CanIndexPrefix(base, fork, j + 1, i);
      OneMoreIndexed(base, fork, j);
    }
  }

  lemma AllMsgsLast(t: Tables, bs: seq<Block>, orders: seq<BlockOrder>)
    requires orders != [] && ValidAllOrders(t, bs, orders)
    ensures var i := |orders| - 1;
      && i < |bs|
      && ValidAllOrders(t, bs, orders[..i])
      && ValidOrders(IndexUpTo(t, bs, i).utxos, bs[i], orders[i])
      && AllMsgs(t, bs, orders)
         == AllMsgs(t, bs, orders[..i]) + BlockMsgs(IndexUpTo(t, bs, i).utxos, bs[i], orders[i])
  {
    hide ValidOrders, BlockMsgs, IndexUpTo;
  }

  lemma DescribesTried(sent: seq<Msg>, base: Tables, fork: seq<Block>, orders: seq<BlockOrder>)
    requires History(sent, base) && ValidAllOrders(base, fork, orders) && TriedOrders(base, fork, orders)
    ensures Describes(sent + AllMsgs(base, fork, orders), ForkAtFailure(base, fork))
  {
    hide Describes, BlockMsgs, ValidOrders, CanIndexUpTo, IndexUpTo, Passing, Fitting, Partway, AllMsgs, ValidAllOrders;
    hide CanIndex, CanCreateUpTo;
    var i := Fitting(base, fork, |fork|);
    FittingMeans(base, fork, |fork|);
    PassedBlocksAreFull(base, fork, orders, i);
    if i == |fork| {
      assert orders[..i] == orders;
      HistoryAfterFork(sent, base, fork, orders);
    } else {
      var t := IndexUpTo(base, fork, i);
      AllMsgsLast(base, fork, orders);
      HistoryAfterFork(sent, base, fork, orders[..i]);
      DescribesPartway(sent + AllMsgs(base, fork, orders[..i]), t.utxos, fork[i], orders[i]);
      assert sent + AllMsgs(base, fork, orders)
          == sent + AllMsgs(base, fork, orders[..i]) + BlockMsgs(t.utxos, fork[i], orders[i]);
    }
  }

  lemma SameCells(sent: seq<Msg>, u: Utxos, v: Utxos)
    requires Describes(sent, u)
    ensures Describes(sent, v) <==> forall h: nat, a: Address :: Cell(u, h, a) == Cell(v, h, a)
  {
    hide Cell, Drained;
    assert forall h: nat, a: Address :: Drained(0, sent, h, a) == Cell(u, h, a);
  }

  /**
   * A fork that fails leaves its reorganisation message and its events in the queue while the tables roll back. They do
   * no harm exactly when the tables had, where it failed, the same created minus spent at every height and address.
   */
  lemma LeakedForkIff(sent: seq<Msg>, t: Tables, n: nat, fork: seq<Block>, orders: seq<BlockOrder>)
    requires History(sent, t) && Referential(t) && SpentAfterMade(t.utxos)
    requires ValidAllOrders(RolledBack(t, n), fork, orders) && TriedOrders(RolledBack(t, n), fork, orders)
    ensures History(sent + [ReorgMsg(n)] + AllMsgs(RolledBack(t, n), fork, orders), t)
       <==> forall h: nat, a: Address :: Cell(ForkAtFailure(RolledBack(t, n), fork), h, a) == Cell(t.utxos, h, a)
  {
    hide Describes, RolledBack, AllMsgs, TriedOrders, ValidAllOrders, ForkAtFailure, Cell;
    HistoryAfterRollback(sent, t, n);
    DescribesTried(sent + [ReorgMsg(n)], RolledBack(t, n), fork, orders);
    SameCells(sent + [ReorgMsg(n)] + AllMsgs(RolledBack(t, n), fork, orders),
              ForkAtFailure(RolledBack(t, n), fork), t.utxos);
  }

  // ---- the consumer side ----

  /** `s'` is `s` after the message `m`. A reorganisation that finds no row has no next state: the source panics. */
  ghost predicate Consumes(s: State, m: Msg, s': State) {
    match m
    case EventMsg(e) => exists hour, due, hours :: Handles(s, e, s', hour, due, hours)
    case ReorgMsg(n) => exists rows, hours :: Reorgs(s, n, s', rows, hours)
  }

  ghost predicate ConsumesAll(s: State, msgs: seq<Msg>, s': State) {
    if msgs == [] then s' == s
    else
      var init, m := msgs[..|msgs| - 1], msgs[|msgs| - 1];
      exists mid :: ConsumesAll(s, init, mid) && Consumes(mid, m, s')
  }

  lemma ConsumesNone(s: State)
    ensures ConsumesAll(s, [], s)
  {
  }

  lemma ConsumesMore(s: State, msgs: seq<Msg>, mid: State, m: Msg, s': State)
    requires ConsumesAll(s, msgs, mid) && Consumes(mid, m, s')
    ensures ConsumesAll(s, msgs + [m], s')
  {
    hide Consumes;
    assert (msgs + [m])[..|msgs|] == msgs;
  }

  lemma HandledIsConsumed(s: State, e: Event, s': State, hour: Hour, due: seq<Event>, hours: seq<Hour>)
    requires Handles(s, e, s', hour, due, hours)
    ensures Consumes(s, EventMsg(e), s')
  {
  }

  lemma ReorgIsConsumed(s: State, n: nat, s': State, rows: seq<LogRow>, hours: seq<Hour>)
    requires Reorgs(s, n, s', rows, hours)
    ensures Consumes(s, ReorgMsg(n), s')
  {
  }

  lemma ConsumesAgrees(s: State, m: Msg, s': State)
    requires Agree(s) && Consumes(s, m, s')
    ensures Agree(s')
  {
    hide Agree, Handles, Reorgs;
    match m
    case EventMsg(e) =>
      var hour, due, hours :| Handles(s, e, s', hour, due, hours);
      HandlesAgrees(s, e, s', hour, due, hours);
    case ReorgMsg(n) =>
      var rows, hours :| Reorgs(s, n, s', rows, hours);
      ReorgsAgrees(s, n, s', rows, hours);
  }

  lemma StartAgrees()
    ensures Agree(START)
  {
    forall a: Address
      ensures Total(START.stats, StatWeight(a)) == 0
    {
    }
  }

  /** In every state the aggregator can reach, balance, log and statistics agree for every address. */
  lemma {:induction false} ReachableAgrees(msgs: seq<Msg>, s: State)
    requires ConsumesAll(START, msgs, s)
    ensures Agree(s)
    decreases |msgs|
  {
    hide Agree, Consumes;
    if msgs == [] {
      StartAgrees();
    } else {
      var mid :| ConsumesAll(START, msgs[..|msgs| - 1], mid) && Consumes(mid, msgs[|msgs| - 1], s);
      ReachableAgrees(msgs[..|msgs| - 1], mid);
      ConsumesAgrees(mid, msgs[|msgs| - 1], s);
    }
  }
}
