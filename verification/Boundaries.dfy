/** Every message boundary of a run: the queue read so far always shows, to each address, a table of the harvester. */
module Boundaries {
  import opened Types
  import opened Sums
  import opened Schema
  import opened Indexing
  import opened Integrity
  import opened Conservation
  import opened Aggregation
  import opened Draining
  import opened Drifting
  import opened Chain
  import opened Follower
  import opened Pipeline
  import opened Cooldown
  import opened Solvency

  /** What the messages say about address `a` is what the table holds. */
  ghost predicate Shows(msgs: seq<Msg>, utxos: Utxos, a: Address) {
    forall h: nat :: Drained(0, msgs, h, a) == Cell(utxos, h, a)
  }

  ghost predicate ShowsSome(msgs: seq<Msg>, a: Address) {
    exists utxos :: Shows(msgs, utxos, a)
  }

  ghost predicate EveryPrefixShows(msgs: seq<Msg>, a: Address) {
    forall n | 0 <= n <= |msgs| :: ShowsSome(msgs[..n], a)
  }

  // ---- inside a transaction ----

  lemma CellsOfTx(utxos: Utxos, b: Block, k: nat, h: nat, a: Address)
    requires k < |b.txs| && CanCreateUpTo(utxos, b, k + 1)
    ensures Cell(Partway(utxos, b, k + 1), h, a)
         == Cell(Partway(utxos, b, k), h, a) + When(h == b.header.height, Net(utxos, b.txs, k, a))
  {
    hide Partway, CanCreate, Net;
    TxTotal(utxos, b, k, CellWeight(h, a), a, h == b.header.height, h == b.header.height);
    NetParts(utxos, b, k, a);
  }

  lemma TxPartDrained(sent: seq<Msg>, utxos: Utxos, b: Block, k: nat, part: seq<Address>, h: nat, a: Address)
    requires k < |b.txs| && NoDuplicates(part)
    ensures Drained(0, sent + TxMsgs(utxos, b, k, part), h, a)
         == Drained(0, sent, h, a) + When(h == b.header.height && a in part, Net(utxos, b.txs, k, a))
  {
    hide Net;
    DrainedConcat(0, sent, TxMsgs(utxos, b, k, part), h, a);
    DrainedEvents(Drained(0, sent, h, a), TxMsgs(utxos, b, k, part), h, a);
    TxMsgsSum(utxos, b, k, part, CellAmountWeight(h, a), a, h == b.header.height);
  }

  /** Of a transaction each address gets one event: until then the table is as before it, from then on as after it. */
  lemma TxPartShows(sent: seq<Msg>, utxos: Utxos, b: Block, k: nat, part: seq<Address>, a: Address)
    requires k < |b.txs| && CanCreateUpTo(utxos, b, k + 1) && NoDuplicates(part)
    requires Shows(sent, Partway(utxos, b, k), a)
    ensures Shows(sent + TxMsgs(utxos, b, k, part), Partway(utxos, b, if a in part then k + 1 else k), a)
  {
    hide Partway, CanCreateUpTo, TxMsgs, Net, Drained, Cell;
    forall h: nat
      ensures Drained(0, sent + TxMsgs(utxos, b, k, part), h, a)
           == Cell(Partway(utxos, b, if a in part then k + 1 else k), h, a)
    {
      TxPartDrained(sent, utxos, b, k, part, h, a);
      CellsOfTx(utxos, b, k, h, a);
      assert Drained(0, sent, h, a) == Cell(Partway(utxos, b, k), h, a);
    }
  }

  // ---- inside a block, and inside a fork ----

  lemma DescribesShows(sent: seq<Msg>, utxos: Utxos, a: Address)
    requires Describes(sent, utxos)
    ensures Shows(sent, utxos, a) && ShowsSome(sent, a)
  {
    hide Drained, Cell;
    assert Shows(sent, utxos, a);
  }

  lemma BlockPartShows(sent: seq<Msg>, utxos: Utxos, b: Block, orders: BlockOrder, n: nat, a: Address)
    requires Describes(sent, utxos) && ValidOrders(utxos, b, orders) && CanCreateUpTo(utxos, b, |orders|)
    requires n <= |BlockMsgs(utxos, b, orders)|
    ensures ShowsSome(sent + BlockMsgs(utxos, b, orders)[..n], a)
  {
    hide Describes, Shows, Partway, TxMsgs, CanCreate, Net;
    if n == 0 {
      assert sent + BlockMsgs(utxos, b, orders)[..0] == sent;
      DescribesShows(sent, utxos, a);
    } else {
      var k, p := CutBlock(utxos, b, orders, n);
      hide BlockMsgs;
      var before, part := BlockMsgs(utxos, b, orders[..k]), TxMsgs(utxos, b, k, orders[k][..p]);
      CanCreatePrefix(utxos, b, k, |orders|);
      CanCreatePrefix(utxos, b, k + 1, |orders|);
      PartOrders(utxos, b, orders, k, p);
      DescribesPartway(sent, utxos, b, orders[..k]);
      DescribesShows(sent + before, Partway(utxos, b, k), a);
      TxPartShows(sent + before, utxos, b, k, orders[k][..p], a);
      assert sent + BlockMsgs(utxos, b, orders)[..n] == sent + before + part;
    }
  }

  lemma LastPartShows(sent: seq<Msg>, t: Tables, bs: seq<Block>, orders: seq<BlockOrder>, n: nat, a: Address)
    requires History(sent, t) && ValidAllOrders(t, bs, orders) && PassingOrders(t, bs, orders) && orders != []
    requires CanIndexUpTo(t, bs, |orders| - 1)
    requires |AllMsgs(t, bs, orders[..|orders| - 1])| <= n <= |AllMsgs(t, bs, orders)|
    ensures ShowsSome(sent + AllMsgs(t, bs, orders)[..n], a)
  {
    hide ValidOrders, BlockMsgs, IndexUpTo, Passing, ShowsSome, Describes, CanIndex, CanIndexUpTo, CanCreateUpTo;
    hide AllMsgs, ValidAllOrders;
    var i := |orders| - 1;
    AllMsgsLast(t, bs, orders);
    PassedBlocksAreFull(t, bs, orders, i);
    var before, now := AllMsgs(t, bs, orders[..i]), IndexUpTo(t, bs, i);
    var last := BlockMsgs(now.utxos, bs[i], orders[i]);
    HistoryAfterFork(sent, t, bs, orders[..i]);
    BlockPartShows(sent + before, now.utxos, bs[i], orders[i], n - |before|, a);
    assert sent + (before + last)[..n] == sent + before + last[..n - |before|];
  }

  lemma {:induction false} ForkPartShows(sent: seq<Msg>, t: Tables, bs: seq<Block>, orders: seq<BlockOrder>, n: nat,
                                         a: Address)
    requires History(sent, t) && ValidAllOrders(t, bs, orders) && PassingOrders(t, bs, orders)
    requires (orders != [] ==> CanIndexUpTo(t, bs, |orders| - 1)) && n <= |AllMsgs(t, bs, orders)|
    ensures ShowsSome(sent + AllMsgs(t, bs, orders)[..n], a)
    decreases |orders|
  {
    hide *;
    if orders == [] {
      NothingIndexed(t, bs);
      assert sent + AllMsgs(t, bs, [])[..n] == sent;
      HistoryShows(sent, t, a);
    } else {
      var i := |orders| - 1;
      AllMsgsLast(t, bs, orders);
      if n < |AllMsgs(t, bs, orders[..i])| {
        PassingPrefix(t, bs, orders, i);
        if i > 0 {
          CanIndexPrefix(t, bs, i - 1, i);
        }
        ForkPartShows(sent, t, bs, orders[..i], n, a);
        assert AllMsgs(t, bs, orders)[..n] == AllMsgs(t, bs, orders[..i])[..n];
      } else {
        LastPartShows(sent, t, bs, orders, n, a);
      }
    }
  }

  lemma HistoryShows(sent: seq<Msg>, t: Tables, a: Address)
    requires History(sent, t)
    ensures ShowsSome(sent, a)
  {
    DescribesShows(sent, t.utxos, a);
  }

  lemma PassingPrefix(t: Tables, bs: seq<Block>, orders: seq<BlockOrder>, i: nat)
    requires PassingOrders(t, bs, orders) && i <= |orders|
    ensures PassingOrders(t, bs, orders[..i])
  {
    hide Passing, IndexUpTo;
  }

  // ---- along a run ----

  lemma OneMoreBlock(sent: seq<Msg>, t: Tables, b: Block, orders: BlockOrder, a: Address)
    requires EveryPrefixShows(sent, a) && History(sent, t) && ValidOrders(t.utxos, b, orders)
    requires |orders| == Passing(t, b)
    ensures EveryPrefixShows(sent + BlockMsgs(t.utxos, b, orders), a)
  {
    hide ShowsSome, BlockMsgs, ValidOrders, Describes;
    var msgs := BlockMsgs(t.utxos, b, orders);
    forall n | 0 <= n <= |sent + msgs|
      ensures ShowsSome((sent + msgs)[..n], a)
    {
      if n <= |sent| {
        assert (sent + msgs)[..n] == sent[..n];
      } else {
        BlockPartShows(sent, t.utxos, b, orders, n - |sent|, a);
        assert (sent + msgs)[..n] == sent + msgs[..n - |sent|];
      }
    }
  }

  lemma OneMoreFork(sent: seq<Msg>, t: Tables, since: nat, fork: seq<Block>, orders: seq<BlockOrder>, a: Address)
    requires EveryPrefixShows(sent, a) && History(sent, t) && Referential(t) && SpentAfterMade(t.utxos)
    requires ValidAllOrders(RolledBack(t, since), fork, orders) && TriedOrders(RolledBack(t, since), fork, orders)
    ensures EveryPrefixShows(sent + [ReorgMsg(since)] + AllMsgs(RolledBack(t, since), fork, orders), a)
  {
    hide ShowsSome, AllMsgs, ValidAllOrders, Describes, RolledBack, Referential, PassingOrders, Fitting, CanIndexUpTo;
    var base := RolledBack(t, since);
    var start, msgs := sent + [ReorgMsg(since)], AllMsgs(base, fork, orders);
    HistoryAfterRollback(sent, t, since);
    TriedBefore(base, fork);
    forall n | 0 <= n <= |start + msgs|
      ensures ShowsSome((start + msgs)[..n], a)
    {
      if n <= |sent| {
        assert (start + msgs)[..n] == sent[..n];
      } else {
        ForkPartShows(start, base, fork, orders, n - |start|, a);
        assert (start + msgs)[..n] == start + msgs[..n - |start|];
      }
    }
  }

  lemma TriedBefore(t: Tables, bs: seq<Block>)
    ensures Tried(t, bs) > 0 ==> CanIndexUpTo(t, bs, Tried(t, bs) - 1)
  {
    hide CanIndexUpTo, Fitting;
    FittingMeans(t, bs, |bs|);
    if Fitting(t, bs, |bs|) == |bs| && bs != [] {
      CanIndexPrefix(t, bs, |bs| - 1, |bs|);
    }
  }

  lemma NextShows(w: World, f: Follower, f': Follower, a: Address)
    requires InStep(w, f) && ValidWorld(w) && Next(w, f, f') && EveryPrefixShows(f.sent, a)
    ensures EveryPrefixShows(f'.sent, a)
  {
    hide EveryPrefixShows, Passing, ValidOrders, BlockMsgs, Describes, TriedOrders, ValidAllOrders, AllMsgs, RolledBack;
    hide StoredChain, BitcoinRules, UnstoredBranch, CanIndex, CanIndexAll, Indexed, IndexAll, ValidWorld;
    QueueDescribesTables(w, f);
    if b, orders :| Starts(w, f, b, orders, f') {
      OneMoreBlock(f.sent, f.tables, b, orders, a);
    } else if b, orders :| Extends(w, f, b, orders, f') {
      OneMoreBlock(f.sent, f.tables, b, orders, a);
    } else {
      var head, n, fork, orders :| Forks(w, f, head, n, fork, orders, f');
      var lo: nat :| StoredChain(w, f.tables, f.cursor.value.header.hash, lo);
      HoldsReferences(w, f.tables, f.cursor.value.header.hash, lo);
      OneMoreFork(f.sent, f.tables, n, fork, orders, a);
    }
  }

  /** Every prefix of the queue shows some table, whatever was reorganised, even in the middle of a transaction. */
  lemma {:induction false} ReachableShows(w: World, steps: nat, x: System, a: Address)
    requires BitcoinWorld(w) && Reachable(w, steps, x)
    ensures EveryPrefixShows(x.follower.sent, a)
    decreases steps
  {
    hide InStep, BitcoinRules, Next, Consumes, Trace, ShowsSome, ValidWorld;
    if steps == 0 {
      EmptyHistory();
      DescribesShows([], map[], a);
    } else {
      var before := steps - 1;
      var m :| Reachable(w, before, m) && Moves(w, m, x);
      hide Reachable;
      ReachableShows(w, before, m, a);
      ReachableConsistent(w, before, m);
      if HarvesterMoves(w, m, x) {
        NextShows(w, m.follower, x.follower, a);
      }
    }
  }

  // ---- balances ----

  lemma {:induction false} UtxosTop(utxos: Utxos) returns (top: nat)
    ensures RowsBelow(utxos, top)
    decreases |utxos|
  {
    if utxos == map[] {
      top := 0;
    } else {
      var o :| o in utxos;
      var rest := utxos - {o};
      assert rest.Keys == utxos.Keys - {o};
      var before := UtxosTop(rest);
      var r := utxos[o];
      top := before + r.blockNumber + 1 + if r.spentBlock.Some? then r.spentBlock.value + 1 else 0;
      forall p | p in utxos
        ensures utxos[p].blockNumber < top && !SpentSince(utxos[p], top)
      {
        if p != o {
          assert rest[p] == utxos[p];
        }
      }
    }
  }

  lemma UnspentNonNegative(utxos: Utxos, a: Address)
    ensures Unspent(utxos, a) >= 0
  {
    SetSumNonNegative(utxos.Keys, Weight(utxos, UnspentWeight(a)));
  }

  /** An aggregator whose accounts are those of a table, with nothing pending, holds its unspent total. */
  lemma BalanceOfTable(s: State, utxos: Utxos, a: Address)
    requires Agree(s) && s.pending == [] && forall h: nat :: Account(s, h, a) == Cell(utxos, h, a)
    ensures GetOrZero(s.balances, a) == Unspent(utxos, a)
  {
    hide Account, Cell, Unspent;
    var t1 := LogBound(s.log);
    var t2 := UtxosTop(utxos);
    var top := t1 + t2;
    HeightSumAgree((h: nat) => Account(s, h, a), (h: nat) => Cell(utxos, h, a), top);
    AccountsByHeight(s, a, top);
    UtxosByHeight(utxos, a, top);
  }

  /**
   * Where no coinbase pays to a taproot address, no message leaves a balance negative, in any run and whatever was
   * reorganised: what the messages taken say about an address is always what some table holds.
   */
  lemma PlainNeverNegative(w: World, steps: nat, x: System, a: Address)
    requires BitcoinWorld(w) && CoinbasesSpendNothing(w) && NoTaprootCoinbases(w) && Reachable(w, steps, x)
    ensures x.states != []
    ensures GetOrZero(Final(x.states).balances, a) >= 0
  {
    hide BitcoinRules, CoinbasesSpendNothing, NoTaprootCoinbases, Reachable, InStep, Consumes, SafeTrace, Cell, Account;
    hide Drained, Drift, Agree, ConsumesAll, ValidWorld, Unspent;
    ReachableConsistent(w, steps, x);
    ReachableShows(w, steps, x, a);
    NoCoinbaseSent(w, steps, x);
    var s, msgs := Final(x.states), x.follower.sent[..|x.states| - 1];
    PlainTrace(x.states, msgs, 0);
    PlainIsSafe(x.states, msgs);
    assert ShowsSome(msgs, a);
    var utxos :| Shows(msgs, utxos, a);
    forall h: nat
      ensures Account(s, h, a) == Cell(utxos, h, a)
    {
      AccountsDrift(x.states, msgs, h, a);
      SafeHasNoDrift(x.states, msgs, h, a);
      assert Account(START, h, a) == 0 by { NothingAtStart(h, a); }
      assert Drained(0, msgs, h, a) == Cell(utxos, h, a);
    }
    TraceConsumes(x.states, msgs);
    ReachableAgrees(msgs, s);
    BalanceOfTable(s, utxos, a);
    UnspentNonNegative(utxos, a);
  }

  lemma NothingAtStart(h: nat, a: Address)
    ensures Account(START, h, a) == 0
  {
  }
}
