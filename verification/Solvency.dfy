/** On a reorganisation-free chain that respects coinbase maturity, no message ever leaves a balance negative. */
module Solvency {
  import opened Types
  import opened Sums
  import opened Schema
  import opened Indexing
  import opened Integrity
  import opened Conservation
  import opened Aggregation
  import opened Draining
  import opened Maturity

  // ---- the chain ----

  /** `coinbases` are the ids of the coinbase transactions. */
  ghost predicate Names(bs: seq<Block>, coinbases: set<Txid>) {
    forall i, k | 0 <= i < |bs| && 0 <= k < |bs[i].txs| :: bs[i].txs[k].isCoinbase <==> bs[i].txs[k].txid in coinbases
  }

  // Bitcoin's own rule: how much higher than a coinbase the first block is that may spend it.
  const COINBASE_MATURITY := 100

  /** A coinbase spends no row, and a coinbase output is spent 100 blocks later at the earliest. */
  ghost predicate Matures(utxos: Utxos, b: Block, coinbases: set<Txid>) {
    forall k, o | 0 <= k < |b.txs| && o in b.txs[k].inputs && o in utxos && utxos[o].spentBlock.None? ::
      && !b.txs[k].isCoinbase
      && (o.txid in coinbases ==> utxos[o].blockNumber + COINBASE_MATURITY <= b.header.height)
  }

  ghost predicate MatureChain(bs: seq<Block>, coinbases: set<Txid>) {
    && CanIndexAll(EMPTY, bs)
    && Names(bs, coinbases)
    && (forall i, j | 0 <= i < j < |bs| :: bs[i].header.height < bs[j].header.height)
    && (forall i | 0 <= i < |bs| :: Matures(IndexUpTo(EMPTY, bs, i).utxos, bs[i], coinbases))
  }

  // ---- settled money, in the messages and in the table ----

  /** What counts once the last height seen is `last`: everything except coinbases in their cooldown. */
  ghost function SettledMsg(last: nat, a: Address): Msg -> int {
    (m: Msg) => if m.EventMsg? && m.event.address == a && !(m.event.isCoinbase && m.event.height + COOLDOWN > last)
                then m.event.amount else 0
  }

  /** What an unspent row of `a` is worth once settled. */
  function Worth(o: OutPoint, r: UtxoRow, last: nat, a: Address, coinbases: set<Txid>): nat {
    if r.owner == a && r.spentBlock.None? && !(o.txid in coinbases && r.blockNumber + COOLDOWN > last) then r.amount
    else 0
  }

  ghost function SettledRow(last: nat, a: Address, coinbases: set<Txid>): Measure {
    (o: OutPoint, r: UtxoRow) => Worth(o, r, last, a, coinbases)
  }

  /** The same, leaving out rows made at height `last` or above. */
  ghost function SettledBefore(last: nat, a: Address, coinbases: set<Txid>): Measure {
    (o: OutPoint, r: UtxoRow) => if r.blockNumber < last then Worth(o, r, last, a, coinbases) else 0
  }

  predicate Counts(b: Block, k: nat, last: nat)
    requires k < |b.txs|
  {
    !(b.txs[k].isCoinbase && b.header.height + COOLDOWN > last)
  }

  lemma {:induction false} CoinbaseTakesNothing(utxos: Utxos, b: Block, k: nat, j: nat, a: Address,
                                                coinbases: set<Txid>)
    requires k < |b.txs| && j <= |b.txs[k].inputs| && b.txs[k].isCoinbase && Matures(utxos, b, coinbases)
    ensures Taken(utxos, b.txs, k, j, a) == 0
  {
    if j == 0 {
    } else {
      CoinbaseTakesNothing(utxos, b, k, j - 1, a, coinbases);
    }
  }

  /** The messages of transaction `k`, in any part of its order. */
  lemma SettledTx(utxos: Utxos, b: Block, k: nat, order: seq<Address>, last: nat, a: Address)
    requires k < |b.txs| && NoDuplicates(order)
    ensures SeqSum(TxMsgs(utxos, b, k, order), SettledMsg(last, a))
         == When(Counts(b, k, last) && a in order, Net(utxos, b.txs, k, a))
  {
    TxMsgsSum(utxos, b, k, order, SettledMsg(last, a), a, Counts(b, k, last));
  }

  lemma {:induction false} SettledBlock(utxos: Utxos, b: Block, orders: BlockOrder, last: nat, a: Address,
                                        coinbases: set<Txid>)
    requires ValidOrders(utxos, b, orders) && CanCreateUpTo(utxos, b, |orders|) && b.header.height < last
    requires Matures(utxos, b, coinbases)
    requires forall k | 0 <= k < |b.txs| :: b.txs[k].isCoinbase <==> b.txs[k].txid in coinbases
    ensures Total(Partway(utxos, b, |orders|), SettledRow(last, a, coinbases))
         == Total(utxos, SettledRow(last, a, coinbases)) + SeqSum(BlockMsgs(utxos, b, orders), SettledMsg(last, a))
  {
    hide TxMsgs, Net, CanCreate;
    var w := SettledRow(last, a, coinbases);
    if orders == [] {
      assert Partway(utxos, b, 0) == utxos;
    } else {
      hide Partway;
      var k := |orders| - 1;
      SettledBlock(utxos, b, orders[..k], last, a, coinbases);
      assert ValidOrder(utxos, b, k, orders[k]);
      SettledTx(utxos, b, k, orders[k], last, a);
      SeqSumConcat(BlockMsgs(utxos, b, orders[..k]), TxMsgs(utxos, b, k, orders[k]), SettledMsg(last, a));
      TxTotal(utxos, b, k, w, a, true, Counts(b, k, last));
      NetParts(utxos, b, k, a);
      if b.txs[k].isCoinbase {
        CoinbaseTakesNothing(utxos, b, k, |b.txs[k].inputs|, a, coinbases);
      }
    }
  }

  lemma ChainBlock(bs: seq<Block>, coinbases: set<Txid>, i: nat)
    requires MatureChain(bs, coinbases) && i < |bs|
    ensures CanIndex(IndexUpTo(EMPTY, bs, i), bs[i]) && CanCreateUpTo(IndexUpTo(EMPTY, bs, i).utxos, bs[i], |bs[i].txs|)
    ensures Matures(IndexUpTo(EMPTY, bs, i).utxos, bs[i], coinbases)
    ensures forall k | 0 <= k < |bs[i].txs| :: bs[i].txs[k].isCoinbase <==> bs[i].txs[k].txid in coinbases
  {
    hide IndexUpTo, Matures;
    CanIndexPrefix(EMPTY, bs, i + 1, |bs|);
    assert CanIndexUpTo(EMPTY, bs, i + 1);
  }

  /** The settled messages of the first blocks are the settled rows they leave. */
  lemma {:induction false} SettledChain(bs: seq<Block>, coinbases: set<Txid>, orders: seq<BlockOrder>,
                                        last: nat, a: Address)
    requires MatureChain(bs, coinbases) && ValidAllOrders(EMPTY, bs, orders) && FullOrders(bs, orders)
    requires forall i | 0 <= i < |orders| :: bs[i].header.height < last
    ensures SeqSum(AllMsgs(EMPTY, bs, orders), SettledMsg(last, a))
         == Total(IndexUpTo(EMPTY, bs, |orders|).utxos, SettledRow(last, a, coinbases))
  {
    hide ValidOrders, BlockMsgs, SettledMsg, SettledRow, Matures, MatureChain, Apply, Inputs, Created;
    if orders == [] {
      assert EMPTY.utxos.Keys == {};
    } else {
      var i := |orders| - 1;
      SettledChain(bs, coinbases, orders[..i], last, a);
      var t, b := IndexUpTo(EMPTY, bs, i), bs[i];
      ChainBlock(bs, coinbases, i);
      SettledBlock(t.utxos, b, orders[i], last, a, coinbases);
      SeqSumConcat(AllMsgs(EMPTY, bs, orders[..i]), BlockMsgs(t.utxos, b, orders[i]), SettledMsg(last, a));
    }
  }

  // ---- inside the current block ----

  lemma {:induction false} SetSumNonNegative<K>(keys: set<K>, f: K -> int)
    requires forall k | k in keys :: f(k) >= 0
    ensures SetSum(keys, f) >= 0
  {
    if keys == {} {
    } else {
      var k :| k in keys;
      SetSumRemove(keys, f, k);
      SetSumNonNegative(keys - {k}, f);
    }
  }

  /** What the block takes is covered by the settled rows it found. */
  lemma {:induction false} Covered(utxos: Utxos, b: Block, orders: BlockOrder, a: Address, coinbases: set<Txid>)
    requires ValidOrders(utxos, b, orders) && CanCreateUpTo(utxos, b, |orders|) && Matures(utxos, b, coinbases)
    requires forall o | o in utxos :: utxos[o].blockNumber < b.header.height
    ensures var last := b.header.height;
      Total(Partway(utxos, b, |orders|), SettledBefore(last, a, coinbases))
      <= Total(utxos, SettledBefore(last, a, coinbases)) + SeqSum(BlockMsgs(utxos, b, orders), SettledMsg(last, a))
  {
    hide TxMsgs, CanCreate;
    var last := b.header.height;
    if orders == [] {
      assert Partway(utxos, b, 0) == utxos;
    } else {
      hide Partway;
      var k := |orders| - 1;
      Covered(utxos, b, orders[..k], a, coinbases);
      assert ValidOrder(utxos, b, k, orders[k]);
      SeqSumConcat(BlockMsgs(utxos, b, orders[..k]), TxMsgs(utxos, b, k, orders[k]), SettledMsg(last, a));
      CoveredTx(utxos, b, k, orders[k], a, coinbases);
    }
  }

  /** One transaction, whatever part of its events is counted. */
  lemma CoveredTx(utxos: Utxos, b: Block, k: nat, order: seq<Address>, a: Address, coinbases: set<Txid>)
    requires k < |b.txs| && NoDuplicates(order) && Matures(utxos, b, coinbases)
    requires CanCreateUpTo(utxos, b, k) && CanCreate(utxos, b, k)
    requires forall o | o in utxos :: utxos[o].blockNumber < b.header.height
    ensures var last := b.header.height;
      Total(Partway(utxos, b, k + 1), SettledBefore(last, a, coinbases))
      <= Total(Partway(utxos, b, k), SettledBefore(last, a, coinbases))
         + SeqSum(TxMsgs(utxos, b, k, order), SettledMsg(last, a))
  {
    hide TxMsgs, CanCreate, Partway;
    var last := b.header.height;
    SettledTx(utxos, b, k, order, last, a);
    assert SeesSpends(utxos, b, k, SettledBefore(last, a, coinbases), a, true);
    assert SeesOutputs(b, k, SettledBefore(last, a, coinbases), a, false);
    TxTotal(utxos, b, k, SettledBefore(last, a, coinbases), a, true, false);
    if b.txs[k].isCoinbase {
      CoinbaseTakesNothing(utxos, b, k, |b.txs[k].inputs|, a, coinbases);
    }
  }

  /** Part of a block's messages: those of its first transactions and some of the next one. */
  lemma PartNonNegative(utxos: Utxos, b: Block, orders: BlockOrder, order: seq<Address>, a: Address,
                        coinbases: set<Txid>)
    requires |orders| < |b.txs| && ValidOrders(utxos, b, orders) && NoDuplicates(order)
    requires CanCreateUpTo(utxos, b, |b.txs|) && Matures(utxos, b, coinbases)
    requires forall o | o in utxos :: utxos[o].blockNumber < b.header.height
    ensures var last := b.header.height;
      Total(utxos, SettledRow(last, a, coinbases)) + SeqSum(BlockMsgs(utxos, b, orders), SettledMsg(last, a))
      + SeqSum(TxMsgs(utxos, b, |orders|, order), SettledMsg(last, a)) >= 0
  {
    hide Partway, TxMsgs, BlockMsgs, SettledMsg, CanCreate;
    var last, k := b.header.height, |orders|;
    CanCreatePrefix(utxos, b, k, |b.txs|);
    Covered(utxos, b, orders, a, coinbases);
    CoveredTx(utxos, b, k, order, a, coinbases);
    var after := Partway(utxos, b, k + 1);
    forall o | o in after.Keys
      ensures Weight(after, SettledBefore(last, a, coinbases))(o) >= 0
    {
    }
    SetSumNonNegative(after.Keys, Weight(after, SettledBefore(last, a, coinbases)));
    TotalAgree(utxos, SettledRow(last, a, coinbases), utxos, SettledBefore(last, a, coinbases));
  }

  // ---- cutting the stream anywhere ----

  lemma {:induction false} CutBlock(utxos: Utxos, b: Block, orders: BlockOrder, n: nat) returns (k: nat, p: nat)
    requires |orders| <= |b.txs| && 0 < n <= |BlockMsgs(utxos, b, orders)|
    ensures k < |orders| && 0 < p <= |orders[k]|
    ensures BlockMsgs(utxos, b, orders)[..n] == BlockMsgs(utxos, b, orders[..k]) + TxMsgs(utxos, b, k, orders[k][..p])
  {
    hide Net;
    var last := |orders| - 1;
    var before := BlockMsgs(utxos, b, orders[..last]);
    if n <= |before| {
      k, p := CutBlock(utxos, b, orders[..last], n);
      assert orders[..last][..k] == orders[..k];
    } else {
      k, p := last, n - |before|;
      assert TxMsgs(utxos, b, k, orders[k])[..p] == TxMsgs(utxos, b, k, orders[k][..p]);
    }
  }

  lemma {:induction false} CutChain(bs: seq<Block>, orders: seq<BlockOrder>, n: nat) returns (i: nat, k: nat, p: nat)
    requires ValidAllOrders(EMPTY, bs, orders) && 0 < n <= |AllMsgs(EMPTY, bs, orders)|
    ensures i < |orders| && ValidAllOrders(EMPTY, bs, orders[..i])
    ensures ValidOrders(IndexUpTo(EMPTY, bs, i).utxos, bs[i], orders[i])
    ensures k < |orders[i]| && 0 < p <= |orders[i][k]|
    ensures var u := IndexUpTo(EMPTY, bs, i).utxos;
      AllMsgs(EMPTY, bs, orders)[..n]
      == AllMsgs(EMPTY, bs, orders[..i])
         + (BlockMsgs(u, bs[i], orders[i][..k]) + TxMsgs(u, bs[i], k, orders[i][k][..p]))
  {
    hide BlockMsgs, TxMsgs, ValidOrder, Indexed;
    var last := |orders| - 1;
    var before := AllMsgs(EMPTY, bs, orders[..last]);
    if n <= |before| {
      i, k, p := CutChain(bs, orders[..last], n);
      assert orders[..last][..i] == orders[..i];
      assert AllMsgs(EMPTY, bs, orders)[..n] == before[..n];
    } else {
      i := last;
      k, p := CutBlock(IndexUpTo(EMPTY, bs, i).utxos, bs[i], orders[i], n - |before|);
    }
  }

  // ---- the stream as the aggregator sees it ----

  lemma {:induction false} StreamRises(bs: seq<Block>, orders: seq<BlockOrder>)
    requires ValidAllOrders(EMPTY, bs, orders)
    requires forall i, j | 0 <= i < j < |bs| :: bs[i].header.height < bs[j].header.height
    ensures OnlyEvents(AllMsgs(EMPTY, bs, orders)) && NonDecreasing(AllMsgs(EMPTY, bs, orders))
    ensures forall m | m in AllMsgs(EMPTY, bs, orders) ::
      orders != [] && m.event.height <= bs[|orders| - 1].header.height
  {
    hide BlockMsgs, ValidOrder, Indexed;
    if orders == [] {
    } else {
      var i := |orders| - 1;
      var before, now := AllMsgs(EMPTY, bs, orders[..i]), BlockMsgs(IndexUpTo(EMPTY, bs, i).utxos, bs[i], orders[i]);
      StreamRises(bs, orders[..i]);
      BlockMsgsAreEvents(IndexUpTo(EMPTY, bs, i).utxos, bs[i], orders[i]);
      forall m | m in before
        ensures m.event.height <= bs[i].header.height
      {
        assert bs[i - 1].header.height < bs[i].header.height;
      }
      RisesFurther(before, now, bs[i].header.height);
    }
  }

  lemma RisesFurther(before: seq<Msg>, now: seq<Msg>, h: nat)
    requires OnlyEvents(before) && NonDecreasing(before) && OnlyEvents(now)
    requires forall m | m in before :: m.event.height <= h
    requires forall m | m in now :: m.event.height == h
    ensures OnlyEvents(before + now) && NonDecreasing(before + now)
  {
    var all := before + now;
    forall i, j | 0 <= i < j < |all|
      ensures EventsOf(all)[i].height <= EventsOf(all)[j].height
    {
      assert all[i] in before || all[i] in now;
      if j < |before| {
        assert EventsOf(before)[i].height <= EventsOf(before)[j].height;
      } else {
        assert all[j] in now;
      }
    }
  }

  lemma {:induction false} EventsSum(msgs: seq<Msg>, w: Msg -> int, w': Event -> int)
    requires OnlyEvents(msgs) && forall m | m in msgs :: w(m) == w'(m.event)
    ensures SeqSum(EventsOf(msgs), w') == SeqSum(msgs, w)
  {
    if msgs == [] {
    } else {
      EventsSnoc(msgs);
      assert msgs[|msgs| - 1] in msgs;
      EventsSum(msgs[..|msgs| - 1], w, w');
      SeqSumSnoc(EventsOf(msgs[..|msgs| - 1]), msgs[|msgs| - 1].event, w');
    }
  }

  /** The balance is exactly the settled part of what was handled. */
  lemma BalanceIsSettled(msgs: seq<Msg>, s: State, a: Address)
    requires OnlyEvents(msgs) && NonDecreasing(msgs) && ConsumesAll(START, msgs, s)
    ensures GetOrZero(s.balances, a) == SeqSum(msgs, SettledMsg(s.last, a))
  {
    hide ConsumesAll, NonDecreasing;
    var es := EventsOf(msgs);
    ReachableAgrees(msgs, s);
    ExactlyOnce(msgs, s);
    PendingIsWaiting(msgs, s);
    var settled := (e: Event) =>
      if e.address == a && !(e.isCoinbase && e.height + COOLDOWN > s.last) then e.amount else 0;
    var waiting := (e: Event) => if Waiting(s.last)(e) then EventWeight(a)(e) else 0;
    SeqSumPermutation(s.log + ToRows(s.pending), ToRows(es), RowWeight(a));
    SeqSumConcat(s.log, ToRows(s.pending), RowWeight(a));
    RowsSum(s.pending, RowWeight(a), EventWeight(a));
    RowsSum(es, RowWeight(a), EventWeight(a));
    FilterSum(es, Waiting(s.last), EventWeight(a), waiting);
    SumSplit(es, EventWeight(a), settled, waiting);
    EventsSum(msgs, SettledMsg(s.last, a), settled);
  }

  lemma {:induction false} RowsAreOlder(bs: seq<Block>, i: nat, h: nat)
    requires i <= |bs| && CanIndexUpTo(EMPTY, bs, i) && forall j | 0 <= j < i :: bs[j].header.height < h
    ensures forall o | o in IndexUpTo(EMPTY, bs, i).utxos :: IndexUpTo(EMPTY, bs, i).utxos[o].blockNumber < h
  {
    hide Indexed, CanIndex;
    if i == 0 {
    } else {
      RowsAreOlder(bs, i - 1, h);
      var t, b := IndexUpTo(EMPTY, bs, i - 1), bs[i - 1];
      forall o | o in Indexed(t, b).utxos
        ensures Indexed(t, b).utxos[o].blockNumber < h
      {
        UtxoAfter(t, b, o);
        if o !in t.utxos {
          MadeAt(b, o);
        }
      }
    }
  }

  lemma Ascending(bs: seq<Block>, coinbases: set<Txid>, i: nat)
    requires MatureChain(bs, coinbases) && i < |bs|
    ensures forall j, l | 0 <= j < l < |bs| :: bs[j].header.height < bs[l].header.height
    ensures forall o | o in IndexUpTo(EMPTY, bs, i).utxos ::
      IndexUpTo(EMPTY, bs, i).utxos[o].blockNumber < bs[i].header.height
  {
    hide IndexUpTo, CanIndexUpTo, Matures;
    CanIndexPrefix(EMPTY, bs, i, |bs|);
    RowsAreOlder(bs, i, bs[i].header.height);
  }

  lemma PrefixRises(msgs: seq<Msg>, n: nat)
    requires OnlyEvents(msgs) && NonDecreasing(msgs) && n <= |msgs|
    ensures OnlyEvents(msgs[..n]) && NonDecreasing(msgs[..n])
  {
    forall i, j | 0 <= i < j < n
      ensures EventsOf(msgs[..n])[i].height <= EventsOf(msgs[..n])[j].height
    {
      assert EventsOf(msgs)[i].height <= EventsOf(msgs)[j].height;
    }
  }

  /** A stream that stops inside a block has that block's height as its last. */
  lemma StopsAt(utxos: Utxos, b: Block, k: nat, part: seq<Address>, front: seq<Msg>, middle: seq<Msg>, msgs: seq<Msg>)
    requires k < |b.txs| && part != [] && msgs == front + (middle + TxMsgs(utxos, b, k, part)) && OnlyEvents(msgs)
    ensures LastHeight(msgs) == b.header.height
  {
    assert msgs[|msgs| - 1] == TxMsgs(utxos, b, k, part)[|part| - 1];
  }

  lemma PartOrders(utxos: Utxos, b: Block, orders: BlockOrder, k: nat, p: nat)
    requires ValidOrders(utxos, b, orders) && k < |orders| && p <= |orders[k]|
    ensures ValidOrders(utxos, b, orders[..k]) && NoDuplicates(orders[k][..p])
  {
    assert ValidOrder(utxos, b, k, orders[k]);
  }

  /** At every message boundary, for every address, whatever the hash-map orders and the clock. */
  lemma BalanceNeverNegative(bs: seq<Block>, coinbases: set<Txid>, orders: seq<BlockOrder>, n: nat, s: State,
                             a: Address)
    requires MatureChain(bs, coinbases) && ValidAllOrders(EMPTY, bs, orders) && FullOrders(bs, orders)
    requires n <= |AllMsgs(EMPTY, bs, orders)| && ConsumesAll(START, AllMsgs(EMPTY, bs, orders)[..n], s)
    ensures GetOrZero(s.balances, a) >= 0
  {
    hide ConsumesAll, MatureChain, Matures, BlockMsgs, TxMsgs, ValidOrders, Indexed, CanIndex, AllMsgs;
    hide SettledMsg, SettledRow, NonDecreasing, OnlyEvents, IndexUpTo;
    var all := AllMsgs(EMPTY, bs, orders);
    var msgs := all[..n];
    if n == 0 {
      assert msgs == [];
      NothingConsumed(s);
    } else {
      var i, k, p := CutChain(bs, orders, n);
      var u, b := IndexUpTo(EMPTY, bs, i).utxos, bs[i];
      PartOrders(u, b, orders[i], k, p);
      var whole, part := orders[i][..k], orders[i][k][..p];
      var front, middle, rest := AllMsgs(EMPTY, bs, orders[..i]), BlockMsgs(u, b, whole), TxMsgs(u, b, k, part);
      Ascending(bs, coinbases, i);
      StreamRises(bs, orders);
      PrefixRises(all, n);
      BalanceIsSettled(msgs, s, a);
      PendingIsWaiting(msgs, s);
      StopsAt(u, b, k, part, front, middle, msgs);
      SeqSumConcat(front, middle + rest, SettledMsg(s.last, a));
      SeqSumConcat(middle, rest, SettledMsg(s.last, a));
      SettledChain(bs, coinbases, orders[..i], s.last, a);
      ChainBlock(bs, coinbases, i);
      PartNonNegative(u, b, whole, part, a, coinbases);
    }
  }
}
