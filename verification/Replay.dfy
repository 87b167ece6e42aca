/** The order in which blocks are indexed, and exactly when replaying a fork head first is right. */
module Replay {
  import opened Types
  import opened Schema
  import opened Indexing
  import opened Integrity
  import opened Reorg

  // ---- two blocks commute ----

  /** Different blocks with different transactions, none spending a row of the other, no stored row spent by both. */
  ghost predicate Independent(t: Tables, b: Block, c: Block) {
    && b.header.hash != c.header.hash
    && b.header.height != c.header.height
    && (forall x | HasTx(b, x) :: !HasTx(c, x))
    && (forall o | o in Made(c) :: !Spends(b, o))
    && (forall o | o in Made(b) :: !Spends(c, o))
    && (forall o | o in t.utxos :: !(Spends(b, o) && Spends(c, o)))
  }

  /** Storing transactions changes the row of `x` by looking at that row alone. */
  lemma {:induction false} StoredLocal(rows: map<Txid, TxRow>, rows': map<Txid, TxRow>, hash: Hash, txs: seq<Tx>,
                                       k: nat, x: Txid)
    requires k <= |txs| && Lookup(rows, x) == Lookup(rows', x)
    ensures Lookup(Stored(rows, hash, txs, k), x) == Lookup(Stored(rows', hash, txs, k), x)
  {
    if k == 0 {
    } else {
      StoredLocal(rows, rows', hash, txs, k - 1, x);
    }
  }

  lemma StoredElsewhere(t: Tables, b: Block, x: Txid)
    requires !HasTx(b, x)
    ensures Lookup(Indexed(t, b).txs, x) == Lookup(t.txs, x)
  {
    StoredAt(t.txs, b.header.hash, b.txs, |b.txs|, x);
  }

  lemma {:induction false} CanCreateElsewhere(utxos: Utxos, utxos': Utxos, b: Block, k: nat)
    requires k <= |b.txs| && CanCreateUpTo(utxos, b, k)
    requires forall o | o in utxos' && o in Created(b.txs, k, b.header.height) :: o in utxos
    ensures CanCreateUpTo(utxos', b, k)
  {
    if k == 0 {
    } else {
      CanCreateElsewhere(utxos, utxos', b, k - 1);
    }
  }

  lemma StillCanIndex(t: Tables, b: Block, c: Block)
    requires CanIndex(t, b) && CanIndex(t, c) && Independent(t, b, c)
    ensures CanIndex(Indexed(t, b), c)
  {
    var t' := Indexed(t, b);
    forall o | o in t'.utxos && o in Made(c)
      ensures o in t.utxos
    {
      UtxoAfter(t, b, o);
      MadeAt(c, o);
      if o !in t.utxos {
        MadeAt(b, o);
      }
    }
    CanCreateElsewhere(t.utxos, t'.utxos, c, |c.txs|);
    if c.txs != [] && c.header.hash !in t.blocks {
      assert c.header.hash in UpsertBlock(t.blocks, c.header);
      assert !NumberTaken(t.blocks, c.header.height);
      assert !NumberTaken(t'.blocks, c.header.height);
    }
  }

  lemma UpsertsCommute(blocks: map<Hash, BlockRow>, b: Header, c: Header)
    requires b.hash != c.hash && b.height != c.height
    ensures UpsertBlock(UpsertBlock(blocks, b), c) == UpsertBlock(UpsertBlock(blocks, c), b)
  {
    forall h: Header, g: Header | h.hash != g.hash && h.height != g.height
      ensures NumberTaken(UpsertBlock(blocks, g), h.height) <==> NumberTaken(blocks, h.height)
    {
      var blocks' := UpsertBlock(blocks, g);
      if x :| x in blocks && blocks[x].number == h.height {
        assert x in blocks' && blocks'[x].number == h.height;
      }
    }
  }

  lemma UtxosCommute(t: Tables, b: Block, c: Block, o: OutPoint)
    requires CanIndex(t, b) && CanIndex(t, c) && Independent(t, b, c)
    ensures UtxoStep(UtxoStep(Lookup(t.utxos, o), b, o), c, o) == UtxoStep(UtxoStep(Lookup(t.utxos, o), c, o), b, o)
  {
    if o !in t.utxos {
      if o in Made(b) {
        MadeAt(b, o);
      }
      if o in Made(c) {
        MadeAt(c, o);
      }
    }
  }

  lemma IndexingCommutes(t: Tables, b: Block, c: Block)
    requires CanIndex(t, b) && CanIndex(t, c) && Independent(t, b, c)
    ensures CanIndex(Indexed(t, b), c) && CanIndex(Indexed(t, c), b)
    ensures Indexed(Indexed(t, b), c) == Indexed(Indexed(t, c), b)
  {
    hide Indexed;
    StillCanIndex(t, b, c);
    StillCanIndex(t, c, b);
    var bc, cb := Indexed(Indexed(t, b), c), Indexed(Indexed(t, c), b);
    assert bc.blocks == cb.blocks by {
      BlocksAfter(t, b);
      BlocksAfter(Indexed(t, b), c);
      BlocksAfter(t, c);
      BlocksAfter(Indexed(t, c), b);
      UpsertsCommute(t.blocks, b.header, c.header);
    }
    forall x
      ensures Lookup(bc.txs, x) == Lookup(cb.txs, x)
    {
      TxsCommute(t, b, c, x);
    }
    SameLookups(bc.txs, cb.txs);
    forall o
      ensures Lookup(bc.utxos, o) == Lookup(cb.utxos, o)
    {
      UtxoAfter(t, b, o);
      UtxoAfter(Indexed(t, b), c, o);
      UtxoAfter(t, c, o);
      UtxoAfter(Indexed(t, c), b, o);
      UtxosCommute(t, b, c, o);
    }
    SameLookups(bc.utxos, cb.utxos);
  }

  lemma TxsCommute(t: Tables, b: Block, c: Block, x: Txid)
    requires HasTx(b, x) ==> !HasTx(c, x)
    ensures Lookup(Indexed(Indexed(t, b), c).txs, x) == Lookup(Indexed(Indexed(t, c), b).txs, x)
  {
    if HasTx(b, x) {
      StoredElsewhere(Indexed(t, b), c, x);
      StoredElsewhere(t, c, x);
      StoredLocal(t.txs, Indexed(t, c).txs, b.header.hash, b.txs, |b.txs|, x);
    } else {
      StoredElsewhere(t, b, x);
      StoredElsewhere(Indexed(t, c), b, x);
      StoredLocal(t.txs, Indexed(t, b).txs, c.header.hash, c.txs, |c.txs|, x);
    }
  }

  lemma SameLookups<K(!new), V>(m: map<K, V>, m': map<K, V>)
    requires forall k :: Lookup(m, k) == Lookup(m', k)
    ensures m == m'
  {
    assert forall k | k in m :: Lookup(m, k) == Lookup(m', k);
    assert forall k | k in m' :: Lookup(m, k) == Lookup(m', k);
  }

  // ---- a whole fork ----

  /** All blocks new, with distinct hashes, heights and transactions. */
  ghost predicate FreshFork(t: Tables, bs: seq<Block>) {
    && (forall i | 0 <= i < |bs| :: FreshBlock(t, bs[i]))
    && (forall i, j | 0 <= i < j < |bs| :: Distinct(bs[i], bs[j]))
  }

  ghost predicate Distinct(b: Block, c: Block) {
    && b.header.hash != c.header.hash
    && b.header.height != c.header.height
    && forall x | HasTx(b, x) :: !HasTx(c, x)
  }

  /** No row, stored or made by the fork, is spent by two of its blocks. */
  ghost predicate NoDoubleSpend(t: Tables, bs: seq<Block>) {
    forall i, j, o | 0 <= i < j < |bs| && Spends(bs[i], o) && Spends(bs[j], o) ::
      o !in t.utxos && forall l | 0 <= l < |bs| :: o !in Made(bs[l])
  }

  /** No block of the fork spends a row that another block of the fork makes. */
  ghost predicate NoCrossSpend(bs: seq<Block>) {
    forall i, j, o | 0 <= i < |bs| && 0 <= j < |bs| && i != j && o in Made(bs[j]) :: !Spends(bs[i], o)
  }

  /** The first `k` blocks leave the tables with just their own keys added, and later blocks still fresh. */
  lemma {:induction false} ForkProgressUpTo(t: Tables, bs: seq<Block>, k: nat)
    requires ForeignKeys(t) && FreshFork(t, bs) && k <= |bs|
    ensures CanIndexUpTo(t, bs, k) && ForeignKeys(IndexUpTo(t, bs, k))
    ensures forall i | k <= i < |bs| :: FreshBlock(IndexUpTo(t, bs, k), bs[i])
    ensures forall o | o in IndexUpTo(t, bs, k).utxos :: o in t.utxos || exists l | 0 <= l < k :: o in Made(bs[l])
  {
    hide Indexed, CanIndex, ForeignKeys, FreshBlock, Distinct;
    if k == 0 {
    } else {
      ForkProgressUpTo(t, bs, k - 1);
      var now := IndexUpTo(t, bs, k - 1);
      Progress(now, bs[k - 1]);
      ForeignKeysKept(now, bs[k - 1]);
      forall i | k <= i < |bs|
        ensures FreshBlock(IndexUpTo(t, bs, k), bs[i])
      {
        assert Distinct(bs[k - 1], bs[i]);
        StaysFresh(now, bs[k - 1], bs[i]);
      }
      KeysAfter(now, bs[k - 1]);
    }
  }

  lemma StaysFresh(t: Tables, b: Block, c: Block)
    requires ForeignKeys(t) && FreshBlock(t, b) && FreshBlock(t, c) && Distinct(b, c)
    ensures FreshBlock(Indexed(t, b), c)
  {
    Progress(t, b);
    KeysAfter(t, b);
    forall k | 0 <= k < |c.txs|
      ensures c.txs[k].txid !in Indexed(t, b).txs
    {
      assert HasTx(c, c.txs[k].txid);
    }
  }

  lemma ForkProgress(t: Tables, bs: seq<Block>)
    requires ForeignKeys(t) && FreshFork(t, bs)
    ensures CanIndexAll(t, bs)
  {
    ForkProgressUpTo(t, bs, |bs|);
  }

  // ---- moving the last block to the front ----

  /** `b` is independent of every block of `bs`, and no row they make is spent both by `b` and by one of them. */
  ghost predicate Detached(t: Tables, bs: seq<Block>, b: Block) {
    forall i | 0 <= i < |bs| ::
      && Independent(t, bs[i], b)
      && forall o, l | 0 <= l < |bs| && o in Made(bs[l]) :: !(Spends(bs[i], o) && Spends(b, o))
  }

  lemma {:induction false} MoveToFront(t: Tables, bs: seq<Block>, b: Block, k: nat)
    requires k <= |bs| && Detached(t, bs, b) && CanIndexUpTo(t, bs, k) && CanIndex(t, b)
    requires forall i | 0 <= i <= k :: forall o | o in IndexUpTo(t, bs, i).utxos ::
        o in t.utxos || exists l | 0 <= l < |bs| :: o in Made(bs[l])
    ensures CanIndex(IndexUpTo(t, bs, k), b)
    ensures Indexed(IndexUpTo(t, bs, k), b) == IndexUpTo(Indexed(t, b), bs, k)
  {
    hide Indexed, CanIndex, Independent, Spends, Made;
    if k == 0 {
    } else {
      MoveToFront(t, bs, b, k - 1);
      var now, c := IndexUpTo(t, bs, k - 1), bs[k - 1];
      assert Independent(now, c, b) by {
        IndependentLater(t, now, bs, k - 1, b);
      }
      IndexingCommutes(now, c, b);
    }
  }

  lemma IndependentLater(t: Tables, now: Tables, bs: seq<Block>, i: nat, b: Block)
    requires i < |bs| && Detached(t, bs, b)
    requires forall o | o in now.utxos :: o in t.utxos || exists l | 0 <= l < |bs| :: o in Made(bs[l])
    ensures Independent(now, bs[i], b)
  {
    hide Made, Spends, HasTx;
    assert Independent(t, bs[i], b);
  }

  lemma {:induction false} IndexFront(t: Tables, b: Block, bs: seq<Block>, k: nat)
    requires k <= |bs|
    ensures IndexUpTo(t, [b] + bs, k + 1) == IndexUpTo(Indexed(t, b), bs, k)
  {
    hide Indexed;
    if k > 0 {
      IndexFront(t, b, bs, k - 1);
    } else {
      assert IndexUpTo(t, [b] + bs, 0) == t;
    }
  }

  lemma {:induction false} IndexPrefix(t: Tables, bs: seq<Block>, cs: seq<Block>, k: nat)
    requires k <= |bs|
    ensures IndexUpTo(t, bs + cs, k) == IndexUpTo(t, bs, k)
  {
    hide Indexed;
    if k == 0 {
    } else {
      IndexPrefix(t, bs, cs, k - 1);
    }
  }

  function Reversed<T>(s: seq<T>): seq<T> {
    if s == [] then [] else [s[|s| - 1]] + Reversed(s[..|s| - 1])
  }

  lemma {:induction false} ReversedAt<T>(s: seq<T>, i: nat)
    requires i < |s|
    ensures |Reversed(s)| == |s| && Reversed(s)[i] == s[|s| - 1 - i]
  {
    if |s| == 1 {
    } else {
      ReversedAt(s[..|s| - 1], if i > 0 then i - 1 else 0);
    }
  }

  lemma ReversedSnoc<T>(s: seq<T>)
    requires s != []
    ensures Reversed(s) == [s[|s| - 1]] + Reversed(s[..|s| - 1])
  {
  }

  // ---- without cross spends the order does not matter ----

  lemma DetachLast(t: Tables, bs: seq<Block>)
    requires ForeignKeys(t) && FreshFork(t, bs) && NoDoubleSpend(t, bs) && NoCrossSpend(bs) && bs != []
    ensures Detached(t, bs[..|bs| - 1], bs[|bs| - 1])
  {
    hide Made, Spends, HasTx, FreshBlock;
    var n := |bs| - 1;
    forall i | 0 <= i < n
      ensures Independent(t, bs[i], bs[n])
    {
      assert Distinct(bs[i], bs[n]);
    }
  }

  lemma WithoutLast(t: Tables, bs: seq<Block>)
    requires ForeignKeys(t) && FreshFork(t, bs) && NoDoubleSpend(t, bs) && NoCrossSpend(bs) && bs != []
    ensures var t', init := Indexed(t, bs[|bs| - 1]), bs[..|bs| - 1];
      CanIndex(t, bs[|bs| - 1]) && ForeignKeys(t') && FreshFork(t', init)
      && NoDoubleSpend(t', init) && NoCrossSpend(init)
    ensures FreshFork(t, bs[..|bs| - 1])
  {
    hide Made, Spends, HasTx, FreshBlock, Indexed, CanIndex;
    var n := |bs| - 1;
    Progress(t, bs[n]);
    ForeignKeysKept(t, bs[n]);
    forall i | 0 <= i < n
      ensures FreshBlock(Indexed(t, bs[n]), bs[i])
    {
      assert Distinct(bs[i], bs[n]);
      DistinctSymmetric(bs[i], bs[n]);
      StaysFresh(t, bs[n], bs[i]);
    }
    KeysAfter(t, bs[n]);
  }

  lemma DistinctSymmetric(b: Block, c: Block)
    requires Distinct(b, c)
    ensures Distinct(c, b)
  {
  }

  lemma {:induction false} OrderDoesNotMatter(t: Tables, bs: seq<Block>)
    requires ForeignKeys(t) && FreshFork(t, bs) && NoDoubleSpend(t, bs) && NoCrossSpend(bs)
    ensures IndexAll(t, bs) == IndexAll(t, Reversed(bs))
    decreases |bs|
  {
    hide Indexed, CanIndex, FreshFork, NoDoubleSpend, NoCrossSpend, Detached, ForeignKeys, Made, Reversed;
    if bs == [] {
      ReversedEmpty(bs);
    } else {
      var init, b := bs[..|bs| - 1], bs[|bs| - 1];
      assert bs == init + [b];
      WithoutLast(t, bs);
      DetachLast(t, bs);
      forall i | 0 <= i <= |init|
        ensures CanIndexUpTo(t, init, i)
        ensures forall o | o in IndexUpTo(t, init, i).utxos ::
          o in t.utxos || exists l | 0 <= l < |init| :: o in Made(init[l])
      {
        ForkProgressUpTo(t, init, i);
      }
      MoveToFront(t, init, b, |init|);
      IndexPrefix(t, init, [b], |init|);
      OrderDoesNotMatter(Indexed(t, b), init);
      ReversedSnoc(bs);
      if init == [] {
        ReversedEmpty(init);
      } else {
        ReversedAt(init, 0);
      }
      IndexFront(t, b, Reversed(init), |init|);
      assert |Reversed(bs)| == |bs|;
    }
  }

  // ---- with a cross spend it does ----

  /** A row made by block `p` and spent by block `q` ends up spent exactly when `p` is indexed before `q`. */
  lemma {:induction false} RowFate(t: Tables, bs: seq<Block>, p: nat, q: nat, o: OutPoint, k: nat)
    requires ForeignKeys(t) && FreshFork(t, bs) && NoDoubleSpend(t, bs)
    requires p < |bs| && q < |bs| && p != q && o in Made(bs[p]) && Spends(bs[q], o) && k <= |bs|
    ensures Lookup(IndexUpTo(t, bs, k).utxos, o)
         == if k <= p then None
            else if p < q < k then Some(SetSpent(Made(bs[p])[o], bs[q].header.height)) else Some(Made(bs[p])[o])
  {
    hide Indexed, CanIndex, ForeignKeys, Spends, Made, FreshBlock;
    MadeAt(bs[p], o);
    if k == 0 {
      NotYetStored(t, bs[p], o.txid);
      assert o !in t.utxos by { StoredNeedsTx(t, o); }
    } else {
      RowFate(t, bs, p, q, o, k - 1);
      ForkProgressUpTo(t, bs, k);
      UtxoAfter(IndexUpTo(t, bs, k - 1), bs[k - 1], o);
      if k - 1 != p {
        assert Distinct(bs[if k - 1 < p then k - 1 else p], bs[if k - 1 < p then p else k - 1]);
        if o in Made(bs[k - 1]) {
          MadeAt(bs[k - 1], o);
          assert false;
        }
      }
    }
  }

  lemma NotYetStored(t: Tables, b: Block, x: Txid)
    requires FreshBlock(t, b) && HasTx(b, x)
    ensures x !in t.txs
  {
  }

  lemma StoredNeedsTx(t: Tables, o: OutPoint)
    requires ForeignKeys(t)
    ensures o in t.utxos ==> o.txid in t.txs
  {
  }

  lemma ReversedKeeps(t: Tables, bs: seq<Block>)
    requires FreshFork(t, bs) && NoDoubleSpend(t, bs)
    ensures |Reversed(bs)| == |bs|
    ensures forall i | 0 <= i < |bs| :: Reversed(bs)[i] == bs[|bs| - 1 - i]
    ensures FreshFork(t, Reversed(bs)) && NoDoubleSpend(t, Reversed(bs))
  {
    hide Made, Spends, HasTx, FreshBlock, Reversed;
    var rs := Reversed(bs);
    if bs == [] {
      assert rs == [] by { ReversedEmpty(bs); }
    } else {
      ReversedAt(bs, 0);
    }
    forall i | 0 <= i < |bs|
      ensures rs[i] == bs[|bs| - 1 - i]
    {
      ReversedAt(bs, i);
    }
    MirroredKeeps(t, bs, rs);
  }

  lemma MirroredKeeps(t: Tables, bs: seq<Block>, rs: seq<Block>)
    requires FreshFork(t, bs) && NoDoubleSpend(t, bs)
    requires |rs| == |bs| && forall i | 0 <= i < |bs| :: rs[i] == bs[|bs| - 1 - i]
    ensures FreshFork(t, rs) && NoDoubleSpend(t, rs)
  {
    hide Made, Spends, HasTx, FreshBlock, Distinct;
    forall i | 0 <= i < |rs|
      ensures FreshBlock(t, rs[i])
    {
    }
    forall i, j | 0 <= i < j < |rs|
      ensures Distinct(rs[i], rs[j])
    {
      var p, q := |bs| - 1 - j, |bs| - 1 - i;
      assert Distinct(bs[p], bs[q]);
      DistinctSymmetric(bs[p], bs[q]);
    }
    forall i, j, o | 0 <= i < j < |rs| && Spends(rs[i], o) && Spends(rs[j], o)
      ensures Foreign(t, rs, o)
    {
      var p, q := |bs| - 1 - j, |bs| - 1 - i;
      assert rs[j] == bs[p] && rs[i] == bs[q];
      forall l | 0 <= l < |rs|
        ensures o !in Made(rs[l])
      {
        assert rs[l] == bs[|bs| - 1 - l];
        SpentTwice(t, bs, p, q, o, |bs| - 1 - l);
      }
    }
    hide Foreign;
    ForeignSpends(t, rs);
  }

  /** Neither stored nor made by the fork. */
  ghost predicate Foreign(t: Tables, bs: seq<Block>, o: OutPoint) {
    o !in t.utxos && forall l | 0 <= l < |bs| :: o !in Made(bs[l])
  }

  lemma ForeignSpends(t: Tables, bs: seq<Block>)
    requires forall i, j, o | 0 <= i < j < |bs| && Spends(bs[i], o) && Spends(bs[j], o) :: Foreign(t, bs, o)
    ensures NoDoubleSpend(t, bs)
  {
    hide Made, Spends;
    forall i, j, o | 0 <= i < j < |bs| && Spends(bs[i], o) && Spends(bs[j], o)
      ensures o !in t.utxos && forall l | 0 <= l < |bs| :: o !in Made(bs[l])
    {
      assert Foreign(t, bs, o);
    }
  }

  lemma SpentTwice(t: Tables, bs: seq<Block>, p: nat, q: nat, o: OutPoint, l: nat)
    requires NoDoubleSpend(t, bs) && p < q < |bs| && Spends(bs[p], o) && Spends(bs[q], o) && l < |bs|
    ensures o !in t.utxos && o !in Made(bs[l])
  {
    hide Made, Spends;
  }

  lemma ReversedEmpty<T>(s: seq<T>)
    requires s == []
    ensures Reversed(s) == []
  {
  }

  lemma CrossSpendShows(t: Tables, bs: seq<Block>)
    requires ForeignKeys(t) && FreshFork(t, bs) && NoDoubleSpend(t, bs) && !NoCrossSpend(bs)
    ensures IndexAll(t, bs) != IndexAll(t, Reversed(bs))
  {
    hide Indexed, Made, Spends, FreshFork, NoDoubleSpend, Reversed;
    var p, q, o :| 0 <= p < |bs| && 0 <= q < |bs| && q != p && o in Made(bs[p]) && Spends(bs[q], o);
    ReversedKeeps(t, bs);
    RowFate(t, bs, p, q, o, |bs|);
    RowFate(t, Reversed(bs), |bs| - 1 - p, |bs| - 1 - q, o, |bs|);
    MadeAt(bs[p], o);
  }

  /**
   * A fork indexed head first gives the tables of indexing it in ascending order exactly when none of its blocks
   * spends a taproot output made by another of them.
   */
  lemma HeadFirstReplayIff(t: Tables, fork: seq<Block>)
    requires ForeignKeys(t) && FreshFork(t, fork) && NoDoubleSpend(t, fork)
    ensures CanIndexAll(t, fork) && CanIndexAll(t, Reversed(fork))
    ensures IndexAll(t, fork) == IndexAll(t, Reversed(fork)) <==> NoCrossSpend(fork)
  {
    ForkProgress(t, fork);
    ReversedKeeps(t, fork);
    ForkProgress(t, Reversed(fork));
    if NoCrossSpend(fork) {
      OrderDoesNotMatter(t, fork);
    } else {
      CrossSpendShows(t, fork);
    }
  }

  // ---- and the events are the same ----

  lemma {:induction false} TakenLocal(u: Utxos, u': Utxos, txs: seq<Tx>, k: nat, j: nat, a: Address)
    requires k < |txs| && j <= |txs[k].inputs|
    requires forall o | o in txs[k].inputs :: Lookup(u, o) == Lookup(u', o)
    ensures Taken(u, txs, k, j, a) == Taken(u', txs, k, j, a)
  {
    if j == 0 {
    } else {
      TakenLocal(u, u', txs, k, j - 1, a);
      var o := txs[k].inputs[j - 1];
      assert Lookup(u, o) == Lookup(u', o);
    }
  }

  /** The messages of a block depend only on the rows its inputs name. */
  lemma {:induction false} MsgsLocal(u: Utxos, u': Utxos, b: Block, orders: BlockOrder)
    requires forall o | Spends(b, o) :: Lookup(u, o) == Lookup(u', o)
    requires ValidOrders(u, b, orders)
    ensures ValidOrders(u', b, orders) && BlockMsgs(u, b, orders) == BlockMsgs(u', b, orders)
  {
    forall k, a | 0 <= k < |b.txs|
      ensures Net(u, b.txs, k, a) == Net(u', b.txs, k, a)
    {
      forall o | o in b.txs[k].inputs
        ensures Lookup(u, o) == Lookup(u', o)
      {
        InputsAt(b.txs, |b.txs|, o);
      }
      TakenLocal(u, u', b.txs, k, |b.txs[k].inputs|, a);
    }
    MsgsOfNets(u, u', b, orders);
  }

  lemma {:induction false} MsgsOfNets(u: Utxos, u': Utxos, b: Block, orders: BlockOrder)
    requires forall k, a | 0 <= k < |b.txs| :: Net(u, b.txs, k, a) == Net(u', b.txs, k, a)
    requires ValidOrders(u, b, orders)
    ensures ValidOrders(u', b, orders) && BlockMsgs(u, b, orders) == BlockMsgs(u', b, orders)
  {
    hide Net;
    if orders == [] {
    } else {
      var k := |orders| - 1;
      MsgsOfNets(u, u', b, orders[..k]);
      assert ValidOrder(u, b, k, orders[k]);
      assert TxMsgs(u, b, k, orders[k]) == TxMsgs(u', b, k, orders[k]);
    }
  }

  lemma {:induction false} InputsUntouched(t: Tables, bs: seq<Block>, i: nat, k: nat, o: OutPoint)
    requires ForeignKeys(t) && FreshFork(t, bs) && NoDoubleSpend(t, bs) && NoCrossSpend(bs)
    requires k <= i < |bs| && Spends(bs[i], o)
    ensures Lookup(IndexUpTo(t, bs, k).utxos, o) == Lookup(t.utxos, o)
  {
    hide Indexed, CanIndex, ForeignKeys, Spends, Made, FreshBlock;
    if k == 0 {
    } else {
      InputsUntouched(t, bs, i, k - 1, o);
      ForkProgressUpTo(t, bs, k);
      UtxoAfter(IndexUpTo(t, bs, k - 1), bs[k - 1], o);
    }
  }

  /** Each fork block sends what it would send as the only fork block, so the order changes no event. */
  lemma EventsDoNotDependOnOrder(t: Tables, bs: seq<Block>, i: nat, orders: BlockOrder)
    requires ForeignKeys(t) && FreshFork(t, bs) && NoDoubleSpend(t, bs) && NoCrossSpend(bs)
    requires i < |bs| && ValidOrders(IndexUpTo(t, bs, i).utxos, bs[i], orders)
    ensures ValidOrders(t.utxos, bs[i], orders)
    ensures BlockMsgs(IndexUpTo(t, bs, i).utxos, bs[i], orders) == BlockMsgs(t.utxos, bs[i], orders)
  {
    forall o | Spends(bs[i], o)
      ensures Lookup(IndexUpTo(t, bs, i).utxos, o) == Lookup(t.utxos, o)
    {
      InputsUntouched(t, bs, i, i, o);
    }
    MsgsLocal(IndexUpTo(t, bs, i).utxos, t.utxos, bs[i], orders);
  }

  /** The messages of each block as if it were the only one, together. */
  ghost function EachAlone(t: Tables, bs: seq<Block>, orders: seq<BlockOrder>): multiset<Msg>
    requires |orders| == |bs| && FullOrders(bs, orders)
  {
    if bs == [] then multiset{}
    else
      var i := |bs| - 1;
      EachAlone(t, bs[..i], orders[..i]) + multiset(BlockMsgs(t.utxos, bs[i], orders[i]))
  }

  lemma {:induction false} EachAloneFront(t: Tables, b: Block, order: BlockOrder, bs: seq<Block>,
                                          orders: seq<BlockOrder>)
    requires |orders| == |bs| && FullOrders(bs, orders) && |order| == |b.txs|
    ensures FullOrders([b] + bs, [order] + orders)
    ensures EachAlone(t, [b] + bs, [order] + orders)
         == multiset(BlockMsgs(t.utxos, b, order)) + EachAlone(t, bs, orders)
  {
    hide BlockMsgs;
    var bs', orders' := [b] + bs, [order] + orders;
    FullFront(b, order, bs, orders);
    if bs == [] {
      assert bs'[..0] == [] && orders'[..0] == [] && bs' == [b] && orders' == [order];
    } else {
      var i := |bs| - 1;
      assert FullOrders(bs[..i], orders[..i]);
      hide FullOrders;
      EachAloneFront(t, b, order, bs[..i], orders[..i]);
      assert bs'[..i + 1] == [b] + bs[..i] && orders'[..i + 1] == [order] + orders[..i];
      assert bs'[i + 1] == bs[i] && orders'[i + 1] == orders[i];
    }
  }

  lemma FullFront(b: Block, order: BlockOrder, bs: seq<Block>, orders: seq<BlockOrder>)
    requires |orders| == |bs| && FullOrders(bs, orders) && |order| == |b.txs|
    ensures FullOrders([b] + bs, [order] + orders)
  {
  }

  lemma {:induction false} EachAloneReversed(t: Tables, bs: seq<Block>, orders: seq<BlockOrder>)
    requires |orders| == |bs| && FullOrders(bs, orders)
    ensures |Reversed(orders)| == |Reversed(bs)| && FullOrders(Reversed(bs), Reversed(orders))
    ensures EachAlone(t, Reversed(bs), Reversed(orders)) == EachAlone(t, bs, orders)
  {
    hide BlockMsgs;
    if bs == [] {
      ReversedEmpty(bs);
      ReversedEmpty(orders);
    } else {
      var i := |bs| - 1;
      EachAloneReversed(t, bs[..i], orders[..i]);
      ReversedSnoc(bs);
      ReversedSnoc(orders);
      EachAloneFront(t, bs[i], orders[i], Reversed(bs[..i]), Reversed(orders[..i]));
    }
  }

  ghost predicate AloneValid(t: Tables, bs: seq<Block>, orders: seq<BlockOrder>) {
    |orders| == |bs| && forall i | 0 <= i < |bs| :: ValidOrders(t.utxos, bs[i], orders[i])
  }

  /** Orders valid for the blocks one by one are valid for indexing them in a row, and give the same messages. */
  lemma {:induction false} InARow(t: Tables, bs: seq<Block>, orders: seq<BlockOrder>, k: nat)
    requires ForeignKeys(t) && FreshFork(t, bs) && NoDoubleSpend(t, bs) && NoCrossSpend(bs)
    requires k <= |bs| && AloneValid(t, bs, orders) && FullOrders(bs, orders)
    ensures ValidAllOrders(t, bs, orders[..k]) && FullOrders(bs[..k], orders[..k])
    ensures multiset(AllMsgs(t, bs, orders[..k])) == EachAlone(t, bs[..k], orders[..k])
  {
    hide BlockMsgs, ValidOrders, IndexUpTo, FreshFork, NoDoubleSpend, NoCrossSpend, ForeignKeys;
    if k == 0 {
    } else {
      var i := k - 1;
      InARow(t, bs, orders, i);
      assert ValidOrders(t.utxos, bs[i], orders[i]);
      forall o | Spends(bs[i], o)
        ensures Lookup(t.utxos, o) == Lookup(IndexUpTo(t, bs, i).utxos, o)
      {
        InputsUntouched(t, bs, i, i, o);
      }
      MsgsLocal(t.utxos, IndexUpTo(t, bs, i).utxos, bs[i], orders[i]);
      assert orders[..k][..i] == orders[..i] && bs[..k][..i] == bs[..i];
    }
  }

  lemma {:induction false} RowOnlyNeedsAlone(t: Tables, bs: seq<Block>, orders: seq<BlockOrder>, k: nat)
    requires ForeignKeys(t) && FreshFork(t, bs) && NoDoubleSpend(t, bs) && NoCrossSpend(bs)
    requires k <= |orders| && ValidAllOrders(t, bs, orders[..k])
    ensures k <= |bs| && forall i | 0 <= i < k :: ValidOrders(t.utxos, bs[i], orders[i])
  {
    hide BlockMsgs, ValidOrders, IndexUpTo, FreshFork, NoDoubleSpend, NoCrossSpend, ForeignKeys;
    if k == 0 {
    } else {
      assert orders[..k][..k - 1] == orders[..k - 1];
      RowOnlyNeedsAlone(t, bs, orders, k - 1);
      EventsDoNotDependOnOrder(t, bs, k - 1, orders[k - 1]);
    }
  }

  lemma ReversedAlone(t: Tables, bs: seq<Block>, orders: seq<BlockOrder>)
    requires AloneValid(t, bs, orders) && FreshFork(t, bs) && NoDoubleSpend(t, bs) && NoCrossSpend(bs)
    ensures AloneValid(t, Reversed(bs), Reversed(orders)) && NoCrossSpend(Reversed(bs))
  {
    hide ValidOrders, FreshFork, NoDoubleSpend, Made, Spends, Reversed;
    var n, bs', orders' := |bs|, Reversed(bs), Reversed(orders);
    ReversedKeeps(t, bs);
    if n == 0 {
      ReversedEmpty(orders);
    } else {
      ReversedAt(orders, 0);
    }
    forall i | 0 <= i < n
      ensures ValidOrders(t.utxos, bs'[i], orders'[i])
    {
      ReversedAt(orders, i);
      assert ValidOrders(t.utxos, bs[n - 1 - i], orders[n - 1 - i]);
    }
  }

  /** Replaying the fork upwards sends the same events as replaying it head first, in another order. */
  lemma SameEventsBothWays(t: Tables, bs: seq<Block>, orders: seq<BlockOrder>)
    requires ForeignKeys(t) && FreshFork(t, bs) && NoDoubleSpend(t, bs) && NoCrossSpend(bs)
    requires ValidAllOrders(t, bs, orders) && |orders| == |bs| && FullOrders(bs, orders)
    ensures ValidAllOrders(t, Reversed(bs), Reversed(orders))
    ensures multiset(AllMsgs(t, Reversed(bs), Reversed(orders))) == multiset(AllMsgs(t, bs, orders))
  {
    hide BlockMsgs, ValidOrders, IndexUpTo, FreshFork, NoDoubleSpend, NoCrossSpend, ForeignKeys;
    hide AllMsgs, ValidAllOrders, FullOrders, Reversed, EachAlone;
    var n, bs', orders' := |bs|, Reversed(bs), Reversed(orders);
    assert orders[..n] == orders && bs[..n] == bs;
    RowOnlyNeedsAlone(t, bs, orders, n);
    InARow(t, bs, orders, n);
    ReversedKeeps(t, bs);
    EachAloneReversed(t, bs, orders);
    ReversedAlone(t, bs, orders);
    InARow(t, bs', orders', n);
    assert orders'[..n] == orders' && bs'[..n] == bs';
  }

  // ---- from scratch ----

  lemma {:induction false} IndexConcat(t: Tables, bs: seq<Block>, cs: seq<Block>, k: nat)
    requires k <= |cs|
    ensures IndexUpTo(t, bs + cs, |bs| + k) == IndexUpTo(IndexAll(t, bs), cs, k)
  {
    hide Indexed;
    if k == 0 {
      IndexPrefix(t, bs, cs, |bs|);
    } else {
      IndexConcat(t, bs, cs, k - 1);
    }
  }

  lemma {:induction false} PrefixIsBelow(prefix: seq<Block>, k: nat, n: nat)
    requires k <= |prefix| && CanIndexUpTo(EMPTY, prefix, k)
    requires forall i | 0 <= i < |prefix| :: prefix[i].header.height < n
    ensures ForeignKeys(IndexUpTo(EMPTY, prefix, k)) && Below(IndexUpTo(EMPTY, prefix, k), n)
  {
    hide Indexed, CanIndex, Below, ForeignKeys;
    if k == 0 {
      assert ForeignKeys(EMPTY) && Below(EMPTY, n) by { EmptyIsBelow(n); }
    } else {
      PrefixIsBelow(prefix, k - 1, n);
      var now, b := IndexUpTo(EMPTY, prefix, k - 1), prefix[k - 1];
      ForeignKeysKept(now, b);
      StaysBelow(now, b, n);
    }
  }

  lemma EmptyIsBelow(n: nat)
    ensures ForeignKeys(EMPTY) && Below(EMPTY, n)
  {
  }

  lemma StaysBelow(t: Tables, b: Block, n: nat)
    requires Below(t, n) && CanIndex(t, b) && b.header.height < n
    ensures Below(Indexed(t, b), n)
  {
    hide Indexed, CanIndex;
    BlocksAfter(t, b);
    forall o | o in Indexed(t, b).utxos
      ensures !SpentSince(Indexed(t, b).utxos[o], n)
    {
      UtxoAfter(t, b, o);
      if o !in t.utxos {
        MadeAt(b, o);
      }
    }
  }

  /**
   * Index a prefix, then old blocks from height `n` on, then reorganise to a fork: the tables are those of indexing
   * prefix and fork from an empty database in ascending order, exactly when no fork block spends another.
   */
  lemma ReorgIsFreshIndexIff(prefix: seq<Block>, orphans: seq<Block>, fork: seq<Block>, n: nat)
    requires CanIndexAll(EMPTY, prefix) && forall i | 0 <= i < |prefix| :: prefix[i].header.height < n
    requires var base := IndexAll(EMPTY, prefix);
      && OnTop(base, orphans, n) && CanIndexAll(base, orphans)
      && (forall i | 0 <= i < |orphans| :: !Reuses(base, orphans[i]))
      && FreshFork(base, fork) && NoDoubleSpend(base, fork)
    ensures var back := RolledBack(IndexAll(IndexAll(EMPTY, prefix), orphans), n);
      && CanIndexAll(back, fork)
      && (IndexAll(back, fork) == IndexAll(EMPTY, prefix + Reversed(fork)) <==> NoCrossSpend(fork))
  {
    hide Indexed, CanIndex, FreshFork, NoDoubleSpend, NoCrossSpend, OnTop, Reuses, Below, ForeignKeys, RolledBack;
    var base := IndexAll(EMPTY, prefix);
    PrefixIsBelow(prefix, |prefix|, n);
    UndoIsExactIff(base, orphans, n);
    HeadFirstReplayIff(base, fork);
    IndexConcat(EMPTY, prefix, Reversed(fork), |Reversed(fork)|);
  }
}
