/** The tree of blocks a Bitcoin node can serve, and what it means for the tables to hold part of one branch of it. */
module Chain {
  import opened Types
  import opened Schema
  import opened Indexing
  import opened Integrity
  import opened Draining

  /** Every block the node may ever answer with, by hash. */
  type World = map<Hash, Block>

  ghost predicate Linked(w: World, h: Hash)
    requires h in w
  {
    var header := w[h].header;
    && header.hash == h
    && header.timeValid
    && DistinctTxids(w[h])
    && if header.height == 0 then header.previous.None?
       else
         && header.previous.Some?
         && header.previous.value in w
         && w[header.previous.value].header.height == header.height - 1
  }

  /** Headers are consistent and there is one genesis block. */
  ghost predicate ValidWorld(w: World) {
    && (forall h | h in w :: Linked(w, h))
    && (forall g, h | g in w && h in w && w[g].header.height == 0 && w[h].header.height == 0 :: g == h)
  }

  /** The hash of the ancestor of `h` at height `k`. */
  function AncestorAt(w: World, h: Hash, k: nat): (g: Hash)
    requires ValidWorld(w) && h in w && k <= w[h].header.height
    ensures g in w && w[g].header.height == k
    decreases w[h].header.height
  {
    assert Linked(w, h);
    if k == w[h].header.height then h else AncestorAt(w, w[h].header.previous.value, k)
  }

  lemma {:induction false} AncestorOfAncestor(w: World, h: Hash, j: nat, k: nat)
    requires ValidWorld(w) && h in w && k <= j <= w[h].header.height
    ensures AncestorAt(w, AncestorAt(w, h, j), k) == AncestorAt(w, h, k)
    decreases w[h].header.height
  {
    assert Linked(w, h);
    if j == w[h].header.height {
    } else {
      AncestorOfAncestor(w, w[h].header.previous.value, j, k);
    }
  }

  /** The parent of the ancestor at height `k` is the ancestor one below. */
  lemma ParentOfAncestor(w: World, h: Hash, k: nat)
    requires ValidWorld(w) && h in w && 0 < k <= w[h].header.height
    ensures w[AncestorAt(w, h, k)].header.previous == Some(AncestorAt(w, h, k - 1))
  {
    var g := AncestorAt(w, h, k);
    assert Linked(w, g);
    AncestorOfAncestor(w, h, k, k - 1);
    assert AncestorAt(w, g, k - 1) == AncestorAt(w, w[g].header.previous.value, k - 1);
  }

  /** Along a branch transaction ids are unique, and no block spends an output of a later one. */
  ghost predicate BitcoinRules(w: World)
    requires ValidWorld(w)
  {
    forall h, k: nat | h in w && k < w[h].header.height :: OlderThan(w[AncestorAt(w, h, k)], w[h])
  }

  ghost predicate OlderThan(b: Block, c: Block) {
    && (forall x | HasTx(b, x) :: !HasTx(c, x))
    && (forall o | Spends(b, o) :: !HasTx(c, o.txid))
  }

  ghost predicate BitcoinWorld(w: World) {
    ValidWorld(w) && BitcoinRules(w)
  }

  lemma BranchIsOrdered(w: World, tip: Hash, j: nat, k: nat)
    requires BitcoinWorld(w) && tip in w && j < k <= w[tip].header.height
    ensures OlderThan(w[AncestorAt(w, tip, j)], w[AncestorAt(w, tip, k)])
  {
    AncestorOfAncestor(w, tip, k, j);
  }

  // ---- the tables hold some heights of one branch ----

  /** The stored blocks are exactly the ancestors of `tip` at `heights`, and everything else belongs to them. */
  ghost predicate Holds(w: World, t: Tables, tip: Hash, heights: set<nat>)
    requires ValidWorld(w)
  {
    && tip in w
    && HoldsBlocks(w, t, tip, heights)
    && HoldsTxs(w, t)
    && HoldsRows(w, t)
    && HoldsSpends(t, heights)
    && Referential(t)
  }

  ghost predicate HoldsBlocks(w: World, t: Tables, tip: Hash, heights: set<nat>)
    requires ValidWorld(w) && tip in w
  {
    && (forall k | k in heights :: k <= w[tip].header.height && AncestorAt(w, tip, k) in t.blocks)
    && (forall h | h in t.blocks :: StoredBlock(w, t, tip, heights, h))
  }

  ghost predicate HoldsTxs(w: World, t: Tables) {
    forall x | x in t.txs :: t.txs[x].blockHash in w && HasTx(w[t.txs[x].blockHash], x)
  }

  /** Every row a stored block makes is there. */
  ghost predicate HoldsRows(w: World, t: Tables) {
    forall h, o | h in t.blocks && h in w && o in Made(w[h]) ::
      o in t.utxos && t.utxos[o].blockNumber == t.blocks[h].number
  }

  ghost predicate HoldsSpends(t: Tables, heights: set<nat>) {
    && SpentAfterMade(t.utxos)
    && forall o | o in t.utxos && t.utxos[o].spentBlock.Some? :: t.utxos[o].spentBlock.value in heights
  }

  ghost predicate StoredBlock(w: World, t: Tables, tip: Hash, heights: set<nat>, h: Hash)
    requires ValidWorld(w) && h in t.blocks && tip in w
  {
    && t.blocks[h].number in heights
    && t.blocks[h].number <= w[tip].header.height
    && h == AncestorAt(w, tip, t.blocks[h].number)
    && t.blocks[h].previous == w[h].header.previous
  }

  function Range(lo: nat, hi: nat): (r: set<nat>)
    ensures forall k: nat :: k in r <==> lo <= k < hi
  {
    if hi <= lo then {} else Range(lo, hi - 1) + {hi - 1}
  }

  function CutAt(heights: set<nat>, n: nat): set<nat> {
    set k | k in heights && k < n
  }

  lemma TxElsewhere(w: World, t: Tables, tip: Hash, heights: set<nat>, k: nat, x: Txid)
    requires BitcoinWorld(w) && Holds(w, t, tip, heights) && k <= w[tip].header.height && k !in heights && x in t.txs
    ensures !HasTx(w[AncestorAt(w, tip, k)], x)
  {
    hide HoldsRows, HoldsSpends, BitcoinRules, AncestorAt, ValidWorld, HasTx;
    var h := t.txs[x].blockHash;
    assert StoredBlock(w, t, tip, heights, h);
    var j := t.blocks[h].number;
    if j < k {
      BranchIsOrdered(w, tip, j, k);
    } else {
      BranchIsOrdered(w, tip, k, j);
    }
  }

  lemma HoldsFresh(w: World, t: Tables, tip: Hash, heights: set<nat>, k: nat)
    requires BitcoinWorld(w) && Holds(w, t, tip, heights) && k <= w[tip].header.height && k !in heights
    ensures FreshBlock(t, w[AncestorAt(w, tip, k)])
  {
    hide HoldsRows, HoldsSpends, HoldsTxs, BitcoinRules, Referential, AncestorAt;
    var b := w[AncestorAt(w, tip, k)];
    assert Linked(w, AncestorAt(w, tip, k));
    hide ValidWorld;
    forall x | x in t.txs
      ensures !HasTx(b, x)
    {
      TxElsewhere(w, t, tip, heights, k, x);
    }
    forall i | 0 <= i < |b.txs|
      ensures b.txs[i].txid !in t.txs
    {
      assert HasTx(b, b.txs[i].txid);
    }
    forall h | h in t.blocks
      ensures h != b.header.hash && t.blocks[h].number != k
    {
      assert StoredBlock(w, t, tip, heights, h);
    }
  }

  /** Every row the block spends was made at or below its height. */
  lemma SpendsOlder(w: World, t: Tables, tip: Hash, heights: set<nat>, k: nat, o: OutPoint)
    requires BitcoinWorld(w) && Holds(w, t, tip, heights) && k <= w[tip].header.height && k !in heights
    requires o in t.utxos && Spends(w[AncestorAt(w, tip, k)], o)
    ensures t.utxos[o].blockNumber <= k
  {
    hide HoldsRows;
    var h := t.txs[o.txid].blockHash;
    assert StoredBlock(w, t, tip, heights, h);
    var j := t.blocks[h].number;
    if j > k {
      BranchIsOrdered(w, tip, k, j);
    }
  }

  lemma HoldsBlocksStep(w: World, t: Tables, t': Tables, tip: Hash, heights: set<nat>, k: nat)
    requires ValidWorld(w) && tip in w && k <= w[tip].header.height && k !in heights && HoldsBlocks(w, t, tip, heights)
    requires var b := w[AncestorAt(w, tip, k)];
      t'.blocks == t.blocks[b.header.hash := BlockRow(b.header.height, b.header.previous)]
    ensures HoldsBlocks(w, t', tip, heights + {k})
  {
    var hash := AncestorAt(w, tip, k);
    assert Linked(w, hash);
    forall h | h in t'.blocks
      ensures StoredBlock(w, t', tip, heights + {k}, h)
    {
      assert h != hash ==> StoredBlock(w, t, tip, heights, h);
    }
  }

  lemma HoldsSpendsStep(w: World, t: Tables, tip: Hash, heights: set<nat>, k: nat)
    requires BitcoinWorld(w) && Holds(w, t, tip, heights) && k <= w[tip].header.height && k !in heights
    requires CanIndex(t, w[AncestorAt(w, tip, k)])
    ensures HoldsSpends(Indexed(t, w[AncestorAt(w, tip, k)]), heights + {k})
  {
    hide Indexed, CanIndex, HoldsBlocks, HoldsRows, Referential;
    var b := w[AncestorAt(w, tip, k)];
    var t' := Indexed(t, b);
    forall o | o in t'.utxos
      ensures t'.utxos[o].spentBlock.Some? ==>
        t'.utxos[o].spentBlock.value in heights + {k} && t'.utxos[o].spentBlock.value >= t'.utxos[o].blockNumber
    {
      UtxoAfter(t, b, o);
      if o !in t.utxos {
        MadeAt(b, o);
      } else if Spends(b, o) {
        SpendsOlder(w, t, tip, heights, k, o);
      }
    }
  }

  lemma HoldsRowsStep(w: World, t: Tables, b: Block)
    requires HoldsRows(w, t) && CanIndex(t, b) && b.header.hash in w && w[b.header.hash] == b
    requires Indexed(t, b).blocks == t.blocks[b.header.hash := BlockRow(b.header.height, b.header.previous)]
    requires b.header.hash !in t.blocks
    ensures HoldsRows(w, Indexed(t, b))
  {
    hide Indexed, CanIndex, Made;
    var t' := Indexed(t, b);
    forall h, o | h in t'.blocks && h in w && o in Made(w[h])
      ensures o in t'.utxos && t'.utxos[o].blockNumber == t'.blocks[h].number
    {
      UtxoAfter(t, b, o);
      if h == b.header.hash {
        MadeAt(b, o);
        NewRow(t, b, o);
      }
    }
  }

  lemma FreshHash(t: Tables, b: Block)
    requires FreshBlock(t, b)
    ensures b.header.hash !in t.blocks
  {
  }

  lemma NewRow(t: Tables, b: Block, o: OutPoint)
    requires CanIndex(t, b) && o in Made(b)
    ensures o !in t.utxos
  {
    CreatedDisjoint(t.utxos, b, |b.txs|);
  }

  /** Indexing a missing ancestor succeeds and adds its height. */
  lemma HoldsStep(w: World, t: Tables, tip: Hash, heights: set<nat>, k: nat)
    requires BitcoinWorld(w) && Holds(w, t, tip, heights) && k <= w[tip].header.height && k !in heights
    ensures CanIndex(t, w[AncestorAt(w, tip, k)])
    ensures Holds(w, Indexed(t, w[AncestorAt(w, tip, k)]), tip, heights + {k})
  {
    hide Indexed, CanIndex, HoldsBlocks, HoldsSpends, HoldsRows, FreshBlock;
    var hash := AncestorAt(w, tip, k);
    var b := w[hash];
    var t' := Indexed(t, b);
    HoldsFresh(w, t, tip, heights, k);
    assert Linked(w, hash);
    Progress(t, b);
    FreshHash(t, b);
    HoldsRowsStep(w, t, b);
    HoldsBlocksStep(w, t, t', tip, heights, k);
    FreshKeepsReferences(t, b);
    HoldsSpendsStep(w, t, tip, heights, k);
    forall x | x in t'.txs
      ensures t'.txs[x].blockHash in w && HasTx(w[t'.txs[x].blockHash], x)
    {
      TxAfter(t, b, x);
      assert !HasTx(b, x) ==> Lookup(t'.txs, x) == Lookup(t.txs, x);
    }
  }

  lemma FreshKeepsReferences(t: Tables, b: Block)
    requires Referential(t) && FreshBlock(t, b) && CanIndex(t, b)
    ensures Referential(Indexed(t, b))
  {
    OwnHeightsKeptIff(t, b);
  }

  lemma HoldsBlocksRollback(w: World, t: Tables, tip: Hash, heights: set<nat>, n: nat)
    requires ValidWorld(w) && tip in w && HoldsBlocks(w, t, tip, heights)
    ensures HoldsBlocks(w, RolledBack(t, n), tip, CutAt(heights, n))
  {
    var t' := RolledBack(t, n);
    var kept := CutAt(heights, n);
    forall h | h in t'.blocks
      ensures StoredBlock(w, t', tip, kept, h)
    {
      assert StoredBlock(w, t, tip, heights, h);
    }
    forall k | k in kept
      ensures AncestorAt(w, tip, k) in t'.blocks
    {
      assert StoredBlock(w, t, tip, heights, AncestorAt(w, tip, k));
    }
  }

  lemma HoldsSpendsRollback(t: Tables, heights: set<nat>, n: nat)
    requires HoldsSpends(t, heights)
    ensures HoldsSpends(RolledBack(t, n), CutAt(heights, n))
  {
    var u' := RolledBack(t, n).utxos;
    forall o | o in u'
      ensures o in t.utxos && u'[o] == if SpentSince(t.utxos[o], n) then t.utxos[o].(spentBlock := None) else t.utxos[o]
    {
    }
  }

  lemma HoldsRowsRollback(w: World, t: Tables, n: nat)
    requires HoldsRows(w, t) && Referential(t)
    ensures HoldsRows(w, RolledBack(t, n))
  {
    hide Made;
    CascadeIsByHeight(t, n);
  }

  /** Rolling back to below `n` keeps the heights below `n`. */
  lemma HoldsRollback(w: World, t: Tables, tip: Hash, heights: set<nat>, n: nat)
    requires ValidWorld(w) && Holds(w, t, tip, heights)
    ensures Holds(w, RolledBack(t, n), tip, CutAt(heights, n))
  {
    HoldsBlocksRollback(w, t, tip, heights, n);
    HoldsSpendsRollback(t, heights, n);
    HoldsRowsRollback(w, t, n);
    hide HoldsBlocks, HoldsSpends, HoldsRows;
    CascadeIsByHeight(t, n);
  }

  /** The same tables hold the same heights of any branch that agrees on them. */
  lemma HoldsOnBranch(w: World, t: Tables, tip: Hash, tip': Hash, heights: set<nat>)
    requires ValidWorld(w) && Holds(w, t, tip, heights) && tip' in w
    requires forall k | k in heights :: k <= w[tip'].header.height && AncestorAt(w, tip', k) == AncestorAt(w, tip, k)
    ensures Holds(w, t, tip', heights)
  {
    hide HoldsTxs, HoldsRows, HoldsSpends, Referential;
    forall h | h in t.blocks
      ensures StoredBlock(w, t, tip', heights, h)
    {
      assert StoredBlock(w, t, tip, heights, h);
    }
  }

  // ---- indexing a fork head first ----

  /** `fork` is the branch of `head` from its own height down to `n`. */
  ghost predicate BranchDown(w: World, head: Hash, n: nat, fork: seq<Block>)
    requires ValidWorld(w)
  {
    && head in w
    && n <= w[head].header.height
    && |fork| == w[head].header.height - n + 1
    && forall i | 0 <= i < |fork| :: fork[i] == w[AncestorAt(w, head, w[head].header.height - i)]
  }

  /** The heights held once the `i` highest blocks up to `top` are indexed over a base [lo, n). */
  ghost function Filled(lo: nat, n: nat, top: nat, i: nat): set<nat>
    requires i <= top
  {
    Range(lo, n) + Range(top - i, top)
  }

  lemma FilledStep(lo: nat, n: nat, top: nat, i: nat)
    requires 0 < i && n + i <= top
    ensures top - i !in Filled(lo, n, top, i - 1)
    ensures Filled(lo, n, top, i - 1) + {top - i} == Filled(lo, n, top, i)
  {
    assert Range(top - i, top) == Range(top - (i - 1), top) + {top - i};
  }

  lemma FilledEnds(lo: nat, n: nat, top: nat)
    requires lo <= n <= top
    ensures Filled(lo, n, top, 0) == Range(lo, n)
    ensures Filled(lo, n, top, top - n) == Range(lo, top)
  {
    assert Range(top, top) == {};
    assert Range(lo, n) + Range(n, top) == Range(lo, top);
  }

  lemma {:induction false} HoldsFork(w: World, t: Tables, head: Hash, lo: nat, n: nat, fork: seq<Block>, i: nat)
    requires BitcoinWorld(w) && BranchDown(w, head, n, fork) && lo <= n && i <= |fork|
    requires Holds(w, t, head, Range(lo, n))
    ensures CanIndexUpTo(t, fork, i)
    ensures Holds(w, IndexUpTo(t, fork, i), head, Filled(lo, n, w[head].header.height + 1, i))
  {
    hide Indexed, CanIndex, Holds, BitcoinRules, Range, Filled, AncestorAt, ValidWorld;
    var top := w[head].header.height + 1;
    FilledEnds(lo, n, top);
    if i == 0 {
    } else {
      var now, b := IndexUpTo(t, fork, i - 1), fork[i - 1];
      assert b == w[AncestorAt(w, head, top - i)];
      HoldsFork(w, t, head, lo, n, fork, i - 1);
      FilledStep(lo, n, top, i);
      HoldsStep(w, now, head, Filled(lo, n, top, i - 1), top - i);
      assert IndexUpTo(t, fork, i) == Indexed(now, b);
    }
  }
}
