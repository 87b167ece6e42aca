/** What every committed state of the tables keeps: foreign keys, one block per height, and progress on fresh blocks. */
module Integrity {
  import opened Types
  import opened Schema
  import opened Indexing

  predicate Spends(b: Block, o: OutPoint) {
    o in Inputs(b.txs, |b.txs|)
  }

  /** The rows block `b` makes. */
  function Made(b: Block): Utxos {
    Created(b.txs, |b.txs|, b.header.height)
  }

  predicate HasTx(b: Block, x: Txid) {
    exists k | 0 <= k < |b.txs| :: b.txs[k].txid == x
  }

  /** What one block does to one row. An output made by the block itself is never seen as spent by it. */
  function UtxoStep(row: Option<UtxoRow>, b: Block, o: OutPoint): Option<UtxoRow> {
    match row
    case Some(r) => if r.spentBlock.None? && Spends(b, o) then Some(SetSpent(r, b.header.height)) else row
    case None => Lookup(Made(b), o)
  }

  lemma UtxoAfter(t: Tables, b: Block, o: OutPoint)
    requires CanIndex(t, b)
    ensures Lookup(Indexed(t, b).utxos, o) == UtxoStep(Lookup(t.utxos, o), b, o)
  {
    CreatedDisjoint(t.utxos, b, |b.txs|);
  }

  lemma BlocksAfter(t: Tables, b: Block)
    ensures Indexed(t, b).blocks == UpsertBlock(t.blocks, b.header)
  {
  }

  /** A stored transaction row points at the block that carries it last. */
  lemma TxAfter(t: Tables, b: Block, x: Txid)
    ensures if HasTx(b, x) then x in Indexed(t, b).txs && Indexed(t, b).txs[x].blockHash == b.header.hash
            else Lookup(Indexed(t, b).txs, x) == Lookup(t.txs, x)
  {
    StoredAt(t.txs, b.header.hash, b.txs, |b.txs|, x);
  }

  /** A row comes from a transaction of the block, and starts unspent at the block's height. */
  lemma MadeAt(b: Block, o: OutPoint)
    requires o in Made(b)
    ensures HasTx(b, o.txid)
    ensures Made(b)[o].spentBlock.None? && Made(b)[o].blockNumber == b.header.height
  {
    CreatedAt(b.txs, |b.txs|, b.header.height, o);
  }

  // ---- foreign keys and heights ----

  ghost predicate ForeignKeys(t: Tables) {
    && (forall x | x in t.txs :: t.txs[x].blockHash in t.blocks)
    && (forall o | o in t.utxos :: o.txid in t.txs)
  }

  /** Every UTXO carries the height of the block that owns its transaction. */
  ghost predicate OwnHeights(t: Tables)
    requires ForeignKeys(t)
  {
    forall o | o in t.utxos :: t.utxos[o].blockNumber == t.blocks[t.txs[o.txid].blockHash].number
  }

  ghost predicate Referential(t: Tables) {
    ForeignKeys(t) && OwnHeights(t)
  }

  ghost predicate OneBlockPerHeight(t: Tables) {
    forall g, h | g in t.blocks && h in t.blocks && t.blocks[g].number == t.blocks[h].number :: g == h
  }

  /** A hash names one header, so one height. */
  predicate HashAgrees(t: Tables, b: Block) {
    b.header.hash in t.blocks ==> t.blocks[b.header.hash].number == b.header.height
  }

  /** A transaction id names one body, so the same outputs. */
  ghost predicate BodiesAgree(t: Tables, b: Block) {
    forall o, k | o in t.utxos && 0 <= k < |b.txs| && b.txs[k].txid == o.txid :: Makes(b.txs[k], o)
  }

  lemma ForeignKeysKept(t: Tables, b: Block)
    requires ForeignKeys(t) && CanIndex(t, b)
    ensures ForeignKeys(Indexed(t, b))
  {
    var t' := Indexed(t, b);
    forall x | x in t'.txs
      ensures t'.txs[x].blockHash in t'.blocks
    {
      StoredAt(t.txs, b.header.hash, b.txs, |b.txs|, x);
      if !HasTx(b, x) {
        assert Lookup(t'.txs, x) == Lookup(t.txs, x);
      }
    }
    forall o | o in t'.utxos
      ensures o.txid in t'.txs
    {
      UtxoAfter(t, b, o);
      if o !in t.utxos {
        MadeAt(b, o);
      }
      StoredAt(t.txs, b.header.hash, b.txs, |b.txs|, o.txid);
      if !HasTx(b, o.txid) {
        assert Lookup(t'.txs, o.txid) == Lookup(t.txs, o.txid);
      }
    }
  }

  /**
   * A transaction already stored is silently re-pointed at the new block. The UTXO heights survive that exactly when
   * no re-pointed transaction owns rows of another height.
   */
  lemma OwnHeightsKeptIff(t: Tables, b: Block)
    requires Referential(t) && CanIndex(t, b) && HashAgrees(t, b)
    ensures ForeignKeys(Indexed(t, b))
    ensures OwnHeights(Indexed(t, b))
       <==> forall o | o in t.utxos && HasTx(b, o.txid) :: t.utxos[o].blockNumber == b.header.height
  {
    ForeignKeysKept(t, b);
    var t' := Indexed(t, b);
    forall o | o in t'.utxos
      ensures (t'.utxos[o].blockNumber == t'.blocks[t'.txs[o.txid].blockHash].number)
         <==> (o in t.utxos && HasTx(b, o.txid) ==> t.utxos[o].blockNumber == b.header.height)
    {
      UtxoAfter(t, b, o);
      StoredAt(t.txs, b.header.hash, b.txs, |b.txs|, o.txid);
      if o !in t.utxos {
        MadeAt(b, o);
        assert t'.txs[o.txid].blockHash == b.header.hash;
      } else if !HasTx(b, o.txid) {
        assert Lookup(t'.txs, o.txid) == Lookup(t.txs, o.txid);
      }
    }
    forall o | o in t.utxos
      ensures o in t'.utxos
    {
      UtxoAfter(t, b, o);
    }
  }

  /** A transaction re-pointed while it owns rows cannot commit: its rows hit the primary key. */
  lemma ReferentialKept(t: Tables, b: Block)
    requires Referential(t) && CanIndex(t, b) && HashAgrees(t, b) && BodiesAgree(t, b)
    ensures Referential(Indexed(t, b))
    ensures forall o | o in t.utxos :: !HasTx(b, o.txid)
  {
    forall o | o in t.utxos
      ensures !HasTx(b, o.txid)
    {
      if k :| 0 <= k < |b.txs| && b.txs[k].txid == o.txid {
        OutputsAt(b.txs[k], |b.txs[k].outputs|, b.header.height, o);
        CanCreatePrefix(t.utxos, b, k, |b.txs|);
        assert false;
      }
    }
    OwnHeightsKeptIff(t, b);
  }

  lemma OneBlockPerHeightKept(t: Tables, b: Block)
    requires OneBlockPerHeight(t)
    ensures OneBlockPerHeight(Indexed(t, b))
  {
    assert forall h | h in t.blocks && t.blocks[h].number == b.header.height :: NumberTaken(t.blocks, b.header.height);
  }

  // ---- deleting by cascade is deleting by height ----

  lemma CascadeIsByHeight(t: Tables, n: nat)
    requires Referential(t)
    ensures DeleteBlocksSince(t, n).utxos == map o | o in t.utxos && t.utxos[o].blockNumber < n :: t.utxos[o]
    ensures DeleteBlocksSince(t, n).txs == map x | x in t.txs && t.blocks[t.txs[x].blockHash].number < n :: t.txs[x]
    ensures Referential(RolledBack(t, n))
  {
    var d := DeleteBlocksSince(t, n);
    assert d.txs == map x | x in t.txs && t.blocks[t.txs[x].blockHash].number < n :: t.txs[x];
    forall o | o in t.utxos
      ensures o in d.utxos <==> t.utxos[o].blockNumber < n
    {
    }
    assert d.utxos == map o | o in t.utxos && t.utxos[o].blockNumber < n :: t.utxos[o];
  }

  // ---- progress ----

  /** Nothing of the block is stored yet, and its transaction ids are distinct. */
  ghost predicate FreshBlock(t: Tables, b: Block) {
    && b.header.timeValid
    && b.header.hash !in t.blocks
    && !NumberTaken(t.blocks, b.header.height)
    && (forall k | 0 <= k < |b.txs| :: b.txs[k].txid !in t.txs)
    && DistinctTxids(b)
  }

  ghost predicate DistinctTxids(b: Block) {
    forall i, k | 0 <= i < k < |b.txs| :: b.txs[i].txid != b.txs[k].txid
  }

  lemma {:induction false} ProgressUpTo(t: Tables, b: Block, k: nat)
    requires ForeignKeys(t) && FreshBlock(t, b) && k <= |b.txs|
    ensures CanCreateUpTo(t.utxos, b, k)
  {
    if k == 0 {
    } else {
      ProgressUpTo(t, b, k - 1);
      forall o | o in AllOutputs(b.txs[k - 1], b.header.height)
        ensures o !in t.utxos && o !in Created(b.txs, k - 1, b.header.height)
      {
        OutputsAt(b.txs[k - 1], |b.txs[k - 1].outputs|, b.header.height, o);
        CreatedAt(b.txs, k - 1, b.header.height, o);
      }
    }
  }

  /** No key, foreign-key or affected-rows failure on a fresh block. */
  lemma Progress(t: Tables, b: Block)
    requires ForeignKeys(t) && FreshBlock(t, b)
    ensures CanIndex(t, b)
    ensures Indexed(t, b).blocks == t.blocks[b.header.hash := BlockRow(b.header.height, b.header.previous)]
  {
    ProgressUpTo(t, b, |b.txs|);
  }

  /** The keys after indexing a block that succeeds. */
  lemma KeysAfter(t: Tables, b: Block)
    requires CanIndex(t, b)
    ensures forall x | x in Indexed(t, b).txs :: x in t.txs || HasTx(b, x)
    ensures forall x | x in t.txs :: x in Indexed(t, b).txs
    ensures forall k | 0 <= k < |b.txs| :: b.txs[k].txid in Indexed(t, b).txs
    ensures Indexed(t, b).utxos.Keys == t.utxos.Keys + Made(b).Keys
  {
    forall x
      ensures x in Indexed(t, b).txs <==> x in t.txs || HasTx(b, x)
    {
      StoredAt(t.txs, b.header.hash, b.txs, |b.txs|, x);
      if !HasTx(b, x) {
        assert Lookup(Indexed(t, b).txs, x) == Lookup(t.txs, x);
      }
    }
  }

  // ---- a spent row stays as it is ----

  /** Until a rollback no `spent_block` is overwritten, although the update has no null check. */
  lemma {:induction false} SpentOnce(t: Tables, bs: seq<Block>, k: nat, o: OutPoint)
    requires k <= |bs| && CanIndexUpTo(t, bs, k)
    requires o in t.utxos && t.utxos[o].spentBlock.Some?
    ensures o in IndexUpTo(t, bs, k).utxos && IndexUpTo(t, bs, k).utxos[o] == t.utxos[o]
  {
    if k == 0 {
    } else {
      SpentOnce(t, bs, k - 1, o);
      UtxoAfter(IndexUpTo(t, bs, k - 1), bs[k - 1], o);
    }
  }
}
