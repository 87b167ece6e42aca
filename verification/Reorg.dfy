/** Rolling the tables back: when deleting and un-spending by height is an exact undo. */
module Reorg {
  import opened Types
  import opened Schema
  import opened Indexing
  import opened Integrity

  // ---- exact undo ----

  /** Everything stored is below height `n`. */
  ghost predicate Below(t: Tables, n: nat) {
    && (forall h | h in t.blocks :: t.blocks[h].number < n)
    && (forall o | o in t.utxos :: !SpentSince(t.utxos[o], n))
  }

  /** `now` is `base` plus blocks from height `n` on. Base transactions may have been re-pointed at those blocks. */
  ghost predicate Grown(base: Tables, now: Tables, n: nat) {
    && (forall h | h in base.blocks :: h in now.blocks && now.blocks[h] == base.blocks[h])
    && (forall h | h in now.blocks && h !in base.blocks :: now.blocks[h].number >= n)
    && (forall x | x in base.txs :: x in now.txs && (now.txs[x] == base.txs[x] || now.txs[x].blockHash !in base.blocks))
    && (forall x | x in now.txs && x !in base.txs :: now.txs[x].blockHash !in base.blocks)
    && (forall o | o in base.utxos :: o in now.utxos && GrownRow(base.utxos[o], now.utxos[o], n))
    && (forall o | o in now.utxos && o !in base.utxos ::
          o.txid in now.txs && now.txs[o.txid].blockHash !in base.blocks)
  }

  ghost predicate GrownRow(row: UtxoRow, now: UtxoRow, n: nat) {
    now == row || (row.spentBlock.None? && SpentSince(now, n) && now.(spentBlock := None) == row)
  }

  ghost predicate SameTxs(base: Tables, now: Tables) {
    forall x | x in base.txs :: x in now.txs && now.txs[x] == base.txs[x]
  }

  /** The block carries a transaction id that is already stored. */
  ghost predicate Reuses(base: Tables, b: Block) {
    exists x | x in base.txs :: HasTx(b, x)
  }

  lemma GrownStep(base: Tables, now: Tables, b: Block, n: nat)
    requires ForeignKeys(base) && ForeignKeys(now) && Grown(base, now, n)
    requires CanIndex(now, b) && b.header.height >= n && b.header.hash !in base.blocks
    ensures ForeignKeys(Indexed(now, b)) && Grown(base, Indexed(now, b), n)
    ensures SameTxs(base, Indexed(now, b)) <==> SameTxs(base, now) && !Reuses(base, b)
  {
    hide Indexed, CanIndex, SameTxs, Reuses, ForeignKeys, HasTx;
    var t' := Indexed(now, b);
    ForeignKeysKept(now, b);
    BlocksAfter(now, b);
    TxsOf(now, b);
    RowsOf(now, b);
    GrownUtxos(base, now, t', b, n);
    SameTxsStep(base, now, t', b);
    GrownNewRows(base, now, t', b, n);
  }

  lemma TxsOf(now: Tables, b: Block)
    requires CanIndex(now, b)
    ensures forall x ::
      if HasTx(b, x) then x in Indexed(now, b).txs && Indexed(now, b).txs[x].blockHash == b.header.hash
      else Lookup(Indexed(now, b).txs, x) == Lookup(now.txs, x)
  {
    hide Indexed, CanIndex, HasTx;
    forall x
      ensures if HasTx(b, x) then x in Indexed(now, b).txs && Indexed(now, b).txs[x].blockHash == b.header.hash
              else Lookup(Indexed(now, b).txs, x) == Lookup(now.txs, x)
    {
      TxAfter(now, b, x);
    }
  }

  lemma RowsOf(now: Tables, b: Block)
    requires CanIndex(now, b)
    ensures forall o :: Lookup(Indexed(now, b).utxos, o) == UtxoStep(Lookup(now.utxos, o), b, o)
    ensures forall o | o in Indexed(now, b).utxos && o !in now.utxos :: HasTx(b, o.txid)
  {
    hide Indexed, CanIndex, HasTx;
    forall o
      ensures Lookup(Indexed(now, b).utxos, o) == UtxoStep(Lookup(now.utxos, o), b, o)
      ensures o in Indexed(now, b).utxos && o !in now.utxos ==> HasTx(b, o.txid)
    {
      UtxoAfter(now, b, o);
      if o in Indexed(now, b).utxos && o !in now.utxos {
        MadeAt(b, o);
      }
    }
  }

  lemma GrownNewRows(base: Tables, now: Tables, t': Tables, b: Block, n: nat)
    requires Grown(base, now, n) && b.header.hash !in base.blocks
    requires forall x :: if HasTx(b, x) then x in t'.txs && t'.txs[x].blockHash == b.header.hash
                         else Lookup(t'.txs, x) == Lookup(now.txs, x)
    requires forall o | o in t'.utxos && o !in now.utxos :: HasTx(b, o.txid)
    ensures forall o | o in t'.utxos && o !in base.utxos :: o.txid in t'.txs && t'.txs[o.txid].blockHash !in base.blocks
  {
    hide HasTx;
    forall o | o in t'.utxos && o !in base.utxos
      ensures o.txid in t'.txs && t'.txs[o.txid].blockHash !in base.blocks
    {
      if !HasTx(b, o.txid) {
        assert o in now.utxos;
        assert Lookup(t'.txs, o.txid) == Lookup(now.txs, o.txid);
      }
    }
  }

  lemma GrownUtxos(base: Tables, now: Tables, t': Tables, b: Block, n: nat)
    requires Grown(base, now, n) && b.header.height >= n
    requires forall o :: Lookup(t'.utxos, o) == UtxoStep(Lookup(now.utxos, o), b, o)
    ensures forall o | o in base.utxos :: o in t'.utxos && GrownRow(base.utxos[o], t'.utxos[o], n)
  {
    forall o | o in base.utxos
      ensures o in t'.utxos && GrownRow(base.utxos[o], t'.utxos[o], n)
    {
      assert Lookup(t'.utxos, o) == UtxoStep(Lookup(now.utxos, o), b, o);
      assert GrownRow(base.utxos[o], now.utxos[o], n);
    }
  }

  lemma SameTxsStep(base: Tables, now: Tables, t': Tables, b: Block)
    requires ForeignKeys(base) && b.header.hash !in base.blocks
    requires forall x | x in base.txs ::
      x in now.txs && (now.txs[x] == base.txs[x] || now.txs[x].blockHash !in base.blocks)
    requires forall x :: if HasTx(b, x) then x in t'.txs && t'.txs[x].blockHash == b.header.hash
                         else Lookup(t'.txs, x) == Lookup(now.txs, x)
    ensures SameTxs(base, t') <==> SameTxs(base, now) && !Reuses(base, b)
  {
    if SameTxs(base, t') {
      forall x | x in base.txs
        ensures !HasTx(b, x) && now.txs[x] == base.txs[x]
      {
        assert t'.txs[x].blockHash != b.header.hash;
        assert Lookup(t'.txs, x) == Lookup(now.txs, x);
      }
    }
    if SameTxs(base, now) && !Reuses(base, b) {
      forall x | x in base.txs
        ensures x in t'.txs && t'.txs[x] == base.txs[x]
      {
        assert Lookup(t'.txs, x) == Lookup(now.txs, x);
      }
    }
  }

  /** Blocks that come on top of `base`: at heights from `n` on, with new hashes. */
  ghost predicate OnTop(base: Tables, bs: seq<Block>, n: nat) {
    forall i | 0 <= i < |bs| :: bs[i].header.height >= n && bs[i].header.hash !in base.blocks
  }

  lemma {:induction false} GrownAll(base: Tables, bs: seq<Block>, k: nat, n: nat)
    requires ForeignKeys(base) && k <= |bs| && OnTop(base, bs, n) && CanIndexUpTo(base, bs, k)
    ensures ForeignKeys(IndexUpTo(base, bs, k)) && Grown(base, IndexUpTo(base, bs, k), n)
    ensures SameTxs(base, IndexUpTo(base, bs, k)) <==> forall i | 0 <= i < k :: !Reuses(base, bs[i])
  {
    hide Grown, Indexed, CanIndex, Reuses, SameTxs;
    if k == 0 {
      GrownItself(base, n);
    } else {
      GrownAll(base, bs, k - 1, n);
      GrownStep(base, IndexUpTo(base, bs, k - 1), bs[k - 1], n);
    }
  }

  lemma GrownItself(base: Tables, n: nat)
    ensures Grown(base, base, n) && SameTxs(base, base)
  {
  }

  lemma RollbackOfGrown(base: Tables, now: Tables, n: nat)
    requires ForeignKeys(base) && ForeignKeys(now) && Below(base, n) && Grown(base, now, n)
    ensures RolledBack(now, n) == base <==> SameTxs(base, now)
  {
    var r := RolledBack(now, n);
    assert r.blocks == base.blocks;
    if SameTxs(base, now) {
      assert r.txs == base.txs;
      forall o | o in r.utxos
        ensures o in base.utxos
      {
        assert o.txid in r.txs;
      }
      forall o | o in base.utxos
        ensures o in r.utxos && r.utxos[o] == base.utxos[o]
      {
        assert o.txid in r.txs;
        assert GrownRow(base.utxos[o], now.utxos[o], n);
      }
      assert r.utxos == base.utxos;
    } else {
      var x :| x in base.txs && now.txs[x] != base.txs[x];
      assert x !in r.txs;
    }
  }

  /**
   * Deleting and un-spending from height `n` restores the tables below `n` to the row, spent marks included, exactly
   * when no block above re-used a stored transaction id.
   */
  lemma UndoIsExactIff(base: Tables, bs: seq<Block>, n: nat)
    requires ForeignKeys(base) && Below(base, n) && OnTop(base, bs, n) && CanIndexAll(base, bs)
    ensures RolledBack(IndexAll(base, bs), n) == base <==> forall i | 0 <= i < |bs| :: !Reuses(base, bs[i])
  {
    GrownAll(base, bs, |bs|, n);
    RollbackOfGrown(base, IndexAll(base, bs), n);
  }
}
