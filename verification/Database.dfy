/** The tables behind a connection, changed in place one SQL statement at a time. */
module Database {
  import opened Types
  import opened Schema
  import S = Schema

  class Connection {
    var blocks: map<Hash, BlockRow>
    var txs: map<Txid, TxRow>
    var utxos: Utxos

    function View(): Tables
      reads this
    {
      Tables(blocks, txs, utxos)
    }

    constructor ()
      ensures View() == EMPTY
    {
      blocks, txs, utxos := map[], map[], map[];
    }

    method LatestBlockNum() returns (n: Option<nat>)
      ensures n.None? <==> blocks == map[]
      ensures n.Some? ==> exists h | h in blocks :: blocks[h].number == n.value
      ensures n.Some? ==> forall h | h in blocks :: blocks[h].number <= n.value
    {
      n := None;
      var rest := blocks.Keys;
      while rest != {}
        invariant rest <= blocks.Keys
        invariant n.None? <==> rest == blocks.Keys
        invariant n.Some? ==> exists h | h in blocks :: blocks[h].number == n.value
        invariant n.Some? ==> forall h | h in blocks && h !in rest :: blocks[h].number <= n.value
      {
        var h :| h in rest;
        rest := rest - {h};
        if n.None? || n.value < blocks[h].number {
          n := Some(blocks[h].number);
        }
      }
    }

    method UpsertBlock(header: Header)
      modifies this`blocks
      ensures blocks == S.UpsertBlock(old(blocks), header)
      ensures header.hash in old(blocks) || NumberTaken(old(blocks), header.height) ==> blocks == old(blocks)
      ensures !(header.hash in old(blocks) || NumberTaken(old(blocks), header.height)) ==>
        blocks == old(blocks)[header.hash := BlockRow(header.height, header.previous)]
    {
      if header.hash !in blocks && !NumberTaken(blocks, header.height) {
        blocks := blocks[header.hash := BlockRow(header.height, header.previous)];
      }
    }

    method UpsertTransaction(txid: Txid, hash: Hash, index: nat, isCoinbase: bool) returns (r: Outcome)
      modifies this`txs
      ensures r == if hash in blocks then Pass else Fail(ForeignKey)
      ensures txs == if r.Pass? then S.UpsertTransaction(old(txs), txid, hash, index, isCoinbase) else old(txs)
      ensures r.Pass? && txid !in old(txs) ==> txs == old(txs)[txid := TxRow(hash, index, isCoinbase)]
      ensures r.Pass? && txid in old(txs) ==> txs == old(txs)[txid := old(txs)[txid].(blockHash := hash)]
    {
      if hash !in blocks {
        return Fail(ForeignKey);
      }
      if txid in txs {
        txs := txs[txid := txs[txid].(blockHash := hash)];
      } else {
        txs := txs[txid := TxRow(hash, index, isCoinbase)];
      }
      return Pass;
    }

    method CreateUtxo(owner: Address, id: OutPoint, amount: nat, height: nat) returns (r: Outcome)
      modifies this`utxos
      ensures r ==
        if id in old(utxos) then Fail(UniqueViolation) else if id.txid !in txs then Fail(ForeignKey) else Pass
      ensures utxos == if r.Pass? then old(utxos)[id := UtxoRow(owner, amount, height, None)] else old(utxos)
    {
      if id in utxos {
        return Fail(UniqueViolation);
      }
      if id.txid !in txs {
        return Fail(ForeignKey);
      }
      utxos := utxos[id := UtxoRow(owner, amount, height, None)];
      return Pass;
    }

    /** Overwrites whatever `spentBlock` the row has: the statement has no null check. */
    method SpendUtxo(id: OutPoint, height: nat) returns (r: Outcome)
      modifies this`utxos
      ensures r == if id in old(utxos) then Pass else Fail(RowsAffected)
      ensures utxos == if r.Pass? then old(utxos)[id := SetSpent(old(utxos)[id], height)] else old(utxos)
    {
      if id !in utxos {
        return Fail(RowsAffected);
      }
      utxos := utxos[id := SetSpent(utxos[id], height)];
      return Pass;
    }

    method DeleteBlocksSince(n: nat)
      modifies this
      ensures View() == S.DeleteBlocksSince(old(View()), n)
      ensures forall h :: Lookup(blocks, h) == if BlockGone(old(View()), n, h) then None else Lookup(old(blocks), h)
      ensures forall x :: Lookup(txs, x) == if TxGone(old(View()), n, x) then None else Lookup(old(txs), x)
      ensures forall o :: Lookup(utxos, o) == if TxGone(old(View()), n, o.txid) then None else Lookup(old(utxos), o)
    {
      var gone := set h | h in blocks && blocks[h].number >= n;
      var goneTxs := set x | x in txs && txs[x].blockHash in gone;
      utxos := map o | o in utxos && o.txid !in goneTxs :: utxos[o];
      txs := txs - goneTxs;
      blocks := blocks - gone;
    }

    method UnspendUtxosSpentSince(n: nat)
      modifies this`utxos
      ensures utxos == UnspendSince(old(utxos), n)
      ensures utxos.Keys == old(utxos).Keys
      ensures forall o | o in utxos :: if SpentSince(old(utxos)[o], n)
        then utxos[o].spentBlock.None? && utxos[o].(spentBlock := old(utxos)[o].spentBlock) == old(utxos)[o]
        else utxos[o] == old(utxos)[o]
    {
      utxos := UnspendSince(utxos, n);
    }

    method Rollback(saved: Tables)
      modifies this
      ensures View() == saved
    {
      blocks, txs, utxos := saved.blocks, saved.txs, saved.utxos;
    }
  }
}
