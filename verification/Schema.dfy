/** The blocks, transactions and UTXO tables, their constraints, and the statements the indexer runs on them. */
module Schema {
  import opened Types

  datatype BlockRow = BlockRow(number: nat, previous: Option<Hash>)
  datatype TxRow = TxRow(blockHash: Hash, index: nat, isCoinbase: bool)
  datatype UtxoRow = UtxoRow(owner: Address, amount: nat, blockNumber: nat, spentBlock: Option<nat>)

  type Utxos = map<OutPoint, UtxoRow>

  /** Each table is keyed by its primary key. */
  datatype Tables = Tables(
    blocks: map<Hash, BlockRow>,
    txs: map<Txid, TxRow>,
    utxos: Utxos)

  const EMPTY := Tables(map[], map[], map[])

  predicate NumberTaken(blocks: map<Hash, BlockRow>, number: nat) {
    exists h | h in blocks :: blocks[h].number == number
  }

  /** ON CONFLICT DO NOTHING: a taken hash or a taken height leaves the table as it is, silently. */
  function UpsertBlock(blocks: map<Hash, BlockRow>, header: Header): map<Hash, BlockRow> {
    if header.hash in blocks || NumberTaken(blocks, header.height) then blocks
    else blocks[header.hash := BlockRow(header.height, header.previous)]
  }

  /** A conflict on the transaction id re-points the stored row at the new block. */
  function UpsertTransaction(txs: map<Txid, TxRow>, txid: Txid, hash: Hash, index: nat, isCoinbase: bool)
    : map<Txid, TxRow>
  {
    txs[txid := if txid in txs then txs[txid].(blockHash := hash) else TxRow(hash, index, isCoinbase)]
  }

  function SetSpent(row: UtxoRow, height: nat): UtxoRow {
    row.(spentBlock := Some(height))
  }

  function SpentSince(row: UtxoRow, n: nat): bool {
    row.spentBlock.Some? && row.spentBlock.value >= n
  }

  predicate BlockGone(t: Tables, n: nat, h: Hash) {
    h in t.blocks && t.blocks[h].number >= n
  }

  /** A transaction goes with its block, and a row with its transaction. */
  predicate TxGone(t: Tables, n: nat, x: Txid) {
    x in t.txs && BlockGone(t, n, t.txs[x].blockHash)
  }

  /** ON DELETE CASCADE from blocks to transactions to UTXOs. */
  function DeleteBlocksSince(t: Tables, n: nat): Tables {
    var gone := set h | h in t.blocks && t.blocks[h].number >= n;
    var goneTxs := set x | x in t.txs && t.txs[x].blockHash in gone;
    Tables(t.blocks - gone, t.txs - goneTxs, map o | o in t.utxos && o.txid !in goneTxs :: t.utxos[o])
  }

  function UnspendSince(utxos: Utxos, n: nat): Utxos {
    map o | o in utxos :: if SpentSince(utxos[o], n) then utxos[o].(spentBlock := None) else utxos[o]
  }

  /** The rows a block may spend: asked for by outpoint and unspent. */
  function RelevantUtxos(utxos: Utxos, wanted: set<OutPoint>): Utxos {
    map o | o in utxos && o in wanted && utxos[o].spentBlock.None? :: utxos[o]
  }
}
