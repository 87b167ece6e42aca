/** Values shared by the indexer: blocks as the node serves them, and the messages of the event channel. */
module Types {

  datatype Option<+T> = None | Some(value: T)

  /** The result of a step that can fail; works with `:-` like the source's `?`. */
  datatype Outcome = Pass | Fail(error: Error) {
    predicate IsFailure() {
      Fail?
    }

    function PropagateFailure(): Outcome
      requires Fail?
    {
      this
    }
  }

  datatype Error =
    | InvalidTimestamp
    | ForeignKey
    | UniqueViolation
    | RowsAffected
    | Rpc
    | Panic
    | Other

  type Hash = nat
  type Txid = nat
  type Address = nat
  type Hour = int

  datatype OutPoint = OutPoint(txid: Txid, vout: nat)

  /** `owner` is the taproot address of the script, or None when the script is not P2TR. */
  datatype TxOut = TxOut(owner: Option<Address>, amount: nat)

  datatype Tx = Tx(txid: Txid, inputs: seq<OutPoint>, outputs: seq<TxOut>, isCoinbase: bool)

  /** `timeValid` says whether the header time is representable as a timestamp. */
  datatype Header = Header(hash: Hash, previous: Option<Hash>, height: nat, timeValid: bool)

  datatype Block = Block(header: Header, txs: seq<Tx>)

  datatype Action = Send | Receive | Reorg

  datatype Event = Event(height: nat, txid: Txid, address: Address, amount: int, action: Action, isCoinbase: bool)

  datatype Msg = EventMsg(event: Event) | ReorgMsg(since: nat)

  /** For each transaction of a block, the order in which a hash map yields its addresses. */
  type BlockOrder = seq<seq<Address>>

  function Lookup<K, V>(m: map<K, V>, k: K): Option<V> {
    if k in m then Some(m[k]) else None
  }

  function GetOrZero<K>(m: map<K, int>, k: K): int {
    if k in m then m[k] else 0
  }

  ghost predicate NoDuplicates<T>(s: seq<T>) {
    forall i, j | 0 <= i < j < |s| :: s[i] != s[j]
  }
}
