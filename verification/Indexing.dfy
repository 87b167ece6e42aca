/** What indexing one block means: when it succeeds, the tables it leaves, and the net events it sends. */
module Indexing {
  import opened Types
  import opened Schema

  // ---- the tables ----

  /** The outpoints referenced by the first `k` transactions. */
  function Inputs(txs: seq<Tx>, k: nat): set<OutPoint>
    requires k <= |txs|
  {
    if k == 0 then {} else Inputs(txs, k - 1) + InputSet(txs[k - 1].inputs)
  }

  function InputSet(inputs: seq<OutPoint>): set<OutPoint> {
    set o | o in inputs
  }

  /** The rows made by the first `v` outputs of `tx`; only taproot outputs make one. */
  function Outputs(tx: Tx, v: nat, height: nat): Utxos
    requires v <= |tx.outputs|
  {
    if v == 0 then map[]
    else
      var rows := Outputs(tx, v - 1, height);
      match tx.outputs[v - 1].owner
      case None => rows
      case Some(a) => rows[OutPoint(tx.txid, v - 1) := UtxoRow(a, tx.outputs[v - 1].amount, height, None)]
  }

  /** The rows made by the first `k` transactions. */
  function Created(txs: seq<Tx>, k: nat, height: nat): Utxos
    requires k <= |txs|
  {
    if k == 0 then map[] else Created(txs, k - 1, height) + AllOutputs(txs[k - 1], height)
  }

  function AllOutputs(tx: Tx, height: nat): Utxos {
    Outputs(tx, |tx.outputs|, height)
  }

  /** The UTXO table once the unspent rows among `seen` are spent at `height` and `created` is added. */
  function Apply(utxos: Utxos, seen: set<OutPoint>, created: Utxos, height: nat)
    : Utxos
  {
    (map o | o in utxos :: if o in seen && utxos[o].spentBlock.None? then SetSpent(utxos[o], height) else utxos[o])
    + created
  }

  /** The UTXO table after the first `k` transactions of `b`. */
  function Partway(utxos: Utxos, b: Block, k: nat): Utxos
    requires k <= |b.txs|
  {
    Apply(utxos, Inputs(b.txs, k), Created(b.txs, k, b.header.height), b.header.height)
  }

  /** The transactions table after the first `k` transactions are stored. */
  function Stored(rows: map<Txid, TxRow>, hash: Hash, txs: seq<Tx>, k: nat): map<Txid, TxRow>
    requires k <= |txs|
  {
    if k == 0 then rows
    else UpsertTransaction(Stored(rows, hash, txs, k - 1), txs[k - 1].txid, hash, k - 1, txs[k - 1].isCoinbase)
  }

  /** Transaction `k` makes only rows that are new. */
  predicate CanCreate(utxos: Utxos, b: Block, k: nat)
    requires k < |b.txs|
  {
    var made := AllOutputs(b.txs[k], b.header.height).Keys;
    made !! utxos.Keys && made !! Created(b.txs, k, b.header.height).Keys
  }

  predicate CanCreateUpTo(utxos: Utxos, b: Block, k: nat)
    requires k <= |b.txs|
  {
    k == 0 || (CanCreateUpTo(utxos, b, k - 1) && CanCreate(utxos, b, k - 1))
  }

  /** The block's header can be stored: its time is valid, and its transactions find a block row. */
  predicate HeaderFits(t: Tables, b: Block) {
    b.header.timeValid && (b.txs == [] || b.header.hash in UpsertBlock(t.blocks, b.header))
  }

  /** Exactly the blocks that index without an error. */
  predicate CanIndex(t: Tables, b: Block) {
    HeaderFits(t, b) && CanCreateUpTo(t.utxos, b, |b.txs|)
  }

  /** How many of the first `k` transactions pass before one fails to create its rows. */
  function Creatable(utxos: Utxos, b: Block, k: nat): (n: nat)
    requires k <= |b.txs|
    ensures n <= k && CanCreateUpTo(utxos, b, n)
    ensures n < k ==> !CanCreate(utxos, b, n)
  {
    if k == 0 then 0
    else
      var n := Creatable(utxos, b, k - 1);
      if n == k - 1 && CanCreate(utxos, b, n) then k else n
  }

  /** How many transactions of `b` pass, and so send their events, whether or not the whole block does. */
  function Passing(t: Tables, b: Block): (n: nat)
    ensures n <= |b.txs| && CanCreateUpTo(t.utxos, b, n)
    ensures CanIndex(t, b) ==> n == |b.txs|
    ensures HeaderFits(t, b) && !CanIndex(t, b) ==> n < |b.txs| && !CanCreate(t.utxos, b, n)
    ensures !HeaderFits(t, b) ==> n == 0
  {
    if HeaderFits(t, b) then
      assert CanIndex(t, b) ==> Creatable(t.utxos, b, |b.txs|) == |b.txs| by {
        if Creatable(t.utxos, b, |b.txs|) < |b.txs| && CanIndex(t, b) {
          CanCreatePrefix(t.utxos, b, Creatable(t.utxos, b, |b.txs|), |b.txs|);
        }
      }
      Creatable(t.utxos, b, |b.txs|)
    else 0
  }

  /** The tables after indexing `b`. */
  function Indexed(t: Tables, b: Block): Tables {
    Tables(
      UpsertBlock(t.blocks, b.header),
      Stored(t.txs, b.header.hash, b.txs, |b.txs|),
      Partway(t.utxos, b, |b.txs|))
  }

  // ---- the events ----

  /** Input `j` of transaction `k` takes a row: it was there before the block, unspent, and not asked for earlier. */
  predicate TakesRow(utxos: Utxos, txs: seq<Tx>, k: nat, j: nat)
    requires k < |txs| && j < |txs[k].inputs|
  {
    var o := txs[k].inputs[j];
    && o in utxos
    && utxos[o].spentBlock.None?
    && o !in Inputs(txs, k)
    && o !in txs[k].inputs[..j]
  }

  /** What the first `j` inputs of transaction `k` take from address `a`. */
  function Taken(utxos: Utxos, txs: seq<Tx>, k: nat, j: nat, a: Address): nat
    requires k < |txs| && j <= |txs[k].inputs|
  {
    if j == 0 then 0
    else
      Taken(utxos, txs, k, j - 1, a)
      + if TakesRow(utxos, txs, k, j - 1) && utxos[txs[k].inputs[j - 1]].owner == a
        then utxos[txs[k].inputs[j - 1]].amount else 0
  }

  /** What the first `v` outputs of `tx` give to address `a`. */
  function Given(tx: Tx, v: nat, a: Address): nat
    requires v <= |tx.outputs|
  {
    if v == 0 then 0
    else Given(tx, v - 1, a) + if tx.outputs[v - 1].owner == Some(a) then tx.outputs[v - 1].amount else 0
  }

  /** The net change of address `a` in transaction `k`. */
  function Net(utxos: Utxos, txs: seq<Tx>, k: nat, a: Address): int
    requires k < |txs|
  {
    Given(txs[k], |txs[k].outputs|, a) - Taken(utxos, txs, k, |txs[k].inputs|, a)
  }

  function NetEvent(height: nat, tx: Tx, a: Address, amount: int): Event {
    Event(height, tx.txid, a, amount, if amount > 0 then Receive else Send, tx.isCoinbase)
  }

  /** The messages of transaction `k` when its addresses come out of the hash map in the order `order`. */
  function TxMsgs(utxos: Utxos, b: Block, k: nat, order: seq<Address>): seq<Msg>
    requires k < |b.txs|
  {
    seq(|order|, i requires 0 <= i < |order| =>
      EventMsg(NetEvent(b.header.height, b.txs[k], order[i], Net(utxos, b.txs, k, order[i]))))
  }

  /** `order` lists every address with a non-zero net change, once. */
  ghost predicate ValidOrder(utxos: Utxos, b: Block, k: nat, order: seq<Address>)
    requires k < |b.txs|
  {
    NoDuplicates(order) && forall a: Address :: a in order <==> Net(utxos, b.txs, k, a) != 0
  }

  ghost predicate ValidOrders(utxos: Utxos, b: Block, orders: BlockOrder) {
    |orders| <= |b.txs| && forall k | 0 <= k < |orders| :: ValidOrder(utxos, b, k, orders[k])
  }

  /** The messages of the first `|orders|` transactions. */
  function BlockMsgs(utxos: Utxos, b: Block, orders: BlockOrder): seq<Msg>
    requires |orders| <= |b.txs|
  {
    if orders == [] then []
    else
      var k := |orders| - 1;
      BlockMsgs(utxos, b, orders[..k]) + TxMsgs(utxos, b, k, orders[k])
  }

  // ---- several blocks ----

  /** The tables after indexing the first `k` of `bs` in the order given. */
  function IndexUpTo(t: Tables, bs: seq<Block>, k: nat): Tables
    requires k <= |bs|
  {
    if k == 0 then t else Indexed(IndexUpTo(t, bs, k - 1), bs[k - 1])
  }

  function IndexAll(t: Tables, bs: seq<Block>): Tables {
    IndexUpTo(t, bs, |bs|)
  }

  predicate CanIndexUpTo(t: Tables, bs: seq<Block>, k: nat)
    requires k <= |bs|
  {
    k == 0 || (CanIndexUpTo(t, bs, k - 1) && CanIndex(IndexUpTo(t, bs, k - 1), bs[k - 1]))
  }

  predicate CanIndexAll(t: Tables, bs: seq<Block>) {
    CanIndexUpTo(t, bs, |bs|)
  }

  /** How many of the first `k` blocks index before one fails. */
  function Fitting(t: Tables, bs: seq<Block>, k: nat): (n: nat)
    requires k <= |bs|
    ensures n <= k
  {
    if k == 0 then 0
    else
      var n := Fitting(t, bs, k - 1);
      if n == k - 1 && CanIndex(IndexUpTo(t, bs, n), bs[n]) then k else n
  }

  lemma {:induction false} FittingMeans(t: Tables, bs: seq<Block>, k: nat)
    requires k <= |bs|
    ensures CanIndexUpTo(t, bs, Fitting(t, bs, k))
    ensures Fitting(t, bs, k) < k ==> !CanIndex(IndexUpTo(t, bs, Fitting(t, bs, k)), bs[Fitting(t, bs, k)])
  {
    hide CanIndex, IndexUpTo;
    if k == 0 {
    } else {
      FittingMeans(t, bs, k - 1);
    }
  }

  ghost predicate ValidAllOrders(t: Tables, bs: seq<Block>, orders: seq<BlockOrder>) {
    orders == [] ||
    var i := |orders| - 1;
    && i < |bs|
    && ValidAllOrders(t, bs, orders[..i])
    && ValidOrders(IndexUpTo(t, bs, i).utxos, bs[i], orders[i])
  }

  /** Each block tried so far sent the events of the transactions that pass. */
  ghost predicate PassingOrders(t: Tables, bs: seq<Block>, orders: seq<BlockOrder>) {
    |orders| <= |bs| && forall i | 0 <= i < |orders| :: |orders[i]| == Passing(IndexUpTo(t, bs, i), bs[i])
  }

  /** How many blocks of a fork are tried: up to the failing one, or all. */
  function Tried(t: Tables, bs: seq<Block>): (n: nat)
    ensures n <= |bs|
  {
    var n := Fitting(t, bs, |bs|);
    if n < |bs| then n + 1 else n
  }

  /** The orders of a fork as far as it was tried. */
  ghost predicate TriedOrders(t: Tables, bs: seq<Block>, orders: seq<BlockOrder>) {
    |orders| == Tried(t, bs) && PassingOrders(t, bs, orders)
  }

  /** Every transaction of the first `|orders|` blocks has its order. */
  ghost predicate FullOrders(bs: seq<Block>, orders: seq<BlockOrder>) {
    |orders| <= |bs| && forall i | 0 <= i < |orders| :: |orders[i]| == |bs[i].txs|
  }

  /** The messages of `bs`, given the hash-map orders of each block. */
  ghost function AllMsgs(t: Tables, bs: seq<Block>, orders: seq<BlockOrder>): seq<Msg>
    requires ValidAllOrders(t, bs, orders)
  {
    if orders == [] then []
    else
      var i := |orders| - 1;
      AllMsgs(t, bs, orders[..i]) + BlockMsgs(IndexUpTo(t, bs, i).utxos, bs[i], orders[i])
  }

  lemma NothingIndexed(t: Tables, bs: seq<Block>)
    ensures IndexUpTo(t, bs, 0) == t && CanIndexUpTo(t, bs, 0)
    ensures ValidAllOrders(t, bs, []) && FullOrders(bs, []) && PassingOrders(t, bs, []) && AllMsgs(t, bs, []) == []
  {
  }

  lemma OneMoreIndexed(t: Tables, bs: seq<Block>, k: nat)
    requires k < |bs|
    ensures IndexUpTo(t, bs, k + 1) == Indexed(IndexUpTo(t, bs, k), bs[k])
    ensures CanIndexUpTo(t, bs, k + 1) <==> CanIndexUpTo(t, bs, k) && CanIndex(IndexUpTo(t, bs, k), bs[k])
  {
  }

  lemma OrdersSnoc(t: Tables, bs: seq<Block>, orders: seq<BlockOrder>, order: BlockOrder)
    requires |orders| < |bs| && ValidAllOrders(t, bs, orders)
    requires ValidOrders(IndexUpTo(t, bs, |orders|).utxos, bs[|orders|], order)
    ensures ValidAllOrders(t, bs, orders + [order])
    ensures AllMsgs(t, bs, orders + [order])
         == AllMsgs(t, bs, orders) + BlockMsgs(IndexUpTo(t, bs, |orders|).utxos, bs[|orders|], order)
    ensures FullOrders(bs, orders) && |order| == |bs[|orders|].txs| ==> FullOrders(bs, orders + [order])
    ensures PassingOrders(t, bs, orders) && |order| == Passing(IndexUpTo(t, bs, |orders|), bs[|orders|]) ==>
      PassingOrders(t, bs, orders + [order])
  {
    hide ValidOrders, BlockMsgs, Indexed, IndexUpTo, Passing;
    assert (orders + [order])[..|orders|] == orders;
    PassingSnoc(t, bs, orders, order);
    hide PassingOrders;
  }

  lemma PassingSnoc(t: Tables, bs: seq<Block>, orders: seq<BlockOrder>, order: BlockOrder)
    requires |orders| < |bs|
    ensures PassingOrders(t, bs, orders) && |order| == Passing(IndexUpTo(t, bs, |orders|), bs[|orders|]) ==>
      PassingOrders(t, bs, orders + [order])
  {
    hide Passing, IndexUpTo;
  }

  lemma {:induction false} CanIndexPrefix(t: Tables, bs: seq<Block>, k: nat, m: nat)
    requires k <= m <= |bs| && CanIndexUpTo(t, bs, m)
    ensures CanIndexUpTo(t, bs, k)
  {
    if k == m {
    } else {
      CanIndexPrefix(t, bs, k, m - 1);
    }
  }

  lemma FailsAt(t: Tables, bs: seq<Block>, n: nat)
    requires n <= |bs| && CanIndexUpTo(t, bs, n) && (n < |bs| ==> !CanIndex(IndexUpTo(t, bs, n), bs[n]))
    ensures Fitting(t, bs, |bs|) == n
    ensures Tried(t, bs) == if n < |bs| then n + 1 else n
  {
    hide CanIndex, IndexUpTo, CanIndexUpTo;
    var m := Fitting(t, bs, |bs|);
    FittingMeans(t, bs, |bs|);
    hide Fitting;
    if m < n {
      OneMoreIndexed(t, bs, m);
      CanIndexPrefix(t, bs, m + 1, n);
    } else if n < m {
      OneMoreIndexed(t, bs, n);
      CanIndexPrefix(t, bs, n + 1, m);
    }
  }

  /** The tables once everything from height `n` on is rolled back. */
  function RolledBack(t: Tables, n: nat): Tables {
    var kept := DeleteBlocksSince(t, n);
    kept.(utxos := UnspendSince(kept.utxos, n))
  }

  // ---- what the definitions say, key by key ----

  predicate Makes(tx: Tx, o: OutPoint) {
    o.txid == tx.txid && o.vout < |tx.outputs| && tx.outputs[o.vout].owner.Some?
  }

  function MadeRow(tx: Tx, o: OutPoint, height: nat): UtxoRow
    requires Makes(tx, o)
  {
    UtxoRow(tx.outputs[o.vout].owner.value, tx.outputs[o.vout].amount, height, None)
  }

  lemma {:induction false} OutputsAt(tx: Tx, v: nat, height: nat, o: OutPoint)
    requires v <= |tx.outputs|
    ensures o in Outputs(tx, v, height) <==> Makes(tx, o) && o.vout < v
    ensures o in Outputs(tx, v, height) ==> Outputs(tx, v, height)[o] == MadeRow(tx, o, height)
  {
    if v == 0 {
    } else {
      OutputsAt(tx, v - 1, height, o);
    }
  }

  lemma {:induction false} CreatedAt(txs: seq<Tx>, k: nat, height: nat, o: OutPoint)
    requires k <= |txs|
    ensures o in Created(txs, k, height) <==> exists i | 0 <= i < k :: Makes(txs[i], o)
    ensures o in Created(txs, k, height) ==>
      exists i | 0 <= i < k :: Makes(txs[i], o) && Created(txs, k, height)[o] == MadeRow(txs[i], o, height)
  {
    if k == 0 {
    } else {
      CreatedAt(txs, k - 1, height, o);
      OutputsAt(txs[k - 1], |txs[k - 1].outputs|, height, o);
    }
  }

  lemma {:induction false} InputsAt(txs: seq<Tx>, k: nat, o: OutPoint)
    requires k <= |txs|
    ensures o in Inputs(txs, k) <==> exists i | 0 <= i < k :: o in txs[i].inputs
  {
    if k == 0 {
    } else {
      InputsAt(txs, k - 1, o);
    }
  }

  /** Every stored transaction row is either an old one not mentioned by the block or points at the block. */
  lemma {:induction false} StoredAt(rows: map<Txid, TxRow>, hash: Hash, txs: seq<Tx>, k: nat, x: Txid)
    requires k <= |txs|
    ensures var s := Stored(rows, hash, txs, k);
      if exists i | 0 <= i < k :: txs[i].txid == x then x in s && s[x].blockHash == hash
      else Lookup(s, x) == Lookup(rows, x)
  {
    if k == 0 {
    } else {
      StoredAt(rows, hash, txs, k - 1, x);
    }
  }

  /** A new transaction gets its place in the block and its coinbase flag; a stored one is re-pointed and keeps both. */
  lemma {:induction false} StoredRow(rows: map<Txid, TxRow>, hash: Hash, txs: seq<Tx>, k: nat, i: nat)
    requires i < k <= |txs| && forall j | 0 <= j < i :: txs[j].txid != txs[i].txid
    ensures txs[i].txid in Stored(rows, hash, txs, k)
    ensures var row := Stored(rows, hash, txs, k)[txs[i].txid];
      if txs[i].txid in rows
      then row == TxRow(hash, rows[txs[i].txid].index, rows[txs[i].txid].isCoinbase)
      else row == TxRow(hash, i, txs[i].isCoinbase)
  {
    if k == i + 1 {
      StoredAt(rows, hash, txs, i, txs[i].txid);
    } else {
      StoredRow(rows, hash, txs, k - 1, i);
    }
  }

  lemma {:induction false} CanCreatePrefix(utxos: Utxos, b: Block, k: nat, m: nat)
    requires k <= m <= |b.txs| && CanCreateUpTo(utxos, b, m)
    ensures CanCreateUpTo(utxos, b, k)
    ensures k < m ==> CanCreate(utxos, b, k)
  {
    if k == m {
    } else {
      CanCreatePrefix(utxos, b, k, m - 1);
    }
  }

  lemma StopsAt(t: Tables, b: Block, k: nat)
    requires HeaderFits(t, b) && k < |b.txs| && CanCreateUpTo(t.utxos, b, k) && !CanCreate(t.utxos, b, k)
    ensures Passing(t, b) == k
  {
    hide CanCreate, CanCreateUpTo;
    var n := Passing(t, b);
    if n < k {
      CanCreatePrefix(t.utxos, b, n, k);
    } else if k < n {
      CanCreatePrefix(t.utxos, b, k, n);
    }
  }

  lemma {:induction false} CreatedDisjoint(utxos: Utxos, b: Block, k: nat)
    requires k <= |b.txs| && CanCreateUpTo(utxos, b, k)
    ensures Created(b.txs, k, b.header.height).Keys !! utxos.Keys
  {
    if k == 0 {
    } else {
      CreatedDisjoint(utxos, b, k - 1);
    }
  }

  /** Each taproot output of transaction `k` is new to the table and to the transactions before it. */
  ghost predicate NewOutputs(utxos: Utxos, b: Block, k: nat)
    requires k < |b.txs|
  {
    forall o | Makes(b.txs[k], o) :: o !in utxos && forall j | 0 <= j < k :: !Makes(b.txs[j], o)
  }

  lemma CreatesOneIff(utxos: Utxos, b: Block, k: nat)
    requires k < |b.txs|
    ensures CanCreate(utxos, b, k) <==> NewOutputs(utxos, b, k)
  {
    var made, before := AllOutputs(b.txs[k], b.header.height), Created(b.txs, k, b.header.height);
    forall o: OutPoint
      ensures o in made <==> Makes(b.txs[k], o)
      ensures o in before <==> exists j | 0 <= j < k :: Makes(b.txs[j], o)
    {
      OutputsAt(b.txs[k], |b.txs[k].outputs|, b.header.height, o);
      CreatedAt(b.txs, k, b.header.height, o);
    }
  }

  lemma {:induction false} CreatesIff(utxos: Utxos, b: Block, k: nat)
    requires k <= |b.txs|
    ensures CanCreateUpTo(utxos, b, k) <==> forall i | 0 <= i < k :: NewOutputs(utxos, b, i)
  {
    hide CanCreate, NewOutputs;
    if k == 0 {
    } else {
      CreatesIff(utxos, b, k - 1);
      CreatesOneIff(utxos, b, k - 1);
    }
  }

  /**
   * A block indexes exactly when its time is valid, its transactions find a block row (its own, or one stored now because
   * hash and height are free), and its taproot outputs are new.
   */
  lemma IndexesIff(t: Tables, b: Block)
    ensures CanIndex(t, b) <==>
      && b.header.timeValid
      && (b.txs == [] || b.header.hash in t.blocks || !NumberTaken(t.blocks, b.header.height))
      && forall i | 0 <= i < |b.txs| :: NewOutputs(t.utxos, b, i)
  {
    hide CanCreateUpTo, NewOutputs, NumberTaken;
    CreatesIff(t.utxos, b, |b.txs|);
  }

  // ---- what the messages say ----

  /** An event of transaction `tx` at height `height`: its fields, and an action that follows the sign of its amount. */
  ghost predicate Says(m: Msg, height: nat, tx: Tx) {
    && m.EventMsg?
    && m.event.height == height
    && m.event.txid == tx.txid
    && m.event.isCoinbase == tx.isCoinbase
    && m.event.amount != 0
    && (m.event.action == Receive <==> m.event.amount > 0)
    && (m.event.action == Send <==> m.event.amount < 0)
  }

  /** Every message of a block is an event of one of its transactions, for the net change of one address in it. */
  lemma {:induction false} BlockMsgsSay(utxos: Utxos, b: Block, orders: BlockOrder)
    requires ValidOrders(utxos, b, orders)
    ensures forall m | m in BlockMsgs(utxos, b, orders) :: exists k | 0 <= k < |orders| ::
      Says(m, b.header.height, b.txs[k]) && m.event.amount == Net(utxos, b.txs, k, m.event.address)
  {
    hide Net;
    if orders == [] {
    } else {
      var k := |orders| - 1;
      BlockMsgsSay(utxos, b, orders[..k]);
      assert ValidOrder(utxos, b, k, orders[k]);
      forall m | m in TxMsgs(utxos, b, k, orders[k])
        ensures Says(m, b.header.height, b.txs[k]) && m.event.amount == Net(utxos, b.txs, k, m.event.address)
      {
        var i :| 0 <= i < |orders[k]| && m == TxMsgs(utxos, b, k, orders[k])[i];
        assert orders[k][i] in orders[k];
      }
    }
  }

  // ---- one input or output at a time ----

  /** Spending one more outpoint changes one row, and only if the row was there and unspent. */
  lemma ApplyStep(utxos: Utxos, seen: set<OutPoint>, created: Utxos, height: nat, o: OutPoint)
    requires created.Keys !! utxos.Keys
    ensures var now := Apply(utxos, seen, created, height);
      Apply(utxos, seen + {o}, created, height)
      == if o in utxos && utxos[o].spentBlock.None? && o !in seen then now[o := SetSpent(utxos[o], height)] else now
    ensures o in utxos ==> o in Apply(utxos, seen, created, height)
    ensures o in utxos && o !in seen ==> Apply(utxos, seen, created, height)[o] == utxos[o]
  {
  }

  lemma InputStep(txs: seq<Tx>, k: nat, j: nat)
    requires k < |txs| && j < |txs[k].inputs|
    ensures Inputs(txs, k) + InputSet(txs[k].inputs[..j + 1])
         == Inputs(txs, k) + InputSet(txs[k].inputs[..j]) + {txs[k].inputs[j]}
  {
    var inputs := txs[k].inputs;
    assert inputs[..j + 1] == inputs[..j] + [inputs[j]];
  }

  lemma CreateStep(seen: set<OutPoint>, utxos: Utxos, created: Utxos, tx: Tx, v: nat,
                   height: nat)
    requires v < |tx.outputs|
    ensures Apply(utxos, seen, created + Outputs(tx, v + 1, height), height)
      == match tx.outputs[v].owner
         case None => Apply(utxos, seen, created + Outputs(tx, v, height), height)
         case Some(a) => Apply(utxos, seen, created + Outputs(tx, v, height), height)
           [OutPoint(tx.txid, v) := UtxoRow(a, tx.outputs[v].amount, height, None)]
  {
  }

  // ---- a hash map always yields its keys in some order ----

  lemma {:induction false} Listed<T>(keys: set<T>) returns (s: seq<T>)
    ensures NoDuplicates(s) && forall x :: x in s <==> x in keys
  {
    if keys == {} {
      s := [];
    } else {
      var x :| x in keys;
      s := Listed(keys - {x});
      s := s + [x];
    }
  }

  function Owners(utxos: Utxos, tx: Tx): set<Address> {
    (set o | o in utxos :: utxos[o].owner)
    + (set i | 0 <= i < |tx.outputs| && tx.outputs[i].owner.Some? :: tx.outputs[i].owner.value)
  }

  lemma {:induction false} TakenFromOwners(utxos: Utxos, txs: seq<Tx>, k: nat, j: nat, a: Address)
    requires k < |txs| && j <= |txs[k].inputs| && a !in Owners(utxos, txs[k])
    ensures Taken(utxos, txs, k, j, a) == 0
  {
    if j == 0 {
    } else {
      TakenFromOwners(utxos, txs, k, j - 1, a);
    }
  }

  lemma {:induction false} GivenToOwners(utxos: Utxos, tx: Tx, v: nat, a: Address)
    requires v <= |tx.outputs| && a !in Owners(utxos, tx)
    ensures Given(tx, v, a) == 0
  {
    if v == 0 {
    } else {
      GivenToOwners(utxos, tx, v - 1, a);
    }
  }

  lemma OrderExists(utxos: Utxos, b: Block, k: nat) returns (order: seq<Address>)
    requires k < |b.txs|
    ensures ValidOrder(utxos, b, k, order)
  {
    order := Listed(set a | a in Owners(utxos, b.txs[k]) && Net(utxos, b.txs, k, a) != 0);
    forall a: Address | a !in Owners(utxos, b.txs[k])
      ensures Net(utxos, b.txs, k, a) == 0
    {
      TakenFromOwners(utxos, b.txs, k, |b.txs[k].inputs|, a);
      GivenToOwners(utxos, b.txs[k], |b.txs[k].outputs|, a);
    }
  }

  lemma {:induction false} OrdersExist(utxos: Utxos, b: Block, n: nat) returns (orders: BlockOrder)
    requires n <= |b.txs|
    ensures |orders| == n && ValidOrders(utxos, b, orders)
  {
    hide ValidOrder;
    if n == 0 {
      orders := [];
    } else {
      var init := OrdersExist(utxos, b, n - 1);
      var order := OrderExists(utxos, b, n - 1);
      orders := init + [order];
    }
  }

  lemma {:induction false} TriedOrdersExist(t: Tables, bs: seq<Block>, k: nat) returns (orders: seq<BlockOrder>)
    requires k <= |bs|
    ensures |orders| == k && ValidAllOrders(t, bs, orders) && PassingOrders(t, bs, orders)
  {
    hide ValidOrders, Passing, IndexUpTo;
    if k == 0 {
      orders := [];
    } else {
      var init := TriedOrdersExist(t, bs, k - 1);
      var now := IndexUpTo(t, bs, k - 1);
      var order := OrdersExist(now.utxos, bs[k - 1], Passing(now, bs[k - 1]));
      OrdersSnoc(t, bs, init, order);
      orders := init + [order];
    }
  }
}
