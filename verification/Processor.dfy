/** The block processor: it changes the tables through the connection and sends the net events of each block. */
module Processor {
  import opened Types
  import opened Schema
  import opened Indexing
  import opened Database
  import opened Channel

  /** What is left of the relevant rows once the inputs in `seen` took theirs. */
  function Remaining(utxos: Utxos, wanted: set<OutPoint>, seen: set<OutPoint>)
    : Utxos
  {
    RelevantUtxos(utxos, wanted) - seen
  }

  lemma StartState(utxos: Utxos, b: Block, wanted: set<OutPoint>)
    ensures Remaining(utxos, wanted, Inputs(b.txs, 0)) == RelevantUtxos(utxos, wanted)
    ensures Partway(utxos, b, 0) == utxos
  {
  }

  /** Removing `o` is a hit exactly when input `j` of transaction `k` consumes its row. */
  lemma RemainingStep(utxos: Utxos, txs: seq<Tx>, k: nat, j: nat)
    requires k < |txs| && j < |txs[k].inputs|
    ensures var o, seen := txs[k].inputs[j], Inputs(txs, k) + InputSet(txs[k].inputs[..j]);
      var rest := Remaining(utxos, Inputs(txs, |txs|), seen);
      && (o in rest <==> TakesRow(utxos, txs, k, j))
      && (o in rest ==> rest[o] == utxos[o])
      && rest - {o} == Remaining(utxos, Inputs(txs, |txs|), Inputs(txs, k) + InputSet(txs[k].inputs[..j + 1]))
      && (o !in rest ==> rest - {o} == rest)
  {
    InputStep(txs, k, j);
    InputsAt(txs, |txs|, txs[k].inputs[j]);
  }

  /** The key of output `v` is taken only by a row from before the block or from an earlier transaction. */
  lemma IdTaken(utxos: Utxos, seen: set<OutPoint>, created: Utxos, tx: Tx, v: nat, height: nat)
    requires v < |tx.outputs| && tx.outputs[v].owner.Some?
    ensures var id := OutPoint(tx.txid, v);
      && id in AllOutputs(tx, height)
      && id !in Outputs(tx, v, height)
      && (id in Apply(utxos, seen, created + Outputs(tx, v, height), height) <==> id in utxos || id in created)
  {
    OutputsAt(tx, v, height, OutPoint(tx.txid, v));
    OutputsAt(tx, |tx.outputs|, height, OutPoint(tx.txid, v));
  }

  /** It passes exactly on the blocks `CanIndex` accepts. */
  function ProcessOutcome(t: Tables, b: Block): (r: Outcome)
    ensures r.Pass? <==> CanIndex(t, b)
  {
    if !b.header.timeValid then Fail(InvalidTimestamp)
    else if !HeaderFits(t, b) then Fail(ForeignKey)
    else if !CanIndex(t, b) then Fail(UniqueViolation)
    else Pass
  }

  class Processor {
    const db: Connection
    const sender: EventChannel

    constructor (db: Connection, sender: EventChannel)
      ensures this.db == db && this.sender == sender
    {
      this.db, this.sender := db, sender;
    }

    method IsProcessed(hash: Hash) returns (found: bool)
      ensures found <==> hash in db.blocks
    {
      found := hash in db.blocks;
    }

    /** First pass: store every transaction and collect every outpoint the block refers to. */
    method StoreTransactions(block: Block) returns (r: Outcome, outpoints: seq<OutPoint>)
      modifies db`txs
      ensures r == if block.txs == [] || block.header.hash in db.blocks then Pass else Fail(ForeignKey)
      ensures r.Pass? ==> db.txs == Stored(old(db.txs), block.header.hash, block.txs, |block.txs|)
      ensures r.Pass? ==> InputSet(outpoints) == Inputs(block.txs, |block.txs|)
    {
      outpoints := [];
      for k := 0 to |block.txs|
        invariant k > 0 ==> block.header.hash in db.blocks
        invariant db.txs == Stored(old(db.txs), block.header.hash, block.txs, k)
        invariant InputSet(outpoints) == Inputs(block.txs, k)
      {
        var tx := block.txs[k];
        :- db.UpsertTransaction(tx.txid, block.header.hash, k, tx.isCoinbase);
        for j := 0 to |tx.inputs|
          invariant db.txs == Stored(old(db.txs), block.header.hash, block.txs, k + 1)
          invariant InputSet(outpoints) == Inputs(block.txs, k) + InputSet(tx.inputs[..j])
        {
          InputStep(block.txs, k, j);
          outpoints := outpoints + [tx.inputs[j]];
        }
        assert tx.inputs[..|tx.inputs|] == tx.inputs;
      }
      return Pass, outpoints;
    }

    /** The inputs of transaction `k`: each takes its relevant row, if there still is one, and marks it spent. */
    method SpendInputs(ghost utxos: Utxos, block: Block, k: nat, relevant: Utxos)
      returns (r: Outcome, rest: Utxos, balances: map<Address, int>)
      requires k < |block.txs|
      requires Created(block.txs, k, block.header.height).Keys !! utxos.Keys
      requires relevant == Remaining(utxos, Inputs(block.txs, |block.txs|), Inputs(block.txs, k))
      requires db.utxos == Partway(utxos, block, k)
      modifies db`utxos
      ensures r.Pass?
      ensures rest == Remaining(utxos, Inputs(block.txs, |block.txs|), Inputs(block.txs, k + 1))
      ensures db.utxos
           == Apply(utxos, Inputs(block.txs, k + 1), Created(block.txs, k, block.header.height), block.header.height)
      ensures forall a: Address :: GetOrZero(balances, a) == 0 - Taken(utxos, block.txs, k, |block.txs[k].inputs|, a)
    {
      hide Apply, Remaining, Created;
      var tx, height := block.txs[k], block.header.height;
      ghost var wanted, before := Inputs(block.txs, |block.txs|), Inputs(block.txs, k);
      ghost var created := Created(block.txs, k, height);
      rest, balances := relevant, map[];
      assert before + InputSet(tx.inputs[..0]) == before;
      for j := 0 to |tx.inputs|
        invariant rest == Remaining(utxos, wanted, before + InputSet(tx.inputs[..j]))
        invariant db.utxos == Apply(utxos, before + InputSet(tx.inputs[..j]), created, height)
        invariant forall a: Address :: GetOrZero(balances, a) == 0 - Taken(utxos, block.txs, k, j, a)
      {
        var o := tx.inputs[j];
        RemainingStep(utxos, block.txs, k, j);
        InputStep(block.txs, k, j);
        ApplyStep(utxos, before + InputSet(tx.inputs[..j]), created, height, o);
        if o !in rest {
          continue;
        }
        var utxo := rest[o];
        rest := rest - {o};
        r := db.SpendUtxo(o, height);
        assert r.Pass?;  // the row is still there
        balances := balances[utxo.owner := GetOrZero(balances, utxo.owner) - utxo.amount];
      }
      assert tx.inputs[..|tx.inputs|] == tx.inputs;
      return Pass, rest, balances;
    }

    /** The outputs of transaction `k`: each taproot output makes a row. */
    method CreateOutputs(ghost utxos: Utxos, block: Block, k: nat, spent: map<Address, int>)
      returns (r: Outcome, balances: map<Address, int>)
      requires k < |block.txs| && block.txs[k].txid in db.txs
      requires Created(block.txs, k, block.header.height).Keys !! utxos.Keys
      requires db.utxos
            == Apply(utxos, Inputs(block.txs, k + 1), Created(block.txs, k, block.header.height), block.header.height)
      modifies db`utxos
      ensures r == if CanCreate(utxos, block, k) then Pass else Fail(UniqueViolation)
      ensures r.Pass? ==> db.utxos == Partway(utxos, block, k + 1)
      ensures r.Pass? ==> forall a: Address :: (
           GetOrZero(balances, a) == GetOrZero(spent, a) + Given(block.txs[k], |block.txs[k].outputs|, a))
    {
      hide Apply;
      var tx, height := block.txs[k], block.header.height;
      ghost var seen, created := Inputs(block.txs, k + 1), Created(block.txs, k, height);
      balances := spent;
      assert created + Outputs(tx, 0, height) == created;
      for v := 0 to |tx.outputs|
        invariant Outputs(tx, v, height).Keys !! utxos.Keys && Outputs(tx, v, height).Keys !! created.Keys
        invariant db.utxos == Apply(utxos, seen, created + Outputs(tx, v, height), height)
        invariant forall a: Address :: GetOrZero(balances, a) == GetOrZero(spent, a) + Given(tx, v, a)
      {
        var txout := tx.outputs[v];
        CreateStep(seen, utxos, created, tx, v, height);
        if txout.owner.None? {
          continue;
        }
        var owner, id := txout.owner.value, OutPoint(tx.txid, v);
        IdTaken(utxos, seen, created, tx, v, height);
        r := db.CreateUtxo(owner, id, txout.amount, height);
        if r.Fail? {
          return;
        }
        balances := balances[owner := GetOrZero(balances, owner) + txout.amount];
      }
      return Pass, balances;
    }

    /** One event for each address whose balance changed, in whatever order the hash map yields them. */
    method SendEvents(ghost utxos: Utxos, block: Block, k: nat, balances: map<Address, int>)
      returns (ghost order: seq<Address>)
      requires k < |block.txs| && sender.Valid()
      requires forall a: Address :: GetOrZero(balances, a) == Net(utxos, block.txs, k, a)
      modifies sender`sent
      ensures sender.Valid()
      ensures ValidOrder(utxos, block, k, order)
      ensures sender.sent == old(sender.sent) + TxMsgs(utxos, block, k, order)
    {
      var rest := balances;
      order := [];
      while rest.Keys != {}
        invariant sender.Valid()
        invariant rest.Keys <= balances.Keys && forall a | a in rest :: rest[a] == balances[a]
        invariant NoDuplicates(order)
        invariant forall a: Address :: a in order <==> a in balances && a !in rest && balances[a] != 0
        invariant sender.sent == old(sender.sent) + TxMsgs(utxos, block, k, order)
        decreases rest.Keys
      {
        var a :| a in rest.Keys;
        var value := rest[a];
        rest := rest - {a};
        if value == 0 {
          continue;
        }
        var action := if value > 0 then Action.Receive else Action.Send;
        assert value == GetOrZero(balances, a);
        sender.Send(EventMsg(Event(block.header.height, block.txs[k].txid, a, value, action, block.txs[k].isCoinbase)));
        assert TxMsgs(utxos, block, k, order + [a])
            == TxMsgs(utxos, block, k, order) + [EventMsg(NetEvent(block.header.height, block.txs[k], a, value))];
        order := order + [a];
      }
    }

    /** One transaction of the second pass: its inputs, its outputs, its events. */
    method ProcessTransaction(ghost utxos: Utxos, block: Block, k: nat, relevant: Utxos)
      returns (r: Outcome, rest: Utxos, ghost order: seq<Address>)
      requires k < |block.txs| && block.txs[k].txid in db.txs && sender.Valid()
      requires Created(block.txs, k, block.header.height).Keys !! utxos.Keys
      requires relevant == Remaining(utxos, Inputs(block.txs, |block.txs|), Inputs(block.txs, k))
      requires db.utxos == Partway(utxos, block, k)
      modifies db`utxos, sender`sent
      ensures sender.Valid()
      ensures r == if CanCreate(utxos, block, k) then Pass else Fail(UniqueViolation)
      ensures r.Pass? ==> rest == Remaining(utxos, Inputs(block.txs, |block.txs|), Inputs(block.txs, k + 1))
      ensures r.Pass? ==> db.utxos == Partway(utxos, block, k + 1)
      ensures r.Pass? ==> ValidOrder(utxos, block, k, order)
      ensures sender.sent == old(sender.sent) + if r.Pass? then TxMsgs(utxos, block, k, order) else []
    {
      var balances;
      order := [];
      r, rest, balances := SpendInputs(utxos, block, k, relevant);
      r, balances := CreateOutputs(utxos, block, k, balances);
      if r.Pass? {
        order := SendEvents(utxos, block, k, balances);
      }
    }

    /**
     * Index one block. It passes exactly on the blocks `CanIndex` accepts. When it fails, the messages of the
     * transactions before the first that cannot create its rows have already been sent.
     */
    method ProcessBlock(block: Block) returns (r: Outcome, ghost orders: BlockOrder)
      requires sender.Valid()
      modifies db, sender`sent
      ensures sender.Valid()
      ensures r == ProcessOutcome(old(db.View()), block)
      ensures r.Pass? ==> db.View() == Indexed(old(db.View()), block)
      ensures |orders| == Passing(old(db.View()), block) && ValidOrders(old(db.utxos), block, orders)
      ensures sender.sent == old(sender.sent) + BlockMsgs(old(db.utxos), block, orders)
    {
      hide Partway, Remaining, Created, CanCreate, Stored, ValidOrder, TxMsgs, Passing;
      orders := [];
      ghost var start := db.View();
      ghost var utxos := db.utxos;
      var height := block.header.height;
      if !block.header.timeValid {
        return Fail(InvalidTimestamp), orders;
      }
      db.UpsertBlock(block.header);
      var outpoints;
      r, outpoints := StoreTransactions(block);
      if r.Fail? {
        return;
      }
      var relevant := RelevantUtxos(db.utxos, InputSet(outpoints));
      ghost var wanted := Inputs(block.txs, |block.txs|);
      StartState(utxos, block, wanted);
      for k := 0 to |block.txs|
        invariant sender.Valid()
        invariant db.blocks == UpsertBlock(old(db.blocks), block.header)
        invariant db.txs == Stored(old(db.txs), block.header.hash, block.txs, |block.txs|)
        invariant CanCreateUpTo(utxos, block, k)
        invariant relevant == Remaining(utxos, wanted, Inputs(block.txs, k))
        invariant db.utxos == Partway(utxos, block, k)
        invariant |orders| == k && ValidOrders(utxos, block, orders)
        invariant sender.sent == old(sender.sent) + BlockMsgs(utxos, block, orders)
      {
        CreatedDisjoint(utxos, block, k);
        StoredAt(old(db.txs), block.header.hash, block.txs, |block.txs|, block.txs[k].txid);
        ghost var order;
        r, relevant, order := ProcessTransaction(utxos, block, k, relevant);
        if r.Fail? {
          if CanCreateUpTo(utxos, block, |block.txs|) {
            CanCreatePrefix(utxos, block, k, |block.txs|);
          }
          StopsAt(start, block, k);
          return;
        }
        assert (orders + [order])[..k] == orders;
        orders := orders + [order];
      }
      return Pass, orders;
    }

    /** Index one block in a database transaction: a failure leaves every table as it was, but not the queue. */
    method Process(block: Block) returns (r: Outcome, ghost orders: BlockOrder)
      requires sender.Valid()
      modifies db, sender`sent
      ensures sender.Valid()
      ensures r == ProcessOutcome(old(db.View()), block)
      ensures db.View() == if r.Pass? then Indexed(old(db.View()), block) else old(db.View())
      ensures |orders| == Passing(old(db.View()), block) && ValidOrders(old(db.utxos), block, orders)
      ensures sender.sent == old(sender.sent) + BlockMsgs(old(db.utxos), block, orders)
    {
      var saved := db.View();
      r, orders := ProcessBlock(block);
      if r.Fail? {
        db.Rollback(saved);
      }
    }

    /** Forget everything from height `begin` on. */
    method Unwind(begin: nat)
      modifies db
      ensures db.View() == RolledBack(old(db.View()), begin)
    {
      db.DeleteBlocksSince(begin);
      db.UnspendUtxosSpentSince(begin);
    }

    /** Roll back to below the lowest fork block, announce it, then index the fork in the order given: head first. */
    method ProcessFork(fork: seq<Block>) returns (r: Outcome, ghost orders: seq<BlockOrder>)
      requires fork != [] && sender.Valid()
      modifies db, sender`sent
      ensures sender.Valid()
      ensures var base := RolledBack(old(db.View()), fork[|fork| - 1].header.height);
        && (r.Pass? <==> CanIndexAll(base, fork))
        && db.View() == (if r.Pass? then IndexAll(base, fork) else old(db.View()))
        && ValidAllOrders(base, fork, orders) && TriedOrders(base, fork, orders)
        && sender.sent == old(sender.sent) + [ReorgMsg(fork[|fork| - 1].header.height)] + AllMsgs(base, fork, orders)
    {
      hide Indexed, CanIndex, ValidOrders, BlockMsgs, RolledBack;
      hide IndexUpTo, CanIndexUpTo, ValidAllOrders, AllMsgs, Passing, PassingOrders, Tried;
      var saved := db.View();
      var begin := fork[|fork| - 1].header.height;
      ghost var base := RolledBack(saved, begin);
      Unwind(begin);
      sender.Send(ReorgMsg(begin));
      ghost var start := sender.sent;
      orders := [];
      NothingIndexed(base, fork);
      for i := 0 to |fork|
        invariant sender.Valid()
        invariant db.View() == IndexUpTo(base, fork, i)
        invariant CanIndexUpTo(base, fork, i)
        invariant i <= |fork| && |orders| == i && ValidAllOrders(base, fork, orders)
        invariant PassingOrders(base, fork, orders)
        invariant sender.sent == start + AllMsgs(base, fork, orders)
      {
        ghost var order;
        r, order := ProcessBlock(fork[i]);
        OneMoreIndexed(base, fork, i);
        OrdersSnoc(base, fork, orders, order);
        orders := orders + [order];
        if r.Fail? {
          db.Rollback(saved);
          if CanIndexAll(base, fork) {
            CanIndexPrefix(base, fork, i + 1, |fork|);
          }
          FailsAt(base, fork, i);
          return;
        }
      }
      FailsAt(base, fork, |fork|);
      return Pass, orders;
    }
  }
}
