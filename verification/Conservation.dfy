/** Satoshi are conserved: what a block's events say is what its UTXO table changes by. */
module Conservation {
  import opened Types
  import opened Sums
  import opened Schema
  import opened Indexing

  // ---- the two measures of the UTXO table ----

  type Measure = (OutPoint, UtxoRow) -> int

  ghost function UnspentWeight(a: Address): Measure {
    (o, r: UtxoRow) => if r.owner == a && r.spentBlock.None? then r.amount else 0
  }

  /** The balance of `a` that the UTXO endpoint adds up to. */
  ghost function Unspent(utxos: Utxos, a: Address): int {
    Total(utxos, UnspentWeight(a))
  }

  ghost function CellWeight(h: nat, a: Address): Measure {
    (o, r: UtxoRow) =>
      (if r.owner == a && r.blockNumber == h then r.amount else 0)
      - (if r.owner == a && r.spentBlock == Some(h) then r.amount else 0)
  }

  /** The net change of `a` at height `h`: what was created there minus what was spent there. */
  ghost function Cell(utxos: Utxos, h: nat, a: Address): int {
    Total(utxos, CellWeight(h, a))
  }

  // ---- the matching measures of the messages ----

  ghost function AmountWeight(a: Address): Msg -> int {
    (m: Msg) => if m.EventMsg? && m.event.address == a then m.event.amount else 0
  }

  ghost function CellAmountWeight(h: nat, a: Address): Msg -> int {
    (m: Msg) => if m.EventMsg? && m.event.height == h && m.event.address == a then m.event.amount else 0
  }

  // ---- one proof for both measures ----

  function When(on: bool, x: int): int {
    if on then x else 0
  }

  /** Spending a row through transaction `k` takes its amount out of the measure `w` when it belongs to `a`, if `on`. */
  ghost predicate SeesSpends(utxos: Utxos, b: Block, k: nat, w: Measure, a: Address, on: bool)
    requires k < |b.txs|
  {
    forall o | o in utxos && utxos[o].spentBlock.None? && o in b.txs[k].inputs ::
      w(o, SetSpent(utxos[o], b.header.height)) == w(o, utxos[o]) - When(on && utxos[o].owner == a, utxos[o].amount)
  }

  /** A row made by transaction `k` adds its amount to the measure `w` when it belongs to `a`, if `on`. */
  ghost predicate SeesOutputs(b: Block, k: nat, w: Measure, a: Address, on: bool)
    requires k < |b.txs|
  {
    forall o | Makes(b.txs[k], o) ::
      w(o, MadeRow(b.txs[k], o, b.header.height))
      == When(on && b.txs[k].outputs[o.vout].owner == Some(a), b.txs[k].outputs[o.vout].amount)
  }

  /** The sum of the net changes of `a` over the first `k` transactions. */
  function NetSum(utxos: Utxos, txs: seq<Tx>, k: nat, a: Address): int
    requires k <= |txs|
  {
    if k == 0 then 0 else NetSum(utxos, txs, k - 1, a) + Net(utxos, txs, k - 1, a)
  }

  lemma SpendSeen(utxos: Utxos, b: Block, k: nat, j: nat, w: Measure, a: Address, on: bool)
    requires k < |b.txs| && j < |b.txs[k].inputs| && SeesSpends(utxos, b, k, w, a, on) && TakesRow(utxos, b.txs, k, j)
    ensures var o := b.txs[k].inputs[j];
      w(o, SetSpent(utxos[o], b.header.height)) == w(o, utxos[o]) - When(on && utxos[o].owner == a, utxos[o].amount)
  {
  }

  lemma {:induction false} InputsTotal(utxos: Utxos, b: Block, k: nat, j: nat,
                                       w: Measure, a: Address, on: bool)
    requires k < |b.txs| && j <= |b.txs[k].inputs| && SeesSpends(utxos, b, k, w, a, on)
    requires Created(b.txs, k, b.header.height).Keys !! utxos.Keys
    ensures var created := Created(b.txs, k, b.header.height);
      Total(Apply(utxos, Inputs(b.txs, k) + InputSet(b.txs[k].inputs[..j]), created, b.header.height), w)
      == Total(Partway(utxos, b, k), w) - When(on, Taken(utxos, b.txs, k, j, a))
  {
    hide Apply, Created, Inputs, SeesSpends;
    var h, created, inputs := b.header.height, Created(b.txs, k, b.header.height), b.txs[k].inputs;
    if j == 0 {
      assert Inputs(b.txs, k) + InputSet(inputs[..0]) == Inputs(b.txs, k);
    } else {
      InputsTotal(utxos, b, k, j - 1, w, a, on);
      InputStep(b.txs, k, j - 1);
      var o, seen := inputs[j - 1], Inputs(b.txs, k) + InputSet(inputs[..j - 1]);
      ApplyStep(utxos, seen, created, h, o);
      if TakesRow(utxos, b.txs, k, j - 1) {
        SpendSeen(utxos, b, k, j - 1, w, a, on);
        TotalUpdate(Apply(utxos, seen, created, h), o, SetSpent(utxos[o], h), w);
      }
    }
  }

  lemma OutputIsNew(utxos: Utxos, seen: set<OutPoint>, b: Block, k: nat, v: nat)
    requires k < |b.txs| && v < |b.txs[k].outputs| && b.txs[k].outputs[v].owner.Some? && CanCreate(utxos, b, k)
    ensures OutPoint(b.txs[k].txid, v) !in
      Apply(utxos, seen, Created(b.txs, k, b.header.height) + Outputs(b.txs[k], v, b.header.height), b.header.height)
  {
    OutputsAt(b.txs[k], v, b.header.height, OutPoint(b.txs[k].txid, v));
    OutputsAt(b.txs[k], |b.txs[k].outputs|, b.header.height, OutPoint(b.txs[k].txid, v));
  }

  lemma OutputSeen(b: Block, k: nat, v: nat, w: Measure, a: Address, on: bool)
    requires k < |b.txs| && v < |b.txs[k].outputs| && SeesOutputs(b, k, w, a, on) && b.txs[k].outputs[v].owner.Some?
    ensures var txout := b.txs[k].outputs[v];
      w(OutPoint(b.txs[k].txid, v), UtxoRow(txout.owner.value, txout.amount, b.header.height, None))
      == When(on && txout.owner.value == a, txout.amount)
  {
    assert Makes(b.txs[k], OutPoint(b.txs[k].txid, v));
  }

  lemma {:induction false} OutputsTotal(utxos: Utxos, seen: set<OutPoint>, b: Block, k: nat, v: nat,
                                        w: Measure, a: Address, on: bool)
    requires k < |b.txs| && v <= |b.txs[k].outputs| && SeesOutputs(b, k, w, a, on)
    requires CanCreate(utxos, b, k)
    ensures var created := Created(b.txs, k, b.header.height);
      Total(Apply(utxos, seen, created + Outputs(b.txs[k], v, b.header.height), b.header.height), w)
      == Total(Apply(utxos, seen, created, b.header.height), w) + When(on, Given(b.txs[k], v, a))
  {
    hide Apply, Created, CanCreate, SeesOutputs;
    var h, created, tx := b.header.height, Created(b.txs, k, b.header.height), b.txs[k];
    if v == 0 {
      assert created + Outputs(tx, 0, h) == created;
    } else {
      OutputsTotal(utxos, seen, b, k, v - 1, w, a, on);
      CreateStep(seen, utxos, created, tx, v - 1, h);
      if tx.outputs[v - 1].owner.Some? {
        OutputIsNew(utxos, seen, b, k, v - 1);
        OutputSeen(b, k, v - 1, w, a, on);
        TotalUpdate(Apply(utxos, seen, created + Outputs(tx, v - 1, h), h), OutPoint(tx.txid, v - 1),
                    UtxoRow(tx.outputs[v - 1].owner.value, tx.outputs[v - 1].amount, h, None), w);
      }
    }
  }

  /** One transaction moves the measure by what it gives and takes, as far as the measure sees it. */
  lemma TxTotal(utxos: Utxos, b: Block, k: nat, w: Measure, a: Address, ins: bool, outs: bool)
    requires k < |b.txs| && CanCreateUpTo(utxos, b, k) && CanCreate(utxos, b, k)
    requires SeesSpends(utxos, b, k, w, a, ins) && SeesOutputs(b, k, w, a, outs)
    ensures Total(Partway(utxos, b, k + 1), w) == Total(Partway(utxos, b, k), w)
      + When(outs, Given(b.txs[k], |b.txs[k].outputs|, a)) - When(ins, Taken(utxos, b.txs, k, |b.txs[k].inputs|, a))
  {
    hide Apply;
    var inputs := b.txs[k].inputs;
    CreatedDisjoint(utxos, b, k);
    InputsTotal(utxos, b, k, |inputs|, w, a, ins);
    assert inputs[..|inputs|] == inputs;
    OutputsTotal(utxos, Inputs(b.txs, k + 1), b, k, |b.txs[k].outputs|, w, a, outs);
  }

  lemma NetParts(utxos: Utxos, b: Block, k: nat, a: Address)
    requires k < |b.txs|
    ensures Net(utxos, b.txs, k, a)
         == Given(b.txs[k], |b.txs[k].outputs|, a) - Taken(utxos, b.txs, k, |b.txs[k].inputs|, a)
  {
  }

  lemma {:induction false} BlockTotal(utxos: Utxos, b: Block, k: nat,
                                      w: Measure, a: Address, on: bool)
    requires k <= |b.txs| && CanCreateUpTo(utxos, b, k)
    requires forall i | 0 <= i < k :: SeesSpends(utxos, b, i, w, a, on) && SeesOutputs(b, i, w, a, on)
    ensures Total(Partway(utxos, b, k), w) == Total(utxos, w) + When(on, NetSum(utxos, b.txs, k, a))
  {
    hide SeesSpends, SeesOutputs, CanCreate, Net;
    if k == 0 {
      assert Partway(utxos, b, 0) == utxos;
    } else {
      hide Partway;
      BlockTotal(utxos, b, k - 1, w, a, on);
      TxTotal(utxos, b, k - 1, w, a, on, on);
      NetParts(utxos, b, k - 1, a);
    }
  }

  // ---- the messages of a block ----

  /** The measure `w` sees exactly the amounts for `a` among the events of transaction `tx` at height `h`, if `on`. */
  ghost predicate SeesEvents(w: Msg -> int, h: nat, tx: Tx, a: Address, on: bool) {
    forall owner: Address, amount: int :: w(EventMsg(NetEvent(h, tx, owner, amount))) == When(on && owner == a, amount)
  }

  lemma {:induction false} TxMsgsSum(utxos: Utxos, b: Block, k: nat, order: seq<Address>,
                                     w: Msg -> int, a: Address, on: bool)
    requires k < |b.txs| && NoDuplicates(order) && SeesEvents(w, b.header.height, b.txs[k], a, on)
    ensures SeqSum(TxMsgs(utxos, b, k, order), w) == When(on && a in order, Net(utxos, b.txs, k, a))
  {
    hide Net;
    if order == [] {
    } else {
      var init, last := order[..|order| - 1], order[|order| - 1];
      TxMsgsSum(utxos, b, k, init, w, a, on);
      var m := EventMsg(NetEvent(b.header.height, b.txs[k], last, Net(utxos, b.txs, k, last)));
      assert TxMsgs(utxos, b, k, order) == TxMsgs(utxos, b, k, init) + [m];
      SeqSumSnoc(TxMsgs(utxos, b, k, init), m, w);
      assert order == init + [last];
    }
  }

  lemma {:induction false} BlockMsgsSum(utxos: Utxos, b: Block, orders: BlockOrder,
                                        w: Msg -> int, a: Address, on: bool)
    requires ValidOrders(utxos, b, orders)
    requires forall k | 0 <= k < |orders| :: SeesEvents(w, b.header.height, b.txs[k], a, on)
    ensures SeqSum(BlockMsgs(utxos, b, orders), w) == When(on, NetSum(utxos, b.txs, |orders|, a))
  {
    hide Net, TxMsgs;
    if orders == [] {
    } else {
      var k := |orders| - 1;
      assert ValidOrder(utxos, b, k, orders[k]);
      BlockMsgsSum(utxos, b, orders[..k], w, a, on);
      TxMsgsSum(utxos, b, k, orders[k], w, a, on);
      SeqSumConcat(BlockMsgs(utxos, b, orders[..k]), TxMsgs(utxos, b, k, orders[k]), w);
    }
  }

  // ---- the theorems ----

  /** For every address, the events of an indexed block add up to the change of its unspent total. */
  lemma BlockConservesBalance(t: Tables, b: Block, orders: BlockOrder, a: Address)
    requires CanIndex(t, b) && ValidOrders(t.utxos, b, orders) && |orders| == |b.txs|
    ensures SeqSum(BlockMsgs(t.utxos, b, orders), AmountWeight(a))
         == Unspent(Indexed(t, b).utxos, a) - Unspent(t.utxos, a)
  {
    BlockTotal(t.utxos, b, |b.txs|, UnspentWeight(a), a, true);
    BlockMsgsSum(t.utxos, b, orders, AmountWeight(a), a, true);
  }

  /** The same height by height: only the block's own height changes. */
  lemma BlockConservesCells(t: Tables, b: Block, orders: BlockOrder, h: nat, a: Address)
    requires CanIndex(t, b) && ValidOrders(t.utxos, b, orders) && |orders| == |b.txs|
    ensures SeqSum(BlockMsgs(t.utxos, b, orders), CellAmountWeight(h, a))
         == Cell(Indexed(t, b).utxos, h, a) - Cell(t.utxos, h, a)
  {
    var on := h == b.header.height;
    BlockTotal(t.utxos, b, |b.txs|, CellWeight(h, a), a, on);
    BlockMsgsSum(t.utxos, b, orders, CellAmountWeight(h, a), a, on);
  }
}
