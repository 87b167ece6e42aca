/** Where the indexer leaves Bitcoin's own ledger: spends of an output made earlier in the same block are not seen. */
module Ledger {
  import opened Types
  import opened Schema
  import opened Indexing
  import opened Integrity
  import opened Sums
  import opened Conservation
  import opened Replay

  /** Bitcoin's rule, one transaction at a time: each sees the outputs of the ones before it. */
  function Sequential(utxos: Utxos, b: Block, k: nat): Utxos
    requires k <= |b.txs|
  {
    if k == 0 then utxos
    else
      var tx := b.txs[k - 1];
      Apply(Sequential(utxos, b, k - 1), InputSet(tx.inputs), AllOutputs(tx, b.header.height), b.header.height)
  }

  /** A transaction below `k` spends a taproot output of an earlier transaction of the block. */
  ghost predicate SpentInside(b: Block, k: nat, o: OutPoint)
    requires k <= |b.txs|
  {
    exists i, j | 0 <= i < j < k :: o in AllOutputs(b.txs[i], b.header.height) && o in b.txs[j].inputs
  }

  ghost predicate SpendsItself(b: Block) {
    exists o :: SpentInside(b, |b.txs|, o)
  }

  lemma {:induction false} MadeByOne(b: Block, k: nat, o: OutPoint)
    requires k <= |b.txs|
    ensures o in Created(b.txs, k, b.header.height)
       <==> exists i | 0 <= i < k :: o in AllOutputs(b.txs[i], b.header.height)
  {
    if k == 0 {
    } else {
      MadeByOne(b, k - 1, o);
    }
  }

  lemma SpentInsideStep(b: Block, k: nat, o: OutPoint)
    requires 0 < k <= |b.txs|
    ensures SpentInside(b, k, o) <==> (SpentInside(b, k - 1, o)
      || (o in Created(b.txs, k - 1, b.header.height) && o in b.txs[k - 1].inputs))
  {
    MadeByOne(b, k - 1, o);
    if SpentInside(b, k, o) {
      var i, j :| 0 <= i < j < k && o in AllOutputs(b.txs[i], b.header.height) && o in b.txs[j].inputs;
      if j < k - 1 {
        assert SpentInside(b, k - 1, o);
      }
    }
    if o in Created(b.txs, k - 1, b.header.height) && o in b.txs[k - 1].inputs {
      var i :| 0 <= i < k - 1 && o in AllOutputs(b.txs[i], b.header.height);
    }
  }

  lemma ApplyAt(utxos: Utxos, seen: set<OutPoint>, created: Utxos, h: nat, o: OutPoint)
    ensures Lookup(Apply(utxos, seen, created, h), o)
      == if o in created then Some(created[o])
         else if o in utxos && o in seen && utxos[o].spentBlock.None? then Some(SetSpent(utxos[o], h))
         else Lookup(utxos, o)
  {
  }

  /** The row of `o` under Bitcoin's rule after the first `k` transactions. */
  ghost function LedgerRow(utxos: Utxos, b: Block, k: nat, o: OutPoint): Option<UtxoRow>
    requires k <= |b.txs|
  {
    var h, made := b.header.height, Created(b.txs, k, b.header.height);
    if o in utxos then
      Some(if o in Inputs(b.txs, k) && utxos[o].spentBlock.None? then SetSpent(utxos[o], h) else utxos[o])
    else if o in made then Some(if SpentInside(b, k, o) then SetSpent(made[o], h) else made[o])
    else None
  }

  lemma {:induction false} SequentialAt(utxos: Utxos, b: Block, k: nat, o: OutPoint)
    requires k <= |b.txs| && CanCreateUpTo(utxos, b, k)
    ensures Lookup(Sequential(utxos, b, k), o) == LedgerRow(utxos, b, k, o)
  {
    hide Apply, AllOutputs, SpentInside;
    if k == 0 {
    } else {
      SequentialAt(utxos, b, k - 1, o);
      ApplyAt(Sequential(utxos, b, k - 1), InputSet(b.txs[k - 1].inputs), AllOutputs(b.txs[k - 1], b.header.height),
              b.header.height, o);
      CreatedDisjoint(utxos, b, k);
      SpentInsideStep(b, k, o);
      if o in Created(b.txs, k - 1, b.header.height) {
        CreatedAt(b.txs, k - 1, b.header.height, o);
      } else {
        NotInside(b, k - 1, o);
      }
    }
  }

  lemma NotInside(b: Block, k: nat, o: OutPoint)
    requires k <= |b.txs| && o !in Created(b.txs, k, b.header.height)
    ensures !SpentInside(b, k, o)
  {
    MadeByOne(b, k, o);
  }

  lemma LedgerPoint(t: Tables, b: Block, o: OutPoint)
    requires CanIndex(t, b)
    ensures Lookup(Indexed(t, b).utxos, o) == LedgerRow(t.utxos, b, |b.txs|, o) <==> !SpentInside(b, |b.txs|, o)
  {
    hide Indexed, CanCreateUpTo, AllOutputs, SpentInside, Inputs, Created;
    UtxoAfter(t, b, o);
    CreatedDisjoint(t.utxos, b, |b.txs|);
    if o in Made(b) {
      MadeAt(b, o);
    } else {
      NotInside(b, |b.txs|, o);
    }
  }

  /**
   * The UTXO table is the one Bitcoin's rule gives exactly when no transaction of the block spends a taproot output of
   * an earlier one: relevant rows are looked up once, before the block makes any.
   */
  lemma MatchesLedgerIff(t: Tables, b: Block)
    requires CanIndex(t, b)
    ensures Indexed(t, b).utxos == Sequential(t.utxos, b, |b.txs|) <==> !SpendsItself(b)
  {
    hide Indexed, CanCreateUpTo, Sequential, LedgerRow, SpentInside;
    var stored, ideal := Indexed(t, b).utxos, Sequential(t.utxos, b, |b.txs|);
    forall o
      ensures Lookup(stored, o) == Lookup(ideal, o) <==> !SpentInside(b, |b.txs|, o)
    {
      SequentialAt(t.utxos, b, |b.txs|, o);
      LedgerPoint(t, b, o);
    }
    if !SpendsItself(b) {
      assert forall o | o in stored :: Lookup(stored, o) == Lookup(ideal, o);
      assert forall o | o in ideal :: Lookup(stored, o) == Lookup(ideal, o);
    }
  }

  // ---- by how much ----

  ghost function MissedWeight(b: Block, a: Address): Measure {
    (o: OutPoint, r: UtxoRow) => if r.owner == a && SpentInside(b, |b.txs|, o) then r.amount else 0
  }

  /** The money of `a` in outputs that the block both makes and spends. */
  ghost function Missed(t: Tables, b: Block, a: Address): int {
    Total(Indexed(t, b).utxos, MissedWeight(b, a))
  }

  ghost function SeenWeight(b: Block, a: Address): Measure {
    (o: OutPoint, r: UtxoRow) =>
      if r.owner == a && r.spentBlock.None? && !SpentInside(b, |b.txs|, o) then r.amount else 0
  }

  /** An output spent inside its own block is stored unspent, and spent under Bitcoin's rule. */
  lemma InsideRows(t: Tables, b: Block, o: OutPoint)
    requires CanIndex(t, b) && SpentInside(b, |b.txs|, o)
    ensures var h := b.header.height;
      && Lookup(Indexed(t, b).utxos, o).Some? && Lookup(Indexed(t, b).utxos, o).value.spentBlock.None?
      && Lookup(Sequential(t.utxos, b, |b.txs|), o) == Some(SetSpent(Lookup(Indexed(t, b).utxos, o).value, h))
  {
    hide Indexed, Sequential;
    UtxoAfter(t, b, o);
    SequentialAt(t.utxos, b, |b.txs|, o);
    CreatedDisjoint(t.utxos, b, |b.txs|);
    MadeByOne(b, |b.txs|, o);
    MadeAt(b, o);
  }

  /** Every address is credited with exactly what it received and spent again within the block. */
  lemma OverstatedBy(t: Tables, b: Block, a: Address)
    requires CanIndex(t, b)
    ensures Unspent(Indexed(t, b).utxos, a) == Unspent(Sequential(t.utxos, b, |b.txs|), a) + Missed(t, b, a)
  {
    hide Indexed, CanCreateUpTo, Sequential, SpentInside;
    var stored, ideal := Indexed(t, b).utxos, Sequential(t.utxos, b, |b.txs|);
    forall o
      ensures if SpentInside(b, |b.txs|, o)
        then o in stored && o in ideal && stored[o].spentBlock.None? && ideal[o].spentBlock.Some?
        else Lookup(stored, o) == Lookup(ideal, o)
    {
      if SpentInside(b, |b.txs|, o) {
        InsideRows(t, b, o);
      } else {
        SequentialAt(t.utxos, b, |b.txs|, o);
        LedgerPoint(t, b, o);
      }
    }
    TotalSplit(stored, UnspentWeight(a), SeenWeight(b, a), MissedWeight(b, a));
    forall o | o in stored.Keys + ideal.Keys
      ensures Weight(stored, SeenWeight(b, a))(o) == Weight(ideal, UnspentWeight(a))(o)
    {
      assert Lookup(stored, o) == Lookup(ideal, o) || SpentInside(b, |b.txs|, o);
    }
    TotalAgree(stored, SeenWeight(b, a), ideal, UnspentWeight(a));
  }

  // ---- over a chain ----

  /** Bitcoin's rule over the first `k` blocks. */
  function SequentialUpTo(utxos: Utxos, bs: seq<Block>, k: nat): Utxos
    requires k <= |bs|
  {
    if k == 0 then utxos else Sequential(SequentialUpTo(utxos, bs, k - 1), bs[k - 1], |bs[k - 1].txs|)
  }

  /** One of the first `k` blocks both makes and spends the output. */
  ghost predicate SpentWithin(bs: seq<Block>, k: nat, o: OutPoint)
    requires k <= |bs|
  {
    exists i | 0 <= i < k :: SpentInside(bs[i], |bs[i].txs|, o)
  }

  /** The stored row and the ledger's row of one outpoint: apart exactly when it was made and spent in one block. */
  ghost predicate Apart(stored: Option<UtxoRow>, ideal: Option<UtxoRow>, within: bool) {
    if within then stored.Some? && stored.value.spentBlock.None? && ideal.Some? && ideal.value.spentBlock.Some?
    else stored == ideal
  }

  lemma InsideIsSpent(b: Block, o: OutPoint)
    requires SpentInside(b, |b.txs|, o)
    ensures o in Made(b) && Spends(b, o)
  {
    MadeByOne(b, |b.txs|, o);
    InputsAt(b.txs, |b.txs|, o);
  }

  lemma {:induction false} CanCreateSameKeys(u: Utxos, v: Utxos, b: Block, k: nat)
    requires k <= |b.txs| && u.Keys == v.Keys && CanCreateUpTo(u, b, k)
    ensures CanCreateUpTo(v, b, k)
  {
    if k == 0 {
    } else {
      CanCreateSameKeys(u, v, b, k - 1);
    }
  }

  lemma CreatesAll(t: Tables, b: Block)
    requires CanIndex(t, b)
    ensures CanCreateUpTo(t.utxos, b, |b.txs|)
  {
  }

  /** One more block, seen by one outpoint. */
  lemma ApartStep(t: Tables, ideal: Utxos, b: Block, o: OutPoint, within: bool)
    requires CanIndex(t, b) && CanCreateUpTo(ideal, b, |b.txs|)
    requires Apart(Lookup(t.utxos, o), Lookup(ideal, o), within) && (within ==> !Spends(b, o))
    ensures Apart(Lookup(Indexed(t, b).utxos, o), Lookup(Sequential(ideal, b, |b.txs|), o),
                  within || SpentInside(b, |b.txs|, o))
  {
    hide Indexed, CanIndex, CanCreateUpTo, Sequential, AllOutputs, SpentInside, Created;
    UtxoAfter(t, b, o);
    SequentialAt(ideal, b, |b.txs|, o);
    CreatesAll(t, b);
    CreatedDisjoint(t.utxos, b, |b.txs|);
    CreatedDisjoint(ideal, b, |b.txs|);
    if SpentInside(b, |b.txs|, o) {
      InsideIsSpent(b, o);
    }
    if o in Made(b) {
      MadeAt(b, o);
    }
  }

  lemma SameKeysStep(t: Tables, ideal: Utxos, b: Block)
    requires CanIndex(t, b) && CanCreateUpTo(ideal, b, |b.txs|) && t.utxos.Keys == ideal.Keys
    ensures Indexed(t, b).utxos.Keys == Sequential(ideal, b, |b.txs|).Keys
  {
    hide Indexed, CanIndex, CanCreateUpTo, Sequential, AllOutputs, SpentInside, Created;
    forall o
      ensures o in Indexed(t, b).utxos <==> o in Sequential(ideal, b, |b.txs|)
    {
      UtxoAfter(t, b, o);
      SequentialAt(ideal, b, |b.txs|, o);
    }
  }

  lemma {:induction false} SameKeysUpTo(t: Tables, bs: seq<Block>, k: nat)
    requires k <= |bs| && CanIndexUpTo(t, bs, k)
    ensures IndexUpTo(t, bs, k).utxos.Keys == SequentialUpTo(t.utxos, bs, k).Keys
    ensures forall i | 0 <= i < k :: CanCreateUpTo(SequentialUpTo(t.utxos, bs, i), bs[i], |bs[i].txs|)
  {
    hide Indexed, Sequential, CanCreateUpTo;
    if k == 0 {
    } else {
      SameKeysUpTo(t, bs, k - 1);
      var now, ideal, b := IndexUpTo(t, bs, k - 1), SequentialUpTo(t.utxos, bs, k - 1), bs[k - 1];
      CanCreateSameKeys(now.utxos, ideal, b, |b.txs|);
      SameKeysStep(now, ideal, b);
    }
  }

  lemma {:induction false} ApartUpTo(t: Tables, bs: seq<Block>, k: nat, o: OutPoint)
    requires k <= |bs| && CanIndexUpTo(t, bs, k) && NoDoubleSpend(t, bs)
    ensures Apart(Lookup(IndexUpTo(t, bs, k).utxos, o), Lookup(SequentialUpTo(t.utxos, bs, k), o),
                  SpentWithin(bs, k, o))
  {
    hide Indexed, CanIndex, Sequential, CanCreateUpTo, SpentInside, Made, Spends, Apart, NoDoubleSpend;
    if k == 0 {
      assert Apart(Lookup(t.utxos, o), Lookup(t.utxos, o), false) by { NotApart(Lookup(t.utxos, o)); }
    } else {
      ApartUpTo(t, bs, k - 1, o);
      SameKeysUpTo(t, bs, k);
      if SpentWithin(bs, k - 1, o) {
        SpentNoMore(t, bs, k - 1, o);
      }
      ApartStep(IndexUpTo(t, bs, k - 1), SequentialUpTo(t.utxos, bs, k - 1), bs[k - 1], o, SpentWithin(bs, k - 1, o));
      assert SpentWithin(bs, k, o) <==> SpentWithin(bs, k - 1, o) || SpentInside(bs[k - 1], |bs[k - 1].txs|, o);
    }
  }

  lemma NotApart(row: Option<UtxoRow>)
    ensures Apart(row, row, false)
  {
  }

  lemma SpentNoMore(t: Tables, bs: seq<Block>, k: nat, o: OutPoint)
    requires k < |bs| && NoDoubleSpend(t, bs) && SpentWithin(bs, k, o)
    ensures !Spends(bs[k], o)
  {
    hide SpentInside, Made, Spends;
    var i :| 0 <= i < k && SpentInside(bs[i], |bs[i].txs|, o);
    InsideIsSpent(bs[i], o);
    if Spends(bs[k], o) {
      SpentTwice(t, bs, i, k, i, o);
    }
  }

  lemma SpentTwice(t: Tables, bs: seq<Block>, i: nat, k: nat, l: nat, o: OutPoint)
    requires NoDoubleSpend(t, bs) && i < k < |bs| && l < |bs| && Spends(bs[i], o) && Spends(bs[k], o)
    ensures o !in Made(bs[l])
  {
    hide Made, Spends;
    assert o !in t.utxos;
  }

  /**
   * Over any chain that spends no output twice, the UTXO table is the one Bitcoin's rule gives exactly when no block
   * spends a taproot output it makes itself.
   */
  lemma ChainMatchesLedgerIff(t: Tables, bs: seq<Block>)
    requires CanIndexAll(t, bs) && NoDoubleSpend(t, bs)
    ensures IndexAll(t, bs).utxos == SequentialUpTo(t.utxos, bs, |bs|)
       <==> forall i | 0 <= i < |bs| :: !SpendsItself(bs[i])
  {
    hide Indexed, CanIndexUpTo, IndexUpTo, SequentialUpTo, SpentInside, NoDoubleSpend;
    var stored, ideal := IndexAll(t, bs).utxos, SequentialUpTo(t.utxos, bs, |bs|);
    forall o
      ensures Apart(Lookup(stored, o), Lookup(ideal, o), SpentWithin(bs, |bs|, o))
    {
      ApartUpTo(t, bs, |bs|, o);
    }
    if forall i | 0 <= i < |bs| :: !SpendsItself(bs[i]) {
      assert forall o | o in stored :: Lookup(stored, o) == Lookup(ideal, o);
      assert forall o | o in ideal :: Lookup(stored, o) == Lookup(ideal, o);
    }
    if i :| 0 <= i < |bs| && SpendsItself(bs[i]) {
      var o :| SpentInside(bs[i], |bs[i].txs|, o);
      assert SpentWithin(bs, |bs|, o);
    }
  }

  ghost function WithinWeight(bs: seq<Block>, a: Address): Measure {
    (o: OutPoint, r: UtxoRow) => if r.owner == a && SpentWithin(bs, |bs|, o) then r.amount else 0
  }

  ghost function ElseWeight(bs: seq<Block>, a: Address): Measure {
    (o: OutPoint, r: UtxoRow) =>
      if r.owner == a && r.spentBlock.None? && !SpentWithin(bs, |bs|, o) then r.amount else 0
  }

  /** The money of `a` in outputs made and spent within one block of the chain. */
  ghost function MissedOver(t: Tables, bs: seq<Block>, a: Address): int {
    Total(IndexAll(t, bs).utxos, WithinWeight(bs, a))
  }

  /** Over such a chain, every address is credited with exactly what it received and spent again within one block. */
  lemma ChainOverstatedBy(t: Tables, bs: seq<Block>, a: Address)
    requires CanIndexAll(t, bs) && NoDoubleSpend(t, bs)
    ensures Unspent(IndexAll(t, bs).utxos, a)
         == Unspent(SequentialUpTo(t.utxos, bs, |bs|), a) + MissedOver(t, bs, a)
  {
    hide Indexed, CanIndexUpTo, IndexUpTo, SequentialUpTo, SpentWithin, NoDoubleSpend;
    var stored, ideal := IndexAll(t, bs).utxos, SequentialUpTo(t.utxos, bs, |bs|);
    forall o
      ensures Apart(Lookup(stored, o), Lookup(ideal, o), SpentWithin(bs, |bs|, o))
    {
      ApartUpTo(t, bs, |bs|, o);
    }
    forall o | o in stored
      ensures UnspentWeight(a)(o, stored[o]) == ElseWeight(bs, a)(o, stored[o]) + WithinWeight(bs, a)(o, stored[o])
    {
      assert Apart(Lookup(stored, o), Lookup(ideal, o), SpentWithin(bs, |bs|, o));
    }
    TotalSplit(stored, UnspentWeight(a), ElseWeight(bs, a), WithinWeight(bs, a));
    forall o | o in stored.Keys + ideal.Keys
      ensures Weight(stored, ElseWeight(bs, a))(o) == Weight(ideal, UnspentWeight(a))(o)
    {
      assert Apart(Lookup(stored, o), Lookup(ideal, o), SpentWithin(bs, |bs|, o));
    }
    TotalAgree(stored, ElseWeight(bs, a), ideal, UnspentWeight(a));
  }
}
