/** Inputs on which the indexer leaves the intended result; the exact conditions are proved elsewhere. */
module Counterexamples {
  import opened Types
  import opened Sums
  import opened Schema
  import opened Indexing
  import opened Integrity
  import opened Conservation
  import opened Ledger
  import opened Reorg
  import opened Replay
  import opened Aggregation
  import opened Draining
  import opened Drifting
  import opened Chain
  import opened Follower
  import opened Commands
  import opened Cooldown
  import opened Fresh
  import opened Snapshots
  import opened Regtest

  /** The blocks below are ones a Bitcoin node may serve; no coinbase among them pays to a taproot address. */
  lemma WorldFits()
    ensures BitcoinWorld(WORLD) && CoinbasesSpendNothing(WORLD) && NoTaprootCoinbases(WORLD)
  {
    hide HasTx, Spends;
    WorldIsBitcoin();
    Contents();
    hide ValidWorld, BitcoinRules;
    forall g | g in WORLD
      ensures !HasTx(WORLD[g], 0)
    {
    }
  }

  // ---- indexing ----

  /** And no output is spent twice along a branch of it. */
  lemma WorldSpendsOnce()
    ensures ValidWorld(WORLD) && NoBranchDoubleSpend(WORLD)
  {
    hide HasTx, Spends;
    Contents();
    Ancestors();
    hide AncestorAt, ValidWorld;
    forall h, k: nat, o | h in WORLD && k < WORLD[h].header.height
      && Spends(WORLD[AncestorAt(WORLD, h, k)], o) && Spends(WORLD[h], o)
      ensures Unknown(WORLD, o)
    {
      if WORLD[h].header.height == 2 && k == 1 {
        assert h in {3, 4, 6};
      } else {
        assert k == 0;
      }
      assert o == NOWHERE;
    }
  }

  lemma GenesisIndexes() returns (t: Tables)
    ensures CanIndex(EMPTY, GENESIS) && t == Indexed(EMPTY, GENESIS) && t.utxos == map[] && Referential(t)
    ensures t.blocks == map[0 := BlockRow(0, None)]
    ensures forall x | x in t.txs :: x == 1
  {
    Progress(EMPTY, GENESIS);
    t := Indexed(EMPTY, GENESIS);
    KeysAfter(EMPTY, GENESIS);
    ForeignKeysKept(EMPTY, GENESIS);
    MakesNothing(GENESIS);
    assert t.utxos.Keys == {};
    ContentsOf(GENESIS, {1}, {NOWHERE});
  }

  lemma MakesNothing(b: Block)
    requires forall i, v | 0 <= i < |b.txs| && 0 <= v < |b.txs[i].outputs| :: b.txs[i].outputs[v].owner.None?
    ensures Made(b) == map[]
  {
    forall o
      ensures o !in Made(b)
    {
      CreatedAt(b.txs, |b.txs|, b.header.height, o);
    }
  }

  lemma MakesCoin(b: Block, k: nat)
    requires k < |b.txs| && b.txs[k] == PAY
    requires forall i, v | 0 <= i < |b.txs| && i != k && 0 <= v < |b.txs[i].outputs| :: b.txs[i].outputs[v].owner.None?
    ensures forall o :: o in Made(b) <==> o == COIN
  {
    forall o
      ensures o in Made(b) <==> o == COIN
    {
      CreatedAt(b.txs, |b.txs|, b.header.height, o);
      if o == COIN {
        assert Makes(b.txs[k], o);
      }
    }
  }

  lemma PayMakesCoin(h: nat)
    ensures COIN in AllOutputs(PAY, h)
  {
    OutputsAt(PAY, 1, h, COIN);
  }

  /** The output is made and spent in one block: address 7 keeps 50 it no longer owns. */
  lemma SameBlockSpendIsMissed() returns (t: Tables)
    ensures t == Indexed(EMPTY, GENESIS) && CanIndex(t, SAME_BLOCK)
    ensures COIN in Indexed(t, SAME_BLOCK).utxos && Indexed(t, SAME_BLOCK).utxos[COIN].spentBlock.None?
    ensures Indexed(t, SAME_BLOCK).utxos != Sequential(t.utxos, SAME_BLOCK, 3)
  {
    hide Indexed, Sequential;
    t := GenesisIndexes();
    Progress(t, SAME_BLOCK);
    PayMakesCoin(1);
    assert COIN in SAME_BLOCK.txs[2].inputs && COIN in AllOutputs(SAME_BLOCK.txs[1], 1);
    assert SpentInside(SAME_BLOCK, 3, COIN);
    InsideRows(t, SAME_BLOCK, COIN);
  }

  lemma ForkOnGenesis(t: Tables)
    requires t.utxos == map[] && t.blocks == map[0 := BlockRow(0, None)] && forall x | x in t.txs :: x == 1
    ensures FreshFork(t, [HIGH, LOW]) && NoDoubleSpend(t, [HIGH, LOW]) && !NoCrossSpend([HIGH, LOW])
  {
    hide Made, Spends, HasTx;
    Contents();
    var fork := [HIGH, LOW];
    MakesCoin(LOW, 1);
    InHigh();
    forall o | o in Made(HIGH)
      ensures o.txid == 11
    {
      MadeByPassOn(o);
    }
    assert COIN in Made(fork[1]) && Spends(fork[0], COIN);
  }

  lemma InHigh()
    ensures Spends(HIGH, COIN)
  {
    assert COIN in HIGH.txs[1].inputs;
    InputsAt(HIGH.txs, 2, COIN);
  }

  lemma MadeByPassOn(o: OutPoint)
    requires o in Made(HIGH)
    ensures o.txid == 11
  {
    CreatedAt(HIGH.txs, 2, 2, o);
  }

  /** The fork of two blocks replaces an orphan; the higher spends the lower. Replayed head first, the spend is lost. */
  lemma CrossSpendIsLost()
    ensures var back := RolledBack(IndexAll(IndexAll(EMPTY, [GENESIS]), [SAME_BLOCK]), 1);
      && CanIndexAll(back, [HIGH, LOW])
      && IndexAll(back, [HIGH, LOW]) != IndexAll(EMPTY, [GENESIS] + Reversed([HIGH, LOW]))
  {
    hide Indexed, CanIndex, FreshFork, NoDoubleSpend, NoCrossSpend;
    var t := GenesisIndexes();
    OneMoreIndexed(EMPTY, [GENESIS], 0);
    assert IndexAll(EMPTY, [GENESIS]) == t;
    ForkOnGenesis(t);
    Progress(t, SAME_BLOCK);
    OneMoreIndexed(t, [SAME_BLOCK], 0);
    assert !Reuses(t, SAME_BLOCK);
    ReorgIsFreshIndexIff([GENESIS], [SAME_BLOCK], [HIGH, LOW], 1);
  }

  lemma LowIndexes() returns (t: Tables)
    ensures CanIndexAll(EMPTY, [GENESIS, LOW]) && t == IndexAll(EMPTY, [GENESIS, LOW]) && ForeignKeys(t)
    ensures t.blocks == map[0 := BlockRow(0, None), 2 := BlockRow(1, Some(0))]
    ensures forall o :: o in t.utxos <==> o == COIN
    ensures COIN in t.utxos && t.utxos[COIN] == UtxoRow(7, 50, 1, None)
    ensures PLAIN.txid in t.txs && t.txs[PLAIN.txid].blockHash == 2
    ensures Referential(t) && forall x | x in t.txs :: x in {1, 3, 10, 12}
  {
    hide Indexed, CanIndex, IndexUpTo, CanIndexUpTo, Referential, ForeignKeys;
    var g := GenesisIndexes();
    var bs := [GENESIS, LOW];
    NothingIndexed(EMPTY, bs);
    OneMoreIndexed(EMPTY, bs, 0);
    OneMoreIndexed(EMPTY, bs, 1);
    t := LowOnGenesis(g);
  }

  lemma LowIsFresh(g: Tables)
    requires Referential(g) && g.blocks == map[0 := BlockRow(0, None)] && forall x | x in g.txs :: x == 1
    ensures FreshBlock(g, LOW) && ForeignKeys(g)
  {
  }

  lemma LowOnGenesis(g: Tables) returns (t: Tables)
    requires Referential(g) && g.utxos == map[] && g.blocks == map[0 := BlockRow(0, None)]
    requires forall x | x in g.txs :: x == 1
    ensures CanIndex(g, LOW) && t == Indexed(g, LOW) && Referential(t) && ForeignKeys(t)
    ensures t.blocks == map[0 := BlockRow(0, None), 2 := BlockRow(1, Some(0))]
    ensures forall o :: o in t.utxos <==> o == COIN
    ensures COIN in t.utxos && t.utxos[COIN] == UtxoRow(7, 50, 1, None)
    ensures PLAIN.txid in t.txs && t.txs[PLAIN.txid].blockHash == 2
    ensures forall x | x in t.txs :: x in {1, 3, 10, 12}
  {
    LowIsFresh(g);
    hide Indexed, CanIndex, FreshBlock;
    Progress(g, LOW);
    t := Indexed(g, LOW);
    KeysAfter(g, LOW);
    MakesCoin(LOW, 1);
    TxAfter(g, LOW, 12);
    assert LOW.txs[2].txid == 12;
    FreshKeepsReferences(g, LOW);
    ContentsOf(LOW, {3, 10, 12}, {NOWHERE, OutPoint(1, 0), OutPoint(1, 1)});
    CoinOfLow();
    UtxoAfter(g, LOW, COIN);
  }

  lemma CoinOfLow()
    ensures COIN in Made(LOW) && Made(LOW)[COIN] == UtxoRow(7, 50, 1, None)
  {
    MakesCoin(LOW, 1);
    CreatedAt(LOW.txs, 3, 1, COIN);
  }

  /**
   * After a restart on another branch, a block there carries a transaction that is already stored; rolling that block
   * back takes the transaction's row along, although the block it first came with stays.
   */
  lemma RollbackLosesTransaction() returns (t: Tables)
    ensures t == IndexAll(EMPTY, [GENESIS, LOW]) && PLAIN.txid in t.txs
    ensures CanIndexAll(t, [REPEATS]) && RolledBack(IndexAll(t, [REPEATS]), 2) != t
    ensures PLAIN.txid !in RolledBack(IndexAll(t, [REPEATS]), 2).txs
  {
    hide Indexed;
    t := LowIndexes();
    MakesNothing(REPEATS);
    NoRowsNoConflict(t.utxos, REPEATS, 2);
    assert !NumberTaken(t.blocks, 2);
    OneMoreIndexed(t, [REPEATS], 0);
    assert REPEATS.txs[1].txid == 12;
    TxAfter(t, REPEATS, 12);
    BlocksAfter(t, REPEATS);
  }

  /**
   * After the same restart, a block fails at a transaction that is already stored. The event of the transaction before
   * it stays in the queue: address 9 is credited with 30 that no table knows of.
   */
  lemma FailedBlockLeaks(sent: seq<Msg>, t: Tables, orders: BlockOrder)
    requires t == IndexAll(EMPTY, [GENESIS, LOW]) && History(sent, t)
    requires ValidOrders(t.utxos, LATER, orders) && |orders| == Passing(t, LATER)
    ensures !CanIndex(t, LATER) && Passing(t, LATER) == 2
    ensures !History(sent + BlockMsgs(t.utxos, LATER, orders), t)
  {
    hide Indexed, History, IndexAll;
    var u := LowIndexes();
    LaterFails(t);
    LeakedEventsIff(sent, t, LATER, orders);
    NetUntilFailure(t, LATER, 9);
    FundedNine(t.utxos, LATER, 7);
  }

  lemma LaterFails(t: Tables)
    requires t.blocks == map[0 := BlockRow(0, None), 2 := BlockRow(1, Some(0))]
    requires forall o :: o in t.utxos <==> o == COIN
    ensures !CanIndex(t, LATER) && Passing(t, LATER) == 2
  {
    PayMakesCoin(2);
    assert LATER.txs[2] == PAY;
    assert !CanCreate(t.utxos, LATER, 2);
    assert !NumberTaken(t.blocks, 2);
    forall k | 0 <= k < 2
      ensures CanCreate(t.utxos, LATER, k)
    {
      forall o | o in AllOutputs(LATER.txs[k], 2)
        ensures o !in t.utxos && o !in Created(LATER.txs, k, 2)
      {
        OutputsAt(LATER.txs[k], |LATER.txs[k].outputs|, 2, o);
        CreatedAt(LATER.txs, k, 2, o);
      }
    }
  }

  lemma FundedNine(utxos: Utxos, b: Block, id: Txid)
    requires forall o :: o in utxos <==> o == COIN
    requires |b.txs| >= 2 && b.txs[0] == Coinbase(id) && b.txs[1] == FUND
    ensures NetSum(utxos, b.txs, 2, 9) == 30
  {
    assert b.txs[0].inputs == [NOWHERE] && b.txs[1].inputs == [OutPoint(1, 2)];
    TakesNothing(utxos, b.txs, 0, 1, 9);
    TakesNothing(utxos, b.txs, 1, 1, 9);
    GivesNothing(b.txs[0], 1, 9);
    assert Net(utxos, b.txs, 0, 9) == 0;
    assert FUND.outputs[0] == TxOut(Some(9), 30) && Given(FUND, 0, 9) == 0;
    assert Net(utxos, b.txs, 1, 9) == 30;
    assert NetSum(utxos, b.txs, 0, 9) == 0;
    assert NetSum(utxos, b.txs, 1, 9) == 0;
  }

  /** Tables of the restarted harvester: `LOW` with blocks above it that belong to another branch. */
  ghost predicate Above(t: Tables, known: set<Txid>) {
    && Referential(t)
    && t.utxos == map[COIN := UtxoRow(7, 50, 1, None)]
    && forall x | x in t.txs :: x in known
  }

  lemma SilentOnTop(t: Tables, b: Block, id: Txid, known: set<Txid>) returns (t': Tables)
    requires Above(t, known) && FreshBlock(t, b) && b.txs == [Coinbase(id)]
    ensures CanIndex(t, b) && t' == Indexed(t, b) && Above(t', known + {id})
    ensures t'.blocks == t.blocks[b.header.hash := BlockRow(b.header.height, b.header.previous)]
  {
    hide Indexed, CanIndex, FreshBlock;
    assert ForeignKeys(t);
    Progress(t, b);
    FreshKeepsReferences(t, b);
    KeysAfter(t, b);
    MakesNothing(b);
    ContentsOf(b, {id}, {NOWHERE});
    t' := Indexed(t, b);
    UtxoAfter(t, b, COIN);
    assert t'.utxos.Keys == t.utxos.Keys;
    assert Lookup(t'.utxos, COIN) == Lookup(t.utxos, COIN);
  }

  const KNOWN: set<Txid> := {1, 3, 10, 12, 20}

  lemma Restarted() returns (m: Tables, t: Tables)
    ensures t == IndexAll(EMPTY, [GENESIS, LOW, CALM, TOP])
    ensures Above(m, KNOWN) && CanIndex(m, TOP) && t == Indexed(m, TOP) && Above(t, KNOWN + {21})
    ensures m.blocks == map[0 := BlockRow(0, None), 2 := BlockRow(1, Some(0)), 7 := BlockRow(2, Some(5))]
    ensures t.blocks == m.blocks[8 := BlockRow(3, Some(7))]
  {
    hide Indexed, CanIndex, IndexUpTo;
    var low := LowIndexes();
    var bs := [GENESIS, LOW, CALM, TOP];
    IndexTake(EMPTY, bs, 2, 2);
    assert bs[..2] == [GENESIS, LOW];
    OneMoreIndexed(EMPTY, bs, 2);
    OneMoreIndexed(EMPTY, bs, 3);
    m := SilentOnTop(low, CALM, 20, {1, 3, 10, 12});
    t := SilentOnTop(m, TOP, 21, KNOWN);
  }

  /** Rolling back to below the fork point just takes `TOP` off again. */
  lemma BackToCalm(m: Tables, t: Tables)
    requires Above(m, KNOWN) && CanIndex(m, TOP) && t == Indexed(m, TOP)
    requires m.blocks == map[0 := BlockRow(0, None), 2 := BlockRow(1, Some(0)), 7 := BlockRow(2, Some(5))]
    ensures RolledBack(t, 3) == m
  {
    hide Indexed, CanIndex, RolledBack;
    OneMoreIndexed(m, [TOP], 0);
    ContentsOf(TOP, {21}, {NOWHERE});
    assert !Reuses(m, TOP);
    UndoIsExactIff(m, [TOP], 3);
  }

  lemma RemakeFails(m: Tables) returns (m1: Tables)
    requires Above(m, KNOWN)
    requires m.blocks == map[0 := BlockRow(0, None), 2 := BlockRow(1, Some(0)), 7 := BlockRow(2, Some(5))]
    ensures CanIndex(m, OVER) && m1 == Indexed(m, OVER) && !CanIndex(m1, REMAKE) && Passing(m1, REMAKE) == 1
  {
    hide Indexed;
    assert ForeignKeys(m);
    Progress(m, OVER);
    KeysAfter(m, OVER);
    m1 := Indexed(m, OVER);
    assert !NumberTaken(m1.blocks, 3);
    PayMakesCoin(3);
    assert COIN in m1.utxos && REMAKE.txs[1] == PAY;
    assert !CanCreate(m1.utxos, REMAKE, 1);
    assert AllOutputs(REMAKE.txs[0], 3) == map[];
    StopsAt(m1, REMAKE, 1);
  }

  lemma NothingForNine(utxos: Utxos, h: nat)
    requires utxos == map[COIN := UtxoRow(7, 50, 1, None)]
    ensures Cell(utxos, h, 9) == 0
  {
    SetSumZero(utxos.Keys, Weight(utxos, CellWeight(h, 9)));
  }

  lemma NineAfterOver(m: Tables)
    requires CanIndex(m, OVER) && m.utxos == map[COIN := UtxoRow(7, 50, 1, None)]
    ensures Cell(Indexed(m, OVER).utxos, 4, 9) == 30
  {
    hide NetSum, Cell, Apply;
    BlockTotal(m.utxos, OVER, 2, CellWeight(4, 9), 9, true);
    FundedNine(m.utxos, OVER, 23);
    NothingForNine(m.utxos, 4);
    assert Indexed(m, OVER).utxos == Partway(m.utxos, OVER, 2);
    assert Cell(m.utxos, 4, 9) == Total(m.utxos, CellWeight(4, 9)) by { CellIsTotal(m.utxos, 4, 9); }
    CellIsTotal(Indexed(m, OVER).utxos, 4, 9);
  }

  lemma CellIsTotal(utxos: Utxos, h: nat, a: Address)
    ensures Cell(utxos, h, a) == Total(utxos, CellWeight(h, a))
  {
  }

  lemma NineUntilRemake(t: Tables)
    requires Passing(t, REMAKE) == 1
    ensures Cell(AtFailure(t, REMAKE), 4, 9) == Cell(t.utxos, 4, 9)
  {
    hide Partway, NetSum, Passing;
    BlockTotal(t.utxos, REMAKE, 1, CellWeight(4, 9), 9, false);
  }

  /** Where the fork fails, address 9 has 30 at height 4. */
  lemma NineAtFailure(m: Tables)
    requires Above(m, KNOWN)
    requires m.blocks == map[0 := BlockRow(0, None), 2 := BlockRow(1, Some(0)), 7 := BlockRow(2, Some(5))]
    ensures !CanIndexAll(m, [OVER, REMAKE]) && Cell(ForkAtFailure(m, [OVER, REMAKE]), 4, 9) == 30
  {
    var fork := [OVER, REMAKE];
    var m1 := RemakeFails(m);
    hide Indexed, CanIndex, Passing, Cell, AtFailure, IndexUpTo, CanIndexUpTo;
    NothingIndexed(m, fork);
    OneMoreIndexed(m, fork, 0);
    OneMoreIndexed(m, fork, 1);
    FailsAt(m, fork, 1);
    NineAfterOver(m);
    NineUntilRemake(m1);
  }

  /**
   * After the same restart and two more blocks, a fork whose last block pays again what is already stored. It fails,
   * and leaves a reorganisation message and the event of its head: address 9 is credited with 30 that no table knows of.
   */
  lemma FailedForkLeaks(sent: seq<Msg>, t: Tables, orders: seq<BlockOrder>)
    requires t == IndexAll(EMPTY, [GENESIS, LOW, CALM, TOP]) && History(sent, t)
    requires ValidAllOrders(RolledBack(t, 3), [OVER, REMAKE], orders)
    requires TriedOrders(RolledBack(t, 3), [OVER, REMAKE], orders)
    ensures BitcoinWorld(RESTARTED) && UnstoredBranch(RESTARTED, t, OVER, 3, [OVER, REMAKE])
    ensures !CanIndexAll(RolledBack(t, 3), [OVER, REMAKE])
    ensures !History(sent + [ReorgMsg(3)] + AllMsgs(RolledBack(t, 3), [OVER, REMAKE], orders), t)
  {
    hide Indexed, History, IndexUpTo, RolledBack, AllMsgs, ValidAllOrders, TriedOrders, CanIndexAll, ForkAtFailure;
    hide Cell, UnstoredBranch, BitcoinRules, ValidWorld;
    var m, u := Restarted();
    RestartedIsBitcoin();
    ForkToOver(t);
    BackToCalm(m, t);
    NineAtFailure(m);
    NothingForNine(t.utxos, 4);
    LeakedForkIff(sent, t, 3, [OVER, REMAKE], orders);
  }

  lemma ForkToOver(t: Tables)
    requires t.blocks.Keys == {0, 2, 7, 8}
    ensures ValidWorld(RESTARTED) && UnstoredBranch(RESTARTED, t, OVER, 3, [OVER, REMAKE])
  {
    RestartedAncestors();
    hide ValidWorld, AncestorAt;
    var fork := [OVER, REMAKE];
    forall i | 0 <= i < |fork|
      ensures fork[i] == RESTARTED[AncestorAt(RESTARTED, 10, 4 - i)]
    {
    }
  }

  // ---- following the chain ----

  /** From an empty database, a pause before the first tick does not pause: the tick after it indexes a block. */
  lemma PauseDoesNotPause() returns (y: Control)
    ensures ValidWorld(WORLD) && Ticks(WORLD, Paused(Control(FRESH, None, None)), y)
    ensures y.follower.cursor == Some(GENESIS) && y.follower.tables == Indexed(EMPTY, GENESIS)
  {
    WorldIsValid();
    hide ValidWorld, Ticks, Indexed, CanIndex;
    var t := GenesisIndexes();
    y := StartTick(WORLD, Paused(Control(FRESH, None, None)), None, 0, GENESIS);
  }

  lemma FirstMoves(utxos: Utxos, b: Block, k: nat, order: seq<Address>)
    requires k < |b.txs| && ValidOrder(utxos, b, k, order)
    ensures order != [] ==> Net(utxos, b.txs, k, order[0]) != 0
  {
    assert order != [] ==> order[0] in order;
  }

  /** A block that touches no taproot output sends nothing. */
  lemma {:induction false} Silent(utxos: Utxos, b: Block, orders: BlockOrder)
    requires utxos == map[] && ValidOrders(utxos, b, orders)
    requires forall i, v | 0 <= i < |b.txs| && 0 <= v < |b.txs[i].outputs| :: b.txs[i].outputs[v].owner.None?
    ensures BlockMsgs(utxos, b, orders) == []
  {
    if orders == [] {
    } else {
      var k := |orders| - 1;
      Silent(utxos, b, orders[..k]);
      FirstMoves(utxos, b, k, orders[k]);
      forall a: Address
        ensures Net(utxos, b.txs, k, a) == 0
      {
        TakesNothing(utxos, b.txs, k, |b.txs[k].inputs|, a);
        GivesNothing(b.txs[k], |b.txs[k].outputs|, a);
      }
    }
  }

  lemma AfterGenesis(w: World) returns (f: Follower)
    requires ValidWorld(w) && Serves(w, GENESIS)
    ensures Reaches(w, FRESH, 1, f) && f.sent == [] && f.cursor == Some(GENESIS)
    ensures f.tables == Indexed(EMPTY, GENESIS)
  {
    hide ValidWorld, Indexed, CanIndex, ValidOrders, BlockMsgs, Passing;
    var t := GenesisIndexes();
    var orders := OrdersExist(map[], GENESIS, Passing(EMPTY, GENESIS));
    Silent(map[], GENESIS, orders);
    f := Follower(t, [], Some(GENESIS));
    assert Starts(w, FRESH, GENESIS, orders, f);
    NoStep(w, FRESH);
    OneMoreStep(w, FRESH, 0, FRESH, f);
  }

  lemma AfterQuiet() returns (f: Follower)
    ensures BitcoinWorld(WORLD) && Reaches(WORLD, FRESH, 2, f) && f.sent == [] && f.cursor == Some(QUIET)
    ensures f.tables.blocks.Keys == {0, 5}
  {
    WorldIsBitcoin();
    hide ValidWorld, BitcoinRules, Indexed, CanIndex, ValidOrders, BlockMsgs, Reaches, InStep, Next;
    var g := AfterGenesis(WORLD);
    var t := GenesisIndexes();
    ReachableInStep(WORLD, 1, g);
    var orders := OrdersExist(map[], QUIET, 1);
    Silent(map[], QUIET, orders);
    f := ExtendHappens(WORLD, g, QUIET, orders);
    BlocksAfter(t, QUIET);
    OneMoreStep(WORLD, FRESH, 1, g, f);
  }

  lemma ForkToHigh(f: Follower)
    requires ValidWorld(WORLD) && f.tables.blocks.Keys == {0, 5}
    ensures UnstoredBranch(WORLD, f.tables, HIGH, 1, [HIGH, LOW])
  {
    Ancestors();
    hide ValidWorld, AncestorAt;
    var fork := [HIGH, LOW];
    forall i | 0 <= i < |fork|
      ensures fork[i] == WORLD[AncestorAt(WORLD, 3, 2 - i)]
    {
    }
  }

  lemma QuietForks(q: Follower) returns (f: Follower)
    requires ValidWorld(WORLD) && q.cursor == Some(QUIET) && q.sent == [] && q.tables.blocks.Keys == {0, 5}
    ensures Next(WORLD, q, f) && f.sent != [] && f.sent[0] == ReorgMsg(1)
  {
    ForkToHigh(q);
    hide ValidWorld, UnstoredBranch, Next;
    f := ForkHappens(WORLD, q, HIGH, 1, [HIGH, LOW]);
  }

  /**
   * Genesis and a block without taproot outputs, then a fork: the reorganisation message finds no row in the log, and
   * the aggregator stops for good at its first message. The chain is one that Bitcoin allows.
   */
  lemma PlainForkStopsAggregator() returns (f: Follower)
    ensures BitcoinWorld(WORLD) && Reaches(WORLD, FRESH, 3, f) && f.sent != [] && f.sent[0] == ReorgMsg(1)
    ensures !exists s' :: Consumes(START, f.sent[0], s')
  {
    hide ValidWorld, BitcoinRules, Reaches, Next, Consumes;
    WorldIsBitcoin();
    var q := AfterQuiet();
    f := QuietForks(q);
    OneMoreStep(WORLD, FRESH, 2, q, f);
    ConsumableIff(START, ReorgMsg(1));
  }

  /** One more block, whatever order its addresses come in. */
  lemma OneMoreFollowed(f: Follower, steps: nat, b: Block) returns (f': Follower)
    requires BitcoinWorld(WORLD) && Reaches(WORLD, FRESH, steps, f) && NextUp(WORLD, f, b)
    requires b.header.previous == Some(f.cursor.value.header.hash)
    ensures Reaches(WORLD, FRESH, steps + 1, f') && f'.tables == Indexed(f.tables, b) && f'.cursor == Some(b)
  {
    hide ValidWorld, BitcoinRules, Reaches, InStep, Next, Indexed, ValidOrders;
    ReachableInStep(WORLD, steps, f);
    var orders := OrdersExist(f.tables.utxos, b, |b.txs|);
    f' := ExtendHappens(WORLD, f, b, orders);
    OneMoreStep(WORLD, FRESH, steps, f, f');
  }

  /**
   * A rescan to a height whose block was replaced meanwhile: the next block is already stored, so the fork walk ends
   * where it starts and there is no fork to process. The source takes the last block of an empty list.
   */
  lemma RescanMeetsStoredHead() returns (f: Follower, y: Control)
    ensures BitcoinWorld(WORLD) && Reaches(WORLD, FRESH, 3, f) && f.cursor == Some(HIGH)
    ensures Scans(WORLD, Control(f, None, None), 1, 5, SAME_BLOCK, y)
    ensures NextUp(WORLD, y.follower, HIGH) && HIGH.header.previous != Some(SAME_BLOCK.header.hash)
    ensures HIGH.header.hash in y.follower.tables.blocks
    ensures forall n, fork :: !UnstoredBranch(WORLD, y.follower.tables, HIGH, n, fork)
  {
    WorldIsBitcoin();
    hide ValidWorld, BitcoinRules, Reaches, Indexed;
    var g := AfterGenesis(WORLD);
    var t := GenesisIndexes();
    var l := OneMoreFollowed(g, 1, LOW);
    f := OneMoreFollowed(l, 2, HIGH);
    BlocksAfter(g.tables, LOW);
    BlocksAfter(l.tables, HIGH);
    assert f.tables.blocks.Keys == {0, 2, 3};
    y := Control(f.(cursor := Some(SAME_BLOCK)), None, Some(5));
    forall n, fork
      ensures !UnstoredBranch(WORLD, f.tables, HIGH, n, fork)
    {
      HeadIsUnstored(f.tables, n, fork);
    }
  }

  lemma HeadIsUnstored(t: Tables, n: nat, fork: seq<Block>)
    requires ValidWorld(WORLD)
    ensures UnstoredBranch(WORLD, t, HIGH, n, fork) ==> 3 !in t.blocks
  {
    if UnstoredBranch(WORLD, t, HIGH, n, fork) {
      assert fork[0] == WORLD[AncestorAt(WORLD, 3, 2)];
      TipOfBranch(WORLD, 3);
    }
  }

  // ---- reorganising the accounts ----

  const MINTED_50 := Event(1, 30, 9, 50, Receive, true)
  const PAID_50 := Event(2, 10, 7, 50, Receive, false)

  lemma FilterOne<T>(x: T, p: T -> bool)
    ensures Filter([x], p) == if p(x) then [x] else []
  {
    FilterAppend([], [x], p);
    assert [x][..0] == [];
  }

  lemma MintSends()
    ensures ValidOrders(map[], MINT, [[9]]) && BlockMsgs(map[], MINT, [[9]]) == [EventMsg(MINTED_50)]
  {
    forall a: Address
      ensures Net(map[], MINT.txs, 0, a) == if a == 9 then 50 else 0
    {
      TakesNothing(map[], MINT.txs, 0, 1, a);
      assert Given(REWARD, 0, a) == 0 && Given(REWARD, 1, a) == if a == 9 then 50 else 0;
    }
    assert [[9 as Address]][..0] == [];
    assert BlockMsgs(map[], MINT, [[9]]) == [] + TxMsgs(map[], MINT, 0, [9]);
  }

  lemma PayingSends(utxos: Utxos)
    requires forall o | o in utxos :: o.txid == 30
    ensures ValidOrders(utxos, PAYING, [[], [7]]) && BlockMsgs(utxos, PAYING, [[], [7]]) == [EventMsg(PAID_50)]
  {
    forall a: Address
      ensures Net(utxos, PAYING.txs, 0, a) == 0
      ensures Net(utxos, PAYING.txs, 1, a) == if a == 7 then 50 else 0
    {
      TakesNothing(utxos, PAYING.txs, 0, 1, a);
      TakesNothing(utxos, PAYING.txs, 1, 1, a);
      GivesNothing(PAYING.txs[0], 1, a);
      assert Given(PAY, 0, a) == 0 && Given(PAY, 1, a) == if a == 7 then 50 else 0;
    }
    var none: seq<Address>, one: seq<Address> := [], [7];
    var orders := [none, one];
    assert orders[..1] == [none] && [none][..0] == [];
    assert BlockMsgs(utxos, PAYING, [none]) == [] + TxMsgs(utxos, PAYING, 0, none);
    assert BlockMsgs(utxos, PAYING, orders) == [] + TxMsgs(utxos, PAYING, 1, one);
  }

  lemma ForkToNext(t: Tables)
    requires t.blocks.Keys == {0, 11, 12}
    ensures ValidWorld(MINTED) && UnstoredBranch(MINTED, t, NEXT, 2, [NEXT, OTHER])
  {
    MintedAncestors();
    hide ValidWorld, AncestorAt;
    var fork := [NEXT, OTHER];
    forall i | 0 <= i < |fork|
      ensures fork[i] == MINTED[AncestorAt(MINTED, 14, 3 - i)]
    {
    }
  }

  /** The harvester indexes genesis and two blocks, then reorganises the second away. */
  lemma MintedIsForked() returns (f: Follower)
    ensures BitcoinWorld(MINTED) && Reaches(MINTED, FRESH, 4, f)
    ensures [EventMsg(MINTED_50), EventMsg(PAID_50), ReorgMsg(2)] <= f.sent
  {
    MintedIsBitcoin();
    hide ValidWorld, BitcoinRules, Reaches, Indexed, InStep, Next, ValidOrders, BlockMsgs;
    var g := AfterGenesis(MINTED);
    var t := GenesisIndexes();
    ReachableInStep(MINTED, 1, g);
    MintSends();
    var m := ExtendHappens(MINTED, g, MINT, [[9]]);
    OneMoreStep(MINTED, FRESH, 1, g, m);
    BlocksAfter(g.tables, MINT);
    RowsOfMint(g.tables);
    PayingSends(m.tables.utxos);
    var p := ExtendHappens(MINTED, m, PAYING, [[], [7]]);
    OneMoreStep(MINTED, FRESH, 2, m, p);
    BlocksAfter(m.tables, PAYING);
    assert p.tables.blocks.Keys == {0, 11, 12};
    ForkToNext(p.tables);
    f := ForkHappens(MINTED, p, NEXT, 2, [NEXT, OTHER]);
    OneMoreStep(MINTED, FRESH, 3, p, f);
    assert p.sent == [EventMsg(MINTED_50), EventMsg(PAID_50)];
  }

  lemma RowsOfMint(t: Tables)
    requires t == Indexed(EMPTY, GENESIS)
    ensures forall o | o in Indexed(t, MINT).utxos :: o.txid == 30
  {
    var g := GenesisIndexes();
    hide Indexed, CanIndex;
    Progress(t, MINT);
    KeysAfter(t, MINT);
    forall o | o in Made(MINT)
      ensures o.txid == 30
    {
      CreatedAt(MINT.txs, 1, 1, o);
    }
  }

  lemma MintPends(s: State)
    requires Consumes(START, EventMsg(MINTED_50), s)
    ensures s == START.(pending := [MINTED_50], last := 1)
  {
    var hour, due, hours :| Handles(START, MINTED_50, s, hour, due, hours);
    assert [] + [MINTED_50] == [MINTED_50];
  }

  lemma MintStillPends(s: State, s': State)
    requires s == START.(pending := [MINTED_50], last := 1) && Consumes(s, EventMsg(PAID_50), s')
    ensures s'.pending == [MINTED_50] && s'.log == [ToRow(PAID_50)] && s'.last == 2
  {
    var hour, due, hours :| Handles(s, PAID_50, s', hour, due, hours);
    assert [] + [ToRow(PAID_50)] == [ToRow(PAID_50)];
  }

  lemma MintIsDropped(s: State, s': State)
    requires s.pending == [MINTED_50] && s.log == [ToRow(PAID_50)] && Consumes(s, ReorgMsg(2), s')
    ensures s'.pending == [] && !Forgets(s, 2, s')
  {
    hide PostAll, Forgets;
    var rows, hours :| Reorgs(s, 2, s', rows, hours);
    LastRowIsSince(s, 2, s', rows, hours);
    FilterOne(MINTED_50, EventAfter(2));
    ReorgForgetsIff(s, 2, s', rows, hours);
    assert MINTED_50 in s.pending;
  }

  /**
   * A coinbase pays to address 9 at height 1, and a reorganisation replaces height 2. The coinbase is not orphaned, but
   * the reorganisation drops it: the 50 never come back, whatever the hash maps and the queries do.
   */
  lemma PendingBelowForkIsLost() returns (f: Follower, states: seq<State>)
    ensures BitcoinWorld(MINTED) && Reaches(MINTED, FRESH, 4, f) && Handled(states, f.sent, 3)
    ensures Final(states).pending == [] && !AccountsFollow(Final(states), f.sent[..3])
  {
    hide ValidWorld, BitcoinRules, Reaches, Consumes, AccountsFollow, Forgets;
    f := MintedIsForked();
    var s1 := EventHandled(START, MINTED_50);
    MintPends(s1);
    var s2 := EventHandled(s1, PAID_50);
    MintStillPends(s1, s2);
    ConsumableIff(s2, ReorgMsg(2));
    assert ToRow(PAID_50) in s2.log && ToRow(PAID_50).height >= 2;
    var s3 :| Consumes(s2, ReorgMsg(2), s3);
    MintIsDropped(s2, s3);
    states := [START, s1, s2, s3];
    var msgs := f.sent[..3];
    assert msgs == [EventMsg(MINTED_50), EventMsg(PAID_50), ReorgMsg(2)];
    assert Trace(states, msgs);
    assert AccountsFollow(s2, f.sent[..2]) by { FollowsSoFar([START, s1, s2], f.sent); }
    FollowsIffForgets(s2, 2, s3, f.sent, 2);
  }

  lemma FollowsSoFar(states: seq<State>, sent: seq<Msg>)
    requires [EventMsg(MINTED_50), EventMsg(PAID_50)] <= sent && Trace(states, sent[..2]) && states[0] == START
    ensures AccountsFollow(Final(states), sent[..2])
  {
    hide Consumes, Account, Drained, Drift;
    var msgs := sent[..2];
    forall h: nat, a: Address
      ensures Account(Final(states), h, a) == Drained(0, msgs, h, a)
    {
      AccountsDrift(states, msgs, h, a);
      SafeHasNoDrift(states, msgs, h, a);
      EmptyAccount(h, a);
    }
  }

  /** Two hours of one day with changes 5 and 3, final balance 10: the day's snapshot shows 5. */
  lemma DayShowsWrongBalance()
    ensures SnapshotsOf(10, [Change(0, 5), Change(0, 3)]) == map[0 := 5]
  {
    var rows := [Change(0, 5), Change(0, 3)];
    assert rows[..1] == [Change(0, 5)];
    assert [] + [Change(0, 5)] == [Change(0, 5)];
    SeqSumSnoc([], Change(0, 5), Amount);
  }
}
