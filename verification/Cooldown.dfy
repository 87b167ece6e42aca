/** Coinbase events in whole runs: when a reorganisation keeps the two halves in agreement, and chains where all do. */
module Cooldown {
  import opened Types
  import opened Schema
  import opened Indexing
  import opened Integrity
  import opened Conservation
  import opened Aggregation
  import opened Draining
  import opened Chain
  import opened Follower
  import opened Drifting
  import opened Pipeline

  /** A coinbase names no real output, so it spends nothing. */
  ghost predicate CoinbasesSpendNothing(w: World) {
    forall h, k, o | h in w && 0 <= k < |w[h].txs| && w[h].txs[k].isCoinbase && o in w[h].txs[k].inputs ::
      forall g | g in w :: !HasTx(w[g], o.txid)
  }

  /** No coinbase pays to a taproot address. */
  ghost predicate NoTaprootCoinbases(w: World) {
    forall h, k, v | h in w && 0 <= k < |w[h].txs| && w[h].txs[k].isCoinbase && 0 <= v < |w[h].txs[k].outputs| ::
      w[h].txs[k].outputs[v].owner.None?
  }

  /** Coinbase events carry positive amounts, and there are none where no coinbase pays to a taproot address. */
  ghost predicate CoinbaseEventsFit(w: World, msgs: seq<Msg>) {
    forall m | m in msgs && m.EventMsg? && m.event.isCoinbase :: m.event.amount > 0 && !NoTaprootCoinbases(w)
  }

  lemma {:induction false} TakesNothing(utxos: Utxos, txs: seq<Tx>, k: nat, j: nat, a: Address)
    requires k < |txs| && j <= |txs[k].inputs| && forall o | o in txs[k].inputs :: o !in utxos
    ensures Taken(utxos, txs, k, j, a) == 0
  {
    if j == 0 {
    } else {
      TakesNothing(utxos, txs, k, j - 1, a);
    }
  }

  lemma {:induction false} GivesNothing(tx: Tx, v: nat, a: Address)
    requires v <= |tx.outputs| && forall i | 0 <= i < |tx.outputs| :: tx.outputs[i].owner.None?
    ensures Given(tx, v, a) == 0
  {
    if v == 0 {
    } else {
      GivesNothing(tx, v - 1, a);
    }
  }

  lemma CoinbaseNet(w: World, t: Tables, b: Block, k: nat, a: Address)
    requires CoinbasesSpendNothing(w) && Serves(w, b) && HoldsTxs(w, t) && ForeignKeys(t)
    requires k < |b.txs| && b.txs[k].isCoinbase
    ensures Net(t.utxos, b.txs, k, a) >= 0
    ensures NoTaprootCoinbases(w) ==> Net(t.utxos, b.txs, k, a) == 0
  {
    forall o | o in b.txs[k].inputs
      ensures o !in t.utxos
    {
    }
    TakesNothing(t.utxos, b.txs, k, |b.txs[k].inputs|, a);
    if NoTaprootCoinbases(w) {
      GivesNothing(b.txs[k], |b.txs[k].outputs|, a);
    }
  }

  lemma {:induction false} BlockMsgsPositive(w: World, t: Tables, b: Block, orders: BlockOrder)
    requires CoinbasesSpendNothing(w) && Serves(w, b) && HoldsTxs(w, t) && ForeignKeys(t)
    requires ValidOrders(t.utxos, b, orders)
    ensures CoinbaseEventsFit(w, BlockMsgs(t.utxos, b, orders))
  {
    hide CoinbasesSpendNothing, NoTaprootCoinbases, HoldsTxs, ForeignKeys, Net;
    if orders == [] {
    } else {
      var k := |orders| - 1;
      BlockMsgsPositive(w, t, b, orders[..k]);
      assert ValidOrder(t.utxos, b, k, orders[k]);
      if b.txs[k].isCoinbase {
        forall a: Address
          ensures Net(t.utxos, b.txs, k, a) >= 0
          ensures NoTaprootCoinbases(w) ==> Net(t.utxos, b.txs, k, a) == 0
        {
          CoinbaseNet(w, t, b, k, a);
        }
      }
    }
  }

  lemma {:induction false} AllMsgsPositive(w: World, base: Tables, head: Hash, lo: nat, n: nat, fork: seq<Block>,
                                           orders: seq<BlockOrder>)
    requires BitcoinWorld(w) && CoinbasesSpendNothing(w) && BranchDown(w, head, n, fork) && lo <= n
    requires Holds(w, base, head, Range(lo, n)) && ValidAllOrders(base, fork, orders)
    ensures CoinbaseEventsFit(w, AllMsgs(base, fork, orders))
  {
    hide BitcoinRules, CoinbasesSpendNothing, ValidOrders, BlockMsgs, AncestorAt, IndexUpTo, Filled;
    hide HoldsBlocks, HoldsSpends, ValidWorld;
    if orders == [] {
    } else {
      var i := |orders| - 1;
      AllMsgsPositive(w, base, head, lo, n, fork, orders[..i]);
      HoldsFork(w, base, head, lo, n, fork, i);
      assert Serves(w, fork[i]) by { ForkServed(w, head, n, fork, i); }
      BlockMsgsPositive(w, IndexUpTo(base, fork, i), fork[i], orders[i]);
    }
  }

  lemma WorldServes(w: World, h: Hash)
    requires ValidWorld(w) && h in w
    ensures Serves(w, w[h])
  {
    assert Linked(w, h);
  }

  lemma ForkServed(w: World, head: Hash, n: nat, fork: seq<Block>, i: nat)
    requires ValidWorld(w) && BranchDown(w, head, n, fork) && i < |fork|
    ensures Serves(w, fork[i])
  {
    hide AncestorAt, ValidWorld;
    var h := AncestorAt(w, head, w[head].header.height - i);
    assert fork[i] == w[h];
    WorldServes(w, h);
  }

  lemma StepMsgsPositive(w: World, f: Follower, b: Block, orders: BlockOrder)
    requires InStep(w, f) && CoinbasesSpendNothing(w) && Serves(w, b) && ValidOrders(f.tables.utxos, b, orders)
    ensures CoinbaseEventsFit(w, BlockMsgs(f.tables.utxos, b, orders))
  {
    hide BitcoinRules, CoinbasesSpendNothing, ValidOrders, BlockMsgs, History, HoldsBlocks, HoldsSpends;
    if f.cursor.Some? {
      var lo: nat :| StoredChain(w, f.tables, f.cursor.value.header.hash, lo);
    }
    BlockMsgsPositive(w, f.tables, b, orders);
  }

  lemma ForkMsgsPositive(w: World, f: Follower, head: Block, n: nat, fork: seq<Block>, orders: seq<BlockOrder>,
                         f': Follower)
    requires InStep(w, f) && CoinbasesSpendNothing(w) && Forks(w, f, head, n, fork, orders, f')
    ensures CoinbaseEventsFit(w, AllMsgs(RolledBack(f.tables, n), fork, orders))
  {
    hide BitcoinRules, CoinbasesSpendNothing, History, StoredChain, RolledBack, IndexAll;
    hide AllMsgs, ValidAllOrders, Holds, BranchDown;
    var c := f.cursor.value;
    var lo: nat :| StoredChain(w, f.tables, c.header.hash, lo);
    BaseHolds(w, f.tables, c, head, n, fork, lo);
    AllMsgsPositive(w, RolledBack(f.tables, n), head.header.hash, if lo < n then lo else n, n, fork, orders);
  }

  lemma NextPositive(w: World, f: Follower, f': Follower)
    requires InStep(w, f) && CoinbasesSpendNothing(w) && Next(w, f, f') && CoinbaseEventsFit(w, f.sent)
    ensures CoinbaseEventsFit(w, f'.sent)
  {
    hide InStep, CoinbasesSpendNothing, Indexed, IndexAll, RolledBack, BlockMsgs, AllMsgs;
    hide ValidOrders, ValidAllOrders, UnstoredBranch;
    InStepWorld(w, f);
    if b, orders :| Starts(w, f, b, orders, f') {
      StepMsgsPositive(w, f, b, orders);
    } else if b, orders :| Extends(w, f, b, orders, f') {
      StepMsgsPositive(w, f, b, orders);
    } else {
      var head, n, fork, orders :| Forks(w, f, head, n, fork, orders, f');
      ForkMsgsPositive(w, f, head, n, fork, orders, f');
    }
  }

  ghost predicate PositivePending(s: State) {
    forall e | e in s.pending :: e.amount > 0
  }

  lemma ConsumePositive(s: State, m: Msg, s': State)
    requires PositivePending(s) && Consumes(s, m, s') && (m.EventMsg? && m.event.isCoinbase ==> m.event.amount > 0)
    ensures PositivePending(s')
  {
    match m
    case EventMsg(e) =>
      var hour, due, hours :| Handles(s, e, s', hour, due, hours);
      HandlePositive(s, e, s', hour, due, hours);
    case ReorgMsg(n) =>
      var rows: seq<LogRow>, hours :| Reorgs(s, n, s', rows, hours);
      forall e | e in s'.pending
        ensures e.amount > 0
      {
        FilterIn(s.pending, EventAfter(rows[|rows| - 1].height), e);
      }
  }

  lemma HandlePositive(s: State, e: Event, s': State, hour: Hour, due: seq<Event>, hours: seq<Hour>)
    requires PositivePending(s) && Handles(s, e, s', hour, due, hours) && (e.isCoinbase ==> e.amount > 0)
    ensures PositivePending(s')
  {
    var r := Received(s, e, hour).(last := e.height);
    assert PositivePending(r);
    if e.height > s.last && e.height >= COOLDOWN {
      PostAllLog(r.(pending := Filter(r.pending, EventAfter(e.height - COOLDOWN))), ToRows(due), hours);
      forall x | x in s'.pending
        ensures x.amount > 0
      {
        FilterIn(r.pending, EventAfter(e.height - COOLDOWN), x);
      }
    }
  }

  lemma {:induction false} TracePositive(w: World, states: seq<State>, msgs: seq<Msg>)
    requires Trace(states, msgs) && states[0] == START && CoinbaseEventsFit(w, msgs)
    ensures PositivePending(Final(states))
    decreases |msgs|
  {
    hide Consumes, NoTaprootCoinbases;
    if msgs == [] {
    } else {
      var k := |msgs| - 1;
      assert msgs[k] in msgs;
      TracePrefix(states, msgs, k);
      TracePositive(w, states[..k + 1], msgs[..k]);
      ConsumePositive(states[k], msgs[k], states[k + 1]);
    }
  }

  lemma {:induction false} SentFits(w: World, steps: nat, y: System)
    requires BitcoinWorld(w) && CoinbasesSpendNothing(w) && Reachable(w, steps, y)
    ensures CoinbaseEventsFit(w, y.follower.sent)
    decreases steps
  {
    hide InStep, CoinbasesSpendNothing, NoTaprootCoinbases, BitcoinRules, Next, Consumes, Trace;
    if steps == 0 {
    } else {
      var before := steps - 1;
      var x :| Reachable(w, before, x) && Moves(w, x, y);
      hide Reachable;
      SentFits(w, before, x);
      ReachableConsistent(w, before, x);
      if HarvesterMoves(w, x, y) {
        NextPositive(w, x.follower, y.follower);
      }
    }
  }

  /** In every reachable state each pending event has a positive amount. */
  lemma ReachablePositive(w: World, steps: nat, y: System)
    requires BitcoinWorld(w) && CoinbasesSpendNothing(w) && Reachable(w, steps, y)
    ensures y.states != [] && PositivePending(Final(y.states))
  {
    hide InStep, CoinbasesSpendNothing, NoTaprootCoinbases, BitcoinRules, Trace, Reachable;
    SentFits(w, steps, y);
    ReachableConsistent(w, steps, y);
    var taken := y.follower.sent[..|y.states| - 1];
    assert CoinbaseEventsFit(w, taken);
    TracePositive(w, y.states, taken);
  }

  // ---- the next reorganisation ----

  /** Each account is what the messages say. */
  ghost predicate AccountsFollow(s: State, msgs: seq<Msg>) {
    forall h: nat, a: Address :: Account(s, h, a) == Drained(0, msgs, h, a)
  }

  /**
   * In every reachable state where the accounts are what the messages say, the next reorganisation keeps them so,
   * whatever order its rows come back in, exactly when each pending coinbase event lies between the fork point and
   * every row at or above it.
   */
  lemma ReorgKeepsAgreementIff(w: World, steps: nat, x: System, n: nat)
    requires BitcoinWorld(w) && CoinbasesSpendNothing(w) && Reachable(w, steps, x)
    requires x.states != [] && |x.states| <= |x.follower.sent| && x.follower.sent[|x.states| - 1] == ReorgMsg(n)
    requires AccountsFollow(Final(x.states), x.follower.sent[..|x.states| - 1])
    ensures
      (forall s' | Consumes(Final(x.states), ReorgMsg(n), s') :: AccountsFollow(s', x.follower.sent[..|x.states|]))
       <==> SafeToReorg(Final(x.states), n)
  {
    hide InStep, CoinbasesSpendNothing, BitcoinRules, Reachable, Account, AccountsFollow, SafeToReorg, Reorgs, Forgets;
    ReachablePositive(w, steps, x);
    var s, k := Final(x.states), |x.states| - 1;
    ReorgAlwaysForgetsIff(s, n);
    forall s': State
      ensures AccountsFollow(s', x.follower.sent[..k + 1]) <==> Forgets(s, n, s')
    {
      FollowsIffForgets(s, n, s', x.follower.sent, k);
    }
  }

  lemma FollowsIffForgets(s: State, n: nat, s': State, sent: seq<Msg>, k: nat)
    requires k < |sent| && sent[k] == ReorgMsg(n) && AccountsFollow(s, sent[..k])
    ensures AccountsFollow(s', sent[..k + 1]) <==> Forgets(s, n, s')
  {
    hide Account;
    var after := sent[..k + 1];
    forall h: nat, a: Address
      ensures Drained(0, after, h, a) == if h < n then Account(s, h, a) else 0
    {
      assert after[..k] == sent[..k];
      assert Account(s, h, a) == Drained(0, sent[..k], h, a);
    }
    hide Drained;
    if Forgets(s, n, s') {
      forall h: nat, a: Address
        ensures Account(s', h, a) == Drained(0, after, h, a)
      {
      }
    }
    if AccountsFollow(s', after) {
      forall h: nat, a: Address
        ensures Account(s', h, a) == if h < n then Account(s, h, a) else 0
      {
        assert Drained(0, after, h, a) == if h < n then Account(s, h, a) else 0;
      }
    }
  }

  // ---- every reorganisation of a stream ----

  /** `states` are a way of handling the first `k` messages. */
  ghost predicate Handled(states: seq<State>, msgs: seq<Msg>, k: nat) {
    k <= |msgs| && Trace(states, msgs[..k]) && states[0] == START
  }

  /** However the stream is handled, and as far as it can be, the accounts are what the messages say. */
  ghost predicate AlwaysAgrees(msgs: seq<Msg>) {
    forall states, k: nat | Handled(states, msgs, k) :: AccountsFollow(Final(states), msgs[..k])
  }

  /** However it is handled, each reorganisation meets only pending events between its fork point and the rows above. */
  ghost predicate AlwaysSafe(msgs: seq<Msg>) {
    forall states, k: nat | Handled(states, msgs, k) && k < |msgs| && msgs[k].ReorgMsg? ::
      SafeToReorg(Final(states), msgs[k].since)
  }

  lemma AgreesWhenSafe(states: seq<State>, msgs: seq<Msg>, k: nat)
    requires AlwaysSafe(msgs) && Handled(states, msgs, k)
    ensures AccountsFollow(Final(states), msgs[..k])
  {
    hide Consumes, SafeToReorg, Account, Drained, Drift;
    var before := msgs[..k];
    forall i | 0 <= i < k && before[i].ReorgMsg?
      ensures SafeToReorg(states[i], before[i].since)
    {
      TracePrefix(states, before, i);
      assert before[..i] == msgs[..i];
      assert Handled(states[..i + 1], msgs, i);
    }
    forall h: nat, a: Address
      ensures Account(Final(states), h, a) == Drained(0, before, h, a)
    {
      AccountsDrift(states, before, h, a);
      SafeHasNoDrift(states, before, h, a);
      assert Account(START, h, a) == 0 by { EmptyAccount(h, a); }
    }
  }

  lemma EmptyAccount(h: nat, a: Address)
    ensures Account(START, h, a) == 0
  {
  }

  lemma UnsafeBreaks(w: World, states: seq<State>, msgs: seq<Msg>, k: nat)
    requires Handled(states, msgs, k) && k < |msgs| && msgs[k].ReorgMsg? && CoinbaseEventsFit(w, msgs)
    requires AccountsFollow(Final(states), msgs[..k]) && !SafeToReorg(Final(states), msgs[k].since)
    ensures !AlwaysAgrees(msgs)
  {
    hide Consumes, SafeToReorg, Reorgs, Forgets, AccountsFollow, NoTaprootCoinbases;
    var s, n := Final(states), msgs[k].since;
    assert CoinbaseEventsFit(w, msgs[..k]);
    TracePositive(w, states, msgs[..k]);
    ReorgAlwaysForgetsIff(s, n);
    var s', rows, hours :| Reorgs(s, n, s', rows, hours) && !Forgets(s, n, s');
    ReorgIsConsumed(s, n, s', rows, hours);
    TraceSnoc(states, msgs[..k], msgs[k], s');
    assert msgs[..k] + [msgs[k]] == msgs[..k + 1];
    FollowsIffForgets(s, n, s', msgs, k);
    assert Handled(states + [s'], msgs, k + 1);
  }

  /**
   * For the messages of any reachable state: no way of handling them can lose the agreement, exactly when no way of
   * handling them leads a reorganisation to a pending event outside its range.
   */
  lemma AlwaysAgreesIff(w: World, steps: nat, x: System)
    requires BitcoinWorld(w) && CoinbasesSpendNothing(w) && Reachable(w, steps, x)
    ensures AlwaysAgrees(x.follower.sent) <==> AlwaysSafe(x.follower.sent)
  {
    hide BitcoinRules, CoinbasesSpendNothing, Reachable, Consumes, SafeToReorg, AccountsFollow, CoinbaseEventsFit;
    var msgs := x.follower.sent;
    SentFits(w, steps, x);
    if AlwaysSafe(msgs) {
      forall states, k: nat | Handled(states, msgs, k)
        ensures AccountsFollow(Final(states), msgs[..k])
      {
        AgreesWhenSafe(states, msgs, k);
      }
    } else {
      var states, k: nat :| Handled(states, msgs, k) && k < |msgs| && msgs[k].ReorgMsg?
        && !SafeToReorg(Final(states), msgs[k].since);
      if AlwaysAgrees(msgs) {
        UnsafeBreaks(w, states, msgs, k);
      }
    }
  }

  // ---- chains where every reorganisation is safe ----

  lemma NoCoinbaseSent(w: World, steps: nat, x: System)
    requires BitcoinWorld(w) && CoinbasesSpendNothing(w) && NoTaprootCoinbases(w) && Reachable(w, steps, x)
    ensures NoCoinbaseEvents(x.follower.sent)
  {
    SentFits(w, steps, x);
  }

  lemma {:induction false} PlainIsSafe(states: seq<State>, msgs: seq<Msg>)
    requires Trace(states, msgs) && states[0] == START && NoCoinbaseEvents(msgs)
    ensures SafeTrace(states, msgs)
  {
    hide Consumes;
    forall i | 0 <= i < |msgs| && msgs[i].ReorgMsg?
      ensures SafeToReorg(states[i], msgs[i].since)
    {
      TracePrefix(states, msgs, i);
      PlainTrace(states[..i + 1], msgs[..i], 0);
    }
  }

  /**
   * Where no coinbase pays to a taproot address, every run agrees: whatever the node serves, however the halves
   * interleave and whatever is reorganised, draining the queue leaves each balance equal to the unspent outputs.
   */
  lemma PlainChainsAgree(w: World, steps: nat, x: System, states: seq<State>, a: Address)
    requires BitcoinWorld(w) && CoinbasesSpendNothing(w) && NoTaprootCoinbases(w)
    requires Reachable(w, steps, x) && Drains(x, states)
    ensures Final(states).pending == []
    ensures GetOrZero(Final(states).balances, a) == Unspent(x.follower.tables.utxos, a)
    ensures forall h: nat :: LogCell(Final(states), h, a) == Cell(x.follower.tables.utxos, h, a)
  {
    hide BitcoinRules, CoinbasesSpendNothing, NoTaprootCoinbases, Reachable, InStep, Consumes, SafeTrace, Cell, LogCell;
    var sent := x.follower.sent;
    ReachableConsistent(w, steps, x);
    NoCoinbaseSent(w, steps, x);
    PlainTrace(states, sent, 0);
    PlainIsSafe(states, sent);
    DrainedBalanceIsUnspent(w, steps, x, states, a);
  }

  /**
   * There the aggregator gets through the queue exactly when each reorganisation still in it comes after an event at or
   * above its fork point: otherwise the orphaned blocks touched no taproot output, and it panics.
   */
  lemma PlainChainsDrainIff(w: World, steps: nat, x: System)
    requires BitcoinWorld(w) && CoinbasesSpendNothing(w) && NoTaprootCoinbases(w) && Reachable(w, steps, x)
    ensures x.states != []
    ensures (exists states :: Drains(x, states))
       <==> forall i | |x.states| - 1 <= i < |x.follower.sent| :: Preceded(x.follower.sent, i)
  {
    hide BitcoinRules, CoinbasesSpendNothing, NoTaprootCoinbases, Reachable, InStep, Consumes, Trace, Preceded;
    ReachableConsistent(w, steps, x);
    NoCoinbaseSent(w, steps, x);
    PlainNeverStopsIff(x.states, x.follower.sent, |x.states| - 1);
    if states: seq<State> :| Drains(x, states) {
      assert x.states <= states && Trace(states, x.follower.sent);
    }
    if states: seq<State> :| x.states <= states && Trace(states, x.follower.sent) {
      assert Drains(x, states);
    }
  }
}
