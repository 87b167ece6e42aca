/** The chain follower as a state machine: tables, messages and cursor, and what every step keeps. */
module Follower {
  import opened Types
  import opened Schema
  import opened Indexing
  import opened Integrity
  import opened Draining
  import opened Chain

  datatype Follower = Follower(tables: Tables, sent: seq<Msg>, cursor: Option<Block>)

  const FRESH := Follower(EMPTY, [], None)

  /** The tables hold the branch of `tip` from `lo` up to the tip, without a gap. */
  ghost predicate StoredChain(w: World, t: Tables, tip: Hash, lo: nat)
    requires ValidWorld(w)
  {
    tip in w && lo <= w[tip].header.height && Holds(w, t, tip, Range(lo, w[tip].header.height + 1))
  }

  /** `b` is a block the node serves. */
  ghost predicate Serves(w: World, b: Block) {
    b.header.hash in w && w[b.header.hash] == b
  }

  /** The cursor is the tip of the stored chain, and the messages sent describe the tables. */
  ghost predicate InStep(w: World, f: Follower) {
    && BitcoinWorld(w)
    && match f.cursor
       case None => f == FRESH
       case Some(c) =>
         Serves(w, c) && (exists lo :: StoredChain(w, f.tables, c.header.hash, lo)) && History(f.sent, f.tables)
  }

  // ---- the steps ----

  /** One call of `process`: the tables change only if the block indexes, the queue grows either way. */
  ghost predicate Processes(f: Follower, b: Block, orders: BlockOrder, f': Follower) {
    && ValidOrders(f.tables.utxos, b, orders)
    && |orders| == Passing(f.tables, b)
    && f'.tables == (if CanIndex(f.tables, b) then Indexed(f.tables, b) else f.tables)
    && f'.sent == f.sent + BlockMsgs(f.tables.utxos, b, orders)
  }

  /** First block: whatever height the node serves. It stays in the cursor even when it fails. */
  ghost predicate Starts(w: World, f: Follower, b: Block, orders: BlockOrder, f': Follower) {
    f.cursor.None? && Serves(w, b) && Processes(f, b, orders, f') && f'.cursor == Some(b)
  }

  ghost predicate NextUp(w: World, f: Follower, b: Block) {
    f.cursor.Some? && Serves(w, b) && b.header.height == f.cursor.value.header.height + 1
  }

  ghost predicate Extends(w: World, f: Follower, b: Block, orders: BlockOrder, f': Follower) {
    && NextUp(w, f, b)
    && b.header.previous == Some(f.cursor.value.header.hash)
    && Processes(f, b, orders, f')
    && f'.cursor == if CanIndex(f.tables, b) then Some(b) else f.cursor
  }

  /** `fork` is exactly the part of the branch of `head` that is not stored, head first, genesis excepted. */
  ghost predicate UnstoredBranch(w: World, t: Tables, head: Block, n: nat, fork: seq<Block>)
    requires ValidWorld(w)
  {
    && 1 <= n
    && BranchDown(w, head.header.hash, n, fork)
    && (forall i | 0 <= i < |fork| :: fork[i].header.hash !in t.blocks)
    && (n == 1 || AncestorAt(w, head.header.hash, n - 1) in t.blocks)
  }

  /** The walk so far: `fork` is unstored, head first, and `current` comes next below it. */
  ghost predicate WalkedTo(w: World, t: Tables, head: Block, fork: seq<Block>, current: Block)
    requires ValidWorld(w)
  {
    && Serves(w, head)
    && Serves(w, current)
    && |fork| + current.header.height == head.header.height
    && current.header.hash == AncestorAt(w, head.header.hash, current.header.height)
    && (forall i | 0 <= i < |fork| :: WalkedAt(w, head, fork, i))
    && (forall i | 0 <= i < |fork| :: fork[i].header.hash !in t.blocks)
  }

  ghost predicate WalkedAt(w: World, head: Block, fork: seq<Block>, i: nat)
    requires ValidWorld(w) && Serves(w, head) && i < |fork|
  {
    i <= head.header.height && fork[i] == w[AncestorAt(w, head.header.hash, head.header.height - i)]
  }

  lemma WalkOn(w: World, t: Tables, head: Block, fork: seq<Block>, current: Block, parent: Block)
    requires ValidWorld(w) && WalkedTo(w, t, head, fork, current)
    requires current.header.height > 0 && current.header.hash !in t.blocks
    requires Serves(w, parent) && current.header.previous == Some(parent.header.hash)
    ensures WalkedTo(w, t, head, fork + [current], parent)
  {
    hide AncestorAt, ValidWorld;
    var fork' := fork + [current];
    ParentOfAncestor(w, head.header.hash, current.header.height);
    forall i | 0 <= i < |fork'|
      ensures WalkedAt(w, head, fork', i)
    {
      if i < |fork| {
        assert WalkedAt(w, head, fork, i);
      }
    }
  }

  lemma WalkedDown(w: World, t: Tables, head: Block, fork: seq<Block>, current: Block)
    requires ValidWorld(w) && WalkedTo(w, t, head, fork, current) && fork != []
    ensures BranchDown(w, head.header.hash, current.header.height + 1, fork)
    ensures fork[|fork| - 1].header.height == current.header.height + 1
  {
    hide AncestorAt, ValidWorld;
    forall i | 0 <= i < |fork|
      ensures fork[i] == w[AncestorAt(w, head.header.hash, head.header.height - i)]
    {
      assert WalkedAt(w, head, fork, i);
    }
  }

  lemma WalkEnds(w: World, t: Tables, head: Block, fork: seq<Block>, current: Block)
    requires ValidWorld(w) && WalkedTo(w, t, head, fork, current) && fork != []
    requires current.header.height == 0 || current.header.hash in t.blocks
    ensures UnstoredBranch(w, t, head, fork[|fork| - 1].header.height, fork)
  {
    hide AncestorAt, ValidWorld, BranchDown, WalkedAt;
    WalkedDown(w, t, head, fork, current);
  }

  ghost predicate Forks(w: World, f: Follower, head: Block, n: nat, fork: seq<Block>, orders: seq<BlockOrder>,
                        f': Follower)
    requires ValidWorld(w)
  {
    && NextUp(w, f, head)
    && head.header.previous != Some(f.cursor.value.header.hash)
    && UnstoredBranch(w, f.tables, head, n, fork)
    && ForkProcesses(f, n, fork, orders, f')
    && f'.cursor == if CanIndexAll(RolledBack(f.tables, n), fork) then Some(head) else f.cursor
  }

  /** One call of `process_fork`: again the queue grows even when the tables stay as they were. */
  ghost predicate ForkProcesses(f: Follower, n: nat, fork: seq<Block>, orders: seq<BlockOrder>, f': Follower) {
    var base := RolledBack(f.tables, n);
    && ValidAllOrders(base, fork, orders)
    && TriedOrders(base, fork, orders)
    && f'.tables == (if CanIndexAll(base, fork) then IndexAll(base, fork) else f.tables)
    && f'.sent == f.sent + [ReorgMsg(n)] + AllMsgs(base, fork, orders)
  }

  /** One step of the harvester, from any state, whether it succeeds or not. */
  ghost predicate Next(w: World, f: Follower, f': Follower)
    requires ValidWorld(w)
  {
    (exists b, orders :: Starts(w, f, b, orders, f')) || Follows(w, f, f')
  }

  /** Extend the chain by the next block of the node, or reorganise to it. */
  ghost predicate Follows(w: World, f: Follower, f': Follower)
    requires ValidWorld(w)
  {
    || (exists b, orders :: Extends(w, f, b, orders, f'))
    || (exists head, n, fork, orders :: Forks(w, f, head, n, fork, orders, f'))
  }

  /** A step to block `b`, by whichever of the two its parent calls for. */
  ghost predicate StepsTo(w: World, f: Follower, b: Block, f': Follower)
    requires ValidWorld(w)
  {
    || (exists orders :: Extends(w, f, b, orders, f'))
    || (exists n, fork, orders :: Forks(w, f, b, n, fork, orders, f'))
  }

  lemma StepsFollow(w: World, f: Follower, b: Block, f': Follower)
    requires ValidWorld(w) && StepsTo(w, f, b, f')
    ensures Follows(w, f, f')
  {
    hide Extends, Forks;
  }

  /** `f'` is reached from `f` in `steps` steps. */
  ghost predicate Reaches(w: World, f: Follower, steps: nat, f': Follower)
    requires ValidWorld(w)
  {
    if steps == 0 then f' == f
    else
      var before := steps - 1;
      exists m :: Reaches(w, f, before, m) && Next(w, m, f')
  }

  /** Where the walk finds a fork, a fork step follows, whatever comes of it. */
  lemma ForkHappens(w: World, f: Follower, head: Block, n: nat, fork: seq<Block>) returns (f': Follower)
    requires ValidWorld(w) && NextUp(w, f, head) && head.header.previous != Some(f.cursor.value.header.hash)
    requires UnstoredBranch(w, f.tables, head, n, fork)
    ensures Next(w, f, f') && f.sent + [ReorgMsg(n)] <= f'.sent
  {
    hide ValidWorld, UnstoredBranch, NextUp, IndexUpTo, CanIndexUpTo, RolledBack, ValidAllOrders, PassingOrders;
    hide AllMsgs, Tried, IndexAll, CanIndexAll, Starts, Extends;
    var base := RolledBack(f.tables, n);
    var orders := TriedOrdersExist(base, fork, Tried(base, fork));
    f' := Follower(if CanIndexAll(base, fork) then IndexAll(base, fork) else f.tables,
                   f.sent + [ReorgMsg(n)] + AllMsgs(base, fork, orders),
                   if CanIndexAll(base, fork) then Some(head) else f.cursor);
    assert ForkProcesses(f, n, fork, orders, f');
    assert Forks(w, f, head, n, fork, orders, f');
  }

  lemma NoStep(w: World, f: Follower)
    requires ValidWorld(w)
    ensures Reaches(w, f, 0, f)
  {
  }

  lemma OneMoreStep(w: World, f: Follower, steps: nat, m: Follower, f': Follower)
    requires ValidWorld(w) && Reaches(w, f, steps, m) && Next(w, m, f')
    ensures Reaches(w, f, steps + 1, f')
  {
  }

  // ---- what they keep ----

  lemma EmptyHolds(w: World, tip: Hash)
    requires ValidWorld(w) && tip in w
    ensures Holds(w, EMPTY, tip, {}) && History([], EMPTY)
  {
    forall h: nat, a: Address
      ensures Drained(0, [], h, a) == Conservation.Cell(EMPTY.utxos, h, a)
    {
    }
  }

  lemma StartKeeps(w: World, f: Follower, b: Block, orders: BlockOrder, f': Follower)
    requires InStep(w, f) && Starts(w, f, b, orders, f')
    ensures CanIndex(f.tables, b) && InStep(w, f')
  {
    hide Holds, History, Indexed, CanIndex, BlockMsgs, ValidOrder, Passing;
    var tip, h := b.header.hash, b.header.height;
    EmptyHolds(w, tip);
    assert AncestorAt(w, tip, h) == tip;
    HoldsStep(w, EMPTY, tip, {}, h);
    assert {} + {h} == Range(h, h + 1);
    assert StoredChain(w, f'.tables, tip, h);
    HistoryAfterBlock(f.sent, f.tables, b, orders);
  }

  lemma ParentBranch(w: World, b: Block, c: Block, k: nat)
    requires ValidWorld(w) && Serves(w, b) && Serves(w, c) && b.header.height == c.header.height + 1
    requires b.header.previous == Some(c.header.hash) && k <= c.header.height
    ensures AncestorAt(w, b.header.hash, k) == AncestorAt(w, c.header.hash, k)
  {
  }

  /** The next block of the same branch always indexes. */
  lemma ExtendHolds(w: World, t: Tables, c: Block, b: Block, lo: nat)
    requires BitcoinWorld(w) && Serves(w, b) && Serves(w, c) && StoredChain(w, t, c.header.hash, lo)
    requires b.header.height == c.header.height + 1 && b.header.previous == Some(c.header.hash)
    ensures CanIndex(t, b) && StoredChain(w, Indexed(t, b), b.header.hash, lo)
  {
    hide Holds, Indexed, CanIndex, BitcoinRules;
    var tip, h := b.header.hash, b.header.height;
    forall k | k in Range(lo, h)
      ensures AncestorAt(w, tip, k) == AncestorAt(w, c.header.hash, k)
    {
      ParentBranch(w, b, c, k);
    }
    HoldsOnBranch(w, t, c.header.hash, tip, Range(lo, h));
    assert AncestorAt(w, tip, h) == tip;
    HoldsStep(w, t, tip, Range(lo, h), h);
    assert Range(lo, h) + {h} == Range(lo, h + 1);
  }

  lemma ExtendKeeps(w: World, f: Follower, b: Block, orders: BlockOrder, f': Follower)
    requires InStep(w, f) && Extends(w, f, b, orders, f')
    ensures CanIndex(f.tables, b) && InStep(w, f')
  {
    hide StoredChain, History, Indexed, CanIndex, BlockMsgs, ValidOrder, BitcoinRules, Passing;
    var c := f.cursor.value;
    var lo :| StoredChain(w, f.tables, c.header.hash, lo);
    ExtendHolds(w, f.tables, c, b, lo);
    HistoryAfterBlock(f.sent, f.tables, b, orders);
  }

  lemma ExtendSucceeds(w: World, f: Follower, b: Block)
    requires InStep(w, f) && NextUp(w, f, b) && b.header.previous == Some(f.cursor.value.header.hash)
    ensures CanIndex(f.tables, b)
  {
    hide StoredChain, CanIndex, History;
    var lo :| StoredChain(w, f.tables, f.cursor.value.header.hash, lo);
    ExtendHolds(w, f.tables, f.cursor.value, b, lo);
  }

  /** The next block of the branch can always be indexed, its addresses coming out of the hash maps in any order. */
  lemma ExtendHappens(w: World, f: Follower, b: Block, orders: BlockOrder) returns (f': Follower)
    requires InStep(w, f) && NextUp(w, f, b) && b.header.previous == Some(f.cursor.value.header.hash)
    requires ValidOrders(f.tables.utxos, b, orders) && |orders| == |b.txs|
    ensures ValidWorld(w) && Next(w, f, f') && InStep(w, f')
    ensures f' == Follower(Indexed(f.tables, b), f.sent + BlockMsgs(f.tables.utxos, b, orders), Some(b))
  {
    hide InStep, Indexed, CanIndex, ValidOrders, BlockMsgs, Passing, ValidWorld;
    InStepWorld(w, f);
    ExtendSucceeds(w, f, b);
    PassingAll(f.tables, b);
    f' := Follower(Indexed(f.tables, b), f.sent + BlockMsgs(f.tables.utxos, b, orders), Some(b));
    assert Extends(w, f, b, orders, f');
    ExtendKeeps(w, f, b, orders, f');
  }

  lemma OneGenesis(w: World, g: Hash, h: Hash)
    requires ValidWorld(w) && g in w && h in w && w[g].header.height == 0 && w[h].header.height == 0
    ensures g == h
  {
  }

  /** A stored block of the new branch is the old branch's block at its height. */
  lemma StoredIsAncestor(w: World, t: Tables, c: Block, lo: nat, p: Hash)
    requires ValidWorld(w) && Serves(w, c) && StoredChain(w, t, c.header.hash, lo) && p in t.blocks && p in w
    ensures w[p].header.height <= c.header.height && p == AncestorAt(w, c.header.hash, w[p].header.height)
  {
    hide HoldsTxs, HoldsRows, HoldsSpends, AncestorAt, ValidWorld;
    assert StoredBlock(w, t, c.header.hash, Range(lo, c.header.height + 1), p);
  }

  /** Below the fork point the new branch is the stored one. */
  lemma SharedBelow(w: World, t: Tables, c: Block, head: Block, n: nat, fork: seq<Block>, lo: nat, k: nat)
    requires ValidWorld(w) && Serves(w, c) && Serves(w, head) && StoredChain(w, t, c.header.hash, lo)
    requires UnstoredBranch(w, t, head, n, fork)
    requires lo <= k < n
    ensures k <= c.header.height && AncestorAt(w, head.header.hash, k) == AncestorAt(w, c.header.hash, k)
  {
    hide StoredChain, AncestorAt, ValidWorld;
    var p := AncestorAt(w, head.header.hash, n - 1);
    if p in t.blocks {
      StoredIsAncestor(w, t, c, lo, p);
      AncestorOfAncestor(w, head.header.hash, n - 1, k);
      AncestorOfAncestor(w, c.header.hash, n - 1, k);
    } else {
      OneGenesis(w, AncestorAt(w, head.header.hash, 0), AncestorAt(w, c.header.hash, 0));
    }
  }

  /** The fork point is not above the block after the tip. */
  lemma ForkPointBelow(w: World, t: Tables, c: Block, head: Block, n: nat, fork: seq<Block>, lo: nat)
    requires ValidWorld(w) && Serves(w, c) && Serves(w, head) && StoredChain(w, t, c.header.hash, lo)
    requires UnstoredBranch(w, t, head, n, fork)
    ensures n <= c.header.height + 1
  {
    hide StoredChain, ValidWorld;
    var p := AncestorAt(w, head.header.hash, n - 1);
    hide AncestorAt;
    if p in t.blocks {
      StoredIsAncestor(w, t, c, lo, p);
    }
  }

  /** Rolling back to the fork point leaves the part of the new branch that is stored. */
  lemma BaseHolds(w: World, t: Tables, c: Block, head: Block, n: nat, fork: seq<Block>, lo: nat)
    requires ValidWorld(w) && Serves(w, c) && Serves(w, head) && StoredChain(w, t, c.header.hash, lo)
    requires UnstoredBranch(w, t, head, n, fork)
    ensures Holds(w, RolledBack(t, n), head.header.hash, Range(if lo < n then lo else n, n))
  {
    hide Holds, RolledBack;
    var lo' := if lo < n then lo else n;
    ForkPointBelow(w, t, c, head, n, fork, lo);
    HoldsRollback(w, t, c.header.hash, Range(lo, c.header.height + 1), n);
    assert CutAt(Range(lo, c.header.height + 1), n) == Range(lo', n);
    forall k | k in Range(lo', n)
      ensures k <= c.header.height && AncestorAt(w, head.header.hash, k) == AncestorAt(w, c.header.hash, k)
    {
      SharedBelow(w, t, c, head, n, fork, lo, k);
    }
    HoldsOnBranch(w, RolledBack(t, n), c.header.hash, head.header.hash, Range(lo', n));
  }

  lemma ForkOnBase(w: World, base: Tables, head: Hash, lo: nat, n: nat, fork: seq<Block>)
    requires BitcoinWorld(w) && BranchDown(w, head, n, fork) && lo <= n && Holds(w, base, head, Range(lo, n))
    ensures CanIndexAll(base, fork) && StoredChain(w, IndexAll(base, fork), head, lo)
  {
    hide Holds, CanIndexUpTo, IndexUpTo, BitcoinRules, Range, Filled, AncestorAt;
    HoldsFork(w, base, head, lo, n, fork, |fork|);
    FilledEnds(lo, n, w[head].header.height + 1);
  }

  /** A reorganisation always succeeds and leaves the new branch, gapless, up to its head. */
  lemma ForkHolds(w: World, t: Tables, c: Block, head: Block, n: nat, fork: seq<Block>, lo: nat)
    requires BitcoinWorld(w) && Serves(w, c) && Serves(w, head) && StoredChain(w, t, c.header.hash, lo)
    requires UnstoredBranch(w, t, head, n, fork)
    ensures CanIndexAll(RolledBack(t, n), fork)
    ensures StoredChain(w, IndexAll(RolledBack(t, n), fork), head.header.hash, if lo < n then lo else n)
  {
    hide Holds, RolledBack, CanIndexAll, IndexAll, BitcoinRules, BranchDown, StoredChain;
    BaseHolds(w, t, c, head, n, fork, lo);
    ForkOnBase(w, RolledBack(t, n), head.header.hash, if lo < n then lo else n, n, fork);
  }

  lemma HoldsReferences(w: World, t: Tables, tip: Hash, lo: nat)
    requires ValidWorld(w) && StoredChain(w, t, tip, lo)
    ensures Referential(t) && SpentAfterMade(t.utxos)
  {
  }

  lemma AllTried(base: Tables, fork: seq<Block>, orders: seq<BlockOrder>)
    requires CanIndexAll(base, fork) && TriedOrders(base, fork, orders)
    ensures |orders| == |fork| && FullOrders(fork, orders)
  {
    hide CanIndex, CanIndexUpTo, IndexUpTo;
    FailsAt(base, fork, |fork|);
    PassedBlocksAreFull(base, fork, orders, |fork|);
    assert orders[..|fork|] == orders;
  }

  /** A fork step from any cursor, even one moved by a rescan, puts the follower in step if the tables held a chain. */
  lemma ForkHeals(w: World, f: Follower, tip: Hash, lo: nat, head: Block, n: nat, fork: seq<Block>,
                  orders: seq<BlockOrder>, f': Follower)
    requires BitcoinWorld(w) && StoredChain(w, f.tables, tip, lo) && History(f.sent, f.tables)
    requires Forks(w, f, head, n, fork, orders, f')
    ensures CanIndexAll(RolledBack(f.tables, n), fork) && InStep(w, f')
  {
    hide StoredChain, History, Indexed, CanIndex, RolledBack, ValidOrders, BlockMsgs, BitcoinRules, BranchDown;
    hide CanIndexUpTo, IndexUpTo, TriedOrders, ValidWorld;
    TipServed(w, f.tables, tip, lo);
    ForkHolds(w, f.tables, w[tip], head, n, fork, lo);
    AllTried(RolledBack(f.tables, n), fork, orders);
    HoldsReferences(w, f.tables, tip, lo);
    HistoryAfterRollback(f.sent, f.tables, n);
    HistoryAfterFork(f.sent + [ReorgMsg(n)], RolledBack(f.tables, n), fork, orders);
  }

  lemma ForkKeeps(w: World, f: Follower, head: Block, n: nat, fork: seq<Block>, orders: seq<BlockOrder>, f': Follower)
    requires InStep(w, f) && Forks(w, f, head, n, fork, orders, f')
    ensures CanIndexAll(RolledBack(f.tables, n), fork) && InStep(w, f')
  {
    hide StoredChain, History, RolledBack, CanIndexAll, BitcoinRules, ForkProcesses, UnstoredBranch, ValidWorld;
    var tip := f.cursor.value.header.hash;
    var lo :| StoredChain(w, f.tables, tip, lo);
    ForkHeals(w, f, tip, lo, head, n, fork, orders, f');
  }

  lemma NextKeeps(w: World, f: Follower, f': Follower)
    requires InStep(w, f) && Next(w, f, f')
    ensures InStep(w, f')
  {
    hide InStep, Starts, Extends, Forks;
    assert BitcoinWorld(w) by { InStepWorld(w, f); }
    if b, orders :| Starts(w, f, b, orders, f') {
      StartKeeps(w, f, b, orders, f');
    } else if b, orders :| Extends(w, f, b, orders, f') {
      ExtendKeeps(w, f, b, orders, f');
    } else {
      var head, n, fork, orders :| Forks(w, f, head, n, fork, orders, f');
      ForkKeeps(w, f, head, n, fork, orders, f');
    }
  }

  lemma InStepWorld(w: World, f: Follower)
    requires InStep(w, f)
    ensures BitcoinWorld(w)
  {
  }

  lemma FreshInStep(w: World)
    requires BitcoinWorld(w)
    ensures InStep(w, FRESH)
  {
  }

  /** From an empty database every reachable state is in step, whatever the node serves. */
  lemma {:induction false} ReachableInStep(w: World, steps: nat, f: Follower)
    requires BitcoinWorld(w) && Reaches(w, FRESH, steps, f)
    ensures InStep(w, f)
    decreases steps
  {
    hide Next, InStep, BitcoinRules;
    if steps == 0 {
      FreshInStep(w);
    } else {
      hide ValidWorld;
      var before := steps - 1;
      var m :| Reaches(w, FRESH, before, m) && Next(w, m, f);
      ReachableInStep(w, before, m);
      NextKeeps(w, m, f);
    }
  }

  /** Every stored block is at `lo` or above, and links to a stored block one below unless it is at `lo`. */
  ghost predicate Gapless(t: Tables, lo: nat) {
    forall h | h in t.blocks :: LinkedDown(t, lo, h)
  }

  ghost predicate LinkedDown(t: Tables, lo: nat, h: Hash)
    requires h in t.blocks
  {
    var row := t.blocks[h];
    && lo <= row.number
    && (row.number > lo ==>
        && row.previous.Some?
        && row.previous.value in t.blocks
        && t.blocks[row.previous.value].number == row.number - 1)
  }

  lemma StoredChainLinks(w: World, t: Tables, tip: Hash, lo: nat)
    requires ValidWorld(w) && StoredChain(w, t, tip, lo)
    ensures tip in t.blocks && t.blocks[tip].number == w[tip].header.height
    ensures forall h | h in t.blocks :: t.blocks[h].number <= w[tip].header.height && LinkedDown(t, lo, h)
  {
    hide HoldsTxs, HoldsRows, HoldsSpends, Referential;
    var heights := Range(lo, w[tip].header.height + 1);
    assert AncestorAt(w, tip, w[tip].header.height) == tip;
    assert StoredBlock(w, t, tip, heights, tip);
    forall h | h in t.blocks
      ensures t.blocks[h].number <= w[tip].header.height && LinkedDown(t, lo, h)
    {
      assert StoredBlock(w, t, tip, heights, h);
      var k := t.blocks[h].number;
      if k > lo {
        ParentOfAncestor(w, tip, k);
        assert StoredBlock(w, t, tip, heights, AncestorAt(w, tip, k - 1));
      }
    }
  }

  lemma StoredChainUnique(w: World, t: Tables, tip: Hash, lo: nat)
    requires ValidWorld(w) && StoredChain(w, t, tip, lo)
    ensures OneBlockPerHeight(t)
  {
    hide HoldsTxs, HoldsRows, HoldsSpends, Referential;
    var heights := Range(lo, w[tip].header.height + 1);
    forall g, h | g in t.blocks && h in t.blocks && t.blocks[g].number == t.blocks[h].number
      ensures g == h
    {
      assert StoredBlock(w, t, tip, heights, g) && StoredBlock(w, t, tip, heights, h);
    }
  }

  /** In words: one block per height, no gap, every block linked to the one below, and the cursor on top. */
  lemma StoredChainMeans(w: World, f: Follower)
    requires InStep(w, f) && f.cursor.Some?
    ensures OneBlockPerHeight(f.tables)
    ensures exists lo: nat :: Gapless(f.tables, lo)
    ensures var c := f.cursor.value.header;
      && c.hash in f.tables.blocks
      && f.tables.blocks[c.hash].number == c.height
      && forall h | h in f.tables.blocks :: f.tables.blocks[h].number <= c.height
  {
    hide StoredChain, History, BitcoinRules;
    var tip := f.cursor.value.header.hash;
    var lo :| StoredChain(w, f.tables, tip, lo);
    StoredChainUnique(w, f.tables, tip, lo);
    StoredChainLinks(w, f.tables, tip, lo);
    assert Gapless(f.tables, lo);
  }

  // ---- outside these runs: rescans and restarts ----

  /** A rescan moves the cursor without indexing: the follower stays in step only if it lands on the stored tip. */
  lemma ScanStaysInStepIff(w: World, f: Follower, b: Block)
    requires InStep(w, f) && Serves(w, b)
    ensures InStep(w, f.(cursor := Some(b))) <==> f.cursor == Some(b)
  {
    hide StoredChain, History, BitcoinRules;
    if InStep(w, f.(cursor := Some(b))) {
      var lo' :| StoredChain(w, f.tables, b.header.hash, lo');
      StoredChainLinks(w, f.tables, b.header.hash, lo');
      if f.cursor.Some? {
        var c := f.cursor.value;
        var lo :| StoredChain(w, f.tables, c.header.hash, lo);
        StoredChainLinks(w, f.tables, c.header.hash, lo);
        StoredChainUnique(w, f.tables, c.header.hash, lo);
      }
    }
  }

  /**
   * A block above the stored tip, indexed on its own as the first one after a restart: it indexes and leaves a stored
   * chain exactly when its parent is the tip. Nothing checks that; otherwise there is a gap or a broken link.
   */
  lemma AboveTipIff(w: World, t: Tables, tip: Hash, lo: nat, b: Block)
    requires BitcoinWorld(w) && StoredChain(w, t, tip, lo) && Serves(w, b) && b.header.height > w[tip].header.height
    ensures (CanIndex(t, b) && exists lo' :: StoredChain(w, Indexed(t, b), b.header.hash, lo'))
       <==> b.header.previous == Some(tip)
  {
    hide StoredChain, BitcoinRules, Indexed, CanIndex;
    assert tip in w && Serves(w, w[tip]) by { TipServed(w, t, tip, lo); }
    if b.header.previous == Some(tip) {
      assert Linked(w, b.header.hash);
      ExtendHolds(w, t, w[tip], b, lo);
    }
    if CanIndex(t, b) && exists lo' :: StoredChain(w, Indexed(t, b), b.header.hash, lo') {
      var lo' :| StoredChain(w, Indexed(t, b), b.header.hash, lo');
      BlocksAfter(t, b);
      AboveTipParent(w, t, Indexed(t, b), tip, lo, lo', b);
    }
  }

  lemma AboveTipParent(w: World, t: Tables, t': Tables, tip: Hash, lo: nat, lo': nat, b: Block)
    requires ValidWorld(w) && StoredChain(w, t, tip, lo) && Serves(w, b) && b.header.height > w[tip].header.height
    requires t'.blocks == UpsertBlock(t.blocks, b.header) && StoredChain(w, t', b.header.hash, lo')
    ensures b.header.previous == Some(tip)
  {
    hide StoredChain, ValidWorld;
    StoredChainLinks(w, t, tip, lo);
    StoredChainUnique(w, t, tip, lo);
    StoredChainLinks(w, t', b.header.hash, lo');
    assert LinkedDown(t', lo', tip) && LinkedDown(t', lo', b.header.hash);
    assert t'.blocks == t.blocks[b.header.hash := BlockRow(b.header.height, b.header.previous)];
  }

  lemma TipServed(w: World, t: Tables, tip: Hash, lo: nat)
    requires ValidWorld(w) && StoredChain(w, t, tip, lo)
    ensures tip in w && Serves(w, w[tip]) && w[tip].header.hash == tip
  {
    hide Holds;
    assert Linked(w, tip);
  }

  /**
   * A stored block met again, as after a rescan below the tip, fails on the key of its first taproot output: it indexes
   * exactly when it makes no row.
   */
  lemma StoredAgainIff(w: World, t: Tables, tip: Hash, lo: nat, b: Block)
    requires BitcoinWorld(w) && StoredChain(w, t, tip, lo) && Serves(w, b) && b.header.hash in t.blocks
    ensures CanIndex(t, b) <==> Made(b) == map[]
  {
    hide BitcoinRules, HoldsBlocks, HoldsTxs, HoldsSpends, Referential, CanCreateUpTo, Created, ValidWorld;
    assert b.header.timeValid by { ServedFits(w, b); }
    if CanIndex(t, b) && Made(b) != map[] {
      var o :| o in Made(b);
      NewRow(t, b, o);
    }
    if Made(b) == map[] {
      NoRowsNoConflict(t.utxos, b, |b.txs|);
    }
  }

  /** The tip indexed once more, which works when it makes no row: it may only spend what it missed before. */
  lemma TipAgain(w: World, t: Tables, tip: Hash, lo: nat)
    requires BitcoinWorld(w) && StoredChain(w, t, tip, lo) && CanIndex(t, w[tip])
    ensures StoredChain(w, Indexed(t, w[tip]), tip, lo)
  {
    hide Indexed, CanIndex, BitcoinRules, AncestorAt, HasTx, Spends;
    var b, heights := w[tip], Range(lo, w[tip].header.height + 1);
    var t' := Indexed(t, b);
    TipServed(w, t, tip, lo);
    StoredChainLinks(w, t, tip, lo);
    BlocksAfter(t, b);
    assert t'.blocks == t.blocks;
    assert HoldsBlocks(w, t', tip, heights) by { SameBlocksHeld(w, t, t', tip, heights); }
    forall x | x in t'.txs
      ensures t'.txs[x].blockHash in w && HasTx(w[t'.txs[x].blockHash], x)
    {
      TxAfter(t, b, x);
      assert !HasTx(b, x) ==> Lookup(t'.txs, x) == Lookup(t.txs, x);
    }
    TipAgainRows(w, t, b);
    forall o | o in t.utxos
      ensures t.utxos[o].blockNumber <= b.header.height
    {
      RowBelowTip(w, t, tip, lo, o);
    }
    TipAgainSpends(t, heights, b);
    TipAgainReferences(w, t, tip, lo);
  }

  lemma SameBlocksHeld(w: World, t: Tables, t': Tables, tip: Hash, heights: set<nat>)
    requires ValidWorld(w) && tip in w && HoldsBlocks(w, t, tip, heights) && t'.blocks == t.blocks
    ensures HoldsBlocks(w, t', tip, heights)
  {
    forall h | h in t'.blocks
      ensures StoredBlock(w, t', tip, heights, h)
    {
      assert StoredBlock(w, t, tip, heights, h);
    }
  }

  lemma RowBelowTip(w: World, t: Tables, tip: Hash, lo: nat, o: OutPoint)
    requires ValidWorld(w) && StoredChain(w, t, tip, lo) && o in t.utxos
    ensures t.utxos[o].blockNumber <= w[tip].header.height
  {
    hide HoldsRows, HoldsSpends, HoldsTxs, AncestorAt;
    assert StoredBlock(w, t, tip, Range(lo, w[tip].header.height + 1), t.txs[o.txid].blockHash);
  }

  lemma TipAgainRows(w: World, t: Tables, b: Block)
    requires HoldsRows(w, t) && CanIndex(t, b) && Indexed(t, b).blocks == t.blocks
    ensures HoldsRows(w, Indexed(t, b))
  {
    hide Indexed, CanIndex, Made, Spends;
    var t' := Indexed(t, b);
    forall h, o | h in t'.blocks && h in w && o in Made(w[h])
      ensures o in t'.utxos && t'.utxos[o].blockNumber == t'.blocks[h].number
    {
      UtxoAfter(t, b, o);
    }
  }

  lemma TipAgainSpends(t: Tables, heights: set<nat>, b: Block)
    requires HoldsSpends(t, heights) && CanIndex(t, b) && b.header.height in heights
    requires forall o | o in t.utxos :: t.utxos[o].blockNumber <= b.header.height
    ensures HoldsSpends(Indexed(t, b), heights)
  {
    hide Indexed, CanIndex, Made, Spends;
    var t' := Indexed(t, b);
    forall o | o in t'.utxos && t'.utxos[o].spentBlock.Some?
      ensures t'.utxos[o].spentBlock.value >= t'.utxos[o].blockNumber && t'.utxos[o].spentBlock.value in heights
    {
      UtxoAfter(t, b, o);
      if o !in t.utxos {
        MadeAt(b, o);
      }
    }
  }

  lemma TipAgainReferences(w: World, t: Tables, tip: Hash, lo: nat)
    requires BitcoinWorld(w) && StoredChain(w, t, tip, lo) && CanIndex(t, w[tip])
    requires w[tip].header.hash == tip && tip in t.blocks && t.blocks[tip].number == w[tip].header.height
    ensures Referential(Indexed(t, w[tip]))
  {
    hide Indexed, CanIndex, BitcoinRules, HoldsRows, HoldsSpends, HasTx, AncestorAt;
    var b := w[tip];
    forall o | o in t.utxos && HasTx(b, o.txid)
      ensures t.utxos[o].blockNumber == b.header.height
    {
      var g := t.txs[o.txid].blockHash;
      assert StoredBlock(w, t, tip, Range(lo, b.header.height + 1), g);
      if t.blocks[g].number < b.header.height {
        TipOfBranch(w, tip);
        BranchIsOrdered(w, tip, t.blocks[g].number, b.header.height);
      }
    }
    OwnHeightsKeptIff(t, b);
  }

  lemma TipOfBranch(w: World, tip: Hash)
    requires ValidWorld(w) && tip in w
    ensures AncestorAt(w, tip, w[tip].header.height) == tip
  {
  }

  lemma TopOfBoth(w: World, t: Tables, tip: Hash, b: Block, lo: nat)
    requires ValidWorld(w) && StoredChain(w, t, b.header.hash, lo) && Serves(w, b) && tip in w && tip in t.blocks
    requires t.blocks[tip].number == w[tip].header.height >= b.header.height
    ensures b.header.hash == tip
  {
    hide StoredChain, ValidWorld;
    StoredChainLinks(w, t, b.header.hash, lo);
    StoredChainUnique(w, t, b.header.hash, lo);
  }

  /** An extend step from a cursor other than the tip, to a block other than the tip, never leads back into step. */
  lemma StrayExtend(w: World, f: Follower, tip: Hash, lo: nat, b: Block, orders: BlockOrder, f': Follower)
    requires BitcoinWorld(w) && StoredChain(w, f.tables, tip, lo) && f.cursor.Some? && Serves(w, f.cursor.value)
    requires Extends(w, f, b, orders, f') && CanIndex(f.tables, b)
    requires f.cursor.value.header.hash != tip && b.header.hash != tip
    ensures !InStep(w, f')
  {
    hide StoredChain, BitcoinRules, History, Indexed, CanIndex, ValidOrders, BlockMsgs, Passing, ValidWorld;
    StoredChainLinks(w, f.tables, tip, lo);
    BlocksAfter(f.tables, b);
    TipServed(w, f.tables, tip, lo);
    if InStep(w, f') {
      var lo' :| StoredChain(w, f'.tables, b.header.hash, lo');
      if b.header.height <= w[tip].header.height {
        TopOfBoth(w, f'.tables, tip, b, lo');
      } else {
        AboveTipIff(w, f.tables, tip, lo, b);
      }
    }
  }

  /**
   * The first block indexed after a rescan, from tables that held a chain up to `tip`. A fork walks back to what is
   * stored and always repairs the chain. Without a fork the follower is in step again exactly when the rescan went to the
   * tip, or to its parent.
   */
  lemma AfterRescanIff(w: World, f: Follower, tip: Hash, lo: nat, f': Follower)
    requires BitcoinWorld(w) && StoredChain(w, f.tables, tip, lo) && History(f.sent, f.tables)
    requires f.cursor.Some? && Serves(w, f.cursor.value) && Follows(w, f, f') && f'.cursor != f.cursor
    ensures f'.cursor.Some?
    ensures var c, d := f.cursor.value.header, f'.cursor.value.header;
      InStep(w, f') <==> d.previous != Some(c.hash) || c.hash == tip || d.hash == tip
  {
    hide StoredChain, BitcoinRules, History, Processes, ForkProcesses, UnstoredBranch, ValidWorld, CanIndex;
    hide CanIndexAll, InStep, RolledBack;
    var c := f.cursor.value.header;
    if b, orders :| Extends(w, f, b, orders, f') {
      if c.hash == tip || b.header.hash == tip {
        NearTipExtend(w, f, tip, lo, b, orders, f');
      } else {
        StrayExtend(w, f, tip, lo, b, orders, f');
      }
    } else {
      var head, n, fork, orders :| Forks(w, f, head, n, fork, orders, f');
      ForkHeals(w, f, tip, lo, head, n, fork, orders, f');
    }
  }

  /** From the tip, or to it. */
  lemma NearTipExtend(w: World, f: Follower, tip: Hash, lo: nat, b: Block, orders: BlockOrder, f': Follower)
    requires BitcoinWorld(w) && StoredChain(w, f.tables, tip, lo) && History(f.sent, f.tables)
    requires f.cursor.Some? && Serves(w, f.cursor.value) && Extends(w, f, b, orders, f') && CanIndex(f.tables, b)
    requires f.cursor.value.header.hash == tip || b.header.hash == tip
    ensures InStep(w, f')
  {
    hide StoredChain, BitcoinRules, History, Indexed, CanIndex, ValidOrders, BlockMsgs, Passing, ValidWorld;
    if b.header.hash == tip {
      TipAgain(w, f.tables, tip, lo);
    } else {
      ExtendHolds(w, f.tables, f.cursor.value, b, lo);
    }
    PassingAll(f.tables, b);
    HistoryAfterBlock(f.sent, f.tables, b, orders);
  }

  lemma PassingAll(t: Tables, b: Block)
    requires CanIndex(t, b)
    ensures Passing(t, b) == |b.txs|
  {
  }

  lemma ServedFits(w: World, b: Block)
    requires ValidWorld(w) && Serves(w, b)
    ensures b.header.timeValid
  {
    assert Linked(w, b.header.hash);
  }

  lemma {:induction false} NoRowsNoConflict(utxos: Utxos, b: Block, k: nat)
    requires k <= |b.txs| && Created(b.txs, k, b.header.height) == map[]
    ensures CanCreateUpTo(utxos, b, k)
  {
    if k == 0 {
    } else {
      var before, made := Created(b.txs, k - 1, b.header.height), AllOutputs(b.txs[k - 1], b.header.height);
      assert before.Keys + made.Keys == Created(b.txs, k, b.header.height).Keys;
      assert before.Keys == {} && made.Keys == {};
      NoRowsNoConflict(utxos, b, k - 1);
    }
  }
}
