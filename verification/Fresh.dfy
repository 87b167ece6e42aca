/** Whole runs against indexing from scratch: when the tables are those of the cursor's branch, indexed upwards once. */
module Fresh {
  import opened Types
  import opened Sums
  import opened Schema
  import opened Indexing
  import opened Integrity
  import opened Conservation
  import opened Ledger
  import opened Reorg
  import opened Replay
  import opened Aggregation
  import opened Draining
  import opened Drifting
  import opened Chain
  import opened Follower
  import opened Pipeline
  import opened Cooldown

  ghost function AncestorBlock(w: World, h: Hash, k: nat): (b: Block)
    requires ValidWorld(w) && h in w && k <= w[h].header.height
    ensures b == w[AncestorAt(w, h, k)]
  {
    w[AncestorAt(w, h, k)]
  }

  /** The blocks of the branch of `h` from height `lo` up to below `top`. */
  ghost function Stretch(w: World, h: Hash, lo: nat, top: nat): (bs: seq<Block>)
    requires ValidWorld(w) && h in w && lo <= top <= w[h].header.height + 1
    ensures |bs| == top - lo
    decreases top
  {
    if lo == top then [] else Stretch(w, h, lo, top - 1) + [AncestorBlock(w, h, top - 1)]
  }

  lemma {:induction false} StretchAt(w: World, h: Hash, lo: nat, top: nat, i: nat)
    requires ValidWorld(w) && h in w && lo <= top <= w[h].header.height + 1 && i < top - lo
    ensures Stretch(w, h, lo, top)[i] == AncestorBlock(w, h, lo + i)
  {
    hide ValidWorld, AncestorAt;
    if i == top - 1 - lo {
    } else {
      StretchAt(w, h, lo, top - 1, i);
    }
  }

  /** The branch of `h` from height `lo` upwards. */
  ghost function Branch(w: World, h: Hash, lo: nat): (bs: seq<Block>)
    requires ValidWorld(w) && h in w && lo <= w[h].header.height + 1
    ensures |bs| == w[h].header.height + 1 - lo
  {
    Stretch(w, h, lo, w[h].header.height + 1)
  }

  lemma BranchBlocks(w: World, h: Hash, lo: nat)
    requires ValidWorld(w) && h in w && lo <= w[h].header.height + 1
    ensures forall i | 0 <= i < |Branch(w, h, lo)| :: Branch(w, h, lo)[i] == AncestorBlock(w, h, lo + i)
  {
    hide ValidWorld, AncestorAt, AncestorBlock;
    forall i | 0 <= i < |Branch(w, h, lo)|
      ensures Branch(w, h, lo)[i] == AncestorBlock(w, h, lo + i)
    {
      StretchAt(w, h, lo, w[h].header.height + 1, i);
    }
  }

  /** No output of the chain is spent twice along a branch. */
  ghost predicate NoBranchDoubleSpend(w: World)
    requires ValidWorld(w)
  {
    forall h, k: nat, o | h in w && k < w[h].header.height && Spends(w[AncestorAt(w, h, k)], o) && Spends(w[h], o) ::
      Unknown(w, o)
  }

  /** An outpoint that names no transaction, like that of a coinbase. */
  ghost predicate Unknown(w: World, o: OutPoint) {
    forall g | g in w :: !HasTx(w[g], o.txid)
  }

  /** The tables are those of indexing the cursor's branch from some height upwards, starting from nothing. */
  ghost predicate FreshTables(w: World, f: Follower)
    requires ValidWorld(w)
  {
    match f.cursor
    case None => f == FRESH
    case Some(c) => Serves(w, c) && exists lo :: FreshFrom(w, f.tables, c.header.hash, lo)
  }

  ghost predicate FreshFrom(w: World, t: Tables, tip: Hash, lo: nat)
    requires ValidWorld(w)
  {
    tip in w && lo <= w[tip].header.height && t == IndexAll(EMPTY, Branch(w, tip, lo))
  }

  // ---- a branch indexed upwards ----

  lemma {:induction false} BranchHolds(w: World, tip: Hash, lo: nat, k: nat)
    requires BitcoinWorld(w) && tip in w && lo <= w[tip].header.height + 1 && k <= w[tip].header.height + 1 - lo
    ensures CanIndexUpTo(EMPTY, Branch(w, tip, lo), k)
    ensures Holds(w, IndexUpTo(EMPTY, Branch(w, tip, lo), k), tip, Range(lo, lo + k))
  {
    hide BitcoinRules, Holds, Indexed, CanIndex, AncestorAt, ValidWorld;
    var bs := Branch(w, tip, lo);
    BranchBlocks(w, tip, lo);
    hide Branch;
    if k == 0 {
      EmptyHolds(w, tip);
      assert Range(lo, lo) == {};
    } else {
      BranchHolds(w, tip, lo, k - 1);
      HoldsStep(w, IndexUpTo(EMPTY, bs, k - 1), tip, Range(lo, lo + k - 1), lo + k - 1);
      assert Range(lo, lo + k - 1) + {lo + k - 1} == Range(lo, lo + k);
    }
  }

  lemma FreshIsStored(w: World, t: Tables, tip: Hash, lo: nat)
    requires BitcoinWorld(w) && FreshFrom(w, t, tip, lo)
    ensures StoredChain(w, t, tip, lo)
  {
    hide BitcoinRules, Holds, IndexUpTo;
    BranchHolds(w, tip, lo, w[tip].header.height + 1 - lo);
  }

  /** Blocks one after the other are blocks of two stretches. */
  lemma BranchSplits(w: World, tip: Hash, lo: nat, n: nat)
    requires ValidWorld(w) && tip in w && lo <= n <= w[tip].header.height + 1
    ensures Branch(w, tip, lo) == Branch(w, tip, lo)[..n - lo] + Branch(w, tip, n)
  {
    hide AncestorAt, ValidWorld;
    var all, low, high := Branch(w, tip, lo), Branch(w, tip, lo)[..n - lo], Branch(w, tip, n);
    BranchBlocks(w, tip, lo);
    BranchBlocks(w, tip, n);
    hide Branch;
    forall i | 0 <= i < |all|
      ensures all[i] == (low + high)[i]
    {
    }
  }

  lemma MirrorIsReversed(fork: seq<Block>, bs: seq<Block>)
    requires |fork| == |bs| && forall i | 0 <= i < |fork| :: fork[i] == bs[|bs| - 1 - i]
    ensures Reversed(fork) == bs
  {
    hide Reversed;
    if fork == [] {
      ReversedEmpty(fork);
    } else {
      ReversedAt(fork, 0);
      forall i | 0 <= i < |fork|
        ensures Reversed(fork)[i] == bs[i]
      {
        ReversedAt(fork, i);
      }
    }
  }

  lemma DownAt(w: World, head: Hash, n: nat, fork: seq<Block>, i: nat)
    requires ValidWorld(w) && BranchDown(w, head, n, fork) && i < |fork|
    ensures i <= w[head].header.height && fork[i] == AncestorBlock(w, head, w[head].header.height - i)
  {
    hide AncestorAt, ValidWorld;
  }

  lemma BranchAt(w: World, head: Hash, n: nat, k: nat)
    requires ValidWorld(w) && head in w && n <= k <= w[head].header.height
    ensures Branch(w, head, n)[k - n] == AncestorBlock(w, head, k)
  {
    hide AncestorAt, ValidWorld, AncestorBlock, Stretch;
    StretchAt(w, head, n, w[head].header.height + 1, k - n);
  }

  lemma DownShape(w: World, head: Hash, n: nat, fork: seq<Block>)
    requires ValidWorld(w) && BranchDown(w, head, n, fork)
    ensures head in w && n <= w[head].header.height && |fork| == w[head].header.height + 1 - n
  {
    hide AncestorAt, ValidWorld;
  }

  lemma BranchDownIsReversed(w: World, head: Hash, n: nat, fork: seq<Block>)
    requires ValidWorld(w) && BranchDown(w, head, n, fork)
    ensures head in w && n <= w[head].header.height && Reversed(fork) == Branch(w, head, n)
  {
    hide *;
    DownShape(w, head, n, fork);
    var bs, top := Branch(w, head, n), w[head].header.height;
    forall i | 0 <= i < |fork|
      ensures fork[i] == bs[|bs| - 1 - i]
    {
      DownAt(w, head, n, fork, i);
      BranchAt(w, head, n, top - i);
    }
    MirrorIsReversed(fork, bs);
  }

  // ---- the stretches around a fork point ----

  /** What is below the fork point: all of the branch of `tip` from `lo` that is below `n`. */
  ghost function BelowFork(w: World, tip: Hash, lo: nat, n: nat): seq<Block>
    requires ValidWorld(w) && tip in w && lo <= w[tip].header.height && n <= w[tip].header.height + 1
  {
    if lo < n then Branch(w, tip, lo)[..n - lo] else []
  }

  /** What is at the fork point and above, from `lo` on. */
  ghost function AboveFork(w: World, tip: Hash, lo: nat, n: nat): seq<Block>
    requires ValidWorld(w) && tip in w && lo <= w[tip].header.height && n <= w[tip].header.height + 1
  {
    Branch(w, tip, if lo < n then n else lo)
  }

  lemma {:induction false} IndexTake(t: Tables, bs: seq<Block>, k: nat, m: nat)
    requires k <= m <= |bs|
    ensures IndexUpTo(t, bs[..m], k) == IndexUpTo(t, bs, k)
    ensures CanIndexUpTo(t, bs[..m], k) <==> CanIndexUpTo(t, bs, k)
  {
    hide Indexed, CanIndex;
    if k == 0 {
    } else {
      IndexTake(t, bs, k - 1, m);
    }
  }

  lemma {:induction false} CanIndexConcat(t: Tables, bs: seq<Block>, cs: seq<Block>, k: nat)
    requires k <= |cs| && CanIndexUpTo(t, bs + cs, |bs| + k)
    ensures CanIndexUpTo(IndexAll(t, bs), cs, k)
  {
    hide Indexed, CanIndex;
    if k == 0 {
    } else {
      CanIndexConcat(t, bs, cs, k - 1);
      IndexConcat(t, bs, cs, k - 1);
    }
  }

  /** The tables below the fork point, and the rest indexed on top of them. */
  lemma AroundFork(w: World, t: Tables, tip: Hash, lo: nat, n: nat)
    requires BitcoinWorld(w) && FreshFrom(w, t, tip, lo) && n <= w[tip].header.height + 1
    ensures var low, high := BelowFork(w, tip, lo, n), AboveFork(w, tip, lo, n);
      && CanIndexAll(EMPTY, low)
      && Holds(w, IndexAll(EMPTY, low), tip, Range(if lo < n then lo else n, n))
      && CanIndexAll(IndexAll(EMPTY, low), high)
      && t == IndexAll(IndexAll(EMPTY, low), high)
  {
    hide BitcoinRules, Holds, Indexed, CanIndex, AncestorAt, IndexUpTo, CanIndexUpTo, ValidWorld;
    var all := Branch(w, tip, lo);
    BranchHolds(w, tip, lo, |all|);
    if lo < n {
      var low, high := all[..n - lo], Branch(w, tip, n);
      BranchSplits(w, tip, lo, n);
      BranchHolds(w, tip, lo, n - lo);
      IndexTake(EMPTY, all, n - lo, n - lo);
      CanIndexConcat(EMPTY, low, high, |high|);
      IndexConcat(EMPTY, low, high, |high|);
    } else {
      BranchHolds(w, tip, lo, 0);
      NothingIndexed(EMPTY, []);
      EmptyHolds(w, tip);
      assert Range(n, n) == {};
    }
  }

  lemma BlockOf(w: World, tip: Hash, k: nat)
    requires ValidWorld(w) && tip in w && k <= w[tip].header.height
    ensures w[AncestorAt(w, tip, k)].header.height == k && w[AncestorAt(w, tip, k)].header.hash == AncestorAt(w, tip, k)
  {
    assert Linked(w, AncestorAt(w, tip, k));
  }

  lemma FreshIsUnused(t: Tables, b: Block)
    requires FreshBlock(t, b)
    ensures !Reuses(t, b) && b.header.hash !in t.blocks
  {
  }

  /** Over tables that hold the branch below `n`, what comes on top of it is new. */
  lemma OrphansOnTop(w: World, base: Tables, tip: Hash, lo: nat, n: nat, lo': nat)
    requires BitcoinWorld(w) && tip in w && lo <= w[tip].header.height && n <= w[tip].header.height + 1 && lo' <= n
    requires Holds(w, base, tip, Range(lo', n))
    ensures var high := AboveFork(w, tip, lo, n);
      OnTop(base, high, n) && forall i | 0 <= i < |high| :: !Reuses(base, high[i])
  {
    hide BitcoinRules, Holds, AncestorAt, ValidWorld, FreshBlock, Reuses;
    var from := if lo < n then n else lo;
    var high := Branch(w, tip, from);
    BranchBlocks(w, tip, from);
    hide Branch;
    forall i | 0 <= i < |high|
      ensures high[i].header.height >= n && high[i].header.hash !in base.blocks && !Reuses(base, high[i])
    {
      BlockOf(w, tip, from + i);
      HoldsFresh(w, base, tip, Range(lo', n), from + i);
      FreshIsUnused(base, high[i]);
    }
  }

  lemma OlderIsDistinct(w: World, head: Hash, j: nat, k: nat)
    requires BitcoinWorld(w) && head in w && j < k <= w[head].header.height
    ensures Distinct(w[AncestorAt(w, head, k)], w[AncestorAt(w, head, j)])
  {
    hide BitcoinRules, AncestorAt, ValidWorld, HasTx;
    BlockOf(w, head, j);
    BlockOf(w, head, k);
    BranchIsOrdered(w, head, j, k);
  }

  lemma ForkIsFresh(w: World, base: Tables, head: Hash, lo: nat, n: nat, fork: seq<Block>)
    requires BitcoinWorld(w) && BranchDown(w, head, n, fork) && lo <= n && Holds(w, base, head, Range(lo, n))
    ensures FreshFork(base, fork)
  {
    hide BitcoinRules, Holds, AncestorAt, ValidWorld, FreshBlock, Distinct;
    var top := w[head].header.height;
    forall i | 0 <= i < |fork|
      ensures FreshBlock(base, fork[i])
    {
      HoldsFresh(w, base, head, Range(lo, n), top - i);
    }
    forall i, j | 0 <= i < j < |fork|
      ensures Distinct(fork[i], fork[j])
    {
      OlderIsDistinct(w, head, top - j, top - i);
    }
  }

  lemma SpentTwiceIsUnknown(w: World, head: Hash, j: nat, k: nat, o: OutPoint)
    requires ValidWorld(w) && NoBranchDoubleSpend(w) && head in w && j < k <= w[head].header.height
    requires Spends(w[AncestorAt(w, head, j)], o) && Spends(w[AncestorAt(w, head, k)], o)
    ensures Unknown(w, o)
  {
    hide Spends, ValidWorld, Unknown;
    AncestorOfAncestor(w, head, k, j);
  }

  lemma UnknownIsNowhere(w: World, t: Tables, o: OutPoint)
    requires Unknown(w, o) && HoldsTxs(w, t) && ForeignKeys(t)
    ensures o !in t.utxos
    ensures forall h | h in w :: o !in Made(w[h])
  {
    hide HasTx, Made;
    forall h | h in w
      ensures o !in Made(w[h])
    {
      if o in Made(w[h]) {
        MadeAt(w[h], o);
      }
    }
  }

  lemma ForkSpendsOnce(w: World, base: Tables, head: Hash, n: nat, fork: seq<Block>)
    requires ValidWorld(w) && NoBranchDoubleSpend(w) && BranchDown(w, head, n, fork) && HoldsTxs(w, base)
    requires ForeignKeys(base)
    ensures NoDoubleSpend(base, fork)
  {
    hide NoBranchDoubleSpend, AncestorAt, ValidWorld, Spends, Made, HoldsTxs, ForeignKeys, Unknown;
    var top := w[head].header.height;
    forall i, j, o | 0 <= i < j < |fork| && Spends(fork[i], o) && Spends(fork[j], o)
      ensures Foreign(base, fork, o)
    {
      SpentTwiceIsUnknown(w, head, top - j, top - i, o);
      UnknownIsNowhere(w, base, o);
    }
    hide Foreign;
    ForeignSpends(base, fork);
  }

  // ---- one fork step ----

  /** The stretch below the fork point is the new branch's as well. */
  lemma SharedStretch(w: World, t: Tables, c: Block, head: Block, n: nat, fork: seq<Block>, lo: nat)
    requires ValidWorld(w) && Serves(w, c) && Serves(w, head) && StoredChain(w, t, c.header.hash, lo)
    requires UnstoredBranch(w, t, head, n, fork)
    ensures n <= c.header.height + 1
    ensures BelowFork(w, c.header.hash, lo, n) + Branch(w, head.header.hash, n)
         == Branch(w, head.header.hash, if lo < n then lo else n)
  {
    hide StoredChain, AncestorAt, ValidWorld;
    ForkPointBelow(w, t, c, head, n, fork, lo);
    if lo < n {
      var low := BelowFork(w, c.header.hash, lo, n);
      BranchSplits(w, head.header.hash, lo, n);
      BranchBlocks(w, c.header.hash, lo);
      BranchBlocks(w, head.header.hash, lo);
      hide Branch;
      forall i | 0 <= i < n - lo
        ensures low[i] == Branch(w, head.header.hash, lo)[i]
      {
        SharedBelow(w, t, c, head, n, fork, lo, lo + i);
      }
      assert low == Branch(w, head.header.hash, lo)[..n - lo];
    }
  }

  lemma HoldsParts(w: World, t: Tables, tip: Hash, heights: set<nat>)
    requires ValidWorld(w) && Holds(w, t, tip, heights)
    ensures HoldsTxs(w, t) && ForeignKeys(t)
  {
  }

  lemma HeightsOf(w: World, tip: Hash, lo: nat, n: nat)
    requires ValidWorld(w) && tip in w && lo <= w[tip].header.height && n <= w[tip].header.height + 1
    ensures forall i | 0 <= i < |BelowFork(w, tip, lo, n)| :: BelowFork(w, tip, lo, n)[i].header.height < n
  {
    hide AncestorAt, ValidWorld;
    BranchBlocks(w, tip, lo);
    hide Branch;
    forall i | 0 <= i < |BelowFork(w, tip, lo, n)|
      ensures BelowFork(w, tip, lo, n)[i].header.height < n
    {
      BlockOf(w, tip, lo + i);
    }
  }

  /**
   * A fork step over tables that are as if indexed from scratch leaves such tables for the new branch, exactly when no
   * fork block spends a taproot output of another.
   */
  lemma ForkFreshIff(w: World, f: Follower, lo: nat, head: Block, n: nat, fork: seq<Block>, orders: seq<BlockOrder>,
                     f': Follower)
    requires BitcoinWorld(w) && NoBranchDoubleSpend(w) && f.cursor.Some? && Serves(w, f.cursor.value)
    requires FreshFrom(w, f.tables, f.cursor.value.header.hash, lo) && Forks(w, f, head, n, fork, orders, f')
    ensures f'.cursor == Some(head)
    ensures FreshFrom(w, f'.tables, head.header.hash, if lo < n then lo else n) <==> NoCrossSpend(fork)
  {
    hide BitcoinRules, NoBranchDoubleSpend, Holds, StoredChain, IndexUpTo, CanIndexUpTo, RolledBack, ValidWorld;
    hide ValidAllOrders, TriedOrders, AllMsgs, FreshFork, NoDoubleSpend, NoCrossSpend, OnTop, Reuses, AncestorAt;
    hide Branch, BelowFork, AboveFork, BranchDown;
    var c, hash := f.cursor.value, head.header.hash;
    FreshIsStored(w, f.tables, c.header.hash, lo);
    ForkHolds(w, f.tables, c, head, n, fork, lo);
    SharedStretch(w, f.tables, c, head, n, fork, lo);
    ForkOverStretches(w, f.tables, c, head, n, fork, lo);
    hide FreshFrom;
    FreshFromMeans(w, f'.tables, hash, if lo < n then lo else n);
  }

  lemma FreshFromMeans(w: World, t: Tables, tip: Hash, lo: nat)
    requires ValidWorld(w) && tip in w && lo <= w[tip].header.height
    ensures FreshFrom(w, t, tip, lo) <==> t == IndexAll(EMPTY, Branch(w, tip, lo))
  {
  }

  lemma ForkOverStretches(w: World, t: Tables, c: Block, head: Block, n: nat, fork: seq<Block>, lo: nat)
    requires BitcoinWorld(w) && NoBranchDoubleSpend(w) && Serves(w, c) && Serves(w, head)
    requires FreshFrom(w, t, c.header.hash, lo) && StoredChain(w, t, c.header.hash, lo)
    requires UnstoredBranch(w, t, head, n, fork) && n <= c.header.height + 1
    ensures IndexAll(RolledBack(t, n), fork)
         == IndexAll(EMPTY, BelowFork(w, c.header.hash, lo, n) + Branch(w, head.header.hash, n))
       <==> NoCrossSpend(fork)
  {
    hide BitcoinRules, NoBranchDoubleSpend, Holds, StoredChain, IndexUpTo, CanIndexUpTo, RolledBack, ValidWorld;
    hide FreshFork, NoDoubleSpend, NoCrossSpend, OnTop, Reuses, AncestorAt, Branch, BelowFork, AboveFork, BranchDown;
    var tip, lo' := c.header.hash, if lo < n then lo else n;
    var low, high := BelowFork(w, tip, lo, n), AboveFork(w, tip, lo, n);
    var base := IndexAll(EMPTY, low);
    AroundFork(w, t, tip, lo, n);
    HeightsOf(w, tip, lo, n);
    OrphansOnTop(w, base, tip, lo, n, lo');
    BaseOnNewBranch(w, t, base, c, head, n, fork, lo);
    ForkIsFresh(w, base, head.header.hash, lo', n, fork);
    HoldsParts(w, base, head.header.hash, Range(lo', n));
    ForkSpendsOnce(w, base, head.header.hash, n, fork);
    ReorgIsFreshIndexIff(low, high, fork, n);
    BranchDownIsReversed(w, head.header.hash, n, fork);
  }

  lemma BaseOnNewBranch(w: World, t: Tables, base: Tables, c: Block, head: Block, n: nat, fork: seq<Block>, lo: nat)
    requires ValidWorld(w) && Serves(w, c) && Serves(w, head) && StoredChain(w, t, c.header.hash, lo)
    requires UnstoredBranch(w, t, head, n, fork)
    requires Holds(w, base, c.header.hash, Range(if lo < n then lo else n, n))
    ensures Holds(w, base, head.header.hash, Range(if lo < n then lo else n, n))
  {
    hide Holds, StoredChain, AncestorAt, ValidWorld;
    var heights := Range(if lo < n then lo else n, n);
    forall k | k in heights
      ensures k <= head.header.height && k <= c.header.height
      ensures AncestorAt(w, head.header.hash, k) == AncestorAt(w, c.header.hash, k)
    {
      SharedBelow(w, t, c, head, n, fork, lo, k);
    }
    HoldsOnBranch(w, base, c.header.hash, head.header.hash, heights);
  }

  // ---- whole runs ----

  /** If the step is a fork, no fork block spends a taproot output of another. */
  ghost predicate Uncrossed(w: World, f: Follower, f': Follower)
    requires ValidWorld(w)
  {
    forall head, n, fork, orders | Forks(w, f, head, n, fork, orders, f') :: NoCrossSpend(fork)
  }

  ghost predicate ReachableUncrossed(w: World, steps: nat, y: System)
    requires ValidWorld(w)
  {
    if steps == 0 then y == BOOT
    else
      var before := steps - 1;
      exists x :: ReachableUncrossed(w, before, x) && Moves(w, x, y) && Uncrossed(w, x.follower, y.follower)
  }

  lemma {:induction false} UncrossedIsReachable(w: World, steps: nat, y: System)
    requires ValidWorld(w) && ReachableUncrossed(w, steps, y)
    ensures Reachable(w, steps, y)
    decreases steps
  {
    hide Moves, Uncrossed, ValidWorld;
    if steps == 0 {
    } else {
      var before := steps - 1;
      var x :| ReachableUncrossed(w, before, x) && Moves(w, x, y) && Uncrossed(w, x.follower, y.follower);
      UncrossedIsReachable(w, before, x);
    }
  }

  lemma StartFresh(w: World, f: Follower, b: Block, orders: BlockOrder, f': Follower)
    requires InStep(w, f) && Starts(w, f, b, orders, f')
    ensures FreshFrom(w, f'.tables, b.header.hash, b.header.height) && f'.cursor == Some(b)
  {
    hide InStep, Indexed, CanIndex, BlockMsgs, ValidOrders, Passing, BitcoinRules, AncestorAt;
    StartKeeps(w, f, b, orders, f');
    InStepWorld(w, f);
    TipOfBranch(w, b.header.hash);
    var bs := Branch(w, b.header.hash, b.header.height);
    BranchBlocks(w, b.header.hash, b.header.height);
    hide Branch, ValidWorld;
    assert bs == [b];
    OneMoreIndexed(EMPTY, bs, 0);
    assert f.tables == EMPTY by { NoCursorIsEmpty(w, f); }
  }

  lemma NoCursorIsEmpty(w: World, f: Follower)
    requires InStep(w, f) && f.cursor.None?
    ensures f.tables == EMPTY
  {
  }

  lemma ExtendFresh(w: World, f: Follower, lo: nat, b: Block, orders: BlockOrder, f': Follower)
    requires InStep(w, f) && Extends(w, f, b, orders, f') && ValidWorld(w)
    requires FreshFrom(w, f.tables, f.cursor.value.header.hash, lo)
    ensures FreshFrom(w, f'.tables, b.header.hash, lo) && f'.cursor == Some(b)
  {
    hide InStep, Indexed, CanIndex, BlockMsgs, ValidOrders, Passing, AncestorAt, ValidWorld, BitcoinRules;
    ExtendKeeps(w, f, b, orders, f');
    InStepServes(w, f);
    var c := f.cursor.value;
    var bs, cs := Branch(w, b.header.hash, lo), Branch(w, c.header.hash, lo);
    assert bs == cs + [b] by { BranchGrows(w, b, c, lo); }
    IndexPrefix(EMPTY, cs, [b], |cs|);
    OneMoreIndexed(EMPTY, bs, |cs|);
  }

  lemma InStepServes(w: World, f: Follower)
    requires InStep(w, f) && f.cursor.Some?
    ensures Serves(w, f.cursor.value)
  {
  }

  lemma BranchGrows(w: World, b: Block, c: Block, lo: nat)
    requires ValidWorld(w) && Serves(w, b) && Serves(w, c) && b.header.height == c.header.height + 1
    requires b.header.previous == Some(c.header.hash) && lo <= c.header.height
    ensures Branch(w, b.header.hash, lo) == Branch(w, c.header.hash, lo) + [b]
  {
    var bs, cs := Branch(w, b.header.hash, lo), Branch(w, c.header.hash, lo);
    TipOfBranch(w, b.header.hash);
    BranchBlocks(w, b.header.hash, lo);
    BranchBlocks(w, c.header.hash, lo);
    hide AncestorAt, ValidWorld, Branch;
    forall i | 0 <= i < |cs|
      ensures bs[i] == cs[i]
    {
      ParentBranch(w, b, c, lo + i);
    }
  }

  lemma NextFresh(w: World, f: Follower, f': Follower)
    requires InStep(w, f) && ValidWorld(w) && NoBranchDoubleSpend(w) && FreshTables(w, f)
    requires Next(w, f, f') && Uncrossed(w, f, f')
    ensures FreshTables(w, f')
  {
    hide InStep, ValidWorld, NoBranchDoubleSpend, FreshFrom, NoCrossSpend, Processes, ForkProcesses, UnstoredBranch;
    hide CanIndex, CanIndexAll, RolledBack, BitcoinRules;
    InStepWorld(w, f);
    if b, orders :| Starts(w, f, b, orders, f') {
      StartFresh(w, f, b, orders, f');
    } else {
      var lo :| FreshFrom(w, f.tables, f.cursor.value.header.hash, lo);
      if b, orders :| Extends(w, f, b, orders, f') {
        ExtendFresh(w, f, lo, b, orders, f');
      } else {
        var head, n, fork, orders :| Forks(w, f, head, n, fork, orders, f');
        ForkFreshIff(w, f, lo, head, n, fork, orders, f');
      }
    }
  }

  /** A run without crossed forks leaves, however often it reorganises, the tables of indexing its branch afresh. */
  lemma {:induction false} UncrossedIsFresh(w: World, steps: nat, y: System)
    requires BitcoinWorld(w) && NoBranchDoubleSpend(w) && ReachableUncrossed(w, steps, y)
    ensures FreshTables(w, y.follower)
    decreases steps
  {
    hide InStep, NoBranchDoubleSpend, Next, Uncrossed, FreshTables, BitcoinRules, Consumes, Trace, ValidWorld;
    if steps == 0 {
      assert FreshTables(w, FRESH) by { FreshStart(w); }
    } else {
      var before := steps - 1;
      var x :| ReachableUncrossed(w, before, x) && Moves(w, x, y) && Uncrossed(w, x.follower, y.follower);
      hide ReachableUncrossed;
      UncrossedIsFresh(w, before, x);
      UncrossedIsReachable(w, before, x);
      ReachableConsistent(w, before, x);
      if HarvesterMoves(w, x, y) {
        NextFresh(w, x.follower, y.follower);
      }
    }
  }

  lemma FreshStart(w: World)
    requires ValidWorld(w)
    ensures FreshTables(w, FRESH)
  {
  }

  // ---- and so to Bitcoin's own ledger ----

  lemma BranchSpendsOnce(w: World, tip: Hash, lo: nat)
    requires ValidWorld(w) && NoBranchDoubleSpend(w) && tip in w && lo <= w[tip].header.height
    ensures NoDoubleSpend(EMPTY, Branch(w, tip, lo))
  {
    hide NoBranchDoubleSpend, AncestorAt, ValidWorld, Spends, Made, Unknown;
    var bs := Branch(w, tip, lo);
    BranchBlocks(w, tip, lo);
    hide Branch;
    forall i, j, o | 0 <= i < j < |bs| && Spends(bs[i], o) && Spends(bs[j], o)
      ensures Foreign(EMPTY, bs, o)
    {
      SpentTwiceIsUnknown(w, tip, lo + i, lo + j, o);
      UnknownIsNowhere(w, EMPTY, o);
    }
    hide Foreign;
    ForeignSpends(EMPTY, bs);
  }

  /**
   * From end to end: after any run without crossed forks on a chain without taproot coinbases, the drained balance of
   * an address is what Bitcoin's own rule gives it on the branch of the cursor, plus exactly what it received and spent
   * again within one block; so what the rule gives, where no block spends a taproot output it makes itself.
   */
  lemma BalancesOfLedger(w: World, steps: nat, x: System, states: seq<State>, a: Address) returns (lo: nat)
    requires BitcoinWorld(w) && NoBranchDoubleSpend(w) && CoinbasesSpendNothing(w) && NoTaprootCoinbases(w)
    requires ReachableUncrossed(w, steps, x) && x.follower.cursor.Some? && Drains(x, states)
    ensures FreshFrom(w, x.follower.tables, x.follower.cursor.value.header.hash, lo)
    ensures var bs := Branch(w, x.follower.cursor.value.header.hash, lo);
      && GetOrZero(Final(states).balances, a)
         == Unspent(SequentialUpTo(map[], bs, |bs|), a) + MissedOver(EMPTY, bs, a)
      && ((forall i | 0 <= i < |bs| :: !SpendsItself(bs[i])) ==>
            GetOrZero(Final(states).balances, a) == Unspent(SequentialUpTo(map[], bs, |bs|), a))
  {
    hide BitcoinRules, NoBranchDoubleSpend, CoinbasesSpendNothing, NoTaprootCoinbases, ReachableUncrossed, Drains;
    hide ValidWorld, Unspent, MissedOver, SequentialUpTo, IndexUpTo, CanIndexUpTo, NoDoubleSpend, Holds, AncestorAt;
    UncrossedIsFresh(w, steps, x);
    var tip := x.follower.cursor.value.header.hash;
    lo :| FreshFrom(w, x.follower.tables, tip, lo);
    var bs := Branch(w, tip, lo);
    hide Branch;
    UncrossedIsReachable(w, steps, x);
    PlainChainsAgree(w, steps, x, states, a);
    BranchHolds(w, tip, lo, |bs|);
    BranchSpendsOnce(w, tip, lo);
    ChainOverstatedBy(EMPTY, bs, a);
    ChainMatchesLedgerIff(EMPTY, bs);
  }
}
