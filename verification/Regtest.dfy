/** A chain of a few blocks with forks, small enough to follow by hand, on which the counterexamples are built. */
module Regtest {
  import opened Types
  import opened Indexing
  import opened Integrity
  import opened Chain

  // The input of a coinbase names no transaction.
  const NOWHERE := OutPoint(0, 0xffff_ffff)

  function Coinbase(id: Txid): Tx {
    Tx(id, [NOWHERE], [TxOut(None, 50)], true)
  }

  // Three outputs outside taproot to spend from.
  const BASE := Tx(1, [NOWHERE], [TxOut(None, 50), TxOut(None, 20), TxOut(None, 30)], true)

  const COIN := OutPoint(10, 0)

  /** Pays 50 to address 7. */
  const PAY := Tx(10, [OutPoint(1, 0)], [TxOut(Some(7), 50)], false)

  /** Spends that output and pays it on to address 8. */
  const PASS_ON := Tx(11, [COIN], [TxOut(Some(8), 50)], false)

  /** Touches no taproot output. */
  const PLAIN := Tx(12, [OutPoint(1, 1)], [TxOut(None, 20)], false)

  /** Pays 30 to address 9. */
  const FUND := Tx(13, [OutPoint(1, 2)], [TxOut(Some(9), 30)], false)

  const GENESIS := Block(Header(0, None, 0, true), [BASE])

  // The output is made and spent in one block.
  const SAME_BLOCK := Block(Header(1, Some(0), 1, true), [Coinbase(2), PAY, PASS_ON])
  const REPEATS := Block(Header(4, Some(1), 2, true), [Coinbase(5), PLAIN])

  // The output is made in one block and spent in the next.
  const LOW := Block(Header(2, Some(0), 1, true), [Coinbase(3), PAY, PLAIN])
  const HIGH := Block(Header(3, Some(2), 2, true), [Coinbase(4), PASS_ON])

  // No taproot output in the first block; the second pays later what `LOW` paid.
  const QUIET := Block(Header(5, Some(0), 1, true), [Coinbase(6)])
  const LATER := Block(Header(6, Some(5), 2, true), [Coinbase(7), FUND, PAY])

  const WORLD: World :=
    map[0 := GENESIS, 1 := SAME_BLOCK, 2 := LOW, 3 := HIGH, 4 := REPEATS, 5 := QUIET, 6 := LATER]

  // `QUIET` goes on for two blocks, and is then reorganised to a branch that pays what `LOW` paid, and more.
  const CALM := Block(Header(7, Some(5), 2, true), [Coinbase(20)])
  const TOP := Block(Header(8, Some(7), 3, true), [Coinbase(21)])
  const REMAKE := Block(Header(9, Some(7), 3, true), [Coinbase(22), PAY])
  const OVER := Block(Header(10, Some(9), 4, true), [Coinbase(23), FUND])

  const RESTARTED: World :=
    map[0 := GENESIS, 2 := LOW, 5 := QUIET, 7 := CALM, 8 := TOP, 9 := REMAKE, 10 := OVER]

  // A coinbase pays 50 to address 9; two blocks later the chain forks above it.
  const REWARD := Tx(30, [NOWHERE], [TxOut(Some(9), 50)], true)
  const MINT := Block(Header(11, Some(0), 1, true), [REWARD])
  const PAYING := Block(Header(12, Some(11), 2, true), [Coinbase(31), PAY])
  const OTHER := Block(Header(13, Some(11), 2, true), [Coinbase(32)])
  const NEXT := Block(Header(14, Some(13), 3, true), [Coinbase(33)])

  const MINTED: World := map[0 := GENESIS, 11 := MINT, 12 := PAYING, 13 := OTHER, 14 := NEXT]

  // ---- what the blocks contain ----

  ghost predicate Contains(b: Block, ids: set<Txid>, ins: set<OutPoint>) {
    (forall x | HasTx(b, x) :: x in ids) && (forall o | Spends(b, o) :: o in ins)
  }

  lemma ContentsOf(b: Block, ids: set<Txid>, ins: set<OutPoint>)
    requires forall i | 0 <= i < |b.txs| :: b.txs[i].txid in ids && forall o | o in b.txs[i].inputs :: o in ins
    ensures Contains(b, ids, ins)
  {
    forall o | Spends(b, o)
      ensures o in ins
    {
      InputsAt(b.txs, |b.txs|, o);
    }
  }

  lemma Contents()
    ensures Contains(GENESIS, {1}, {NOWHERE})
    ensures Contains(SAME_BLOCK, {2, 10, 11}, {NOWHERE, OutPoint(1, 0), COIN})
    ensures Contains(LOW, {3, 10, 12}, {NOWHERE, OutPoint(1, 0), OutPoint(1, 1)})
    ensures Contains(HIGH, {4, 11}, {NOWHERE, COIN})
    ensures Contains(REPEATS, {5, 12}, {NOWHERE, OutPoint(1, 1)})
    ensures Contains(QUIET, {6}, {NOWHERE})
    ensures Contains(LATER, {7, 13, 10}, {NOWHERE, OutPoint(1, 2), OutPoint(1, 0)})
  {
    ContentsOf(GENESIS, {1}, {NOWHERE});
    ContentsOf(SAME_BLOCK, {2, 10, 11}, {NOWHERE, OutPoint(1, 0), COIN});
    ContentsOf(LOW, {3, 10, 12}, {NOWHERE, OutPoint(1, 0), OutPoint(1, 1)});
    ContentsOf(HIGH, {4, 11}, {NOWHERE, COIN});
    ContentsOf(REPEATS, {5, 12}, {NOWHERE, OutPoint(1, 1)});
    ContentsOf(QUIET, {6}, {NOWHERE});
    ContentsOf(LATER, {7, 13, 10}, {NOWHERE, OutPoint(1, 2), OutPoint(1, 0)});
  }

  /** The headers are consistent. */
  lemma WorldIsValid()
    ensures ValidWorld(WORLD)
  {
    forall h | h in WORLD
      ensures Linked(WORLD, h)
    {
    }
  }

  /** A block shares its ancestors with its parent. */
  lemma OneUp(w: World, h: Hash, p: Hash)
    requires ValidWorld(w) && h in w && w[h].header.previous == Some(p)
    ensures p in w && w[p].header.height + 1 == w[h].header.height
    ensures AncestorAt(w, p, w[p].header.height) == p && AncestorAt(w, h, w[h].header.height) == h
    ensures forall k: nat | k <= w[p].header.height :: AncestorAt(w, h, k) == AncestorAt(w, p, k)
  {
    assert Linked(w, h);
  }

  lemma Ancestors()
    ensures ValidWorld(WORLD)
    ensures forall h | h in {1, 2, 5} :: h in WORLD && AncestorAt(WORLD, h, 0) == 0 && AncestorAt(WORLD, h, 1) == h
    ensures AncestorAt(WORLD, 3, 0) == 0 && AncestorAt(WORLD, 3, 1) == 2 && AncestorAt(WORLD, 3, 2) == 3
    ensures AncestorAt(WORLD, 4, 0) == 0 && AncestorAt(WORLD, 4, 1) == 1
    ensures AncestorAt(WORLD, 6, 0) == 0 && AncestorAt(WORLD, 6, 1) == 5
  {
    WorldIsValid();
    hide ValidWorld, AncestorAt;
    OneUp(WORLD, 1, 0);
    OneUp(WORLD, 2, 0);
    OneUp(WORLD, 5, 0);
    OneUp(WORLD, 3, 2);
    OneUp(WORLD, 4, 1);
    OneUp(WORLD, 6, 5);
  }

  /** Transaction ids are unique along each branch, and no block spends an output of a later one. */
  lemma WorldIsBitcoin()
    ensures BitcoinWorld(WORLD)
  {
    hide HasTx, Spends;
    Contents();
    Ancestors();
    hide AncestorAt, ValidWorld;
    forall h, k: nat | h in WORLD && k < WORLD[h].header.height
      ensures OlderThan(WORLD[AncestorAt(WORLD, h, k)], WORLD[h])
    {
      if WORLD[h].header.height == 2 && k == 1 {
        assert h in {3, 4, 6};
      } else {
        assert k == 0;
      }
    }
  }

  lemma MoreContents()
    ensures Contains(CALM, {20}, {NOWHERE}) && Contains(TOP, {21}, {NOWHERE})
    ensures Contains(REMAKE, {22, 10}, {NOWHERE, OutPoint(1, 0)})
    ensures Contains(OVER, {23, 13}, {NOWHERE, OutPoint(1, 2)})
    ensures Contains(MINT, {30}, {NOWHERE}) && Contains(PAYING, {31, 10}, {NOWHERE, OutPoint(1, 0)})
    ensures Contains(OTHER, {32}, {NOWHERE}) && Contains(NEXT, {33}, {NOWHERE})
  {
    ContentsOf(CALM, {20}, {NOWHERE});
    ContentsOf(TOP, {21}, {NOWHERE});
    ContentsOf(REMAKE, {22, 10}, {NOWHERE, OutPoint(1, 0)});
    ContentsOf(OVER, {23, 13}, {NOWHERE, OutPoint(1, 2)});
    ContentsOf(MINT, {30}, {NOWHERE});
    ContentsOf(PAYING, {31, 10}, {NOWHERE, OutPoint(1, 0)});
    ContentsOf(OTHER, {32}, {NOWHERE});
    ContentsOf(NEXT, {33}, {NOWHERE});
  }

  lemma RestartedIsValid()
    ensures ValidWorld(RESTARTED)
  {
    forall h | h in RESTARTED
      ensures Linked(RESTARTED, h)
    {
    }
  }

  lemma RestartedAncestors()
    ensures ValidWorld(RESTARTED)
    ensures forall h | h in {2, 5} :: h in RESTARTED && AncestorAt(RESTARTED, h, 0) == 0
    ensures AncestorAt(RESTARTED, 7, 0) == 0 && AncestorAt(RESTARTED, 7, 1) == 5
    ensures forall h | h in {8, 9} ::
      && h in RESTARTED
      && AncestorAt(RESTARTED, h, 0) == 0 && AncestorAt(RESTARTED, h, 1) == 5 && AncestorAt(RESTARTED, h, 2) == 7
    ensures AncestorAt(RESTARTED, 10, 0) == 0 && AncestorAt(RESTARTED, 10, 1) == 5
    ensures AncestorAt(RESTARTED, 10, 2) == 7 && AncestorAt(RESTARTED, 10, 3) == 9 && AncestorAt(RESTARTED, 10, 4) == 10
  {
    RestartedIsValid();
    hide ValidWorld, AncestorAt;
    OneUp(RESTARTED, 2, 0);
    OneUp(RESTARTED, 5, 0);
    OneUp(RESTARTED, 7, 5);
    OneUp(RESTARTED, 8, 7);
    OneUp(RESTARTED, 9, 7);
    OneUp(RESTARTED, 10, 9);
  }

  lemma RestartedIsBitcoin()
    ensures BitcoinWorld(RESTARTED)
  {
    hide HasTx, Spends;
    Contents();
    MoreContents();
    RestartedAncestors();
    hide AncestorAt, ValidWorld;
    forall h, k: nat | h in RESTARTED && k < RESTARTED[h].header.height
      ensures OlderThan(RESTARTED[AncestorAt(RESTARTED, h, k)], RESTARTED[h])
    {
      if k == 0 {
        assert AncestorAt(RESTARTED, h, k) == 0;
      } else if k == 1 {
        assert AncestorAt(RESTARTED, h, k) == 5;
      } else if k == 2 {
        assert AncestorAt(RESTARTED, h, k) == 7;
      } else {
        assert h == 10 && AncestorAt(RESTARTED, h, k) == 9;
      }
    }
  }

  lemma MintedIsValid()
    ensures ValidWorld(MINTED)
  {
    forall h | h in MINTED
      ensures Linked(MINTED, h)
    {
    }
  }

  lemma MintedAncestors()
    ensures ValidWorld(MINTED)
    ensures 11 in MINTED && AncestorAt(MINTED, 11, 0) == 0
    ensures forall h | h in {12, 13} :: h in MINTED && AncestorAt(MINTED, h, 0) == 0 && AncestorAt(MINTED, h, 1) == 11
    ensures AncestorAt(MINTED, 14, 0) == 0 && AncestorAt(MINTED, 14, 1) == 11
    ensures AncestorAt(MINTED, 14, 2) == 13 && AncestorAt(MINTED, 14, 3) == 14
  {
    MintedIsValid();
    hide ValidWorld, AncestorAt;
    OneUp(MINTED, 11, 0);
    OneUp(MINTED, 12, 11);
    OneUp(MINTED, 13, 11);
    OneUp(MINTED, 14, 13);
  }

  lemma MintedIsBitcoin()
    ensures BitcoinWorld(MINTED)
  {
    hide HasTx, Spends;
    Contents();
    MoreContents();
    MintedAncestors();
    hide AncestorAt, ValidWorld;
    forall h, k: nat | h in MINTED && k < MINTED[h].header.height
      ensures OlderThan(MINTED[AncestorAt(MINTED, h, k)], MINTED[h])
    {
      if k == 0 {
        assert AncestorAt(MINTED, h, k) == 0;
      } else if k == 1 {
        assert AncestorAt(MINTED, h, k) == 11;
      } else {
        assert h == 14 && AncestorAt(MINTED, h, k) == 13;
      }
    }
  }
}
