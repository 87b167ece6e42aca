/** The harvester: it follows the node's chain, one block or one reorganisation at a time, and obeys commands. */
module Harvester {
  import opened Types
  import opened Schema
  import opened Indexing
  import opened Database
  import opened Channel
  import opened Processor
  import opened Draining
  import opened Chain
  import opened Follower
  import opened Commands
  import opened Node

  /** Whether the command loop goes on after this error: not after a fork that failed, or a panic. */
  predicate Retryable(e: Error) {
    e != Other && e != Panic
  }

  class Harvester {
    const client: Client
    const processor: Processor
    var startHeight: Option<nat>
    var endHeight: Option<nat>
    var cursor: Option<Block>

    // Every error met, in order.
    ghost var errors: seq<Error>

    ghost function View(): Follower
      reads this, processor.db, processor.sender
    {
      Follower(processor.db.View(), processor.sender.sent, cursor)
    }

    ghost function Settings(): Control
      reads this, processor.db, processor.sender
    {
      Control(View(), startHeight, endHeight)
    }

    ghost predicate Valid()
      reads this, processor.sender
    {
      processor.sender.Valid() && client.Valid()
    }

    /** On whatever the database holds: nothing, or what an earlier run left. */
    constructor (client: Client, processor: Processor, startHeight: Option<nat>, endHeight: Option<nat>)
      requires processor.sender.Valid() && client.Valid()
      ensures this.client == client && this.processor == processor
      ensures this.startHeight == startHeight && this.endHeight == endHeight && errors == []
      ensures Valid() && View() == Follower(processor.db.View(), processor.sender.sent, None)
    {
      this.client, this.processor, this.startHeight, this.endHeight := client, processor, startHeight, endHeight;
      cursor, errors := None, [];
    }

    /** The result of a step, and the errors it adds: one if it fails, none if it passes. */
    ghost predicate Logs(r: Outcome, before: seq<Error>)
      reads this
    {
      errors == before + if r.Fail? then [r.error] else []
    }

    // ---- commands ----

    method Pause()
      modifies this`endHeight
      ensures endHeight == if cursor.Some? then Some(cursor.value.header.height) else None
      ensures Settings() == Paused(old(Settings()))
    {
      endHeight := if cursor.Some? then Some(cursor.value.header.height) else None;
    }

    method AutoScan()
      modifies this`endHeight
      ensures endHeight == None && Settings() == old(Settings()).(endHeight := None)
    {
      endHeight := None;
    }

    /** Moves the cursor to the block at `from` without indexing it. */
    method ScanBlocks(from: nat, to: nat) returns (r: Outcome)
      requires Valid()
      modifies this, client
      ensures Valid() && client.calls == old(client.calls) + 1 && Logs(r, old(errors))
      ensures var block := client.BlockAt(old(client.calls), from);
        && r == (if block.Some? then Pass else Fail(Rpc))
        && cursor == (if block.Some? then block else old(cursor))
        && endHeight == if block.Some? then Some(to) else old(endHeight)
      ensures startHeight ==
        if old(cursor).Some? && old(cursor).value.header.height < from then Some(from) else old(startHeight)
      ensures r.Pass? ==> cursor.Some? && Scans(client.world, old(Settings()), from, to, cursor.value, Settings())
      ensures r.Fail? ==> Settings() == Rescan(old(Settings()), from)
    {
      if cursor.Some? && cursor.value.header.height < from {
        startHeight := Some(from);
      }
      var block := client.ScanBlock(from);
      if block.None? {
        errors := errors + [Rpc];
        return Fail(Rpc);
      }
      cursor := block;
      endHeight := Some(to);
      return Pass;
    }

    // ---- the fork walk ----

    /**
     * Walk from `head` down its branch to genesis or the first stored block. The list is the unstored part of the
     * branch, head first, and empty exactly when the walk ends where it starts. Only the node can make it fail.
     */
    method GetForkBlocks(head: Block) returns (r: Outcome, fork: seq<Block>)
      requires Valid() && Serves(client.world, head)
      modifies client
      ensures Valid() && client.calls >= old(client.calls)
      ensures r.Pass? ==> (fork == [] <==> head.header.height == 0 || head.header.hash in processor.db.blocks)
      ensures r.Pass? && fork != [] ==>
        UnstoredBranch(client.world, processor.db.View(), head, fork[|fork| - 1].header.height, fork)
      ensures r.Fail? ==> r == Fail(Rpc) && head.header.height > 0 && head.header.hash !in processor.db.blocks
      ensures client.unanswered == old(client.unanswered) + if r.Fail? then 1 else 0
      ensures client.Up(old(client.calls)) ==> r.Pass?
    {
      hide WalkedTo, UnstoredBranch, Linked, ValidWorld;
      ghost var w, t := client.world, processor.db.View();
      fork := [];
      var current := head;
      WalkStarts(w, t, head);
      while true
        invariant Valid() && client.calls >= old(client.calls)
        invariant Serves(w, current) && WalkedTo(w, t, head, fork, current)
        invariant fork == [] ==> current == head
        invariant fork != [] ==> head.header.height > 0 && head.header.hash !in t.blocks
        invariant client.unanswered == old(client.unanswered)
        decreases current.header.height
      {
        var processed := processor.IsProcessed(current.header.hash);
        if current.header.height == 0 || processed {
          if fork != [] {
            WalkEnds(w, t, head, fork, current);
          }
          return Pass, fork;
        }
        ParentServed(w, current);
        var parent := client.ScanBlockByHash(current.header.previous.value);
        if parent.None? {
          return Fail(Rpc), fork;
        }
        WalkOn(w, t, head, fork, current, parent.value);
        fork := fork + [current];
        current := parent.value;
      }
    }

    /**
     * Panics, where the source takes the last block of an empty list, exactly when the head is already stored. Otherwise
     * and with the node answering, it passes exactly when the fork indexes; else its messages stay in the queue.
     */
    method HandleReorg(head: Block)
      returns (r: Outcome, ghost n: nat, ghost fork: seq<Block>, ghost orders: seq<BlockOrder>)
      requires Valid() && NextUp(client.world, View(), head)
      requires head.header.previous != Some(cursor.value.header.hash)
      modifies this`errors, processor.db, processor.sender`sent, client
      ensures Valid() && client.calls >= old(client.calls) && Logs(r, old(errors))
      ensures r == Fail(Panic) <==> head.header.hash in old(processor.db.blocks)
      ensures client.unanswered == old(client.unanswered) + if r == Fail(Rpc) then 1 else 0
      ensures client.Up(old(client.calls)) ==> r != Fail(Rpc)
      ensures r.Fail? ==> r.error in {Rpc, Panic, Other}
      ensures r in {Fail(Rpc), Fail(Panic)} ==> View() == old(View())
      ensures r !in {Fail(Rpc), Fail(Panic)} ==>
        && UnstoredBranch(client.world, old(processor.db.View()), head, n, fork)
        && (r.Pass? <==> CanIndexAll(RolledBack(old(processor.db.View()), n), fork))
        && Forks(client.world, old(View()), head, n, fork, orders,
                 View().(cursor := if r.Pass? then Some(head) else cursor))
    {
      hide UnstoredBranch, CanIndexAll, IndexAll, RolledBack, ValidAllOrders, TriedOrders, AllMsgs, ValidWorld;
      n, orders := 0, [];
      var blocks;
      r, blocks := GetForkBlocks(head);
      fork := blocks;
      if r.Fail? {
        errors := errors + [Rpc];
        return;
      }
      if blocks == [] {
        errors := errors + [Panic];
        return Fail(Panic), n, fork, orders;
      }
      n := blocks[|blocks| - 1].header.height;
      r, orders := processor.ProcessFork(blocks);
      if r.Fail? {
        r := Fail(Other);
        errors := errors + [Other];
      }
    }

    /** The first block goes into the cursor before it is indexed, and stays there if that fails. */
    method StartAt(height: nat) returns (r: Outcome, ghost orders: BlockOrder)
      requires Valid() && cursor.None?
      modifies this`cursor, this`errors, processor.db, processor.sender`sent, client
      ensures Valid() && client.calls == old(client.calls) + 1 && Logs(r, old(errors))
      ensures cursor == client.BlockAt(old(client.calls), height)
      ensures cursor.Some? ==> Starts(client.world, old(View()), cursor.value, orders, View())
      ensures cursor.Some? ==> r == ProcessOutcome(old(processor.db.View()), cursor.value)
      ensures cursor.None? ==> r == Fail(Rpc) && View() == old(View())
      ensures client.unanswered == old(client.unanswered) + if r == Fail(Rpc) then 1 else 0
      ensures InStep(client.world, old(View())) ==> InStep(client.world, View()) && (r.Pass? || r == Fail(Rpc))
    {
      hide InStep, CanIndex, Passing, ValidOrders, BlockMsgs, Indexed, ValidWorld;
      var first := client.ScanBlock(height);
      if first.None? {
        errors := errors + [Rpc];
        return Fail(Rpc), [];
      }
      cursor := first;
      r, orders := processor.Process(first.value);
      if r.Fail? {
        errors := errors + [r.error];
      }
      if InStep(client.world, old(View())) {
        StartKeeps(client.world, old(View()), first.value, orders, View());
      }
    }

    /**
     * One turn of the loop: the node is asked for the next block, and the chain is extended by it or reorganised to it,
     * as its parent calls for. It fails for want of an answer exactly when a call went without one.
     */
    method Advance() returns (r: Outcome)
      requires Valid() && cursor.Some?
      modifies this`cursor, this`errors, processor.db, processor.sender`sent, client
      ensures Valid() && client.calls > old(client.calls) && Logs(r, old(errors))
      ensures client.unanswered == old(client.unanswered) + if r == Fail(Rpc) then 1 else 0
      ensures var next := client.BlockAt(old(client.calls), old(cursor.value.header.height) + 1);
        && (next.None? ==> r == Fail(Rpc))
        && (next.Some? && client.Up(old(client.calls)) ==> r != Fail(Rpc))
        && (r == Fail(Panic) ==> next.value.header.hash in old(processor.db.blocks))
        && (r !in {Fail(Rpc), Fail(Panic)} ==> StepsTo(client.world, old(View()), next.value, View()))
        && cursor == if r.Pass? then next else old(cursor)
      ensures r in {Fail(Rpc), Fail(Panic)} ==> View() == old(View())
      ensures InStep(client.world, old(View())) ==> InStep(client.world, View()) && (r.Pass? || r == Fail(Rpc))
    {
      hide InStep, ForkProcesses, UnstoredBranch, Passing, CanIndex, CanIndexAll, ValidOrders, BlockMsgs, Indexed;
      hide ValidWorld;
      var last := cursor.value;
      var next := client.ScanBlock(last.header.height + 1);
      if next.None? {
        errors := errors + [Rpc];
        return Fail(Rpc);
      }
      var block := next.value;
      r := Pass;
      HasParent(client.world, block);
      if block.header.previous.Some? {
        if last.header.hash == block.header.previous.value {
          ghost var orders;
          r, orders := processor.Process(block);
          if InStep(client.world, old(View())) {
            ExtendSucceeds(client.world, old(View()), block);
          }
          if r.Fail? {
            errors := errors + [r.error];
            assert Extends(client.world, old(View()), block, orders, View());
            return;
          }
          assert Extends(client.world, old(View()), block, orders, View().(cursor := Some(block)));
        } else {
          ghost var n, fork, orders;
          r, n, fork, orders := HandleReorg(block);
          if InStep(client.world, old(View())) {
            HeadIsNew(client.world, old(View()), block);
            if r == Fail(Other) {
              ForkSucceeds(client.world, old(View()), block, n, fork);
            }
          }
          if r.Fail? {
            return;
          }
          assert Forks(client.world, old(View()), block, n, fork, orders, View().(cursor := Some(block)));
        }
      }
      cursor := Some(block);
      StepsFollow(client.world, old(View()), block, View());
      if InStep(client.world, old(View())) {
        NextKeeps(client.world, old(View()), View());
      }
    }

    /** The loop of a tick: turns while the cursor is below the height aimed at, ending early when one fails. */
    method CatchUp(target: nat, ghost start: Follower, ghost taken: nat) returns (r: Outcome, ghost steps: nat)
      requires Valid() && cursor.Some? && Turns(client.world, startHeight, target, start, taken, View())
      modifies this`cursor, this`errors, processor.db, processor.sender`sent, client
      ensures Valid() && client.calls >= old(client.calls) && Logs(r, old(errors))
      ensures client.unanswered == old(client.unanswered) + if r == Fail(Rpc) then 1 else 0
      ensures Turns(client.world, startHeight, target, start, steps, View())
      ensures r.Pass? ==> cursor.Some? && cursor.value.header.height == Max(target, old(cursor).value.header.height)
      ensures old(cursor.value.header.height) >= target ==> r.Pass? && View() == old(View())
      ensures InStep(client.world, old(View())) ==> InStep(client.world, View()) && (r.Pass? || r == Fail(Rpc))
      ensures client.Steady(old(client.calls)) ==>
        ClimbsTo(client.world, client.node(old(client.calls)).value, target, old(cursor), r, cursor)
    {
      hide Turn, Turns, InStep, Follows, StepsTo, ValidWorld, AncestorAt;
      ghost var w, call := client.world, client.calls;
      steps := taken;
      while cursor.value.header.height < target
        invariant Valid() && cursor.Some? && client.calls >= old(client.calls) && errors == old(errors)
        invariant client.unanswered == old(client.unanswered)
        invariant old(cursor.value.header.height) <= cursor.value.header.height
        invariant cursor.value.header.height <= Max(old(cursor.value.header.height), target)
        invariant Turns(w, startHeight, target, start, steps, View())
        invariant InStep(w, old(View())) ==> InStep(w, View())
        invariant old(cursor.value.header.height) >= target ==> View() == old(View())
        invariant client.Steady(call) ==> OnBranch(w, client.node(call).value, old(cursor), cursor.value)
        decreases target - cursor.value.header.height
      {
        ghost var before, asked := View(), client.calls;
        r := Advance();
        if View() != before {
          ghost var b := client.BlockAt(asked, before.cursor.value.header.height + 1).value;
          TurnOfStep(w, startHeight, target, before, b, View());
          OneMoreTurn(w, startHeight, target, start, steps, before, View());
          steps := steps + 1;
        }
        if r.Fail? {
          return;
        }
      }
      r := Pass;
    }

    /** The first block, without a cursor: above everything stored, and not below the configured height. */
    method Begin(target: nat) returns (r: Outcome, ghost steps: nat)
      requires Valid()
      modifies this`cursor, this`errors, processor.db, processor.sender`sent, client
      ensures Valid() && client.calls >= old(client.calls) && Logs(r, old(errors))
      ensures client.unanswered == old(client.unanswered) + if r == Fail(Rpc) then 1 else 0
      ensures Turns(client.world, startHeight, target, old(View()), steps, View())
      ensures old(cursor).Some? ==> r.Pass? && View() == old(View()) && client.calls == old(client.calls)
      ensures r.Pass? ==> cursor.Some?
      ensures old(cursor).None? ==> exists latest ::
        && IsLatest(old(processor.db.blocks), latest)
        && cursor == client.BlockAt(old(client.calls), FirstHeight(latest, startHeight, target))
      ensures old(cursor).None? && cursor.Some? ==> AboveAll(old(processor.db.blocks), cursor.value.header.height)
      ensures old(cursor).None? ==> (cursor.None? <==> r == Fail(Rpc))
      ensures InStep(client.world, old(View())) ==> InStep(client.world, View()) && (r.Pass? || r == Fail(Rpc))
    {
      hide Turn, Turns, InStep, Starts, ValidWorld, CanIndex;
      ghost var w, start := client.world, View();
      NoTurn(w, startHeight, target, start);
      r, steps := Pass, 0;
      if cursor.None? {
        var latest := processor.db.LatestBlockNum();
        ghost var orders;
        FirstHeightIsLeast(processor.db.blocks, latest, startHeight, target);
        r, orders := StartAt(FirstHeight(latest, startHeight, target));
        if cursor.Some? {
          TurnOfStart(w, startHeight, target, start, latest, cursor.value, orders, View());
          OneMoreTurn(w, startHeight, target, start, 0, start, View());
          steps := 1;
        }
      }
    }

    /** The height a tick aims at: the end height, or else that of the node's tip. */
    method Desired() returns (r: Option<nat>)
      requires Valid()
      modifies client
      ensures Valid() && client.calls == old(client.calls) + if endHeight.Some? then 0 else 1
      ensures r == if endHeight.Some? then endHeight else client.TipAt(old(client.calls))
      ensures client.unanswered == old(client.unanswered) + if r.None? then 1 else 0
    {
      if endHeight.Some? {
        return endHeight;
      }
      r := client.TipNumber();
    }

    /**
     * A tick of the harvester. Without errors it ends at the height aimed at, or stays where it is beyond that. From a
     * state in step it ends in one, only a call without an answer can make it fail, and a node that keeps to one chain is
     * followed to its tip.
     */
    method Harvest() returns (r: Outcome)
      requires Valid()
      modifies this`cursor, this`errors, processor.db, processor.sender`sent, client
      ensures Valid() && client.calls >= old(client.calls) && Logs(r, old(errors))
      ensures client.unanswered == old(client.unanswered) + if r == Fail(Rpc) then 1 else 0
      ensures Ticks(client.world, old(Settings()), Settings())
      ensures r.Pass? ==> cursor.Some? && (endHeight.None? ==> client.TipAt(old(client.calls)).Some?)
      ensures r.Pass? ==>
        var desired := if endHeight.Some? then endHeight.value else client.TipAt(old(client.calls)).value;
        if old(cursor).Some? then cursor.value.header.height == Max(desired, old(cursor).value.header.height)
        else exists latest ::
          && IsLatest(old(processor.db.blocks), latest)
          && cursor.value.header.height == Max(desired, FirstHeight(latest, startHeight, desired))
      ensures r.Pass? && old(cursor).None? ==> AboveAll(old(processor.db.blocks), cursor.value.header.height)
      ensures old(cursor).Some? && endHeight.Some? && old(cursor).value.header.height >= endHeight.value ==>
        r.Pass? && Settings() == old(Settings())
      ensures InStep(client.world, old(View())) ==> InStep(client.world, View()) && (r.Pass? || r == Fail(Rpc))
      ensures client.Steady(old(client.calls)) && InStep(client.world, old(View())) ==>
        FollowsTo(client.world, old(Settings()), client.node(old(client.calls)).value, r, cursor)
    {
      hide Turns, Ticks, InStep, ValidWorld, IsLatest, AboveAll, FollowsTo, ClimbsTo, AncestorAt, FirstHeight;
      ghost var w, before := client.world, Settings();
      ghost var start, call, steps := View(), client.calls, 0;
      var target := Desired();
      if target.None? {
        NoTurn(w, startHeight, 0, start);
        TickOf(w, before, Settings(), 0, 0);
        errors := errors + [Rpc];
        return Fail(Rpc);
      }
      r, steps := Begin(target.value);
      ghost var first := cursor;
      if r.Pass? {
        r, steps := CatchUp(target.value, start, steps);
      }
      TickOf(w, before, Settings(), target.value, steps);
      if r.Pass? && before.follower.cursor.None? {
        AboveMore(old(processor.db.blocks), first.value.header.height, cursor.value.header.height);
      }
      if client.Steady(call) && InStep(w, start) {
        TipFollowed(client, before, call, target.value, first, r, View());
      }
    }

    /** One command, or a tick where no command is waiting. Only a failed fork or a panic ends the harvester. */
    method Obey(i: Input) returns (r: Outcome)
      requires Valid()
      modifies this, processor.db, processor.sender`sent, client
      ensures Valid() && client.calls >= old(client.calls)
      ensures errors == old(errors) || errors == old(errors) + [LastOf(errors)]
      ensures Obeys(client.world, old(Settings()), i, Settings())
      ensures i.Tick? && errors == old(errors) ==>
        && r.Pass?
        && Completes(client.world, old(Settings()), Settings())
        && (old(endHeight).None? ==> client.TipAt(old(client.calls)).Some?)
        && (old(endHeight).None? ==> cursor.value.header.height >= client.TipAt(old(client.calls)).value)
      ensures i.Tick? && errors != old(errors) ==>
        r == if LastOf(errors) in {Other, Panic} then Fail(LastOf(errors)) else Pass
      ensures i.ScanBlock? ==>
        r == if client.BlockAt(old(client.calls), i.from).Some? then Pass else Fail(Rpc)
      ensures !i.Tick? && !i.ScanBlock? ==> r.Pass?
      ensures !i.Tick? ==> errors == old(errors) + if r.Fail? then [Rpc] else []
    {
      hide Ticks, ValidWorld, FollowsTo, InStep, IsLatest, AboveAll;
      r := Pass;
      match i {
        case Terminate =>
        case ScanBlock(from, to) =>
          r := ScanBlocks(from, to);
        case Pause =>
          Pause();
        case AutoScan =>
          AutoScan();
        case Tick =>
          r := Harvest();
          if r.Fail? && Retryable(r.error) {
            r := Pass;
          }
      }
    }

    /**
     * The command loop over whatever arrives, a tick standing for a wait that no command interrupts. It ends at a
     * terminate command, a rescan the node does not answer, or the tick in which a fork fails or the walk panics.
     */
    method Start(inputs: seq<Input>) returns (r: Outcome, done: nat)
      requires Valid()
      modifies this, processor.db, processor.sender`sent, client
      ensures Valid() && done <= |inputs| && old(errors) <= errors
      ensures Runs(client.world, old(Settings()), inputs[..done], Settings())
      ensures forall i | 0 <= i < done :: !inputs[i].Terminate?
      ensures r.Pass? ==> done == |inputs| || inputs[done].Terminate?
      ensures r.Pass? ==> forall k | |old(errors)| <= k < |errors| :: errors[k] !in {Other, Panic}
      ensures r.Fail? ==> done > 0 && |errors| > |old(errors)| && r.error == LastOf(errors)
      ensures r.Fail? ==> inputs[done - 1].ScanBlock? || (inputs[done - 1].Tick? && r.error in {Other, Panic})
      ensures r.Fail? ==> forall k | |old(errors)| <= k < |errors| - 1 :: errors[k] !in {Other, Panic}
    {
      hide Runs, Obeys, Completes, ValidWorld;
      ghost var w, start := client.world, Settings();
      NoInput(w, start);
      done := 0;
      while done < |inputs|
        invariant Valid() && done <= |inputs| && old(errors) <= errors
        invariant Runs(w, start, inputs[..done], Settings())
        invariant forall i | 0 <= i < done :: !inputs[i].Terminate?
        invariant forall k | |old(errors)| <= k < |errors| :: errors[k] !in {Other, Panic}
      {
        if inputs[done].Terminate? {
          break;
        }
        ghost var before := Settings();
        r := Obey(inputs[done]);
        OneMoreInput(w, start, inputs[..done], before, inputs[done], Settings());
        assert inputs[..done] + [inputs[done]] == inputs[..done + 1];
        done := done + 1;
        if r.Fail? {
          return;
        }
      }
      r := Pass;
    }
  }

  /** The last error met. */
  ghost function LastOf(errors: seq<Error>): Error {
    if errors == [] then Rpc else errors[|errors| - 1]
  }

  /** The cursor moved along the branch of `tip`, if it moved. */
  ghost predicate OnBranch(w: World, tip: Hash, first: Option<Block>, c: Block)
    requires ValidWorld(w)
  {
    && tip in w
    && (first != Some(c) ==>
          && c.header.height <= w[tip].header.height
          && c.header.hash == AncestorAt(w, tip, c.header.height))
  }

  /** From `first` up to height `target` along the branch of `tip`, if the branch is that high. */
  ghost predicate ClimbsTo(w: World, tip: Hash, target: nat, first: Option<Block>, r: Outcome, cursor: Option<Block>)
    requires ValidWorld(w)
  {
    tip in w && first.Some? && target <= w[tip].header.height ==>
      && r != Fail(Rpc)
      && (first.value.header.height >= target ==> cursor == first)
      && (r.Pass? && first.value.header.height < target ==>
            cursor.Some? && cursor.value.header.hash == AncestorAt(w, tip, target))
  }

  /** Without an end height, and not told to start beyond it, the tick ends on the node's tip. */
  ghost predicate FollowsTo(w: World, x: Control, tip: Hash, r: Outcome, cursor: Option<Block>)
    requires ValidWorld(w)
  {
    tip in w && x.endHeight.None?
    && (x.follower.cursor.None? && x.startHeight.Some? ==> x.startHeight.value <= w[tip].header.height) ==>
      && r.Pass?
      && cursor ==
         if x.follower.cursor.Some? && x.follower.cursor.value.header.height >= w[tip].header.height
         then x.follower.cursor
         else Some(w[tip])
  }

  lemma NothingStored(w: World, f: Follower, latest: Option<nat>)
    requires InStep(w, f) && f.cursor.None? && IsLatest(f.tables.blocks, latest)
    ensures latest.None?
  {
  }

  lemma ServedTip(w: World, f: Follower, tip: Hash)
    requires InStep(w, f) && ValidWorld(w) && f.cursor.Some? && tip in w
    requires f.cursor.value.header.hash == AncestorAt(w, tip, w[tip].header.height)
    ensures f.cursor == Some(w[tip])
  {
    TipOfBranch(w, tip);
  }

  /** What the parts of a tick come to, when the node keeps to one chain. */
  lemma TipFollowed(client: Client, x: Control, call: nat, target: nat, first: Option<Block>, r: Outcome, y: Follower)
    requires client.Valid() && client.Steady(call) && InStep(client.world, x.follower)
    requires InStep(client.world, y) && (r.Pass? || r == Fail(Rpc))
    requires x.endHeight.None? ==> Some(target) == client.TipAt(call)
    requires x.follower.cursor.Some? ==> first == x.follower.cursor
    requires x.follower.cursor.None? ==> exists latest ::
      && IsLatest(x.follower.tables.blocks, latest)
      && first == client.BlockAt(if x.endHeight.None? then call + 1 else call,
                                 FirstHeight(latest, x.startHeight, target))
    requires first.Some? ==> ClimbsTo(client.world, client.node(call).value, target, first, r, y.cursor)
    ensures FollowsTo(client.world, x, client.node(call).value, r, y.cursor)
  {
    hide ValidWorld, InStep, AncestorAt, IsLatest;
    var w, tip := client.world, client.node(call).value;
    assert client.node(call + 1) == Some(tip);
    if x.endHeight.None? {
      if x.follower.cursor.None? {
        var latest :| IsLatest(x.follower.tables.blocks, latest)
          && first == client.BlockAt(call + 1, FirstHeight(latest, x.startHeight, target));
        NothingStored(w, x.follower, latest);
      }
      if y.cursor.Some? && y.cursor.value.header.hash == AncestorAt(w, tip, target) {
        ServedTip(w, y, tip);
      }
    }
  }

  lemma TickOf(w: World, x: Control, y: Control, desired: nat, steps: nat)
    requires ValidWorld(w) && Turns(w, x.startHeight, desired, x.follower, steps, y.follower)
    requires y.startHeight == x.startHeight && y.endHeight == x.endHeight
    requires x.endHeight.Some? ==> desired == x.endHeight.value
    ensures Ticks(w, x, y)
  {
    hide Turns;
  }

  lemma TurnOfStart(w: World, start: Option<nat>, desired: nat, f: Follower, latest: Option<nat>, b: Block,
                    orders: BlockOrder, f': Follower)
    requires ValidWorld(w) && Starts(w, f, b, orders, f') && IsLatest(f.tables.blocks, latest)
    requires b.header.height == FirstHeight(latest, start, desired)
    ensures Turn(w, start, desired, f, f')
  {
    hide Starts, IsLatest;
    assert FirstTurn(w, start, desired, f, latest, b, orders, f');
  }

  lemma TurnOfStep(w: World, start: Option<nat>, desired: nat, f: Follower, b: Block, f': Follower)
    requires ValidWorld(w) && StepsTo(w, f, b, f') && f.cursor.Some? && f.cursor.value.header.height < desired
    ensures Turn(w, start, desired, f, f')
  {
    hide Follows, StepsTo;
    StepsFollow(w, f, b, f');
  }

  lemma AboveMore(blocks: map<Hash, BlockRow>, n: nat, m: nat)
    requires AboveAll(blocks, n) && n <= m
    ensures AboveAll(blocks, m)
  {
  }

  lemma HasParent(w: World, b: Block)
    requires ValidWorld(w) && Serves(w, b) && b.header.height > 0
    ensures b.header.previous.Some?
  {
    assert Linked(w, b.header.hash);
  }

  lemma WalkStarts(w: World, t: Tables, head: Block)
    requires ValidWorld(w) && Serves(w, head)
    ensures WalkedTo(w, t, head, [], head)
  {
  }

  lemma ParentServed(w: World, b: Block)
    requires ValidWorld(w) && Serves(w, b) && b.header.height > 0
    ensures b.header.previous.Some? && b.header.previous.value in w
    ensures var parent := w[b.header.previous.value];
      Serves(w, parent) && parent.header.hash == b.header.previous.value && parent.header.height == b.header.height - 1
  {
    assert Linked(w, b.header.hash);
    assert Linked(w, b.header.previous.value);
  }

  lemma HeadIsNew(w: World, f: Follower, head: Block)
    requires InStep(w, f) && NextUp(w, f, head)
    ensures ValidWorld(w) && head.header.hash !in f.tables.blocks
  {
    hide HoldsTxs, HoldsRows, HoldsSpends, History, BitcoinRules;
    var tip := f.cursor.value.header.hash;
    var lo :| StoredChain(w, f.tables, tip, lo);
    forall h | h in f.tables.blocks
      ensures w[h].header.height <= f.cursor.value.header.height
    {
      assert StoredBlock(w, f.tables, tip, Range(lo, f.cursor.value.header.height + 1), h);
    }
  }

  lemma ForkSucceeds(w: World, f: Follower, head: Block, n: nat, fork: seq<Block>)
    requires InStep(w, f) && NextUp(w, f, head) && UnstoredBranch(w, f.tables, head, n, fork)
    ensures CanIndexAll(RolledBack(f.tables, n), fork)
  {
    hide StoredChain, CanIndexAll;
    var lo :| StoredChain(w, f.tables, f.cursor.value.header.hash, lo);
    ForkHolds(w, f.tables, f.cursor.value, head, n, fork, lo);
  }
}
