/** The harvester under commands: what a tick may do, and when pausing really pauses. */
module Commands {
  import opened Types
  import opened Schema
  import opened Indexing
  import opened Chain
  import opened Follower

  /** The follower and the two settings that commands change. */
  datatype Control = Control(follower: Follower, startHeight: Option<nat>, endHeight: Option<nat>)

  datatype Input = Tick | Pause | AutoScan | ScanBlock(from: nat, to: nat) | Terminate

  function Max(x: nat, y: nat): nat {
    if x < y then y else x
  }

  /** Where to start: above what is stored, and at the configured height or else the height aimed at. */
  function FirstHeight(latest: Option<nat>, start: Option<nat>, desired: nat): nat {
    var configured := if start.Some? then start.value else desired;
    if latest.Some? then Max(latest.value + 1, configured) else configured
  }

  ghost predicate IsLatest(blocks: map<Hash, BlockRow>, n: Option<nat>) {
    match n
    case None => blocks == map[]
    case Some(k) => NumberTaken(blocks, k) && forall h | h in blocks :: blocks[h].number <= k
  }

  /** Above every height stored. */
  ghost predicate AboveAll(blocks: map<Hash, BlockRow>, n: nat) {
    forall h | h in blocks :: blocks[h].number < n
  }

  /** The first height is the least that is above everything stored and not below the one configured, or aimed at. */
  lemma FirstHeightIsLeast(blocks: map<Hash, BlockRow>, latest: Option<nat>, start: Option<nat>, desired: nat)
    requires IsLatest(blocks, latest)
    ensures var first, configured := FirstHeight(latest, start, desired), if start.Some? then start.value else desired;
      && AboveAll(blocks, first) && first >= configured
      && forall n: nat | AboveAll(blocks, n) && n >= configured :: first <= n
  {
  }

  // ---- one tick ----

  /** The first block after start, when the harvester aims at `desired`. */
  ghost predicate FirstTurn(w: World, start: Option<nat>, desired: nat, f: Follower, latest: Option<nat>, b: Block,
                            orders: BlockOrder, f': Follower) {
    && Starts(w, f, b, orders, f')
    && IsLatest(f.tables.blocks, latest)
    && b.header.height == FirstHeight(latest, start, desired)
  }

  ghost predicate Turn(w: World, start: Option<nat>, desired: nat, f: Follower, f': Follower)
    requires ValidWorld(w)
  {
    || (exists latest, b, orders :: FirstTurn(w, start, desired, f, latest, b, orders, f'))
    || (f.cursor.Some? && f.cursor.value.header.height < desired && Follows(w, f, f'))
  }

  ghost predicate Turns(w: World, start: Option<nat>, desired: nat, f: Follower, steps: nat, f': Follower)
    requires ValidWorld(w)
  {
    if steps == 0 then f' == f
    else
      var before := steps - 1;
      exists m :: Turns(w, start, desired, f, before, m) && Turn(w, start, desired, m, f')
  }

  /** One call of `harvest`: it aims at the end height, or else at whatever tip the node names, and may stop early. */
  ghost predicate Ticks(w: World, x: Control, y: Control)
    requires ValidWorld(w)
  {
    && y.startHeight == x.startHeight
    && y.endHeight == x.endHeight
    && exists desired, steps ::
         && Turns(w, x.startHeight, desired, x.follower, steps, y.follower)
         && (x.endHeight.Some? ==> desired == x.endHeight.value)
  }

  lemma NoTurn(w: World, start: Option<nat>, desired: nat, f: Follower)
    requires ValidWorld(w)
    ensures Turns(w, start, desired, f, 0, f)
  {
  }

  lemma OneMoreTurn(w: World, start: Option<nat>, desired: nat, f: Follower, steps: nat, m: Follower, f': Follower)
    requires ValidWorld(w) && Turns(w, start, desired, f, steps, m) && Turn(w, start, desired, m, f')
    ensures Turns(w, start, desired, f, steps + 1, f')
  {
  }

  lemma TurnIsNext(w: World, start: Option<nat>, desired: nat, f: Follower, f': Follower)
    requires ValidWorld(w) && Turn(w, start, desired, f, f')
    ensures Next(w, f, f')
  {
    hide Starts, Follows;
  }

  /** After a restart the first block is above all that is stored, so a chain is left exactly if its parent is the tip. */
  lemma RestartChainsIff(w: World, start: Option<nat>, desired: nat, f: Follower, latest: Option<nat>, b: Block,
                         orders: BlockOrder, f': Follower, tip: Hash, lo: nat)
    requires BitcoinWorld(w) && StoredChain(w, f.tables, tip, lo)
    requires FirstTurn(w, start, desired, f, latest, b, orders, f')
    ensures AboveAll(f.tables.blocks, b.header.height)
    ensures (exists lo' :: StoredChain(w, f'.tables, b.header.hash, lo')) <==> b.header.previous == Some(tip)
  {
    hide BitcoinRules, StoredChain, ValidWorld, CanIndex, Indexed, Passing, ValidOrders, BlockMsgs, IsLatest;
    FirstHeightIsLeast(f.tables.blocks, latest, start, desired);
    StoredChainLinks(w, f.tables, tip, lo);
    AboveTipIff(w, f.tables, tip, lo, b);
    if !CanIndex(f.tables, b) && exists lo' :: StoredChain(w, f'.tables, b.header.hash, lo') {
      var lo' :| StoredChain(w, f'.tables, b.header.hash, lo');
      StoredChainLinks(w, f'.tables, b.header.hash, lo');
    }
  }

  // ---- commands ----

  function Paused(x: Control): Control {
    x.(endHeight := if x.follower.cursor.Some? then Some(x.follower.cursor.value.header.height) else None)
  }

  /** A rescan beyond the cursor raises the start height, before the node is asked and so even if it fails. */
  function Rescan(x: Control, from: nat): Control {
    if x.follower.cursor.Some? && x.follower.cursor.value.header.height < from then x.(startHeight := Some(from)) else x
  }

  /** A rescan moves the cursor to a served block of the height asked for, without indexing it. */
  ghost predicate Scans(w: World, x: Control, from: nat, to: nat, b: Block, y: Control) {
    && Serves(w, b)
    && b.header.height == from
    && y == Rescan(x, from).(follower := x.follower.(cursor := Some(b)), endHeight := Some(to))
  }

  ghost predicate Obeys(w: World, x: Control, i: Input, y: Control)
    requires ValidWorld(w)
  {
    match i
    case Tick => Ticks(w, x, y)
    case Pause => y == Paused(x)
    case AutoScan => y == x.(endHeight := None)
    case ScanBlock(from, to) => y == Rescan(x, from) || exists b :: Scans(w, x, from, to, b, y)
    case Terminate => y == x
  }

  ghost predicate Runs(w: World, x: Control, inputs: seq<Input>, y: Control)
    requires ValidWorld(w)
  {
    if inputs == [] then y == x
    else
      var init, i := inputs[..|inputs| - 1], inputs[|inputs| - 1];
      exists m :: Runs(w, x, init, m) && Obeys(w, m, i, y)
  }

  lemma NoInput(w: World, x: Control)
    requires ValidWorld(w)
    ensures Runs(w, x, [], x)
  {
  }

  lemma OneMoreInput(w: World, x: Control, inputs: seq<Input>, m: Control, i: Input, y: Control)
    requires ValidWorld(w) && Runs(w, x, inputs, m) && Obeys(w, m, i, y)
    ensures Runs(w, x, inputs + [i], y)
  {
    hide Obeys, ValidWorld;
    assert (inputs + [i])[..|inputs|] == inputs;
  }

  // ---- how far a tick goes ----

  lemma TurnRises(w: World, start: Option<nat>, desired: nat, f: Follower, f': Follower)
    requires ValidWorld(w) && Turn(w, start, desired, f, f') && f.cursor.Some?
    ensures f'.cursor.Some?
    ensures f.cursor.value.header.height < desired
    ensures f.cursor.value.header.height <= f'.cursor.value.header.height <= f.cursor.value.header.height + 1
  {
    hide ValidWorld, Processes, ForkProcesses, UnstoredBranch, CanIndex, CanIndexAll;
  }

  lemma {:induction false} TurnsRise(w: World, start: Option<nat>, desired: nat, f: Follower, steps: nat, f': Follower)
    requires ValidWorld(w) && Turns(w, start, desired, f, steps, f') && f.cursor.Some?
    ensures f'.cursor.Some?
    ensures f.cursor.value.header.height <= f'.cursor.value.header.height
         <= Max(desired, f.cursor.value.header.height)
    decreases steps
  {
    hide ValidWorld, Turn;
    if steps == 0 {
    } else {
      var before := steps - 1;
      var m :| Turns(w, start, desired, f, before, m) && Turn(w, start, desired, m, f');
      TurnsRise(w, start, desired, f, before, m);
      TurnRises(w, start, desired, m, f');
    }
  }

  /** A tick without errors leaves the cursor at the end height at least. */
  ghost predicate Completes(w: World, x: Control, y: Control)
    requires ValidWorld(w)
  {
    && Ticks(w, x, y)
    && y.follower.cursor.Some?
    && (x.endHeight.Some? ==> y.follower.cursor.value.header.height >= x.endHeight.value)
  }

  /** A rescan and one tick without errors bring the cursor to the end of the range, or leave it at its start. */
  lemma RescanReaches(w: World, x: Control, from: nat, to: nat, b: Block, y: Control, z: Control)
    requires ValidWorld(w) && Scans(w, x, from, to, b, y) && Completes(w, y, z)
    ensures z.follower.cursor.value.header.height == Max(from, to)
  {
    hide Turns, ValidWorld;
    var desired, steps :|
      Turns(w, y.startHeight, desired, y.follower, steps, z.follower) && desired == y.endHeight.value;
    TurnsRise(w, y.startHeight, desired, y.follower, steps, z.follower);
  }

  // ---- pausing ----

  lemma {:induction false} NoTurnLeft(w: World, start: Option<nat>, desired: nat, f: Follower, steps: nat, f': Follower)
    requires ValidWorld(w) && Turns(w, start, desired, f, steps, f')
    requires f.cursor.Some? && f.cursor.value.header.height >= desired
    ensures f' == f
    decreases steps
  {
    hide ValidWorld, Follows;
    if steps == 0 {
    } else {
      var before := steps - 1;
      var m :| Turns(w, start, desired, f, before, m) && Turn(w, start, desired, m, f');
      NoTurnLeft(w, start, desired, f, before, m);
      assert false;
    }
  }

  /** With the cursor at or past the end height, a tick changes neither tables nor queue nor cursor. */
  lemma TickIsIdle(w: World, x: Control, y: Control)
    requires ValidWorld(w) && Ticks(w, x, y) && x.follower.cursor.Some? && x.endHeight.Some?
    requires x.follower.cursor.value.header.height >= x.endHeight.value
    ensures y == x
  {
    hide Turns;
    var desired, steps :|
      Turns(w, x.startHeight, desired, x.follower, steps, y.follower) && desired == x.endHeight.value;
    NoTurnLeft(w, x.startHeight, desired, x.follower, steps, y.follower);
  }

  /** After a pause with a cursor, nothing changes however many ticks and further pauses follow. */
  lemma {:induction false} PausedStaysPut(w: World, x: Control, inputs: seq<Input>, y: Control)
    requires ValidWorld(w) && x.follower.cursor.Some? && Runs(w, Paused(x), inputs, y)
    requires forall i | i in inputs :: i.Tick? || i.Pause?
    ensures y == Paused(x)
    decreases |inputs|
  {
    hide ValidWorld, Ticks;
    if inputs == [] {
    } else {
      var init, i := inputs[..|inputs| - 1], inputs[|inputs| - 1];
      var m :| Runs(w, Paused(x), init, m) && Obeys(w, m, i, y);
      assert i in inputs;
      PausedStaysPut(w, x, init, m);
      if i.Tick? {
        TickIsIdle(w, m, y);
      }
    }
  }

  /** The node serves no block at any height the harvester could start from. */
  ghost predicate NothingToStart(w: World, x: Control) {
    forall latest, desired, b | IsLatest(x.follower.tables.blocks, latest) && Serves(w, b) ::
      b.header.height != FirstHeight(latest, x.startHeight, desired)
  }

  lemma StartTick(w: World, x: Control, latest: Option<nat>, desired: nat, b: Block) returns (y: Control)
    requires ValidWorld(w) && x.follower.cursor.None? && x.endHeight.None?
    requires IsLatest(x.follower.tables.blocks, latest) && Serves(w, b)
    requires b.header.height == FirstHeight(latest, x.startHeight, desired)
    ensures Ticks(w, x, y) && y.follower.cursor == Some(b)
    ensures CanIndex(x.follower.tables, b) ==> y.follower.tables == Indexed(x.follower.tables, b)
  {
    hide ValidWorld, IsLatest, Serves, Indexed, CanIndex, BlockMsgs, ValidOrders, Passing;
    var f := x.follower;
    var orders := OrdersExist(f.tables.utxos, b, Passing(f.tables, b));
    var f' := Follower(if CanIndex(f.tables, b) then Indexed(f.tables, b) else f.tables,
                       f.sent + BlockMsgs(f.tables.utxos, b, orders), Some(b));
    y := x.(follower := f');
    assert FirstTurn(w, x.startHeight, desired, f, latest, b, orders, f');
    NoTurn(w, x.startHeight, desired, f);
    OneMoreTurn(w, x.startHeight, desired, f, 0, f, f');
  }

  /** A pause stops every later tick exactly when a first block was fetched before, or there is none to fetch. */
  lemma PausePausesIff(w: World, x: Control)
    requires ValidWorld(w)
    ensures (forall y | Ticks(w, Paused(x), y) :: y == Paused(x))
       <==> x.follower.cursor.Some? || NothingToStart(w, x)
  {
    hide ValidWorld, Ticks, IsLatest, Serves;
    var p := Paused(x);
    if x.follower.cursor.Some? {
      forall y | Ticks(w, p, y)
        ensures y == p
      {
        TickIsIdle(w, p, y);
      }
    } else if NothingToStart(w, x) {
      forall y | Ticks(w, p, y)
        ensures y == p
      {
        NothingStarts(w, p, y);
      }
    } else {
      var latest, desired, b :| IsLatest(x.follower.tables.blocks, latest) && Serves(w, b)
        && b.header.height == FirstHeight(latest, x.startHeight, desired);
      var y := StartTick(w, p, latest, desired, b);
    }
  }

  lemma NothingStarts(w: World, x: Control, y: Control)
    requires ValidWorld(w) && Ticks(w, x, y) && x.follower.cursor.None? && NothingToStart(w, x)
    ensures y == x
  {
    hide ValidWorld, Turns, NothingToStart;
    var desired, steps :| Turns(w, x.startHeight, desired, x.follower, steps, y.follower);
    NeverStarts(w, x, desired, steps, y.follower);
  }

  lemma {:induction false} NeverStarts(w: World, x: Control, desired: nat, steps: nat, f': Follower)
    requires ValidWorld(w) && x.follower.cursor.None? && NothingToStart(w, x)
    requires Turns(w, x.startHeight, desired, x.follower, steps, f')
    ensures f' == x.follower
    decreases steps
  {
    hide ValidWorld, Follows, IsLatest, Serves, Processes;
    if steps == 0 {
    } else {
      var before := steps - 1;
      var m :| Turns(w, x.startHeight, desired, x.follower, before, m) && Turn(w, x.startHeight, desired, m, f');
      NeverStarts(w, x, desired, before, m);
      assert false;
    }
  }

  // ---- from an empty database ----

  lemma {:induction false} TurnsKeep(w: World, start: Option<nat>, desired: nat, f: Follower, steps: nat, f': Follower)
    requires InStep(w, f) && ValidWorld(w) && Turns(w, start, desired, f, steps, f')
    ensures InStep(w, f')
    decreases steps
  {
    hide InStep, ValidWorld, Turn;
    if steps == 0 {
    } else {
      var before := steps - 1;
      var m :| Turns(w, start, desired, f, before, m) && Turn(w, start, desired, m, f');
      TurnsKeep(w, start, desired, f, before, m);
      TurnIsNext(w, start, desired, m, f');
      NextKeeps(w, m, f');
    }
  }

  /** Whatever commands other than rescans arrive, in whatever order, the follower stays in step. */
  lemma {:induction false} CommandsKeepStep(w: World, x: Control, inputs: seq<Input>, y: Control)
    requires ValidWorld(w) && InStep(w, x.follower) && Runs(w, x, inputs, y)
    requires forall i | i in inputs :: !i.ScanBlock?
    ensures InStep(w, y.follower)
    decreases |inputs|
  {
    hide ValidWorld, InStep, Turns;
    if inputs == [] {
    } else {
      var init, i := inputs[..|inputs| - 1], inputs[|inputs| - 1];
      var m :| Runs(w, x, init, m) && Obeys(w, m, i, y);
      assert i in inputs;
      CommandsKeepStep(w, x, init, m);
      if i.Tick? {
        var desired, steps :| Turns(w, m.startHeight, desired, m.follower, steps, y.follower);
        TurnsKeep(w, m.startHeight, desired, m.follower, steps, y.follower);
      }
    }
  }
}
