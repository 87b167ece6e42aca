# Verified model of the Bitcoin indexer

The indexer has two halves joined by a message queue. The harvester follows a Bitcoin node: it stores blocks,
transactions and taproot outputs in tables, and sends one net event for each address a transaction changes. On a fork it
rolls the tables back by height, announces the reorganisation and indexes the fork. The aggregator keeps an event log,
balances, hourly statistics and a pending area where coinbase events wait 100 blocks. It compensates a reorganisation by
appending negated rows.

The model has both halves. Objects that change state are classes (`Connection`, `EventChannel`, `Processor`,
`Harvester`, `Aggregator`), and every loop of the source is a loop with invariants. Each method is proved against a
specification function or relation, and the theorems are about those. SQL tables are maps and sequences with their keys,
foreign keys and cascades. The order in which a hash map yields its keys is a ghost result (`orders`), so every theorem
holds for all such orders. A query without ORDER BY returns any permutation of its rows. The clock and the node are parameters: a
function gives what each reading of the clock shows, and for each call to the node the tip of its best chain at that
moment, in a fixed tree of blocks (`World`), or that the call fails.

| file | content |
|---|---|
| `Types`, `Sums`, `Schema` | values, sums over rows, tables and statements |
| `Database`, `Channel`, `Node`, `Clocks`, `Processor`, `Aggregator`, `Harvester` | the classes |
| `Indexing`, `Conservation`, `Integrity`, `Ledger` | what indexing one block means and keeps |
| `Reorg`, `Replay` | exact undo, order of indexing, reorganisation against fresh indexing |
| `Aggregation`, `Maturity`, `Solvency` | the aggregator: agreement, compensation, cooldown, balances |
| `Draining`, `Drifting` | the queue between the halves, failures included; how far reorganisations take the accounts off |
| `Chain`, `Follower`, `Commands` | the branch held by the tables, the follower as a state machine, and under commands |
| `Pipeline`, `Cooldown`, `Boundaries`, `Fresh` | all runs of both halves together: agreement, coinbases, every message boundary, fresh indexing |
| `Snapshots` | the hourly balance series |
| `Regtest`, `Counterexamples` | inputs for the properties that hold only under a condition |

## Main results

- In every reachable state of harvester, queue and aggregator, whatever was reorganised, draining the queue makes
  committed plus pending, at each height and address, equal to created minus spent plus an exactly accumulated drift;
  and balance plus pending equal to the sum of unspent outputs plus the drift over all heights. The drift is zero where
  each reorganisation met only pending events between its fork point and every row above.
- On a chain without taproot coinbases that holds in every run, so each drained balance is the sum of unspent outputs.
  There the queue can be drained exactly when each reorganisation in it comes after an event at or above its fork point.
- A reorganisation message keeps the agreement, whatever order its rows come back in, exactly when every pending
  coinbase lies between the fork point and every row at or above it. Over the whole queue of a reachable state: no way of
  handling it can lose the agreement exactly when none leads a reorganisation to a pending coinbase outside that range.
- When a block or a fork fails, the queue describes the tables as they were at the failing transaction. The messages left
  behind are harmless exactly when those tables and the restored ones have the same totals.
- Rollback restores the tables exactly when no rolled-back block re-used a stored transaction id. A reorganisation gives
  the tables of fresh indexing exactly when no fork block spends a taproot output of another fork block; this holds of
  every fork step of a run, and so a run in which it never happens leaves the tables of indexing its branch afresh.
- Over a chain that spends no output twice, the UTXO table follows Bitcoin's own rule exactly when no block spends a
  taproot output it makes itself, and the balances are otherwise overstated by exactly the money so missed. With the
  results above: after such a run without taproot coinbases, drained balances are what Bitcoin's own rule gives on the
  branch followed, plus that money.
- The stored chain has one block per height, no gap and linked parents in every state reached from an empty database
  under any commands but rescans; a fork walk never returns an empty list and no call that indexes a served block fails.
  The first block after a restart leaves a stored chain exactly when its parent is the stored tip. After a rescan a fork
  always repairs the chain; without one, the next block does exactly when the rescan went to the tip or its parent.
- A tick fails for want of an answer exactly when a call to the node goes without one; otherwise each turn indexes the
  block the node answered or reorganises to it. From a state in step, a node that keeps to one chain is followed to its
  tip in one tick. After a restart the first block is the least above everything stored and not below the configured
  height.
- After a pause with a cursor, no number of ticks changes tables, queue or cursor; a pause pauses exactly then, or when
  the node has no block to start from.
- Without reorganisations every event is committed or pending exactly once, and coinbases are committed 100 blocks later
  at the earliest. If blocks moreover spend coinbases only 100 blocks later, no message leaves a balance negative; without
  taproot coinbases none does in any run, reorganisations included.

## Where the code differs from its documentation

- README.md:505-508 says that the aggregator removes "any pending coinbase transactions". The code removes those at or
  below the height of the last row returned (aggregator.rs:98-107), whether orphaned or not. The model follows the code;
  `ReorgAlwaysForgetsIff` gives the exact condition and `PendingBelowForkIsLost` an input.
- A reorganisation for which the log has no row at or above the fork point panics (aggregator.rs:98), which the
  documentation does not mention. `PlainChainsDrainIff` gives the exact condition and `PlainForkStopsAggregator` an input.
- A failing block or fork rolls back the tables but not the messages already sent (processor.rs:85-121 and 249).
  `LeakedEventsIff` and `LeakedForkIff` give the exact conditions, `FailedBlockLeaks` and `FailedForkLeaks` inputs.
- The fork list is expected not to be empty (mod.rs:239-243), but is when the head is stored, which can happen after a
  rescan. `HandleReorg` gives the exact condition and `RescanMeetsStoredHead` an input.
- Rolling back also removes a transaction that a rolled-back block re-used (bitcoin.rs:275-281). `UndoIsExactIff` gives
  the exact condition and `RollbackLosesTransaction` an input.
- processor.rs:114 speaks of processing the fork "in reverse order"; the list is head first and iterated as it is, so the
  fork is indexed from its head down. `HeadFirstReplayIff` gives the exact condition and `CrossSpendIsLost` an input.
- Inputs are looked up once per block, before its outputs are stored (processor.rs:145-169). `MatchesLedgerIff` gives the
  exact condition and `SameBlockSpendIsMissed` an input.
- Pausing before the first block was fetched clears the end height, so it does not pause (mod.rs:103-106).
  `PausePausesIff` gives the exact condition and `PauseDoesNotPause` an input.
- The day and week series can return several rows for a bucket; the last one decides (api/bitcoin.rs:183-194).
  `SharedBucketIff` gives the exact condition and `DayShowsWrongBalance` an input.

## Model

| member | source | states |
|---|---|---|
| Database.Connection.LatestBlockNum | core/src/sqlx_postgres/bitcoin.rs:151-165 | the highest stored height, None exactly on an empty table |
| Database.Connection.UpsertBlock | core/src/sqlx_postgres/bitcoin.rs:198-229 | a taken hash or height leaves the table as it is, silently |
| Database.Connection.UpsertTransaction | core/src/sqlx_postgres/bitcoin.rs:263-292 | fails exactly on a missing block; a stored id is re-pointed, keeping its index |
| Database.Connection.CreateUtxo | core/src/sqlx_postgres/bitcoin.rs:294-324 | fails exactly on a taken key or a missing transaction, else adds one unspent row |
| Database.Connection.SpendUtxo | core/src/sqlx_postgres/bitcoin.rs:429-453 | fails exactly on a missing row, else overwrites its spent height |
| Database.Connection.DeleteBlocksSince | core/src/sqlx_postgres/bitcoin.rs:231-246 | removes the blocks from a height on, their transactions and the rows of those |
| Database.Connection.UnspendUtxosSpentSince | core/src/sqlx_postgres/bitcoin.rs:326-346 | clears the spent mark of rows spent from a height on, and nothing else |
| Processor.Processor.StoreTransactions | core/src/bitcoin/harvester/processor.rs:145-162 | fails exactly when the block row is missing; collects every referenced outpoint |
| Processor.Processor.SpendInputs | core/src/bitcoin/harvester/processor.rs:178-198 | each relevant row is taken once over the whole block; balances fall by what was taken; it cannot fail |
| Processor.Processor.CreateOutputs | core/src/bitcoin/harvester/processor.rs:201-230 | fails exactly when a made row is not new; balances rise by what was given |
| Processor.Processor.SendEvents | core/src/bitcoin/harvester/processor.rs:233-250 | one event for each address with a non-zero net change, in any order, with sign, height and coinbase flag |
| Processor.Processor.ProcessTransaction | core/src/bitcoin/harvester/processor.rs:171-251 | inputs, outputs and events of one transaction; a failing one sends nothing |
| Processor.Processor.ProcessBlock | core/src/bitcoin/harvester/processor.rs:123-253 | passes exactly on `CanIndex`, else names the error; the events sent are those of the transactions before the first that cannot create its rows, none when the header does not fit |
| Processor.Processor.Process | core/src/bitcoin/harvester/processor.rs:85-93 | a failure leaves every table unchanged, and exactly those events in the queue |
| Processor.Processor.ProcessFork | core/src/bitcoin/harvester/processor.rs:95-121 | rollback, reorganisation message, then the fork head first up to the first failing block; all tables or none change |
| Indexing.IndexesIff | core/src/bitcoin/harvester/processor.rs:131-226 | a block indexes exactly when its time is valid, its transactions find a block row, and its taproot outputs are new |
| Indexing.StoredRow | core/src/sqlx_postgres/bitcoin.rs:263-292 | a new transaction gets its place in the block and its coinbase flag, a re-pointed one keeps both |
| Indexing.BlockMsgsSay | core/src/bitcoin/harvester/processor.rs:233-250 | every message is a non-zero event of one transaction of the block, received when positive and sent when negative, with its id, height and coinbase flag |
| Integrity.UtxoAfter | core/src/bitcoin/harvester/processor.rs:164-228 | what a block does to each row: spend it if it was there and unspent, never one it makes itself |
| Integrity.ForeignKeysKept | core/migrations/20241120123711_bitcoin.sql:15-44 | indexing keeps both foreign keys |
| Integrity.OwnHeightsKeptIff | core/src/sqlx_postgres/bitcoin.rs:275-281 | re-pointing keeps every row at the height of its transaction's block exactly when the re-pointed ones own no row of another height |
| Integrity.ReferentialKept | core/src/sqlx_postgres/bitcoin.rs:294-324 | when an id determines the outputs, a re-pointed transaction owning rows cannot commit |
| Integrity.OneBlockPerHeightKept | core/migrations/20241120123711_bitcoin.sql:2-11 | heights stay unique |
| Integrity.CascadeIsByHeight | core/src/sqlx_postgres/bitcoin.rs:411-427 | cascading deletion removes the same rows as deletion by height |
| Integrity.Progress | core/src/bitcoin/harvester/processor.rs:123-253 | a fresh block hits no key, foreign-key or affected-rows failure |
| Integrity.SpentOnce | core/src/sqlx_postgres/bitcoin.rs:429-453 | between rollbacks no spent height is ever overwritten, over any sequence of blocks |
| Conservation.BlockConservesBalance | core/src/bitcoin/harvester/processor.rs:164-251 | for every address the events of a block add up to the change of its unspent total |
| Conservation.BlockConservesCells | core/src/bitcoin/harvester/processor.rs:164-251 | the same height by height: only the block's own height changes |
| Ledger.MatchesLedgerIff | core/src/bitcoin/harvester/processor.rs:145-169 | the table follows that rule exactly when no transaction spends a taproot output of its own block |
| Ledger.OverstatedBy | core/src/bitcoin/harvester/processor.rs:145-230 | unspent totals exceed the rule's by exactly the outputs made and spent in the block |
| Ledger.ChainMatchesLedgerIff | core/src/bitcoin/harvester/processor.rs:145-169 | over a chain the table follows that rule exactly when no block spends a taproot output it makes itself |
| Ledger.ChainOverstatedBy | core/src/bitcoin/harvester/processor.rs:145-230 | over a chain unspent totals exceed the rule's by exactly the outputs made and spent within one block |
| Reorg.GrownStep | core/src/bitcoin/harvester/processor.rs:123-253 | a block on top changes below only spent marks and re-pointed transactions |
| Reorg.UndoIsExactIff | core/src/bitcoin/harvester/processor.rs:107-109 | rollback restores every table to the row exactly when no block above re-used a stored transaction id |
| Replay.IndexingCommutes | core/src/bitcoin/harvester/processor.rs:123-253 | independent blocks give the same tables in either order |
| Replay.OrderDoesNotMatter | core/src/bitcoin/harvester/processor.rs:114-117 | without cross spends a fork gives the same tables both ways |
| Replay.RowFate | core/src/bitcoin/harvester/processor.rs:164-184 | a row made by one fork block and spent by another ends up spent exactly when the maker comes first |
| Replay.HeadFirstReplayIff | core/src/bitcoin/harvester/processor.rs:114-117 | head-first replay equals ascending indexing exactly when no fork block spends another |
| Replay.EventsDoNotDependOnOrder | core/src/bitcoin/harvester/processor.rs:233-250 | without cross spends each fork block sends what it would send alone |
| Replay.SameEventsBothWays | core/src/bitcoin/harvester/processor.rs:114-117 | replaying upwards sends the same multiset of events |
| Replay.ReorgIsFreshIndexIff | core/src/bitcoin/harvester/processor.rs:95-121 | prefix, orphans, rollback and fork give the tables of indexing prefix and fork from scratch, exactly when no fork block spends another |
| Aggregator.Aggregator.CurrentHour | core/src/bitcoin/aggregator.rs:158-166 | the reading of the clock, cut down to the hour |
| Aggregator.Aggregator.Record | core/src/bitcoin/aggregator.rs:129-171 | one posted row changes log, balance and the statistic of the hour the clock shows |
| Aggregator.Aggregator.RecordAll | core/src/bitcoin/aggregator.rs:101-106 | rows posted one by one, each in the hour of its own reading; while the clock stays within an hour no other statistic changes |
| Aggregator.Aggregator.PullPending | core/src/sqlx_postgres/bitcoin.rs:473-496 | removes and returns, in any order, the pending events up to a height |
| Aggregator.Aggregator.EventsSince | core/src/sqlx_postgres/bitcoin.rs:561-582 | the rows from a height on, in any order |
| Aggregator.Aggregator.CommitPendingEvents | core/src/bitcoin/aggregator.rs:173-194 | posts exactly the pending events at least 100 below the last height, in the hours the clock shows |
| Aggregator.Aggregator.HandleEvent | core/src/bitcoin/aggregator.rs:71-91 | holds a coinbase event back, posts any other; a new height commits what matured; statistics of no hour but the clock's change |
| Aggregator.Aggregator.HandleReorg | core/src/bitcoin/aggregator.rs:93-114 | fails exactly when no row is at or above the fork point, else posts the negation of all such rows, in the hours the clock shows |
| Aggregator.Aggregator.Run | core/src/bitcoin/aggregator.rs:43-69 | handles every message in order; only a reorganisation without rows stops it early |
| Aggregation.HandlesAgrees | core/src/bitcoin/aggregator.rs:71-91 | balance, log and statistics keep agreeing through events and maturation |
| Aggregation.ReorgsAgrees | core/src/bitcoin/aggregator.rs:93-114 | and through reorganisations |
| Aggregation.StatisticsByHour | core/src/sqlx_postgres/bitcoin.rs:631-657 | the statistic of each address and hour grows by exactly the rows posted in that hour |
| Aggregation.HandledRows | core/src/bitcoin/aggregator.rs:71-91 | what an event adds to the log keeps height, id, address, amount and action |
| Aggregation.ReorgRows | core/src/bitcoin/types.rs:97-100 | what a reorganisation adds takes back each row with the opposite amount, marked as a reorganisation |
| Draining.ReachableAgrees | core/src/sqlx_postgres/bitcoin.rs:605-657 | in every state the aggregator can reach, the three agree for every address |
| Aggregation.HandlesAddsToAccount | core/src/bitcoin/aggregator.rs:71-91 | committed plus pending grows by the event at its own height and address, and nowhere else |
| Aggregation.ReorgCompensates | core/src/bitcoin/aggregator.rs:93-106 | from the fork point on every cell nets to zero, rows below are untouched, each balance is the sum below; for any earlier compensations |
| Aggregation.AccountsAfterReorg | core/src/bitcoin/aggregator.rs:93-114 | the accounts after a reorganisation, with the pending events actually dropped |
| Aggregation.ReorgAlwaysForgetsIff | core/src/bitcoin/aggregator.rs:98-107 | for every order of its rows a reorganisation forgets the orphaned heights and nothing else, exactly when all pending lie between the fork point and each row at or above it |
| Aggregation.ReorgPossibleIff | core/src/bitcoin/aggregator.rs:96-98 | a reorganisation has an outcome exactly when the log has a row at or above the fork point |
| Draining.HistoryAfterBlock | core/src/bitcoin/harvester/processor.rs:85-93 | an indexed block keeps the message history equal to the UTXO table, cell by cell |
| Draining.CellsAfterRollback | core/src/bitcoin/harvester/processor.rs:107-109 | rollback clears the cells from the fork point on and keeps the others |
| Draining.HistoryAfterRollback | core/src/bitcoin/harvester/processor.rs:107-113 | rollback and reorganisation message keep the history in step |
| Draining.HistoryAfterFork | core/src/bitcoin/harvester/processor.rs:114-119 | and so does replaying a fork in any order |
| Draining.DescribesPartway | core/src/bitcoin/harvester/processor.rs:171-251 | in the middle of a block the messages describe the table as it is at that moment |
| Draining.LeakedEventsIff | core/src/bitcoin/harvester/processor.rs:85-93 | the events a failing block leaves in the queue are harmless exactly when the transactions before the failing one leave every unspent total as it was |
| Draining.LeakedForkIff | core/src/bitcoin/harvester/processor.rs:95-121 | the messages a failing fork leaves are harmless exactly when the tables had, where it failed, the cells they are restored to |
| Drifting.AccountsDrift | core/src/bitcoin/aggregator.rs:71-114 | over any run each account is what the messages say plus its drift |
| Drifting.SafeHasNoDrift | core/src/bitcoin/aggregator.rs:93-114 | no drift where each reorganisation met only pending events between its fork point and each row above |
| Drifting.ConsumableIff | core/src/bitcoin/aggregator.rs:43-69 | every event can be handled, a reorganisation exactly when its log has a row to compensate |
| Drifting.PlainNeverStopsIff | core/src/bitcoin/aggregator.rs:93-98 | without coinbase events a stream is handled to its end exactly when each reorganisation comes after an event at or above its fork point |
| Chain.HoldsStep | core/src/bitcoin/harvester/mod.rs:186-205 | a missing ancestor always indexes and adds its height to the branch held |
| Chain.HoldsRollback | core/src/bitcoin/harvester/processor.rs:101-109 | rollback keeps exactly the heights below the fork point |
| Chain.HoldsFork | core/src/bitcoin/harvester/processor.rs:114-117 | head-first indexing of a branch never fails and fills it from the top down |
| Follower.StartKeeps | core/src/bitcoin/harvester/mod.rs:148-184 | the first block indexes and puts the follower in step |
| Follower.ExtendKeeps | core/src/bitcoin/harvester/mod.rs:186-205 | the next block of the branch indexes and keeps it in step |
| Follower.ForkKeeps | core/src/bitcoin/harvester/mod.rs:229-260 | a reorganisation succeeds and keeps it in step |
| Follower.ReachableInStep | core/src/bitcoin/harvester/mod.rs:138-208 | every reachable state is in step, whatever the node serves |
| Follower.StoredChainMeans | core/src/bitcoin/harvester/mod.rs:186-205 | one block per height, no gap, linked parents, cursor on top |
| Follower.WalkEnds | core/src/bitcoin/harvester/mod.rs:262-308 | the walk ends with exactly the unstored part of the branch, its last parent stored or genesis |
| Follower.ScanStaysInStepIff | core/src/bitcoin/harvester/mod.rs:210-226 | a rescan keeps the follower in step exactly when it lands on the stored tip |
| Follower.AboveTipIff | core/src/bitcoin/harvester/mod.rs:152-184 | the first block after a restart leaves a stored chain exactly when its parent is the stored tip |
| Follower.ForkHeals | core/src/bitcoin/harvester/mod.rs:229-260 | a fork step from any cursor over tables that hold a chain succeeds and puts the follower in step |
| Follower.AfterRescanIff | core/src/bitcoin/harvester/mod.rs:191-226 | the first block indexed after a rescan puts the follower in step exactly when it forks, or the rescan went to the tip or its parent |
| Follower.StoredAgainIff | core/src/bitcoin/harvester/processor.rs:218-226 | a stored block met again after a rescan indexes exactly when it makes no taproot output |
| Commands.TickIsIdle | core/src/bitcoin/harvester/mod.rs:186-189 | at or past the end height a tick changes nothing |
| Commands.FirstHeightIsLeast | core/src/bitcoin/harvester/mod.rs:161-164 | the first height is the least above everything stored and not below the one configured, or aimed at |
| Commands.RestartChainsIff | core/src/bitcoin/harvester/mod.rs:152-184 | the first block after a restart is above everything stored, and leaves a stored chain exactly when its parent is the tip |
| Commands.RescanReaches | core/src/bitcoin/harvester/mod.rs:93-102 | a rescan and a tick without errors bring the cursor to the end of the range |
| Commands.PausedStaysPut | core/src/bitcoin/harvester/mod.rs:103-106 | after a pause with a cursor nothing changes, however many ticks and pauses follow |
| Commands.PausePausesIff | core/src/bitcoin/harvester/mod.rs:103-106 | a pause stops every later tick exactly when a first block was fetched, or there is none to fetch |
| Commands.CommandsKeepStep | core/src/bitcoin/harvester/mod.rs:77-136 | any sequence of ticks and commands other than rescans keeps the follower in step |
| Node.Client.TipNumber | core/src/bitcoin/harvester/client.rs:45-47 | the height of the node's best chain at that call, or a failure |
| Node.Client.ScanBlock | core/src/bitcoin/harvester/client.rs:49-73 | the block of that height on the node's best chain at that call, or a failure |
| Node.Client.ScanBlockByHash | core/src/bitcoin/harvester/client.rs:75-85 | the block of that hash, or a failure |
| Harvester.Harvester.Pause | core/src/bitcoin/harvester/mod.rs:103-106 | the end height becomes the cursor's height, or none without a cursor; nothing else changes |
| Harvester.Harvester.AutoScan | core/src/bitcoin/harvester/mod.rs:107-110 | the end height is cleared, nothing else changes |
| Harvester.Harvester.ScanBlocks | core/src/bitcoin/harvester/mod.rs:210-226 | the cursor jumps to the block the node answers without indexing it, and the end height is set; without an answer only the start height may rise |
| Harvester.Harvester.GetForkBlocks | core/src/bitcoin/harvester/mod.rs:262-308 | terminates; the list is the unstored part of the branch, empty exactly when the head is stored or genesis; fails exactly when a call goes without an answer |
| Harvester.Harvester.HandleReorg | core/src/bitcoin/harvester/mod.rs:229-260 | from any state: panics exactly when the head is stored, fails for want of an answer exactly when a call goes without one, and else passes exactly when the fork indexes |
| Harvester.Harvester.StartAt | core/src/bitcoin/harvester/mod.rs:166-184 | from any tables: the block the node answers is indexed or fails, and is in the cursor either way |
| Harvester.Harvester.Advance | core/src/bitcoin/harvester/mod.rs:191-204 | from any state: a step to the block the node answers, as its parent calls for; the cursor is that block exactly when it passes; no answer is the only failure from a state in step |
| Harvester.Harvester.Begin | core/src/bitcoin/harvester/mod.rs:148-184 | the first block, of the first height; nothing where a cursor is set |
| Harvester.Harvester.Desired | core/src/bitcoin/harvester/mod.rs:139-144 | the end height, or else that of the node's tip |
| Harvester.Harvester.CatchUp | core/src/bitcoin/harvester/mod.rs:186-205 | terminates; without errors it ends at the height aimed at, along the node's chain if it keeps to one |
| Harvester.Harvester.Harvest | core/src/bitcoin/harvester/mod.rs:138-208 | one tick from any state: without errors it ends at the end height or the node's tip; idle at or past the end height; from a state in step it follows a node that keeps to one chain to its tip |
| Harvester.Harvester.Obey | core/src/bitcoin/harvester/mod.rs:82-134 | a command, or a tick that is done unless an error was met; it ends the harvester exactly on a failed fork or a panic |
| Harvester.Harvester.Start | core/src/bitcoin/harvester/mod.rs:77-136 | the command loop: every input before a terminate command is obeyed in order, up to the rescan or tick that ends it |
| Pipeline.ReachableConsistent | bin/bis/src/mono.rs:89-117 | what every interleaving of harvester and aggregator keeps |
| Pipeline.DrainedAccountsMatchUtxos | core/src/bitcoin/aggregator.rs:71-114 | drained, after any run: committed plus pending is created minus spent plus the drift, at each height and address |
| Pipeline.DrainedBalanceDrifts | core/src/bitcoin/aggregator.rs:71-114 | drained, after any run: balance plus pending is the sum of unspent outputs plus the drift over all heights, and the three aggregates agree |
| Pipeline.DrainedBalanceIsUnspent | core/src/bitcoin/aggregator.rs:71-114 | where each reorganisation met only pending events between fork point and rows above, there is no drift |
| Cooldown.PlainChainsAgree | core/src/bitcoin/aggregator.rs:71-114 | without taproot coinbases every run agrees: drained, each balance is the sum of unspent outputs and nothing is pending |
| Cooldown.PlainChainsDrainIff | core/src/bitcoin/aggregator.rs:93-98 | there the queue can be drained exactly when each reorganisation in it comes after an event at or above its fork point |
| Cooldown.ReachablePositive | core/src/bitcoin/harvester/processor.rs:233-250 | pending amounts are positive in every reachable state |
| Cooldown.ReorgKeepsAgreementIff | core/src/bitcoin/aggregator.rs:93-114 | in every reachable state in agreement, the next reorganisation keeps it for every order of its rows exactly when all pending lie between the fork point and each row at or above it |
| Cooldown.AlwaysAgreesIff | core/src/bitcoin/aggregator.rs:43-114 | no way of handling the messages of a reachable state loses the agreement, exactly when none leads a reorganisation to a pending event outside its range |
| Boundaries.ReachableShows | core/src/bitcoin/harvester/processor.rs:233-250 | every prefix of the queue of any run says of each address what some table holds, even inside a transaction |
| Boundaries.PlainNeverNegative | core/src/bitcoin/aggregator.rs:71-114 | without taproot coinbases no message leaves a balance negative in any run, reorganisations included |
| Fresh.ForkFreshIff | core/src/bitcoin/harvester/processor.rs:95-121 | a fork step of a run turns the tables of indexing the old branch afresh into those of the new one, exactly when no fork block spends another |
| Fresh.UncrossedIsFresh | core/src/bitcoin/harvester/processor.rs:95-121 | a run without such spends leaves the tables of indexing its branch afresh, however often it reorganises |
| Fresh.BalancesOfLedger | core/src/bitcoin/aggregator.rs:71-114 | from end to end: drained balances are those of Bitcoin's own rule on the cursor's branch, plus what was made and spent within one block |
| Maturity.ExactlyOnce | core/src/bitcoin/aggregator.rs:71-91 | without reorganisations every event is in the log or pending, exactly once, and only coinbases are pending |
| Maturity.CommittedIsMature | core/src/bitcoin/aggregator.rs:173-194 | what a message commits beyond its own row was pending and is at least 100 blocks older |
| Maturity.PendingIsWaiting | core/src/bitcoin/aggregator.rs:76-88 | with heights that do not fall, pending are exactly the coinbases still in their cooldown |
| Solvency.SettledChain | core/src/bitcoin/harvester/processor.rs:164-251 | the settled messages of a chain are the settled rows it leaves |
| Solvency.BalanceIsSettled | core/src/bitcoin/aggregator.rs:71-91 | a balance is exactly the settled part of the events handled |
| Solvency.BalanceNeverNegative | core/src/bitcoin/aggregator.rs:71-91 | on a chain that respects coinbase maturity no message leaves a negative balance |
| Snapshots.BalanceSnapshots | bin/bis/src/api/bitcoin.rs:172-194 | the running-balance loop, later rows of a bucket overwriting earlier ones |
| Snapshots.SnapshotAt | bin/bis/src/api/bitcoin.rs:183-194 | the last row of a bucket decides its snapshot |
| Snapshots.SharedBucketIff | core/src/sqlx_postgres/bitcoin.rs:678-685 | a bucket of several rows shows its closing balance exactly when all but its last row cancel |
| Snapshots.HourlySnapshotsIff | bin/bis/src/api/bitcoin.rs:167-194 | every hourly snapshot is the sum of changes up to its hour, exactly when statistics after now net to zero |
| Counterexamples.WorldFits | core/src/bitcoin/harvester/client.rs:49-85 | the blocks of the examples are ones a Bitcoin node may serve |
| Counterexamples.WorldSpendsOnce | core/src/bitcoin/harvester/client.rs:49-85 | and they spend no output twice along a branch |
| Counterexamples.SameBlockSpendIsMissed | core/src/bitcoin/harvester/processor.rs:145-169 | a block on genesis in which a spend is lost |
| Counterexamples.CrossSpendIsLost | core/src/bitcoin/harvester/processor.rs:114-117 | a fork of two blocks replacing an orphan, for which head-first replay loses a spend |
| Counterexamples.RollbackLosesTransaction | core/src/sqlx_postgres/bitcoin.rs:275-281 | after a restart on another branch, a rollback that loses a transaction of a block that stays |
| Counterexamples.FailedBlockLeaks | core/src/bitcoin/harvester/processor.rs:85-93 | after such a restart, a failing block whose events credit an address with money no table knows of |
| Counterexamples.FailedForkLeaks | core/src/bitcoin/harvester/processor.rs:95-121 | and a failing fork that does the same |
| Counterexamples.RescanMeetsStoredHead | core/src/bitcoin/harvester/mod.rs:239-243 | a rescan after which the next block is already stored, so that the fork list is empty |
| Counterexamples.PauseDoesNotPause | core/src/bitcoin/harvester/mod.rs:103-106 | the tick that indexes genesis after a pause on an empty database |
| Counterexamples.PlainForkStopsAggregator | core/src/bitcoin/aggregator.rs:98 | a fork of blocks without taproot outputs whose message stops the aggregator for good |
| Counterexamples.PendingBelowForkIsLost | core/src/bitcoin/aggregator.rs:98-107 | a chain of four blocks on which a reorganisation drops a coinbase that is not orphaned |
| Counterexamples.DayShowsWrongBalance | bin/bis/src/api/bitcoin.rs:183-194 | a day of two hours whose snapshot is not its closing balance |

## Left out

- Pipeline.DrainedBalanceIsUnspent: assumes of each reorganisation what `ReorgKeepsAgreementIff` shows to be needed for one; without it `DrainedBalanceDrifts` says how far the balance is off.
- Follower.ReachableInStep: runs start on an empty database and contain no rescan; `AboveTipIff` says what a restart does to the stored chain, `ScanStaysInStepIff`, `AfterRescanIff` and `StoredAgainIff` what a rescan does.
- Chain.HoldsStep: assumes of the node's blocks that headers are consistent, transaction ids are unique along a branch, and no block spends an output of a later one, as consensus ensures.
- Solvency.BalanceNeverNegative: covers runs without reorganisations, as maturity is a rule about one chain and a dropped coinbase may be spent later; `PlainNeverNegative` covers all runs without taproot coinbases.
- The end of the harvester after the aggregator panicked: the channel is closed then, and the next send panics as well (processor.rs:110-113 and 249). The model lets the harvester run on.
- Failures of the database or the network connection inside a statement: the only failures modelled are constraint violations, an invalid timestamp, RPC errors and the aggregator's panic.
- Pulling pending events runs outside the transaction that posts them (aggregator.rs:178-192); a crash in between is not modelled, one message is one step.
- Block decoding, script and address encoding: a block arrives decoded, each output with its taproot owner if it has one.
- The RPC calls inside one request to the node (client.rs:49-73): hash, header and block are answered together, or the request fails.
- Sleeping, cancellation of a tick, shutdown and cleanup: the command loop gets its ticks and commands as a list.
- What the aggregator forgets in a restart, and its recovery, which the project's README disclaims (README.md:516): after a restart only the tables of the harvester are followed.
- Block metadata, lock times, versions, `last_updated` and `sequence_id`: the log is a sequence, the other columns carry no property.
- How the day and week series are cut into buckets: only what several rows in one bucket do to its snapshot.
- HTTP routes, error mapping, CLI, configuration, and statements no component calls (`remove_utxo`, `unspend_utxo`).
- Amounts and heights are unbounded integers.
