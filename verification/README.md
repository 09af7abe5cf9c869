# Verification of the fill commit, the ledgers and the outbox

The repository trades a paper portfolio once a session and keeps its state in append-only files. Every
run may die between any two writes, so most of its code decides, from what is left on disk, what really
happened. This project models that code in Dafny and proves what it guarantees: over every input, every
interleaving and every run with a crash between any two durable writes.

## What is modelled

**Fill commit and recovery** (`modules/orders.py`, `modules/fills.py`, the write sequence of
`stock_bot.py`). `FillRecords` holds the records of the write-ahead log and the loader's checks,
`FillLoader` the loader, `FillRules` what its acceptance means, `FillChain` the two resolvers of a fill,
`Orders` the order ledger, `FillWriter` the record an executed order leaves, `Storage` the disk. `FillTrip`
follows a trade from its execution into the file, back out of the loader and into the trade table. `Settlement` says what `reconcile_settling_orders` decides and writes; `OrderDesk` is the
function itself, with its dictionaries and loops, proved to decide exactly that; `Overlap` is its graph
search. `Restart`, `Recovery` and `Interruptions` are about running recovery, crashing inside it any number
of times and running it again. `CrashModel` is the whole protocol as a state machine; `CrashInvariant`,
`CrashDisk`, `CrashRecovery`, `CrashTrading` prove its invariant and `CrashSafety` draws the conclusions. The machine writes fills with
any amounts, as the program does: its theorems need only a coherent log, one that passes every check of
the loader but the numeric ones on fills, and every reachable log is coherent. `RefusedLog` says when a
reachable log is refused for its amounts and what follows. `StrategyRun` is the program that writes, and
shows that every prefix of its writes is a state of that machine. `RunStretches` and `CrashExamples` build
concrete runs from the empty disk: one that succeeds and one for each promise the protocol does not keep.
`Projection` is the replay of fills into the trade table. `TradeTable` puts the table beside the machine:
sessions that project, fill, save the table and die anywhere; `TableExamples` has its concrete runs.

**Telegram outbox** (`modules/v2b_report.py`). `Outbox` has the reducer and the four locked operations,
`OutboxRuns` any number of workers with arbitrary clocks, crashes and failing writes.

**Observation ledger** (`modules/v2b_ledger.py`). `HashChain` has the hash chains, `ObservationLedger` the
partitions, the index and the two writers, `ObservationRuns` any number of processes over an index that
may hold anything at any time.

**Signal ledger** (`modules/ledger.py`). `SignalLedger` has the file down to its characters and the batch
append, `SignalLedgerRuns` crashes at any byte.

**Money** (`modules/portfolio.py`, `modules/reconcile.py`, `modules/v2_strategy.py`). `Trading` has the
three execute functions, `FillAccuracy` compares what they write with what the loader accepts, `Replay`
is the independent bookkeeper, `Allocation` the capped weights. Amounts are exact reals and `round` is
half-to-even (`Rounding`).

## Where the code does less than its documentation says

Each of these is stated of the code as it is, with the exact condition.

- A crash inside Phase 2 can change what becomes of an order. A batch rejected only because it overlaps
  another active batch is accepted by the next run if the other one was already written
  (`CrashExamples.CrashRescuesB`). A batch of two or more to be retried is rejected by the next run if one
  member was already queued (`CrashExamples.CrashSplitsRetry`). `Interruptions.OrderStableIff` and
  `Interruptions.RestartStableIff` show that these are the only ways, however often recovery crashes.
- The hash stored as the state before the fills is taken after marking to market, while recovery hashes
  the file. After a crash before the save recovery decides to retry exactly if the two states are equal
  (`CrashSafety.CrashBeforeSave`, and `CrashExamples.MarkingFailsTheRetry` for a run where they differ).
- At the pre state a batch is meant to be retried only if none of its references has a marker. The code looks
  for markers of orders in flight only among those the ledger books under the strategy (`Restart.VerdictIff`,
  `CrashExamples.MarkerElsewhereIgnored`). No run of the protocol leads there.
- A crash before the commit intent is meant to lead to a retry. For an order in flight it does unless an
  older commit intent still names the order; then the order is rejected, although nothing was saved, if
  that intent is contested, names a fill that is not in flight again, or started from another portfolio
  (`CrashSafety.CrashBeforeIntent`, `CrashExamples.HalfARetryFails`).
- A last line of the fill log that parses but has the wrong hash is skipped on loading and left in place by
  the repair. Whatever is appended next, the log is then refused (`FillLoader.AppendAfterLoadIff`,
  `FillLoader.WrongHashBlocksAppends`).
- The projection is meant to recognise by content only rows written before trade ids. It compares with all
  rows, so that of two executed trades of one strategy, side, ticker, session and share count that are
  missing from the table only one is restored, and the other is lost for good. `Projection.OwnRowsIff` and
  `TradeTable.SessionStartCovers` give the condition, `TableExamples.LosesATrade` a run, and
  `TradeTable.LostForGood` that nothing later repairs it.
- The projection runs before recovery. An order that recovery executes has no row in the table that the
  session saves and then reconciles; its row comes with the next session (`TradeTable.SessionEndCovers`,
  `TableExamples.RecoveredTradeIsLate`).
- `_rebuild_idx` fails for every key when any one key was opened twice, so a missing or unparseable index
  can change the answer of a full scan (`ObservationLedger.IndexTransparentIff`,
  `ObservationLedger.LostIndexFailsEveryKey`).
- The staleness test of the signal ledger's index has a slack of one second. A retry within it can store
  every record a second time (`SignalLedgerRuns.RetryDuplicatesIff`, `SignalLedgerRuns.RebuildThenCrash`).
  An index that does not parse counts as empty, and unless the file is more than a second newer the next
  batch can repeat any id on file (`SignalLedgerRuns.BrokenIndexDuplicates`).
- The loader compares gross value with rounded shares times rounded price. An opening price with a
  fraction of a cent can make a just executed fill unacceptable, and with it the whole log, for good: after
  the next crash no recovery begins again (`FillAccuracy.SubCentBuyRefused`, `RefusedLog.RefusedForever`,
  `CrashExamples.RefusedFillIsSaved`). A reachable log is refused exactly if it holds such a fill
  (`RefusedLog.TradedLogAcceptedIff`).
- The weight allocation is documented as iterative; it redistributes at most once and can leave cash
  uninvested although a weight is below the cap. `Allocation.CashOnlyAtCapIff` says exactly when the promise
  is kept (`Allocation.OnePassForm`, `Allocation.FullyInvestedIff`, `Allocation.CashLeftBelowCap`).

## Model

| member | source | states |
|---|---|---|
| Orders.LoadOrders | modules/orders.py:217-265 | the order map is the fold of the snapshots, whose meaning LatestSnapshotWins states |
| Orders.LatestSnapshotWins | modules/orders.py:217-265 | an order is known exactly if some snapshot names it, and its state is the latest such snapshot |
| Orders.BeforeIff | modules/orders.py:1090-1097 | sessions are compared as texts: by the first character that differs, a proper prefix first |
| FillLoader.CheckRecord | modules/fills.py:434-746 | accepts a record exactly if it meets every per-record check of its kind, by the chain of checks of the source; FillRules and FillTrip say what the checks mean |
| FillLoader.CheckFilling | modules/fills.py:527-746 | the sequence of early exits for a filling accepts exactly the sound ones |
| FillLoader.CheckAttempts | modules/fills.py:756-769 | accepts exactly the logs in which no attempt id stands for two different fillings |
| FillLoader.CheckMarkers | modules/fills.py:771-790 | accepts exactly the logs in which repeated markers of an order agree |
| FillLoader.CheckReferences | modules/fills.py:801-833 | accepts exactly if every reference of a commit intent meets one filling with the same hash, strategy and portfolio |
| FillLoader.LoadFillEvents | modules/fills.py:374-838 | succeeds exactly on acceptable files, corrupt last line included; returns the records by order and the commit intents in order, and cuts off a last line that does not parse |
| FillLoader.OneLineFile | modules/fills.py:405-440 | a one-line file loads exactly if the line does not parse, has a wrong hash, or holds an acceptable record under its own hash; a missing hash is never forgiven |
| FillRules.AcceptedCashMoves | modules/fills.py:545-703 | in an accepted filling cash moved by shares times price and costs, in the direction of the action, to within eight cents; costs are commission plus slippage, which is zero at an opening price |
| FillRules.AcceptedRecord | modules/fills.py:434-746 | an accepted record has version 2 or none, a filling names its own fill id and the opening of its one session, a marker its hash and post state, a commit intent complete and distinct references |
| FillRules.AcceptedReference | modules/fills.py:801-833 | a reference in an accepted log names exactly one filling, by content and portfolio |
| FillRules.AcceptedTogether | modules/fills.py:756-799 | in an accepted log attempts, commit ids and the markers of an order contradict nothing |
| FillRules.RepeatedMarkerAccepted | modules/fills.py:771-790 | a marker written twice leaves the log accepted |
| FillRules.MarkerAcceptedIff | modules/fills.py:706-790 | a marker appended to an accepted log is accepted exactly if version, fill id, hash, post state and commit id are in order and it repeats every other marker of its order |
| FillRules.IntentAcceptedIff | modules/fills.py:450-510 | a commit intent under a new id is accepted exactly if version and post state are in order and its references, at least one, are complete, distinct and each names its filling |
| FillTrip.WrittenIsReadBack | stock_bot.py:735-809 | the event of an executed buy, sale or pyramid fill, appended to a file the loader accepted, is read back as written, and the file accepted exactly if shares and price are positive and gross value agrees to two cents |
| FillTrip.VersionsRead | modules/fills.py:515-521 | records of version 2 and of none are read alike, and no others |
| FillTrip.RestoredRowIsTheTrade | modules/fills.py:1092-1117 | the row restored from the event of an executed trade, like the row written at once, shows the bookkeeper exactly the ticket |
| FillLoader.RepairKeepsRecords | modules/fills.py:326-358 | the repair loses no record, and the repaired file loads to the same |
| FillLoader.AppendAfterLoadIff | modules/fills.py:412-440 | after a load, appending a record leaves a file that loads again exactly if the longer log is acceptable and the last line had not been one that parses under a wrong hash |
| FillLoader.WrongHashBlocksAppends | modules/fills.py:421-432 | a file of one record under the hash of another loads and is left as it is, and every append to it is refused |
| FillLoader.RefusedEventBlocksLog | modules/fills.py:545-703 | a filling whose amounts are refused makes the loader refuse the file and every later extension of it |
| FillChain.ResolversAgree | modules/orders.py:353-406 | on every coherent log, hence on every accepted one, a strict marker chain to a commit intent makes that intent resolve for the order, to the same filling |
| FillChain.StrictChainIff | modules/fills.py:900-1021 | strict resolution for a commit intent succeeds exactly if marker, filling and intent name each other by id, attempt, hash and post state, all in the current version |
| FillChain.IntentLookup | modules/fills.py:792-799 | in a coherent log a commit id leads to one commit intent |
| FillChain.RefLookup | modules/fills.py:483-508 | in a coherent log an order has one reference in a commit intent, complete and resolvable |
| FillChain.ChainIsRecorded | modules/fills.py:900-1021 | a resolved chain starts at the first marker and names a filling record of the order in the log |
| FillChain.ExpectedOnlyRestricts | modules/fills.py:900-1021 | asking for one commit intent never changes what a successful resolution returns |
| Settlement.ExecutedResolves | modules/orders.py:586-612 | an order decided EXECUTED has a fitting commit intent that resolves it |
| Overlap.Component | modules/orders.py:530-536 | the stack-based search terminates and returns exactly the nodes connected to its start |
| Overlap.MarkComponents | modules/orders.py:526-557 | marks exactly the nodes that have a neighbour, walking each component once |
| Overlap.BuildAdjacency | modules/orders.py:509-524 | two commit intents are adjacent exactly if they claim a common order |
| Overlap.FindOverlaps | modules/orders.py:494-557 | finds exactly the active commit intents that share an order with another active one |
| Overlap.SameComponent | modules/orders.py:527-537 | two nodes of a component have the same component |
| OrderDesk.MapIntents | modules/orders.py:452-460 | maps each order to the last commit intent of the strategy that names it |
| OrderDesk.GroupOrders | modules/orders.py:467-484 | groups exactly the SETTLING orders of the strategy by commit intent, the unnamed ones aside |
| OrderDesk.FindContested | modules/orders.py:486-557 | the overlap check marks exactly the contested batches |
| OrderDesk.PreflightBatch | modules/orders.py:559-723 | Phase 1 of a batch reaches the verdict of its specification and records what Phase 2 needs |
| OrderDesk.DecideAll | modules/orders.py:449-723 | everything decided before the first write is as specified, whatever the iteration order |
| OrderDesk.Desk.SaveOrder | modules/orders.py:268-298 | appends the snapshot and updates the map, nothing else |
| OrderDesk.Desk.MarkFillPersisted | modules/fills.py:290-323 | appends a marker exactly if there is a commit id |
| OrderDesk.Desk.ExpireStaleOrders | modules/orders.py:1065-1117 | writes exactly one EXPIRED snapshot per stale queued order and nothing else, and changes no other order |
| OrderDesk.Desk.CheckPendingPriceGuard | modules/orders.py:862-935 | fails without a write on a refused log; otherwise stops at an order queued for the session with a marker on record, after failing it durably, and passes only if there is none |
| OrderDesk.Desk.SettleMember | modules/orders.py:753-790 | writes for one order of a batch exactly what the decision says, marker first |
| OrderDesk.Desk.SettleLooseOrder | modules/orders.py:792-825 | writes for an order without commit intent exactly what the decision says |
| OrderDesk.Desk.ReconcileSettlingOrders | modules/orders.py:409-833 | refuses exactly the unacceptable logs without a write; otherwise writes exactly the plan decided from the state before the first write and reports the rejected orders |
| Recovery.BatchTrichotomy | modules/orders.py:559-790 | all orders of a batch end alike: EXECUTED iff valid and at the post hash, PENDING_PRICE iff valid, at the pre hash and nothing claims a save, FAILED_RECONCILIATION otherwise; EXECUTED ones resolve strictly afterwards |
| Recovery.LooseOrders | modules/orders.py:792-825 | an order without commit intent is retried exactly if the log holds no persisted marker of it and no filling of it without a version |
| Recovery.MarkedIsNeverRetried | modules/orders.py:559-825 | in a batch or not, an order in flight with a persisted marker ends EXECUTED or FAILED_RECONCILIATION, never queued again |
| Recovery.PrefixAdvances | modules/orders.py:719-790 | after any prefix of the Phase 2 writes the log is as acceptable as before, and orders, markers and events differ from before only as decided |
| Recovery.RecoveryCompletes | modules/orders.py:719-833 | a completed recovery leaves nothing in flight, changes no other order, and a second one writes nothing |
| Recovery.OrderIndependent | modules/orders.py:719-722 | the final order map is the same for every iteration order |
| Recovery.SecondDecision | modules/orders.py:559-717 | what a second run decides for an order left in flight, given how far the first run got |
| Interruptions.RestartsKeepDecisions | modules/orders.py:719-825 | crash in Phase 2 any number of times and rerun: saved batches still end EXECUTED, those to be retried are retried or rejected but never EXECUTED, rejected ones stay rejected unless rejected for overlap alone |
| Interruptions.OrderStableIff | modules/orders.py:674-745 | an order in flight ends as first decided, however often recovery crashes, exactly if its batch is not contested for overlap alone and, if to be retried, has no other member in flight |
| Interruptions.RestartStableIff | modules/orders.py:487-557 | crashes in Phase 2 change the fate of no order exactly if no contested batch passes Phase 1 on its own and no batch to be retried has two members in flight |
| Interruptions.RivalsFirst | modules/orders.py:719-745 | the run that writes the rival batches, crashes, and then decides a contested batch on its own |
| Interruptions.MateFirst | modules/orders.py:674-681 | the run that queues one member of a batch, crashes, and then rejects another |
| Interruptions.FateIsWritten | modules/orders.py:719-833 | the fate of an order is the status that the completed recovery writes |
| Restart.UncontestedVerdict | modules/orders.py:559-717 | the verdict on a batch after part of Phase 2, in terms of the verdict before and the members already written |
| Restart.RejectionStays | modules/orders.py:580-685 | a batch that fails Phase 1 on its own fails it again after any part of Phase 2 |
| Restart.BatchFitsIff | modules/orders.py:559-681 | on a coherent log Phase 1 collapses to: every reference names a version-2 filling of an order that is SETTLING under this intent or EXECUTED with a marker, and first markers repeat reference and intent |
| Restart.VerdictIff | modules/orders.py:559-717 | what becomes of an order in a batch, read off log, order map and portfolio: EXECUTED at the post state, retried at the pre state without markers, if nobody else claims its orders and all are ready; rejected otherwise |
| Restart.MappedPosition | modules/orders.py:452-460 | an order maps to the last commit intent of the strategy that names it, if any |
| Restart.MarkedChainHolds | modules/orders.py:755-765 | a marker written by recovery completes a strict chain |
| Projection.ProjectFills | modules/fills.py:1024-1125 | the loop with its two lookup sets computes the projection of a loaded log |
| Projection.ProjectFillsToTrades | modules/fills.py:1024-1125 | changes nothing on a refused file; otherwise replays every order of the file once, in some order |
| Projection.ProjectionIsComplete | modules/fills.py:1024-1125 | existing rows stay, every added row is that of a replayable order and repeats no trade id or content key, and every replayable order of the log is represented |
| Projection.ProjectionIsIdempotent | modules/fills.py:1024-1125 | projecting twice equals projecting once, in whatever order |
| Projection.OwnRowsIff | modules/fills.py:1046-1090 | every replayed order gets a row under its own trade id exactly if no missing trade has the content of a row in the table or of another missing trade |
| Projection.RecognisedIff | modules/fills.py:1043-1055 | a row passes for a trade exactly if strategy, side, ticker and day agree and shares do to four decimals |
| Projection.RestoredWasCommitted | modules/fills.py:1057-1077 | what is restored has a version-2 marker with its hash and a commit intent naming it with the same post state |
| Projection.OldMarkersSkipped | modules/fills.py:1062-1065 | an order whose first marker has another version is passed over |
| CrashRecovery.LandedDecision | modules/orders.py:683-697 | once the portfolio of a commit intent is on disk, recovery executes its orders |
| CrashRecovery.ExecutedIsApplied | modules/orders.py:687-765 | recovery executes an order only if the saved portfolio holds its fill |
| CrashTrading.PendingHasNoMarker | modules/orders.py:862-875 | in every reachable state a queued order has no marker |
| CrashTrading.RecordFillOk | stock_bot.py:959-966 | writing a fill event, whatever its amounts, keeps the invariant |
| CrashTrading.AnnotateOk | stock_bot.py:823-864 | the SETTLING snapshot keeps the invariant |
| CrashTrading.WriteIntentOk | stock_bot.py:1325-1338 | the commit intent keeps the invariant |
| CrashTrading.CommittedSaveOk | stock_bot.py:1346 | the portfolio save keeps the invariant |
| CrashTrading.FinishMarkerOk | stock_bot.py:1365-1373 | each persisted marker keeps the invariant |
| CrashTrading.FinishSaveOk | stock_bot.py:1380-1381 | each EXECUTED snapshot keeps the invariant |
| CrashRecovery.RecoveryMarkerOk | modules/orders.py:757-766 | each marker recovery writes keeps the invariant |
| CrashRecovery.RecoverySaveOk | modules/orders.py:745-790 | each snapshot recovery writes keeps the invariant |
| CrashSafety.RunKeepsInv | stock_bot.py:867-1381 | every state of every run, crashes anywhere, satisfies the invariant |
| CrashSafety.CrashSafe | stock_bot.py:949-1381 | each order's fill enters a saved portfolio at most once, and an EXECUTED order has a strict chain whose attempt the saved portfolio contains |
| CrashSafety.MarkedOrders | modules/orders.py:862-935 | in every reachable state the log is coherent, so that it is accepted exactly if the amounts of every fill are; an order with a marker is SETTLING or EXECUTED, and all its markers name one attempt |
| CrashSafety.GuardNeverFires | modules/orders.py:862-935 | no run of the system ever takes the guard's branch |
| CrashSafety.ExactlyOnce | modules/orders.py:409-833 | after a completed recovery the EXECUTED orders are exactly those whose fill is in the saved portfolio |
| CrashSafety.Permanent | stock_bot.py:867-1381 | terminal statuses and saved fills never change again |
| CrashSafety.CrashBeforeSave | stock_bot.py:925-1346 | a crash after the commit intent and before the save is decided PENDING_PRICE if the portfolio on disk is what the run started from after marking to market, FAILED_RECONCILIATION otherwise |
| CrashSafety.CrashAfterSave | stock_bot.py:1346-1381 | a crash after the save is decided EXECUTED for every fill in flight, and recovery gets to decide exactly if the amounts of every fill on record are accepted |
| CrashSafety.CrashBeforeIntent | stock_bot.py:949-1331 | a crash before the commit intent, also between a fill event and its SETTLING snapshot, is decided for every order in flight: PENDING_PRICE exactly if no older commit intent names it, or the last one that does is uncontested, has all its fills in flight and its pre hash is that of the file; FAILED_RECONCILIATION otherwise |
| CrashSafety.OlderAlone | modules/orders.py:559-717 | while a run trades, Phase 1 on its own passes an older commit intent exactly if all its fills are in flight under it and its pre hash is that of the file, and never as saved |
| CrashSafety.RecoveryStartsIff | modules/orders.py:431-447 | in every reachable state recovery begins exactly if the amounts of every fill on record are accepted |
| CrashSafety.ProjectionCovers | stock_bot.py:1517-1525 | in every reachable state the projection succeeds exactly if the amounts of every fill are accepted, and then represents every executed trade |
| RefusedLog.TradedLogAcceptedIff | modules/fills.py:545-703 | a reachable log whose fills were written for executed trades is accepted exactly if every fill passes the gross check with shares and price not zero |
| RefusedLog.RefusedForever | modules/fills.py:374-391 | once a log is refused it stays refused; from the next crash on no process runs, orders in flight stay SETTLING and no portfolio changes |
| CrashExamples.ExecutesA | stock_bot.py:867-1381 | a run from the empty disk that writes a commit intent, saves with the order in flight, and ends with it EXECUTED |
| CrashExamples.MarkingFailsTheRetry | stock_bot.py:925-1346 | a run that marks a position to market, crashes before the save and has its fill rejected though the saved trades are those before it |
| CrashExamples.HalfARetryFails | modules/orders.py:674-681 | a run that fills half of an old batch again, crashes before its commit intent and has the fill rejected though nothing was ever saved |
| CrashExamples.CrashSplitsRetry | modules/orders.py:674-681 | a run in which recovery decides to retry A and B, queues A and dies; the next recovery rejects B though nothing was ever saved |
| CrashExamples.CrashRescuesB | modules/orders.py:494-557 | a run that leaves two overlapping commit intents: without a crash in recovery B is rejected, with one it can be queued for retry |
| CrashExamples.RefusedFillIsSaved | modules/fills.py:665-672 | a run whose buy at 10.004 is saved: the order would be decided EXECUTED, but no recovery begins and nothing moves again |
| CrashExamples.MarkerElsewhereIgnored | modules/orders.py:683-709 | a coherent log on which a batch is retried although one of its references has a marker |
| TradeTable.SessionsKeepInv | stock_bot.py:1513-1669 | over any sessions with crashes anywhere: trade ids in the table are distinct and belong to orders with a marker or to the run in progress, and every marked order is present but for those recovery executed in this session |
| TradeTable.TableSafe | stock_bot.py:1513-1669 | in every reachable state the saved table has at most one row per order, and one only if the saved portfolio contains the fill |
| TradeTable.RowsPermanent | stock_bot.py:1513-1669 | the saved table never loses a row |
| TradeTable.SessionStartCovers | stock_bot.py:1513-1525 | after the projection every marked order has exactly one row or its content is in the table; all have a row exactly if no missing trade has the content of a row or of another missing trade |
| TradeTable.SessionEndCovers | stock_bot.py:1521-1669 | in the table a session saves, an executed order has exactly one row or its content is there, unless recovery executed it in this session; then it has none |
| TradeTable.LostForGood | modules/fills.py:1046-1090 | an order whose trade was taken for another row never gets a row of its own |
| TradeTable.RunsLift | stock_bot.py:1513-1669 | every run of the protocol whose log is accepted is a run of sessions, so the table theorems leave none out |
| TableExamples.LosesATrade | modules/fills.py:1046-1090 | a run with two executed orders of equal content whose saved table has a row for one of them |
| TableExamples.RecoveredTradeIsLate | stock_bot.py:1516-1525 | a run whose recovery executes an order and whose saved table lacks its row |
| StrategyRun.RecordFill | stock_bot.py:959-968 | writes the fill event, then the SETTLING snapshot |
| StrategyRun.FinishFill | stock_bot.py:1365-1381 | writes the marker, then EXECUTED, unless the order is no longer SETTLING |
| StrategyRun.CommitRun | stock_bot.py:1325-1381 | writes commit intent, portfolio, then marker and EXECUTED for each fill, in this order |
| StrategyRun.FillIsPath | stock_bot.py:959-968 | stopping after any number of these writes is a state of the machine |
| StrategyRun.CommitIsPath | stock_bot.py:1325-1381 | stopping after any number of these writes is a state of the machine |
| StrategyRun.RecoveryIsPath | modules/orders.py:719-825 | stopping recovery after any number of its writes is a state of the machine |
| Outbox.ReduceSendState | modules/v2b_report.py:720-809 | accepts exactly the well-formed histories and returns their state |
| Outbox.WellFormedIff | modules/v2b_report.py:743-800 | accepted histories, by position: claim ids present and never repeated, outcomes after their claim, one type of outcome a claim |
| Outbox.ReductionMeaning | modules/v2b_report.py:720-749 | the state is the outcome recorded for the last claim, outcomes of older claims aside |
| Outbox.OutcomesAgree | modules/v2b_report.py:767-798 | in a well-formed history all outcomes of one claim are of one type |
| Outbox.ReportLedger.Read | modules/v2b_report.py:825-826 | the events of one report key in file order |
| Outbox.ReportLedger.ClaimSendSlot | modules/v2b_report.py:829-897 | refuses after a confirmation and during a live lease; otherwise closes an expired claim and appends a new one |
| Outbox.ReportLedger.ConfirmSend | modules/v2b_report.py:900-953 | confirms the active open claim, repeats a confirmation without a write, refuses every other claim |
| Outbox.ReportLedger.MarkSendAmbiguous | modules/v2b_report.py:956-1013 | closes the active open claim as ambiguous, never a confirmed one |
| Outbox.ReportLedger.ReconcileAfterConfirmFailure | modules/v2b_report.py:1016-1077 | keeps a confirmation that landed, else closes the claim as ambiguous, and says which |
| OutboxRuns.LawfulReduces | modules/v2b_report.py:720-809 | a history the protocol can write is accepted, and its state is the type of its last send event |
| OutboxRuns.StepKeepsHistories | modules/v2b_report.py:829-1077 | every step of every worker, cut off anywhere, keeps every report's history lawful |
| OutboxRuns.OutboxSafe | modules/v2b_report.py:720-1077 | for every interleaving: reducer accepts; at most one claim open; one final confirmation, only after a send; claims = ambiguous + one if the last send event is claimed or confirmed |
| OutboxRuns.SendsUseClaims | modules/v2b_report.py:1255-1283 | send calls of a report never exceed its claims, one each |
| OutboxRuns.RunShadowReport | modules/v2b_report.py:1194-1325 | undisturbed, a run sends once if it holds a slot, and its history ends confirmed exactly if nothing raised, ambiguous otherwise; a malformed ledger blocks the send |
| OutboxRuns.SlotGrantedIff | modules/v2b_report.py:812-880 | in every reachable state an open claim blocks a slot for exactly 300 seconds, a confirmation for good, and nothing else does; an overdue claim is closed first |
| OutboxRuns.HolderAnswers | modules/v2b_report.py:900-1077 | what confirming, closing and reconciling answer to the last claim and to others, by the last send event; repeating any of them writes nothing |
| OutboxRuns.NoClaimDuringLease | modules/v2b_report.py:858-880 | under a shared monotone clock a claim is written only when every earlier lease has run out or was given up by its own worker |
| OutboxRuns.OneLiveHolder | modules/v2b_report.py:1239-1283 | of two workers about to send one report at most one holds a live lease |
| HashChain.VerifyHashChains | modules/v2b_ledger.py:825-845 | grouping and following the chains accepts exactly the files whose every key is linked |
| HashChain.VerifiesPointwise | modules/v2b_ledger.py:825-845 | equivalently, every event names the hash of the latest earlier event of its key |
| HashChain.AppendVerifies | modules/v2b_ledger.py:1073-1119 | appending keeps the file verifying exactly if the event names its own key's head, whatever else interleaves |
| HashChain.HeadDeterminesHistory | modules/v2b_ledger.py:825-845 | with an injective hash two verified chains with the same head are identical |
| HashChain.HeadsDetermineFile | modules/v2b_ledger.py:770-822 | two verified files with the same head for a key hold the same history of it |
| ObservationLedger.DeriveStatus | modules/v2b_ledger.py:1103-1111 | the status is that of the latest event that has one |
| ObservationLedger.SamePartition | modules/v2b_ledger.py:661 | two observations share a file exactly if their sessions fall into one month |
| ObservationLedger.Ledger.ReadEvents | modules/v2b_ledger.py:770-822 | reads exactly the files whose hashes match and whose chains verify |
| ObservationLedger.Ledger.FindKey | modules/v2b_ledger.py:979-997 | the scan over all months finds the one partition holding the key, or fails |
| ObservationLedger.Ledger.CheckNoOther | modules/v2b_ledger.py:1000-1016 | passes exactly if every other month is readable and lacks the key |
| ObservationLedger.Ledger.RebuildIndex | modules/v2b_ledger.py:896-920 | fails exactly on an unreadable file or any key opened twice, else maps every opened key to its month |
| ObservationLedger.Ledger.UpdateIndex | modules/v2b_ledger.py:961-976 | adds one entry, and never replaces an unparseable index by that entry alone |
| ObservationLedger.Ledger.ResolvePartition | modules/v2b_ledger.py:1019-1065 | answers as the full scan does, for every index content, but for the stated exception; touches only the index, to repair it |
| ObservationLedger.IndexTransparentIff | modules/v2b_ledger.py:896-937 | index and scan agree for all keys exactly if the index parses, or no key was opened twice, or some file is unreadable |
| ObservationLedger.LostIndexFailsEveryKey | modules/v2b_ledger.py:896-920 | a ledger with one key opened twice: the scan finds it, but without a parseable index every key is reported corrupt |
| ObservationLedger.DuplicateRejected | modules/v2b_ledger.py:1000-1016 | a key in two partitions is rejected whatever the index holds |
| ObservationLedger.Ledger.CreateObservation | modules/v2b_ledger.py:1213-1329 | the whole new state and the exact reply: open, repeat, conflict written or refused, corruption; the index update after a write fails exactly if the index did not parse and some key was opened twice |
| ObservationLedger.Ledger.TransitionObservation | modules/v2b_ledger.py:1332-1377 | appends exactly a permitted transition to the resolved partition, else changes no event |
| ObservationRuns.AppendKeepsMonth | modules/v2b_ledger.py:1073-1119 | an event its own key's history permits keeps the month verified and all its histories legal |
| ObservationRuns.RunKeepsInv | modules/v2b_ledger.py:1127-1377 | the invariant of the ledger holds after every run |
| ObservationRuns.LedgerSafe | modules/v2b_ledger.py:1127-1377 | in every reachable state, for any index: files verify, each key lives in its own month as a legal path opened once, and resolving it returns exactly that |
| ObservationRuns.TransitionAnswer | modules/v2b_ledger.py:169-177 | in every reachable ledger CREATED advances exactly to COLLECTING or CONFLICT, COLLECTING exactly to COMPLETED, FAILED_DATA, FAILED_VALIDATION or CANCELLED, nothing else at all; with the event written |
| ObservationRuns.CreationAnswer | modules/v2b_ledger.py:1249-1310 | in every reachable ledger a creation opens a new key, matches equal content, writes a conflict while nothing else has happened, and is refused later |
| ObservationRuns.FinalReached | modules/v2b_ledger.py:169-177 | each of the five final statuses is reached by some run |
| ObservationRuns.HistoryGrows | modules/v2b_ledger.py:169-177 | histories only grow, and a key whose last event is neither CREATED nor COLLECTING never gains one |
| ObservationRuns.CreateIsIdempotent | modules/v2b_ledger.py:1249-1261 | after a creation has landed, the same creation is a match for ever |
| SignalLedger.SplitJoins | modules/ledger.py:436-458 | cutting a text into complete lines and a remainder loses nothing |
| SignalLedger.JoinSplits | modules/ledger.py:526-533 | joined lines split back into themselves |
| SignalLedger.SignalFile.HealPartialLastLine | modules/ledger.py:436-458 | keeps exactly the complete lines and returns how much was cut |
| SignalLedger.SignalFile.RebuildIndex | modules/ledger.py:386-417 | collects exactly the ids on the lines of the file |
| SignalLedger.SignalFile.Append | modules/ledger.py:465-545 | the whole new state and the reply of a batch append |
| SignalLedgerRuns.TornBatch | modules/ledger.py:526-533 | what a crash leaves whole are the first records of the batch |
| SignalLedgerRuns.RetryAfterCrash | modules/ledger.py:506-516 | with the index trusted, a retry writes all, returns 0 or raises according to how much had landed, and no id is stored twice |
| SignalLedgerRuns.StaysDistinctIff | modules/ledger.py:498-516 | every next batch keeps ids distinct exactly if all ids on file are among those consulted |
| SignalLedgerRuns.RetryDuplicatesIff | modules/ledger.py:420-429 | a retry stores an id twice exactly if a record had landed and the file is at most a second newer than the index |
| SignalLedgerRuns.RebuildThenCrash | modules/ledger.py:500-533 | a call that rebuilds the index, appends within a second and crashes makes its retry write every record again |
| SignalLedgerRuns.SpacedRunsNeverDuplicate | modules/ledger.py:465-545 | if crashing appends fall more than a second after the last index save, no run stores an id twice, and a returning call leaves the index with exactly the ids on file |
| SignalLedgerRuns.WrittenIsStamped | modules/ledger.py:525-538 | a call that writes stamps file and index, so that the next one rebuilds only if the append came more than a second after the save |
| SignalLedgerRuns.BrokenIndexDuplicates | modules/ledger.py:352-365 | with an index that does not parse and is not older than the file by more than a second, any id on file can be stored again |
| SignalLedgerRuns.StaleIndexIsRebuilt | modules/ledger.py:420-429 | with no index, or one more than a second older than the file, the ids on file are consulted |
| Trading.BuyOutcome | modules/portfolio.py:183-213 | the exact size of a buy and every reason to skip it, from price, signal price, pre-market move, target and cash |
| Trading.BuyAffordable | modules/portfolio.py:185-213 | a buy spends at least the minimum, at most the filtered target, and with costs no more than the cash |
| Trading.FillAffordable | modules/portfolio.py:297-303 | a fill spends the smaller of the remainder and 99.5% of the cash if both reach 500, and is affordable; its second cap never binds |
| Trading.RoundTripCost | modules/portfolio.py:13-17 | buying and selling at one price costs 0.203% of the value and leaves nothing held |
| Trading.BoughtPosition | modules/portfolio.py:215-240 | what is bought is held at its price in every field, with the planned rest and its minimum price |
| Trading.FillHappensIff | modules/portfolio.py:262-303 | a fill happens exactly on a partial position of five days, at or above its minimum price, with rest and cash of 500; below 500 the rest is given up |
| Trading.FilledPosition | modules/portfolio.py:305-318 | a fill adds what it spends to shares times average price, and sets or keeps every other field as stated |
| Trading.PartThenFill | modules/portfolio.py:226-297 | a partial buy is topped up exactly from day five on and at 2% above its price, if rest and cash allow |
| Trading.SoldPosition | modules/portfolio.py:101-128 | a sale takes the whole position, brings 99.897% of its value and starts the cooldown |
| Trading.TicketSays | modules/portfolio.py:126-148 | the rounded amounts of a ticket in terms of shares, price and value |
| Trading.Book.ExecuteBuy | modules/portfolio.py:157-259 | state and trade of a buy, or the reason for skipping it and no change |
| Trading.Book.ExecuteSell | modules/portfolio.py:101-154 | state and trade of a sale, or no change |
| Trading.Book.ExecutePyramidFill | modules/portfolio.py:262-344 | state and trade of a pyramid fill, or at most the partial mark cleared |
| FillAccuracy.RecordedTwiceRounded | modules/fills.py:199-211 | writing an event rounds no amount of a trade any further |
| FillAccuracy.CostAlwaysOk | modules/fills.py:658-694 | the cost checks pass for every executed trade |
| FillAccuracy.CashAlwaysOk | modules/fills.py:587-611 | the cash checks pass for every executed trade |
| FillAccuracy.OnlyGrossCanFail | modules/fills.py:545-703 | an executed trade is accepted exactly if shares and price do not round to zero and the gross check passes |
| FillAccuracy.MinimumIsRecorded | stock_bot.py:780-807 | at a price within the bound a trade of at least the minimum value has recorded shares and price above zero |
| FillAccuracy.WrittenEventsAccepted | stock_bot.py:780-807 | it passes if shares·abs(p − round(p,2)) + 5e-7·round(p,2) is at most 0.01 (and, for a sale, nothing rounds to zero), and only if the gross error is at most 0.03 |
| FillAccuracy.WholeCentFillsAccepted | stock_bot.py:780-807 | every buy and pyramid fill at a whole-cent price up to 20,000 is accepted, and every sale whose share count does not round to zero |
| FillAccuracy.SubCentBuyRefused | modules/fills.py:665-672 | a buy at 10.004 produces an event the loader refuses |
| Replay.ReconcileStrategy | modules/reconcile.py:23-71 | the report lists exactly the share counts out of tolerance and its verdict is that of the stated deviation |
| Replay.StableSortSorts | modules/reconcile.py:31 | the replayed rows are the selected ones in order of time |
| Replay.SortIsStable | modules/reconcile.py:31 | rows with equal times keep the order of the file |
| Replay.OkWithinThreshold | modules/reconcile.py:60-71 | with all share counts in tolerance the verdict is that of the cash difference |
| Replay.DifferenceReported | modules/reconcile.py:49-71 | a share count off by more than a millionth is listed with its worth by last, average or replayed price, and over a dollar the report is not OK |
| Replay.SelectedRows | modules/reconcile.py:28-33 | exactly the rows of the strategy since its creation are replayed, from 10,000 in cash |
| Replay.OldRowsAgree | modules/reconcile.py:16-20 | a row without the net column replays to the same cash, to one and a half cents |
| Replay.SplitKeepsPace | modules/reconcile.py:37-39 | a split row moves no cash and keeps replayed and saved share counts as far apart as they were |
| Replay.SaleClears | modules/reconcile.py:42-44 | after a sale nothing of the ticker is left in the replay, and no other ticker is touched |
| Replay.StepKeepsCash | modules/reconcile.py:16-20 | one more trade moves the two cash balances apart by at most half a cent, and never below zero |
| Replay.StepKeepsShares | modules/reconcile.py:43-46 | one more trade keeps every replayed share count within its slack |
| Replay.HistoryReconciles | modules/reconcile.py:23-71 | over any split-free history cash stays non-negative, the replay is off by at most half a cent a trade and 1e-6 shares, and up to 200 trades the report is OK |
| Allocation.BuildTargetWeights | modules/v2_strategy.py:852-903 | the nested loops compute the iterated form |
| Allocation.OnePassForm | modules/v2_strategy.py:880-899 | the loop redistributes at most once, for all inputs |
| Allocation.RedistributesIff | modules/v2_strategy.py:880-892 | there is a redistribution exactly if the cap cut off at least 1e-10 and some positive weight is more than 1e-12 below it |
| Allocation.GrowthInProportion | modules/v2_strategy.py:894-897 | weights below the cap grow in proportion to themselves and share out exactly the surplus |
| Allocation.WeightsWithinLimits | modules/v2_strategy.py:852-903 | weights lie between 0 and cap times exposure, add up to at most the exposure, and follow the scores up to 1e-12 times exposure |
| Allocation.FullyInvestedIff | modules/v2_strategy.py:863-869 | the weights add up to the exposure exactly if there is no surplus or the one redistribution pushes nobody over the cap |
| Allocation.CashOnlyAtCapIff | modules/v2_strategy.py:863-869 | cash is left only with every weight at the cap exactly if: after a redistribution, nobody or everybody is pushed to the cap; without one, there is no surplus or no share is below the cap |
| Allocation.NothingToInvest | modules/v2_strategy.py:867-869 | without a positive total score there are no weights, and without exposure the weights add up to it |
| Allocation.CashLeftBelowCap | modules/v2_strategy.py:863-869 | scores 6, 3, 1 under a cap of 0.4 leave cash although a weight is below the cap |
| Rounding.RoundError | modules/fills.py:199-211 | rounding moves an amount by at most half a unit of its last place |
| Rounding.RoundToNearest | modules/fills.py:199-211 | rounding lands on the nearest whole unit, and on the even one in a tie |

## Left out

- Torn lines in the order ledger, the observation ledger and the report ledger, and torn lines of the fill log inside crash runs: appends are whole-line atomic there. `load_fill_events` itself is modelled for lines that do not parse or have the wrong hash, with its repair; `modules/ledger.py` is modelled down to the byte.
- Field presence and JSON types, NaN and infinities, hex formats and record versions outside the fill log: a record that parses is typed and complete, a missing text is the empty string.
- SHA-256: digests of fill records and portfolios are injective constructors; the observation ledger takes any hash function and assumes injectivity only where a lemma says so. The hash chain of the report ledger is not repeated for the outbox.
- The content of a portfolio beyond its trades: an abstract number, so that marking to market may or may not change the hash.
- `portfolio_id`: one fixed id per strategy. A portfolio that was never saved gets a new id on every load in the source.
- A commit intent with an empty id: the loader accepts it and recovery stops at its first marker; the recovery lemmas assume ids are present, the method's contract covers both.
- Several processes on the fill log at once: one process runs at a time, as the scheduler has it.
- Trade selection in `run_strategy_execution` (ranking, sectors, correlation, blackout): any choice among retryable orders. That an order is not filled twice in one run is the guard of the fill step.
- A failed check of the saved hash after the save, and exceptions other than a crash: they end the process like a crash.
- Legacy orders and versionless records beyond never leading to EXECUTED.
- `apply_split_adjustments`: excluded from crash runs, from the sessions of the trade table and from the replay bound; split rows are replayed.
- The text form of trades.csv: the table is read back as it was saved. A crash between the row in memory and its ids loses both with the process.
- The session calendar: the opening bell is an abstract function of the session, and whether today's session has closed is a parameter.
- The pairwise loop that joins the commit intents of a contested order: the model joins them all at once.
- Telegram, market data, git and the clock: parameters or events. That a send call happened is an event; whether the message arrived is not modelled.
- Building a report (`create_report`) and its index: only the REPORT_CREATED event, which the reducer ignores.
- Input validation of `create_observation`: the writer starts from a valid key and content.
- Listing functions, message formats, `write_signal_run` and the other wrappers of the batch append: they select, format or pass on what the modelled functions return.
- `tampered_ids` of the signal ledger's index: it does not influence the append.
- Duplicate ids inside one batch of the signal ledger: the append is modelled for them, the uniqueness theorems ask for distinct ids.
- Labels of a trade or position (reason text, buy score, timestamps) and the skip for a non-positive share count, which a positive price excludes.
- Floating point: amounts, weights and times are exact reals.
- Scoring, sentiment, earnings, technicals, backtests, metrics and V2 factors: statistics over library calls.
