# Dogecoin indexer: model and proofs

The indexer follows a Dogecoin node: it stores raw blocks, turns them into creates, spends, movements, facts,
current outputs and balances, and keeps those right across reorgs, crashes, restarts and several competing
instances. These Dafny modules model that behaviour and prove what it promises.

## The modules

- **Chain, Balances, Projection, FactTotals, BlockRows**: blocks as creates followed by spends, the ledger they lead to,
  balances as sums over it, and the movements and facts of a block, column by column. A valid chain has fresh output keys, spends each
  output at most once and never before it exists, and links by height and hash.
- **Store, StoreProofs, StoreTheorems, Convergence, InMemoryWarehouse**: the in-memory adapter as a class whose
  rows its methods rewrite, each method proved against a function of the old rows, and those functions proved
  right: reorg convergence, rewind, re-apply, and the agreement of three ledgers in every run.
- **ProjectionWindow**: the projection port's overlay of next outputs and fold of balances, proved to agree with the
  window engine.
- **Tables, FactTables, AppliedLogs, KeyRanges, Materialization, CoreWindow, CoreState, CoreTails, WindowShape,
  CorePending, Resumption, Checkpoints, CoreWarehouse, WarehouseRuns, Agreement**: the ClickHouse adapter. A table is
  a bag of versioned rows, a read may return any highest version, and every statement may be cut short. The class
  `CoreWarehouse.Warehouse` carries windows, tail deletes, rewinds, repairs and resumable materialization;
  its field `reliable` says whether statements go through or may be interrupted. `WarehouseRuns` puts them together to
  runs. `AppliedLogs` says what movements and facts still mean when blocks
  were applied without their prevouts.
- **OnlineReorg**: the online window planned by the service, applied by either adapter.
- **InFlight, WindowReads, Recovery, RecoveryProofs, RecoveryLimits, Holes**: the crash protocol as a state machine over
  metadata log and warehouse. A crash loses any writes after the last synchronous one; rows that were sent land later
  in any parts, or never. Windows read their prevouts and balances from the tables. `RecoveryLimits` shows by runs
  where recovery ends, and `Holes` what becomes of a window above missing blocks.
- **Lease, Stages**: leader election by compare-and-swap under skewed clocks, and the stage machine.
- **Prefetcher, RawSync**: the read-ahead with generations, and raw block sync with its contiguous frontier.
- **Wire, WireProofs, WireFront, RawBlockDecoder, RawBlockTheorems, Positional, Base58, Amounts**: the raw block
  codec, Base58 and exact decimal amounts.
- **Integers**: maximum and minimum.

`Stored(tables, chain, mode)` says that the create, spend and processed tables hold each row of the chain exactly
once, that movements and facts are exactly those of its blocks as they were applied, and, while current state is
maintained, that reading the highest versions gives the ledger's outputs and amounts. `HasPrefix` says that everything
below the chain's end is right, whatever lies above. `Represents(rows, chain)` says the same of the in-memory rows;
balances are compared by amount, a missing row counting as zero.

A block applied without a current state knows only the outputs its own window creates (`Projection.Lookups` records
for each height what was known), so debits of older outputs are absent there and input totals fall short. Whatever
the blocks were applied with, every credit is there once, no movement twice, every debit belongs to a spend, and each
creating transaction has one fact; where all prevouts were known all rows are those of the chain
(`AppliedLogs.MovementsSound`, `AppliedLogs.FactsSound`).

## What does not hold without a condition

- A leader's exclusivity needs clocks at most two heartbeats and one millisecond apart; beyond that two leaders are
  possible (`Lease.SafeExactlyWhenSynchronised`).
- The stage machine can go back and forth for ever exactly when `coreSyncCompleteDistance` exceeds
  `coreOnlineTipDistance` and the tip is above the latter (`Stages.RestsExactlyWhenSettled`).
- A legacy parent coinbase with no inputs and one output is taken for the extended format
  (`WireProofs.ParentBack` gives the exact condition).
- If the node's tip drops below the recorded tail while the stage is online, a window starts lower than later ones
  do, unless the reprocess depth reaches the first block (`RecoveryProofs.StartIgnoresTarget`). When it fails, its
  recovery leaves a hole below the next window (`RecoveryLimits.HoleIsReached`). That window goes through exactly
  when it spends nothing that was created in the hole (`Holes.HoleDecides`); otherwise it fails every time, because
  the repair does not find the missing output (`Holes.RepairFindsNothing`). Once it went through, its previous-block
  check and the tail that reconciliation reads do not show the hole (`RecoveryLimits.GapStays`). Without such a drop
  there never is one (`RecoveryProofs.RecoveredIsExact`).
- A warehouse behind the recorded tail is rewound once per process start, and counts as reconciled before the rewind:
  an error in it leaves the current state half built while the stage goes on, for every chain longer than the
  reprocess depth (`RecoveryLimits.SpoilIsReached`). Without such an error it is always right between windows
  (`RecoveryProofs.RecoveredIsCurrent`), and every block is applied with right prevouts
  (`RecoveryProofs.RunStaysSure`).
- A materialization checkpoint can overclaim exactly when a number of key ranges is used again after another one
  (`Checkpoints.OverclaimsExactlyWhenSplitRecurs`). The number follows the rows of the create table, which only merge
  while nothing is inserted.
- A transaction that spends but creates nothing leaves no fact (`FactTotals.FactsConserve`).

## Model

| member | source | states |
|---|---|---|
| Convergence.WindowConverges | packages/platform/src/warehouse.ts:280-301 | One window of the node's chain, whatever the fork below it: no missing output and no negative balance is reported, and the rows end as those of the node's chain applied from genesis to the window end (or stay as they are when the stored chain already reaches further) |
| OnlineReorg.WindowStartsOnCommonGround | packages/modules/indexing-pipeline/src/application/core-dogecoin-indexer-service.ts:1974-2003 | When node and processed chain agree through the finalized tail, the planned online window is not empty, starts on common ground for every fork depth up to the reprocess depth, and ends at or above the processed tail unless the target has dropped |
| OnlineReorg.OnlineWindowConverges | packages/modules/indexing-pipeline/src/application/core-dogecoin-indexer-service.ts:1395-1449 | Reorg convergence end to end for the in-memory rows: one online window leaves exactly the node's chain up to the window end |
| OnlineReorg.ProcessOnlineWindow | packages/modules/indexing-pipeline/src/application/core-dogecoin-indexer-service.ts:1416-1449 | The same for the versioned tables: a finished online window stores the node's chain up to its end, an interrupted one leaves every row below its first height untouched |
| Convergence.FirstReorgIsFork | packages/platform/src/warehouse.ts:323-339 | Scanning the applied blocks finds exactly the lowest height of the window at which the two chains differ |
| Convergence.PendingIs | packages/platform/src/warehouse.ts:323-339 | What a window leaves to do: everything from the fork up after a rewind there, else everything above the stored tail, else nothing |
| Convergence.PendingConverges | packages/platform/src/warehouse.ts:280-301 | From rows of a prefix of the node's chain, the rest of the window leads to the rows of the chain up to its end |
| Convergence.RewindUndoesApply | packages/platform/src/warehouse.ts:360-377 | Applying A then B and rewinding to B's first height restores A's outputs, movements, facts and applied blocks exactly, and A's balance amounts |
| Convergence.ReapplyChangesNothing | packages/platform/src/warehouse.ts:323-339 | A window that is already applied changes no row and reports nothing applied |
| Convergence.OpRepresents | packages/platform/src/warehouse.ts:315-321 | One window or one recovery moves rows of a chain to rows of the chain it leads to, and the resulting chain is valid |
| Convergence.RunsRepresent | packages/platform/src/warehouse.ts:273-377 | After any sequence of windows, reorgs and recoveries the rows are exactly those of the chain reached |
| Convergence.LedgersAgree | packages/platform/src/warehouse-state.ts:129-141 | Each address's balance row, the sum of its unspent spendable outputs, and credits minus debits of its movements are the same non-negative amount |
| Convergence.LedgersAgreeInEveryRun | packages/platform/src/warehouse-state.ts:209-230 | The three ledgers agree, and no balance is negative, in every state reached from the empty store |
| Convergence.NetOfChain | packages/platform/src/warehouse.ts:4600-4669 | Credits minus debits of the movements of any valid chain equal what the address owns in the ledger |
| Convergence.RowsBalanceIs | packages/platform/src/warehouse.ts:379-402 | Summing unspent spendable rows gives the ledger's balance, whatever the row order |
| StoreProofs.MovementsTrack | packages/platform/src/warehouse.ts:858-955 | Recording the movements of valid events one at a time adds exactly those movements, never trips the negative check, and keeps every balance in step with the ledger |
| StoreProofs.EventMovementFacts | packages/platform/src/warehouse.ts:4613-4669 | An event has at most one movement, its id is new, and it is the whole balance change of the event for every address |
| StoreProofs.ApplyBlockExtends | packages/platform/src/warehouse.ts:341-358 | Applying the next block of a valid chain succeeds and gives the rows of the longer chain |
| StoreProofs.NewFactsAppend | packages/platform/src/warehouse.ts:809-817 | Facts of a new block never overwrite facts of an earlier one |
| StoreTheorems.WindowLookupFits | packages/platform/src/warehouse.ts:4516-4529 | Rows read before the window, shadowed by the window's own creates, have the right terms for every output the window spends, including those it creates itself |
| StoreTheorems.ApplyBlocksExtends | packages/platform/src/warehouse.ts:293-297 | A window of any length, with its lookup built once up front, gives the rows of the longer chain |
| StoreTheorems.LogsRewind | packages/platform/src/warehouse.ts:360-377 | Dropping movements and facts at or above a height leaves exactly those of the shorter chain, in order |
| StoreTheorems.OutputsRewind | packages/platform/src/warehouse.ts:1108-1127 | Dropping outputs created, and un-spending outputs spent, at or above a height leaves exactly the output rows of the shorter chain |
| StoreTheorems.RebuiltTracks | packages/platform/src/warehouse.ts:379-402 | Balances rebuilt from the unspent outputs equal the ledger's balances, rows of zero dropped |
| StoreTheorems.RewindRepresents | packages/platform/src/warehouse.ts:360-377 | A rewind to any height of the chain leaves the rows of the chain below it |
| StoreTheorems.RewindBeyond | packages/platform/src/warehouse.ts:315-321 | A rewind above the tail leaves the rows of the same chain |
| StoreTheorems.RewoundBalancesStamped | packages/platform/src/warehouse.ts:379-402 | After a rewind every balance row holds as of the last block that is left |
| AppliedLogs.BlockBalancesStamped | packages/platform/src/warehouse.ts:858-955 | Applying a block stamps the balances it moves with its height and leaves every other balance row as it was |
| Projection.EffectsNeedTermsOnly | packages/platform/src/warehouse.ts:4600-4685 | Movements and facts of a block depend on the outputs it spends only through their terms, never on who spent them |
| Projection.CreatingTxids | packages/platform/src/warehouse.ts:4687-4696 | Transactions are grouped once each, and only those that create an output |
| FactTotals.FactsConserve | packages/platform/src/warehouse.ts:4671-4750 | The facts of a block account for every output and all its value; they account for every spend if and only if each spending transaction also creates an output |
| BlockRows.MovementsAre | packages/platform/src/warehouse.ts:4600-4669 | A block's movements are exactly the credits of the spendable outputs it creates and the debits of the known spendable outputs it spends, each column stated: a credit under the output's own stamps, a debit under those of the block and named by the spender, with address and amount of the output spent |
| BlockRows.FactSays | packages/platform/src/warehouse.ts:4671-4750 | Each fact of a block carries the block's stamps, the counts and sums over just its transaction's outputs and spends, the index of an output with the lowest number, coinbase exactly when some output is, and a fee that is input less output, absent exactly for a coinbase or without known inputs |
| BlockRows.FactsCover | packages/platform/src/warehouse.ts:4687-4696 | Every transaction that creates an output has a fact in its block, and no two facts share a transaction |
| InMemoryWarehouse.Warehouse.constructor | packages/platform/src/warehouse.ts:259-271 | A new adapter holds no rows |
| InMemoryWarehouse.Warehouse.ApplyCoreWindow | packages/platform/src/warehouse.ts:280-301 | The new rows, error and result are those of the window specification, including how far an error got |
| InMemoryWarehouse.Warehouse.RecoverCoreWindow | packages/platform/src/warehouse.ts:315-321 | Leaves the rows the rewind specification says, balances rebuilt |
| InMemoryWarehouse.Warehouse.PendingApplications | packages/platform/src/warehouse.ts:323-339 | Rewinds at the first reorged height and returns what is pending |
| InMemoryWarehouse.Warehouse.ApplyApplication | packages/platform/src/warehouse.ts:341-358 | Creates, spends, movements, facts, and the applied record last; stops at the first error with what was written |
| InMemoryWarehouse.Warehouse.CreateOutputs | packages/platform/src/warehouse.ts:843-847 | Only outputs change: the creates replace or extend them in order |
| InMemoryWarehouse.Warehouse.ConsumeOutputs | packages/platform/src/warehouse.ts:849-856 | Stops at the first unknown output, earlier spends written |
| InMemoryWarehouse.Warehouse.RecordMovements | packages/platform/src/warehouse.ts:858-871 | A repeated movement changes nothing; a new one is kept even when its balance would go negative |
| InMemoryWarehouse.Warehouse.RecordFacts | packages/platform/src/warehouse.ts:809-817 | Only facts change, one fact a transaction |
| InMemoryWarehouse.Warehouse.RebuildBalances | packages/platform/src/warehouse.ts:379-402 | Balances become the sums over the current outputs as of the last applied height |
| ProjectionWindow.PathsAgree | packages/modules/indexing-pipeline/src/domain/projection-models.ts:104-187 | However a chain is cut into windows, the overlay of next outputs and the movement-by-movement balance fold give the same outputs and balances as the window engine, those of the longer chain, with no missing output and no negative balance |
| ProjectionWindow.BuildNextOutputs | packages/modules/indexing-pipeline/src/domain/projection-models.ts:343-365 | Returns the rows the window engine would write, or the same missing output |
| ProjectionWindow.ApplySpends | packages/modules/indexing-pipeline/src/domain/projection-models.ts:28-67 | A spend reads the window's own row first, else the row read before the window |
| ProjectionWindow.BuildNextBalances | packages/modules/indexing-pipeline/src/domain/projection-models.ts:388-441 | Batch after batch equals one fold over all movements of the window |
| ProjectionWindow.ApplyMovements | packages/modules/indexing-pipeline/src/domain/projection-models.ts:104-133 | Stops at the first movement that would make a balance negative |
| ProjectionWindow.SettleWindow | packages/modules/indexing-pipeline/src/domain/projection-models.ts:119-133 | Settling a window's movements leads from the balances of a chain to those of the longer chain; the negative check never fires, not even in between |
| ProjectionWindow.ReadsTheSame | packages/modules/indexing-pipeline/src/domain/projection-models.ts:328-330 | Reading every spent output finds the same rows as reading only those created before the window |
| Tables.NewerRowsWin | packages/platform/src/warehouse.ts:5286-5302 | Rows written with versions above everything before them become the meaning of their keys, whichever of equal rows a read picks |
| Tables.FreshKeysJoin | packages/platform/src/warehouse.ts:1747-1772 | Rows for keys that have none need no particular version |
| Tables.MeaningUnique | packages/platform/src/warehouse.ts:1797-1824 | A table with duplicate rows still means at most one thing |
| Tables.ReadsAre | packages/platform/src/warehouse.ts:2688-2698 | Reading one highest version for each key returns exactly the table's meaning on those keys |
| Tables.LimitOneBy | packages/platform/src/warehouse.ts:3385-3404 | Returns one highest-version row for each requested key that has any |
| CoreWindow.MutateWindow | packages/platform/src/warehouse.ts:4785-4810 | Creates before spends, block after block, equals the mutation of the window's events; a missing prevout stops it |
| CoreWindow.MutateCreates | packages/platform/src/warehouse.ts:4812-4837 | Equals the mutation of the creates in order |
| CoreWindow.MutateSpends | packages/platform/src/warehouse.ts:4821-4860 | Equals the mutation of the spends in order; the first missing prevout is reported |
| CoreWindow.MutationAgrees | packages/platform/src/warehouse.ts:4785-4860 | From any view of the ledger, the computed rows give a view of the ledger after the window, and the deltas are the balance changes of the whole ledger, wherever the window was cut |
| CoreWindow.MutatedFoundAll | packages/platform/src/warehouse.ts:4869-4879 | A window that went through found every output it spends |
| CoreWindow.WindowRowsOutrank | packages/platform/src/warehouse.ts:5286-5298 | Every row a window writes has a version above those of all blocks below the window |
| CoreState.WindowMutates | packages/platform/src/warehouse.ts:1774-1795 | The mutation of the next window of a valid chain succeeds and gives the current outputs and balance changes of the longer chain |
| CoreState.AmountsAdvance | packages/platform/src/warehouse.ts:4893-4933 | Stored amount plus delta is the new balance of every address, and the negative check never fires |
| CoreState.CurrentAdvances | packages/platform/src/warehouse.ts:1797-1824 | Version order is sound over a window: reading the highest version of each key afterwards gives outputs and amounts of the longer chain, and all versions stay below those of the next block |
| CoreState.ExternalKeysAre | packages/platform/src/warehouse.ts:4516-4529 | The keys a window reads are unspent outputs of the chain below it, and every spend of an older output is among them |
| CoreState.FullFindsAll | packages/platform/src/warehouse.ts:1605-1615 | Complete current rows never miss a prevout |
| CoreState.PrevoutsFit | packages/platform/src/warehouse.ts:4590-4598 | Prevouts and the window's creates together carry the right terms for every spend |
| FactTables.CreatesAreLedger | packages/platform/src/warehouse.ts:4355-4371 | The create rows of a valid chain are exactly the ledger's outputs with their terms |
| FactTables.SpendsAreLedger | packages/platform/src/warehouse.ts:4373-4383 | The spend rows of a valid chain are exactly the ledger's spent outputs and their spenders |
| FactTables.UtxoRowsSplit | packages/platform/src/warehouse.ts:1458-1519 | A height splits the create and spend rows into those of the shorter chain and those at or above it |
| AppliedLogs.WindowLogs | packages/platform/src/warehouse.ts:4537-4574 | Wherever a window is cut and whatever prevouts it saw, the movements and facts it inserts are the next ones of the chain |
| AppliedLogs.TruthAdvances | packages/platform/src/warehouse.ts:1600-1615 | When what a window saw of the outputs it spends is right, though not complete, that holds of the longer chain at every height |
| AppliedLogs.OwnCreatesTrue | packages/platform/src/warehouse.ts:4590-4598 | A window that reads no prevouts knows the outputs it creates itself, and nothing wrong |
| AppliedLogs.ChainOneEach | packages/platform/src/warehouse.ts:4600-4669 | Whatever the blocks of a valid chain were applied with, no movement comes twice and no two share an id |
| AppliedLogs.ChainMovementsSound | packages/platform/src/warehouse.ts:4600-4669 | Whatever the blocks were applied with: the movements are exactly the credits of the outputs created and the debits of the outputs that were known where they were spent, every column of each stated, and a debit takes the right amount from the right address unless the rows seen may be wrong |
| AppliedLogs.ChainFactsSound | packages/platform/src/warehouse.ts:4671-4750 | Whatever the blocks were applied with: one fact for each creating transaction and nothing else, each describing its transaction column by column, with the inputs that were known and the fee that follows from them |
| Materialization.AntiJoinIsUnspent | packages/platform/src/warehouse.ts:2014-2089 | Creates minus spends as of any height, in one key range, are exactly the unspent rows of the ledger at that height |
| Materialization.FilledIsFaithful | packages/platform/src/warehouse.ts:2014-2089 | Once every range of a partition is filled the table means exactly the unspent rows, however often a range was replayed |
| Materialization.SumByAddress | packages/platform/src/warehouse.ts:2113-2153 | The sums of one address range are those of exactly the addresses that own something there |
| Materialization.OwnedAmountsAre | packages/platform/src/warehouse.ts:2113-2153 | Sums over unspent rows are the ledger's balances; zero balances get no row |
| Materialization.AppliedRowsAre | packages/platform/src/warehouse.ts:2189-2221 | Copying processed heights gives each applied block exactly once |
| KeyRanges.OutputKeyRangesPartition | packages/platform/src/clickhouse-core-dogecoin.ts:21-64 | Every string is in exactly one generated output-key range if and only if the prefix length is at least one |
| KeyRanges.PaddedHexIncreases | packages/platform/src/clickhouse-core-dogecoin.ts:55-64 | Fixed-width hexadecimal is strictly monotone in lexicographic order |
| KeyRanges.PrefixPicksRange | packages/platform/src/clickhouse-core-dogecoin.ts:21-64 | There are two ranges more than prefixes, and a key that starts with hexadecimal digits is in the range they number |
| KeyRanges.BoundariesPartition | packages/platform/src/warehouse.ts:4144-4154 | Ranges between increasing boundaries hold every string exactly once |
| KeyRanges.RangesFromBoundaries | packages/platform/src/warehouse.ts:4144-4154 | From any boundary list, duplicates and empty strings included, the ranges partition all strings |
| Agreement.CurrentStatesAgree | packages/platform/src/warehouse.ts:2001-2153 | Incremental windows, a rewind with a rebuild, and a materialization from nothing read the same: unspent outputs, amounts, applied blocks |
| Agreement.AdaptersAgree | packages/platform/src/warehouse.ts:259-402 | The versioned tables and the in-memory rows of one chain answer alike |
| CoreTails.MaterializedIsCurrent | packages/platform/src/warehouse.ts:2001-2012 | Filled ranges hold the complete current state of the chain, with versions below those of the next block |
| WindowShape.CheckShape | packages/platform/src/warehouse.ts:4944-5029 | Accepts exactly the windows whose heights and hashes link and whose creates and spends do not repeat |
| WindowShape.Remember | packages/platform/src/warehouse.ts:4998-5021 | Accepts exactly when no key repeats |
| WindowShape.ChainWindowsWellShaped | packages/platform/src/warehouse.ts:3208-3215 | Every window of a valid chain passes the shape check |
| WindowShape.ChainWindowsFollow | packages/platform/src/warehouse.ts:3217-3246 | Every window of a valid chain follows the processed block below it |
| CorePending.ReorgIsFork | packages/platform/src/warehouse.ts:4471-4483 | The first processed block with another hash is the fork |
| CorePending.UnprocessedIsSuffix | packages/platform/src/warehouse.ts:4459-4469 | Without a fork, the unprocessed blocks of a window are exactly those above the processed tail |
| CorePending.PendingPart | packages/platform/src/warehouse.ts:1426-1444 | What is left to do is everything from the fork up, or everything above the processed tail |
| CoreTails.TailDeleteRestores | packages/platform/src/warehouse.ts:1458-1519 | Deleting a tail leaves exactly the rows of the chain below it, whatever partial or duplicated rows were above |
| CoreTails.StoredHasPrefix | packages/platform/src/warehouse.ts:1458-1519 | Stored rows agree with every shorter part of the chain below its end |
| CoreTails.SameBelowKeepsPrefix | packages/platform/src/warehouse.ts:1735-1745 | Inserts and deletes above a height never disturb the prefix below it |
| CoreTails.PrefixOfPrefix | packages/platform/src/warehouse.ts:1446-1456 | Rows right up to one height are right up to any lower one |
| CoreTails.NothingAbove | packages/platform/src/warehouse.ts:1735-1745 | Deleting above everything stored changes nothing |
| CoreTails.HistoricalAre | packages/platform/src/warehouse.ts:2745-2825 | Joining the latest creates and spends of some keys gives exactly the ledger's rows |
| CoreTails.RepairsAre | packages/platform/src/warehouse.ts:4223-4248 | A repair reads an unspent row for every missing key: it never reports a missing or spent one on a valid chain |
| CoreTails.RepairJoins | packages/platform/src/warehouse.ts:1747-1772 | Repaired rows join the current rows without disturbing any meaning or any version bound |
| CoreTails.WindowStores | packages/platform/src/warehouse.ts:1574-1598 | All inserts of a window together store the longer chain: facts exactly once, current state right |
| CoreTails.BackfillStores | packages/platform/src/warehouse.ts:1574-1651 | With current state off, a window extends the create, spend and processed rows exactly, and its movements and facts are added once, those of its blocks with the outputs the window creates itself |
| CoreTails.LogsAdvance | packages/platform/src/warehouse.ts:1622-1651 | The movements and facts a window inserts, added to those of the chain as it was applied, are those of the longer chain, at every height and in either mode |
| CoreTails.LogsAreSound | packages/platform/src/warehouse.ts:1600-1651 | Tables that hold the movements and facts as applied hold each credit once, no debit twice and one fact for each transaction, all of them right where the prevouts were known |
| Checkpoints.ResumeIsRight | packages/platform/src/core-dogecoin-state-store.ts:134-152 | While the checkpoints claim only what is filled, the ranges an attempt skips are filled with right rows, and no earlier checkpoint claims more |
| Checkpoints.RecordKeepsClaims | packages/platform/src/core-dogecoin-state-store.ts:109-132 | Recording a finished range keeps every checkpoint true |
| Checkpoints.LossKeepsClaims | packages/platform/src/core-dogecoin-state-store.ts:109-132 | A crash that loses the latest checkpoints keeps the others true, and so do rows of given-up range statements that land late |
| Checkpoints.GrowthKeepsClaims | packages/platform/src/warehouse.ts:2014-2089 | Rows added by a cut-off range statement falsify no checkpoint |
| Checkpoints.ClearKeepsClaims | packages/platform/src/warehouse.ts:1886-1913 | Clearing before a start from nothing contradicts no checkpoint |
| Checkpoints.FinishedFills | packages/platform/src/warehouse.ts:2014-2089 | Finishing ranges one after another fills each of them with right rows, and the checkpoint recorded after each claims no more than that |
| Checkpoints.AttemptKeepsClaims | packages/platform/src/core-dogecoin-state-store.ts:109-152 | However an attempt stops, in its clear, between ranges or inside one, its checkpoints claim only what is filled if those it found did |
| Checkpoints.AttemptKeepsTrust | packages/platform/src/core-dogecoin-state-store.ts:109-152 | While no split recurs, an attempt, a crash that loses the latest checkpoints and rows that land late leave only checkpoints the next attempt may trust |
| Checkpoints.LandingMeanwhile | packages/platform/src/warehouse.ts:2014-2089 | Rows that land while an attempt inserts its ranges leave the table that they would have left by landing after it |
| Checkpoints.LateRowsHarmless | packages/platform/src/warehouse.ts:1653-1684 | Rows of given-up range statements for the same height and chain that land after the current state is complete change nothing of what it means |
| Checkpoints.StaleCheckpointOverclaims | packages/platform/src/warehouse.ts:2014-2089 | For lengths p with i < j < k and p[i] == p[k] != p[j], and any output key: the run of attempts after which attempt k skips the range of that key although the table is empty |
| Checkpoints.OverclaimsExactlyWhenSplitRecurs | packages/platform/src/core-dogecoin-state-store.ts:109-152 | Some run of attempts finds a checkpoint that claims an unfilled range if and only if there is something to materialize and a number of ranges is used again after another one |
| CoreWarehouse.Warehouse.constructor | packages/platform/src/warehouse.ts:1308-1336 | A new warehouse holds no rows |
| CoreWarehouse.Warehouse.ClearCurrentState | packages/platform/src/warehouse.ts:1886-1913 | Success leaves the current tables empty; a failure only ever removes rows |
| CoreWarehouse.Warehouse.ClearDerivedState | packages/platform/src/warehouse.ts:2091-2106 | Success leaves balances and applied blocks empty |
| CoreWarehouse.Warehouse.InsertUtxoRange | packages/platform/src/warehouse.ts:2014-2089 | Success adds exactly the unspent outputs of the chain at the height that lie in the range; an interrupted statement adds some of them |
| CoreWarehouse.Warehouse.InsertUtxoRanges | packages/platform/src/warehouse.ts:2014-2089 | From any resume point the ranges are finished in order, each recorded after its rows; wherever it stops, that is how far it got, with part of the next range at most |
| CoreWarehouse.Warehouse.InsertBalances | packages/platform/src/warehouse.ts:2113-2153 | Success writes the amount of every address that owns something, each in one range of a partition |
| CoreWarehouse.Warehouse.InsertApplied | packages/platform/src/warehouse.ts:2189-2221 | Success writes every applied block up to the height exactly once, for any step size |
| CoreWarehouse.Warehouse.InsertDerived | packages/platform/src/warehouse.ts:2001-2012 | Success completes the current state of the chain at the height |
| CoreWarehouse.Warehouse.InsertMaterialization | packages/platform/src/warehouse.ts:2001-2012 | Success leaves the current state of the chain at the height, from any resume point |
| CoreWarehouse.Warehouse.MaterializeAttempt | packages/platform/src/warehouse.ts:1837-1866 | One attempt, stopped anywhere, is an attempt in the sense of the checkpoint theorem; if the ranges it skips are filled, success leaves the current state of the chain; it succeeds when no statement is interrupted |
| CoreWarehouse.Warehouse.LandLate | packages/platform/src/warehouse.ts:2014-2089 | Range statements of earlier attempts that go on running on the server add only right rows for the height, in any parts |
| CoreWarehouse.Warehouse.MaterializeOnce | packages/platform/src/core-dogecoin-state-store.ts:109-152 | One attempt with what may follow it, late rows and lost checkpoints: success leaves the current state of the chain all the same |
| CoreWarehouse.Warehouse.MaterializeUntilDone | packages/platform/src/core-dogecoin-state-store.ts:109-152 | Any number of attempts with crashes at any statement, checkpoints lost and rows landing late in between, whatever the splits as long as none recurs after another: success leaves the same state as one uninterrupted run, and checkpoints of other heights stay as they were |
| CoreWarehouse.Warehouse.DeleteTail | packages/platform/src/warehouse.ts:1458-1519 | Nothing below the height is touched even when cut short; success leaves nothing at or above it |
| CoreWarehouse.Warehouse.Rematerialize | packages/platform/src/warehouse.ts:1521-1550 | Success leaves the current state of the chain, whatever the current tables held before, the empty chain included |
| CoreWarehouse.Warehouse.Rewind | packages/platform/src/warehouse.ts:1446-1456 | From any rows above a clean prefix and any current state, success stores the chain below the height; failure keeps the prefix; it succeeds when no statement is interrupted |
| CoreWarehouse.Warehouse.InsertFacts | packages/platform/src/warehouse.ts:1622-1651 | The four inserts may land in any parts; success adds exactly the window's rows, failure touches nothing below the window |
| CoreWarehouse.Warehouse.InsertCurrent | packages/platform/src/warehouse.ts:1797-1824 | Success adds the computed rows with their versions |
| CoreWarehouse.Warehouse.InsertProcessed | packages/platform/src/warehouse.ts:1574-1598 | Success adds exactly the window's processed blocks, failure touches nothing below the window |
| CoreWarehouse.Warehouse.InsertRows | packages/platform/src/warehouse.ts:1574-1598 | Facts, current rows if they are maintained, and processed blocks last: success adds exactly the window's rows, failure touches nothing below the window, and it succeeds when no statement is interrupted |
| CoreWarehouse.Warehouse.InsertWindow | packages/platform/src/warehouse.ts:1574-1598 | When no statement is interrupted and every output the window spends has a current row, or none is needed, the window is inserted; success stores the longer chain, movements and facts in either mode included; every failure leaves the rows below the window clean, and a missing prevout is found before the first insert |
| CoreWarehouse.Warehouse.LoadPrevouts | packages/platform/src/warehouse.ts:1605-1615 | Reads the latest row of each external key, and none while current state is off |
| CoreWarehouse.Warehouse.NextBalances | packages/platform/src/warehouse.ts:4893-4933 | The next amounts follow from the table's meaning; an address is reported exactly when its amount would be negative |
| CoreWarehouse.Warehouse.BuildCurrent | packages/platform/src/warehouse.ts:1774-1795 | Succeeds with rows that store the longer chain, or reports a missing prevout, which complete current rows never cause |
| CoreWarehouse.Warehouse.ReadHistorical | packages/platform/src/warehouse.ts:2735-2825 | Joins latest creates and spends up to a height; nothing below the first block |
| CoreWarehouse.Warehouse.RepairPrevouts | packages/platform/src/warehouse.ts:1747-1772 | Afterwards every output the window spends has a current row and the stored chain is unchanged; it never fails unless a statement is interrupted |
| CoreWarehouse.Warehouse.RepairAndRetry | packages/platform/src/warehouse.ts:1687-1745 | After a missing prevout the failed rows are removed, the current rows repaired and the window inserted once more, which stores the longer chain unless a statement is interrupted |
| CoreWarehouse.Warehouse.PendingApplications | packages/platform/src/warehouse.ts:1426-1444 | Rewinds to the fork if there is one and returns exactly the blocks still to apply; a failed rewind keeps the rows below the window |
| CoreWarehouse.Warehouse.ApplyPending | packages/platform/src/warehouse.ts:1687-1745 | The shape check and the previous-block check never stop a window of a valid chain; with one repair and retry it always stores the longer chain unless a statement is interrupted, and then the rows below it are clean |
| CoreWarehouse.Warehouse.ApplyCoreWindow | packages/platform/src/warehouse.ts:1410-1424 | Wherever the fork is, the window ends with the tables storing the chain it leads to unless a statement is interrupted, and says that it was applied exactly when the stored chain changed; wherever it stops, the rows below the window are as they were |
| CoreWarehouse.Warehouse.PreviousBlockMatches | packages/platform/src/warehouse.ts:3217-3246 | Compares the window with the processed block below it, read at its latest version: accepts exactly when the window follows it or there is none |
| WarehouseRuns.Perform | packages/platform/src/warehouse.ts:1410-1456 | One window or one rewind, finished or stopped anywhere, or some attempts to materialize, leads from what the tables hold to what the next place promises |
| WarehouseRuns.PerformMaterialize | packages/platform/src/warehouse.ts:1837-1866 | Attempts to build the current state over a backfilled chain leave its fact tables alone, and if one succeeds the current state is complete |
| WarehouseRuns.Run | packages/platform/src/warehouse.ts:1410-1866 | After any sequence of windows in either mode, reorgs, interruptions, rewinds and materializations the tables store exactly the chain reached, with each credit once, no debit twice and one fact for each transaction, or, right after an interruption, all of it below the height a rewind will work from; every command that meets no interruption finishes |
| WarehouseRuns.HeldPrefix | packages/platform/src/warehouse.ts:1446-1456 | Whatever stopped before, the tables are right below every height up to the end of the chain reached, so a rewind to any of them is possible |
| WarehouseRuns.NothingHolds | packages/platform/src/warehouse.ts:1308-1336 | The tables of a new warehouse are those of a run of the empty chain, current state included |
| InFlight.LandingKeepsPrefix | packages/platform/src/warehouse.ts:1653-1684 | Rows landing late above a height leave the prefix below it alone |
| InFlight.LandingKeepsAdding | packages/platform/src/warehouse.ts:1642-1651 | While inserts land in any parts, stored rows plus rows in flight stay exactly those of the chain |
| InFlight.LandingConserves | packages/platform/src/warehouse.ts:1642-1651 | Landing neither makes nor loses rows |
| InFlight.AllLanded | packages/platform/src/warehouse.ts:1653-1684 | Once everything has landed the fact tables hold exactly the rows of the chain as its blocks were applied |
| InFlight.CutIsClean | packages/platform/src/warehouse.ts:1458-1519 | A finished tail delete over a clean prefix restores exactly the chain below |
| InFlight.TailIsLast | packages/platform/src/warehouse.ts:1367-1384 | The highest processed height read back is the chain's last block |
| InFlight.FactsSent | packages/platform/src/warehouse.ts:1622-1651 | Whatever prevouts the next window of the chain read, its fact rows on their way next to those stored are exactly the facts of the longer chain as it was applied |
| InFlight.ProcessedSent | packages/platform/src/warehouse.ts:1574-1598 | The processed rows, sent last, complete the window's facts |
| InFlight.CurrentSent | packages/platform/src/warehouse.ts:1797-1824 | Current rows on their way change nothing about the facts stored and still to come |
| InFlight.ShrunkKeepsPrefix | packages/platform/src/warehouse.ts:1458-1519 | A tail delete that is cut short keeps everything below the height |
| WindowReads.ReadsSuffice | packages/platform/src/warehouse.ts:1605-1615 | Over right current rows, whatever versions a read of the prevouts returns, the window's mutation succeeds |
| WindowReads.ReadsAdvance | packages/platform/src/warehouse.ts:1774-1824 | Over right current rows, whatever prevouts and balances the reads return, they fit the window, no balance goes negative, and the rows made of them give the current state of the longer chain |
| RecoveryProofs.StepKeepsInv | packages/modules/indexing-pipeline/src/application/core-dogecoin-indexer-service.ts:1041-1165 | Every step of the protocol, crashes and failures between any two writes and late, partial and lost inserts included, keeps every write a crash may fall back to recoverable |
| RecoveryProofs.RunKeepsInv | packages/modules/indexing-pipeline/src/application/core-dogecoin-indexer-service.ts:285-397 | The recovery invariant holds in every state of every run |
| RecoveryProofs.RecoveredIsExact | packages/modules/indexing-pipeline/src/application/core-dogecoin-indexer-service.ts:1098-1142 | Over whole runs: whenever no marker is pending, creates, spends and processed rows are each there exactly once and nothing else; movements and facts are those of the blocks as they were applied, so each credit once, no debit twice, one fact for each creating transaction, and all of them right where the prevouts were known; nothing is in flight, and the next window starts at or below the first missing block |
| RecoveryProofs.RunStaysSure | packages/platform/src/warehouse.ts:1605-1615 | Over whole runs: unless an error ends a reconciling rewind, no block is ever applied with prevouts that may be wrong |
| RecoveryProofs.RecoveredIsCurrent | packages/modules/indexing-pipeline/src/application/core-dogecoin-indexer-service.ts:362-397 | Over whole runs: between windows the current outputs and balances read as those of the processed blocks, unless an error ended a reconciling rewind since they were last rebuilt |
| RecoveryProofs.ReadsNeverFail | packages/platform/src/warehouse.ts:1605-1615 | Over whole runs: whatever rows the reads of a planned window return, it never misses a prevout and no balance goes negative |
| RecoveryProofs.CrashIsRecoverable | packages/platform/src/metadata-store.ts:793-838 | A crash at any moment, losing any writes after the last synchronous one, leaves either exact tables or a marker whose start is a clean prefix below every row in flight |
| RecoveryProofs.CrashKeepsInv | packages/platform/src/metadata-store.ts:1999-2013 | Losing unsynchronised metadata writes keeps the invariant |
| RecoveryProofs.LoseKeepsInv | packages/platform/src/warehouse.ts:1627-1651 | Rows that were sent and never arrive, in any part of any table, keep the invariant: the window fails and its marker recovers it |
| RecoveryProofs.RebuildRestKeepsInv | packages/platform/src/warehouse.ts:1521-1550 | A rebuild that finishes after a tail delete makes the current state that of the stored chain again |
| RecoveryProofs.MaterializeRestKeepsInv | packages/modules/indexing-pipeline/src/application/core-dogecoin-indexer-service.ts:664-690 | Building the current state for the recorded tail and marking it ready keeps the invariant |
| RecoveryProofs.PlanKeepsInv | packages/modules/indexing-pipeline/src/application/core-dogecoin-indexer-service.ts:1041-1096 | Writing the marker synchronously before the first insert keeps the invariant |
| RecoveryProofs.CutRestKeepsInv | packages/platform/src/warehouse.ts:1446-1456 | Cutting the tail at a fork keeps the invariant: what lies below the fork is stored exactly |
| RecoveryProofs.InsertNewKeepsInv | packages/platform/src/warehouse.ts:1574-1651 | Sending a window's rows, made of whatever prevouts and balances the tables answered, keeps the invariant |
| RecoveryProofs.ClearMarkerKeepsInv | packages/modules/indexing-pipeline/src/application/core-dogecoin-indexer-service.ts:1144-1165 | Clearing the marker lazily after the processed rows are in keeps the invariant |
| RecoveryProofs.PublishKeepsInv | packages/modules/indexing-pipeline/src/application/core-dogecoin-indexer-service.ts:1179-1236 | Publishing the tail lazily keeps the invariant |
| RecoveryProofs.ReconcileKeepsInv | packages/modules/indexing-pipeline/src/application/core-dogecoin-indexer-service.ts:362-397 | Reconciliation reads exactly the last stored block as the tail, so the recorded tail is lowered to it and never below it |
| RecoveryProofs.StartIgnoresTarget | packages/modules/indexing-pipeline/src/application/core-dogecoin-indexer-service.ts:1974-2003 | A window starts where any later one may if and only if the target has not dropped below the recorded tail, or the stage is not online, or the depth reaches the first block |
| RecoveryLimits.EveryChainSettles | packages/modules/indexing-pipeline/src/application/core-dogecoin-indexer-service.ts:285-320 | For every valid chain some run without any failure ends online with that chain stored and everything recorded |
| RecoveryLimits.DroppedTipLeavesHole | packages/modules/indexing-pipeline/src/application/core-dogecoin-indexer-service.ts:1974-2003 | From every such state and every target below the tail that moves the start: a window planned from the lower start fails, is recovered without a restart, and the next window starts above the first missing block |
| RecoveryLimits.HoleIsReached | packages/modules/indexing-pipeline/src/application/core-dogecoin-indexer-service.ts:1098-1142 | For every chain longer than the reprocess depth and every target below its tail some run from the beginning leaves that hole |
| RecoveryLimits.GapStays | packages/platform/src/warehouse.ts:3217-3246 | The window planned above the hole passes the check of its previous block, and if it goes through, the highest processed block hides the missing ones from every later reconciliation |
| Holes.HoleDecides | packages/platform/src/warehouse.ts:1747-1795 | Over a current state that ends below the hole, whatever its reads return, the window above it goes through if and only if none of the older outputs it spends was created in the missing blocks; then no balance goes negative either |
| Holes.RepairFindsNothing | packages/platform/src/warehouse.ts:4223-4248 | Otherwise the repair finds no row for some missing key, so the window fails every time it is tried |
| RecoveryLimits.ReconcilingErrorSpoils | packages/modules/indexing-pipeline/src/application/core-dogecoin-indexer-service.ts:362-397 | From every settled state whose chain is longer than the reprocess depth, a run with one crash and one error in the reconciling rewind goes on with a current state that is wrong, although it counts as ready |
| RecoveryLimits.SpoilIsReached | packages/modules/indexing-pipeline/src/application/core-dogecoin-indexer-service.ts:362-397 | For every chain longer than the reprocess depth some run in which the tip holds ends like that: the exception in the theorem on current state is needed |
| Lease.StepKeepsInv | packages/modules/indexing-pipeline/src/application/core-dogecoin-indexer-service.ts:1674-1760 | Every claim, renewal, takeover, lost answer and tick, and every compare-and-swap executed after its sender gave it up, keeps the lease invariant under bounded clock offsets |
| Lease.AtMostOneFreshLeader | packages/modules/indexing-pipeline/src/application/core-dogecoin-indexer-service.ts:1691-1698 | Over every interleaving, requests that arrive late included, no two instances trust their leases at the same time |
| Lease.SafeExactlyWhenSynchronised | packages/modules/indexing-pipeline/src/application/core-dogecoin-indexer-service.ts:2034-2036 | Some run has two fresh leaders if and only if some clock runs more than two heartbeats and a millisecond ahead of another |
| Lease.ReplacedHolderCannotRenew | packages/platform/src/metadata-store.ts:741-775 | Over whole runs and whatever the clocks: once another instance's lease has replaced a stored one, no request that expects the old lease, waited for or given up, ever succeeds, because the old lease is never stored again |
| Lease.HoldsOnlyWhatWasGranted | packages/modules/indexing-pipeline/src/application/core-dogecoin-indexer-service.ts:1674-1760 | An instance comes to hold a lease only by hearing that its own request was granted, and holds none once a renewal has failed or gone unanswered or another instance's lease was seen alive; an unanswered claim alone takes nothing from it |
| Lease.LateClaimArrives | packages/platform/src/metadata-store.ts:741-775 | Some run stores the lease of a claim that its sender has given up, while nobody trusts it |
| Prefetcher.BlockPrefetcher.constructor | packages/modules/indexing-pipeline/src/application/core-block-prefetcher.ts:53-66 | Starts with no read-ahead, within all bounds |
| Prefetcher.BlockPrefetcher.Request | packages/modules/indexing-pipeline/src/application/core-block-prefetcher.ts:68-81 | A height within the limit always finds a batch of the current generation that holds it |
| Prefetcher.BlockPrefetcher.Collect | packages/modules/indexing-pipeline/src/application/core-block-prefetcher.ts:68-106 | Answers with the source's snapshot of the height exactly when batch, fetch and source have it; never from an older generation; any other failure resets |
| Prefetcher.BlockPrefetcher.AlignTo | packages/modules/indexing-pipeline/src/application/core-block-prefetcher.ts:108-116 | Keeps the generation exactly when the height lies between the first block held and the next to fetch, and then drops just batches that end before it; the first batch then holds the height or the next one starts there |
| Prefetcher.BlockPrefetcher.FirstReaching | packages/modules/indexing-pipeline/src/application/core-block-prefetcher.ts:108-116 | Drops exactly the batches that end before the height |
| Prefetcher.BlockPrefetcher.Pump | packages/modules/indexing-pipeline/src/application/core-block-prefetcher.ts:131-148 | Terminates, only appends, always reaches a cursor within the limit; ends only when the limit, the concurrency, the block budget or the weight budget is reached, with the weight below its budget but for one batch |
| Prefetcher.BlockPrefetcher.WeightSplits | packages/modules/indexing-pipeline/src/application/core-block-prefetcher.ts:157-167 | The buffered weight is what the answered batches weigh plus the running average for every block still to come |
| Prefetcher.BlockPrefetcher.ObserveWeight | packages/modules/indexing-pipeline/src/application/core-block-prefetcher.ts:224-229 | The running average starts with the first sample and then moves three tenths of the way to each |
| Prefetcher.BlockPrefetcher.Schedule | packages/modules/indexing-pipeline/src/application/core-block-prefetcher.ts:169-193 | Appends one batch that starts where the last one ended and has the full size or ends at the limit |
| Prefetcher.BlockPrefetcher.Enqueue | packages/modules/indexing-pipeline/src/application/core-block-prefetcher.ts:169-193 | Buffered blocks stay within the maximum less one plus one batch, and the count in flight stays exact |
| Prefetcher.BlockPrefetcher.Settle | packages/modules/indexing-pipeline/src/application/core-block-prefetcher.ts:195-222 | In whatever order fetches settle, contiguity, bounds and the count in flight hold; a fetch of an older generation changes nothing |
| Prefetcher.BlockPrefetcher.Reset | packages/modules/indexing-pipeline/src/application/core-block-prefetcher.ts:83-87 | A new generation with nothing buffered and nothing counted in flight |
| Prefetcher.BlockPrefetcher.BatchFor | packages/modules/indexing-pipeline/src/application/core-block-prefetcher.ts:127-129 | Finds a batch whenever the height is buffered |
| Prefetcher.SpanTelescopes | packages/modules/indexing-pipeline/src/application/core-block-prefetcher.ts:150-155 | Contiguous batches hold every height from first start to last end once |
| Prefetcher.HeightHasBatch | packages/modules/indexing-pipeline/src/application/core-block-prefetcher.ts:127-129 | Every height between the ends of contiguous batches is in one of them |
| Prefetcher.Await | packages/modules/indexing-pipeline/src/application/core-block-prefetcher.ts:68-81 | While a consumer waits, any number of other fetches, of this generation or older ones, settle in any order, and its batch stays |
| Prefetcher.SettleSome | packages/modules/indexing-pipeline/src/application/core-block-prefetcher.ts:195-222 | Any number of fetches settling keeps the read-ahead valid, ordered and within the concurrency, drops no batch, and changes no generation |
| Prefetcher.ReadNext | packages/modules/indexing-pipeline/src/application/core-dogecoin-indexer-service.ts:848-870 | A consumer of consecutive heights reads what the source holds and never sees a stale batch |
| Prefetcher.ReadWindow | packages/modules/indexing-pipeline/src/application/core-dogecoin-indexer-service.ts:848-870 | However fetches settle in between, the read-ahead refines direct fetching: a filled window is the source's snapshots in order, and fetches in flight never exceed the concurrency; when every fetch answers and the source holds every height, the window is filled |
| RawSync.ConcurrencyController.constructor | packages/modules/indexing-pipeline/src/application/raw-block-sync.ts:83-97 | Starts within 1..max for any settings |
| RawSync.ConcurrencyController.RecordSuccess | packages/modules/indexing-pipeline/src/application/raw-block-sync.ts:99-105 | Concurrency grows by one exactly after a full streak and below the maximum, and stays in 1..max |
| RawSync.ConcurrencyController.RecordFailure | packages/modules/indexing-pipeline/src/application/raw-block-sync.ts:107-115 | Concurrency is halved but stays at least one, and the streak starts again |
| RawSync.ContiguousFrontier.MarkCompleted | packages/modules/indexing-pipeline/src/application/raw-block-sync.ts:323-332 | The frontier is the highest height with everything above the base and up to it completed; it never goes back |
| RawSync.ContiguousFrontier.ConsumeAdvance | packages/modules/indexing-pipeline/src/application/raw-block-sync.ts:334-338 | Says once whether the frontier moved |
| RawSync.Chunk | packages/modules/indexing-pipeline/src/application/raw-block-sync.ts:341-348 | Slices of just the size, the last one at most, whose concatenation is the input, for any size |
| RawSync.RawBlockSyncer.SyncBatch | packages/modules/indexing-pipeline/src/application/raw-block-sync.ts:235-261 | Just the blocks that were decoded at their own heights and written are stored, none of an answer of the wrong size; success means that is the whole batch |
| RawSync.RawBlockSyncer.TryBatch | packages/modules/indexing-pipeline/src/application/raw-block-sync.ts:188-233 | One turn of a batch: success means the batch is stored, giving up means its attempts are used up, and every turn uses one |
| RawSync.RawBlockSyncer.SyncRound | packages/modules/indexing-pipeline/src/application/raw-block-sync.ts:139-175 | However the attempts of all batches of a round interleave, the round ends, and success means every batch of it is stored; when every attempt succeeds, the round does |
| RawSync.RawBlockSyncer.Sync | packages/modules/indexing-pipeline/src/application/raw-block-sync.ts:139-186 | Under any failures everything requested up to a reported frontier was stored before that report; the reports are exactly the frontiers of the rounds that moved it, in rounds of at most the allowed number of batches; full success stores everything and ends at the frontier of the request, and is certain when every attempt succeeds |
| RawSync.EarnedAt | packages/modules/indexing-pipeline/src/application/raw-block-sync.ts:177-186 | A frontier reached from completed heights has everything below it stored |
| RawSync.FrontierReached | packages/modules/indexing-pipeline/src/application/raw-block-sync.ts:313-339 | After all batches the frontier is the end of the unbroken run from the lowest height |
| RawSync.ContiguousEndsAtLast | packages/modules/indexing-pipeline/src/application/core-dogecoin-indexer-service.ts:443-482 | A contiguous request that succeeds ends at its last height |
| RawSync.SyncStage.SyncHeights | packages/modules/indexing-pipeline/src/application/core-dogecoin-indexer-service.ts:443-503 | For any heights that start at or below the first one missing: at the moment of every checkpoint, and at the end, success or not, every height up to the sync tail is in raw storage; a checkpoint at or below the tail is ignored |
| RawSync.SyncStage.SyncWindow | packages/modules/indexing-pipeline/src/application/core-dogecoin-indexer-service.ts:428-441 | A backfill window does that from right above the tail, which never goes back |
| RawSync.SyncStage.RefreshOnline | packages/modules/indexing-pipeline/src/application/core-dogecoin-indexer-service.ts:1366-1381 | The online refresh does that for just the heights above the tail or within the reprocess depth; the tail goes back only when it succeeds for an end below it |
| Stages.StageMachine.constructor | packages/modules/indexing-pipeline/src/application/core-dogecoin-indexer-service.ts:322-351 | Starts from any ordered tails |
| Stages.StageMachine.RunSync | packages/modules/indexing-pipeline/src/application/core-dogecoin-indexer-service.ts:404-430 | One cycle of the syncing stage: promotes when close enough to the tip, else syncs a window that leads from the old sync tail to the new one; tails stay ordered |
| Stages.StageMachine.RunProcess | packages/modules/indexing-pipeline/src/application/core-dogecoin-indexer-service.ts:564-614 | One cycle of the processing stage: a window from right above the old processed tail to the new one, inside the finalized blocks when it reads from the node there, or a change of stage; tails stay ordered, whatever the row-count and time cut-offs |
| Stages.StageMachine.RunOnline | packages/modules/indexing-pipeline/src/application/core-dogecoin-indexer-service.ts:1348-1414 | One cycle of the online stage: the processed window covers everything above the old tail and the reprocess depth below it and ends at the new tail; raw blocks are refreshed over the reprocess window exactly when the tip has moved |
| Stages.StageMachine.RunCycle | packages/modules/indexing-pipeline/src/application/core-dogecoin-indexer-service.ts:309-320 | Every cycle, in whatever stage, is one of the moves the progress theorem speaks of |
| Stages.StageMachine.RunToRest | packages/modules/indexing-pipeline/src/application/core-dogecoin-indexer-service.ts:285-320 | When syncing stops close enough to the tip, or the tip is low enough, the loop ends online with processed tail, sync tail and tip equal, and every height above the first tails was in some synced and some processed window |
| Stages.StageMachine.GoesBackAndForth | packages/modules/indexing-pipeline/src/application/core-dogecoin-indexer-service.ts:594-614 | Otherwise two cycles lead from a state that exists for all such settings and tips back to it |
| Stages.MoveProgresses | packages/modules/indexing-pipeline/src/application/core-dogecoin-indexer-service.ts:309-320 | Every cycle decreases a measure: sync distance, then process distance, then a stage rank that pays for the edge back from processing to syncing |
| Stages.RestsExactlyWhenSettled | packages/modules/indexing-pipeline/src/application/core-dogecoin-indexer-service.ts:594-614 | For fixed settings and tip, every run from every state comes to rest if and only if the sync-complete distance is at most the online-tip distance or the tip is at most that distance |
| Stages.OnlineWindowFits | packages/modules/indexing-pipeline/src/application/core-dogecoin-indexer-service.ts:1974-2003 | The online window starts at or below the first unprocessed height and above the finalized tail, and is not empty if and only if blocks are left or the depth is positive |
| RawBlockTheorems.BlockDecodes | packages/platform/src/dogecoin-raw-block.ts:86-113 | Decoding the bytes of any block, with merge-mining data exactly when the version bit is set, returns its header fields, own and parent hashes, transactions and sizes |
| RawBlockTheorems.BlockReported | packages/platform/src/dogecoin-raw-block.ts:126-147 | Of the report of a block's bytes: version, time and nonce, the previous hash unless it is all zeros and the merkle root with their bytes reversed, the bits as eight hexadecimal digits, the hash of its own header, and the hash of the parent header exactly when there is merge-mining data |
| RawBlockTheorems.HeaderReported | packages/platform/src/dogecoin-raw-block.ts:126-147 | Of whatever decodes: the report shows each header field read off its place among the first eighty bytes, and a parent exactly when the version's bit is set there |
| RawBlockTheorems.TransactionsReported | packages/platform/src/dogecoin-raw-block.ts:213-266 | Every transaction can be read off the report again: inputs with their outpoints, outputs in order with exact values, id and size of its own bytes |
| RawBlockTheorems.InputViewBack | packages/platform/src/dogecoin-raw-block.ts:237-251 | The reported input determines the input, and is a coinbase exactly when it names no output |
| RawBlockTheorems.TruncatedOrTrailingRejected | packages/platform/src/dogecoin-raw-block.ts:670-680 | Every proper truncation and every extension of a block's bytes is rejected |
| RawBlockTheorems.DecodesExactlyPayloads | packages/platform/src/dogecoin-raw-block.ts:86-113 | Decoding succeeds on exactly the payloads that are one block and nothing more |
| WireProofs.BlockBack | packages/platform/src/dogecoin-raw-block.ts:86-113 | Reading back a written block returns it with the bytes that follow untouched |
| WireProofs.ParentBack | packages/platform/src/dogecoin-raw-block.ts:179-211 | A parent coinbase, legacy or in the extended format of BIP 144 (section "Serialization"), is read back if and only if it is not a legacy transaction with no inputs and exactly one output |
| WireProofs.BlockExtends | packages/platform/src/dogecoin-raw-block.ts:603-681 | A successful read does not depend on what follows |
| WireProofs.OnlyWholeBlocksDecode | packages/platform/src/dogecoin-raw-block.ts:670-680 | One block's bytes decode to it; less or more does not decode |
| WireProofs.CompactBack | packages/platform/src/dogecoin-raw-block.ts:649-663 | Every 32-bit size is read back from its shortest form |
| WireProofs.Int64Back | packages/platform/src/dogecoin-raw-block.ts:640-647 | Every signed 64-bit value is read back |
| RawBlockDecoder.DecodeRawBlock | packages/platform/src/dogecoin-raw-block.ts:86-113 | The reader loop computes exactly the decoding specification, failures included |
| RawBlockDecoder.ReadBlockHeader | packages/platform/src/dogecoin-raw-block.ts:126-147 | Reads the header the specification reads and stops after it |
| RawBlockDecoder.ReadTransactions | packages/platform/src/dogecoin-raw-block.ts:98-109 | Each transaction is named and sized by the bytes it was read from |
| RawBlockDecoder.ByteReader.Read | packages/platform/src/dogecoin-raw-block.ts:608-617 | Returns exactly the next bytes or fails |
| RawBlockDecoder.ByteReader.ReadCompactSize | packages/platform/src/dogecoin-raw-block.ts:649-663 | Agrees with the size specification on every input, eight-byte sizes refused |
| RawBlockDecoder.ByteReader.ReadInt64LE | packages/platform/src/dogecoin-raw-block.ts:643-647 | Agrees with the two's-complement specification |
| RawBlockDecoder.ByteReader.ReadInputs | packages/platform/src/dogecoin-raw-block.ts:228-247 | Reads the announced number of inputs or fails |
| RawBlockDecoder.ByteReader.ReadOutputs | packages/platform/src/dogecoin-raw-block.ts:253-266 | Reads the announced number of outputs or fails |
| RawBlockDecoder.ByteReader.ReadWholeTransaction | packages/platform/src/dogecoin-raw-block.ts:213-226 | Reads one transaction and stops after it |
| RawBlockDecoder.ByteReader.SkipTransaction | packages/platform/src/dogecoin-raw-block.ts:179-211 | Ends exactly where reading the parent coinbase field by field would, and fails exactly when that would |
| RawBlockDecoder.ByteReader.SkipHashVector | packages/platform/src/dogecoin-raw-block.ts:168-171 | One jump ends where reading the hashes one by one would |
| RawBlockDecoder.ByteReader.ReadAuxPowHeader | packages/platform/src/dogecoin-raw-block.ts:157-166 | Skips the merge-mining data to its end and returns the parent header |
| RawBlockDecoder.HashesAtOnce | packages/platform/src/dogecoin-raw-block.ts:168-171 | Skipping hashes together ends where reading them one by one does |
| Base58.DecodesBack | packages/platform/src/dogecoin-raw-block.ts:567-586 | Base58 encoding has a left inverse on all byte strings, leading zeros included |
| Base58.EncodeBase58 | packages/platform/src/dogecoin-raw-block.ts:567-586 | The loops compute one symbol for each leading zero and the minimal base-58 form of the value |
| Base58.SymbolsOfValue | packages/platform/src/dogecoin-raw-block.ts:578-583 | Repeated division gives the minimal digits, most significant first |
| Amounts.KoinuRoundTrip | packages/platform/src/dogecoin-raw-block.ts:295-301 | Reading back a formatted amount, which has eight decimals, gives the decimal form of the integer, for every integer |
| Amounts.DecimalUnitsExact | packages/modules/indexing-pipeline/src/domain/amounts.ts:93-137 | Accepted amounts come out as the exact integer with their sign (so a negative zero keeps it); anything malformed or with digits that would be lost is refused |
| Amounts.AmountExact | packages/modules/indexing-pipeline/src/domain/amounts.ts:93-137 | An amount is accepted exactly when it is a whole number of units of so many decimals, and then that number with its sign is the result |
| Amounts.ParsesExactly | packages/modules/indexing-pipeline/src/domain/amounts.ts:104-112 | Exactly an optional minus, digits, and optionally a point and more digits are read, into just these parts |
| Amounts.StrippedText | packages/modules/indexing-pipeline/src/domain/amounts.ts:128-137 | Dropping leading zeros keeps the number and leaves at least one digit |

## Left out

- Transaction references: written by raw sync and deleted by rewinds; not part of the canonical state.
- The second balances table for analytics and the by-address output table: the same rows written again.
- Rows are values: applications are rebuilt from snapshots for every window, so aliasing between a row and its source is not modelled.
- Asset addresses: always the empty string for the native coin, so they are dropped from keys.
- Movement ids and processed-block identities are datatypes; that their string forms do not collide is not modelled.
- SHA-256 and RIPEMD-160: one opaque hash function; the Base58Check checksum on top of `Base58.EncodeBase58` is left out with them.
- Script classification, push parsing and address matching in decoded outputs: single-branch matching on opcodes; the script bytes themselves are kept.
- Hexadecimal parsing of the raw block payload and the height copied into the result: the decoder starts from bytes.
- Amounts.DecimalUnitsExact: starts from the text after trimming; number inputs go through floating-point formatting, which is not modelled.
- Block snapshots to applications: field validation and key building of the application builder; the proofs start from its blocks.
- Fill deadlines, backoff, throughput smoothing, watchdog and statement timeouts: free choices of the model.
- The option to validate prevouts before inserting: it only adds an earlier failure on chains that are not valid.
- Debits of older outputs while current state is off: deliberately absent in the code, so the backfill mode promises of movements and facts what `AppliedLogs.MovementsSound` and `AppliedLogs.FactsSound` say.
- RecoveryProofs.RecoveredIsExact: assumes that the warehouse keeps what it has acknowledged and that planned windows keep their start (`Recovery.TipHolds`).
- RecoveryProofs.CrashIsRecoverable: two stores losing data in the same crash, and a deposed leader that still inserts, are not covered; the repair of missing current rows is not a step, since right current rows never need it (`RecoveryProofs.ReadsNeverFail`) and nothing is claimed of them after the one error that can make them wrong.
- Lease.AtMostOneFreshLeader: a stored value of an older form counts as no lease.
- CoreWarehouse.Warehouse.MaterializeUntilDone: starts without a checkpoint for the same height left over from before these attempts; rows that land late are those of key-range statements, while balance and applied-block statements end with the attempt that sent them.
- RawSync.RawBlockSyncer.SyncRound: attempts are atomic, and batches still running when a round has given up are not followed further; each only adds stored heights.
- WarehouseRuns.Run: attempts to materialize are one command for each height and are not given for a height again, so a checkpoint that an earlier command left for the same height is outside these runs.
- Prefetcher.ReadWindow: for a consumer that awaits consecutive heights; other consumers keep everything but the concurrency bound.
- Stages.StageMachine.RunToRest: the tip is fixed and nothing fails; materialization between the stages always succeeds.
- Error texts, logging and metrics.
- HTTP applications, explorer and analytics services, mempool detection, migrations and access control.
