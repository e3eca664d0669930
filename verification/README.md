# Eksportisto, modelled in Dafny

Eksportisto is a work queue over Redis that has to index every Celo block at least once. This
project models its protocol, the pipeline that processes one block, the construction and the
identifiers of rows, and a few smaller algorithms, and proves what they guarantee. All
claims are theorems about the model.

## What is modelled

- **`Pipeline`, `PipelineProgress`, `PipelineSuccess`**: one attempt at a block, that is `Run`
  with its spawner, any number of row producers, the 1000-slot row channel, the 100-slot
  processor channel, the collector and the two sources of cancellation, as a transition system
  with one step per goroutine action.
- **`Protocol`**: the whole service as one transition system with one event per Redis command
  or goroutine step. Any number of backfill publishers, workers (each running attempts of
  `Pipeline`, with retries), chain-tip and manual publishers interleave. Any process may stop
  and start again between any two of its events, which covers failed commands, lost replies
  and crashes. `Protocol.Do` is the transition function. What all its runs satisfy:
  `ProtocolSafety`, `ProtocolQueue`, `ProtocolSweep` and `ProtocolBatch` (what a batch covers),
  `ProtocolCursor`, `ProtocolLiveness` (rounds finish the backfill), `ProtocolWaiting` and
  `ProtocolDrain` (how long a block waits, and that workers get somewhere), `ProtocolRetries`
  (how many attempts a block gets), `ProtocolRounds`
  (the backfill finishes if no block fails), `ProtocolStall` and `Reindex`. Which runs exist:
  `ProtocolRuns` (the steps they are made of), `ProtocolStarvation` (a block waits for ever),
  `ProtocolCycles` (the backfill can always be completed), `ReindexStale` (when forcing a
  re-index has no effect) and `ProtocolExamples` and `ProtocolTightness` (what can happen to
  cursors and to the queue).
- **`BlockIndex`, `Rdb`, `Backfill`, `Manual`, `WorkerLoop`**: the same code as sequential
  classes with the original loops and fields, each method proved against a specification
  function. Any Redis command may fail; a ghost counter records it, so that the contracts say
  that a method gives up for no other reason. `BlockIndex.CursorAfter` and
  `Backfill.RoundBlocks` are the link: the protocol's cursor event is defined by the first,
  and `ProtocolSweep.SweepRefinesRound` proves that the interleaved search enqueues the second
  whenever the index stands still.
- **`Rows`, `RowIds`, `RowContents`, `Processors`**: rows as shared mutable objects, the
  chain-data and SortedOracles processors, what their rows hold, key by key, and the identifiers
  they assign. None of the
  processor methods has a `modifies` clause, so Dafny proves of each that it leaves every
  existing row, the shared block row included, as it was.
- **`Decimal`, `Sampling`, `Monitor`, `OracleDeviation`**: decimal texts used as keys, the
  sampling predicates, the monitor's one-slot hand-off, and the oracle deviation metric.

## Assumptions

- Each Redis command, and the Lua script, is atomic. A command issued with a context that is
  done has no effect.
- Block numbers are at most 2^53, where Lua numbers and sorted-set scores are exact, so that a
  score orders blocks as their numbers do. Sums at window ends do not exceed the uint64 range;
  the one subtraction that can wrap, `latest - tipBuffer`, is modelled with its wrap-around.
- The two tasks of `Run` execute concurrently; the first error of a group cancels its context.
  Retrying stops at the first success or when no attempt is left. Node calls return.
- `NewBlockHandler` succeeds.

## Findings

- **The buffer can wrap.** `latest - tipBuffer` is unsigned. The batch stays tipBuffer blocks
  away from the tip exactly when the chain is at least that long
  (`Backfill.BufferRespectedExactly`).
- **An attempt can hang.** A producer blocked in a channel send watches no context. Stopping
  the worker can leave an attempt hanging exactly when its plan has more than 1000 rows, and it
  can hang without being stopped exactly when more than 100 processors are to be initialized,
  because that channel is drained only afterwards (`PipelineProgress.HangsExactly`). With at
  most 100 processors and no cancellation every attempt ends.
- **An attempt can return nil with rows unwritten**, if the worker is being stopped: exactly
  when its plan has a row at all and at most 100 processors
  (`PipelineProgress.LosesRowsExactly`). Marking is safe only because the mark then uses a
  context that is done.
- **A good block can starve.** Workers take the highest block, and the publisher begins a round
  whenever fewer than batchSize blocks are queued, without waiting for the others to be taken.
  So a failing block above a good one can be enqueued and popped again and again while the good
  one stays queued, although fewer than batchSize blocks fail. This is possible if and only if
  a failing block lies between the good one and the tip (`ProtocolStarvation.StarvationExactly`);
  otherwise the pops before its turn are bounded (`ProtocolWaiting.PopsAreBounded`). Newer
  blocks of a chain-tip publisher can keep it waiting in any case
  (`ProtocolStarvation.NewerBlocksStarve`). If blocks fail, the completion of the backfill is
  therefore stated for rounds whose blocks leave the queue, and such rounds can always be had
  (`ProtocolCycles.CyclesRun`); if none fails and nobody else enqueues, rounds complete it
  without that assumption (`ProtocolRounds.RoundsFinish`).
- **The persisted cursor is monotone for one publisher only.** It can move back exactly when
  there are at least two publishers, a batch size above 0, and a worker that collects data
  (`ProtocolExamples.CursorMovesBackExactly`); what lies below it has been marked all the same.
- **Forcing a re-index has two limits.** First, an attempt in flight at the un-marking can mark
  its block afterwards, and then the entry enqueued for the block is skipped
  (`ReindexStale.NewEntryIsSkipped`). A stale mark is possible if and only if data is collected
  and a worker that is not being stopped is about to mark the block, or is processing it with
  another attempt left or with the current one still on course to succeed
  (`ReindexStale.StaleMarkExactly`). Second, the cursor does not move back: a completed batch
  enqueues an unindexed block that it has room for if and only if the block is at or above the
  cursor (`ProtocolBatch.RetriedExactly`), so that a block un-marked below it is never retried
  by a single backfill publisher (`Reindex.LeftBehindForever`); every fresh service that can
  leave such a block behind at all has a run that does (`ProtocolExamples.GapIsReached`).
- **Blocks below the cursor can be unindexed**, where the repository's own description says that
  all blocks between the start block and the cursor are marked (`readme.md:79`). This can happen
  if and only if there are a publisher with a batch size above 0, a worker that collects data,
  and a manual publisher (`ProtocolExamples.GapBelowCursorExactly`): its forced un-marking is
  what does it. In every run the blocks have been marked at least once
  (`ProtocolSafety.CursorSafety`).
- The same description speaks of two queues and of SQLite; the code has one sorted set and Redis
  only, and the model follows it.

## Model

| member | source | states |
|---|---|---|
| `Pipeline.SuccessWritesEverything` | indexer/handler.go:72-93 | in every interleaving, `Run` returning nil while the worker is not being stopped means that every row sent was written, in order, that no processor failed, and that no step was an error |
| `Pipeline.ErrorsAreReported` | indexer/handler.go:56-93 | in every interleaving, once both tasks have returned, `Run` returns nil if and only if the block was loaded, no factory failed, no processor returned an error, and the write succeeded: no error is lost |
| `Pipeline.WrittenOnce` | indexer/handler.go:74-93 | there is one write in a run, with what the collector had received by then; of this the output keeps what it accepted, even if it reports an error |
| `Pipeline.SendsInOrder` | indexer/handler.go:120-153 | what is sent is the producers' rows as their sends complete, each producer's in the order of its plan and none missing: until it returns, what it has sent and what it has still to send is its plan |
| `Pipeline.LeavingEarlyIsHarmless` | indexer/handler.go:83-91 | the collector stops before the channel is closed and drained only if `Run` is bound to fail or the worker is being stopped |
| `Pipeline.CollectorOutlivesProducers` | indexer/handler.go:120-153 | while producers may send and the worker is not being stopped, the collector keeps receiving, whatever processors failed |
| `Pipeline.WrittenIsPrefix` | indexer/handler.go:74-91 | in all cases what was written is a prefix of what was sent |
| `PipelineProgress.RunsAreBounded` | indexer/handler.go:56-153 | no schedule lets an attempt run forever: its length is bounded by a measure of its initial state |
| `PipelineProgress.AttemptAlwaysEnds` | indexer/handler.go:61-93 | without cancellation and with at most 100 processors, an attempt that cannot take a step has ended, for any number of rows, also when initialization failed and the channel is never closed |
| `PipelineProgress.StuckExactly` | indexer/handler.go:78-86 | the only two states in which an unfinished attempt cannot go on |
| `PipelineProgress.HangsExactly` | indexer/handler.go:62-86 | an attempt can hang if and only if its plan has more than 1000 rows or 100 processors; without cancellation, if and only if more than 100 processors |
| `PipelineProgress.LosesRowsExactly` | indexer/handler.go:83-93 | `Run` can return nil with a sent row unwritten, in a worker that is being stopped, if and only if the plan has a row and at most 100 processors |
| `ProtocolSafety.MarkedMeansWritten` | indexer/worker.go:117-139 | for every indexed block there is an event at which a worker marked it, with an attempt that succeeded and all of whose rows are in the output |
| `ProtocolSafety.CursorSafety` | publisher/backfill.go:61-81 | every block from the start block to any cursor, in memory or persisted, has been marked, and still is unless it was un-marked; any number of publishers, workers and crashes |
| `ProtocolSafety.UnindexedStaysAhead` | publisher/backfill.go:67-73 | no cursor passes a block that is not indexed |
| `ProtocolSafety.ViewsAgree` | rdb/rdb.go:33-51 | the bulk view by presence equals the point lookup by truth, for every block of the inclusive window, in every reachable state |
| `ProtocolSafety.SavedCursorNeverDecreases` | publisher/backfill.go:38-43 | with a single publisher the persisted cursor never decreases, across restarts |
| `ProtocolExamples.CursorMovesBackExactly` | publisher/backfill.go:61-81 | for every configuration and every fresh service, some run persists a cursor and later a smaller one if and only if there are two publishers, a worker, batches and data collection |
| `ProtocolExamples.GapBelowCursorExactly` | readme.md:79 | for every configuration and every fresh service, some run leaves a block unindexed between the start block and a cursor if and only if there are a publisher with batches, a worker that marks, and a manual publisher |
| `ProtocolExamples.GapIsReached` | publisher/manual.go:76-84 | in each such service the start block can end up un-marked below a cursor and in no queue, which a single publisher will never retry |
| `ProtocolRuns.OneBlockIndexed` | indexer/worker.go:93-141 | from any state with an idle worker the highest queued unindexed block can get indexed, by an attempt with any plan of at most 100 processors, with exactly the rows of the plan added to the output |
| `ProtocolQueue.QueueBounded` | publisher/backfill.go:127-142 | with one backfill publisher as sole producer the queue never exceeds 2 * batchSize - 1 blocks, mid-batch included |
| `ProtocolTightness.QueueBoundReached` | publisher/backfill.go:127-142 | for every batch size there is a run in which the queue holds that many |
| `ProtocolSweep.EnqueuedIffUnindexedAtRead` | publisher/backfill.go:102-115 | with marking going on, the inner loop enqueues a block exactly if it was not indexed at the window read |
| `ProtocolSweep.SweepCovers` | publisher/backfill.go:96-116 | a completed batch has enqueued, or found marked, every block below the tip that had fewer than batchSize unindexed blocks before it |
| `ProtocolBatch.BatchAddsOnly` | publisher/backfill.go:107-115 | at every moment of a batch during which nothing is un-marked, what it has enqueued are at most batchSize blocks, all unindexed when it began, from the cursor to the buffered tip, whatever was un-marked before |
| `ProtocolSweep.SweepRefinesRound` | publisher/backfill.go:83-125 | if the index stands still, the interleaved search enqueues exactly the blocks of the sequential specification |
| `ProtocolSweep.SearchEnds` | publisher/backfill.go:96-116 | a search takes no more own steps than a bound fixed when it begins, whatever others do in between |
| `ProtocolCursor.RankNeverGrows` | publisher/backfill.go:67-73 | while no re-index is forced, and if none forced earlier has left a block behind a cursor, the number of unindexed blocks between a cursor and a block never grows, whichever cursors are compared, in memory or persisted |
| `ProtocolBatch.NoBlockLost` | publisher/backfill.go:91-116 | a block from the cursor on, with fewer than batchSize unindexed blocks before it, that is still unindexed when a batch completes was enqueued by it, whatever crashed, failed or was un-marked before the batch |
| `ProtocolBatch.RetriedExactly` | publisher/backfill.go:96-116 | of the unindexed blocks that a completed batch had room for, it enqueued exactly those at or above its cursor |
| `ProtocolLiveness.BackfillCompletes` | publisher/backfill.go:127-158 | with fewer than batchSize failing blocks below a tip that does not fall, after enough rounds whose blocks leave the queue the unindexed blocks are exactly the failing ones; each round counts for batchSize less the failing blocks, publishers may begin further batches meanwhile, and anything but forced re-indexing may happen between the rounds |
| `ProtocolLiveness.CyclesFinish` | publisher/backfill.go:127-158 | the same from every reachable state, re-indexing forced earlier included, for all blocks ahead of the cursors, if fewer than batchSize blocks fail or were left behind |
| `ProtocolLiveness.CycleIndexes` | indexer/worker.go:93-144 | one such round indexes every block from the cursor on, of rank below batchSize, that can succeed |
| `ProtocolRounds.RoundsFinish` | publisher/backfill.go:127-158 | from any state, while workers keep running, no block below a tip fails and only backfill publishers enqueue, once there have been more rounds than workers can take steps, with at least one worker step in each round with work left, every block below the tip that no cursor had left behind is indexed; nothing is assumed about the queue |
| `ProtocolCursor.CursorCatchesUp` | publisher/backfill.go:61-81 | as long as the blocks from the start block up to some block stay indexed and the publisher does not restart, its cursor in memory advances 2 * batchSize + 1 with each update until it gets there |
| `ProtocolCursor.SavedCursorCatchesUp` | publisher/backfill.go:38-81 | as long as these blocks stay indexed, the cursor of a single publisher advances as far with each save, for good, however often the publisher restarts |
| `ProtocolDrain.DrainEnds` | indexer/worker.go:93-144 | whatever publishers do, the steps of workers are bounded by the pops, and these by what was queued and what is enqueued meanwhile; until the queue is empty and all are idle, a worker can take a step without relying on an error |
| `ProtocolWaiting.PopsAreBounded` | rdb/rdb.go:57-63 | while a block stays queued and no block between it and the tip fails, the number of pops is bounded, but for higher blocks of chain-tip and manual publishers, one by one |
| `ProtocolWaiting.TicketBound` | rdb/rdb.go:57-63 | that bound is at most the queue's size, and for each block up to the tip one for each worker and publisher and one more |
| `ProtocolWaiting.AllPopsAreBounded` | rdb/rdb.go:57-63 | while workers keep running, no block below the tip fails and only backfill publishers enqueue, there are only so many pops, for ever |
| `ProtocolDrain.QueuedBlockLeaves` | publisher/backfill.go:136-143 | so under the same condition a queued block gets its turn after a bounded number of worker steps, although the publishers go on |
| `ProtocolDrain.HeldBlockLeaves` | indexer/worker.go:99-141 | a popped block is done with after a bounded number of steps of its worker, one of which is always possible |
| `ProtocolRetries.AttemptsAreCounted` | indexer/worker.go:149-172 | in every run, the attempt a worker is at is one more than have ended since it looked the block up, and never beyond the maximum, if that allows a second |
| `ProtocolRetries.GivesUpExactly` | indexer/worker.go:117-139 | in every run, a successful attempt is followed by the mark, and a failed one by giving the block up if and only if it was at least the maxAttempts-th since the lookup |
| `ProtocolStarvation.StarvationExactly` | publisher/backfill.go:136-143 | with fewer than batchSize failing blocks, a queued good block can be passed over for ever if and only if a failing block lies between it and the tip |
| `ProtocolStarvation.NewerBlocksStarve` | publisher/chainTip.go:66-76 | whether blocks fail or not, any number of new headers, ascending and above the block, can be enqueued and popped while it stays queued |
| `ProtocolCycles.CyclesRun` | publisher/backfill.go:127-158 | from every reachable state of a running service, any number of rounds whose blocks leave the queue, one after the other |
| `ProtocolCycles.BackfillCanComplete` | publisher/backfill.go:127-158 | from every reachable state, workers that hang or are being stopped included, the backfill can be completed, if fewer than batchSize blocks fail or were left behind |
| `ProtocolCycles.ServiceRestarts` | publisher/backfill.go:38-43 | from every state all publishers and workers can crash and come back, publishers at the persisted cursor or the start block, with Redis unchanged |
| `ProtocolStall.StallsForever` | readme.md:79 | once the first batchSize unindexed blocks from the lowest cursor on fail forever, every completed batch enqueues exactly those of them below its tip, and no cursor passes any of them, whatever was un-marked before |
| `Reindex.UnmarkedThenEnqueued` | publisher/manual.go:76-92 | in every run, each text that the manual publisher has passed parses, and its block was put in the queue by an event that came after the un-marking of the whole list |
| `Reindex.ReindexOrder` | publisher/manual.go:70-94 | after a forced un-marking, a listed block found marked was marked later, and by an attempt begun later unless one was in flight |
| `Reindex.UnmarkedExactly` | publisher/manual.go:76-84 | the HDEL un-marks the block that a list entry parses to if and only if the entry is a canonical decimal |
| `ReindexStale.StaleMarkExactly` | indexer/worker.go:135-139 | after a forced un-marking, while the manual publisher is at that list, a mark by an attempt begun earlier can be made and stand if and only if data is collected and some worker, not being stopped, is about to mark the block, or is at it with an attempt left or with the current one on course |
| `ReindexStale.NewEntryIsSkipped` | indexer/worker.go:107-115 | in every such case the re-index can fail to take place: the stale mark comes first, then the new queue entry, which a worker pops and skips |
| `Reindex.LeftBehindForever` | publisher/backfill.go:96 | once a single publisher's cursor and search are past a block, it never enqueues it again, even after an un-marking |
| `BlockIndex.FirstUnmarkedMembers` | publisher/backfill.go:107-115 | the selected blocks are the unindexed ones in range with fewer than k unindexed blocks before them |
| `BlockIndex.CursorAfterMeaning` | publisher/backfill.go:61-73 | the moving-bound loop ends at the first unindexed block, or after 2 * batchSize + 1 blocks; with batchSize 0 it leaves the cursor alone |
| `BlockIndex.MaxBlockIs` | publisher/backfill.go:88-91 | the buffered tip is the difference, or 2^64 more than that if the buffer is longer than the chain |
| `Backfill.BackfillPublisher.UpdateCursor` | publisher/backfill.go:61-81 | the loop, proved to terminate and to leave both cursors at `CursorAfter`; on an error Redis keeps its cursor |
| `Backfill.BackfillPublisher.QueueBatch` | publisher/backfill.go:83-125 | the nested windowed loops enqueue exactly the batch, in order; a prefix of it if a command fails, and only then; nothing, and no error, without a header |
| `Backfill.BackfillPublisher.Round` | publisher/backfill.go:129-148 | one turn of the service loop, with backpressure; what it enqueues is the batch, or a prefix of it if a command fails |
| `Backfill.RoundBlocksMeaning` | publisher/backfill.go:83-125 | a round's blocks without the search: unindexed, from the cursor to the tip, of rank below batchSize; how many; in which order |
| `Backfill.BufferRespectedExactly` | publisher/backfill.go:88-91 | the batch stays tipBuffer blocks from the tip if and only if the chain is that long |
| `Rdb.RedisDB.EvalIndexScript` | rdb/rdb.go:17-26 | the script answers for size + 1 blocks |
| `Rdb.RedisDB.GetBlocksBatch` | rdb/rdb.go:33-51 | the map says of every block of the inclusive window whether it has a field |
| `Rdb.RedisDB.PopBlock` | rdb/rdb.go:57-63 | removes the highest block, or reports an empty queue |
| `Manual.ManualPublisher.GetBlocks` | publisher/manual.go:96-112 | the array loop builds the epoch list |
| `Manual.ManualPublisher.Start` | publisher/manual.go:70-94 | un-marks the whole list before enqueueing anything, then enqueues in order up to the first entry that does not parse; gives up for no reason but that, a missing height or a failed command |
| `Manual.EpochListIsSampled` | publisher/manual.go:104-110 | read as numbers, the epoch list is, ascending, exactly the positive multiples of 17280 up to the height, which are the blocks that epoch processors sample |
| `Sampling.ReserveCollectsHourly` | indexer/proc_reserve.go:44-48 | the reserve processor's two-way test holds exactly for every 720th block, once an hour |
| `WorkerLoop.Worker.IndexBlockWithRetry` | indexer/worker.go:149-172 | one attempt, and further ones up to retryAttempts until the first success: it fails only after all of them, and succeeds if and only if one of them does |
| `WorkerLoop.Worker.Step` | indexer/worker.go:93-143 | one turn: when all its commands succeed, the popped block is marked exactly if it was not indexed, one of the allowed attempts succeeded and data is collected; nothing else is ever marked, and the worker leaves its loop only when it is being stopped, before it pops, or after a failed command |
| `Decimal.ParseAfterShow` | rdb/rdb.go:57-63 | printing and then parsing is the identity on every uint64 |
| `Decimal.ShowDigits` | indexer/worker.go:107 | the printed text: a single digit is its own character, and any other number is the text of its tenth followed by its last digit |
| `Decimal.ParsesExactly` | publisher/manual.go:83-87 | the texts that parse are exactly the printed texts of all uint64 after any number of zeros, and to that number |
| `Decimal.ShowAfterParse` | publisher/manual.go:83-84 | parsing and then printing is the identity exactly on canonical texts |
| `Decimal.DottedInjective` | indexer/row.go:67-80 | dotted identifiers with dot-free parts are equal only if all parts are |
| `Rows.Row.Extend` | indexer/row.go:28-46 | a new row with the overlaid values; the extended row is untouched |
| `Rows.LowerFirstIs` | indexer/row.go:34-37 | the key a value is stored under: a capital first letter becomes the small one, and nothing else changes |
| `Rows.Row.ViewCall` | indexer/row.go:67-70 | a new row with the method and the type set first and the arguments on top, identified by the receiver's identifier, or the digest of its values if it has none, and the method |
| `Rows.Row.Contract` | indexer/row.go:73-76 | a new row with the contract set first and the arguments on top, identified by the receiver's identifier, or the digest of its values if it has none, and the contract |
| `Rows.Row.AppendID` | indexer/row.go:78-80 | changes the receiver: its identifier, or the digest of its values if it had none, and the suffix |
| `Rows.OverlayAppend` | indexer/row.go:28-46 | extending twice equals extending once with both lists |
| `Rows.OverlaySame` | indexer/row.go:28-46 | extending two rows that agree but for one key with the same arguments keeps that agreement |
| `Rows.LastArgumentWins` | indexer/row.go:33-41 | a key, spelt with a small first letter, holds the value of the last argument whose key agrees but for that letter |
| `Rows.OtherKeysKept` | indexer/row.go:30-32 | all other keys keep what the extended row held |
| `RowIds.ChainRowIdsDistinct` | indexer/proc_chaindata.go:65-128 | transaction, event and transfer rows of one block have pairwise distinct identifiers |
| `RowIds.AnyOrderDistinct` | indexer/proc_chaindata.go:51-63 | so have they, as joined texts, in whatever order the rows of concurrent transactions arrive |
| `RowIds.ShuffleExactly` | indexer/proc_chaindata.go:51-63 | the interleavings that concurrent senders can produce are exactly the sequences in which the rows of each keep their order |
| `RowIds.WovenKeepsOrder` | indexer/proc_chaindata.go:51-63 | so the rows of each transaction arrive in their own order, whatever the others do |
| `RowContents.ChainRowsInOrder` | indexer/proc_chaindata.go:65-97 | which rows a transaction has, and at which place: its own, one for each log that was parsed and encoded, and with debugging one for each internal transfer; none without a receipt |
| `RowContents.TransactionRow` | indexer/proc_chaindata.go:73-80 | all values and the identifier of a transaction row |
| `RowContents.TransferRow` | indexer/proc_chaindata.go:118-126 | all values and the identifier of a transfer row |
| `RowContents.EventValues` | indexer/helpers.go:58-87 | all values an event row starts from: the position of the log and, if it could be marshalled, the raw event with its first four topics |
| `RowContents.EventRow` | indexer/helpers.go:89-106 | the identifier of an event row, and its values on top of those: contract, event and the decoded arguments |
| `RowIds.OracleRowIdsDistinct` | indexer/proc_sortedOracles.go:91-187 | all SortedOracles identifiers are distinct, within a token, between tokens and between block rows |
| `RowIds.OracleRowIdsDistinctAcrossBlocks` | indexer/proc_sortedOracles.go:97-101 | loaded blocks with different numbers share no SortedOracles identifier |
| `RowContents.OracleRowsInOrder` | indexer/proc_sortedOracles.go:103-140 | the rows of one token: one for each of four calls and then those of the lists, in order, up to the first call that fails |
| `RowContents.ListRowsInOrder` | indexer/proc_sortedOracles.go:142-187 | one row for each rate, then for each timestamp, then one for the buckets, up to the first call that fails |
| `RowContents.CallRow` | indexer/proc_sortedOracles.go:97-140 | the identifier of a call's row, and its values under the call's own arguments |
| `RowContents.CallArguments` | indexer/proc_sortedOracles.go:109-140 | these arguments, key by key, for each of the four calls |
| `RowContents.EntryRow` | indexer/proc_sortedOracles.go:148-171 | all values and the identifier of the row of a rate or a timestamp |
| `RowContents.BucketRow` | indexer/proc_sortedOracles.go:180-184 | all values and the identifier of the bucket row |
| `Processors.NewBlockRow` | indexer/handler.go:108-113 | all values and the identifier of the block row |
| `Processors.ExtractEvent` | indexer/helpers.go:50-108 | at most one row per log, identified by hash and position; however often it is rebuilt, it holds one overlay of all arguments on the block's values |
| `Processors.CollectChainData` | indexer/proc_chaindata.go:51-97 | the values and identifiers of all rows of a block's chain data, up to a node error in each transaction, the rows of concurrent transactions interleaved in any order, and whether the node answered everything; existing rows are untouched |
| `Processors.CollectOracles` | indexer/proc_sortedOracles.go:91-187 | the values and identifiers of all rows of one token, up to the first node error, and that there is none only if all seven calls are answered; existing rows are untouched |
| `Processors.ChainDataTwice` | indexer/worker.go:149-172 | two attempts at a block, each with an order of its own, give the same rows, paired one for one: equal identifiers, and values that differ in the time of indexing only; the block's own row has no explicit identifier, and its hashed values differ |
| `Processors.OraclesTwice` | indexer/worker.go:149-172 | two attempts at a block give the same SortedOracles rows: equal identifiers, and values that differ in the time of indexing only |
| `Monitor.HandOff` | monitor/monitor.go:56-82 | processed, current and slot content together are exactly the headers that found the slot empty |
| `Monitor.HandOffIsSubsequence` | monitor/monitor.go:56-82 | what is handed over is a subsequence of what was received |
| `Monitor.GaugeIncreases` | monitor/monitor.go:75-101 | with increasing headers the last-processed gauge only increases |
| `Monitor.GaugeIsFinished` | monitor/monitor.go:91-100 | the last-processed gauge is set to exactly the blocks whose processing succeeded, in order |
| `OracleDeviation.MeanFromFixed` | utils/utils.go:30-40 | the loop computes the mean; 0 for no reports |
| `OracleDeviation.MaxDeviation` | indexer/proc_sortedOracles.go:240-248 | the loop computes the greatest relative deviation from the mean |
| `OracleDeviation.MaxDeviationMeaning` | indexer/proc_sortedOracles.go:240-248 | in whole numbers: for n reports with a positive total, m is the metric if and only if m * total is the greatest difference between n times a report and the total |
| `OracleDeviation.MaxDeviationOfZeros` | indexer/proc_sortedOracles.go:240-248 | it is 0 if there are no reports, or all are 0 |
| `OracleDeviation.ZeroExactlyWhenEqual` | indexer/proc_sortedOracles.go:240-248 | it is 0 if and only if all reports are equal |
| `OracleDeviation.DeviationBounded` | indexer/proc_sortedOracles.go:240-248 | it is at most max(1, n - 1) for n reports |
| `OracleDeviation.ScaleInvariant` | indexer/proc_sortedOracles.go:240-248 | it does not change when all reports are multiplied by a positive factor, whole or fractional |

## Left out

- Redis, BigQuery, node and contract calls: atomic steps or given answers. The contract processors other than chain data and SortedOracles are producers of arbitrary rows in `Pipeline`.
- An error that the program swallows, in a processor or in `loadBlock` when it mentions "cannot unmarshal" (`indexer/handler.go:100-102`), counts as a success, as it does there; what processors do without a block is not modelled.
- The hash in `getID` is an arbitrary function of the values; nothing is claimed about collisions, and rows extended without an explicit identifier get no distinctness claim.
- Lists of unequal length in one answer of SortedOracles, on which the program panics; texts and numbers stand for all kinds of values.
- Epoch log rows (`indexer/proc_epochLogs.go`) are not built; they use the event identifier with the block hash in place of a transaction hash.
- Rounding of `big.Float` and `float64`: the deviation metric is exact, and the node's fixed-point unit is any positive number.
- Pool sizes of the error groups, and tasks that a group skips after an error: a producer that is skipped is one that sends nothing.
- The retry library's own cap on attempts, and the panic in the retry path when no handler could be made.
- The unsynchronized writes to `eventHandlers` while processors are initialized.
- Lower-casing of first letters outside ASCII, and `Extend` with an odd number of arguments or an empty key, which panic.
- Fairness of schedulers: that something happens is said as a bound on the steps before it and a step that is enabled until then.
- Command line, configuration, HTTP server, Prometheus registration, timing, sleeping and logging; an empty HDEL, which Redis rejects.
