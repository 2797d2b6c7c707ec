# Verified models of a sharded key-value store and its log engine

The repository is a distributed key-value store written in Rust. Each replica keeps the Raft
logs of many groups in one embedded log engine. This project models that engine and a few
other stateful parts, and proves what they are meant to guarantee.

The engine keeps, for every raft group ("region"), an index from log index to the place of the
entry in a file, and a small key-value map. Files belong to two queues. Writers append to the
append queue. A background purge copies what is still live from old append files to the rewrite
queue, from time to time rewrites ("squeezes") the rewrite queue itself, and deletes files. On
restart the index is rebuilt from the files of both queues.

## How the project is built

| file | what it is about |
|---|---|
| `PipeLog.dfy`, `Tables.dfy` | queues, locations; one region's table as a value, with what each operation does to it |
| `GlobalStats.dfy`, `MemTable.dfy`, `StatsRun.dfy` | the table and the shared counters as the code updates them, and whole runs of them |
| `RewritePass.dfy`, `RewriteView.dfy`, `RewriteReach.dfy`, `RewriteRuns.dfy` | one region while batches are written, applied later and rewritten in the background, all interleaved: the state machine, what readers see, what a pass gets done, whole runs |
| `RecordLog.dfy`, `RecordCuts.dfy`, `OpLog.dfy` | one region's records of one queue, entries alone and with key-value pairs, replayed in order or in pieces |
| `CrashRecovery.dfy`, `CrashSteps.dfy`, `CrashRestart.dfy`, `CrashEntries.dfy` | the entries of a region on disk and in memory: purging, a restart at any moment |
| `CrashRegion.dfy`, `CrashKeys.dfy`, `CrashReopen.dfy`, `CrashRuns.dfy`, `CrashCold.dfy`, `CrashRules.dfy` | the whole region, entries and keys: the state machine over the one above, what every step keeps, a restart, runs with any number of restarts, regions that move to the rewrite queue, the rules that make restarts safe |
| `ReplayMerge.dfy`, `LiveHistory.dfy`, `AtomicGroups.dfy`, `RecoverContext.dfy` | recovery in pieces that are merged, and what the recovered tables say of a history |
| `RewriteEmit.dfy`, `TornGroups.dfy` | how a squeeze writes atomic groups, and a crash in the middle of one |
| `PurgeProtocol.dfy`, `PurgeRounds.dfy` | writers and the purge side by side; which regions a purge picks |
| `WriteBarrier.dfy` | group commit |
| `Codec.dfy`, `LogItems.dfy`, `LogGrammar.dfy`, `LogBatch.dfy` | integers, log items and log batches as bytes, and which bytes are accepted |
| `Consistency.dfy` | the scan for holes in a queue |
| `SwapAllocator.dfy` | the allocator with a memory budget |
| `Unstable.dfy` | the part of a raft log that is not yet stored |
| `TxnTable.dfy`, `GroupClient.dfy` | transaction records, and the retry loop of the client |

Code that changes state is a class or a method with loops. It is proved against a function on
values, and the properties are lemmas about these functions. Protocols are state machines over
steps: `Enabled` says when a step can happen, `Next` what it does, and the main lemma speaks
about every run. Assertions and panics of the code are preconditions, or outcomes that are
proved impossible. Log files are immutable once written, so the content of a location is a
function that is a parameter of the lemmas; the checksum, the compression, the addresses that
memory gets, the replies of servers and the router are parameters in the same way.

## What turned out to be false

- Rewriting is not invisible. A batch is written inside the write barrier and applied outside it,
  and a gate is bounded by the active file alone, not by the oldest file with an unapplied batch.
  If the batch overwrites what a pass has already fetched, and its file is at or below the gate,
  the pass puts the old entry back without a failed assertion (`RewriteRuns.LateApplyGoesStale`),
  and once the append file is purged a restart has lost the write (`CrashRules.WriteIsLost`).
  Rules for choosing gates that keep rewriting invisible, and that make a restart rebuild what was
  written, are exactly those that stay below the oldest file of the region with an unapplied item
  (`RewriteRuns.InvisibleExactly`, `CrashRules.CrashSafeExactly`). A gate below
  `first_file_not_ready_for_purge`, which the purge reads anyway, is such a rule
  (`PurgeProtocol.CountersBoundFlight`).
- A rewrite that is applied in several chunks can hit the assertion at
  `third/raft-engine/src/memtable.rs:455`, also under such a rule
  (`RewriteRuns.ChunkedRewriteCanPanic`). `RewriteRuns.RewritePanicsExactly` says exactly when: the
  entry in front of the chunk is an appended one. Exactly under the same rules that is a matter of
  appends since the fetch: one started below the chunk, and the table still holds the first index
  of the chunk and the one before it (`RewriteRuns.PanicsExactly`).
- Replaying the rewrite queue in pieces need not give what replaying it in order gives:
  `RecordCuts.HoleBringsBack` is an example, in which a merge brings back entries that were
  dropped at a hole. `RecordCuts.MergeIsReplayExactly` says exactly when two pieces merge well.
  Without compactions there are no holes, and every cutting is fine (`RecordCuts.RecoverIsReplay`).
- A merged recovery context can keep an open atomic group that sequential replay would have
  dropped (`AtomicGroups.StaleGroup`). `AtomicGroups.StaleExactly` says exactly when, for every way
  of cutting and merging, and `AtomicGroups.MergeStaleExactly` for two pieces. It never changes
  what is replayed (`AtomicGroups.RecoverIsReplay`).
- A log batch is read back unchanged exactly when the entries of each item have consecutive
  indexes (`LogBatches.Persist`): only the first index of an item is written.
  `LogBatches.GapIsLost` is a batch that is not.
- `commit_txn` reports success to every client that commits a transaction, also with another
  commit version than the recorded one. `TxnTable.CommitVersionIsFirst` says when the version is
  the client's own; `TxnTable.SecondCommitKeepsFirstVersion` is an example.
- The varint decoder accepts longer encodings than the encoder writes: exactly those whose last
  byte is zero (`Codec.DecodedIsEncoded`), such as two bytes for zero
  (`Codec.LongZeroIsAccepted`).
- A group client that starts without any replica divides by zero
  (`GroupClients.GroupClient.NextAccessNode` says exactly when).

## Model

| member | source | states |
|---|---|---|
| CrashRuns.CrashRecoveryAgrees | third/raft-engine/src/memtable.rs:244-275 | after any run of writes of entries and key-value pairs, applies, rotations by other regions, gated passes, squeezes (finished, unfinished or abandoned), safe purges and earlier restarts, whose gates stay below the oldest file with an unapplied item, a restart with both queues cut and merged in any way fails no assertion and rebuilds exactly what was written, applied or not: every entry, and every key with the value it was put last; with nothing in flight the live table shows the same |
| CrashRules.CrashSafeExactly | third/raft-engine/src/purge.rs:101-131 | the rules for choosing gates under which every restart rebuilds what was written are exactly those that stay below the oldest file with an unapplied item |
| CrashRules.WriteIsLost | third/raft-engine/src/purge.rs:215-231 | for every gate at or above a file with an unapplied overwrite, a run after which that overwrite is on no disk and a restart shows the old entry |
| CrashCold.ColdRegionMoves | third/raft-engine/src/purge.rs:215-231 | from every state without a pass and with nothing in flight, a pass can move every entry and every key of a region to the rewrite queue, values unchanged, and all its append files can be purged; recovery then has the rewrite log alone |
| CrashRules.ColdRegionExists | third/raft-engine/src/purge.rs:313-332 | such a region, with entries and a key, is reached from an empty one |
| CrashReopen.RestartFromAny | third/raft-engine/src/memtable.rs:1400-1418 | in every state of a run a restart rebuilds the same table whatever the cuts, with everything in flight applied, and the restarted region keeps every invariant again, keys and order of files included, so that the run may go on and crash again |
| CrashReopen.FindsKey | third/raft-engine/src/memtable.rs:244-275 | laying the append queue over the rewrite queue finds a key exactly if it was ever put, with the value of its last put, also when that put is purged or not yet applied |
| CrashRuns.RunKeepsInv | third/raft-engine/src/purge.rs:334-444 | every step of writing, applying, rewriting, purging and restarting keeps the relation between the live table, what is in flight, both logs on disk and the written history |
| CrashRegions.StepCommutes | third/raft-engine/src/purge.rs:334-444 | what a step does to the entries of a region is a step of the entries alone, whatever it does to the keys |
| CrashRestart.RestartFromAny | third/raft-engine/src/memtable.rs:205-275 | the entries alone: a restart rebuilds the table with everything in flight applied, and keeps every invariant |
| OpLogs.RecoverSides | third/raft-engine/src/memtable.rs:1400-1418 | entries and pairs of one queue without holes, cut anywhere and merged in any order: no failed assertion, the entries of replaying in order, and every key with its latest value and file |
| OpLogs.KeptKey | third/raft-engine/src/purge.rs:313-332 | dropping files from the front of a queue loses exactly the pairs in them |
| CrashSteps.SafeMinIsSafe | third/raft-engine/src/purge.rs:313-332 | a purge bound no higher than any table's `min_file_seq` is at or below every file an entry of the table is in |
| CrashSteps.FlightIsAccepted | third/raft-engine/src/memtable.rs:382-395 | if callers write batches that continue the written log, applying them later never panics, whatever was rewritten or purged meanwhile |
| RecordCuts.RecoverIsReplay | third/raft-engine/src/memtable.rs:205-238 | records of either queue without holes, cut anywhere and merged in any order, fail no assertion and give the table of replaying them in order |
| RecordCuts.MergeIsReplayExactly | third/raft-engine/src/memtable.rs:205-238 | two pieces of the rewrite queue, holes allowed, merge to what replaying them in order gives exactly if no record of the right one starts behind a hole, or the left one has nothing to put in front |
| RecordCuts.HoleBringsBack | third/raft-engine/src/memtable.rs:205-238 | two pieces whose merge has entries that sequential replay drops |
| RecordLog.KeptLookup | third/raft-engine/src/purge.rs:313-332 | dropping files from the front of a queue loses exactly the locations in them |
| RecordLog.ReplayAppendsIsLookup | third/raft-engine/src/memtable.rs:401-417 | the table replayed from append records answers every index like the latest record that covers it |
| RecordLog.ReplayRewritesIsLookup | third/raft-engine/src/memtable.rs:502-521 | the same for the rewrite queue, with every entry counted as rewritten |
| ReplayMerge.ChunkedReplayIsApply | third/raft-engine/src/memtable.rs:1400-1418 | however a live history of the append queue is cut, and in whatever order the pieces are merged, recovery meets no panic and ends with exactly the tables and Clean tombstones of applying it in order |
| ReplayMerge.RecoverIsReplay | third/raft-engine/src/memtable.rs:1347-1358 | any cutting and bracketing equals one sequential replay, tombstones to pass on included |
| ReplayMerge.MergeIsReplay | third/raft-engine/src/memtable.rs:1015-1025 | two neighbouring stretches replayed apart and merged are the stretch replayed at once |
| ReplayMerge.ReplayIsApply | third/raft-engine/src/memtable.rs:1051-1120 | replaying a live history makes the tables that applying it makes, though replay also accepts overwrites of compacted slots |
| LiveHistories.RecoveredSays | third/raft-engine/src/memtable.rs:1051-1120 | however a live history is cut and merged, the recovered tables say what the history says: a region is there exactly if something was written to it since it was last cleaned, an index has the last entry written to it that was neither overwritten from in front nor compacted, a key has its last put unless it was deleted since, keys kept for internal use count for nothing, and the cleaned regions are listed in order |
| LiveHistories.StepsSay | third/raft-engine/src/memtable.rs:1051-1120 | the same for applying the history in order |
| ReplayMerge.MergeThenItem | third/raft-engine/src/memtable.rs:205-238 | an item replayed in the right context and then merged does what it does after the merge |
| AtomicGroups.GroupsAreAllOrNothing | third/raft-engine/src/memtable.rs:1267-1337 | for the batches of one group id that are left, a stretch of (Begin Middle* End?)* whose front may be purged, cut and merged in any way, no assertion fails, exactly the complete groups are replayed, each once and in order, with all items and tombstones of its batches and the files of the first and the last one, and what stays pending has one of the allowed shapes |
| AtomicGroups.RecoverIsReplay | third/raft-engine/src/memtable.rs:1400-1407 | a merged context has replayed what sequential replay has, and its pending list differs at most by one stale open group |
| AtomicGroups.StaleExactly | third/raft-engine/src/memtable.rs:1400-1407 | exactly when the pending list of a merged context differs from sequential replay, for every way of cutting and merging, told by the markers alone |
| AtomicGroups.MergeStaleExactly | third/raft-engine/src/memtable.rs:1400-1407 | for two pieces: the left one ends inside a group, the right one ends with an End, and the first marker in it that is not a Middle is a Begin |
| AtomicGroups.StaleGroup | third/raft-engine/src/memtable.rs:1400-1407 | two pieces whose merge keeps a group that sequential replay drops |
| AtomicGroups.ReplayIsComplete | third/raft-engine/src/memtable.rs:1359-1396 | sequential replay of any stretch finds exactly the groups that have a Begin and an End, and has the open group as the last pending one |
| AtomicGroups.SpansAre | third/raft-engine/src/memtable.rs:1359-1396 | the complete groups of a stretch are exactly the runs from a Begin over Middles to an End |
| AtomicGroups.AssertionFailsExactly | third/raft-engine/src/memtable.rs:1267-1337 | replay of batches whose markers are in order fails an assertion exactly if a batch that continues a group is in an older file than the one before it |
| AtomicGroups.StreamPending | third/raft-engine/src/memtable.rs:1359-1396 | a stream that has its first Begin leaves nothing pending but the group that is open at its end |
| AtomicGroups.PendingShapes | third/raft-engine/src/memtable.rs:1219-1221 | every context, also one that saw only the middle of the stream, keeps [Begin], [Middle], [End], [End, Begin] or nothing |
| RecoverContexts.RecoverContext.ReplayAppendWrites | third/raft-engine/src/memtable.rs:1091-1120 | the loop over the items of a batch makes the tables and tombstones that the items make one after the other |
| RecoverContexts.RecoverContext.ReplayBatch | third/raft-engine/src/memtable.rs:1347-1358 | a batch is replayed and its tombstones are remembered in order |
| RecoverContexts.RecoverContext.MergeNewerTables | third/raft-engine/src/memtable.rs:1015-1025 | the loop over the neighbour's regions merges each table once, in any order |
| RecoverContexts.RecoverContext.Merge | third/raft-engine/src/memtable.rs:1400-1418 | tombstones of the neighbour are replayed here first, then its tables are merged |
| RecoverContexts.RecoverLiveHistory | third/raft-engine/src/memtable.rs:1346-1418 | the recovered context of a live history holds the tables and the tombstones of the live engine, for every cutting and every order of merging |
| RecoverContexts.PendingGroups.AcceptNewGroup | third/raft-engine/src/memtable.rs:1267-1337 | one more part changes only the pending list of its own id, as the reference state machine says, and a completed group is replayed once |
| RewriteEmit.EmitSqueeze | third/raft-engine/src/purge.rs:334-444 | a squeeze over any regions writes unmarked batches and atomic groups (Begin Middle* End, one marker a batch, one region a group, fresh ids), and every region's data is completely inside one of them and nowhere else; a batch of a group exceeds the size limit by its last entry only, and an unmarked batch by the last region in it only |
| RewriteEmit.EmitRegion | third/raft-engine/src/purge.rs:342-436 | one region is either added whole to the open batch or written as one atomic group; it is split only if its entries exceed the limit, and the open batch is written out early only if the two do not fit together, late only if it is over the limit |
| RewriteEmit.EmitChunk | third/raft-engine/src/purge.rs:372-402 | each chunk of a group is one batch with one marker: Begin for the first, Middle for the others |
| RewriteEmit.CloseGroup | third/raft-engine/src/purge.rs:403-425 | the last chunk carries the key-value pairs and the End marker |
| RewriteEmit.FlushKeeps | third/raft-engine/src/purge.rs:446-484 | writing the open batch out, or skipping it when it is empty, keeps the output a row of unmarked batches and complete groups |
| TornGroups.SqueezeIsAllOrNothing | third/raft-engine/src/purge.rs:340-441 | after a crash at any point of a squeeze, behind whatever is left of older groups with the same id, recovery cut and merged in any way replays a group exactly if all its batches are on disk, and then with all its items and tombstones and the files of its first and last batch |
| TornGroups.TornParts | third/raft-engine/src/log_batch.rs:1073-1107 | the parts of one group found on disk are exactly its first batches, whatever other regions wrote in between |
| TornGroups.CompleteAfter | third/raft-engine/src/memtable.rs:1267-1337 | behind any older batches of the same id, a torn run of batches adds nothing and a complete one adds one group, with the items, tombstones and files of the whole run |
| PurgeProtocol.PurgeIsSafe | third/raft-engine/src/purge.rs:101-131 | in every interleaving of rotations, writes, applies, counter updates and a purge, no assertion fails, and no file that a table reads or that holds a batch not yet applied is deleted |
| PurgeProtocol.PurgeIsComplete | third/raft-engine/src/purge.rs:313-332 | a purge that meets no other thread stops only at a file that somebody needs: the first file it leaves |
| PurgeProtocol.AssertionsHold | third/raft-engine/src/purge.rs:497-556 | in every reachable state, indexing the counters by `seq - front` stays inside the deque, no counter goes below zero, and purging stays inside the existing files |
| PurgeProtocol.StepKeepsInv | third/raft-engine/src/engine.rs:171-233 | counters stay exact and contiguous, and no batch in flight is older than the bound the purger holds |
| PurgeProtocol.CountersBoundFlight | third/raft-engine/src/purge.rs:533-543 | in every reachable state a gate below the active file and below every file with a positive counter is below the file of every batch that is not fully applied |
| PurgeProtocol.PurgeHook.PostNewLogFile | third/raft-engine/src/purge.rs:498-511 | the counters stay consecutive, exactly one more file is counted, and whether something holds a purge back does not change |
| PurgeProtocol.PurgeHook.OnAppendLogFile | third/raft-engine/src/purge.rs:513-521 | the counter of that file, and no other, goes up |
| PurgeProtocol.PurgeHook.PostApplyMemtables | third/raft-engine/src/purge.rs:523-531 | the counter of that file, and no other, goes down |
| PurgeProtocol.PurgeHook.FirstFileNotReadyForPurge | third/raft-engine/src/purge.rs:533-543 | the first file with a counter above zero, or none if all are zero |
| PurgeProtocol.PurgeHook.PostPurge | third/raft-engine/src/purge.rs:545-555 | exactly the counters up to the purged file are dropped |
| PurgeProtocol.RescanMemtables | third/raft-engine/src/purge.rs:313-317 | the bound is the smallest of the barrier and all tables' oldest files |
| PurgeRounds.NoRegionStarves | third/raft-engine/src/purge.rs:233-281 | of any ten successful rounds in which a region stays heavy and has something to rewrite, it is rewritten in exactly one, whatever happened before, and compaction is asked for in all ten |
| PurgeRounds.RoundDecides | third/raft-engine/src/purge.rs:233-281 | what a round does with a region, light or heavy: when it is rewritten, when compaction is asked for, and its counter afterwards |
| PurgeRounds.CounterCycles | third/raft-engine/src/purge.rs:257-267 | while a region stays heavy its counter counts rounds modulo ten |
| PurgeRounds.RewriteOrCompact | third/raft-engine/src/purge.rs:233-281 | the loop picks, asks and counts for each region as the reference functions say, and a failed rewrite leaves the counters as they were |
| WriteBarriers.GroupCommit | third/raft-engine/src/write_barrier.rs:171-226 | in every run groups are consecutive segments of the order of entering, at most one is at work, and a follower returns exactly if the leader of its own group has exited, with an output |
| WriteBarriers.WakeupsAreExact | third/raft-engine/src/write_barrier.rs:211-226 | an exiting leader wakes its own followers and nobody else, and the leader of the next group if somebody has entered |
| WriteBarriers.NeverStuck | third/raft-engine/src/write_barrier.rs:167-227 | as long as somebody is unfinished, some step can be taken |
| WriteBarriers.WriteBarrier.EnterLocked | third/raft-engine/src/write_barrier.rs:171-200 | entering, up to leading a group or falling asleep, is the Enter step |
| WriteBarriers.WriteBarrier.ResumeLeader | third/raft-engine/src/write_barrier.rs:189-206 | a woken leader takes everybody up to the tail |
| WriteBarriers.WriteBarrier.ProcessGroup | third/raft-engine/src/write_barrier.rs:111-127 | walking the links from the first writer to the last reaches every writer of the group and sets its output |
| WriteBarriers.WriteBarrier.LeaderExit | third/raft-engine/src/write_barrier.rs:211-226 | exiting is the Exit step, with the writers on the condition variable it notifies |
| RewriteRuns.InvisibleExactly | third/raft-engine/src/purge.rs:101-131 | the rules for choosing gates under which rewriting is invisible in every run are exactly those that stay below the oldest file with an unapplied item |
| RewriteRuns.RewritingIsInvisible | third/raft-engine/src/memtable.rs:428-496 | under such a rule, after any run of writes, later applies, overwrites, compactions, key changes, rotations and rewrite passes without a failed assertion, every index and key reads its latest content and nothing else exists |
| RewriteRuns.LateApplyGoesStale | third/raft-engine/src/memtable.rs:461-478 | for every gate at or above a file with an unapplied overwrite, a run in which the old entry replaces the new one and no assertion fails |
| RewriteRuns.NewerAppendsStay | third/raft-engine/src/memtable.rs:461-489 | in every run a chunk never replaces an append newer than its gate; under such a rule what it moves keeps its content |
| RewriteRuns.RewritePanicsExactly | third/raft-engine/src/memtable.rs:447-460 | in every run, exactly when applying a chunk trips an assertion: the entry in front of it is an appended one, which takes an append since the fetch that started below it |
| RewriteRuns.PanicsExactly | third/raft-engine/src/memtable.rs:447-460 | the rules under which the panics of a pass are exactly the chunks behind an append since the fetch are those that stay below the oldest file with an unapplied item |
| RewriteRuns.ChunkedRewriteCanPanic | third/raft-engine/src/memtable.rs:450-456 | a run that reaches the failing assertion with nothing in flight at the fetch |
| RewriteRuns.GatedPassFrees | third/raft-engine/src/memtable.rs:334-354 | under such a rule, when a gated pass can end, no entry and no key of the region is left in an append file at or below the gate, and the oldest file that is reported is newer than it |
| RewriteRuns.SqueezeFrees | third/raft-engine/src/memtable.rs:334-354 | when a squeeze can end, every rewritten entry and key is in the files it has begun, and the oldest rewrite file that is reported is one of them |
| RewriteRuns.KeyAssertionHolds | third/raft-engine/src/memtable.rs:348-351 | in every run the file of a rewritten key is not newer than the one it moves to |
| RewriteRuns.MinFileSeqBoundsRun | third/raft-engine/src/memtable.rs:727-759 | in every run the fronts of both parts bound all files in use, the atomic group included; for the rewrite queue whenever no squeeze is under way or abandoned |
| RewriteRuns.RunKeepsShape | third/raft-engine/src/memtable.rs:806-823 | every run, late applies included, keeps rewritten entries in front, appended ones behind and sorted by file, and the rewritten ones sorted by file whenever no squeeze is under way or abandoned |
| Tables.AppendedGet | third/raft-engine/src/memtable.rs:382-417 | an accepted batch replaces everything from its first index on and nothing before it |
| Tables.PrepareAppendGet | third/raft-engine/src/memtable.rs:589-619 | what stays in front of the first new index |
| Tables.CompactGet | third/raft-engine/src/memtable.rs:525-545 | compaction forgets exactly the indexes below its target |
| Tables.RewrittenMoves | third/raft-engine/src/memtable.rs:428-496 | a rewrite keeps the two parts apart, only pushes their boundary forward, and stops at the first entry it must not replace |
| Tables.MergeGet | third/raft-engine/src/memtable.rs:205-238 | from the right table's first index on only the right table counts |
| Tables.FetchedFromIsRun | third/raft-engine/src/memtable.rs:676-693 | a gated fetch is a run of entries from the boundary on that stops only at the end or at a newer entry |
| Tables.MinFileSeqIsLowerBound | third/raft-engine/src/memtable.rs:727-759 | with sorted parts nothing in use is older than the answer, and no answer means nothing is in use |
| Tables.MinFileSeqIsMin | third/raft-engine/src/memtable.rs:727-759 | with sorted parts the answer is exact: the smallest file in use, or the start of the atomic group if that is smaller and the group is not behind it |
| MemTables.MemTable.UnsafeTruncateBack | third/raft-engine/src/memtable.rs:556-576 | entries from an index on are dropped, and the counters move by exactly that share |
| MemTables.MemTable.PrepareAppend | third/raft-engine/src/memtable.rs:589-619 | the table is made ready for an append at an index, as the specification says |
| MemTables.MemTable.Append | third/raft-engine/src/memtable.rs:382-395 | the new table is the specified one, and the counters move by exactly its change of share |
| MemTables.MemTable.ReplayAppend | third/raft-engine/src/memtable.rs:401-417 | the same for replay, which accepts overwrites of compacted slots |
| MemTables.MemTable.ReplayRewrite | third/raft-engine/src/memtable.rs:502-521 | the same for the rewrite queue |
| MemTables.MemTable.CompactTo | third/raft-engine/src/memtable.rs:525-545 | the specified table, the number of removed entries, and conserved counters |
| MemTables.MemTable.Rewrite | third/raft-engine/src/memtable.rs:428-496 | the in-place loop ends with the specified table and conserved counters |
| MemTables.ReplaceLocations | third/raft-engine/src/memtable.rs:461-489 | the loop replaces exactly the entries up to the first one it must not touch |
| MemTables.MemTable.Put | third/raft-engine/src/memtable.rs:322-327 | the key gets the value and the file, and the counters move by the change of share |
| MemTables.MemTable.Delete | third/raft-engine/src/memtable.rs:314-318 | the key goes, and the counters move by the change of share |
| MemTables.MemTable.RewriteKey | third/raft-engine/src/memtable.rs:334-354 | the file of the key changes only if it is rewritten or not newer than the gate |
| MemTables.MemTable.GetEntry | third/raft-engine/src/memtable.rs:357-369 | the location of an index, or none |
| MemTables.MemTable.FetchEntriesTo | third/raft-engine/src/memtable.rs:633-672 | exactly when an index is compacted or missing, and otherwise the entries up to the size limit, at least one |
| MemTables.MemTable.FetchEntryIndexesBefore | third/raft-engine/src/memtable.rs:676-693 | the run of appended entries not newer than the gate |
| MemTables.MemTable.FetchRewrittenEntryIndexes | third/raft-engine/src/memtable.rs:696-704 | the rewritten entries, in order |
| MemTables.MemTable.FetchKvsBefore | third/raft-engine/src/memtable.rs:708-714 | each append key not newer than the gate, once, and no other |
| MemTables.MemTable.FetchRewrittenKvs | third/raft-engine/src/memtable.rs:717-723 | each rewritten key, once, and no other |
| MemTables.MemTable.MinFileSeq | third/raft-engine/src/memtable.rs:727-759 | the specified minimum over fronts, keys and the atomic group |
| MemTables.MemTable.ApplyRewriteAtomicGroup | third/raft-engine/src/memtable.rs:547-550 | the range of the last atomic group is remembered |
| MemTables.MemTable.MergeNewerNeighbor | third/raft-engine/src/memtable.rs:205-238 | the specified merge, with conserved counters on the left side |
| MemTables.MemTable.MergeAppendTable | third/raft-engine/src/memtable.rs:244-275 | append data laid over rewritten data, with conserved counters |
| MemTables.MemTable.Drop | third/raft-engine/src/memtable.rs:826-844 | the whole share of the table leaves the counters |
| Stats.GlobalStats.Add | third/raft-engine/src/lib.rs:103-113 | the live count of one queue goes up, the other stays |
| Stats.GlobalStats.Delete | third/raft-engine/src/lib.rs:115-126 | the live count of one queue goes down, the other stays |
| Stats.GlobalStats.ResetRewriteCounters | third/raft-engine/src/lib.rs:138-144 | the live counts stay while the deleted counter restarts |
| Stats.GlobalStats.LiveEntries | third/raft-engine/src/lib.rs:146-156 | the live count, zero if the two rewrite counters are out of step |
| StatsRun.Run | third/raft-engine/src/lib.rs:94-156 | after any run of creating, appending, replaying, compacting, rewriting, key changes, merges into the left side, drops and counter resets, the live counts are exactly the sums over the tables that share them, and no counter went below zero |
| StatsRun.BalancedCovers | third/raft-engine/src/memtable.rs:826-844 | counters that equal the sum cover every single table |
| Stats.TotalShareUpdate | third/raft-engine/src/lib.rs:94-156 | one table's change moves the sum by exactly its change of share |
| Codec.DecodeVarU64 | third/raft-engine/src/codec.rs:245-290 | on every byte string the three-path decoder gives the value, rest or error of a plain loop, and never reads out of bounds |
| Codec.EncodeVarU64 | third/raft-engine/src/codec.rs:119-125 | the loop writes the groups of seven bits |
| Codec.VarU64RoundTrip | third/raft-engine/src/codec.rs:119-290 | decoding an encoded number gives back the number and what follows it, in at most ten bytes |
| Codec.DecodedFits | third/raft-engine/src/codec.rs:265-285 | what is decoded fits in 64 bits |
| Codec.DecodedIsEncoded | third/raft-engine/src/codec.rs:245-290 | decoded bytes are the encoding of their number exactly when they are as short as can be |
| Codec.EofExactly | third/raft-engine/src/codec.rs:245-290 | refused bytes are called incomplete exactly if more bytes could make them a number |
| Codec.LongZeroIsAccepted | third/raft-engine/src/codec.rs:245-290 | two bytes that decode to zero |
| Codec.EncodeVarI64 | third/raft-engine/src/codec.rs:109-115 | the wrapping shift and complement compute the zigzag code |
| Codec.DecodeVarI64 | third/raft-engine/src/codec.rs:233-241 | the number whose zigzag code was read |
| Codec.ZigZagIsBijection | third/raft-engine/src/codec.rs:109-241 | signed and unsigned numbers correspond one to one |
| Codec.OrderPreserved | third/raft-engine/src/codec.rs:40-73 | encoded signed numbers sort byte by byte as the numbers do, and decode to them |
| Codec.FixedRoundTrip | third/raft-engine/src/codec.rs:86-216 | big and little endian numbers of any width are read back |
| LogItems.ItemsRoundTrip | third/raft-engine/src/log_batch.rs:283-328 | items laid back to back are decoded again, renumbered from each first index, with offsets and lengths rebuilt |
| LogGrammar.ItemsExactly | third/raft-engine/src/log_batch.rs:283-328 | the items of a batch are decoded exactly from the strings of a grammar, whatever follows them; everything else is refused |
| LogGrammar.ItemExactly | third/raft-engine/src/log_batch.rs:302-328 | the same for one item: a region, a type, and entries, a command or a pair |
| LogGrammar.KvExactly | third/raft-engine/src/log_batch.rs:202-225 | the same for a pair: an operation and one or two counted strings |
| LogGrammar.EntriesExactly | third/raft-engine/src/log_batch.rs:77-99 | the same for entry indexes: a count, the first index, and end offsets that never go back |
| LogItems.RenumberedIsSame | third/raft-engine/src/log_batch.rs:77-111 | renumbering changes nothing exactly when the indexes of each item are consecutive |
| LogItems.EntriesRoundTrip | third/raft-engine/src/log_batch.rs:77-111 | count, first index and end offsets are enough to rebuild the entry indexes |
| LogItems.CommandRoundTrip | third/raft-engine/src/log_batch.rs:127-151 | commands are read back |
| LogItems.KvRoundTrip | third/raft-engine/src/log_batch.rs:202-234 | puts and deletes are read back |
| LogItems.EncodeEntryIndexes | third/raft-engine/src/log_batch.rs:101-111 | the loop writes the specified bytes |
| LogItems.DecodeEntryIndexes | third/raft-engine/src/log_batch.rs:77-99 | the loop decodes as specified, errors included |
| LogItems.EncodeLogItems | third/raft-engine/src/log_batch.rs:490-502 | the loop writes the count and every item |
| LogBatches.LogBatch.AddEntryIndexes | third/raft-engine/src/log_batch.rs:457-465 | entries are laid back to back behind the ones before |
| LogBatches.LogBatch.AddEntries | third/raft-engine/src/log_batch.rs:647-682 | one more record with exactly the given bytes, or no change at all, exactly when the entries exceed the bound |
| LogBatches.LogBatch.AddRawEntries | third/raft-engine/src/log_batch.rs:687-718 | the same for entries given as bytes |
| LogBatches.LogBatch.AddCommand | third/raft-engine/src/log_batch.rs:467-471 | one more command record, all others as they were |
| LogBatches.LogBatch.Delete | third/raft-engine/src/log_batch.rs:473-477 | one more delete record, all others as they were |
| LogBatches.LogBatch.PutKey | third/raft-engine/src/log_batch.rs:742-751 | one more put record, except for the key kept for internal use |
| LogBatches.LogBatch.Merge | third/raft-engine/src/log_batch.rs:624-644 | the records of both batches in order and an empty right side, or no change, exactly when the entries exceed the bound |
| LogBatches.LogBatch.FinishPopulate | third/raft-engine/src/log_batch.rs:767-839 | the bytes behind the header offset are header, stored entries and footer, also when the header overwrites plain entries in front of the compressed ones |
| LogBatches.LogBatch.PrepareWrite | third/raft-engine/src/log_batch.rs:843-855 | only the last four bytes change, however often it is called |
| LogBatches.LogBatch.FinishWrite | third/raft-engine/src/log_batch.rs:869-883 | every entry and key gets the location of the entries inside the written block |
| LogBatches.LogBatch.Drain | third/raft-engine/src/log_batch.rs:886-893 | the items are handed out and the batch is empty and open again |
| LogBatches.BatchRoundTrip | third/raft-engine/src/log_batch.rs:506-537 | reading the bytes of a batch gives its items with their location, and exactly the bytes of its entries |
| LogBatches.Persist | third/raft-engine/src/engine.rs:153-224 | encoding, signing for each file that is tried, and setting locations: what is read back are the bytes as added and, exactly when indexes are consecutive per item, the items now in memory |
| LogBatches.GapIsLost | third/raft-engine/src/log_batch.rs:77-111 | a batch with the indexes 1 and 3 is not read back as it was written |
| LogBatches.DecodeHeaderIs | third/raft-engine/src/log_batch.rs:922-944 | length, type and offset are read back from the header |
| LogBatches.HeaderExactly | third/raft-engine/src/log_batch.rs:922-944 | sixteen bytes are accepted as a header exactly if they are the header of some length, type and offset that a batch can have |
| LogBatches.VerifyExactly | third/raft-engine/src/log_batch.rs:979-994 | bytes are accepted exactly if their last four are the signed checksum of the others |
| LogBatches.BlockRoundTrip | third/raft-engine/src/log_batch.rs:947-965 | stored entries are unfolded to the plain ones |
| LogBatches.StoredUnfolds | third/raft-engine/src/log_batch.rs:779-804 | entries are compressed exactly if they are as long as the threshold, encoding fails exactly if compressing them does, and what is stored unfolds to them |
| LogBatches.SignatureTellsFiles | third/raft-engine/src/pipe_log.rs:130-139 | a batch signed for one file is accepted in another exactly if their numbers agree in 32 bits |
| LogBatches.LaidIn | third/raft-engine/src/log_batch.rs:457-465 | every offset and length stays inside the entries of the batch |
| Consistency.MergeIsReplay | third/raft-engine/src/consistency.rs:50-70 | two pieces scanned apart and merged give exactly the ranges and first holes of one scan |
| Consistency.ScanIsReplay | third/raft-engine/src/consistency.rs:27-71 | the same for every cutting and every order of merging |
| Consistency.ReplayFindsFirstHole | third/raft-engine/src/consistency.rs:28-48 | a region is reported exactly when its log has a hole, with the last index before the first one |
| Consistency.ConsistencyChecker.ReplayBatch | third/raft-engine/src/consistency.rs:28-48 | the loop over a batch is the scan of its items |
| Consistency.ConsistencyChecker.Merge | third/raft-engine/src/consistency.rs:50-70 | the three loops over maps compute the specified merge |
| SwapAllocator.SwappyAllocator.Allocate | third/raft-engine/src/swappy_allocator.rs:111-127 | one more block that overlaps no live block, in memory exactly while the budget allows it or no page can be had, and aligned in a page; usage stays the total size of blocks in memory, and within budget if a page can be had |
| SwapAllocator.SwappyAllocator.Deallocate | third/raft-engine/src/swappy_allocator.rs:130-149 | exactly that block goes; its page is released exactly when no live block is left in it |
| SwapAllocator.SwappyAllocator.Grow | third/raft-engine/src/swappy_allocator.rs:159-199 | the block is replaced by a larger one, or nothing changes; it stays in memory exactly as the memory allocator grows it while the budget allows it and nothing is swapped; accounting and budget hold |
| SwapAllocator.SwappyAllocator.Shrink | third/raft-engine/src/swappy_allocator.rs:214-263 | the block is replaced by a smaller one: a swapped one goes back to memory if the budget allows it and keeps its place otherwise, one in memory stays there; accounting and budget hold |
| SwapAllocator.SwappyAllocator.AllocateSwapped | third/raft-engine/src/swappy_allocator.rs:81-100 | an aligned block in the last page if it fits there, and otherwise in exactly one new page, with the page's count of live blocks kept exact |
| SwapAllocator.SwappyAllocator.AllocateInLast | third/raft-engine/src/swappy_allocator.rs:314-333 | a page gives a block exactly if the aligned size fits behind its used part: the first aligned place there |
| SwapAllocator.AlignOffsetAligns | third/raft-engine/src/swappy_allocator.rs:314-333 | the offset that is added makes an address a multiple of the alignment, and is the smallest that does |
| SwapAllocator.SwappyAllocator.IsSwapped | third/raft-engine/src/swappy_allocator.rs:73-78 | looking for a page that contains the pointer tells where the block is |
| SwapAllocator.FreePartIsFree | third/raft-engine/src/swappy_allocator.rs:314-333 | the free part of a page overlaps no live block, in this page, another one or in memory |
| UnstableLog.RunRefines | third/raft-rs/src/log_unstable.rs:59-210 | in every run storage and the unstable part together are the log that only appends and restored snapshots make, whenever anything is persisted |
| UnstableLog.AppendRefines | third/raft-rs/src/log_unstable.rs:156-178 | appending is cutting the one log at the first new index and appending there |
| UnstableLog.UnstableEntries.TruncateAndAppend | third/raft-rs/src/log_unstable.rs:156-178 | the three branches compute the specified entries, offset and exact total size |
| UnstableLog.UnstableEntries.StableEntries | third/raft-rs/src/log_unstable.rs:95-120 | the entries go and the offset moves behind them |
| UnstableLog.UnstableEntries.StableSnap | third/raft-rs/src/log_unstable.rs:123-141 | only the snapshot goes |
| UnstableLog.UnstableEntries.RestoreSnapshot | third/raft-rs/src/log_unstable.rs:144-149 | the unstable part starts anew behind the snapshot |
| UnstableLog.UnstableEntries.MaybeLastIndex | third/raft-rs/src/log_unstable.rs:66-71 | the last index of the one log, if the unstable part knows it |
| UnstableLog.UnstableEntries.MaybeTerm | third/raft-rs/src/log_unstable.rs:74-92 | the term that the one log has, and exactly when there is no answer |
| UnstableLog.UnstableEntries.Slice | third/raft-rs/src/log_unstable.rs:185-191 | the same entries as that slice of the one log |
| TxnTable.DecidedOnce | src/client/src/txn_table.rs:134-242 | with any operations delivered any number of times in any order, a commit and an abort of one transaction never both succeed |
| TxnTable.RunKeepsRecord | src/client/src/txn_table.rs:67-242 | committed and aborted are absorbing, the commit version exists exactly when committed and never changes |
| TxnTable.FineMeansDecided | src/client/src/txn_table.rs:90-183 | begin, commit and abort report success exactly when the record is then running, committed or aborted; they report a missing record or a wrong state exactly when there was none or it was decided the other way; nothing else is reported |
| TxnTable.ReachableParses | src/client/src/txn_table.rs:323-359 | every reachable record parses, to the state, heartbeat and commit version its bytes say, and has a commit version exactly when it is committed |
| TxnTable.ParsedVersionIsFirst | src/client/src/txn_table.rs:323-359 | a record that parses as committed has the version of the one commit that met the transaction running |
| TxnTable.CommitVersionIsFirst | src/client/src/txn_table.rs:159-182 | exactly when a successful commit has its own version recorded |
| TxnTable.SecondCommitKeepsFirstVersion | src/client/src/txn_table.rs:172-176 | two commits that both succeed, with the version of the first recorded |
| TxnTable.Shard.BatchWrite | src/server/src/replica/eval/cmd_write.rs:52-91 | all puts are applied, or none and the first failing condition is reported with the previous value |
| TxnTable.EvalConditions | src/server/src/replica/eval/cas.rs:21-31 | the first condition that does not hold |
| TxnTable.Deliver | src/client/src/txn_table.rs:281-320 | one delivery of an operation changes the store and is reported as specified |
| GroupClients.GroupClient.Retry | src/client/src/group_client.rs:125-155 | the loop ends against any replies with bounded epochs and terms; epoch and accepted term never go back; the first answer that is a success ends it with success, and nothing else does; a leader with a new term is tried next; when nobody answers it has tried every replica in turn and the first one twice; it panics only without any replica or on a group that is not newer |
| GroupClients.GroupClient.Invoke | src/client/src/group_client.rs:125-178 | the same with the first lookup of the group |
| GroupClients.GroupClient.Attempt | src/client/src/group_client.rs:139-150 | a round succeeds exactly on a success reply, and one that goes on makes the measure smaller: epochs left, terms left, replica slots left, cached node |
| GroupClients.GroupClient.ApplyStatus | src/client/src/group_client.rs:235-353 | what each reply changes: leader, replica list with the leader in front, node to try next, epoch and turn; and exactly when it panics or fails |
| GroupClients.GroupClient.RecommendClient | src/client/src/group_client.rs:157-166 | the cached node if it can be connected, otherwise the first replica in turn that can be, and none only after all slots are used |
| GroupClients.GroupClient.NextAccessNode | src/client/src/group_client.rs:200-210 | the replicas in turn, the first one again at the end, and exactly when there is a division by zero |
| GroupClients.GroupClient.ApplyGroupState | src/client/src/group_client.rs:180-197 | the state of the group is taken over, the node of its leader comes to the front, and no replica is lost |
| GroupClients.MoveNodeToFirst | src/client/src/group_client.rs:679-685 | the node is in front if it is known, and no replica is lost |
| GroupClients.MoveReplicaToFirst | src/client/src/group_client.rs:687-697 | the replica's node is in front, added only if it was not known |

## Left out

- File input and output, syncing, recycling and directories: the pipe log is an append-only store with increasing file numbers.
- Compression and checksums: an inverse pair of functions and an arbitrary function.
- Watermarks by ratio and the test whether a queue needs a purge: they use floating point, and only choose numbers that the model leaves free.
- Metrics, failure points, logging, timeouts of requests, and conversion of errors.
- Crash recovery with key deletes, compactions or cleaned regions after a purge: the code documents that these can come back, so `CrashRuns` covers regions whose history is appends, with overwrites, and puts. A crash keeps what was written: losing writes that were not synced is not modelled.
- Counters of a recovered accessor: a table taken over from the append context keeps the counters of that context, so `StatsRun` speaks about the tables that share one object.
- `RaftGroupState`, the repair script, the range scanner and the statement parser: nothing to pair a proof with.
- RewriteEmit.EmitSqueeze: speaks about the pass over the whole rewrite queue, which is the one that uses atomic groups; the sync flag and batches that are refused as too large are not modelled.
- RewriteEmit.FlushKeeps: does not model the append to the queue and the change of the tables behind it; `CrashRecovery` models these.
- RewriteRuns.RewritingIsInvisible: the items of one region are applied in the order in which they were written, as with one writer for each region.
- CrashReopen.RestartFromAny: cuts the records that count; a cut through an atomic group is in `AtomicGroups`.
- CrashRuns.CrashRecoveryAgrees: the range of the last atomic group, which only holds files back, is not set by a squeeze here; `RewriteRuns` has it.
- RecoverContexts.RecoverContext.Merge: the pending groups, which the append queue does not have, are in `RecoverContexts.PendingGroups`.
- RecoverContexts.PendingGroups.AcceptNewGroup: records the replayed groups in order instead of replaying them into the tables.
- LogItems.DecodeEntryIndexes: an end offset below the previous one is an error here; the code subtracts without a check.
- LogItems.KvRoundTrip: the operation byte zero is refused by the model's decoder; the code converts it without a check.
- LogGrammar.KvExactly: a length beyond the end of the bytes is an error here; the code slices without a check.
- LogBatches.LogBatch.FinishPopulate: a batch is assumed to be shorter than the seven bytes of its length field can say.
- LogBatches.LogBatch.PutKey: the approximate size of a batch is not modelled.
- SwapAllocator.SwappyAllocator.Allocate: sequential; the order of atomic operations of several threads is not modelled.
- TxnTable.Deliver: a write to a shard is atomic; versions of values and writes that are forwarded to another group are not modelled. The heartbeat is any eight bytes.
- GroupClients.GroupClient.Retry: whether a group can execute a request under a new descriptor is part of the reply.
- WriteBarriers.GroupCommit: condition variables wake up only when they are notified.
