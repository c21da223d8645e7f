# Greplog in Dafny

A model of Greplog's engine and of two of its clients, with proofs about them.
Greplog takes log records over HTTP, makes them durable in a write-ahead log,
keeps recent ones in a live buffer, stores them as Parquet chunks in
day-and-service directories, merges small chunks, purges old days, and answers
searches over both tiers.

`dafny verify dfyconfig.toml` checks everything. Where the original changes
state step by step the model does too: classes whose methods reassign fields,
loops with invariants, and directories changed one file operation at a time.
Each such method is proved against a function or relation on values, and the
theorems are about those. What these functions compute is also said without
them: in rows, dates, sizes, timestamps, statuses and tokens.

## What is modelled

**The write path** (`WritePath`, `WriteRuns`, `LogInvariant`, `ZeroLoss`,
`Shedding`, `LossRuns`, `Crashes`, `WalWorker`, `MemTableWorker`, `Shutdown`,
`Recovery`, `Turns`). Two workers, boot and drained shutdown as one state
machine. Segments are reclaimed by comparing a bare count of flushed rows with a
cumulative count per segment; the proof is that the counted log is at every
moment, in order, what was confirmed, what is queued for confirmation, and what
is still staged. Records of failed groups are in the files but not in the
counts, so physical and counted records are kept apart. The unsynced part of a
file may be cut by a crash. The guarantee is at-least-once: a flush confirmed by
nobody is replayed.

One comment in the code does not hold: shedding rows from the live buffer is
said to lose nothing acknowledged (`crates/engine/src/worker.rs:484-486`).
Because no signal is sent for shed rows, later confirmations count against their
segments. `LossRuns` builds such a run for every flush limit, event by event:
eleven times the limit in requests of one record, each taken up by a turn whose
flush breaks, and then ordinary traffic. Exactly when it is safe to go on is
shown twice. Without crashes: when every acknowledged copy is still in Parquet
or staged (`Shedding`). With crashes: when, besides, every one is in Parquet or
in the synced part of the log (`Crashes`). Where the rows about to be flushed
have no spare copy, this comes down to whether they fit the cap.

**The log as bytes** (`RecordCodec`, `Utf8`, `Decimal`, `WalFiles`). Records in
bincode 1's fixed-width little-endian layout, torn tails, corruption, and the
names and order of sealed files. Appending behind a torn tail, which
`WalWriter::open` does, is safe exactly when nothing of the tail is left.

**Compaction** (`Directories`, `Compaction`, `CompactionSafety`,
`CompactionSweeps`, `CompactionLimits`, `CompactionCost`, `MergeSizes`,
`Compactor`). One merge is a fixed sequence of writes, renames and deletes; a
crash may fall between any two, and fresh chunks may arrive between them. The
recovery theorem is about a pass that runs to its end with no flusher's `.part`
in the directory; `CompactionLimits` gives the exact condition for a pass cut
short and for one with any number of such `.part` files. `CompactionCost` takes
file sizes as additive and at least one byte.

**Placement and retention** (`Calendar`, `Storage`, `FlushClock`, `Retention`,
`StoreRuns`, `PartitionLife`, `StoreLife`, `DatedRows`). The Gregorian calendar
from day numbers, the flush that splits a batch by service and day, and the
purge. `PartitionLife` is one partition with whatever merge and stray `.part`
files are there; `StoreLife` puts flushes, failed ones too, sweeps cut short at
any file operation, recovery passes and purges of all partitions in any
interleaving, and shows that a directory shows exactly what was flushed to it
since its last purge, except between the first hiding and the publishing of a
merge. A flush writes over a chunk of the same number, as after the clock was
set back; `Storage` says exactly when that loses nothing. The years the date
library represents are a parameter; a timestamp outside them is stored under the
day of the flush, as in the code, and theorems about a row's own day exclude it.
The code asks the clock for that day again for every row and every pass, so a
midnight in the middle of a flush can leave such a row out of every chunk of a
flush that reports success; `FlushClock` says exactly when.

**Search** (`Pruning`, `SearchRequest`, `SearchRows`, `SearchAggregate`,
`SearchText`, `SearchSql`, `SearchConditions`, `SearchReading`, `Search`).
Partition pruning, per-tier top rows and per-tier groups against one query over
both tiers, and the text of the SQL predicate against a lexer. Rows dated after
today can be pruned away although they match; `Pruning` states exactly when. A
global aggregate over an empty tier is one row of nulls, which the merge reads
as zeros; `SearchAggregate` states exactly when that shows.

**Client queues** (`Numbered`, `NodeClient`, `GoClient`). Conservation, order
and bounds over any server answers. Records are numbered by the call that handed
them over, so that equal ones can be told apart.

`Seqs`, `Sorting` and `Records` hold shared vocabulary.

## Model

| member | source | states |
|---|---|---|
| ZeroLoss.NoAcknowledgedRecordIsLost | crates/engine/src/worker.rs:92-149 | over every interleaving of group commits, failed groups, hand-offs, flushes, failed flushes, confirmations (rename or reopen failing), WAL exit, crashes and restarts, if no row is shed then every acknowledged record is in Parquet or is returned by `replay_all` |
| ZeroLoss.OnlyShedRecordsAreLost | crates/engine/src/worker.rs:92-149 | without the no-shedding hypothesis: an acknowledged record that is neither stored nor replayed was shed from the live buffer |
| ZeroLoss.CountsStayAligned | crates/engine/src/worker.rs:441-479 | in every running state reached without shedding the counted log equals, in order, confirmed rows, rows of queued confirmations, then in-flight flush, live buffer, memtable and hand-off queue; `confirmed` and `cumulative` are the matching lengths |
| ZeroLoss.RestartKeeps | crates/cli/src/main.rs:277-310 | boot re-establishes the counting invariant from whatever files survived, because counting and replay see the same records |
| ZeroLoss.RebootLog | crates/engine/src/worker.rs:48-86 | the list `WalState::open` builds assigns each sealed file the exact slice of the replayed log it holds |
| ZeroLoss.RotationNeverOverwrites | crates/engine/src/worker.rs:118-149 | in every reachable state, shedding included, all sealed files on disk are numbered below `next_seq` |
| ZeroLoss.DrainedMeansStored | crates/cli/src/main.rs:253-275 | once the pipeline is drained, every acknowledged record is in Parquet itself |
| ZeroLoss.QuietLogIsReclaimed | crates/engine/src/worker.rs:92-116 | once nothing is staged and the last signal comes, a confirmation in which nothing fails empties the log: no segment stays listed, the active file is empty, every listed file is gone |
| Shutdown.LoopIsARun | crates/engine/src/worker.rs:368-401 | any turns that take everything handed over are one run of the write-path model that ends where the loop ends |
| Shutdown.DrainEmptiesTheStages | crates/cli/src/main.rs:261-268 | from the middle of a turn or of a flush too: the WAL worker's return at any point of what is left of that turn, the remaining turns and the final flush are a run of the write path; if the final flush succeeds nothing is left staged |
| Shutdown.EveryAcknowledgedRowIsOnDisk | crates/cli/src/main.rs:268-272 | what the server prints when it has drained holds, wherever in a turn or flush the WAL worker returned, when no row is shed: every acknowledged row is in Parquet or in the log, and all are in Parquet if the last flush succeeds |
| LogInvariant.CommitKeepsLog | crates/engine/src/worker.rs:285-327 | a group that succeeds adds exactly its records to the counted log and leaves no unsynced tail; a group that fails may leave records in the file but changes neither the counted log nor the counts |
| LogInvariant.RotateKeepsDiskLog | crates/engine/src/worker.rs:118-149 | rotation, whichever of its steps fail, keeps the log as replay reads it and uses a name no sealed file has |
| LogInvariant.RotationCountsUp | crates/engine/src/worker.rs:118-149 | a rotation uses up one number, and unless the writer reopens no group after it is acknowledged or written |
| LogInvariant.ReclaimableExact | crates/engine/src/worker.rs:102-110 | the segments `confirm` removes are exactly those whose cumulative count is confirmed, and they form a prefix |
| LogInvariant.EverythingConfirmedIsReclaimed | crates/engine/src/worker.rs:92-116 | when the count of confirmed rows has reached everything counted, every listed segment and the one just sealed go |
| LogInvariant.ConfirmKeepsLog | crates/engine/src/worker.rs:92-116 | a confirmation keeps the counting invariant and only takes records off the disk, whichever of the removals fail |
| LogInvariant.UnreleasedOnDisk | crates/engine/src/worker.rs:102-116 | everything of the counted log that was not reclaimed is on disk |
| LossRuns.SheddingLosesRecords | crates/engine/src/worker.rs:487-512 | for every flush limit this run of the two workers, a boot and then a full cap and a full table of requests of one record, each answered Ok and taken up by one turn whose flush breaks, is followed by traffic without crashes or further shedding after which an acknowledged record is lost: the comment that shedding loses nothing acknowledged does not hold |
| LossRuns.TooManyIs | crates/engine/src/worker.rs:360-364 | the number of those requests is eleven times the flush limit, unless the cap saturates |
| Shedding.ShedRowsCanBeLost | crates/engine/src/worker.rs:496-512 | from any ready state, a failed flush that leaves an acknowledged record with too few copies can be followed by traffic that reclaims the segment of a missing one |
| Shedding.FailedFlushIsSafeIff | crates/engine/src/worker.rs:487-512 | in any ready state, whatever the failed flush had published, no crash-free traffic without further shedding loses a record if and only if every acknowledged copy is in Parquet or still staged |
| LossRuns.CrashTakesTheCopy | crates/engine/src/worker.rs:487-512 | with crashes staged copies are not enough: a run to a ready state in which every acknowledged copy is in Parquet or staged, and from which a crash loses one, because the copy is an equal record that was never acknowledged nor synced |
| Crashes.CrashesAreSafeIff | crates/engine/src/worker.rs:487-512 | in every ready state that any run reaches, no traffic without further shedding loses a record, crashes and restarts at any moment included, if and only if every acknowledged copy is in Parquet or staged and every one is in Parquet or in the synced part of the log |
| Shedding.FittingFlushIsSafeIff | crates/engine/src/worker.rs:496-512 | in a ready state reached without shedding and without spare copies, a flush that fails whole is safe, crashes included, if and only if the rows it returns fit the cap |
| WritePath.NextSeq | crates/engine/src/worker.rs:50-72 | the next number is past every sealed file on disk and at least one |
| WritePath.Reclaimable | crates/engine/src/worker.rs:102-110 | a prefix of the list, every member confirmed, the first one after it not |
| WritePath.TrimSplits | crates/engine/src/worker.rs:495-511 | what is kept and what is shed together are all rows in order, and what is kept fits the cap |
| WalWorker.WalState.Open | crates/engine/src/worker.rs:48-86 | the constructor computes the specified state from a directory listing |
| WalWorker.WalState.Rotate | crates/engine/src/worker.rs:118-149 | fields and directory after `rotate` for every outcome of sync, rename and reopen |
| WalWorker.WalState.Confirm | crates/engine/src/worker.rs:92-116 | fields and directory after `confirm`, as the specification the log invariant is proved for |
| WalWorker.WalState.CountAndSeal | crates/engine/src/worker.rs:92-100 | the counting and sealing half of `confirm` |
| WalWorker.WalState.DropCovered | crates/engine/src/worker.rs:102-116 | the loop that finds the covered prefix and drops it |
| WalWorker.WalState.HandleAppendGroup | crates/engine/src/worker.rs:266-328 | takes the first batch and at most 49 more in arrival order, answers each exactly once, with Ok only if all were appended and synced, and hands over exactly the acknowledged batches in order |
| WalWorker.WalState.CommitGroup | crates/engine/src/worker.rs:285-302 | the append loop and the sync commit the whole group or none of it |
| WalWorker.WalState.Answer | crates/engine/src/worker.rs:311-327 | one answer per batch, one hand-off per acknowledged batch, and the count of rows written |
| WalWorker.WalState.Collect | crates/engine/src/worker.rs:272-283 | the group is a prefix of what was waiting, at most 50 batches |
| WalWorker.Disk.AppendNoSync | crates/engine/src/wal.rs:56-61 | records reach the file in order up to the one that fails, all unsynced |
| WalWorker.Disk.AppendGroup | crates/engine/src/worker.rs:285-293 | the append loop of a group stops at the first batch that fails, leaving a prefix of the group in the file |
| WalWorker.Disk.SyncData | crates/engine/src/wal.rs:63-67 | everything appended so far becomes durable, or, on failure, nothing more than was |
| WalWorker.WalState.RecordsWritten | crates/engine/src/worker.rs:88-90 | the cumulative count grows by the records written |
| WalWorker.Disk.Remove | crates/engine/src/worker.rs:111-115 | removes the files of the drained segments, except those that fail to go |
| Recovery.ReplayFiles | crates/engine/src/wal.rs:148-155 | reading the files in listing order yields the whole log, sealed files first |
| Recovery.RecoverWalInto | crates/cli/src/main.rs:277-310 | a non-empty log becomes one batch at the end of the live buffer, in log order |
| MemTableWorker.TrimIsLongestSuffix | crates/engine/src/worker.rs:487-512 | a failed flush keeps the longest suffix of whole batches that fits the cap |
| MemTableWorker.TurnBounds | crates/engine/src/worker.rs:368-401 | one loop turn ends with the live buffer at or below the cap and grows it meanwhile by at most one short table and one batch |
| MemTableWorker.LiveBufferStaysBounded | crates/engine/src/worker.rs:360-408 | over every run and any pattern of flush failures: at most the cap at each loop head, never more than cap + (limit - 1) + batch size |
| MemTableWorker.TurnIsARun | crates/engine/src/worker.rs:368-401 | every turn of the worker, before or after the WAL worker has returned, is, event by event, a run of the write-path model, and one that sheds nothing unless a flush breaks with more rows than the cap |
| Turns.StoredTurnIs | crates/engine/src/worker.rs:368-401 | a turn flushes exactly when rows are buffered and the interval is due or they reach the limit; it then stores the buffered rows, which are the oldest held, and signals their number, and otherwise only moves rows from the table |
| Turns.DueTurnStoresEverything | crates/engine/src/worker.rs:384-394 | when the interval is due every row held or received is stored, signalled as one number if there is any, and nothing is held |
| Turns.FewRowsStayBuffered | crates/engine/src/worker.rs:388-394 | after a turn whose flush succeeds fewer rows than the limit are buffered, none if it is zero |
| Turns.QuietTurnKeepsEverything | crates/engine/src/worker.rs:368-401 | below the limit and with the interval not due nothing is stored or signalled, and what is held is what was, followed by what was received |
| Turns.TableIsEmptied | crates/engine/src/worker.rs:376-386 | after a timeout, and whenever the interval is due, the table is empty |
| Turns.BrokenTurnIs | crates/engine/src/worker.rs:487-512 | a flush that breaks signals nothing and keeps every row, but for oldest ones beyond ten times the limit |
| Turns.EverythingReceivedIsStored | crates/engine/src/worker.rs:368-401 | over any run of turns whose flushes succeed, once the interval is due everything received so far is in Parquet, once, and the signals add up to it |
| Turns.RemainderStoresEverything | crates/engine/src/worker.rs:403-408 | the final push and flush store and signal all that is left |
| MemTableWorker.Worker.FinishAndPush | crates/engine/src/worker.rs:410-430 | the table becomes a batch of the live buffer, an empty one nothing |
| MemTableWorker.Worker.LiveRowCount | crates/engine/src/worker.rs:432-439 | the sum over batches is the number of buffered rows |
| MemTableWorker.Worker.ReturnToLiveBuffer | crates/engine/src/worker.rs:487-512 | the loop that drops oldest batches computes the specified suffix of the returned and newer batches |
| MemTableWorker.Worker.FlushLiveBuffer | crates/engine/src/worker.rs:441-479 | takes every batch; a success stores all rows and signals their number, a failure returns them without a signal |
| MemTableWorker.Worker.Iterate | crates/engine/src/worker.rs:368-401 | one turn of the loop, for received records and for a timeout |
| MemTableWorker.Worker.Run | crates/engine/src/worker.rs:352-408 | the loop and the final push and flush after the channel closes |
| RecordCodec.RecordRoundTrip | crates/engine/src/wal.rs:56-61 | a serialised record reads back from the front of any bytes, leaving exactly what follows it |
| RecordCodec.CutRecordIsEof | crates/engine/src/wal.rs:157-169 | the encoding is prefix-free: a record cut at any byte is reported as end of log, not as corruption |
| RecordCodec.RecordStable | crates/engine/src/wal.rs:86-96 | more bytes behind never change a record or an error already read |
| RecordCodec.FitIsLargest | crates/engine/src/wal.rs:74-78 | the number of records that fit whole is the largest one |
| RecordCodec.ReplayOfCutLog | crates/engine/src/wal.rs:74-98 | a log cut at any byte offset replays to exactly the records that fit whole, without error |
| RecordCodec.ReplayOfWholeLog | crates/engine/src/wal.rs:78-98 | an uncut log replays in full and what follows it is read next |
| RecordCodec.ReplayInventsNothing | crates/engine/src/wal.rs:74-98 | whatever the bytes, the records replay returns are those the log begins with, byte for byte |
| RecordCodec.MidFileCorruptionSurfaces | crates/engine/src/wal.rs:157-169 | a malformed record in mid-file is an error whatever follows |
| RecordCodec.SyncedRecordsSurvive | crates/engine/src/wal.rs:63-67 | a crash that keeps the synced bytes keeps every synced record, and what comes back is a cut at a record boundary |
| RecordCodec.AppendBehindTornRecord | crates/engine/src/wal.rs:33-42 | appending behind a torn record replays every later append if and only if no byte of the torn record is left |
| RecordCodec.ReplayWal | crates/engine/src/wal.rs:78-98 | the reading loop returns what the specification of replay says: a missing file reads as empty, one that cannot be opened or is corrupt as an error |
| RecordCodec.RecordsLookLike | crates/engine/src/record.rs:26-35 | a record byte for byte: the time in eight bytes, least first and in two's complement, a tag before what may be missing, each text behind its length |
| RecordCodec.RecordCount | crates/engine/src/wal.rs:126-146 | the counting loop agrees with replay on every file, error for error |
| Utf8.RoundTrip | crates/engine/src/wal.rs:56-61 | strings of Unicode scalar values survive encoding as UTF-8 (RFC 3629) and strict decoding |
| Utf8.DecodeIsExact | crates/engine/src/wal.rs:78-98 | and only encodings decode: overlong forms, surrogates and stray bytes are refused |
| WalFiles.SealedNameParses | crates/engine/src/wal.rs:19-26 | every number reads back from its file name, beyond six digits too |
| WalFiles.SealedSegments | crates/engine/src/wal.rs:101-124 | exactly the names that parse, sorted by number, whatever order the directory is listed in |
| WalFiles.ReplayOrderIsSealOrder | crates/engine/src/wal.rs:148-155 | replay visits each sealed file once, in strictly ascending number |
| WalFiles.OpenReadsTheListing | crates/engine/src/worker.rs:53-72 | the numbers listed are the listing `WalState::open` is specified for |
| Decimal.PaddedParses | crates/engine/src/wal.rs:25-25 | zero padding to any width never changes the number parsed back |
| Decimal.SignedParses | crates/engine/src/retention.rs:117-117 | a signed number written out parses back to itself |
| Compaction.HiddenRoundTrip | crates/engine/src/compactor.rs:278-291 | hiding a chunk takes it out of every scan, and dropping the suffix undoes it |
| CompactionSafety.RecoveryKeepsEveryRow | crates/engine/src/compactor.rs:102-136 | crash after any operation of a merge, with chunks arriving in between: one completed recovery shows exactly the rows the partition should hold, each once |
| CompactionSafety.RollbackRestores | crates/engine/src/compactor.rs:117-134 | before the publishing rename, recovery puts the directory back exactly as it was, with the chunks that arrived |
| CompactionSafety.CleanupFinishes | crates/engine/src/compactor.rs:117-134 | after it, recovery removes what is left of the sources and nothing else |
| CompactionSafety.RecoveryCleans | crates/engine/src/compactor.rs:102-136 | a completed recovery leaves neither a `.part` nor a hidden chunk |
| CompactionSafety.MergeNeverDuplicates | crates/engine/src/compactor.rs:241-262 | at every single operation of a merge the visible rows are a sub-multiset of the true ones, and equal to them before the first hiding and from the publishing rename on |
| CompactionSafety.StepKeepsPhase | crates/engine/src/compactor.rs:209-262 | what each single rename, write, delete or arrival keeps |
| CompactionSafety.CutShows | crates/engine/src/compactor.rs:241-262 | the same for a merge stopped after any number of its operations |
| CompactionSafety.UnsweptIsWhole | crates/engine/src/compactor.rs:80-95 | a partition without leftovers has nothing out of sight, so it needs no recovery |
| CompactionSweeps.SweepsKeepEveryRow | crates/engine/src/compactor.rs:138-153 | over any number of sweeps, each cut short anywhere and with arrivals in between, one more recovery shows the starting rows and the arrivals, each once |
| CompactionLimits.InterruptedRollback | crates/engine/src/compactor.rs:117-134 | a rollback that itself crashes after some operation, then a completed recovery, shows the right rows if and only if it had not begun or no hidden chunk left behind held rows |
| CompactionLimits.ForeignParts | crates/engine/src/compactor.rs:117-134 | with any number of flushers' half-written `.part` files in a published partition, recovery shows the right rows if and only if no hidden chunk still there holds rows |
| Compactor.Partition.RecoverPartition | crates/engine/src/compactor.rs:102-136 | lists, sorts out and then deletes or restores, stopping at the first operation that fails: the directory after any number of operations |
| Compactor.Partition.SortEntries | crates/engine/src/compactor.rs:103-112 | the listing sorted out by suffix, in order |
| Compactor.Partition.DiscardParts | crates/engine/src/compactor.rs:118-121 | the loop that removes `.part` files |
| Compactor.Partition.SettleSuperseded | crates/engine/src/compactor.rs:122-134 | the loop that restores or removes hidden chunks |
| Compactor.Partition.NeedsSweep | crates/engine/src/compactor.rs:63-95 | a directory is picked exactly when it holds leftovers or more chunks below the target size than allowed |
| Compactor.Partition.MergeableFiles | crates/engine/src/compactor.rs:158-173 | exactly the chunks below the target, each once, by first timestamp, chunks without one last, names breaking ties |
| Compactor.NotAfterIsTotal | crates/engine/src/compactor.rs:298-305 | the comparison used for sorting is a total order |
| Compactor.MergeOrderIsByTime | crates/engine/src/compactor.rs:293-305 | told by the rows: of the files in merge order each begins no later than the next ones, files without rows are last, and names break ties |
| MergeSizes.LargeChunkStays | crates/engine/src/compactor.rs:155-170 | a published chunk at the target size or above stays as it is, wherever a merge stops |
| MergeSizes.MergeLeaves | crates/engine/src/compactor.rs:138-153 | a whole merge leaves the published chunks at the target or above and, for all smaller ones, one file with their rows |
| MergeSizes.WholeMergeLeaves | crates/engine/src/compactor.rs:209-262 | the directory after a whole merge, name by name: the sources gone, the hidden ones too unless they could not be removed, the result there, nothing else changed |
| Compactor.Partition.WriteMerged | crates/engine/src/compactor.rs:209-239 | the `.part` ends up holding the rows of all sources in order |
| Compactor.Partition.PublishMerged | crates/engine/src/compactor.rs:241-262 | hide every source, publish, then remove the hidden chunks, tolerating failed removals |
| Compactor.Partition.HideSources | crates/engine/src/compactor.rs:247-249 | the renaming loop |
| Compactor.Partition.RemoveSuperseded | crates/engine/src/compactor.rs:254-260 | the deleting loop |
| Compactor.Partition.CompactPartition | crates/engine/src/compactor.rs:138-153 | a sweep merges exactly when more chunks below the target size are there than allowed, never touches a chunk of the target size or above wherever it stops, shows no row twice, and when it ends shows the same rows with one file in place of all smaller ones |
| CompactionCost.WriteAmplificationIsBounded | crates/engine/src/compactor.rs:138-173 | over any run of arrivals and sweeps no byte goes through more than ceil(target / max_files) merges |
| CompactionCost.BoundedIff | crates/engine/src/compactor.rs:141-144 | a bound exists if and only if the file threshold is positive or no chunk can be below the target; with a zero threshold a lone chunk is rewritten by every sweep |
| MergeSizes.ChunksAreRarelyRewritten | crates/engine/src/compactor.rs:155-170 | the bound holds of the directories themselves: over any run of arriving chunks and whole sweeps, each byte of each published chunk went through at most ceil(target / max_files) merges |
| Calendar.DateOfIsRight | crates/engine/src/storage.rs:164-173 | the date of a day number agrees with counting days arithmetically, leap years and days before 1970 included |
| Calendar.BeforeIff | crates/engine/src/retention.rs:91-91 | dates compare as their day numbers do |
| Calendar.NumberIsRight | crates/engine/src/storage.rs:164-173 | and each valid date is the date of its arithmetic day number |
| Calendar.DateOfMoment | crates/engine/src/storage.rs:164-173 | every microsecond of a date, from its midnight on and before 1970 too, is stored under that date |
| Storage.DayDirReadsBack | crates/engine/src/retention.rs:104-121 | `day_partition_date` undoes `partition_path` on every date the library represents |
| Storage.DirsDiffer | crates/engine/src/storage.rs:58-62 | different services or dates never share a directory |
| Storage.FlushAddsTheBatch | crates/engine/src/storage.rs:41-68 | a flush that succeeds adds every row of the batch exactly once to those of the files it did not write over |
| Storage.FlushAddsTheKept | crates/engine/src/storage.rs:55-66 | a flush stopped midway has added the rows of the chunks it published, each once, and none besides |
| Storage.FlushLosesNothingIff | crates/engine/src/storage.rs:73-86 | a flush loses nothing that was stored if and only if no row lies in a file of the same number, which its rename would replace |
| Storage.FlushPlaces | crates/engine/src/storage.rs:43-63 | every row lands in the directory of its own service and UTC day |
| Storage.PartlyFlushedPlaces | crates/engine/src/storage.rs:70-88 | also when the flush fails, leaving a half-written `.part` or not |
| DatedRows.FlushedRowLiesUnderItsDate | crates/engine/src/storage.rs:41-86 | a row of a given date, time of day and service is after a flush in the file `year=/month=/day=/service=/chunk_` of just these, and rows of other dates or services are not |
| Storage.UniqueServices | crates/engine/src/storage.rs:181-190 | the services of the batch, each once, ascending |
| Storage.UniqueDays | crates/engine/src/storage.rs:109-120 | the dates of the rows, each once, ascending |
| Storage.Flusher.WriteChunk | crates/engine/src/storage.rs:70-88 | the chunk appears whole under its final name, replacing what was there, or not at all |
| Storage.Flusher.FlushDay | crates/engine/src/storage.rs:58-64 | one chunk with the rows of one service and day |
| Storage.Flusher.FlushService | crates/engine/src/storage.rs:55-65 | the loop over the days of a service |
| Storage.Flusher.Flush | crates/engine/src/storage.rs:46-68 | one chunk per service and day that occurs, stopping at the first error |
| FlushClock.MidnightIsHarmlessIff | crates/engine/src/storage.rs:109-173 | with the clock read anew for every row and pass, a flush that reports success has stored every row of a service exactly once, whenever midnight comes, if and only if there is only one row or every timestamp can be represented |
| FlushClock.MissedAtMidnight | crates/engine/src/storage.rs:124-142 | the failing input: a row beyond the library's years beside rows with days of their own, and a midnight after the latest of these; the flush succeeds and the row is in no chunk |
| FlushClock.SteadyIsWhole | crates/engine/src/storage.rs:55-66 | if the clock shows one day to all rows that go by it, whatever else it shows, every row is stored exactly once |
| FlushClock.OneDateServes | crates/engine/src/storage.rs:124-142 | then each pass sees the rows that a flush with one date sees, which is what `Storage` models |
| Retention.WalkForDayPartitions | crates/engine/src/retention.rs:74-102 | finds exactly the dated directories before the cutoff that are the first dated ones on their path |
| Retention.JudgeEntries | crates/engine/src/retention.rs:85-97 | entries with a date are judged, the others walked |
| Retention.Purger.PurgeExpired | crates/engine/src/retention.rs:33-50 | removes the files below expired directories, except those that cannot be removed, and nothing else, and reports how many of these directories have nothing left below them; nothing without a retention setting |
| Retention.Purger.RemoveAll | crates/engine/src/retention.rs:37-48 | the removing loop goes on past failures and counts the directories that went whole |
| Retention.DoomedIff | crates/engine/src/retention.rs:74-121 | a placed file goes exactly when its day directory dates before the cutoff |
| Retention.PurgeIsExact | crates/engine/src/retention.rs:23-50 | of a row whose day can be represented, its file goes if and only if that day comes before the cutoff day |
| DatedRows.PurgeGoesByTheDate | crates/engine/src/retention.rs:33-50 | whatever came before, a purge with a retention of so many days removes the file of a row of a given date if and only if that date is more than so many days before today |
| StoreRuns.MergeStaysInPlace | crates/engine/src/compactor.rs:138-153 | a merge stopped anywhere holds only rows of its own directory |
| StoreRuns.RecoveryStaysInPlace | crates/engine/src/compactor.rs:102-136 | so does a recovery pass |
| StoreRuns.SweepCompacts | crates/engine/src/compactor.rs:102-153 | a sweep stopped at any file operation of its recovery or its merge works inside its own directory and makes up no rows |
| StoreRuns.ChangeKeepsPlaced | crates/engine/src/storage.rs:41-45 | each flush, finished or not, each sweep, stopped at any file operation, and each purge keeps every row in the directory of its own service and day |
| StoreRuns.PurgeDropsExactlyTheExpired | crates/engine/src/retention.rs:33-50 | after any run of flushes, sweeps and purges, a purge drops exactly the rows of days before the cutoff |
| PartitionLife.RecoveredIsGood | crates/engine/src/compactor.rs:102-136 | with stray `.part` files in any phase of a merge, a completed recovery leaves the directory clean, and shows the right rows if and only if no stray `.part` lies beside hidden chunks with rows of a published merge |
| PartitionLife.SettledShows | crates/engine/src/compactor.rs:241-262 | a directory with any stray `.part` files shows the right rows before the first hiding and from the publishing on, also when a merge has finished and no sweep comes back |
| StoreLife.MoveKeeps | crates/engine/src/compactor.rs:102-153 | every flush, stray `.part`, harmless recovery pass, file operation of a merge and purge keeps, for all partitions at once, the phase of each merge and what its directory owes |
| StoreLife.StoreShowsWhatIsOwed | crates/engine/src/storage.rs:46-68 | over any interleaving of these, a directory shows exactly the rows flushed to it since its last purge, each once, at every moment except between the first hiding and the publishing of a merge |
| StoreLife.RecoveryShowsWhatIsOwed | crates/engine/src/compactor.rs:102-136 | so it does after every recovery pass that ran to its end, whatever merge was cut short before, and it is clean |
| StoreLife.NothingShownTwice | crates/engine/src/compactor.rs:241-262 | at no moment does a scan show a row more often than it was flushed, or one that was purged |
| StoreLife.FlushedRowIsShown | crates/engine/src/storage.rs:55-66 | a flushed row stays on show, except between the first hiding and the publishing of a merge, until a purge reaches its day |
| StoreLife.FailedFlushIsTwoMoves | crates/engine/src/storage.rs:70-88 | a flush that fails part way, whatever merge is under way there, is a flush of the keys it finished and a stray `.part`, so the theorems cover it |
| StoreLife.SomeStoreFollows | crates/engine/src/compactor.rs:102-153 | whatever the work on a partition goes on to, some store differs from the present one in that directory alone and holds it |
| StoreLife.RunGoesOn | crates/engine/src/compactor.rs:102-153 | any run can go on with any stray `.part`, harmless recovery pass, merge start or next file operation of a merge, so the runs leave out none of them |
| Pruning.PartitionDays | crates/engine/src/search.rs:154-170 | the dates whose midnight is not after now and whose next day ends after the start of the window; none exactly where the date arithmetic would overflow |
| Pruning.PartitionPredicate | crates/engine/src/search.rs:172-225 | one clause over the day numbers, months or years that occur, each once: days up to 32 dates, years from 731 on |
| Pruning.WindowDaysAre | crates/engine/src/search.rs:154-170 | a date is listed if and only if its midnight is not after now and the end of the day after it is after the start of the window |
| Pruning.WindowIsListed | crates/engine/src/search.rs:26-28 | every row in the window dated no later than today lies in a listed directory |
| DatedRows.WindowListsTheDate | crates/engine/src/search.rs:26-28 | a row of a given date and time of day in the window, not of a later date than now, has its day, month or year among the numbers of the clause |
| Pruning.PruningPreservesMeaningIff | crates/engine/src/search.rs:360-368 | over a placed store, filtering with the partition clause gives the same rows if and only if every matching row dated after today, or on no representable day, lies in a listed directory |
| Pruning.TomorrowCanBePruned | crates/engine/src/search.rs:160-169 | a concrete window that leaves out a matching row dated tomorrow |
| SearchRequest.Validate | crates/engine/src/search.rs:85-141 | accepts exactly the requests the rest of the search relies on |
| SearchRequest.WellPosedMeans | crates/engine/src/search.rs:85-141 | what is accepted, condition by condition: blank facets are those of whitespace only, repeats are equal entries |
| SearchRequest.HasDuplicates | crates/engine/src/search.rs:143-148 | sorting and dropping equal neighbours finds a repeat exactly when there is one |
| SearchRows.MergeRows | crates/engine/src/search.rs:450-496 | sorts both tiers' rows newest first up to the end of the page and cuts the page out, empty past the end |
| SearchRows.Concat | crates/engine/src/search.rs:460-469 | the rows of all batches in order, empty ones skipped |
| SearchRows.PageShowsTheReference | crates/engine/src/search.rs:370-389 | though each tier gives only its top offset + limit rows, the page shows, position by position, the timestamps of the newest-first order of all rows, however ties are broken |
| SearchRows.PageIsNewest | crates/engine/src/search.rs:370-389 | told by timestamps alone: timestamps on a page never increase, the row at position i has at most offset + i newer matching rows in both tiers and more than offset + i at least as new, and the page is as long as limit and offset leave |
| SearchRows.PageIsTheReference | crates/engine/src/search.rs:370-389 | row for row when no two rows share a timestamp |
| SearchRows.PageRowsAreReal | crates/engine/src/search.rs:450-453 | a page never shows a row more often than the tiers hold it |
| SearchRows.ConsecutivePagesJoin | crates/engine/src/search.rs:372-373 | two consecutive pages show together what one page of both lengths shows |
| SearchAggregate.MergeAggregate | crates/engine/src/search.rs:517-562 | over the batches of both tiers: each key once, strictly ascending, with the total of what was reported for it |
| SearchAggregate.AddMetrics | crates/engine/src/search.rs:540-550 | the innermost loop: sums for counts, maximum for last seen |
| SearchAggregate.AddGroup | crates/engine/src/search.rs:532-551 | one reported row added to the entry of its key, starting from nothing |
| SearchAggregate.AddBatch | crates/engine/src/search.rs:524-552 | the loop over the rows of a batch |
| SearchAggregate.SortedKeys | crates/engine/src/search.rs:554-559 | every key of the map once, strictly ascending by rank |
| SearchAggregate.KeyOrder | crates/engine/src/search.rs:434-441 | ranks are totally ordered, so keys are |
| SearchAggregate.KeysInOrder | crates/engine/src/search.rs:434-441 | where two keys in order first differ, the earlier bucket is first, times are before texts, and texts go by the order of strings |
| SearchAggregate.BucketsAscend | crates/engine/src/search.rs:554-559 | of an answer grouped by bucket first the buckets never go back in time |
| SearchAggregate.KeyPartsMean | crates/engine/src/search.rs:329-340 | a key holds the level, the service, and the start of the bucket of the given length that the time lies in |
| SearchAggregate.CountMeans | crates/engine/src/search.rs:342-350 | the count is the number of rows of the group |
| SearchAggregate.LevelsMean | crates/engine/src/search.rs:347-350 | errors and warns are the numbers of its rows of level ERROR and of level WARN |
| SearchAggregate.LastMeans | crates/engine/src/search.rs:351-351 | the last sighting is the greatest timestamp of the group |
| SearchAggregate.BuildAggregateBatch | crates/engine/src/search.rs:617-688 | one output row per key with the metrics asked for, in their order |
| SearchAggregate.MergedTiersAnswer | crates/engine/src/search.rs:390-424 | merging what the tiers answer is the answer of one aggregate query over all rows of both if and only if the query groups, or the null of an empty tier, read as zero, does not hide a last sighting before 1970 |
| SearchAggregate.MergedGroups | crates/engine/src/search.rs:517-562 | for grouped queries always: each key of either tier once, ascending, with the metrics over the rows of both |
| SearchAggregate.NullHidesAnOldRow | crates/engine/src/search.rs:540-550 | with one matching row, stored and from before 1970, the merged answer of a global aggregate is one row that was last seen at the epoch, which is wrong |
| Search.RowsModeIsTheReference | crates/engine/src/search.rs:357-389 | pruning, two tiers and merge together: rows mode equals one query over all matching rows, when those dated after today are listed |
| Search.RowsModeShowsTheNewest | crates/engine/src/search.rs:357-389 | with pruning too: the page holds the newest matching rows of both tiers past the offset, newest first |
| Search.AggregateModeIsTheReference | crates/engine/src/search.rs:390-424 | and so does aggregate mode, under the exact condition for nulls |
| SearchText.SplitTerms | crates/engine/src/search.rs:242-261 | the character loop computes the specified terms |
| SearchText.SplitKeepsContent | crates/engine/src/search.rs:242-261 | splitting loses nothing but quotes and unquoted whitespace and yields no empty term |
| SearchText.SplitUndoesQuoting | crates/engine/src/search.rs:242-261 | splitting quoted and space-joined terms gives the terms back |
| SearchText.WordsAreTerms | crates/engine/src/search.rs:242-261 | words without quotes and whitespace, separated by spaces, are the terms |
| SearchSql.LiteralLexes | crates/engine/src/search.rs:227-229 | a literal reads back as its value by the doubled-quote rule (section 5.3 of ISO/IEC 9075-2) and ends at its own closing quote |
| SearchSql.RenderedLexes | crates/engine/src/search.rs:227-229 | a predicate of quote-free code and literals lexes to exactly that code and those values |
| SearchConditions.WrittenIsMeant | crates/engine/src/search.rs:287-307 | the SQL written for each kind of condition is its code with user text in literals only |
| SearchConditions.WhereClause | crates/engine/src/search.rs:310-327 | the loop joins the conditions with AND; the text lexes to the window, the level and the service facet each exactly if given, and what each term adds, in that order |
| SearchConditions.WhereClauseLexes | crates/engine/src/search.rs:310-327 | whatever a user types, the predicate lexes to the meant code with each user value in a literal of its own, unchanged |
| SearchConditions.ClauseSays | crates/engine/src/search.rs:310-327 | the text lexes to the window, then AND and the normalised level if that facet is given, then AND and the service if that is given, then what each term adds |
| SearchConditions.ParsedField | crates/engine/src/search.rs:281-297 | a field name that reaches the SQL as code is `message` or `raw_body`, in some letter case |
| SearchConditions.ParsedCodeIsFixed | crates/engine/src/search.rs:281-307 | whatever a user types, the code of a condition is one of a few fixed texts |
| SearchConditions.QuotedFieldIsRead | crates/engine/src/search.rs:275-296 | a field with a quoted value is read whatever the value holds; an unknown field makes no condition |
| SearchReading.FieldTermIs | crates/engine/src/search.rs:275-296 | a field, either separator and a value, bare or in either kind of quotes and with whitespace anywhere around: message and raw_body, level, service in any letter case are read as such, another name makes no condition |
| SearchReading.OtherTermIsText | crates/engine/src/search.rs:298-307 | every other term is free text without its enclosing quotes |
| SearchReading.ConditionTokens | crates/engine/src/search.rs:287-296 | the code and the literal that each field condition adds |
| SearchReading.TextTokens | crates/engine/src/search.rs:302-307 | free text is looked for in message, service and raw body, or is the level in lower case |
| SearchReading.BareFieldWord | crates/engine/src/search.rs:242-296 | the bare words `level:error` and `service=api` and their like, from the query to the tokens they add |
| SearchReading.LevelsAreKnown | crates/engine/src/memtable.rs:28-35 | a known level is found in any letter case and within whitespace, any other text is UNKNOWN |
| SearchConditions.FindSeparator | crates/engine/src/search.rs:281-281 | the first colon or equals sign, if there is one |
| NodeClient.NothingUnaccounted | sdk/node/src/logger.ts:125-199 | over any run of track, flush and answers: tracked = delivered + dropped + in flight + queued, the queue within its cap, delivered records a duplicate-free subsequence of those tracked, in order |
| NodeClient.StepKeepsInv | sdk/node/src/logger.ts:125-199 | what every call and every answer keeps |
| NodeClient.GreplogClient.TrackRecord | sdk/node/src/logger.ts:125-147 | push, drop the oldest when over the cap, flush when the batch is full |
| NodeClient.GreplogClient.Flush | sdk/node/src/logger.ts:155-164 | takes the whole queue into one request, at most one at a time |
| NodeClient.GreplogClient.OnAnswer | sdk/node/src/logger.ts:166-186 | 2xx delivers, 429, 5xx and network failure requeue, anything else drops and counts |
| NodeClient.GreplogClient.RequeueBatch | sdk/node/src/logger.ts:192-199 | the batch goes back in front of the queue and the oldest beyond the cap are dropped and counted |
| NodeClient.OutcomeOfAnswer | sdk/node/src/logger.ts:166-186 | by status: 200 to 299 delivers the batch, 429 and 500 and above and no answer put it back in front, any other drops and counts it |
| NodeClient.OverflowDropsTheOldest | sdk/node/src/logger.ts:192-199 | put back over the cap, the oldest records go |
| NodeClient.FullBatchGoesOut | sdk/node/src/logger.ts:125-164 | with no request out, the record that fills a batch sends the whole queue |
| NodeClient.NextBatchGoesOut | sdk/node/src/logger.ts:155-186 | once a request is answered and done with, the next flush sends what is queued |
| NodeClient.QueueIsNewest | sdk/node/src/logger.ts:125-199 | at every moment of every run the queue is the newest records tracked, without a gap |
| GoClient.NothingUnaccounted | sdk/go/greplog/client.go:159-218 | over any run: records taken = delivered + dropped + pending, delivered ones a duplicate-free subsequence in order, and an idle backlog below the batch size |
| GoClient.StepBounds | sdk/go/greplog/client.go:165-188 | after every attempt with something to send the backlog is within its cap, and while retrying only ticks or shutdown send |
| GoClient.BacklogIsBounded | sdk/go/greplog/client.go:220-230 | the backlog exceeds its cap by no more than what arrived since the last attempt |
| GoClient.Client.Flush | sdk/go/greplog/client.go:232-269 | what is forgotten, delivered and counted for each outcome of a request |
| GoClient.Client.Cap | sdk/go/greplog/client.go:220-230 | keeps the newest records within the cap and counts the rest |
| GoClient.Client.TrySend | sdk/go/greplog/client.go:177-188 | one attempt: empties the backlog or starts retrying, then caps it |
| GoClient.OutcomeOfAttempt | sdk/go/greplog/client.go:232-269 | by status: 200 to 299 delivers the backlog, 429 and 500 and above and no response keep it, any other status or an unsendable batch drops and counts it |
| GoClient.OverflowDropsTheOldest | sdk/go/greplog/client.go:220-230 | a backlog over its cap keeps the newest records, as many as the cap allows |
| GoClient.BacklogIsNewest | sdk/go/greplog/client.go:159-230 | at every moment of every run the backlog is the newest records taken, without a gap |
| GoClient.Client.WorkerLoop | sdk/go/greplog/client.go:159-218 | the select loop over received records, ticks and shutdown |

## Left out

- Arrow builders, Parquet encoding and compression, DataFusion planning and execution: a batch is a sequence of rows, a chunk its rows, and a tier's SQL query its reference filter, sort or group.
- HTTP handlers, the live tail broadcast, embedded assets, command-line output, uninstall, statistics walking, the dashboard, the Python and Rust clients: I/O, presentation, or no exact accounting to prove.
- Level normalisation when a record enters the memtable (`crates/engine/src/memtable.rs:76`): records pass through the write path unchanged. It is modelled where a search level is read.
- A published Parquet chunk is taken as stored: the flusher does not fsync it before the rows are confirmed (`crates/engine/src/storage.rs:84-86`), and the model does not cover losing it to a power failure.
- ZeroLoss.NoAcknowledgedRecordIsLost: takes Parquet as a bag that only grows. The code takes rows out of it in two ways: a purge removes expired days (`Retention.PurgeIsExact`), and a flush whose file number is in use writes over that chunk (`Storage.FlushLosesNothingIff`). A flush that succeeds is taken to store every row, which `Storage.FlushAddsTheBatch` shows for a clock that stays on one day and `FlushClock.MidnightIsHarmlessIff` for any.
- In runs with restarts, crashes cut a log at a record boundary; the byte level, with torn records, is `RecordCodec.SyncedRecordsSurvive` and `RecordCodec.AppendBehindTornRecord`. Partial records left in mid-file by a failed write are not modelled.
- Clocks: whether the flush interval has passed is an input of each turn of the MemTable worker; ticks and answers are inputs of the clients.
- File operations are atomic and ordered; unsynced renames are not reordered by the filesystem.
- Hand-off sends and batch building succeed; lock poisoning, thread panics and the fallback loop without a runtime (`crates/engine/src/worker.rs:213-219`) are not modelled.
- Deadlock freedom and liveness of the bounded channels: claims are about safety only.
- Wrap-around of the 64-bit counters and of `i64` sums in aggregates.
- A huge length prefix makes the real decoder allocate; here it is simply end of log.
- WalWorker.WalState.Open: the original skips a sealed file it cannot read, where replay has failed before and ended the boot; the model boots only from files both can read.
- WalWorker.Disk.AppendNoSync: a record that fails to be written leaves no bytes, where the original may leave some of them.
- WritePath.Reclaimable: the counts compared are unbounded, where the source's are `u64`.
- Compaction.HiddenRoundTrip: names are non-empty; the special name `..` is not a file here.
- Compactor.Partition.NeedsSweep: decides about one directory; the walk into subdirectories has no decision of its own.
- Compactor.Partition.MergeableFiles: a chunk's first timestamp is taken from its rows, not from footer statistics, so an unreadable footer is not modelled.
- Compactor.Partition.CompactPartition: nothing else touches the directory while it runs; arrivals between operations are in `CompactionSafety` and `CompactionSweeps`.
- Storage.Flusher.Flush: one date serves as "now" for the whole flush; `FlushClock` has the clock read again for every row and pass, on values. The dropped service column is not modelled: rows keep their service.
- StoreLife.StoreShowsWhatIsOwed: chunk and `.part` names are not in use when a flush or a merge takes them, a recovery pass runs to its end and is one that does no harm, and a purge removes every file it should. What happens otherwise is exact in `Storage.FlushLosesNothingIff`, `CompactionLimits.InterruptedRollback` and `PartitionLife.RecoveredIsGood`; purges with files that stay are in `StoreRuns`. A flush takes effect at once; the chunk it is writing counts as a stray `.part` if it is to be seen.
- Retention.WalkForDayPartitions: directories exist by the files below them, so an expired one that is empty is not found.
- Retention.Purger.PurgeExpired: empty directories are neither removed nor counted; a cutoff the date library cannot represent ends the sweep, as the panic does.
- Pruning.PartitionPredicate: the clause is a value, not its SQL text; directory names are compared as numbers, which is how the table declares its partition columns (`crates/engine/src/query.rs:191-196`).
- SearchAggregate.MergedTiersAnswer: the slot of a null is taken to hold zero, which is what the column libraries write there but do not promise.
- SearchConditions.WhereClauseLexes: states where literals begin and end, not what `ILIKE` matches; wildcards in user text are not escaped by the original. The formatted cutoff is a parameter without quotes.
- SearchRows.PageShowsTheReference: rows that share a timestamp may change places between pages, as in the original; only their timestamps are fixed.
- NodeClient.NothingUnaccounted: delivered means answered with success; a request accepted but answered by a network failure is sent again.
- GoClient.Client.WorkerLoop: the channel's own capacity and what is dropped before it are not part of the loop.
