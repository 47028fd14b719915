# Nekotrans transfer model

Nekotrans moves files between a PC and an Android phone as chunks over two lanes, ADB and Wi-Fi, and
has to survive pauses, crashes and lost answers. This project models the parts of it where that is
decided and states what they promise, for every input, every run and every interleaving.

- `Chunks`, `Scheduler`, `Metrics`, `Checkpoint`, `Task`: cutting files, dealing chunks to two queues,
  the counters, the checkpoint text, and one task's state with every engine call as a function on it.
- `Reading`: which texts are checkpoints, and what they say, read off their lines.
- `EngineRuns`, `CrashRuns`, `CommitRuns`: what every call keeps, what holds after any run in which calls,
  handed back leases, failing and torn saves, crashes and recoveries are mixed, and where each completed
  index in it comes from. A world is the task in memory, if there is one, the leases its workers hold and
  the checkpoint file.
- `CutSaves`, `TornRuns`: a save empties the file and then writes it, so it can leave any prefix of its
  text: what each prefix reads as, and what is lost or invented by it.
- `CallEffects`, `WorkRuns`, `RecoveryRuns`: what each call does to a task, said without the functions that
  do it; and over runs, that what the workers report is recorded, stays and completes the task, and what a
  recovery brings back.
- `Engine`: the mutable engine, each method proved against those functions.
- `Negotiation`, `Dual`: the chunk size the files of a Dual task agree on, and the same-file protocol as
  a state machine of two lanes over one temporary file, with attempts that are interrupted and resumed.
- `DualHoles`, `DualRepeat`: when the length of the file is proof enough of a chunk, and when a Dual attempt
  may be repeated over a finished file.
- `DualRecords`, `DualLanes`: what an attempt records, how its lanes stop and batch, and that a file is sent
  once.
- `DualCalls`: the phone calls behind that machine's Wi-Fi turns, shown to do what the turns say.
- `Agent`, `WifiPush`, `PushOutcome`, `WifiRepeat`: the phone's file handlers, pushing chunks to them over a
  channel that loses requests and answers, when such a push succeeds, and sending a whole file over whatever
  earlier transfers left.
- `PathArg`, `Base64`, `Frames`, `Bundle`, `AdbPush`: the formats both ends must agree on, bundles of
  small files, and ADB part files.

Functions say what is computed; classes and methods follow the loops and fields of the program and are
tied to the functions by their contracts. What the outside does is a parameter: how a write ended
(`save`), the time (`now`), which request or answer is lost (`fates`), which turn comes next.

Promises that do not hold of the code as written are stated with their exact condition:

- A commit keeps counters and recomputation equal only for true descriptors
  (`EngineRuns.CommitKeepsCountersIff`); the record made for a bundled file is one only for
  single-chunk files (`EngineRuns.BundleRecordIff`).
- The checkpoint text is faithful only for printable entries (`Checkpoint.RoundTripIff`).
- A save that breaks off can lose commits that were on disk, and can invent some: `CutSaves.CutReadsIff`
  says for every prefix of every text when it is still a checkpoint and which one, `CutSaves.InventsIff`
  when it claims a chunk that was never recorded, `CutSaves.StillThereIff` which chunks survive, and
  `CrashRuns.TornSoundIff` when a task may be recovered from it. Without torn saves nothing on disk is
  ever lost (`CrashRuns.DurableStays`).
- `max_in_flight_chunks_per_lane` is not a cap per lane, whatever its name says:
  `Scheduling.NeverPassedIff` is the condition over all runs, `Scheduling.CapHoldsIff` that of one lease,
  and `Scheduling.IdleIff` states what the limit does.
- A completed task does not stay so: asked for another lease it is running again, and completed at the next
  report (`CallEffects.CompletedStays`, `WorkRuns.WorkersFinish`).
- A chunk confirmed by the length of the file need not be there: `WifiPush.OkIsTrueIff` gives the exact
  condition for one push, `DualHoles.LengthProvesIff` that for all attempts of the Dual protocol, with
  whatever splits they choose.
- Trusting the remembered chunks after reading a few of them back is right for every file on the phone
  only if there are no others: `Dual.ResumeSafeIff`. `Dual.CheckIsFooled` is a file that fools the check.
- Sending a file over a finished or a partial one can spoil it, also when that one is the source already:
  `WifiRepeat.FileArrivesIff`, `WifiRepeat.RepeatSafeIff` and `DualRepeat.RepeatKeepsIff` have the
  conditions, and in each module `RepeatLoses` names a file that is spoilt.
- A Dual attempt removes old files but ignores a failed removal: `Dual.Converges` says what a leftover
  that is too long does.
- A bundle is lossless only without a clash of temporary names (`Bundle.BundleIsLossless`).
- Part files reassemble in order only up to 10^8 of them (`AdbPush.PartsInOrderIff`), and only from a
  directory without wrong parts of the right size (`AdbPush.ReassemblesIff`).

The runs of `CrashRuns` rest on what the program's callers keep to and the code does not check: at most
2^32 chunks per file, descriptors of the cut, leases handed back once, and a new chunk size only while
nothing is committed or leased. Task ids are free of newlines and do not end in a carriage return. Where
a run recovers a task from a torn file, `CrashRuns.EveryRun` speaks of it if the tear is a clean one in
the sense of `CrashRuns.TornSoundIff`.

## Model

| member | source | states |
|---|---|---|
| Chunks.SplitIntoChunks | crates/transfer-core/src/models.rs:123-153 | the loop returns exactly the sequence of canonical chunks |
| Chunks.Tiling | crates/transfer-core/src/models.rs:123-153 | the chunks lie end to end from 0 to the file size, none empty unless the file is |
| Chunks.ChunkOfByte | crates/transfer-core/src/models.rs:123-153 | each byte position lies in exactly one chunk, the one its quotient names |
| Chunks.IndicesDistinctIff | crates/transfer-core/src/models.rs:146 | indices truncated to 32 bits stay distinct if and only if there are at most 2^32 chunks |
| Chunks.CutAndGlue | crates/transfer-core/src/models.rs:123-153 | gluing the chunks of any byte sequence back gives the sequence |
| Chunks.WorkersAgreeWithCore | apps/desktop/src-tauri/src/lib.rs:4139-4152 | a worker counts as many chunks as the core if and only if there are fewer than 2^32, and every descriptor it builds is the core's |
| Chunks.SameRangeIff | apps/desktop/src-tauri/src/lib.rs:4139-4152 | two chunk sizes give an index the same bytes if and only if they are equal or both hold the whole file in chunk 0 |
| Scheduling.Scheduler.NewWithCompleted | crates/transfer-core/src/scheduler.rs:51-101 | the constructor builds the specified deal |
| Scheduling.DealIsPartition | crates/transfer-core/src/scheduler.rs:51-101 | the two queues together are, as a multiset, exactly the uncompleted chunks; nothing is in flight; a single-lane mode leaves the other queue empty |
| Scheduling.RestMember | crates/transfer-core/src/scheduler.rs:66-76 | a chunk is dealt if and only if it is in the cut of its file and its index is not completed |
| Scheduling.RestDistinct | crates/transfer-core/src/scheduler.rs:66-76 | no chunk is dealt twice |
| Scheduling.DualBalance | crates/transfer-core/src/scheduler.rs:80-96 | in Dual mode a large file's chunks differ by at most one between the lanes, and the k-th small file goes whole to the lane of k's parity |
| Scheduling.QueuesInOrder | crates/transfer-core/src/scheduler.rs:51-101 | both queues of a new scheduler hold their chunks in the order of the files and of the chunks in them |
| Scheduling.Scheduler.NextLease | crates/transfer-core/src/scheduler.rs:103-118 | the mutable call is the specified lease |
| Scheduling.Scheduler.LeaseFrom | crates/transfer-core/src/scheduler.rs:132-161 | the mutable fallback is the specified one |
| Scheduling.Scheduler.CompleteLease | crates/transfer-core/src/scheduler.rs:120-124 | one less in flight on that lane, never below zero |
| Scheduling.Scheduler.IsDrained | crates/transfer-core/src/scheduler.rs:126-130 | true if and only if both queues are empty and nothing is in flight |
| Scheduling.IdleIff | crates/transfer-core/src/scheduler.rs:103-161 | nothing is leased if and only if both lanes are at the limit or both queues are empty |
| Scheduling.LeaseOrder | crates/transfer-core/src/scheduler.rs:103-161 | whose first chunk is leased: the preferred lane's if and only if it has one and is below the limit, or the other is and has none; the other lane's if and only if it has one and is below the limit while the preferred one is not, or the preferred one is and has none |
| Scheduling.LeaseMovesOne | crates/transfer-core/src/scheduler.rs:132-161 | a lease takes the first chunk of its lane's queue, adds one to that lane's count and changes nothing else |
| Scheduling.SingleLaneLeases | crates/transfer-core/src/scheduler.rs:132-161 | with the other queue empty every lease carries this lane, whatever was preferred |
| Scheduling.CapHoldsIff | crates/transfer-core/src/scheduler.rs:103-161 | a lease stays within its lane's limit if and only if the first queue it looked at had a chunk or the other lane was below the limit as well |
| Scheduling.NeverPassedIff | crates/transfer-core/src/scheduler.rs:103-161 | from an idle scheduler, over all runs of leases and returns, no lane ever passes the limit if and only if the limit is zero or neither queue is longer than it |
| Scheduling.SingleModeIsUncapped | crates/transfer-core/src/scheduler.rs:51-161 | in a single-lane mode with a limit above zero, a new scheduler answers every request until no chunk is left, so as many are in flight as were asked for |
| Scheduling.TwoLeasesPassOne | crates/transfer-core/src/scheduler.rs:51-161 | concrete task with limit 1 over ADB: two leases from its new scheduler, two chunks in flight |
| Checkpoint.EscapeIsCharMap | crates/transfer-core/src/checkpoint.rs:432-437 | the three replacement passes equal one map over the characters |
| Checkpoint.EscapeIsSafe | crates/transfer-core/src/checkpoint.rs:432-437 | an escaped string has no newline and no bar |
| Checkpoint.UnescapeText | crates/transfer-core/src/checkpoint.rs:439-460 | the loop computes the specified unescaping |
| Checkpoint.UnescapeEscape | crates/transfer-core/src/checkpoint.rs:432-460 | unescaping undoes escaping on every string |
| Checkpoint.UnescapeKeepsIff | crates/transfer-core/src/checkpoint.rs:439-460 | unescaping leaves a text as it is if and only if no backslash in it stands before an n, a p or a backslash; otherwise it gets shorter |
| Checkpoint.NamesParse | crates/transfer-core/src/checkpoint.rs:358-430 | every printed direction, mode, state, lane and flag parses back |
| Checkpoint.LanesParse | crates/transfer-core/src/checkpoint.rs:160-185 | the lane map of any file parses back from its text |
| Checkpoint.FileParses | crates/transfer-core/src/checkpoint.rs:160-290 | a file line parses to its record, with empty digests read as absent |
| Checkpoint.SerializeEntry | crates/transfer-core/src/checkpoint.rs:137-196 | the printing loop gives the specified text |
| Checkpoint.DeserializeEntry | crates/transfer-core/src/checkpoint.rs:198-350 | the parsing loop gives the specified result, errors included |
| Checkpoint.PrintThenParse | crates/transfer-core/src/checkpoint.rs:137-350 | for every entry with a newline-free id, printing and parsing gives exactly its normal form |
| Checkpoint.RoundTripIff | crates/transfer-core/src/checkpoint.rs:137-350 | an entry comes back unchanged if and only if ids and flags agree, the id has no newline, id and roots do not end in CR and no digest is the empty string |
| Reading.ReadsIff | crates/transfer-core/src/checkpoint.rs:198-350 | any text is a checkpoint if and only if its file lines parse and the last line of each of the twelve keys is there with a value of its kind |
| Reading.ReadsAs | crates/transfer-core/src/checkpoint.rs:198-350 | and then each field is what the last line with its key says, and the files are the file lines in order |
| Counters.RebuildMetrics | crates/transfer-core/src/engine.rs:804-858 | the accumulating loops compute the specified counters |
| Counters.PushAndSort | crates/transfer-core/src/engine.rs:745-746 | pushing a new index on a strictly ascending list and sorting keeps it strictly ascending and adds exactly that index |
| Counters.FindIsCanonical | crates/transfer-core/src/engine.rs:828 | finding a chunk by index gives the canonical chunk, or nothing past the end |
| Counters.CountCommitted | crates/transfer-core/src/engine.rs:804-858 | recomputing after a commit adds exactly that chunk on that lane |
| Counters.CountBounds | crates/transfer-core/src/engine.rs:804-858 | recomputed bytes split over the lanes and stay below the end of the last completed chunk |
| Counters.OldRecords | crates/transfer-core/src/engine.rs:833-846 | records without lanes count for the only lane of the mode, and in Dual mode even chunks for ADB and odd ones for Wi-Fi |
| Counters.Pigeonhole | crates/transfer-core/src/engine.rs:779-793 | strictly ascending indices below a bound are as many as the bound only when they are all of them |
| EngineRuns.CommitKeepsCountersIff | crates/transfer-core/src/engine.rs:728-758 | a commit keeps the live counters equal to a recomputation if and only if it changes nothing or names a chunk of the cut with its true length |
| EngineRuns.BundleRecordIff | apps/desktop/src-tauri/src/lib.rs:1770-1787 | recording a bundled file as chunk 0 with the whole length is a true record if and only if the file is a single chunk |
| EngineRuns.RecommitChangesNothing | crates/transfer-core/src/engine.rs:728-742 | committing a chunk again, on either lane, changes nothing at all |
| EngineRuns.EnoughMeansAll | crates/transfer-core/src/engine.rs:779-793 | the length test holds if and only if every chunk of every file is done |
| EngineRuns.DrainedMeansAll | crates/transfer-core/src/engine.rs:236-243 | empty queues and nothing in flight leave no chunk uncommitted |
| EngineRuns.CountersAddUp | crates/transfer-core/src/engine.rs:750-755 | committed is ADB plus Wi-Fi, at most the total, and equal to it when everything is done |
| EngineRuns.LeaseKeeps | crates/transfer-core/src/engine.rs:386-418 | what leaves a queue is outstanding from then on, so coverage is kept |
| EngineRuns.ReturnKeeps | crates/transfer-core/src/engine.rs:420-443 | handing back a lease whose chunk is done keeps every chunk covered |
| EngineRuns.TickTakes | crates/transfer-core/src/engine.rs:220-234 | with nothing leased outside, each step of a tick takes exactly one chunk while there is one |
| EngineRuns.TickCompletesIff | crates/transfer-core/src/engine.rs:190-251 | a tick completes a running task if and only if its steps are at least the queued chunks (and it may lease at all) |
| EngineRuns.CallKeeps | crates/transfer-core/src/engine.rs:190-494 | every call of the engine keeps the whole invariant and only adds completed indices |
| EngineRuns.FinishKeeps | crates/transfer-core/src/engine.rs:420-443 | so does handing back an outstanding lease |
| CallEffects.CommitIsRecorded | crates/transfer-core/src/engine.rs:358-384 | a cancelled or failed task refuses a commit; any other answers with a save and has the chunk of a known file done afterwards, on the given lane and with its length and one chunk added to the totals and that lane's bytes if it was not done before, and nothing else changed |
| CallEffects.LeaseIsRecorded | crates/transfer-core/src/engine.rs:420-443 | a finished lease does the same for its chunk and lane, and its lane has one less in flight |
| CallEffects.FileIsRecorded | crates/transfer-core/src/engine.rs:445-474 | a whole-file record leaves every index of the file done, those done before on the lane they had, and raises the counters by exactly the others; no other file and no queue changes |
| CallEffects.TickRecords | crates/transfer-core/src/engine.rs:220-234 | each step of a tick records the first chunk of a queue over that queue's lane, ADB on even and Wi-Fi on odd steps where that lane has a chunk and room |
| CallEffects.TickEnds | crates/transfer-core/src/engine.rs:213-243 | a tick that is neither refused nor finds the task paused leaves it completed if and only if its queues are empty and nothing is in flight, and running otherwise |
| CallEffects.LeaseIs | crates/transfer-core/src/engine.rs:386-418 | a lease request sets the task running and records nothing; what is leased leaves the front of its lane's queue and is in flight there |
| CallEffects.NewTaskIs | crates/transfer-core/src/engine.rs:91-124 | a new task is pending, with its settings and items copied into an empty checkpoint and nothing counted or in flight |
| CallEffects.ReconfiguredIs | crates/transfer-core/src/engine.rs:631-675 | another chunk size is set in both copies of the settings, zero as one; what is not done is queued anew, nothing is in flight, records and state stay |
| CallEffects.CompletedIff | crates/transfer-core/src/engine.rs:358-384 | after a commit with the test or a whole-file record that is not refused, the task is completed if and only if every chunk of every file is done, and otherwise running; after a commit without the test it is running |
| CallEffects.LeaseCompletedIff | crates/transfer-core/src/engine.rs:420-443 | after an outstanding lease was handed back the task is completed if and only if every chunk is done, and otherwise running |
| CallEffects.RefusedIff | crates/transfer-core/src/engine.rs:190-494 | for every call, exactly the states in which it is refused, and that a refusal changes nothing; an accepted request sets exactly its state and error |
| CallEffects.BackToRunning | crates/transfer-core/src/engine.rs:253-336 | pausing and resuming a running task gives it back unchanged, failing, retrying and resuming it as well but for the error; between them it is paused |
| CallEffects.PausedWaits | crates/transfer-core/src/engine.rs:190-418 | through any ticks, lease requests, pauses and retries a paused task leases and moves nothing, and resuming then makes it run as it is |
| CallEffects.StoppedStays | crates/transfer-core/src/engine.rs:253-494 | a cancelled task stays so and records nothing unless a failure is recorded, a failed one unless it is cancelled or retried |
| CallEffects.CompletedStays | crates/transfer-core/src/engine.rs:190-418 | no request of the user changes a completed task, but a lease request sets it running again |
| CrashRuns.EveryRun | crates/transfer-core/src/engine.rs:91-605 | after any run, from nothing, of creating or recovering the task, calls, returned leases, saves that fail or tear, and crashes, in which no task was recovered from a file that lies: counters equal their recomputation and split over the lanes, indices ascend and only they have lanes, every chunk is committed, queued or leased and none twice, in-flight counts are the outstanding leases, and Completed means every index of every file and all bytes |
| CrashRuns.UntornRun | crates/transfer-core/src/engine.rs:91-605 | in a run without torn saves every recovery is such a one, and each completed index has its lane |
| CrashRuns.TornSoundIff | crates/transfer-core/src/checkpoint.rs:68-350 | what a torn save leaves of a sound entry is a sound entry without invented chunks if and only if the save broke off where the text is refused, between file lines, in the save time, in the last two fields of a file line, or where the line claims only recorded indices, and all of them if the task is completed |
| CrashRuns.CompletedMeansEverything | crates/transfer-core/src/engine.rs:236-243 | when the state is Completed each file's list is exactly 0 to n-1 and committed bytes are the total |
| CrashRuns.RecoveryRefinesLive | crates/transfer-core/src/engine.rs:526-605 | printing, parsing and recovering the checkpoint of any reachable task gives the same counters, the same indices on the same lanes, nothing in flight, no error, queues with each uncommitted chunk exactly once, and a task that is completed or cancelled as it was and paused otherwise |
| CrashRuns.DurableStays | crates/transfer-core/src/checkpoint.rs:68-79 | while no save tears, a commit that reached the file is never lost or moved to another lane by any later calls, saves that fail before they begin, crashes and recoveries |
| CommitRuns.EveryIndexWasCommitted | crates/transfer-core/src/engine.rs:190-605 | after any run in which no task was recovered from a file that lies, every completed index was committed by an earlier step of that run: a commit of that chunk or of its file, a tick with the chunk queued, or its lease handed back |
| WorkRuns.AskedIsCommitted | crates/transfer-core/src/engine.rs:358-474 | in any reachable state, a commit that a task which can still record is asked for, by a commit, a whole-file record or a finished lease, is in the task after the step, on the lane asked for unless it was there before, however the save ends |
| WorkRuns.SavedCommitStays | crates/transfer-core/src/engine.rs:358-605 | once such a commit was saved, it is in the file and in the task, on its lane and at its chunk size, after any later calls, saves that fail before they begin, crashes and recoveries |
| WorkRuns.WorkersFinish | crates/transfer-core/src/engine.rs:386-474 | over any run of workers' steps that ends in a report, the task is completed if and only if every chunk is done, and it is once every chunk was done before or has been reported on the way |
| RecoveryRuns.CrashAndOpen | crates/transfer-core/src/engine.rs:526-605 | from any state, a crash and opening from a readable file bring back its settings, records and items, with no lease, no error and nothing in flight; the task is completed or cancelled if and only if the file's was, and otherwise paused |
| RecoveryRuns.WaitsInRuns | crates/transfer-core/src/engine.rs:190-418 | such a paused task waits through any run of ticks, lease requests, pauses and retries with nothing leased, queued or recorded, and is then resumed to running |
| RecoveryRuns.ItemsComeBack | crates/transfer-core/src/engine.rs:539-560 | in any run the items recovered from the printed checkpoint have the path, size, time and digest of the live ones, an empty digest read as none |
| CutSaves.CutReadsIff | crates/transfer-core/src/checkpoint.rs:68-350 | every prefix of the text of every entry: exactly when it is read as a checkpoint, by the line and field it ends in, and then as exactly which one |
| CutSaves.InventsIff | crates/transfer-core/src/checkpoint.rs:202-290 | a prefix claims a chunk that was never recorded if and only if it ends in the third to fifth field of a file line and the number then read as an index is not one of that file's |
| CutSaves.StillThereIff | crates/transfer-core/src/checkpoint.rs:202-290 | a recorded index is still in a prefix if and only if its file's line is before the cut, or cut in its last two fields, or cut where the number read as an index is this one |
| CutSaves.TimeBecomesIndex | crates/transfer-core/src/checkpoint.rs:215-240 | a save that breaks off inside any file's modification time leaves a checkpoint in which the digits so far are that file's one completed chunk |
| TornRuns.AfterTornSave | crates/transfer-core/src/checkpoint.rs:68-79 | after any call whose save tore at any place, a crash and a new start, the task is the one the prefix describes, or a new one when it describes none |
| TornRuns.TornLossIff | crates/transfer-core/src/checkpoint.rs:68-79 | so a recorded chunk survives that if and only if the cut falls behind it |
| TornRuns.TornSaveInvents | crates/transfer-core/src/checkpoint.rs:215-240 | for every task whose first file has a modification time of two digits or more there is a run without any commit after which that file counts the first two digits as a completed chunk |
| TornRuns.ChunkSeventeen | crates/transfer-core/src/checkpoint.rs:215-240 | so for a first file modified between November 2023 and January 2027 chunk 17 can count as completed though nothing was sent |
| Engine.EngineTask.CommitChunk | crates/transfer-core/src/engine.rs:728-777 | the method is the specified commit, and changes nothing when it answers false |
| Engine.EngineTask.MarkCompletedIfDrained | crates/transfer-core/src/engine.rs:779-801 | the loop is the specified completion test |
| Engine.EngineTask.Tick | crates/transfer-core/src/engine.rs:190-251 | the loop over steps is the specified tick, refusals included |
| Engine.EngineTask.RecordFile | crates/transfer-core/src/engine.rs:445-474 | the loop commits every chunk of the file; an unknown file is refused after the task was set running |
| Engine.EngineTask.Reconfigure | crates/transfer-core/src/engine.rs:631-675 | scheduler and counters are rebuilt for the new size |
| Engine.TransferEngine.CreateTask | crates/transfer-core/src/engine.rs:91-124 | the task is known only when its first save worked |
| Engine.TransferEngine.TickTask | crates/transfer-core/src/engine.rs:190-251 | only this task and its file change, as the specified call and save say, and an unknown task is refused |
| Engine.TransferEngine.PauseTask | crates/transfer-core/src/engine.rs:253-273 | likewise for pausing |
| Engine.TransferEngine.ResumeTask | crates/transfer-core/src/engine.rs:275-295 | likewise for resuming |
| Engine.TransferEngine.CancelTask | crates/transfer-core/src/engine.rs:297-315 | likewise for cancelling |
| Engine.TransferEngine.RetryTask | crates/transfer-core/src/engine.rs:317-336 | likewise for retrying |
| Engine.TransferEngine.RecordChunkCommit | crates/transfer-core/src/engine.rs:338-384 | likewise for recording a commit, with or without the completion test |
| Engine.TransferEngine.RecordFileComplete | crates/transfer-core/src/engine.rs:445-474 | likewise for recording a whole file |
| Engine.TransferEngine.LeaseRealChunk | crates/transfer-core/src/engine.rs:386-418 | likewise for leasing, which is not saved |
| Engine.TransferEngine.CompleteChunkLease | crates/transfer-core/src/engine.rs:420-443 | likewise for completing a lease |
| Engine.TransferEngine.RecordTaskFailure | crates/transfer-core/src/engine.rs:476-495 | likewise for a failure |
| Engine.TransferEngine.ReconfigureChunkSize | crates/transfer-core/src/engine.rs:631-675 | likewise for a new chunk size |
| Engine.TransferEngine.RecoverTask | crates/transfer-core/src/engine.rs:526-605 | a task in memory is left alone; otherwise it is rebuilt from its file, or refused when the file is missing or malformed |
| Engine.TransferEngine.CreateOrRecoverTask | crates/transfer-core/src/engine.rs:136-150 | a task in memory is left alone, a readable checkpoint wins over the request, and otherwise the task is created |
| Engine.TransferEngine.DeleteTaskRecord | crates/transfer-core/src/engine.rs:617-629 | a running task is kept; another is forgotten even when its file cannot be removed |
| Engine.CallIsStep | crates/transfer-core/src/engine.rs:710-717 | a call on the engine, however its save ends, moves its task and file exactly as a step of the runs does, and no other file |
| Engine.AnswerIs | crates/transfer-core/src/engine.rs:687-717 | an error is a refusal or a save that failed; any other answer shows the task after the call, whose printed checkpoint is then what the file holds |
| Engine.FinishIsStep | crates/transfer-core/src/engine.rs:420-443 | likewise for handing back an outstanding lease |
| Engine.OpenIsStep | crates/transfer-core/src/engine.rs:136-150 | likewise for creating or recovering a task that is not in memory |
| Negotiation.NegotiatedIsMax | apps/desktop/src-tauri/src/lib.rs:539-548 | the negotiated size is the largest any file wants |
| Negotiation.NegotiationIsStable | apps/desktop/src-tauri/src/lib.rs:539-556 | asked for the negotiated size, every file wants exactly it, so a later attempt changes nothing |
| Negotiation.FixpointIff | apps/desktop/src-tauri/src/lib.rs:4158-4167 | a file keeps a size if and only if it is between 8 and 64 MiB, at least 32 MiB for a file of 1 GiB and 64 MiB for one of 4 GiB |
| Negotiation.FewChunks | apps/desktop/src-tauri/src/lib.rs:4158-4167 | whatever was requested, a file below 4 GiB is cut into at most 128 chunks and a larger one into chunks of 64 MiB |
| Negotiation.WorkersNameEngineChunks | apps/desktop/src-tauri/src/lib.rs:4139-4167 | after negotiating, each worker's index names the engine's offset and length |
| Negotiation.WithoutNegotiation | apps/desktop/src-tauri/src/lib.rs:539-556 | past chunk 0 a worker and the engine mean the same bytes if and only if the engine's size is one the file keeps |
| Dual.OneOwner | apps/desktop/src-tauri/src/lib.rs:2057-2063 | each chunk has exactly one owner for every stride, and neither lane is idle |
| Dual.WifiShare | apps/desktop/src-tauri/src/lib.rs:2057-2063 | the Wi-Fi lane owns the second of every `stride` chunks, and of every two for a stride below two |
| Bytes.WritesCommute | apps/desktop/src-tauri/src/lib.rs:2117-2150 | writes of the two lanes to disjoint ranges commute |
| Dual.StepKeeps | apps/desktop/src-tauri/src/lib.rs:2073-2203 | every step of either lane, a pause and a late or half-done request keep the protocol's invariant, and record exactly the chunk whose record call succeeds in it |
| DualRecords.CommittedMeansPresent | apps/desktop/src-tauri/src/lib.rs:2117-2183 | after any attempts, in every prefix of every interleaving of the next, each recorded chunk has its exact bytes at its place unless the length of the file was all that spoke for it; and recorded are exactly the chunks remembered and those whose record call succeeded |
| DualRecords.AttemptRecords | apps/desktop/src-tauri/src/lib.rs:2175-2182 | once both lanes ended well every chunk came to its record call or was left out as remembered, and it is recorded if and only if it was remembered or that call succeeded |
| DualRecords.RecordsDecideNothing | apps/desktop/src-tauri/src/lib.rs:2175-2182 | two runs of the same turns that differ only in how record calls turn out end alike but for what is recorded |
| DualRecords.SmoothAttemptRecords | apps/desktop/src-tauri/src/lib.rs:2092-2203 | without failures or pauses, enough turns of each lane in any order end both well with the whole file recorded |
| DualRecords.SentOnce | apps/desktop/src-tauri/src/lib.rs:1881-1946 | after any attempts without a confirmation by length, once both lanes of one ended well with no record call failed and no finished file in the way, the next attempt sends nothing: whatever turns it takes, both files stay as they are |
| DualLanes.FailureIsHeard | apps/desktop/src-tauri/src/lib.rs:2101-2125 | a lane that fails asks the other to stop |
| DualLanes.PausedRunWindsUp | apps/desktop/src-tauri/src/lib.rs:2095-2173 | after a pause or a failure, whatever turns follow, nothing is recorded that was not under way then |
| DualLanes.AttemptBatches | apps/desktop/src-tauri/src/lib.rs:2140-2165 | in every prefix of every attempt the Wi-Fi lane sends full batches, but for the last of the file |
| DualLanes.TenGuards | apps/desktop/src-tauri/src/lib.rs:3983-4018 | which of ten remembered chunks are read back: the first, the last two, and the first and last of the Wi-Fi lane |
| DualLanes.FinishedFileIs | apps/desktop/src-tauri/src/lib.rs:1877-1887 | over a whole attempt the finished file goes if and only if nothing was remembered and removing it worked; the old temporary file likewise before the first turn |
| DualLanes.NothingReadNothingDone | apps/desktop/src-tauri/src/lib.rs:3903-3981 | with something remembered and no file to read it back from, neither lane ends well, nothing is recorded or forgotten, and nothing written but by late requests |
| Dual.Converges | apps/desktop/src-tauri/src/lib.rs:1881-1946 | after any interrupted attempts with any splits, once both lanes are Ok every chunk not taken on the file's length is in place; the file starts with the source if and only if those are too, and is it if and only if besides the leftover was no longer or was removed |
| Dual.ConvergesPlainly | apps/desktop/src-tauri/src/lib.rs:1881-1946 | when no attempt took a chunk on the file's length, both lanes Ok means that the file starts with the source, and that it is the source if and only if the leftover was no longer or was removed |
| Dual.ResumeSafeIff | apps/desktop/src-tauri/src/lib.rs:3903-4043 | for whatever file is on the phone, all that is not sent again after the guards were read back is there, if and only if every remembered chunk in range is itself a guard |
| Dual.FiveGuards | apps/desktop/src-tauri/src/lib.rs:3983-4018 | there are at most five guards, so more than five remembered chunks are never safe for every file |
| Dual.CheckIsFooled | apps/desktop/src-tauri/src/lib.rs:3903-4043 | a concrete file of seven chunks, all remembered, with a wrong one that is not sent again |
| Dual.TruncationNoticed | apps/desktop/src-tauri/src/lib.rs:3983-4018 | when the file ends before the last remembered chunk does, only chunks that are there are kept |
| Dual.SmoothRunEnds | apps/desktop/src-tauri/src/lib.rs:2092-2203 | without failures or pauses, enough turns of each lane in any order end both well |
| Dual.RunLeavesHoles | apps/desktop/src-tauri/src/lib.rs:2401-2454 | even with confirmations by length the file holds only source bytes and zeros |
| DualHoles.LengthProvesIff | apps/desktop/src-tauri/src/lib.rs:1829-1955 | from no file, over all attempts, each with any split of a given set, and all that can happen in them, both lanes ending well always means the source if and only if, for every split of the set, each Wi-Fi chunk other than the last of the file is all zeros |
| DualHoles.LengthIsNoProof | apps/desktop/src-tauri/src/lib.rs:4367-4376 | three bytes for which it does not |
| DualRepeat.RepeatKeepsIff | apps/desktop/src-tauri/src/lib.rs:1881-1955 | over any finished file, for any split and remembered chunks and all that can happen in the attempt, confirmations by the finished file's length among it: both lanes ending well and completing always leave the source if and only if the last chunk must be sent and all that may stay unsent is zeros, or the source is there already and everything, or all but the last chunk behind zeros only, is skipped; with late requests only in the first case |
| DualRepeat.RepeatLoses | apps/desktop/src-tauri/src/lib.rs:4335-4381 | the source finished on the phone and its first chunk remembered: a three-byte file that an attempt can spoil |
| DualCalls.FallbackIsTurns | apps/desktop/src-tauri/src/lib.rs:2418-2430 | the retry loop refines one turn of the fallback: a good turn, a late write and a bad one, or a confirmation |
| DualCalls.BatchIsTurns | apps/desktop/src-tauri/src/lib.rs:2401-2416 | however far a batch's stream gets, the phone's handler does what good turns for the whole frames, a late write for the part of the next and a bad turn do |
| Agent.AgentServer.AcceptFile | apps/android-agent/app/src/main/java/com/nekotrans/agent/AgentServer.kt:235-264 | starting a file forgets earlier acknowledgements and touches no file |
| Agent.AgentServer.Write | apps/android-agent/app/src/main/java/com/nekotrans/agent/AgentServer.kt:500-549 | the payload is written at its offset in the temporary file and the chunk acknowledged, or refused for another path |
| Agent.AgentServer.Status | apps/android-agent/app/src/main/java/com/nekotrans/agent/AgentServer.kt:551-596 | committed, on disk, mismatched or not, in that order of precedence |
| Agent.AgentServer.Stat | apps/android-agent/app/src/main/java/com/nekotrans/agent/AgentServer.kt:791-805 | the length of the file readers see |
| Agent.AgentServer.Finish | apps/android-agent/app/src/main/java/com/nekotrans/agent/AgentServer.kt:598-662 | the ways of completing a file, a rename that fails after the old file was deleted among them |
| Agent.StartForgets | apps/android-agent/app/src/main/java/com/nekotrans/agent/AgentServer.kt:235-264 | starting a file forgets every acknowledgement and keeps both files, so the phone then denies what it has no bytes of |
| Agent.WrittenOnce | apps/android-agent/app/src/main/java/com/nekotrans/agent/AgentServer.kt:500-549 | the first write of a chunk is answered as written, the next as known, with the same bytes in the file |
| Agent.FailedRenameRecovers | apps/android-agent/app/src/main/java/com/nekotrans/agent/AgentServer.kt:643-649 | after a failed rename readers see the temporary bytes, and completing again ends as it would have the first time |
| Agent.CompleteTwice | apps/android-agent/app/src/main/java/com/nekotrans/agent/AgentServer.kt:598-662 | completing hands readers exactly the temporary bytes; a second time changes nothing if and only if the file was not announced empty, or was |
| WifiPush.PushWifiChunkOnce | apps/desktop/src-tauri/src/lib.rs:4383-4423 | binary form, then text form, with every loss |
| WifiPush.PushWifiChunkWithRecovery | apps/desktop/src-tauri/src/lib.rs:4304-4381 | the retry loop against the phone object is the specified push |
| PushOutcome.PushOutcomeIff | apps/desktop/src-tauri/src/lib.rs:4304-4423 | for every phone, request and pattern of losses, exactly when the push returns each of its outcomes or the error, and what it leaves on the phone, from which forms were carried out and answered, which probe was answered, and whether the phone had the chunk or a file that long |
| PushOutcome.LostIsPushedAgain | apps/desktop/src-tauri/src/lib.rs:4343-4347 | a push that got lost, of a chunk the phone has nothing of, is pushed again when the phone says so, and then returns Ok with the bytes in place |
| PushOutcome.BinaryTakenIff | apps/android-agent/app/src/main/java/com/nekotrans/agent/AgentServer.kt:321-350 | the binary form is carried out if and only if the phone accepts the command line the PC builds for it |
| PushOutcome.TextTakenIff | apps/android-agent/app/src/main/java/com/nekotrans/agent/AgentServer.kt:1040-1060 | the text form is carried out if and only if its numbers fit and its line is at most 16384 bytes, so never with more than 12288 bytes of payload |
| PushOutcome.PassRecords | apps/desktop/src-tauri/src/lib.rs:1202-1262 | a pass has recorded exactly the chunks it came to that were not remembered, up to where it stopped |
| PushOutcome.SmoothPass | apps/desktop/src-tauri/src/lib.rs:1202-1262 | when nothing is lost a pass gets through and has recorded every chunk |
| WifiPush.OkIsTrueIff | apps/desktop/src-tauri/src/lib.rs:4304-4423 | for every pattern of lost requests and answers an Ok means the bytes are there, if and only if they already were, or the chunk was not acknowledged and the readable file was shorter than its end |
| WifiPush.PushIsOneOf | apps/desktop/src-tauri/src/lib.rs:4304-4423 | however often it was carried out, a push leaves the phone as it was or written once, and an Ok of an unchanged phone was said of an acknowledgement or a length |
| WifiPush.InOrderPush | apps/desktop/src-tauri/src/lib.rs:4304-4423 | when everything before has arrived, the temporary file stays a first part of the source and after an Ok reaches the end of the chunk |
| WifiPush.PushFile | apps/desktop/src-tauri/src/lib.rs:1202-1262 | the loop over the chunks is the specified pass |
| WifiPush.PassInOrder | apps/desktop/src-tauri/src/lib.rs:1202-1262 | a pass in order keeps that, and every recorded chunk within it |
| WifiRepeat.FileArrivesIff | apps/desktop/src-tauri/src/lib.rs:1135-1284 | whatever finished or temporary file an earlier transfer left: however many attempts were interrupted before, the first pass that gets through and is completed always leaves the source if and only if the temporary file is no longer than the source and right wherever the readable length confirms a chunk, or the source is there already in one chunk; so always when neither file is there |
| WifiRepeat.RepeatSafeIff | apps/desktop/src-tauri/src/lib.rs:1202-1284 | whatever finished or temporary file and whatever remembered chunks there are, for an empty file too: every pass that gets through and is completed leaves the source, for all losses, if and only if the temporary file is no longer than the source and right wherever a chunk may stay unsent, or the source is there already and all but at most the last chunk, behind zeros only, is remembered |
| WifiRepeat.RepeatLoses | apps/desktop/src-tauri/src/lib.rs:1202-1284 | a finished file of two bytes, equal to the source, with the first remembered: some pass spoils it |
| Base64.Base64Encode | apps/desktop/src-tauri/src/agent.rs:512-537 | the loop over groups of three computes the encoding |
| Base64.Base64Decode | apps/desktop/src-tauri/src/lib.rs:4643-4667 | the loop with its four-value buffer computes the decoding, errors included |
| Base64.RoundTrip | apps/desktop/src-tauri/src/lib.rs:4643-4679 | decoding an encoding gives back every byte sequence |
| Base64.WhitespaceIgnored | apps/desktop/src-tauri/src/lib.rs:4648 | whitespace inserted anywhere changes nothing |
| Base64.DecodesIff | apps/desktop/src-tauri/src/lib.rs:4643-4679 | a text decodes if and only if it has only legal bytes and a multiple of four of them |
| Base64.EncodedLength | apps/desktop/src-tauri/src/agent.rs:512-514 | four symbols for each begun group of three |
| Base64.TestVectors | apps/desktop/src-tauri/src/agent.rs:512-537 | the test vectors of RFC 4648, section 10 |
| PathArg.EncodePathArg | apps/desktop/src-tauri/src/agent.rs:499-510 | the loop computes the encoding |
| PathArg.ByteIs | apps/desktop/src-tauri/src/agent.rs:499-510 | which bytes stand for themselves, and that every other is a percent sign and two capital hexadecimal digits |
| PathArg.DecodePathArg | apps/android-agent/app/src/main/java/com/nekotrans/agent/AgentServer.kt:1239-1258 | the loop computes the decoding, malformed escapes included |
| PathArg.DecodesIff | apps/android-agent/app/src/main/java/com/nekotrans/agent/AgentServer.kt:1239-1258 | a text decodes if and only if two hexadecimal digits follow every percent sign |
| PathArg.EncodedIsOneWord | apps/desktop/src-tauri/src/agent.rs:499-510 | an encoded path has no space, tab or line end |
| PathArg.RoundTrip | apps/desktop/src-tauri/src/agent.rs:499-510 | every byte path comes back with its backslashes as slashes |
| PathArg.CommandAccepted | apps/android-agent/app/src/main/java/com/nekotrans/agent/AgentServer.kt:321-350 | the phone takes a push command if and only if the path is not empty, the numbers fit its signed types and the line is at most 16 KiB, and then reads what was sent |
| Frames.SendFrames | apps/desktop/src-tauri/src/agent.rs:377-397 | the sender writes exactly the frames, or stops after index and offset of the first payload of 2^32 bytes |
| Frames.HeaderIs | apps/desktop/src-tauri/src/agent.rs:377-397 | a concrete header, byte by byte |
| Frames.SignedBack | apps/android-agent/app/src/main/java/com/nekotrans/agent/AgentServer.kt:1094-1109 | a number is read as written if and only if it is below 2^31 or 2^63 |
| Frames.CopyExact | apps/android-agent/app/src/main/java/com/nekotrans/agent/AgentServer.kt:1075-1092 | pieces of any size end as one write; at the end of the stream what arrived is written |
| Frames.PushBatch | apps/android-agent/app/src/main/java/com/nekotrans/agent/AgentServer.kt:352-409 | the handler's loop is the specified intake, and gives up unanswered where that says |
| Frames.GivesUpIff | apps/android-agent/app/src/main/java/com/nekotrans/agent/AgentServer.kt:371-376 | the phone closes the connection without an answer if and only if the stream broke off inside a frame's header |
| Frames.BatchRoundTrip | apps/android-agent/app/src/main/java/com/nekotrans/agent/AgentServer.kt:352-409 | the phone takes a whole batch if and only if every frame is in range, and then has read exactly the batch, acknowledged its chunks, and its file is the writes in order |
| Frames.BrokenStream | apps/android-agent/app/src/main/java/com/nekotrans/agent/AgentServer.kt:371-395 | however far a stream got, whole frames are written in order, then at most a first part of the next; only whole ones are acknowledged |
| Bundle.SendFiles | apps/desktop/src-tauri/src/lib.rs:1440-1514 | the packing loop sends the specified bundles, also when paused, stopped by an unusable path or refused by the phone |
| Bundle.PackKeepsAll | apps/desktop/src-tauri/src/lib.rs:1440-1514 | sent and open bundles are exactly the files so far, in order; each bundle has at most 4096 files and 64 MiB; only larger files go alone |
| Bundle.ClosedOnlyWhen | apps/desktop/src-tauri/src/lib.rs:1462-1500 | a bundle is closed before the end only when the next file is over 64 MiB, or would be its 4097th, or would bring it over 64 MiB |
| Bundle.ManifestBack | apps/android-agent/app/src/main/java/com/nekotrans/agent/AgentServer.kt:1260-1299 | the phone parses a manifest to exactly the bundle's entries, if and only if sizes and times fit |
| Bundle.ReceiveBundle | apps/android-agent/app/src/main/java/com/nekotrans/agent/AgentServer.kt:434-487 | the handler's loop is the specified unpacking, with a directory that is not created or a rename that fails at any entry |
| Bundle.LengthIsChecked | apps/android-agent/app/src/main/java/com/nekotrans/agent/AgentServer.kt:434-487 | a bundle is placed file by file and then accepted if and only if the announced length is that of its payload |
| Bundle.DirectoryReplaces | apps/android-agent/app/src/main/java/com/nekotrans/agent/AgentServer.kt:437-447 | a directory entry takes the place of a file of its name, reads no payload and touches nothing else |
| Bundle.BundleAgain | apps/android-agent/app/src/main/java/com/nekotrans/agent/AgentServer.kt:411-498 | however a first attempt at a bundle ended, with its stream cut anywhere or the phone's storage failing at any entry, sending it again is accepted and leaves every file as it would have been without the first |
| Bundle.BundleIsLossless | apps/android-agent/app/src/main/java/com/nekotrans/agent/AgentServer.kt:411-498 | exactly the payload is read, and every file has its contents if and only if none has the name under which a later one is written |
| Bundle.OthersKept | apps/android-agent/app/src/main/java/com/nekotrans/agent/AgentServer.kt:434-487 | files outside the bundle keep their contents |
| Bundle.EverythingArrives | apps/desktop/src-tauri/src/lib.rs:1440-1514 | however a list of distinct clean paths was packed, the phone takes every manifest and payload, and all contents arrive if and only if no file has the name under which a later one is written |
| Bundle.ClashLoses | apps/android-agent/app/src/main/java/com/nekotrans/agent/AgentServer.kt:448-480 | two concrete paths with which the bundle is accepted and the first file is gone |
| AdbPush.SkipLocalBytes | apps/desktop/src-tauri/src/adb.rs:889-902 | skipping moves the read position by exactly the length |
| AdbPush.WriteTempChunk | apps/desktop/src-tauri/src/adb.rs:913-947 | writing a part copies exactly the bytes at the read position |
| AdbPush.PushFileChunks | apps/desktop/src-tauri/src/adb.rs:778-863 | the read position is at the start of every chunk whether those before were skipped or pushed, so the loop is the specified push |
| AdbPush.PartsInOrderIff | apps/desktop/src-tauri/src/adb.rs:973-975 | part names are listed in the order of their numbers if and only if there are at most 10^8 |
| AdbPush.CatIsSourceIff | apps/desktop/src-tauri/src/adb.rs:949-963 | parts of the right sizes, put together in listing order with whatever else is in the directory, give the source if and only if each has the right bytes and nothing foreign has any |
| AdbPush.ReassemblesIff | apps/desktop/src-tauri/src/adb.rs:778-963 | from any directory and after any runs cut off anywhere, the first complete run reassembles to the source if and only if at the start every part of the right size had the right bytes and nothing foreign had any |
| AdbPush.SmoothRun | apps/desktop/src-tauri/src/adb.rs:778-863 | a run that nothing interrupts gets through, pushes every part that is not there in its full length, and touches nothing else |
| AdbPush.CutIsRepeated | apps/desktop/src-tauri/src/adb.rs:778-863 | a part cut short leaves what arrived and ends the run, and is pushed again whole by the next run |
| AdbPush.SeekIsExact | apps/desktop/src-tauri/src/adb.rs:230-236 | block size times blocks is the offset, with the largest block size that can be |

## Left out

- Sockets, child processes, threads and locks, the user interfaces and the services: only their effect on
  files and on the order of steps is modelled.
- Logs, progress views, throughput calibration, device probing, JSON printing and parsing: answers are
  datatypes, and the fields a caller looks at are their constructors.
- BLAKE3 and file metadata: equal digests are taken for equal bytes, and paths, sizes and times are data.
- Widths of sums: byte totals and counters are unbounded, so an overflow of 64 bits is not modelled, nor
  is one of offset plus length on the phone.
- Listing recoverable tasks and collecting source files.
- Deleting a task's record is not a step of the runs; `Engine.TransferEngine.DeleteTaskRecord` stands alone.
- A checkpoint file that is not text, as after a write that broke off inside a character, is kept apart
  from a missing one only in `CrashRuns`; the engine's directory counts it as none, as loading does.
- Changes of the local files during a transfer, and short local reads.
- Requests cut off inside a text command line: a text push is carried out whole or not at all. Binary
  streams that break off are `Frames.BrokenStream`.
- The `CHUNK_ACK` command, the pull commands beyond the read-back check, the remote verification, and the
  phone's display counters.
- Paths so long that their command lines pass 16 KiB: the limit is modelled for pushes, where payloads can
  reach it; such a file is not even started.
- Path cleaning on both ends, canonical paths and target roots: paths are taken as cleaned.
- Directory entries on the phone: a directory of a bundle only removes a file in its place.
- Failures while parts are put together on the phone: `cat`, `mv` and `rm` are one step.
- The download direction, which shares the chunk arithmetic and the decoding.
- PathArg.DecodePathArg: hexadecimal digits of other scripts, which the phone's decoder also takes, are not modelled, and decoded bytes are not read as UTF-8.
- CrashRuns.EveryRun: a task id with a newline or a trailing carriage return is excluded, as its checkpoint does not come back under its own name.
