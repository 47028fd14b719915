/** One transfer task of the engine: its whole state as a value, and each engine call as a
    function on it. The mutable engine is proved against these functions. */
module TransferTask {
  import opened Wrappers
  import opened Models
  import opened Chunks
  import opened Scheduling
  import opened Checkpoint
  import opened Counters

  datatype Task = Task(
    config: TaskConfig,
    items: seq<TransferItem>,
    sched: Sched,
    checkpoint: CheckpointEntry,
    metrics: Metrics,
    state: TaskState,
    lastError: Option<string>)
  {
    function Files(): seq<FileCheckpoint> { checkpoint.checkpoint.files }

    function WithFiles(files: seq<FileCheckpoint>): Task {
      this.(checkpoint := checkpoint.(checkpoint := checkpoint.checkpoint.(files := files)))
    }

    /** Every call sets the task's state and the checkpoint's copy of it together. */
    function To(s: TaskState): Task {
      this.(state := s, checkpoint := checkpoint.(checkpoint := checkpoint.checkpoint.(state := s)))
    }
  }

  function DoneLists(files: seq<FileCheckpoint>): (r: seq<seq<nat>>)
    ensures |r| == |files|
    ensures forall f :: 0 <= f < |files| ==> r[f] == files[f].completedChunks
  {
    seq(|files|, f requires 0 <= f < |files| => files[f].completedChunks)
  }

  function Create(config: TaskConfig, items: seq<TransferItem>): Task {
    Task(config, items, New(config, items, []), InitializeCheckpoint(config, items),
      ZERO.(totalBytes := TotalBytes(items)), Pending, None)
  }

  // ----- committing -----

  function CommitToFile(file: FileCheckpoint, index: U32Int, lane: Lane): FileCheckpoint {
    file.(completedChunks := Sorted(file.completedChunks + [index]),
          completedChunkLanes := file.completedChunkLanes[index := lane])
  }

  /** A chunk of an unknown file, or one committed before on either lane, changes nothing. */
  function CommitChunk(t: Task, chunk: Chunk, lane: Lane): Task {
    var f := chunk.fileIndex;
    if f >= |t.Files()| || chunk.chunkIndex in t.Files()[f].completedChunks then t
    else
      t.WithFiles(t.Files()[f := CommitToFile(t.Files()[f], chunk.chunkIndex, lane)])
       .(metrics := Plus(t.metrics, Moved(chunk.length, lane)))
  }

  function CommitChunks(t: Task, chunks: seq<Chunk>, lane: Lane): Task {
    if chunks == [] then t
    else CommitChunk(CommitChunks(t, chunks[..|chunks| - 1], lane), chunks[|chunks| - 1], lane)
  }

  /** The real workers' completion test: every file has at least as many completed indices as
      it has chunks. */
  predicate EnoughIndices(t: Task) {
    forall f :: 0 <= f < |t.items| ==> HasEnough(t, f)
  }

  predicate HasEnough(t: Task, f: nat)
    requires f < |t.items|
  {
    (if f < |t.Files()| then |t.Files()[f].completedChunks| else 0)
      >= |Split(f, t.items[f].sizeBytes, t.config.chunkSizeBytes)|
  }

  function MarkCompletedIfDrained(t: Task): Task {
    if EnoughIndices(t) && t.state != Completed then t.To(Completed) else t
  }

  // ----- ticking -----

  function TickLane(step: nat): Lane { if step % 2 == 0 then Adb else Wifi }

  /** Lease, commit and complete one chunk; None when the scheduler is idle. */
  function TickOnce(t: Task, step: nat): Option<Task> {
    var (s, lease) := LeaseNext(t.sched, t.config.maxInFlightChunksPerLane, TickLane(step));
    match lease
    case None => None
    case Some(l) =>
      var t1 := CommitChunk(t.(sched := s), l.chunk, l.lane);
      Some(t1.(sched := Complete(s, l.lane)))
  }

  function TickLoop(t: Task, step: nat, steps: nat): Task
    decreases steps - step
  {
    if step >= steps then t
    else match TickOnce(t, step)
      case None => t
      case Some(t1) => TickLoop(t1, step + 1, steps)
  }

  function CompleteIfDrained(t: Task): Task {
    if t.sched.Drained() then t.To(Completed) else t
  }

  // ----- the engine's calls -----

  datatype Op =
    | Tick(steps: nat)
    | Pause
    | Resume
    | Cancel
    | Retry
    | RecordCommit(chunk: Chunk, lane: Lane, completeIfDrained: bool)
    | RecordFile(fileIndex: nat, fileLane: Lane)
    | LeaseReal(preferred: Lane)
    | CompleteReal(lease: Lease)
    | RecordFailure(message: string)
    | Reconfigure(chunkSize: U64)

  /** How a call ended: refused with an error, done without saving, or done and saved. */
  datatype Effect = Refused | Unsaved | Saved

  datatype Outcome = Outcome(task: Task, effect: Effect, lease: Option<Lease>)

  predicate Terminal(s: TaskState) { s == Completed || s == Cancelled || s == Failed }

  predicate MayRecord(s: TaskState) { s != Cancelled && s != Failed }

  function TickTask(t: Task, steps: nat): Outcome {
    if Terminal(t.state) then Outcome(t, Refused, None)
    else if t.state == Paused then Outcome(t, Unsaved, None)
    else Outcome(CompleteIfDrained(TickLoop(t.To(Running), 0, AtLeastOne(steps))), Saved, None)
  }

  function PauseTask(t: Task): Outcome {
    if Terminal(t.state) then Outcome(t, Refused, None) else Outcome(t.To(Paused), Saved, None)
  }

  function ResumeTask(t: Task): Outcome {
    if t.state != Paused then Outcome(t, Refused, None) else Outcome(t.To(Running), Saved, None)
  }

  function CancelTask(t: Task): Outcome {
    if t.state == Completed || t.state == Cancelled then Outcome(t, Unsaved, None)
    else Outcome(t.To(Cancelled), Saved, None)
  }

  function RetryTask(t: Task): Outcome {
    if t.state == Completed || t.state == Cancelled then Outcome(t, Refused, None)
    else Outcome(t.To(Paused).(lastError := None), Saved, None)
  }

  function FailTask(t: Task, message: string): Outcome {
    Outcome(t.To(Failed).(lastError := Some(message)), Saved, None)
  }

  function RecordChunk(t: Task, chunk: Chunk, lane: Lane, check: bool): Outcome {
    if !MayRecord(t.state) then Outcome(t, Refused, None)
    else
      var t1 := CommitChunk(t.To(Running), chunk, lane);
      Outcome(if check then MarkCompletedIfDrained(t1) else t1, Saved, None)
  }

  /** An unknown file is refused only after the task was set running. */
  function RecordWholeFile(t: Task, f: nat, lane: Lane): Outcome {
    if !MayRecord(t.state) then Outcome(t, Refused, None)
    else if f >= |t.items| then Outcome(t.To(Running), Refused, None)
    else
      var chunks := Split(f, t.items[f].sizeBytes, t.config.chunkSizeBytes);
      Outcome(MarkCompletedIfDrained(CommitChunks(t.To(Running), chunks, lane)), Saved, None)
  }

  /** Leasing is not saved: a crash forgets it. */
  function LeaseChunk(t: Task, preferred: Lane): Outcome {
    if !MayRecord(t.state) then Outcome(t, Refused, None)
    else if t.state == Paused then Outcome(t, Unsaved, None)
    else
      var (s, lease) := LeaseNext(t.sched, t.config.maxInFlightChunksPerLane, preferred);
      Outcome(t.To(Running).(sched := s), Unsaved, lease)
  }

  function CompleteLeased(t: Task, lease: Lease): Outcome {
    if !MayRecord(t.state) then Outcome(t, Refused, None)
    else
      var t1 := CommitChunk(t.To(Running), lease.chunk, lease.lane);
      Outcome(MarkCompletedIfDrained(t1.(sched := Complete(t1.sched, lease.lane))), Saved, None)
  }

  /** The scheduler and the counters are rebuilt from the checkpoint; leases are forgotten. */
  function ChangeChunkSize(t: Task, chunkSize: U64): Outcome {
    var config := t.config.(chunkSizeBytes := AtLeastOne(chunkSize));
    Outcome(
      t.(config := config,
         checkpoint := t.checkpoint.(config := t.checkpoint.config.(chunkSizeBytes := AtLeastOne(chunkSize))),
         sched := New(config, t.items, DoneLists(t.Files())),
         metrics := Rebuild(config, t.items, t.Files())),
      Saved, None)
  }

  function Apply(t: Task, op: Op): Outcome {
    match op
    case Tick(steps) => TickTask(t, steps)
    case Pause => PauseTask(t)
    case Resume => ResumeTask(t)
    case Cancel => CancelTask(t)
    case Retry => RetryTask(t)
    case RecordCommit(chunk, lane, check) => RecordChunk(t, chunk, lane, check)
    case RecordFile(f, lane) => RecordWholeFile(t, f, lane)
    case LeaseReal(preferred) => LeaseChunk(t, preferred)
    case CompleteReal(lease) => CompleteLeased(t, lease)
    case RecordFailure(message) => FailTask(t, message)
    case Reconfigure(chunkSize) => ChangeChunkSize(t, chunkSize)
  }

  /** Saving first copies the state and the time into the checkpoint. */
  function Stamp(t: Task, now: U128): Task {
    t.(checkpoint := t.checkpoint.(checkpoint :=
        t.checkpoint.checkpoint.(state := t.state, updatedAtEpochMs := now)))
  }

  // ----- after a crash -----

  function RecoveredItem(file: FileCheckpoint): TransferItem {
    TransferItem(file.relativePath, file.sizeBytes, file.modifiedAtEpochMs, file.fingerprintHex)
  }

  function RecoveredItems(files: seq<FileCheckpoint>): (r: seq<TransferItem>)
    ensures |r| == |files|
    ensures forall f :: 0 <= f < |files| ==> r[f] == RecoveredItem(files[f])
  {
    seq(|files|, f requires 0 <= f < |files| => RecoveredItem(files[f]))
  }

  function RecoveredState(s: TaskState): TaskState {
    if s == Completed || s == Cancelled then s else Paused
  }

  /** The task `recover_task` builds from a loaded checkpoint, before it is saved again. */
  function Recover(e: CheckpointEntry): Task {
    var items := RecoveredItems(e.checkpoint.files);
    Task(e.config, items,
      New(e.config, items, DoneLists(e.checkpoint.files)),
      e,
      Rebuild(e.config, items, e.checkpoint.files),
      RecoveredState(e.checkpoint.state),
      None)
  }
}
