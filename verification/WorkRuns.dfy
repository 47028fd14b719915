/** What the work of a run leads to: a commit that was asked for is in the task, and once saved it
    stays; and when every chunk was handed back the task is completed. */
module WorkRuns {
  import opened Wrappers
  import opened Models
  import opened Bytes
  import opened Chunks
  import opened Scheduling
  import opened Checkpoint
  import opened CutSaves
  import opened Counters
  import opened TransferTask
  import opened EngineRuns
  import opened CrashRuns
  import opened CommitRuns
  import opened CallEffects

  // ----- a commit that was asked for -----

  /** The index is completed, on this lane. */
  predicate FilesHold(files: seq<FileCheckpoint>, m: Mark, lane: Lane) {
    FilesHave(files, m) && RecordedLane(files[m.file], m.index) == Some(lane)
  }

  predicate TaskHolds(t: Task, m: Mark, lane: Lane) {
    t.config.chunkSizeBytes == m.chunkSize && FilesHold(t.Files(), m, lane)
  }

  predicate EntryHolds(e: CheckpointEntry, m: Mark, lane: Lane) {
    e.config.chunkSizeBytes == m.chunkSize && FilesHold(e.checkpoint.files, m, lane)
  }

  /** The mark names a chunk of the task's cut. */
  predicate IsMark(t: Task, m: Mark) {
    && m.file < |t.items| && m.file < |t.Files()| && t.Files()[m.file].relativePath == m.path
    && t.config.chunkSizeBytes == m.chunkSize && m.index < Count(t.items[m.file].sizeBytes, m.chunkSize)
  }

  /** The step asks a task that can still record for a commit of the chunk over the lane. */
  predicate AsksFor(w: World, a: Action, m: Mark, lane: Lane) {
    && w.task.Some? && w.task.value.state !in {Cancelled, Failed} && IsMark(w.task.value, m)
    && match a
       case Call(RecordCommit(c, l, _), _, _) => Is(c, m) && l == lane
       case Call(RecordFile(f, l), _, _) => f == m.file && l == lane
       case Finish(k, _, _) => k < |w.leases| && Is(w.leases[k].chunk, m) && w.leases[k].lane == lane
       case _ => false
  }

  lemma RecordedHolds(t: Task, t1: Task, c: Chunk, m: Mark, lane: Lane)
    requires Recorded(t, t1, c, lane) && IsMark(t, m) && Is(c, m)
    ensures TaskHas(t1, m) && (!TaskHas(t, m) ==> TaskHolds(t1, m, lane))
  { }

  lemma FileHolds(t: Task, t1: Task, chunks: seq<Chunk>, m: Mark, lane: Lane)
    requires IsMark(t, m) && AllRecorded(t, t1, m.file, chunks, lane) && HasIndex(chunks, m.index)
    ensures TaskHas(t1, m) && (!TaskHas(t, m) ==> TaskHolds(t1, m, lane))
  {
    hide Counted, HasIndex;
  }

  lemma WholeFileHolds(t: Task, m: Mark, lane: Lane)
    requires TaskOk(t) && IsMark(t, m) && t.state !in {Cancelled, Failed}
    ensures var o := Apply(t, RecordFile(m.file, lane));
            o.effect == Saved && TaskHas(o.task, m) && (!TaskHas(t, m) ==> TaskHolds(o.task, m, lane))
  {
    assert Count(t.items[m.file].sizeBytes, t.config.chunkSizeBytes) <= TWO_TO_32;
    SplitIsOneFile(m.file, t.items[m.file].sizeBytes, t.config.chunkSizeBytes);
    FileIsRecorded(t, m.file, lane);
    hide Apply, Split, AllRecorded, HasIndex;
    var chunks := Split(m.file, t.items[m.file].sizeBytes, t.config.chunkSizeBytes);
    FileHolds(t, Apply(t, RecordFile(m.file, lane)).task, chunks, m, lane);
  }

  /** What the step makes of the task before it is saved. */
  function Outcomes(w: World, a: Action): Outcome
    requires w.task.Some? && (a.Call? || (a.Finish? && a.k < |w.leases|))
  {
    if a.Call? then Apply(w.task.value, a.op) else CompleteLeased(w.task.value, w.leases[a.k])
  }

  lemma AskedOutcome(w: World, a: Action, m: Mark, lane: Lane)
    requires Inv(w) && AsksFor(w, a, m, lane)
    ensures var t, o := w.task.value, Outcomes(w, a);
            o.effect == Saved && TaskHas(o.task, m) && (!TaskHas(t, m) ==> TaskHolds(o.task, m, lane))
  {
    hide TaskOk, QueuesOk, Recorded, IsMark, Done;
    var t := w.task.value;
    match a
    case Call(op, _, _) =>
      if op.RecordCommit? {
        CommitIsRecorded(t, op.chunk, op.lane, op.completeIfDrained);
        RecordedHolds(t, Apply(t, op).task, op.chunk, m, lane);
      } else {
        WholeFileHolds(t, m, lane);
      }
    case Finish(k, _, _) =>
      LeaseIsRecorded(t, w.leases[k]);
      RecordedHolds(t, CompleteLeased(t, w.leases[k]).task, w.leases[k].chunk, m, lane);
    case _ =>
  }

  lemma StampHolds(t: Task, now: U128, m: Mark, lane: Lane)
    ensures TaskHas(Stamp(t, now), m) <==> TaskHas(t, m)
    ensures TaskHolds(Stamp(t, now), m, lane) <==> TaskHolds(t, m, lane)
  { }

  lemma SavedStep(w: World, a: Action)
    requires w.task.Some? && (a.Call? || (a.Finish? && a.k < |w.leases|)) && Outcomes(w, a).effect == Saved
    ensures Step(w, a).task == Some(Stamp(Outcomes(w, a).task, a.now))
    ensures Step(w, a).disk == AfterSave(w.disk, Stamp(Outcomes(w, a).task, a.now).checkpoint, a.save)
  {
    hide Apply, CompleteLeased, Stamp, Serialize;
  }

  /** A commit that is asked for is in the task after the step, over the lane it was asked for unless
      it was there before, however its save ends. */
  lemma AskedIsCommitted(w: World, a: Action, m: Mark, lane: Lane)
    requires Inv(w) && AsksFor(w, a, m, lane)
    ensures var w1 := Step(w, a);
            && w1.task.Some? && TaskHas(w1.task.value, m)
            && (!TaskHas(w.task.value, m) ==> TaskHolds(w1.task.value, m, lane))
  {
    hide Inv, Step, Outcomes, TaskHas, TaskHolds, Stamp;
    AskedOutcome(w, a, m, lane);
    SavedStep(w, a);
    StampHolds(Outcomes(w, a).task, a.now, m, lane);
  }

  // ----- and stays -----

  /** The commit is in the file, and in the task if there is one. */
  ghost predicate Durable(w: World, m: Mark, lane: Lane) {
    && w.disk.Written? && WholeDisk(w.disk) && EntryHolds(w.disk.entry, m, lane)
    && (w.task.Some? ==> TaskHolds(w.task.value, m, lane))
  }

  lemma HoldsGrows(before: seq<FileCheckpoint>, after: seq<FileCheckpoint>, m: Mark, lane: Lane)
    requires Grows(before, after) && FilesHold(before, m, lane)
    ensures FilesHold(after, m, lane)
  { }

  lemma KeptHolds(t: Task, t1: Task, leases: seq<Lease>, m: Mark, lane: Lane)
    requires Kept(t, t1, leases) && TaskHolds(t, m, lane)
    ensures TaskHolds(t1, m, lane) && TaskOk(t1)
  {
    hide TaskOk, QueuesOk;
    HoldsGrows(t.Files(), t1.Files(), m, lane);
  }

  lemma CheckpointHolds(t: Task, m: Mark, lane: Lane)
    requires TaskOk(t)
    ensures EntryHolds(t.checkpoint, m, lane) <==> TaskHolds(t, m, lane)
  { }

  lemma SettleDurable(w: World, o: Outcome, leases: seq<Lease>, now: U128, save: Save, m: Mark, lane: Lane)
    requires Durable(w, m, lane) && TaskOk(o.task) && TaskHolds(o.task, m, lane) && Whole(save)
    ensures Durable(Settle(o, leases, w.disk, now, save), m, lane)
  {
    CheckpointHolds(o.task, m, lane);
    StampHolds(o.task, now, m, lane);
    StampEntry(o.task, now, m, lane);
    hide TaskHolds, EntryHolds, Serialize, Stamp, TaskOk;
  }

  lemma StampEntry(t: Task, now: U128, m: Mark, lane: Lane)
    ensures EntryHolds(Stamp(t, now).checkpoint, m, lane) <==> EntryHolds(t.checkpoint, m, lane)
  { }

  lemma NormalHolds(e: CheckpointEntry, now: U128, m: Mark, lane: Lane)
    requires EntryOk(e) && EntryHolds(e, m, lane)
    ensures TaskHolds(Stamp(Recover(Normalize(e)), now), m, lane)
  {
    hide EntryOk, Normalize, NormalizeFiles, New, Rebuild;
    NormalConfig(e);
    NormalFiles(e.checkpoint.files);
  }

  lemma OpenDurable(w: World, config: TaskConfig, items: seq<TransferItem>, now: U128, save: Save, m: Mark, lane: Lane)
    requires Inv(w) && Durable(w, m, lane) && Whole(save) && (w.task.None? ==> Creatable(config, items))
    ensures Durable(OpenTask(w, config, items, now, save), m, lane)
  {
    hide TaskOk, QueuesOk, Sound, Creatable, TaskHolds, EntryHolds, Recover, Normalize, Stamp, Loaded, WholeDisk,
      LagsBehind, CleanDisk;
    if w.task.None? {
      var t := Stamp(Opened(w.disk, config, items), now);
      WholeLoads(w.disk);
      SoundEntry(w.disk.entry);
      NormalHolds(w.disk.entry, now, m, lane);
      OpenedOk(w.disk, config, items, now);
      CheckpointHolds(t, m, lane);
      StoredWhole(t.checkpoint);
    }
  }

  lemma StoredWhole(e: CheckpointEntry)
    ensures WholeDisk(Written(e, |Serialize(e)|))
  { }

  lemma StepDurable(w: World, a: Action, m: Mark, lane: Lane)
    requires Inv(w) && AllowedAction(w, a) && (a.Crash? || Whole(a.save)) && Durable(w, m, lane)
    ensures Durable(Step(w, a), m, lane)
  {
    hide TaskOk, QueuesOk, Kept, Apply, CompleteLeased, Settle, OpenTask, Creatable, Allowed, TaskHolds, EntryHolds,
      WholeDisk;
    match a
    case Call(op, now, save) =>
      if w.task.Some? {
        var t, o := w.task.value, Apply(w.task.value, op);
        CallKeeps(t, w.leases, op);
        KeptHolds(t, o.task, AddedLease(w.leases, o.lease), m, lane);
        SettleDurable(w, o, AddedLease(w.leases, o.lease), now, save, m, lane);
      }
    case Finish(k, now, save) =>
      if w.task.Some? && k < |w.leases| {
        var t, o := w.task.value, CompleteLeased(w.task.value, w.leases[k]);
        var leases := if o.effect == Refused then w.leases else Without(w.leases, k);
        FinishKeeps(t, w.leases, k);
        KeptHolds(t, o.task, leases, m, lane);
        SettleDurable(w, o, leases, now, save, m, lane);
      }
    case Crash =>
    case Open(config, items, now, save) => OpenDurable(w, config, items, now, save, m, lane);
  }

  lemma {:induction false} RunDurable(w: World, actions: seq<Action>, m: Mark, lane: Lane)
    requires Inv(w) && AllowedRun(w, actions) && Untorn(actions) && Durable(w, m, lane)
    ensures Durable(Run(w, actions), m, lane)
    decreases actions
  {
    hide Inv, AllowedAction, Step, WholeDisk, TaskHolds, EntryHolds, CleanDisk, DiskFiles;
    if actions != [] {
      assert actions[0].Crash? || Whole(actions[0].save);
      StepExtends(w, actions[0]);
      StepKeeps(w, actions[0]);
      StepDurable(w, actions[0], m, lane);
      UntornRest(actions);
      RunDurable(Step(w, actions[0]), actions[1..], m, lane);
    }
  }

  lemma AskedDurable(w: World, a: Action, m: Mark, lane: Lane)
    requires Inv(w) && AllowedAction(w, a) && AsksFor(w, a, m, lane) && a.save == Stored
    requires !TaskHas(w.task.value, m)
    ensures Inv(Step(w, a)) && Durable(Step(w, a), m, lane)
  {
    hide Step, Outcomes, TaskHas, TaskHolds, EntryHolds, Stamp, TaskOk, QueuesOk, Sound, Serialize, AllowedAction,
      LagsBehind;
    AskedOutcome(w, a, m, lane);
    AskedIsCommitted(w, a, m, lane);
    SavedStep(w, a);
    StepKeeps(w, a);
    CheckpointHolds(Step(w, a).task.value, m, lane);
    StoredWhole(Step(w, a).task.value.checkpoint);
  }

  /** A commit that was saved is never lost. After it, through any calls, saves that fail before they
      begin, crashes and recoveries, the chunk is in the file and in the task, on the lane it was
      committed on. */
  lemma SavedCommitStays(w: World, a: Action, later: seq<Action>, m: Mark, lane: Lane)
    requires Inv(w) && AllowedAction(w, a) && AsksFor(w, a, m, lane) && a.save == Stored
    requires !TaskHas(w.task.value, m) && AllowedRun(Step(w, a), later) && Untorn(later)
    ensures Durable(Run(Step(w, a), later), m, lane)
  {
    hide Step, Inv, Durable, AllowedRun, AsksFor, Run;
    AskedDurable(w, a, m, lane);
    RunDurable(Step(w, a), later, m, lane);
  }

  // ----- when the work is complete -----

  /** A worker's step: it asks for a lease, hands one back, or records with the completion test. */
  predicate ByWorker(t: Task, a: Action) {
    match a
    case Call(op, _, _) =>
      op.LeaseReal? || (op.RecordCommit? && op.completeIfDrained) || (op.RecordFile? && op.fileIndex < |t.items|)
    case Finish(_, _, _) => true
    case _ => false
  }

  /** The step records something, if only that it was there already. */
  predicate Reports(w: World, a: Action) {
    match a
    case Call(op, _, _) => op.RecordCommit? || op.RecordFile?
    case Finish(k, _, _) => k < |w.leases|
    case _ => false
  }

  /** The step reports this chunk. */
  predicate ReportsChunk(w: World, a: Action, c: Chunk) {
    match a
    case Call(RecordCommit(d, _, _), _, _) => d == c
    case Call(RecordFile(f, _), _, _) => f == c.fileIndex
    case Finish(k, _, _) => k < |w.leases| && w.leases[k].chunk == c
    case _ => false
  }

  predicate AtWork(w: World) { w.task.Some? && w.task.value.state !in {Cancelled, Failed, Paused} }

  /** A worker's step keeps the task at work. One that reports leaves it completed exactly when every
      chunk is done, and running otherwise; one that asks for a lease leaves it running. */
  lemma WorkerStep(w: World, a: Action)
    requires Inv(w) && AllowedAction(w, a) && AtWork(w) && ByWorker(w.task.value, a)
    ensures var w1 := Step(w, a);
            && AtWork(w1) && w1.task.value.items == w.task.value.items && w1.task.value.config == w.task.value.config
            && Grows(w.task.value.Files(), w1.task.value.Files())
            && (Reports(w, a) ==> Tested(w1.task.value))
            && (a.Call? && a.op.LeaseReal? ==> w1.task.value.state == Running)
  {
    hide TaskOk, QueuesOk, Rebuild, AllDone, MarkCompletedIfDrained, CommitChunk, CommitChunks, LeaseNext, Stamp, Grows,
      Serialize;
    var t := w.task.value;
    GrowsRefl(t.Files());
    match a
    case Call(op, now, save) =>
      WorkerCall(t, w.leases, op);
      StampTested(Apply(t, op).task, now);
    case Finish(k, now, save) =>
      if k < |w.leases| {
        WorkerFinish(t, w.leases, k);
        StampTested(CompleteLeased(t, w.leases[k]).task, now);
      }
    case _ =>
  }

  lemma StampTested(t: Task, now: U128)
    ensures var t1 := Stamp(t, now);
            && (Tested(t1) <==> Tested(t)) && t1.state == t.state && t1.items == t.items && t1.config == t.config
            && t1.Files() == t.Files()
  { }

  lemma WorkerCall(t: Task, leases: seq<Lease>, op: Op)
    requires TaskOk(t) && QueuesOk(t, leases) && Allowed(t, leases, op) && t.state !in {Cancelled, Failed, Paused}
    requires ByWorker(t, Call(op, 0, Stored))
    ensures var t1 := Apply(t, op).task;
            && t1.state !in {Cancelled, Failed, Paused} && t1.items == t.items && t1.config == t.config
            && Grows(t.Files(), t1.Files())
            && (op.RecordCommit? || op.RecordFile? ==> Tested(t1)) && (op.LeaseReal? ==> t1.state == Running)
  {
    hide TaskOk, QueuesOk, AllDone, MarkCompletedIfDrained, CommitChunk, CommitChunks, LeaseNext, Grows, NothingDone,
      Split, OneMore, Counted, Joined;
    CallKeeps(t, leases, op);
    CompletedIff(t, leases, op);
    if op.RecordCommit? { CommitIsRecorded(t, op.chunk, op.lane, op.completeIfDrained); }
    if op.RecordFile? { FileIsRecorded(t, op.fileIndex, op.fileLane); }
  }

  lemma WorkerFinish(t: Task, leases: seq<Lease>, k: nat)
    requires TaskOk(t) && QueuesOk(t, leases) && k < |leases| && t.state !in {Cancelled, Failed, Paused}
    ensures var t1 := CompleteLeased(t, leases[k]).task;
            && t1.state !in {Cancelled, Failed, Paused} && t1.items == t.items && t1.config == t.config
            && Grows(t.Files(), t1.Files()) && Tested(t1)
  {
    hide TaskOk, QueuesOk, AllDone, CompleteLeased, Grows, NothingDone, OneMore, Counted;
    FinishKeeps(t, leases, k);
    LeaseCompletedIff(t, leases, k);
    LeaseIsRecorded(t, leases[k]);
  }

  lemma ChunkReported(w: World, a: Action, c: Chunk)
    requires Inv(w) && AllowedAction(w, a) && AtWork(w) && ByWorker(w.task.value, a) && ReportsChunk(w, a, c)
    requires IsChunk(w.task.value.config, w.task.value.items, c)
    ensures Done(Step(w, a).task.value.Files(), c)
  {
    hide Step, TaskHas, Split, TaskOk, QueuesOk, AllowedAction;
    var t := w.task.value;
    ChunkIsMark(t, c);
    var m := MarkOf(t, c);
    var lane := match a case Call(RecordCommit(_, l, _), _, _) => l case Call(RecordFile(_, l), _, _) => l
      case Finish(k, _, _) => w.leases[k].lane case _ => Adb;
    AskedIsCommitted(w, a, m, lane);
    HasIsDone(Step(w, a).task.value, m, c);
  }

  function MarkOf(t: Task, c: Chunk): Mark
    requires c.fileIndex < |t.Files()|
  {
    Mark(c.fileIndex, t.Files()[c.fileIndex].relativePath, t.config.chunkSizeBytes, c.chunkIndex)
  }

  lemma ChunkIsMark(t: Task, c: Chunk)
    requires TaskOk(t) && IsChunk(t.config, t.items, c)
    ensures c.fileIndex < |t.Files()| && IsMark(t, MarkOf(t, c)) && Is(c, MarkOf(t, c))
  {
    hide Split, Rebuild;
    IsChunkAt(t.config, t.items, c);
  }

  lemma HasIsDone(t: Task, m: Mark, c: Chunk)
    requires TaskHas(t, m) && Is(c, m)
    ensures Done(t.Files(), c)
  { }

  /** Everything is done at the start or reported on the way. */
  ghost predicate AllReported(w: World, actions: seq<Action>)
    requires w.task.Some?
  {
    forall c :: IsChunk(w.task.value.config, w.task.value.items, c) ==>
      Done(w.task.value.Files(), c) || Reported(w, actions, c)
  }

  ghost predicate Reported(w: World, actions: seq<Action>, c: Chunk)
    decreases actions
  {
    actions != [] && (ReportsChunk(w, actions[0], c) || Reported(Step(w, actions[0]), actions[1..], c))
  }

  ghost predicate WorkersOnly(w: World, actions: seq<Action>)
    decreases actions
  {
    actions == [] ||
      (w.task.Some? && ByWorker(w.task.value, actions[0]) && WorkersOnly(Step(w, actions[0]), actions[1..]))
  }

  /** The last step of the run is one that reports. */
  ghost predicate EndsInReport(w: World, actions: seq<Action>)
    requires actions != []
    decreases actions
  {
    if |actions| == 1 then Reports(w, actions[0]) else EndsInReport(Step(w, actions[0]), actions[1..])
  }

  lemma {:induction false} WorkersRun(w: World, actions: seq<Action>)
    requires Inv(w) && AllowedRun(w, actions) && AtWork(w) && WorkersOnly(w, actions)
    ensures var w1 := Run(w, actions);
            && AtWork(w1) && w1.task.value.items == w.task.value.items && w1.task.value.config == w.task.value.config
            && Grows(w.task.value.Files(), w1.task.value.Files())
            && (actions != [] && EndsInReport(w, actions) ==> Tested(w1.task.value))
    decreases actions
  {
    hide Inv, AllowedAction, Step, ByWorker, Reports, Tested, Grows, AtWork, CleanDisk;
    WorkTask(w);
    GrowsRefl(w.task.value.Files());
    if actions != [] {
      var w1 := Step(w, actions[0]);
      WorkerStep(w, actions[0]);
      WorkerIsNoOpening(w, actions[0]);
      StepKeeps(w, actions[0]);
      WorkTask(w1);
      WorkersRun(w1, actions[1..]);
      WorkTask(Run(w1, actions[1..]));
      if |actions| == 1 { assert actions[1..] == []; }
      GrowsTrans(w.task.value.Files(), w1.task.value.Files(), Run(w1, actions[1..]).task.value.Files());
    }
  }

  lemma WorkTask(w: World)
    requires AtWork(w)
    ensures w.task.Some?
  { }

  lemma WorkerIsNoOpening(w: World, a: Action)
    requires w.task.Some? && ByWorker(w.task.value, a)
    ensures !a.Open?
  { }

  lemma {:induction false} ReportedIsDone(w: World, actions: seq<Action>, c: Chunk)
    requires Inv(w) && AllowedRun(w, actions) && AtWork(w) && WorkersOnly(w, actions)
    requires IsChunk(w.task.value.config, w.task.value.items, c)
    requires Done(w.task.value.Files(), c) || Reported(w, actions, c)
    ensures Run(w, actions).task.Some? && Done(Run(w, actions).task.value.Files(), c)
    decreases actions
  {
    hide Inv, AllowedAction, Step, ByWorker, ReportsChunk, Grows, AtWork, CleanDisk, IsChunk, Done, EndsInReport;
    WorkTask(w);
    if actions != [] {
      var w1 := Step(w, actions[0]);
      WorkerStep(w, actions[0]);
      WorkerIsNoOpening(w, actions[0]);
      StepKeeps(w, actions[0]);
      WorkTask(w1);
      if Done(w.task.value.Files(), c) {
        DoneGrows(w.task.value.Files(), w1.task.value.Files());
      } else if ReportsChunk(w, actions[0], c) {
        ChunkReported(w, actions[0], c);
      }
      ReportedIsDone(w1, actions[1..], c);
    }
  }

  /** The workers finish. Over any run of their steps on a task that is neither paused, cancelled nor
      failed, the last one a report, the task ends completed exactly when every chunk is done; and it
      does once every chunk was done before or has been reported on the way. */
  lemma WorkersFinish(w: World, actions: seq<Action>)
    requires Inv(w) && AllowedRun(w, actions) && AtWork(w) && WorkersOnly(w, actions)
    requires actions != [] && EndsInReport(w, actions)
    ensures var t := Run(w, actions).task;
            && t.Some? && (t.value.state == Completed <==> Finished(t.value))
            && (AllReported(w, actions) ==> t.value.state == Completed)
  {
    hide Inv, AllowedRun, WorkersOnly, EndsInReport, Run, AtWork, IsChunk, Done, Reported, Grows;
    WorkTask(w);
    WorkersRun(w, actions);
    WorkTask(Run(w, actions));
    if AllReported(w, actions) {
      var t := Run(w, actions).task.value;
      forall c | IsChunk(t.config, t.items, c) ensures Done(t.Files(), c) { ReportedIsDone(w, actions, c); }
    }
  }
}
