/** The mutable engine: tasks whose fields each call updates in place, and the directory of
    checkpoint files. Every call is proved against the function of module TransferTask that the
    runs of module CrashRuns are made of. */
module Engine {
  import opened Wrappers
  import opened Models
  import opened Chunks
  import opened Scheduling
  import opened Checkpoint
  import opened Counters
  import opened TransferTask
  import opened EngineRuns
  import CrashRuns

  /** How writing a checkpoint file ended. */
  type Save = CrashRuns.Save

  class EngineTask {
    var config: TaskConfig
    var items: seq<TransferItem>
    var scheduler: Scheduler
    var checkpoint: CheckpointEntry
    var metrics: Metrics
    var state: TaskState
    var lastError: Option<string>

    ghost predicate Valid()
      reads this, scheduler
    {
      scheduler.Valid()
    }

    ghost function View(): Task
      reads this, scheduler
      requires Valid()
    {
      Task(config, items, scheduler.View(), checkpoint, metrics, state, lastError)
    }

    constructor Create(config: TaskConfig, items: seq<TransferItem>)
      ensures Valid() && fresh(scheduler) && View() == TransferTask.Create(config, items)
    {
      this.config, this.items := config, items;
      scheduler := new Scheduler.NewWithCompleted(config, items, []);
      checkpoint := InitializeCheckpoint(config, items);
      metrics := ZERO.(totalBytes := TotalBytes(items));
      state := Pending;
      lastError := None;
    }

    constructor Recover(e: CheckpointEntry)
      ensures Valid() && fresh(scheduler) && View() == TransferTask.Recover(e)
    {
      var recovered := RecoveredItems(e.checkpoint.files);
      var rebuilt := RebuildMetrics(e.config, recovered, e.checkpoint.files);
      config, items := e.config, recovered;
      scheduler := new Scheduler.NewWithCompleted(e.config, recovered, DoneLists(e.checkpoint.files));
      checkpoint := e;
      metrics := rebuilt;
      state := RecoveredState(e.checkpoint.state);
      lastError := None;
    }

    method SetState(s: TaskState)
      requires Valid()
      modifies this`state, this`checkpoint
      ensures Valid() && View() == old(View()).To(s)
    {
      state := s;
      checkpoint := checkpoint.(checkpoint := checkpoint.checkpoint.(state := s));
    }

    method CommitChunk(chunk: Chunk, lane: Lane) returns (added: bool)
      requires Valid()
      modifies this`checkpoint, this`metrics
      ensures Valid() && View() == TransferTask.CommitChunk(old(View()), chunk, lane)
      ensures !added ==> View() == old(View())
    {
      var f, files := chunk.fileIndex, checkpoint.checkpoint.files;
      if f >= |files| || chunk.chunkIndex in files[f].completedChunks {
        return false;
      }
      var file := CommitToFile(files[f], chunk.chunkIndex, lane);
      checkpoint := checkpoint.(checkpoint := checkpoint.checkpoint.(files := files[f := file]));
      metrics := Plus(metrics, Moved(chunk.length, lane));
      added := true;
    }

    method MarkCompletedIfDrained()
      requires Valid()
      modifies this`state, this`checkpoint
      ensures Valid() && View() == TransferTask.MarkCompletedIfDrained(old(View()))
    {
      var files := checkpoint.checkpoint.files;
      var allDone, f := true, 0;
      ghost var t := View();
      while f < |items| && allDone
        invariant Valid() && View() == t && f <= |items|
        invariant allDone <==> forall g :: 0 <= g < f ==> HasEnough(t, g)
      {
        var expected := SplitIntoChunks(f, items[f].sizeBytes, config.chunkSizeBytes);
        var actual := if f < |files| then |files[f].completedChunks| else 0;
        allDone := actual >= |expected|;
        assert allDone == HasEnough(t, f);
        f := f + 1;
      }
      assert allDone <==> EnoughIndices(t);
      if allDone && state != Completed {
        SetState(Completed);
      }
    }

    /** Lease, commit and complete one chunk. */
    method TickStep(step: nat) returns (idle: bool)
      requires Valid()
      modifies this, scheduler
      ensures Valid() && scheduler == old(scheduler)
      ensures TickOnce(old(View()), step) == if idle then None else Some(View())
      ensures idle ==> View() == old(View())
    {
      IdleIff(View().sched, config.maxInFlightChunksPerLane, TickLane(step));
      var lease := scheduler.NextLease(config, TickLane(step));
      if lease.None? { return true; }
      var added := CommitChunk(lease.value.chunk, lease.value.lane);
      scheduler.CompleteLease(lease.value);
      idle := false;
    }

    method TickSteps(n: nat)
      requires Valid()
      modifies this, scheduler
      ensures Valid() && scheduler == old(scheduler)
      ensures View() == TickLoop(old(View()), 0, n)
    {
      var step := 0;
      while step < n
        invariant Valid() && scheduler == old(scheduler)
        invariant step <= n && TickLoop(old(View()), 0, n) == TickLoop(View(), step, n)
      {
        hide TickOnce;
        var idle := TickStep(step);
        if idle { break; }
        step := step + 1;
      }
    }

    method Tick(steps: nat) returns (effect: Effect)
      requires Valid()
      modifies this, scheduler
      ensures Valid() && Did(TickTask(old(View()), steps), effect)
    {
      if Terminal(state) { return Refused; }
      if state == Paused { return Unsaved; }
      SetState(Running);
      TickSteps(if steps > 1 then steps else 1);
      var drained := scheduler.IsDrained();
      if drained { SetState(Completed); }
      effect := Saved;
    }

    method Pause() returns (effect: Effect)
      requires Valid()
      modifies this`state, this`checkpoint
      ensures Valid() && Did(PauseTask(old(View())), effect)
    {
      if Terminal(state) { return Refused; }
      SetState(Paused);
      effect := Saved;
    }

    method Resume() returns (effect: Effect)
      requires Valid()
      modifies this`state, this`checkpoint
      ensures Valid() && Did(ResumeTask(old(View())), effect)
    {
      if state != Paused { return Refused; }
      SetState(Running);
      effect := Saved;
    }

    method Cancel() returns (effect: Effect)
      requires Valid()
      modifies this`state, this`checkpoint
      ensures Valid() && Did(CancelTask(old(View())), effect)
    {
      if state == Completed || state == Cancelled { return Unsaved; }
      SetState(Cancelled);
      effect := Saved;
    }

    method Retry() returns (effect: Effect)
      requires Valid()
      modifies this`state, this`checkpoint, this`lastError
      ensures Valid() && Did(RetryTask(old(View())), effect)
    {
      if state == Completed || state == Cancelled { return Refused; }
      SetState(Paused);
      lastError := None;
      effect := Saved;
    }

    method Fail(message: string) returns (effect: Effect)
      requires Valid()
      modifies this`state, this`checkpoint, this`lastError
      ensures Valid() && Did(FailTask(old(View()), message), effect)
    {
      SetState(Failed);
      lastError := Some(message);
      effect := Saved;
    }

    method RecordCommit(chunk: Chunk, lane: Lane, completeIfDrained: bool) returns (effect: Effect)
      requires Valid()
      modifies this`state, this`checkpoint, this`metrics
      ensures Valid() && Did(RecordChunk(old(View()), chunk, lane, completeIfDrained), effect)
    {
      if state == Cancelled || state == Failed { return Refused; }
      SetState(Running);
      var added := CommitChunk(chunk, lane);
      if completeIfDrained { MarkCompletedIfDrained(); }
      effect := Saved;
    }

    method RecordFile(f: nat, lane: Lane) returns (effect: Effect)
      requires Valid()
      modifies this`state, this`checkpoint, this`metrics
      ensures Valid() && Did(RecordWholeFile(old(View()), f, lane), effect)
    {
      if state == Cancelled || state == Failed { return Refused; }
      SetState(Running);
      if f >= |items| { return Refused; }
      var chunks := SplitIntoChunks(f, items[f].sizeBytes, config.chunkSizeBytes);
      ghost var start := View();
      for i := 0 to |chunks|
        invariant Valid() && View() == CommitChunks(start, chunks[..i], lane)
      {
        assert chunks[..i + 1][..i] == chunks[..i];
        var added := CommitChunk(chunks[i], lane);
      }
      assert chunks[..|chunks|] == chunks;
      MarkCompletedIfDrained();
      effect := Saved;
    }

    method LeaseReal(preferred: Lane) returns (effect: Effect, lease: Option<Lease>)
      requires Valid()
      modifies this`state, this`checkpoint, scheduler
      ensures Valid() && Did(LeaseChunk(old(View()), preferred), effect)
      ensures lease == LeaseChunk(old(View()), preferred).lease
    {
      if state == Cancelled || state == Failed { return Refused, None; }
      if state == Paused { return Unsaved, None; }
      SetState(Running);
      lease := scheduler.NextLease(config, preferred);
      effect := Unsaved;
    }

    method CompleteReal(lease: Lease) returns (effect: Effect)
      requires Valid()
      modifies this`state, this`checkpoint, this`metrics, scheduler
      ensures Valid() && Did(CompleteLeased(old(View()), lease), effect)
    {
      if state == Cancelled || state == Failed { return Refused; }
      SetState(Running);
      var added := CommitChunk(lease.chunk, lease.lane);
      scheduler.CompleteLease(lease);
      MarkCompletedIfDrained();
      effect := Saved;
    }

    method Reconfigure(chunkSize: U64) returns (effect: Effect)
      requires Valid()
      modifies this
      ensures Valid() && fresh(scheduler)
      ensures (View(), effect) == (ChangeChunkSize(old(View()), chunkSize).task, Saved)
    {
      hide New, Rebuild;
      var size: U64 := if chunkSize > 1 then chunkSize else 1;
      config := config.(chunkSizeBytes := size);
      checkpoint := checkpoint.(config := checkpoint.config.(chunkSizeBytes := size));
      var files := checkpoint.checkpoint.files;
      scheduler := new Scheduler.NewWithCompleted(config, items, DoneLists(files));
      metrics := RebuildMetrics(config, items, files);
      effect := Saved;
    }

    /** What `persist` does to the task before it writes. */
    method StampNow(now: U128)
      requires Valid()
      modifies this`checkpoint
      ensures Valid() && View() == Stamp(old(View()), now)
    {
      checkpoint := checkpoint.(checkpoint :=
        checkpoint.checkpoint.(state := state, updatedAtEpochMs := now));
    }

    /** The call ended as the model says, on the same scheduler object. */
    twostate predicate Did(o: Outcome, effect: Effect)
      requires Valid()
      reads this, scheduler
    {
      View() == o.task && effect == o.effect && scheduler == old(scheduler)
    }
  }

  // ----- the engine -----

  datatype EngineError = UnknownTask | InvalidState | Persistence

  datatype Snapshot = Snapshot(
    taskId: string, state: TaskState, totalFiles: nat, metrics: Metrics, lastError: Option<string>)

  function SnapshotOf(t: Task): Snapshot {
    Snapshot(t.config.taskId, t.state, |t.items|, t.metrics, t.lastError)
  }

  /** The task after a call, the checkpoint files after it, and the answer. How the write ended is
      `save`; when it failed, the task in memory keeps what the call did. */
  function TaskAfter(o: Outcome, now: U128): Task { if o.effect == Saved then Stamp(o.task, now) else o.task }

  /** What writing a text leaves of it; None when nothing that can be read as text. */
  function Leaves(before: Option<string>, text: string, save: Save): Option<string> {
    match save
    case Stored => Some(text)
    case Untouched => before
    case Torn(k) => Some(CrashRuns.FirstChars(text, k))
    case Garbled => None
  }

  function ReadFile(store: map<string, string>, id: string): Option<string> {
    if id in store then Some(store[id]) else None
  }

  function WriteFile(store: map<string, string>, id: string, text: string, save: Save): map<string, string> {
    match Leaves(ReadFile(store, id), text, save)
    case Some(left) => store[id := left]
    case None => store - {id}
  }

  function StoreAfter(o: Outcome, store: map<string, string>, now: U128, save: Save): map<string, string> {
    if o.effect == Saved then
      var t := Stamp(o.task, now);
      WriteFile(store, t.config.taskId, Serialize(t.checkpoint), save)
    else store
  }

  function Answer(o: Outcome, now: U128, save: Save): Result<Snapshot, EngineError> {
    match o.effect
    case Refused => Err(InvalidState)
    case Unsaved => Ok(SnapshotOf(o.task))
    case Saved => if save.Stored? then Ok(SnapshotOf(Stamp(o.task, now))) else Err(Persistence)
  }

  /** What an answer tells. An error is a refusal or a save that failed; any other answer shows the
      task as it is now, and after a call that saves, the file holds just that. */
  lemma AnswerIs(o: Outcome, store: map<string, string>, now: U128, save: Save)
    ensures var r, t := Answer(o, now, save), TaskAfter(o, now);
            && (r == Err(InvalidState) <==> o.effect == Refused)
            && (r == Err(Persistence) <==> o.effect == Saved && !save.Stored?)
            && (r.Ok? ==>
                 && r.value.taskId == t.config.taskId && r.value.state == t.state && r.value.totalFiles == |t.items|
                 && r.value.metrics == t.metrics && r.value.lastError == t.lastError
                 && (o.effect == Saved ==>
                      ReadFile(StoreAfter(o, store, now, save), t.config.taskId) == Some(Serialize(t.checkpoint))))
            && (r.Err? && r.error == InvalidState ==> StoreAfter(o, store, now, save) == store)
  {
    hide Serialize;
  }

  class TransferEngine {
    var tasks: map<string, EngineTask>
    var store: map<string, string>

    ghost function Objects(): set<object>
      reads this, tasks.Values
    {
      tasks.Values + (set id | id in tasks :: tasks[id].scheduler)
    }

    ghost predicate Valid()
      reads this, tasks.Values, Objects()
    {
      && (forall id :: id in tasks ==> tasks[id].Valid())
      && (forall a, b :: a in tasks && b in tasks && a != b ==>
           tasks[a] != tasks[b] && tasks[a].scheduler != tasks[b].scheduler)
    }

    ghost function Views(): map<string, Task>
      reads this, tasks.Values, Objects()
      requires Valid()
    {
      map id | id in tasks :: tasks[id].View()
    }

    constructor (store: map<string, string>)
      ensures Valid() && Views() == map[] && this.store == store
    {
      tasks := map[];
      this.store := store;
    }

    /** The call went as `o` says for task `id`; no other task and no other file changed. */
    twostate predicate Went(id: string, o: Outcome, now: U128, save: Save, new r: Result<Snapshot, EngineError>)
      requires old(Valid()) && Valid()
      reads this, tasks.Values, Objects()
    {
      && Views() == old(Views())[id := TaskAfter(o, now)]
      && store == StoreAfter(o, old(store), now, save)
      && r == Answer(o, now, save)
    }

    /** Nothing changed but an unknown task was reported. */
    twostate predicate Unknown(new r: Result<Snapshot, EngineError>)
      requires old(Valid()) && Valid()
      reads this, tasks.Values, Objects()
    {
      Views() == old(Views()) && store == old(store) && r == Err(UnknownTask)
    }

    lemma Alone(id: string)
      requires Valid() && id in tasks
      ensures tasks[id].Valid() && tasks[id] in Objects() && tasks[id].scheduler in Objects()
      ensures forall other :: other in tasks && other != id ==>
        tasks[other] != tasks[id] && tasks[other].scheduler != tasks[id].scheduler
    { }

    /** When only one task was touched, and it has its scheduler to itself, the engine is still
        well formed and every other task is as it was. */
    twostate lemma StillValid(id: string)
      requires old(Valid()) && tasks == old(tasks) && id in tasks && tasks[id].Valid()
      requires tasks[id].scheduler == old(tasks[id].scheduler) || fresh(tasks[id].scheduler)
      requires forall other :: other in tasks && other != id ==>
        unchanged(tasks[other]) && unchanged(tasks[other].scheduler)
      ensures Valid()
    {
      forall other | other in tasks && other != id ensures tasks[other].Valid() { }
    }

    twostate lemma OnlyOne(id: string)
      requires old(Valid()) && tasks == old(tasks) && id in tasks && tasks[id].Valid()
      requires tasks[id].scheduler == old(tasks[id].scheduler) || fresh(tasks[id].scheduler)
      requires forall other :: other in tasks && other != id ==>
        unchanged(tasks[other]) && unchanged(tasks[other].scheduler)
      ensures Valid() && Views() == old(Views())[id := tasks[id].View()]
    {
      StillValid(id);
      hide Valid;
      forall other | other in tasks && other != id
        ensures tasks[other].Valid() && old(tasks[other].Valid()) && tasks[other].View() == old(tasks[other].View())
      {
        Alone(other);
      }
    }

    /** Save a task after a call and answer. */
    method Settle(task: EngineTask, effect: Effect, now: U128, save: Save) returns (r: Result<Snapshot, EngineError>)
      requires task.Valid()
      modifies this`store, task`checkpoint
      ensures task.Valid()
      ensures task.View() == TaskAfter(Outcome(old(task.View()), effect, None), now)
      ensures store == StoreAfter(Outcome(old(task.View()), effect, None), old(store), now, save)
      ensures r == Answer(Outcome(old(task.View()), effect, None), now, save)
    {
      match effect
      case Refused => r := Err(InvalidState);
      case Unsaved => r := Ok(SnapshotNow(task));
      case Saved =>
        task.StampNow(now);
        var text := SerializeEntry(task.checkpoint);
        store := WriteFile(store, task.config.taskId, text, save);
        r := if save.Stored? then Ok(SnapshotNow(task)) else Err(Persistence);
    }

    function SnapshotNow(task: EngineTask): (s: Snapshot)
      requires task.Valid()
      reads task, task.scheduler
      ensures s == SnapshotOf(task.View())
    {
      Snapshot(task.config.taskId, task.state, |task.items|, task.metrics, task.lastError)
    }

    method TickTask(id: string, steps: nat, now: U128, save: Save) returns (r: Result<Snapshot, EngineError>)
      requires Valid()
      modifies this`store, Objects()
      ensures Valid() && tasks == old(tasks)
      ensures id !in tasks ==> Unknown(r)
      ensures id in tasks ==> Went(id, TransferTask.TickTask(old(Views()[id]), steps), now, save, r)
    {
      hide TransferTask.TickTask, Stamp, SnapshotOf, WriteFile, Valid;
      if id !in tasks { return Err(UnknownTask); }
      Alone(id);
      var effect := tasks[id].Tick(steps);
      r := Settle(tasks[id], effect, now, save);
      assert tasks[id].View() == TaskAfter(TransferTask.TickTask(old(Views()[id]), steps), now);
      OnlyOne(id);
      hide Views, Stamp, SnapshotOf;
    }

    method PauseTask(id: string, now: U128, save: Save) returns (r: Result<Snapshot, EngineError>)
      requires Valid()
      modifies this`store, Objects()
      ensures Valid() && tasks == old(tasks)
      ensures id !in tasks ==> Unknown(r)
      ensures id in tasks ==> Went(id, TransferTask.PauseTask(old(Views()[id])), now, save, r)
    {
      hide Valid;
      if id !in tasks { return Err(UnknownTask); }
      Alone(id);
      var effect := tasks[id].Pause();
      r := Settle(tasks[id], effect, now, save);
      assert tasks[id].View() == TaskAfter(TransferTask.PauseTask(old(Views()[id])), now);
      OnlyOne(id);
      hide Views, Stamp, SnapshotOf;
    }

    method ResumeTask(id: string, now: U128, save: Save) returns (r: Result<Snapshot, EngineError>)
      requires Valid()
      modifies this`store, Objects()
      ensures Valid() && tasks == old(tasks)
      ensures id !in tasks ==> Unknown(r)
      ensures id in tasks ==> Went(id, TransferTask.ResumeTask(old(Views()[id])), now, save, r)
    {
      hide Valid;
      if id !in tasks { return Err(UnknownTask); }
      Alone(id);
      var effect := tasks[id].Resume();
      r := Settle(tasks[id], effect, now, save);
      assert tasks[id].View() == TaskAfter(TransferTask.ResumeTask(old(Views()[id])), now);
      OnlyOne(id);
      hide Views, Stamp, SnapshotOf;
    }

    method CancelTask(id: string, now: U128, save: Save) returns (r: Result<Snapshot, EngineError>)
      requires Valid()
      modifies this`store, Objects()
      ensures Valid() && tasks == old(tasks)
      ensures id !in tasks ==> Unknown(r)
      ensures id in tasks ==> Went(id, TransferTask.CancelTask(old(Views()[id])), now, save, r)
    {
      hide Valid;
      if id !in tasks { return Err(UnknownTask); }
      Alone(id);
      var effect := tasks[id].Cancel();
      r := Settle(tasks[id], effect, now, save);
      assert tasks[id].View() == TaskAfter(TransferTask.CancelTask(old(Views()[id])), now);
      OnlyOne(id);
      hide Views, Stamp, SnapshotOf;
    }

    method RetryTask(id: string, now: U128, save: Save) returns (r: Result<Snapshot, EngineError>)
      requires Valid()
      modifies this`store, Objects()
      ensures Valid() && tasks == old(tasks)
      ensures id !in tasks ==> Unknown(r)
      ensures id in tasks ==> Went(id, TransferTask.RetryTask(old(Views()[id])), now, save, r)
    {
      hide Valid;
      if id !in tasks { return Err(UnknownTask); }
      Alone(id);
      var effect := tasks[id].Retry();
      r := Settle(tasks[id], effect, now, save);
      assert tasks[id].View() == TaskAfter(TransferTask.RetryTask(old(Views()[id])), now);
      OnlyOne(id);
      hide Views, Stamp, SnapshotOf;
    }

    method RecordChunkCommit(id: string, chunk: Chunk, lane: Lane, completeIfDrained: bool, now: U128, save: Save)
      returns (r: Result<Snapshot, EngineError>)
      requires Valid()
      modifies this`store, Objects()
      ensures Valid() && tasks == old(tasks)
      ensures id !in tasks ==> Unknown(r)
      ensures id in tasks ==> Went(id, RecordChunk(old(Views()[id]), chunk, lane, completeIfDrained), now, save, r)
    {
      hide Valid;
      if id !in tasks { return Err(UnknownTask); }
      Alone(id);
      var effect := tasks[id].RecordCommit(chunk, lane, completeIfDrained);
      r := Settle(tasks[id], effect, now, save);
      assert tasks[id].View() == TaskAfter(RecordChunk(old(Views()[id]), chunk, lane, completeIfDrained), now);
      OnlyOne(id);
      hide Views, Stamp, SnapshotOf;
    }

    method RecordFileComplete(id: string, f: nat, lane: Lane, now: U128, save: Save)
      returns (r: Result<Snapshot, EngineError>)
      requires Valid()
      modifies this`store, Objects()
      ensures Valid() && tasks == old(tasks)
      ensures id !in tasks ==> Unknown(r)
      ensures id in tasks ==> Went(id, RecordWholeFile(old(Views()[id]), f, lane), now, save, r)
    {
      hide RecordWholeFile, Stamp, SnapshotOf, WriteFile, Valid;
      if id !in tasks { return Err(UnknownTask); }
      Alone(id);
      var effect := tasks[id].RecordFile(f, lane);
      r := Settle(tasks[id], effect, now, save);
      assert tasks[id].View() == TaskAfter(RecordWholeFile(old(Views()[id]), f, lane), now);
      OnlyOne(id);
      hide Views, Stamp, SnapshotOf;
    }

    method CompleteChunkLease(id: string, lease: Lease, now: U128, save: Save)
      returns (r: Result<Snapshot, EngineError>)
      requires Valid()
      modifies this`store, Objects()
      ensures Valid() && tasks == old(tasks)
      ensures id !in tasks ==> Unknown(r)
      ensures id in tasks ==> Went(id, CompleteLeased(old(Views()[id]), lease), now, save, r)
    {
      hide Valid;
      if id !in tasks { return Err(UnknownTask); }
      Alone(id);
      var effect := tasks[id].CompleteReal(lease);
      r := Settle(tasks[id], effect, now, save);
      assert tasks[id].View() == TaskAfter(CompleteLeased(old(Views()[id]), lease), now);
      OnlyOne(id);
      hide Views, Stamp, SnapshotOf;
    }

    method RecordTaskFailure(id: string, message: string, now: U128, save: Save)
      returns (r: Result<Snapshot, EngineError>)
      requires Valid()
      modifies this`store, Objects()
      ensures Valid() && tasks == old(tasks)
      ensures id !in tasks ==> Unknown(r)
      ensures id in tasks ==> Went(id, FailTask(old(Views()[id]), message), now, save, r)
    {
      hide Valid;
      if id !in tasks { return Err(UnknownTask); }
      Alone(id);
      var effect := tasks[id].Fail(message);
      r := Settle(tasks[id], effect, now, save);
      assert tasks[id].View() == TaskAfter(FailTask(old(Views()[id]), message), now);
      OnlyOne(id);
      hide Views, Stamp, SnapshotOf;
    }

    method ReconfigureChunkSize(id: string, chunkSize: U64, now: U128, save: Save)
      returns (r: Result<Snapshot, EngineError>)
      requires Valid()
      modifies this`store, Objects()
      ensures Valid() && tasks == old(tasks)
      ensures id !in tasks ==> Unknown(r)
      ensures id in tasks ==> Went(id, ChangeChunkSize(old(Views()[id]), chunkSize), now, save, r)
    {
      hide Valid;
      if id !in tasks { return Err(UnknownTask); }
      Alone(id);
      var effect := tasks[id].Reconfigure(chunkSize);
      r := Settle(tasks[id], effect, now, save);
      assert tasks[id].View() == TaskAfter(ChangeChunkSize(old(Views()[id]), chunkSize), now);
      OnlyOne(id);
      hide Views, Stamp, SnapshotOf;
    }

    method LeaseRealChunk(id: string, preferred: Lane) returns (r: Result<Option<Lease>, EngineError>)
      requires Valid()
      modifies Objects()
      ensures Valid() && tasks == old(tasks) && store == old(store)
      ensures id !in tasks ==> r == Err(UnknownTask) && Views() == old(Views())
      ensures id in tasks ==>
        var o := LeaseChunk(old(Views()[id]), preferred);
        Views() == old(Views())[id := o.task] && r == if o.effect == Refused then Err(InvalidState) else Ok(o.lease)
    {
      hide Valid;
      if id !in tasks { return Err(UnknownTask); }
      Alone(id);
      var effect, lease := tasks[id].LeaseReal(preferred);
      r := if effect == Refused then Err(InvalidState) else Ok(lease);
      OnlyOne(id);
      hide Views;
    }

    /** Saved before it becomes known: when the write fails there is no task. */
    method CreateTask(config: TaskConfig, items: seq<TransferItem>, now: U128, save: Save)
      returns (r: Result<Snapshot, EngineError>)
      requires Valid()
      modifies this
      ensures Valid() && OnlyNew()
      ensures Admitted(config.taskId, TransferTask.Create(config, items), now, save, r)
    {
      hide StoreAfter, Answer, TaskAfter, TransferTask.Create;
      var task := new EngineTask.Create(config, items);
      Untouched(task);
      r := Admit(config.taskId, task, now, save);
    }

    /** Every task object was there before, or is new. */
    twostate predicate OnlyNew()
      reads this, tasks.Values
    {
      forall id :: id in tasks ==>
        || (id in old(tasks) && tasks[id] == old(tasks[id]) && tasks[id].scheduler == old(tasks[id].scheduler))
        || (fresh(tasks[id]) && fresh(tasks[id].scheduler))
    }

    twostate predicate Kept()
      requires old(Valid()) && Valid()
      reads this, tasks.Values, Objects()
    {
      Views() == old(Views()) && store == old(store)
    }

    /** The task `t` was saved and taken in, or, when it could not be saved, not taken in. */
    twostate predicate Admitted(id: string, t: Task, now: U128, save: Save, new r: Result<Snapshot, EngineError>)
      requires old(Valid()) && Valid()
      reads this, tasks.Values, Objects()
    {
      var o := Outcome(t, Saved, None);
      && r == Answer(o, now, save) && store == StoreAfter(o, old(store), now, save)
      && Views() == if save.Stored? then old(Views())[id := TaskAfter(o, now)] else old(Views())
    }

    /** Save a new task, and take it in once that worked. */
    method Admit(id: string, task: EngineTask, now: U128, save: Save) returns (r: Result<Snapshot, EngineError>)
      requires Valid() && task.Valid() && task !in Objects() && task.scheduler !in Objects()
      modifies this, task`checkpoint
      ensures Valid() && tasks == (if save.Stored? then old(tasks)[id := task] else old(tasks))
      ensures Admitted(id, old(task.View()), now, save, r)
    {
      r := Settle(task, Saved, now, save);
      Untouched(task);
      if save.Stored? {
        NotAmong(task);
        Insert(id, task);
      }
    }

    twostate lemma Untouched(new task: EngineTask)
      requires old(Valid()) && tasks == old(tasks) && task !in old(Objects())
      requires forall other :: other in tasks ==> unchanged(tasks[other]) && unchanged(tasks[other].scheduler)
      ensures Valid() && Objects() == old(Objects()) && Views() == old(Views())
    {
      forall other | other in tasks ensures tasks[other].Valid() && tasks[other].View() == old(tasks[other].View()) { }
    }

    lemma NotAmong(task: EngineTask)
      requires task !in Objects() && task.scheduler !in Objects()
      ensures Separate(tasks, task)
    {
      forall other | other in tasks ensures tasks[other] in Objects() && tasks[other].scheduler in Objects() { }
    }

    ghost predicate Separate(ts: map<string, EngineTask>, task: EngineTask)
      reads ts.Values, task
    {
      forall other :: other in ts ==> ts[other] != task && ts[other].scheduler != task.scheduler
    }

    lemma InsertedValid(was: map<string, EngineTask>, id: string, task: EngineTask)
      requires tasks == was[id := task] && task.Valid() && Separate(was, task)
      requires forall a :: a in was ==> was[a].Valid()
      requires forall a, b :: a in was && b in was && a != b ==>
        was[a] != was[b] && was[a].scheduler != was[b].scheduler
      ensures Valid()
    {
      forall a | a in tasks && a != id ensures a in was && tasks[a] == was[a] { }
    }

    lemma InsertedViews(was: map<string, EngineTask>, views: map<string, Task>, id: string, task: EngineTask)
      requires tasks == was[id := task] && Valid() && task.Valid()
      requires views.Keys == was.Keys && forall a :: a in was ==> was[a].Valid() && views[a] == was[a].View()
      ensures Views() == views[id := task.View()]
    {
      hide Valid, EngineTask.View;
      forall a | a in tasks && a != id ensures a in was && tasks[a] == was[a] { }
    }

    method Insert(id: string, task: EngineTask)
      requires Valid() && task.Valid() && Separate(tasks, task)
      modifies this`tasks
      ensures Valid() && tasks == old(tasks)[id := task]
      ensures Views() == old(Views())[id := task.View()]
    {
      ghost var was, views := tasks, Views();
      assert forall a :: a in was ==> was[a].Valid() && views[a] == was[a].View();
      tasks := tasks[id := task];
      hide Views, EngineTask.View;
      InsertedValid(was, id, task);
      InsertedViews(was, views, id, task);
    }

    /** A task still in memory is left alone; otherwise it is built from its checkpoint file. */
    method RecoverTask(id: string, now: U128, save: Save) returns (r: Result<Snapshot, EngineError>)
      requires Valid()
      modifies this
      ensures Valid() && OnlyNew()
      ensures id in old(tasks) ==> Kept() && r == Ok(SnapshotOf(old(Views()[id])))
      ensures id !in old(tasks) && Load(old(store), id).Err? ==> Kept() && r == Err(Persistence)
      ensures id !in old(tasks) && Load(old(store), id).Ok? ==>
        Admitted(id, TransferTask.Recover(Load(old(store), id).value), now, save, r)
    {
      if id in tasks {
        return Ok(SnapshotNow(tasks[id]));
      }
      var loaded := Load(store, id);
      match loaded
      case Err(e) => r := Err(e);
      case Ok(entry) => r := Rebuild(id, entry, now, save);
    }

    method Rebuild(id: string, entry: CheckpointEntry, now: U128, save: Save)
      returns (r: Result<Snapshot, EngineError>)
      requires Valid()
      modifies this
      ensures Valid() && OnlyNew()
      ensures Admitted(id, TransferTask.Recover(entry), now, save, r)
    {
      hide StoreAfter, Answer, TaskAfter, TransferTask.Recover;
      var task := new EngineTask.Recover(entry);
      Untouched(task);
      r := Admit(id, task, now, save);
    }

    /** A task in memory is left alone; else a checkpoint that can be read wins over what was asked
        for; else the task is created. */
    method CreateOrRecoverTask(config: TaskConfig, items: seq<TransferItem>, now: U128, save: Save)
      returns (r: Result<Snapshot, EngineError>)
      requires Valid()
      modifies this
      ensures Valid() && OnlyNew()
      ensures config.taskId in old(tasks) ==> Kept() && r == Ok(SnapshotOf(old(Views()[config.taskId])))
      ensures config.taskId !in old(tasks) ==>
        Admitted(config.taskId, ToOpen(old(store), config, items), now, save, r)
    {
      if config.taskId in tasks {
        return Ok(SnapshotNow(tasks[config.taskId]));
      }
      var loaded := Load(store, config.taskId);
      if loaded.Ok? {
        r := RecoverTask(config.taskId, now, save);
      } else {
        r := CreateTask(config, items, now, save);
      }
    }

    /** A running task keeps its record. Another is forgotten even when its file stays. */
    method DeleteTaskRecord(id: string, removed: bool) returns (error: Option<EngineError>)
      requires Valid()
      modifies this
      ensures Valid()
      ensures id in old(tasks) && old(Views()[id]).state == Running ==> Kept() && error == Some(InvalidState)
      ensures !(id in old(tasks) && old(Views()[id]).state == Running) ==>
        && Views() == old(Views()) - {id}
        && store == (if removed then old(store) - {id} else old(store))
        && error == (if removed then None else Some(Persistence))
    {
      if id in tasks && tasks[id].state == Running { return Some(InvalidState); }
      tasks := tasks - {id};
      if !removed { return Some(Persistence); }
      store := store - {id};
      error := None;
    }
  }

  /** Reading a checkpoint file: a missing file and a malformed one are both refused. */
  function Load(store: map<string, string>, id: string): Result<CheckpointEntry, EngineError> {
    if id !in store then Err(Persistence)
    else match Deserialize(store[id])
      case Ok(e) => Ok(e)
      case Err(_) => Err(Persistence)
  }

  /** The task that is taken in for an id that is not in memory. */
  function ToOpen(store: map<string, string>, config: TaskConfig, items: seq<TransferItem>): Task {
    match Load(store, config.taskId)
    case Ok(e) => TransferTask.Recover(e)
    case Err(_) => TransferTask.Create(config, items)
  }

  // ----- the engine's calls are the steps of its runs -----

  lemma {:induction false} LoopKeepsConfig(t: Task, step: nat, steps: nat)
    ensures TickLoop(t, step, steps).config == t.config
    decreases steps - step
  {
    if step < steps && TickOnce(t, step).Some? { LoopKeepsConfig(TickOnce(t, step).value, step + 1, steps); }
  }

  lemma {:induction false} CommitsKeepConfig(t: Task, chunks: seq<Chunk>, lane: Lane)
    ensures CommitChunks(t, chunks, lane).config == t.config
  {
    if chunks != [] { CommitsKeepConfig(t, chunks[..|chunks| - 1], lane); }
  }

  lemma CallKeepsId(t: Task, op: Op)
    ensures Apply(t, op).task.config.taskId == t.config.taskId
  {
    match op
    case Tick(steps) => LoopKeepsConfig(t.To(Running), 0, AtLeastOne(steps));
    case RecordFile(f, lane) =>
      if f < |t.items| {
        CommitsKeepConfig(t.To(Running), Split(f, t.items[f].sizeBytes, t.config.chunkSizeBytes), lane);
      }
    case _ =>
  }

  /** The engine's directory holds what the world's file does. */
  predicate Holds(store: map<string, string>, id: string, disk: CrashRuns.Disk) {
    ReadFile(store, id) == CrashRuns.Content(disk)
  }

  ghost predicate OthersSame(before: map<string, string>, after: map<string, string>, id: string) {
    forall other :: other != id ==> ReadFile(after, other) == ReadFile(before, other)
  }

  lemma WriteHolds(store: map<string, string>, disk: CrashRuns.Disk, e: CheckpointEntry, save: Save)
    requires Holds(store, e.config.taskId, disk)
    ensures var after := WriteFile(store, e.config.taskId, Serialize(e), save);
            && Holds(after, e.config.taskId, CrashRuns.AfterSave(disk, e, save))
            && OthersSame(store, after, e.config.taskId)
  {
    CrashRuns.TakeAll(Serialize(e));
    hide Serialize;
  }

  lemma SettleIsSettle(o: Outcome, leases: seq<Lease>, store: map<string, string>, disk: CrashRuns.Disk, now: U128,
                       save: Save)
    requires o.task.checkpoint.config == o.task.config && Holds(store, o.task.config.taskId, disk)
    ensures var w, after := CrashRuns.Settle(o, leases, disk, now, save), StoreAfter(o, store, now, save);
            && w.task == Some(TaskAfter(o, now)) && w.leases == leases
            && Holds(after, o.task.config.taskId, w.disk) && OthersSame(store, after, o.task.config.taskId)
  {
    hide Serialize, Holds, OthersSame, WriteFile;
    if o.effect == Saved {
      WriteHolds(store, disk, Stamp(o.task, now).checkpoint, save);
    } else {
      SameStore(store, o.task.config.taskId);
    }
  }

  lemma SameStore(store: map<string, string>, id: string)
    ensures OthersSame(store, store, id)
  { }

  /** A call on the engine moves its task and that task's file exactly as a step of module
      CrashRuns moves the world, and no other file. */
  lemma CallIsStep(w: CrashRuns.World, op: Op, store: map<string, string>, now: U128, save: Save)
    requires CrashRuns.Inv(w) && w.task.Some? && Allowed(w.task.value, w.leases, op)
    requires Holds(store, w.task.value.config.taskId, w.disk)
    ensures var id, o := w.task.value.config.taskId, Apply(w.task.value, op);
            var w1, after := CrashRuns.Step(w, CrashRuns.Call(op, now, save)), StoreAfter(o, store, now, save);
            && w1.task == Some(TaskAfter(o, now)) && TaskAfter(o, now).config.taskId == id
            && Holds(after, id, w1.disk) && OthersSame(store, after, id)
  {
    hide Apply, Allowed, QueuesOk, Holds, OthersSame, StoreAfter, CrashRuns.Settle, CrashRuns.DiskOk;
    var t := w.task.value;
    CallKeepsId(t, op);
    CallKeeps(t, w.leases, op);
    var o := Apply(t, op);
    SettleIsSettle(o, AddedLease(w.leases, o.lease), store, w.disk, now, save);
  }

  /** So does handing back an outstanding lease. */
  lemma FinishIsStep(w: CrashRuns.World, k: nat, store: map<string, string>, now: U128, save: Save)
    requires CrashRuns.Inv(w) && w.task.Some? && k < |w.leases|
    requires Holds(store, w.task.value.config.taskId, w.disk)
    ensures var id, o := w.task.value.config.taskId, CompleteLeased(w.task.value, w.leases[k]);
            var w1, after := CrashRuns.Step(w, CrashRuns.Finish(k, now, save)), StoreAfter(o, store, now, save);
            && w1.task == Some(TaskAfter(o, now)) && TaskAfter(o, now).config.taskId == id
            && Holds(after, id, w1.disk) && OthersSame(store, after, id)
  {
    hide CompleteLeased, QueuesOk, Holds, OthersSame, StoreAfter, CrashRuns.Settle, CrashRuns.DiskOk;
    var t := w.task.value;
    CallKeepsId(t, CompleteReal(w.leases[k]));
    FinishKeeps(t, w.leases, k);
    var o := CompleteLeased(t, w.leases[k]);
    SettleIsSettle(o, if o.effect == Refused then w.leases else Without(w.leases, k), store, w.disk, now, save);
  }

  /** And opening a task that is not in memory: what is admitted, and what it is saved over, are
      those of the world. */
  lemma OpenIsStep(w: CrashRuns.World, config: TaskConfig, items: seq<TransferItem>, store: map<string, string>,
                   now: U128, save: Save)
    requires w.task.None? && Holds(store, config.taskId, w.disk)
    requires ToOpen(store, config, items).config.taskId == config.taskId
    ensures var id, o := config.taskId, Outcome(ToOpen(store, config, items), Saved, None);
            var w1 := CrashRuns.Step(w, CrashRuns.Open(config, items, now, save));
            var after := StoreAfter(o, store, now, save);
            && w1.task == (if save.Stored? then Some(TaskAfter(o, now)) else None)
            && Holds(after, id, w1.disk) && OthersSame(store, after, id)
  {
    hide OthersSame, WriteFile, New, Counters.Rebuild, Deserialize, Serialize;
    WriteHolds(store, w.disk, Stamp(ToOpen(store, config, items), now).checkpoint, save);
  }
}
