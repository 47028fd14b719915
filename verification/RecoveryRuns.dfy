/** What recovery brings back: the records and items of the file, no lease and no error, and a task
    that waits to be resumed. */
module RecoveryRuns {
  import opened Wrappers
  import opened Models
  import opened Chunks
  import opened Scheduling
  import opened Checkpoint
  import opened Counters
  import opened TransferTask
  import opened EngineRuns
  import opened CrashRuns
  import opened CallEffects

  // ----- after a crash -----

  /** The item of a file, with all that the file says of it. */
  predicate SameItem(item: TransferItem, file: FileCheckpoint) {
    && item.relativePath == file.relativePath && item.sizeBytes == file.sizeBytes
    && item.modifiedAtEpochMs == file.modifiedAtEpochMs && item.fingerprint == file.fingerprintHex
  }

  /** The task brought back from an entry: its records, items and settings; no error; and nothing
      runs. It is completed or cancelled if it was saved so, and otherwise waits to be resumed. */
  predicate BroughtBack(t: Task, e: CheckpointEntry) {
    && t.config == e.config && t.Files() == e.checkpoint.files && |t.items| == |e.checkpoint.files|
    && (forall f :: 0 <= f < |t.items| ==> SameItem(t.items[f], e.checkpoint.files[f]))
    && t.lastError == None && t.sched.adbInflight == t.sched.wifiInflight == 0
    && (t.state == Completed <==> e.checkpoint.state == Completed)
    && (t.state == Cancelled <==> e.checkpoint.state == Cancelled)
    && t.state in {Completed, Cancelled, Paused} && t.checkpoint.checkpoint.state == t.state
  }

  lemma RecoverBringsBack(e: CheckpointEntry, now: U128)
    ensures BroughtBack(Stamp(Recover(e), now), e)
  {
    hide Rebuild;
    DealIsPartition(e.config, RecoveredItems(e.checkpoint.files), DoneLists(e.checkpoint.files));
    hide New;
  }

  /** From whatever state the process died in, opening the task from a file that can be read brings
      it back with no lease held, and it is known exactly when that could be saved. */
  lemma CrashAndOpen(w: World, config: TaskConfig, items: seq<TransferItem>, now: U128, save: Save)
    requires Loaded(w.disk).Some?
    ensures var w1 := Run(w, [Crash, Open(config, items, now, save)]);
            && w1.leases == [] && (w1.task.Some? <==> save == Stored)
            && (w1.task.Some? ==> BroughtBack(w1.task.value, Loaded(w.disk).value))
  {
    hide Loaded, Recover, Stamp, BroughtBack, Serialize;
    RecoverBringsBack(Loaded(w.disk).value, now);
    var open := Open(config, items, now, save);
    RunTwo(w, Crash, open);
    assert Loaded(Step(w, Crash).disk) == Loaded(w.disk);
  }

  lemma RunTwo(w: World, a: Action, b: Action)
    ensures Run(w, [a, b]) == Step(Step(w, a), b)
  {
    hide Step;
    assert [a, b][1..] == [b] && [b][1..] == [];
    assert Run(w, [a, b]) == Run(Step(w, a), [b]);
    assert Run(Step(w, a), [b]) == Run(Step(Step(w, a), b), []);
  }

  /** The calls that a paused task lets pass. */
  predicate Idles(a: Action) { a.Call? && LeavesPaused(a.op) }

  /** A paused task waits through any run of ticks, lease requests, pauses and retries: nothing is
      leased, queued or recorded meanwhile, and then a resumption makes it run. */
  lemma {:induction false} WaitsInRuns(w: World, actions: seq<Action>)
    requires w.task.Some? && w.task.value.state == w.task.value.checkpoint.checkpoint.state == Paused
    requires forall k :: 0 <= k < |actions| ==> Idles(actions[k])
    ensures var w1 := Run(w, actions);
            && w1.task.Some? && w1.leases == w.leases
            && w1.task.value.state == w1.task.value.checkpoint.checkpoint.state == Paused
            && w1.task.value.Files() == w.task.value.Files() && w1.task.value.sched == w.task.value.sched
            && w1.task.value.metrics == w.task.value.metrics
            && Apply(w1.task.value, Resume).effect == Saved
            && Apply(w1.task.value, Resume).task.state == Running
    decreases actions
  {
    hide Step, TickLoop, LeaseNext;
    if actions != [] {
      forall k | 0 <= k < |actions[1..]| ensures Idles(actions[1..][k]) { assert actions[1..][k] == actions[k + 1]; }
      assert Idles(actions[0]);
      IdleStep(w, actions[0]);
      WaitsInRuns(Step(w, actions[0]), actions[1..]);
    }
  }

  lemma IdleStep(w: World, a: Action)
    requires w.task.Some? && w.task.value.state == w.task.value.checkpoint.checkpoint.state == Paused && Idles(a)
    ensures var w1 := Step(w, a);
            && w1.task.Some? && w1.leases == w.leases
            && w1.task.value.state == w1.task.value.checkpoint.checkpoint.state == Paused
            && w1.task.value.Files() == w.task.value.Files() && w1.task.value.sched == w.task.value.sched
            && w1.task.value.metrics == w.task.value.metrics
  {
    hide TickLoop, LeaseNext, Serialize;
  }

  // ----- items and their records -----

  /** Each item and its record say the same. */
  ghost predicate Matches(t: Task) {
    |t.items| == |t.Files()| && forall f :: 0 <= f < |t.items| ==> SameItem(t.items[f], t.Files()[f])
  }

  lemma CommitMatches(t: Task, c: Chunk, lane: Lane)
    requires Matches(t)
    ensures Matches(CommitChunk(t, c, lane))
  {
    hide Sorted;
  }

  lemma {:induction false} CommitsMatch(t: Task, chunks: seq<Chunk>, lane: Lane)
    requires Matches(t)
    ensures Matches(CommitChunks(t, chunks, lane))
  {
    hide CommitChunk, Matches;
    if chunks != [] {
      CommitsMatch(t, chunks[..|chunks| - 1], lane);
      CommitMatches(CommitChunks(t, chunks[..|chunks| - 1], lane), chunks[|chunks| - 1], lane);
    }
  }

  lemma TickMatches(t: Task, step: nat)
    requires Matches(t) && TickOnce(t, step).Some?
    ensures Matches(TickOnce(t, step).value)
  {
    hide LeaseNext, CommitChunk, Complete;
    var (s, lease) := LeaseNext(t.sched, t.config.maxInFlightChunksPerLane, TickLane(step));
    CommitMatches(t.(sched := s), lease.value.chunk, lease.value.lane);
  }

  lemma {:induction false} TicksMatch(t: Task, step: nat, steps: nat)
    requires Matches(t)
    ensures Matches(TickLoop(t, step, steps))
    decreases steps - step
  {
    hide TickOnce, Matches;
    if step < steps && TickOnce(t, step).Some? {
      TickMatches(t, step);
      TicksMatch(TickOnce(t, step).value, step + 1, steps);
    }
  }

  lemma MarkMatches(t: Task)
    requires Matches(t)
    ensures Matches(MarkCompletedIfDrained(t)) && Matches(CompleteIfDrained(t))
  {
    hide EnoughIndices;
  }

  lemma ToMatches(t: Task, s: TaskState)
    ensures Matches(t.To(s)) <==> Matches(t)
  { }

  lemma CallMatches(t: Task, op: Op)
    requires Matches(t)
    ensures Matches(Apply(t, op).task)
  {
    hide TickLoop, LeaseNext, CommitChunk, CommitChunks, MarkCompletedIfDrained, CompleteIfDrained, New, Rebuild, Split;
    ToMatches(t, Running);
    match op
    case Tick(steps) =>
      TicksMatch(t.To(Running), 0, AtLeastOne(steps));
      MarkMatches(TickLoop(t.To(Running), 0, AtLeastOne(steps)));
    case RecordCommit(c, lane, check) =>
      CommitMatches(t.To(Running), c, lane);
      MarkMatches(CommitChunk(t.To(Running), c, lane));
    case RecordFile(f, lane) =>
      if f < |t.items| {
        var chunks := Split(f, t.items[f].sizeBytes, t.config.chunkSizeBytes);
        CommitsMatch(t.To(Running), chunks, lane);
        MarkMatches(CommitChunks(t.To(Running), chunks, lane));
      }
    case CompleteReal(l) => LeaseMatches(t, l);
    case _ =>
  }

  lemma LeaseMatches(t: Task, l: Lease)
    requires Matches(t)
    ensures Matches(CompleteLeased(t, l).task)
  {
    hide CommitChunk, MarkCompletedIfDrained, Complete;
    CommitMatches(t.To(Running), l.chunk, l.lane);
    var t1 := CommitChunk(t.To(Running), l.chunk, l.lane);
    MarkMatches(t1.(sched := Complete(t1.sched, l.lane)));
  }

  lemma StampMatches(t: Task, now: U128)
    ensures Matches(Stamp(t, now)) <==> Matches(t)
  { }

  lemma CreateMatches(config: TaskConfig, items: seq<TransferItem>)
    ensures Matches(Create(config, items))
  { }

  lemma StepMatches(w: World, a: Action)
    requires w.task.Some? ==> Matches(w.task.value)
    ensures var w1 := Step(w, a); w1.task.Some? ==> Matches(w1.task.value)
  {
    hide Matches, Apply, CompleteLeased, Create, Recover, Loaded, Stamp, Serialize, BroughtBack;
    match a
    case Call(op, now, _) =>
      if w.task.Some? {
        CallMatches(w.task.value, op);
        StampMatches(Apply(w.task.value, op).task, now);
      }
    case Finish(k, now, _) =>
      if w.task.Some? && k < |w.leases| {
        LeaseMatches(w.task.value, w.leases[k]);
        StampMatches(CompleteLeased(w.task.value, w.leases[k]).task, now);
      }
    case Crash =>
    case Open(config, items, now, _) =>
      CreateMatches(config, items);
      StampMatches(Create(config, items), now);
      if Loaded(w.disk).Some? {
        RecoverBringsBack(Loaded(w.disk).value, now);
        BackMatches(Stamp(Recover(Loaded(w.disk).value), now), Loaded(w.disk).value);
      }
  }

  lemma BackMatches(t: Task, e: CheckpointEntry)
    requires BroughtBack(t, e)
    ensures Matches(t)
  { }

  lemma {:induction false} RunMatches(w: World, actions: seq<Action>)
    requires w.task.Some? ==> Matches(w.task.value)
    ensures var w1 := Run(w, actions); w1.task.Some? ==> Matches(w1.task.value)
    decreases actions
  {
    hide Matches, Step;
    if actions != [] {
      StepMatches(w, actions[0]);
      RunMatches(Step(w, actions[0]), actions[1..]);
    }
  }

  /** The same item, with no digest for an empty one. */
  predicate SameItemAgain(item: TransferItem, again: TransferItem) {
    && again.relativePath == item.relativePath && again.sizeBytes == item.sizeBytes
    && again.modifiedAtEpochMs == item.modifiedAtEpochMs
    && again.fingerprint == if item.fingerprint == Some("") then None else item.fingerprint
  }

  /** Recovery brings back the live items. In any run, printing the task's checkpoint, parsing the
      text and recovering gives the items the task has. */
  lemma ItemsComeBack(actions: seq<Action>)
    requires AllowedRun(NOTHING_YET, actions) && CleanRun(NOTHING_YET, actions)
    ensures var w := Run(NOTHING_YET, actions);
            w.task.Some? ==>
              var text := Serialize(w.task.value.checkpoint);
              && Deserialize(text).Ok?
              && |Recover(Deserialize(text).value).items| == |w.task.value.items|
              && forall f :: 0 <= f < |w.task.value.items| ==>
                   SameItemAgain(w.task.value.items[f], Recover(Deserialize(text).value).items[f])
  {
    RunKeeps(NOTHING_YET, actions);
    RunMatches(NOTHING_YET, actions);
    hide Run, AllowedRun, CleanRun, QueuesOk, LagsBehind, Sound;
    var w := Run(NOTHING_YET, actions);
    if w.task.Some? { TaskComesBack(w.task.value); }
  }

  lemma TaskComesBack(t: Task)
    requires TaskOk(t) && Matches(t)
    ensures Deserialize(Serialize(t.checkpoint)) == Ok(Normalize(t.checkpoint))
    ensures var items := Recover(Normalize(t.checkpoint)).items;
            |items| == |t.items| && forall f :: 0 <= f < |items| ==> SameItemAgain(t.items[f], items[f])
  {
    hide Serialize, Deserialize, New, Rebuild, FilesOk;
    PrintThenParse(t.checkpoint);
    NormalFilesOf(t.checkpoint);
    hide Normalize;
  }
}
