/** A save that breaks off, the crash after it, and the task that is opened again. */
module TornRuns {
  import opened Wrappers
  import opened Models
  import opened Text
  import opened Scheduling
  import opened Checkpoint
  import opened CutSaves
  import opened TransferTask
  import opened EngineRuns
  import opened CrashRuns

  /** The entry a call hands to the store. */
  function Given(t: Task, op: Op, now: U128): CheckpointEntry { Stamp(Apply(t, op).task, now).checkpoint }

  function TornRun(op: Op, now: U128, k: nat, config: TaskConfig, items: seq<TransferItem>, later: U128): seq<Action> {
    [Call(op, now, Torn(k)), Crash, Open(config, items, later, Stored)]
  }

  lemma RunNext(w: World, a: Action, rest: seq<Action>)
    ensures Run(w, [a] + rest) == Run(Step(w, a), rest)
  {
    hide Step;
    assert ([a] + rest)[1..] == rest;
  }

  lemma RunsThree(w: World, a: Action, b: Action, c: Action)
    ensures Run(w, [a, b, c]) == Step(Step(Step(w, a), b), c)
  {
    hide Step;
    assert [a, b, c] == [a] + [b, c] && [b, c] == [b] + [c] && [c] == [c] + [];
    RunNext(w, a, [b, c]);
    RunNext(Step(w, a), b, [c]);
    RunNext(Step(Step(w, a), b), c, []);
  }

  lemma TornLoads(e: CheckpointEntry, k: nat)
    requires Free(e.config.taskId, '\n') && k <= |Serialize(e)|
    ensures Loaded(Written(e, k)) == if Reads(e, k) then Some(ReadAs(e, k)) else None
  {
    hide Serialize, Deserialize, Reads, ReadAs;
    CutReadsIff(e, k);
  }

  /** Whatever the call was, after a save torn at `k`, a crash and a new start the task is the one
      the first `k` characters describe, or, when they describe none, a new one. */
  lemma AfterTornSave(w: World, op: Op, now: U128, k: nat, config: TaskConfig, items: seq<TransferItem>, later: U128)
    requires Inv(w) && w.task.Some? && Allowed(w.task.value, w.leases, op)
    requires Apply(w.task.value, op).effect == Effect.Saved
    requires k <= |Serialize(Given(w.task.value, op, now))|
    ensures var e := Given(w.task.value, op, now);
            Run(w, TornRun(op, now, k, config, items, later)).task == Some(Stamp(
              if Reads(e, k) then Recover(ReadAs(e, k)) else Create(config, items), later))
  {
    hide Apply, Serialize, Reads, ReadAs, Recover, Create, TaskOk, QueuesOk, Allowed, LagsBehind, Sound, Loaded;
    var e := Given(w.task.value, op, now);
    GivenPrints(w.task.value, w.leases, op, now);
    TornLoads(e, k);
    RunsThree(w, Call(op, now, Torn(k)), Crash, Open(config, items, later, Stored));
    assert Step(w, Call(op, now, Torn(k))).disk == Written(e, k);
  }

  lemma GivenPrints(t: Task, leases: seq<Lease>, op: Op, now: U128)
    requires TaskOk(t) && QueuesOk(t, leases) && Allowed(t, leases, op)
    ensures Free(Given(t, op, now).config.taskId, '\n')
  {
    hide Apply, QueuesOk, Allowed, Free, FilesOk, Grows;
    CallKeeps(t, leases, op);
  }

  /** So a recorded chunk survives exactly when the cut falls behind it. */
  lemma TornLossIff(w: World, op: Op, now: U128, k: nat, config: TaskConfig, items: seq<TransferItem>, later: U128,
                    g: nat, v: U32Int)
    requires Inv(w) && w.task.Some? && Allowed(w.task.value, w.leases, op)
    requires Apply(w.task.value, op).effect == Effect.Saved
    requires var e := Given(w.task.value, op, now);
             && k <= |Serialize(e)| && Reads(e, k)
             && g < |e.checkpoint.files| && v in e.checkpoint.files[g].completedChunks
    ensures var t1 := Run(w, TornRun(op, now, k, config, items, later)).task;
            var e := Given(w.task.value, op, now);
            var (i, c) := Locate(AllLines(e), "\n", k);
            t1.Some? && ((g < |t1.value.Files()| && v in t1.value.Files()[g].completedChunks)
              <==> StillThere(e, i, c, g, v))
  {
    hide Apply, Serialize, Reads, ReadAs, Recover, TaskOk, QueuesOk, Allowed, LagsBehind, Sound, StillThere, AllLines,
      Run;
    var e := Given(w.task.value, op, now);
    AfterTornSave(w, op, now, k, config, items, later);
    StillThereIff(e, k, g, v);
    RecoveredLags(ReadAs(e, k), later);
  }

  // ----- a chunk that was never moved -----

  /** A task was created and paused; nothing was committed. The pause was saved as far as the
      second digit of the first file's modification time. */
  function Invention(config: TaskConfig, items: seq<TransferItem>, k: nat): seq<Action> {
    [Open(config, items, 0, Stored)] + TornRun(Pause, 0, k, config, items, 0)
  }

  lemma PausedOnce(config: TaskConfig, items: seq<TransferItem>)
    ensures var t := Stamp(Create(config, items), 0);
            && Apply(t, Pause).effect == Effect.Saved
            && Given(t, Pause, 0).checkpoint.files == InitialFiles(items)
  {
    hide New;
  }

  lemma {:induction false} FirstTwoSmall(n: nat)
    requires n >= 10
    ensures 10 <= FirstTwo(n) < 100
  {
    if n >= 100 { FirstTwoSmall(n / 10); }
  }

  lemma TimeIsIndex(e: CheckpointEntry, item: TransferItem)
    requires Free(e.config.taskId, '\n') && e.checkpoint.files != []
    requires e.checkpoint.files[0] == InitialFile(item) && item.modifiedAtEpochMs >= 10
    ensures |Decimal(item.modifiedAtEpochMs)| >= 2
    ensures var k := CutAt(e, 0, 2, 2);
            && k <= |Serialize(e)| && Reads(e, k) && |ReadAs(e, k).checkpoint.files| == 1
            && ReadAs(e, k).checkpoint.files[0].completedChunks == [FirstTwo(item.modifiedAtEpochMs)]
  {
    hide CutAt, Serialize, Deserialize, Reads, ReadAs, FirstTwo;
    FirstTwoDigits(item.modifiedAtEpochMs);
    FirstTwoSmall(item.modifiedAtEpochMs);
    TimeBecomesIndex(e, 0, 2);
    CutReadsIff(e, CutAt(e, 0, 2, 2));
  }

  /** For every task whose first file has a modification time of two digits or more there is such a
      run: after it that file counts the first two digits of its time as a completed chunk. */
  lemma TornSaveInvents(config: TaskConfig, items: seq<TransferItem>)
    requires Creatable(config, items) && items != [] && items[0].modifiedAtEpochMs >= 10
    ensures exists k :: var t := Run(NOTHING_YET, Invention(config, items, k)).task;
              && t.Some? && |t.value.Files()| == 1
              && t.value.Files()[0].completedChunks == [FirstTwo(items[0].modifiedAtEpochMs)]
  {
    hide Create, Stamp, Apply, Given, Recover, ReadAs, Reads, CutAt, Serialize, Deserialize, TaskOk, QueuesOk,
      Sound, LagsBehind, Run, Creatable, FirstTwo, TimeSoFar;
    var open := Open(config, items, 0, Stored);
    var w := Step(NOTHING_YET, open);
    var t := Stamp(Create(config, items), 0);
    StepKeeps(NOTHING_YET, open);
    PausedOnce(config, items);
    var e := Given(t, Pause, 0);
    GivenPrints(t, [], Pause, 0);
    TimeIsIndex(e, items[0]);
    var k := CutAt(e, 0, 2, 2);
    AfterTornSave(w, Pause, 0, k, config, items, 0);
    RecoveredLags(ReadAs(e, k), 0);
    RunNext(NOTHING_YET, open, TornRun(Pause, 0, k, config, items, 0));
    assert Run(NOTHING_YET, Invention(config, items, k)).task == Some(Stamp(Recover(ReadAs(e, k)), 0));
  }

  /** So a first file modified between November 2023 and January 2027 may count chunk 17 as there
      although nothing was ever sent. */
  lemma ChunkSeventeen(config: TaskConfig, items: seq<TransferItem>)
    requires Creatable(config, items) && items != []
    requires 1700000000000 <= items[0].modifiedAtEpochMs < 1800000000000
    ensures exists k :: var t := Run(NOTHING_YET, Invention(config, items, k)).task;
              t.Some? && |t.value.Files()| == 1 && t.value.Files()[0].completedChunks == [17]
  {
    hide Run, Creatable, Invention, FirstTwo, PowerOfTen;
    TenToTheEleventh();
    FirstTwoOf(items[0].modifiedAtEpochMs, 17, 11);
    TornSaveInvents(config, items);
  }

  lemma TenToTheEleventh()
    ensures PowerOfTen(11) == 100000000000
  {
    assert PowerOfTen(4) == 10000;
    assert PowerOfTen(8) == 100000000;
  }
}
