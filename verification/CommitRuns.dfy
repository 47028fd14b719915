/** Where completed indices come from: in a run in which no task was recovered from a file that lies,
    each goes back to the step of the run that committed it. */
module CommitRuns {
  import opened Wrappers
  import opened Models
  import opened Text
  import opened Chunks
  import opened Scheduling
  import opened Checkpoint
  import opened CutSaves
  import opened Counters
  import opened TransferTask
  import opened EngineRuns
  import opened CrashRuns

  /** A completed index, of the file at this place and path, in chunks of this size. */
  datatype Mark = Mark(file: nat, path: string, chunkSize: nat, index: U32Int)

  predicate FilesHave(files: seq<FileCheckpoint>, m: Mark) {
    && m.file < |files| && files[m.file].relativePath == m.path
    && m.index in files[m.file].completedChunks
  }

  predicate TaskHas(t: Task, m: Mark) { t.config.chunkSizeBytes == m.chunkSize && FilesHave(t.Files(), m) }

  predicate EntryHas(e: CheckpointEntry, m: Mark) {
    e.config.chunkSizeBytes == m.chunkSize && FilesHave(e.checkpoint.files, m)
  }

  predicate Is(c: Chunk, m: Mark) { c.fileIndex == m.file && c.chunkIndex == m.index }

  /** The call names the chunk: it is a commit of it or of its whole file, or a tick with the chunk
      in the queues. */
  ghost predicate Named(t: Task, op: Op, m: Mark) {
    match op
    case Tick(_) => exists c :: c in t.sched.Queued() && Is(c, m)
    case RecordCommit(chunk, _, _) => Is(chunk, m)
    case RecordFile(f, _) => f == m.file
    case _ => false
  }

  /** The step commits the index: it names the chunk, or hands back a lease of it, and the index is
      completed after it but not before. */
  ghost predicate Commits(w: World, a: Action, m: Mark) {
    && w.task.Some? && Step(w, a).task.Some?
    && !TaskHas(w.task.value, m) && TaskHas(Step(w, a).task.value, m)
    && match a
       case Call(op, _, _) => Named(w.task.value, op, m)
       case Finish(k, _, _) => k < |w.leases| && Is(w.leases[k].chunk, m)
       case _ => false
  }

  ghost predicate CommittedIn(w: World, actions: seq<Action>, m: Mark) {
    exists n :: 0 <= n < |actions| && Commits(Run(w, actions[..n]), actions[n], m)
  }

  // ----- what one call adds -----

  lemma CommitAdds(t: Task, chunk: Chunk, lane: Lane, m: Mark)
    ensures TaskHas(CommitChunk(t, chunk, lane), m) ==> TaskHas(t, m) || Is(chunk, m)
  {
    hide Sorted;
    if chunk.fileIndex < |t.Files()| {
      SortedMember(t.Files()[chunk.fileIndex].completedChunks + [chunk.chunkIndex], m.index);
    }
  }

  lemma {:induction false} CommitsAdd(t: Task, f: nat, chunks: seq<Chunk>, lane: Lane, m: Mark)
    requires forall k :: 0 <= k < |chunks| ==> chunks[k].fileIndex == f
    ensures TaskHas(CommitChunks(t, chunks, lane), m) ==> TaskHas(t, m) || f == m.file
  {
    hide CommitChunk, TaskHas;
    if chunks != [] {
      var n := |chunks| - 1;
      CommitsAdd(t, f, chunks[..n], lane, m);
      CommitAdds(CommitChunks(t, chunks[..n], lane), chunks[n], lane, m);
    }
  }

  lemma TickOnceAdds(t: Task, step: nat, m: Mark)
    requires TickOnce(t, step).Some?
    ensures var t1 := TickOnce(t, step).value;
            && t1.sched.Queued() <= t.sched.Queued()
            && (TaskHas(t1, m) ==> TaskHas(t, m) || exists c :: c in t.sched.Queued() && Is(c, m))
  {
    var limit := t.config.maxInFlightChunksPerLane;
    var (s, lease) := LeaseNext(t.sched, limit, TickLane(step));
    LeaseMovesOne(t.sched, limit, TickLane(step));
    CommitShape(t.(sched := s), lease.value.chunk, lease.value.lane);
    CommitAdds(t.(sched := s), lease.value.chunk, lease.value.lane, m);
    assert lease.value.chunk in t.sched.Queued();
    hide LeaseNext, CommitChunk;
  }

  lemma {:induction false} TickLoopAdds(t: Task, step: nat, steps: nat, m: Mark)
    ensures TaskHas(TickLoop(t, step, steps), m) ==> TaskHas(t, m) || exists c :: c in t.sched.Queued() && Is(c, m)
    decreases steps - step
  {
    hide TickOnce, TaskHas, Is;
    if step < steps && TickOnce(t, step).Some? {
      TickOnceAdds(t, step, m);
      TickLoopAdds(TickOnce(t, step).value, step + 1, steps, m);
    }
  }

  lemma WholeFileAdds(t: Task, f: nat, lane: Lane, m: Mark)
    ensures TaskHas(RecordWholeFile(t, f, lane).task, m) ==> TaskHas(t, m) || f == m.file
  {
    hide CommitChunk, Split;
    if MayRecord(t.state) && f < |t.items| {
      var chunks := Split(f, t.items[f].sizeBytes, t.config.chunkSizeBytes);
      forall k | 0 <= k < |chunks| ensures chunks[k].fileIndex == f { SplitFile(t, f, k); }
      CommitsAdd(t.To(Running), f, chunks, lane, m);
    }
  }

  lemma SplitFile(t: Task, f: nat, k: nat)
    requires f < |t.items| && k < |Split(f, t.items[f].sizeBytes, t.config.chunkSizeBytes)|
    ensures Split(f, t.items[f].sizeBytes, t.config.chunkSizeBytes)[k].fileIndex == f
  { }

  lemma CallAdds(t: Task, leases: seq<Lease>, op: Op, m: Mark)
    requires Allowed(t, leases, op)
    ensures TaskHas(Apply(t, op).task, m) ==> TaskHas(t, m) || Named(t, op, m)
  {
    hide CommitChunk, CommitChunks, TickLoop, LeaseNext, Rebuild, New, EnoughIndices, RecordWholeFile;
    match op
    case Tick(steps) => TickLoopAdds(t.To(Running), 0, AtLeastOne(steps), m);
    case RecordCommit(chunk, lane, check) => CommitAdds(t.To(Running), chunk, lane, m);
    case RecordFile(f, lane) => WholeFileAdds(t, f, lane, m);
    case _ =>
  }

  lemma FinishAdds(t: Task, lease: Lease, m: Mark)
    ensures TaskHas(CompleteLeased(t, lease).task, m) ==> TaskHas(t, m) || Is(lease.chunk, m)
  {
    hide CommitChunk, EnoughIndices;
    CommitAdds(t.To(Running), lease.chunk, lease.lane, m);
  }

  // ----- what loading brings back -----

  lemma CutPath(f: FileCheckpoint, c: nat)
    requires 5 <= c <= |FileLine(f)| && RecordReads(f, c)
    ensures RecordReadAs(f, c).relativePath == f.relativePath
  {
    hide FileFields, Unescape, Escape, PrintChunks;
  }

  lemma ReadAsHas(e: CheckpointEntry, k: nat, m: Mark)
    requires Sound(e) && k <= |Serialize(e)| && Reads(e, k) && NothingInvented(ReadAs(e, k), e)
    ensures EntryHas(ReadAs(e, k), m) ==> EntryHas(e, m)
  {
    hide AllLines, FileLine, RecordReads, RecordReadAs, LineReads, LineReadAs, NormalizeFile, Sound;
    SoundEntry(e);
    AllLinesCount(e);
    var (i, c) := Locate(AllLines(e), "\n", k);
    FilesLeft(e, i, c);
    ReadAsKeeps(e, i, c);
    if i >= 12 {
      NormalFiles(e.checkpoint.files[..i - 12]);
      if c >= 5 { CutPath(e.checkpoint.files[i - 12], c); }
    }
  }

  lemma LoadedHas(d: Disk, m: Mark)
    requires DiskOk(d, None) && CleanDisk(d) && Loaded(d).Some?
    ensures EntryHas(Loaded(d).value, m) ==> EntryHas(d.entry, m)
  {
    hide Serialize, Normalize, Reads, ReadAs, CleanCut, Sound, NothingInvented;
    var e, text := d.entry, Serialize(d.entry);
    SoundPrints(e);
    if d.length <= |text| {
      CutReadsIff(e, d.length);
      TornSoundIff(e, d.length);
      ReadAsHas(e, d.length, m);
    } else {
      PrintThenParse(e);
      SoundEntry(e);
      NormalConfig(e);
      NormalFiles(e.checkpoint.files);
    }
  }

  // ----- every step, every run -----

  /** All that the task and the file have is in `known`. */
  ghost predicate Known(w: World, known: iset<Mark>) {
    && (w.task.Some? ==> forall m :: TaskHas(w.task.value, m) ==> m in known)
    && (w.disk.Written? ==> forall m :: EntryHas(w.disk.entry, m) ==> m in known)
  }

  lemma SettleKnown(t: Task, disk: Disk, o: Outcome, leases: seq<Lease>, now: U128, save: Save, known: iset<Mark>)
    requires TaskOk(o.task) && Known(World(None, [], disk), known)
    requires forall m :: TaskHas(o.task, m) ==> m in known
    ensures Known(Settle(o, leases, disk, now, save), known)
  {
    hide Rebuild, FilesOk, Serialize, EntryOk;
    var t1 := Stamp(o.task, now);
    assert forall m :: TaskHas(t1, m) <==> TaskHas(o.task, m);
    assert forall m :: EntryHas(t1.checkpoint, m) <==> TaskHas(t1, m);
  }

  lemma OpenKnown(w: World, config: TaskConfig, items: seq<TransferItem>, now: U128, save: Save, known: iset<Mark>)
    requires Inv(w) && Known(w, known) && (w.task.None? ==> Creatable(config, items) && CleanDisk(w.disk))
    ensures Known(OpenTask(w, config, items, now, save), known)
  {
    hide TaskOk, QueuesOk, Sound, CleanDisk, Creatable, LagsBehind, Serialize, Loaded, New, Rebuild;
    if w.task.None? {
      var t := Stamp(Opened(w.disk, config, items), now);
      OpenedOk(w.disk, config, items, now);
      SameConfig(t);
      forall m | TaskHas(t, m) ensures m in known {
        if Loaded(w.disk).Some? {
          if w.disk.Written? { LoadedHas(w.disk, m); } else { NoFiles(w.disk); }
        }
      }
    }
  }

  lemma SameConfig(t: Task)
    requires TaskOk(t)
    ensures forall m :: EntryHas(t.checkpoint, m) <==> TaskHas(t, m)
  { }

  lemma StepKnown(w: World, a: Action, known: iset<Mark>)
    requires Inv(w) && AllowedAction(w, a) && (a.Open? && w.task.None? ==> CleanDisk(w.disk)) && Known(w, known)
    ensures Known(Step(w, a), known + iset m | Commits(w, a, m))
  {
    hide Kept, TaskOk, QueuesOk, Apply, CompleteLeased, OpenTask, CleanDisk, Creatable, Allowed, TaskHas, EntryHas;
    var more := known + iset m | Commits(w, a, m);
    match a
    case Call(op, now, save) =>
      if w.task.Some? {
        var t := w.task.value;
        var o := Apply(t, op);
        CallKeeps(t, w.leases, op);
        KeptOk(t, o.task, AddedLease(w.leases, o.lease));
        forall m | TaskHas(o.task, m) ensures m in more {
          CallAdds(t, w.leases, op, m);
          StampHas(o.task, now, m);
        }
        SettleKnown(t, w.disk, o, AddedLease(w.leases, o.lease), now, save, more);
      }
    case Finish(k, now, save) =>
      if w.task.Some? && k < |w.leases| {
        var t := w.task.value;
        var o := CompleteLeased(t, w.leases[k]);
        var leases := if o.effect == Refused then w.leases else Without(w.leases, k);
        FinishKeeps(t, w.leases, k);
        KeptOk(t, o.task, leases);
        forall m | TaskHas(o.task, m) ensures m in more {
          FinishAdds(t, w.leases[k], m);
          StampHas(o.task, now, m);
        }
        SettleKnown(t, w.disk, o, leases, now, save, more);
      }
    case Crash =>
    case Open(config, items, now, save) =>
      OpenKnown(w, config, items, now, save, known);
  }

  lemma KeptOk(t: Task, t1: Task, leases: seq<Lease>)
    requires Kept(t, t1, leases)
    ensures TaskOk(t1)
  { }

  lemma StampHas(t: Task, now: U128, m: Mark)
    ensures TaskHas(Stamp(t, now), m) <==> TaskHas(t, m)
  { }

  lemma LaterCommits(w: World, actions: seq<Action>, m: Mark)
    requires actions != []
    ensures Commits(w, actions[0], m) || CommittedIn(Step(w, actions[0]), actions[1..], m) ==>
      CommittedIn(w, actions, m)
  {
    hide Step, Commits;
    var w1, rest := Step(w, actions[0]), actions[1..];
    if Commits(w, actions[0], m) {
      assert Run(w, actions[..0]) == w;
    } else if CommittedIn(w1, rest, m) {
      var n :| 0 <= n < |rest| && Commits(Run(w1, rest[..n]), rest[n], m);
      assert actions[..n + 1][1..] == rest[..n];
      assert Commits(Run(w, actions[..n + 1]), actions[n + 1], m);
    }
  }

  lemma {:induction false} RunKnown(w: World, actions: seq<Action>, known: iset<Mark>)
    requires Inv(w) && AllowedRun(w, actions) && CleanRun(w, actions) && Known(w, known)
    ensures Known(Run(w, actions), known + iset m | CommittedIn(w, actions, m))
    decreases actions
  {
    hide Inv, AllowedAction, Step, CleanDisk, Commits, CommittedIn, TaskHas, EntryHas;
    if actions != [] {
      var w1 := Step(w, actions[0]);
      var first := known + iset m | Commits(w, actions[0], m);
      StepKeeps(w, actions[0]);
      StepKnown(w, actions[0], known);
      RunKnown(w1, actions[1..], first);
      forall m
        ensures Commits(w, actions[0], m) || CommittedIn(w1, actions[1..], m) ==> CommittedIn(w, actions, m)
      {
        LaterCommits(w, actions, m);
      }
    }
  }

  /** Nothing counts as there that was never sent. After any run, from nothing, in which no task was
      recovered from a file that lies, with saves that fail or break off and crashes in it, every
      completed index of the task was committed by an earlier step of that run: a commit of that
      chunk or of its file, a tick, or a lease of it handed back. */
  lemma EveryIndexWasCommitted(actions: seq<Action>)
    requires AllowedRun(NOTHING_YET, actions) && CleanRun(NOTHING_YET, actions)
    ensures var w := Run(NOTHING_YET, actions);
            w.task.Some? ==> forall m :: TaskHas(w.task.value, m) ==> CommittedIn(NOTHING_YET, actions, m)
  {
    hide Run, AllowedRun, CleanRun, CommittedIn, TaskHas;
    RunKnown(NOTHING_YET, actions, iset{});
  }
}
