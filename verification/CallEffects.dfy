/** What the engine's calls do, said of the task before and after them: what a commit adds and what
    it leaves alone, when a task is completed, and which states a call leads to. */
module CallEffects {
  import opened Wrappers
  import opened Models
  import opened Bytes
  import opened Chunks
  import opened Scheduling
  import opened Checkpoint
  import opened Counters
  import opened TransferTask
  import opened EngineRuns

  // ----- one commit -----

  /** The same record with one more index, on this lane. */
  ghost predicate OneMore(before: FileCheckpoint, after: FileCheckpoint, i: U32Int, lane: Lane) {
    && multiset(after.completedChunks) == multiset(before.completedChunks) + multiset{i}
    && after.completedChunkLanes == before.completedChunkLanes[i := lane]
    && after == before.(completedChunks := after.completedChunks, completedChunkLanes := after.completedChunkLanes)
  }

  /** So many more bytes in so many more chunks, all of them over this lane. */
  predicate Counted(before: Metrics, after: Metrics, length: nat, chunks: nat, lane: Lane) {
    && after.totalBytes == before.totalBytes
    && after.committedBytes == before.committedBytes + length
    && after.completedChunks == before.completedChunks + chunks
    && after.adbBytes == before.adbBytes + (if lane == Adb then length else 0)
    && after.wifiBytes == before.wifiBytes + (if lane == Wifi then length else 0)
  }

  /** The chunk is recorded, once and on the lane it was first committed on, and nothing else is. */
  ghost predicate Recorded(t: Task, t1: Task, c: Chunk, lane: Lane) {
    && t1.config == t.config && t1.items == t.items && |t1.Files()| == |t.Files()|
    && (forall g :: 0 <= g < |t.Files()| && g != c.fileIndex ==> t1.Files()[g] == t.Files()[g])
    && (c.fileIndex < |t.Files()| ==> Done(t1.Files(), c))
    && if c.fileIndex < |t.Files()| && !Done(t.Files(), c)
       then
         && OneMore(t.Files()[c.fileIndex], t1.Files()[c.fileIndex], c.chunkIndex, lane)
         && Counted(t.metrics, t1.metrics, c.length, 1, lane)
       else t1.Files() == t.Files() && t1.metrics == t.metrics
  }

  lemma {:induction false} InsertedOnce(xs: seq<U32Int>, v: U32Int)
    ensures multiset(InsertSorted(xs, v)) == multiset(xs) + multiset{v}
  {
    if xs != [] && xs[|xs| - 1] > v {
      var n := |xs| - 1;
      InsertedOnce(xs[..n], v);
      assert xs == xs[..n] + [xs[n]];
    }
  }

  lemma {:induction false} SortedSame(xs: seq<U32Int>)
    ensures multiset(Sorted(xs)) == multiset(xs)
  {
    hide InsertSorted;
    if xs != [] {
      var n := |xs| - 1;
      SortedSame(xs[..n]);
      InsertedOnce(Sorted(xs[..n]), xs[n]);
      assert xs == xs[..n] + [xs[n]];
    }
  }

  lemma CommitRecords(t: Task, c: Chunk, lane: Lane)
    ensures Recorded(t, CommitChunk(t, c, lane), c, lane)
  {
    hide Sorted;
    if c.fileIndex < |t.Files()| && !Done(t.Files(), c) {
      var xs := t.Files()[c.fileIndex].completedChunks;
      SortedSame(xs + [c.chunkIndex]);
      assert c.chunkIndex in multiset(Sorted(xs + [c.chunkIndex]));
    }
  }

  lemma MarkKeepsRecords(t: Task)
    ensures var t1 := MarkCompletedIfDrained(t);
            t1.Files() == t.Files() && t1.metrics == t.metrics && t1.config == t.config && t1.items == t.items
            && t1.sched == t.sched
  { }

  predicate Stopped(s: TaskState) { s == Cancelled || s == Failed }

  /** Recording a commit. A cancelled or failed task refuses it. Any other records the chunk, unless
      its file is unknown or it was done before, and leaves the queues alone. */
  lemma CommitIsRecorded(t: Task, c: Chunk, lane: Lane, check: bool)
    ensures var o := Apply(t, RecordCommit(c, lane, check));
            if Stopped(t.state) then o == Outcome(t, Refused, None)
            else o.effect == Saved && o.lease == None && o.task.sched == t.sched && Recorded(t, o.task, c, lane)
  {
    CommitRecords(t.To(Running), c, lane);
    CommitShape(t.To(Running), c, lane);
    MarkKeepsRecords(CommitChunk(t.To(Running), c, lane));
    hide CommitChunk, MarkCompletedIfDrained, OneMore, Counted;
  }

  /** A finished lease likewise, and its lane has one less in flight. */
  lemma LeaseIsRecorded(t: Task, l: Lease)
    ensures var o := CompleteLeased(t, l);
            if Stopped(t.state) then o == Outcome(t, Refused, None)
            else
              && o.effect == Saved && Recorded(t, o.task, l.chunk, l.lane)
              && o.task.sched.adb == t.sched.adb && o.task.sched.wifi == t.sched.wifi
              && o.task.sched.adbInflight == LessOne(t.sched.adbInflight, l.lane == Adb)
              && o.task.sched.wifiInflight == LessOne(t.sched.wifiInflight, l.lane == Wifi)
  {
    CommitRecords(t.To(Running), l.chunk, l.lane);
    var t1 := CommitChunk(t.To(Running), l.chunk, l.lane);
    CommitShape(t.To(Running), l.chunk, l.lane);
    MarkKeepsRecords(t1.(sched := Complete(t1.sched, l.lane)));
    hide CommitChunk, MarkCompletedIfDrained, OneMore, Counted;
  }

  function LessOne(n: nat, less: bool): nat { if less && n > 0 then n - 1 else n }

  // ----- a whole file -----

  /** The bytes and the number of the chunks that are not done. */
  function MissingBytes(files: seq<FileCheckpoint>, chunks: seq<Chunk>): nat {
    if chunks == [] then 0
    else
      var c := chunks[|chunks| - 1];
      MissingBytes(files, chunks[..|chunks| - 1]) + if Done(files, c) then 0 else c.length
  }

  function MissingCount(files: seq<FileCheckpoint>, chunks: seq<Chunk>): nat {
    if chunks == [] then 0
    else MissingCount(files, chunks[..|chunks| - 1]) + if Done(files, chunks[|chunks| - 1]) then 0 else 1
  }

  predicate HasIndex(chunks: seq<Chunk>, i: U32Int) { exists k :: 0 <= k < |chunks| && chunks[k].chunkIndex == i }

  function RecordedLane(file: FileCheckpoint, i: U32Int): Option<Lane> {
    if i in file.completedChunkLanes then Some(file.completedChunkLanes[i]) else None
  }

  /** These indices are done as well, the new ones on this lane; the record is otherwise the same. */
  ghost predicate Joined(before: FileCheckpoint, after: FileCheckpoint, chunks: seq<Chunk>, lane: Lane) {
    && (forall i: U32Int :: i in after.completedChunks <==> i in before.completedChunks || HasIndex(chunks, i))
    && (forall i: U32Int :: RecordedLane(after, i) ==
         if HasIndex(chunks, i) && i !in before.completedChunks then Some(lane) else RecordedLane(before, i))
    && after == before.(completedChunks := after.completedChunks, completedChunkLanes := after.completedChunkLanes)
  }

  /** These chunks of file `f` are recorded, and nothing else is. */
  ghost predicate AllRecorded(t: Task, t1: Task, f: nat, chunks: seq<Chunk>, lane: Lane)
    requires f < |t.Files()|
  {
    && t1.config == t.config && t1.items == t.items && t1.sched == t.sched && |t1.Files()| == |t.Files()|
    && (forall g :: 0 <= g < |t.Files()| && g != f ==> t1.Files()[g] == t.Files()[g])
    && Joined(t.Files()[f], t1.Files()[f], chunks, lane)
    && Counted(t.metrics, t1.metrics, MissingBytes(t.Files(), chunks), MissingCount(t.Files(), chunks), lane)
  }

  lemma NoneRecorded(t: Task, f: nat, lane: Lane)
    requires f < |t.Files()|
    ensures AllRecorded(t, t, f, [], lane)
  { }

  lemma IndexNext(chunks: seq<Chunk>, i: U32Int)
    requires chunks != []
    ensures HasIndex(chunks, i) <==> HasIndex(chunks[..|chunks| - 1], i) || chunks[|chunks| - 1].chunkIndex == i
  {
    var n := |chunks| - 1;
    if HasIndex(chunks, i) {
      var k :| 0 <= k < |chunks| && chunks[k].chunkIndex == i;
      if k < n { assert chunks[..n][k] == chunks[k]; }
    }
    if HasIndex(chunks[..n], i) {
      var k :| 0 <= k < n && chunks[..n][k].chunkIndex == i;
      assert chunks[k].chunkIndex == i;
    }
  }

  lemma JoinNext(before: FileCheckpoint, mid: FileCheckpoint, after: FileCheckpoint, chunks: seq<Chunk>, lane: Lane)
    requires chunks != [] && Joined(before, mid, chunks[..|chunks| - 1], lane)
    requires var i := chunks[|chunks| - 1].chunkIndex;
             if i in mid.completedChunks then after == mid else OneMore(mid, after, i, lane)
    requires !HasIndex(chunks[..|chunks| - 1], chunks[|chunks| - 1].chunkIndex)
    ensures Joined(before, after, chunks, lane)
  {
    hide HasIndex;
    var c := chunks[|chunks| - 1].chunkIndex;
    forall i: U32Int
      ensures HasIndex(chunks, i) <==> HasIndex(chunks[..|chunks| - 1], i) || i == c
      ensures i in after.completedChunks <==> i in mid.completedChunks || i == c
    {
      IndexNext(chunks, i);
      if after != mid {
        assert i in multiset(after.completedChunks) <==> i in multiset(mid.completedChunks) + multiset{c};
      }
    }
  }

  lemma RecordNext(t: Task, mid: Task, after: Task, f: nat, chunks: seq<Chunk>, lane: Lane)
    requires f < |t.Files()| && chunks != [] && AllRecorded(t, mid, f, chunks[..|chunks| - 1], lane)
    requires chunks[|chunks| - 1].fileIndex == f && after.sched == mid.sched
    requires Recorded(mid, after, chunks[|chunks| - 1], lane)
    requires !HasIndex(chunks[..|chunks| - 1], chunks[|chunks| - 1].chunkIndex)
    ensures AllRecorded(t, after, f, chunks, lane)
  {
    hide HasIndex, OneMore, Joined;
    var c := chunks[|chunks| - 1];
    JoinedDone(t.Files()[f], mid.Files()[f], chunks[..|chunks| - 1], lane, c.chunkIndex);
    JoinNext(t.Files()[f], mid.Files()[f], after.Files()[f], chunks, lane);
  }

  lemma JoinedDone(before: FileCheckpoint, after: FileCheckpoint, chunks: seq<Chunk>, lane: Lane, i: U32Int)
    requires Joined(before, after, chunks, lane) && !HasIndex(chunks, i)
    ensures i in after.completedChunks <==> i in before.completedChunks
  { }

  predicate OneFile(chunks: seq<Chunk>, f: nat) {
    && (forall k :: 0 <= k < |chunks| ==> chunks[k].fileIndex == f)
    && (forall j, k :: 0 <= j < k < |chunks| ==> chunks[j].chunkIndex != chunks[k].chunkIndex)
  }

  lemma OneFileLess(chunks: seq<Chunk>, f: nat)
    requires OneFile(chunks, f) && chunks != []
    ensures OneFile(chunks[..|chunks| - 1], f) && chunks[|chunks| - 1].fileIndex == f
    ensures !HasIndex(chunks[..|chunks| - 1], chunks[|chunks| - 1].chunkIndex)
  { }

  lemma {:induction false} CommitsRecord(t: Task, f: nat, chunks: seq<Chunk>, lane: Lane)
    requires f < |t.Files()| && OneFile(chunks, f)
    ensures AllRecorded(t, CommitChunks(t, chunks, lane), f, chunks, lane)
  {
    hide AllRecorded, CommitChunk, OneFile, Recorded, HasIndex;
    if chunks == [] {
      NoneRecorded(t, f, lane);
    } else {
      var n := |chunks| - 1;
      OneFileLess(chunks, f);
      CommitsRecord(t, f, chunks[..n], lane);
      var mid := CommitChunks(t, chunks[..n], lane);
      CommitRecords(mid, chunks[n], lane);
      CommitShape(mid, chunks[n], lane);
      RecordNext(t, mid, CommitChunk(mid, chunks[n], lane), f, chunks, lane);
    }
  }

  lemma SplitIsOneFile(f: nat, size: nat, chunkSize: nat)
    requires Count(size, chunkSize) <= TWO_TO_32
    ensures var chunks := Split(f, size, chunkSize);
            OneFile(chunks, f) && forall i: U32Int :: HasIndex(chunks, i) <==> i < Count(size, chunkSize)
  {
    var chunks := Split(f, size, chunkSize);
    forall k | 0 <= k < |chunks| ensures chunks[k].fileIndex == f && chunks[k].chunkIndex == k {
      CutHas(f, size, chunkSize, k);
    }
    hide Split, Count, ChunkAt;
    forall i: U32Int | i < |chunks| ensures HasIndex(chunks, i) { assert chunks[i].chunkIndex == i; }
  }

  /** Recording a whole file. Of a known file every chunk is recorded, those done before staying on
      the lane they were committed on, and the counters rise by exactly the others; no other file
      and no queue changes. */
  lemma FileIsRecorded(t: Task, f: nat, lane: Lane)
    requires TaskOk(t) && f < |t.items|
    ensures var o, chunks := Apply(t, RecordFile(f, lane)), Split(f, t.items[f].sizeBytes, t.config.chunkSizeBytes);
            if Stopped(t.state) then o == Outcome(t, Refused, None)
            else
              && o.effect == Saved && o.lease == None && AllRecorded(t, o.task, f, chunks, lane)
              && (forall i: U32Int :: i < Count(t.items[f].sizeBytes, t.config.chunkSizeBytes) ==>
                   i in o.task.Files()[f].completedChunks)
  {
    hide Split, Count, CommitChunks, AllRecorded, OneFile, Rebuild;
    var chunks := Split(f, t.items[f].sizeBytes, t.config.chunkSizeBytes);
    assert Count(t.items[f].sizeBytes, t.config.chunkSizeBytes) <= TWO_TO_32;
    SplitIsOneFile(f, t.items[f].sizeBytes, t.config.chunkSizeBytes);
    if !Stopped(t.state) {
      var t0 := t.To(Running);
      CommitsRecord(t0, f, chunks, lane);
      SameRecords(t, t0, CommitChunks(t0, chunks, lane), Apply(t, RecordFile(f, lane)).task, f, chunks, lane);
      AllAreDone(t, Apply(t, RecordFile(f, lane)).task, f, chunks, lane);
    }
  }

  lemma SameRecords(t: Task, t0: Task, mid: Task, t1: Task, f: nat, chunks: seq<Chunk>, lane: Lane)
    requires f < |t.Files()| && t0 == t.To(Running) && AllRecorded(t0, mid, f, chunks, lane)
    requires t1 == MarkCompletedIfDrained(mid)
    ensures AllRecorded(t, t1, f, chunks, lane)
  {
    MarkKeepsRecords(mid);
    hide MarkCompletedIfDrained, Joined, Counted;
  }

  lemma AllAreDone(t: Task, t1: Task, f: nat, chunks: seq<Chunk>, lane: Lane)
    requires f < |t.Files()| && AllRecorded(t, t1, f, chunks, lane)
    ensures forall i: U32Int :: HasIndex(chunks, i) ==> i in t1.Files()[f].completedChunks
  { }

  // ----- a tick -----

  /** One step of a tick takes the first chunk of a lane's queue and records it over that lane, and
      leaves nothing in flight that was not before. It is the ADB lane on even steps and the Wi-Fi lane
      on odd ones, if that lane has a chunk and may have one more in flight. */
  lemma TickRecords(t: Task, step: nat)
    requires TickOnce(t, step).Some?
    ensures var t1 := TickOnce(t, step).value;
            exists lane ::
              && t.sched.Queue(lane) != [] && Recorded(t, t1, t.sched.Queue(lane)[0], lane)
              && (step % 2 == 0 && t.sched.adb != [] && t.sched.adbInflight < t.config.maxInFlightChunksPerLane ==>
                   lane == Adb)
              && (step % 2 == 1 && t.sched.wifi != [] && t.sched.wifiInflight < t.config.maxInFlightChunksPerLane ==>
                   lane == Wifi)
              && t1.sched.Queue(lane) == t.sched.Queue(lane)[1..]
              && t1.sched.Queue(OtherLane(lane)) == t.sched.Queue(OtherLane(lane))
              && t1.sched.adbInflight == t.sched.adbInflight && t1.sched.wifiInflight == t.sched.wifiInflight
  {
    var limit := t.config.maxInFlightChunksPerLane;
    var (s, lease) := LeaseNext(t.sched, limit, TickLane(step));
    var l := lease.value;
    LeaseMovesOne(t.sched, limit, TickLane(step));
    LeaseOrder(t.sched, limit, TickLane(step));
    CommitShape(t.(sched := s), l.chunk, l.lane);
    CommitRecords(t.(sched := s), l.chunk, l.lane);
    hide LeaseNext, CommitChunk;
    assert t.sched.Queue(l.lane)[0] == l.chunk && t.sched.Queue(l.lane)[1..] == s.Queue(l.lane);
    assert Recorded(t, TickOnce(t, step).value, l.chunk, l.lane);
  }

  predicate NothingOpen(s: Sched) { s.adb == s.wifi == [] && s.adbInflight == s.wifiInflight == 0 }

  /** A tick that is not refused and finds the task not paused leaves it completed exactly when its
      queues are empty and nothing is in flight, and running otherwise. */
  lemma TickEnds(t: Task, steps: nat)
    requires t.state !in {Completed, Cancelled, Failed, Paused}
    ensures var o := Apply(t, Tick(steps));
            && o.effect == Saved && o.lease == None
            && o.task.state == if NothingOpen(o.task.sched) then Completed else Running
  {
    TickStateKept(t.To(Running), 0, AtLeastOne(steps));
    hide TickLoop;
  }

  // ----- leases, new tasks, other chunk sizes, saving -----

  /** Asking for a lease sets the task running and records nothing. What is leased leaves the queue
      of its lane and is in flight there. */
  lemma LeaseIs(t: Task, preferred: Lane)
    requires t.state !in {Cancelled, Failed, Paused}
    ensures var o := Apply(t, LeaseReal(preferred));
            && o.effect == Unsaved && SameBut(t.(sched := o.task.sched), o.task, Running, t.lastError)
            && (o.lease == None ==> o.task.sched == t.sched)
            && (o.lease.Some? ==>
                 var l, s, s1 := o.lease.value, t.sched, o.task.sched;
                 && s.Queue(l.lane) == [l.chunk] + s1.Queue(l.lane)
                 && s1.Inflight(l.lane) == s.Inflight(l.lane) + 1
                 && s1.Queue(OtherLane(l.lane)) == s.Queue(OtherLane(l.lane))
                 && s1.Inflight(OtherLane(l.lane)) == s.Inflight(OtherLane(l.lane)))
  {
    hide LeaseNext;
    var limit := t.config.maxInFlightChunksPerLane;
    if LeaseNext(t.sched, limit, preferred).1.Some? {
      LeaseMovesOne(t.sched, limit, preferred);
    } else {
      IdleKeeps(t.sched, limit, preferred);
    }
  }

  lemma IdleKeeps(s: Sched, limit: nat, preferred: Lane)
    requires LeaseNext(s, limit, preferred).1.None?
    ensures LeaseNext(s, limit, preferred).0 == s
  { }

  /** A new task waits to be started, with nothing recorded, counted or in flight. */
  lemma NewTaskIs(config: TaskConfig, items: seq<TransferItem>)
    ensures var t := Create(config, items);
            && t.config == config && t.items == items && t.state == Pending && t.lastError == None
            && t.metrics == Metrics(TotalBytes(items), 0, 0, 0, 0)
            && t.sched.adbInflight == t.sched.wifiInflight == 0
            && t.checkpoint.config == config
            && t.checkpoint.checkpoint == TaskCheckpoint(config.taskId, Pending, config.transportMode,
                 config.verifyEnabled, config.createdAtEpochMs, t.Files())
            && |t.Files()| == |items|
            && forall f :: 0 <= f < |items| ==>
                 t.Files()[f] == FileCheckpoint(items[f].relativePath, items[f].sizeBytes,
                   items[f].modifiedAtEpochMs, items[f].fingerprint, [], map[], None)
  {
    DealIsPartition(config, items, []);
    hide New;
  }

  /** Another chunk size goes into the settings and the checkpoint's copy of them; zero counts as one.
      What is not done is queued anew in chunks of that size, nothing is in flight, the counters are
      those of the records, and these and the state stay. */
  lemma ReconfiguredIs(t: Task, chunkSize: U64)
    requires t.checkpoint.config == t.config
    ensures var o, size := Apply(t, Reconfigure(chunkSize)), if chunkSize == 0 then 1 else chunkSize;
            && o.effect == Saved && o.lease == None
            && o.task.config == t.config.(chunkSizeBytes := size) == o.task.checkpoint.config
            && o.task.checkpoint.checkpoint == t.checkpoint.checkpoint && o.task.items == t.items
            && o.task.state == t.state && o.task.lastError == t.lastError
            && o.task.sched.Queued() == multiset(Rest(o.task.config, t.items, DoneLists(t.Files())))
            && o.task.sched.adbInflight == o.task.sched.wifiInflight == 0
            && o.task.metrics == Rebuild(o.task.config, t.items, t.Files())
  {
    hide New, Rebuild, Rest, DoneLists;
    DealIsPartition(t.config.(chunkSizeBytes := AtLeastOne(chunkSize)), t.items, DoneLists(t.Files()));
  }

  /** What is saved carries the task's state and the time. */
  lemma SavedIs(t: Task, now: U128)
    ensures Stamp(t, now) == t.(checkpoint := Stamp(t, now).checkpoint)
    ensures var c := Stamp(t, now).checkpoint;
            && c.config == t.checkpoint.config && c.checkpoint.files == t.Files()
            && c.checkpoint.state == t.state && c.checkpoint.updatedAtEpochMs == now
            && c.checkpoint.taskId == t.checkpoint.checkpoint.taskId
            && c.checkpoint.transportMode == t.checkpoint.checkpoint.transportMode
            && c.checkpoint.verifyEnabled == t.checkpoint.checkpoint.verifyEnabled
  { }

  // ----- completion -----

  /** Every chunk of the cut is done. */
  ghost predicate Finished(t: Task) { AllDone(t.config, t.items, t.Files()) }

  /** What a call with the completion test leaves: a completed task exactly when nothing is left to
      do, and otherwise a running one. */
  ghost predicate Tested(t1: Task) {
    (t1.state == Completed <==> Finished(t1)) && (t1.state != Completed ==> t1.state == Running)
  }

  lemma MarkTests(t: Task)
    requires TaskOk(t) && t.state == Running
    ensures Tested(MarkCompletedIfDrained(t))
  {
    EnoughMeansAll(t);
    MarkKeepsRecords(t);
    hide AllDone, EnoughIndices, Rebuild, FilesOk;
  }

  /** The workers' completion. After a commit with the test, a whole-file record, or a lease handed
      back, a task that is not refused is completed exactly when every chunk is done; after a commit
      without the test it is running. */
  lemma CompletedIff(t: Task, leases: seq<Lease>, op: Op)
    requires TaskOk(t) && QueuesOk(t, leases) && Allowed(t, leases, op) && !Stopped(t.state)
    ensures op.RecordCommit? && op.completeIfDrained ==> Tested(Apply(t, op).task)
    ensures op.RecordFile? && op.fileIndex < |t.items| ==> Tested(Apply(t, op).task)
    ensures op.RecordCommit? && !op.completeIfDrained ==> Apply(t, op).task.state == Running
  {
    hide TaskOk, QueuesOk, AllDone, MarkCompletedIfDrained, CommitChunk, CommitChunks;
    RunningKeeps(t, leases);
    var t0 := t.To(Running);
    if op.RecordCommit? {
      OnlyItems(t0, op.chunk);
      CommitKeeps(t0, leases, op.chunk, op.lane);
      CommitShape(t0, op.chunk, op.lane);
      MarkTests(CommitChunk(t0, op.chunk, op.lane));
    }
    if op.RecordFile? && op.fileIndex < |t.items| {
      var chunks := Split(op.fileIndex, t.items[op.fileIndex].sizeBytes, t.config.chunkSizeBytes);
      forall k | 0 <= k < |chunks| ensures Committable(t0, chunks[k]) { FileCommittable(t0, op.fileIndex, k); }
      hide Split, Committable;
      CommitsKeep(t0, leases, chunks, op.fileLane);
      CommitsState(t0, chunks, op.fileLane);
      MarkTests(CommitChunks(t0, chunks, op.fileLane));
    }
  }

  lemma OnlyItems(t: Task, c: Chunk)
    ensures Committable(t, c) <==> c.fileIndex >= |t.items| || IsChunk(t.config, t.items, c)
  { }

  lemma FileCommittable(t: Task, f: nat, k: nat)
    requires f < |t.items| && k < |Split(f, t.items[f].sizeBytes, t.config.chunkSizeBytes)|
    ensures Committable(t, Split(f, t.items[f].sizeBytes, t.config.chunkSizeBytes)[k])
  {
    var chunks := Split(f, t.items[f].sizeBytes, t.config.chunkSizeBytes);
    assert chunks[k] in chunks;
  }

  lemma {:induction false} CommitsState(t: Task, chunks: seq<Chunk>, lane: Lane)
    ensures CommitChunks(t, chunks, lane).state == t.state
  {
    hide CommitChunk;
    if chunks != [] {
      CommitsState(t, chunks[..|chunks| - 1], lane);
      CommitShape(CommitChunks(t, chunks[..|chunks| - 1], lane), chunks[|chunks| - 1], lane);
    }
  }

  lemma LeaseCompletedIff(t: Task, leases: seq<Lease>, k: nat)
    requires TaskOk(t) && QueuesOk(t, leases) && k < |leases| && !Stopped(t.state)
    ensures Tested(CompleteLeased(t, leases[k]).task)
  {
    hide TaskOk, AllDone, MarkCompletedIfDrained, CommitChunk, LanesOk;
    RunningKeeps(t, leases);
    var t0, l := t.To(Running), leases[k];
    assert Leased(leases)[k] == l.chunk;
    assert l.chunk in Pool(t.sched, leases);
    OnlyItems(t0, l.chunk);
    CommitKeeps(t0, leases, l.chunk, l.lane);
    var t1 := CommitChunk(t0, l.chunk, l.lane);
    CommitShape(t0, l.chunk, l.lane);
    SchedIsFree(t1, Complete(t1.sched, l.lane));
    MarkTests(t1.(sched := Complete(t1.sched, l.lane)));
  }

  // ----- states -----

  /** The task after some calls. */
  function Calls(t: Task, ops: seq<Op>): Task
    decreases ops
  {
    if ops == [] then t else Calls(Apply(t, ops[0]).task, ops[1..])
  }

  /** The same task, but for its state and the checkpoint's copy of it, and for its error. */
  predicate SameBut(t: Task, t1: Task, s: TaskState, error: Option<string>) {
    t1 == t.(state := s, lastError := error,
             checkpoint := t.checkpoint.(checkpoint := t.checkpoint.checkpoint.(state := s)))
  }

  /** Which calls a state refuses, and that a refusal changes nothing; an unknown file is refused
      late, after the task was set running. A request that is accepted sets its state and no more;
      cancelling a task that has ended is accepted without effect. */
  lemma RefusedIff(t: Task, op: Op)
    ensures Apply(t, op).effect == Refused <==> match op
      case Tick(_) => t.state in {Completed, Cancelled, Failed}
      case Pause => t.state in {Completed, Cancelled, Failed}
      case Resume => t.state in {Pending, Running, Completed, Cancelled, Failed}
      case Retry => t.state in {Completed, Cancelled}
      case RecordCommit(_, _, _) => t.state in {Cancelled, Failed}
      case RecordFile(f, _) => t.state in {Cancelled, Failed} || f >= |t.items|
      case LeaseReal(_) => t.state in {Cancelled, Failed}
      case CompleteReal(_) => t.state in {Cancelled, Failed}
      case Cancel => false
      case RecordFailure(_) => false
      case Reconfigure(_) => false
    ensures Apply(t, op).effect == Refused ==>
      if op.RecordFile? && t.state !in {Cancelled, Failed} then SameBut(t, Apply(t, op).task, Running, t.lastError)
      else Apply(t, op).task == t
    ensures var o := Apply(t, op);
            o.effect != Refused ==> match op
              case Pause => o.effect == Saved && SameBut(t, o.task, Paused, t.lastError)
              case Resume => o.effect == Saved && SameBut(t, o.task, Running, t.lastError)
              case Retry => o.effect == Saved && SameBut(t, o.task, Paused, None)
              case RecordFailure(message) => o.effect == Saved && SameBut(t, o.task, Failed, Some(message))
              case Cancel =>
                if t.state in {Completed, Cancelled} then o == Outcome(t, Unsaved, None)
                else o.effect == Saved && SameBut(t, o.task, Cancelled, t.lastError)
              case _ => true
  {
    hide CommitChunk, CommitChunks, TickLoop, LeaseNext, New, Rebuild, MarkCompletedIfDrained;
  }

  /** A pause and a resumption together change nothing, and neither do a failure, a retry and a
      resumption, but for the error; between them the task is paused. */
  lemma BackToRunning(t: Task, message: string)
    requires t.state == t.checkpoint.checkpoint.state == Running
    ensures SameBut(t, Calls(t, [Pause]), Paused, t.lastError) && Calls(t, [Pause, Resume]) == t
    ensures SameBut(t, Calls(t, [RecordFailure(message)]), Failed, Some(message))
    ensures SameBut(t, Calls(t, [RecordFailure(message), Retry]), Paused, None)
    ensures Calls(t, [RecordFailure(message), Retry, Resume]) == t.(lastError := None)
  {
    assert [Pause, Resume][1..] == [Resume] && [Pause][1..] == [] && [Resume][1..] == [];
    var three := [RecordFailure(message), Retry, Resume];
    assert three[1..] == [Retry, Resume] && [Retry, Resume][1..] == [Resume];
    assert [RecordFailure(message), Retry][1..] == [Retry] && [Retry][1..] == [];
    assert [RecordFailure(message)][1..] == [];
  }

  predicate LeavesPaused(op: Op) { op.Tick? || op.LeaseReal? || op.Pause? || op.Retry? }

  /** A paused task waits: until it is resumed or something is recorded, no call leases or moves
      anything, and then resuming it makes it run as it is. */
  lemma {:induction false} PausedWaits(t: Task, ops: seq<Op>)
    requires t.state == t.checkpoint.checkpoint.state == Paused
    requires forall k :: 0 <= k < |ops| ==> LeavesPaused(ops[k])
    ensures var t1 := Calls(t, ops);
            && SameBut(t, t1, Paused, t1.lastError) && (t1.lastError == t.lastError || t1.lastError == None)
            && (forall lane :: LeaseChunk(t1, lane) == Outcome(t1, Unsaved, None))
            && Apply(t1, Resume).effect == Saved
            && SameBut(t, Apply(t1, Resume).task, Running, t1.lastError)
    decreases ops
  {
    hide TickLoop, LeaseNext;
    if ops != [] {
      forall k | 0 <= k < |ops[1..]| ensures LeavesPaused(ops[1..][k]) { assert ops[1..][k] == ops[k + 1]; }
      assert LeavesPaused(ops[0]);
      PausedWaits(Apply(t, ops[0]).task, ops[1..]);
    }
  }

  predicate Spares(s: TaskState, op: Op) {
    match s
    case Cancelled => !op.RecordFailure?
    case Failed => !op.Cancel? && !op.Retry?
    case _ => false
  }

  /** A cancelled task stays so unless a failure is recorded, and a failed one unless it is
      cancelled or retried; nothing is ever recorded in between. */
  lemma {:induction false} StoppedStays(t: Task, ops: seq<Op>)
    requires Stopped(t.state) && forall k :: 0 <= k < |ops| ==> Spares(t.state, ops[k])
    ensures Calls(t, ops).state == t.state && Calls(t, ops).Files() == t.Files()
    ensures t.lastError.Some? ==> Calls(t, ops).lastError.Some?
    decreases ops
  {
    hide TickLoop, LeaseNext, CommitChunk, CommitChunks, MarkCompletedIfDrained, New, Rebuild, Spares;
    if ops != [] {
      forall k | 0 <= k < |ops[1..]| ensures Spares(t.state, ops[1..][k]) { assert ops[1..][k] == ops[k + 1]; }
      assert Spares(t.state, ops[0]);
      SparedOnce(t, ops[0]);
      StoppedStays(Apply(t, ops[0]).task, ops[1..]);
    }
  }

  lemma SparedOnce(t: Task, op: Op)
    requires Stopped(t.state) && Spares(t.state, op)
    ensures var t1 := Apply(t, op).task;
            t1.state == t.state && t1.Files() == t.Files() && (t.lastError.Some? ==> t1.lastError.Some?)
  {
    hide TickLoop, LeaseNext, CommitChunk, CommitChunks, MarkCompletedIfDrained, New, Rebuild;
  }

  predicate Asks(op: Op) { op.Tick? || op.Pause? || op.Resume? || op.Cancel? || op.Retry? }

  /** A completed task is left alone by every request of the user; but a worker that asks it for
      another chunk sets it running again. */
  lemma {:induction false} CompletedStays(t: Task, ops: seq<Op>)
    requires t.state == Completed && forall k :: 0 <= k < |ops| ==> Asks(ops[k])
    ensures Calls(t, ops) == t
    ensures forall lane :: LeaseChunk(t, lane).task.state == Running && LeaseChunk(t, lane).task.Files() == t.Files()
    decreases ops
  {
    hide TickLoop, LeaseNext;
    if ops != [] {
      forall k | 0 <= k < |ops[1..]| ensures Asks(ops[1..][k]) { assert ops[1..][k] == ops[k + 1]; }
      assert Asks(ops[0]);
      CompletedStays(t, ops[1..]);
    }
  }
}
