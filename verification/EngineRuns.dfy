/** What every run of the engine keeps: coverage of all chunks, counters that agree with a
    recomputation, completion that means everything moved, and a saved checkpoint a crash can be
    recovered from. */
module EngineRuns {
  import opened Wrappers
  import opened Models
  import opened Text
  import opened Bytes
  import opened Chunks
  import opened Scheduling
  import opened Checkpoint
  import opened Counters
  import opened TransferTask

  // ----- the parts of the invariant -----

  /** A chunk of the cut of one of the files. */
  ghost predicate IsChunk(config: TaskConfig, items: seq<TransferItem>, c: Chunk) {
    c.fileIndex < |items| && c in Split(c.fileIndex, items[c.fileIndex].sizeBytes, config.chunkSizeBytes)
  }

  ghost predicate Fits(config: TaskConfig, items: seq<TransferItem>) {
    forall f :: 0 <= f < |items| ==> Count(items[f].sizeBytes, config.chunkSizeBytes) <= TWO_TO_32
  }

  /** A file's record: indices strictly ascending and in range, and lanes for no others. */
  ghost predicate FileOk(file: FileCheckpoint, count: nat) {
    && Ascends(file.completedChunks)
    && AllBelow(file.completedChunks, count)
    && (forall i :: i in file.completedChunkLanes ==> i in file.completedChunks)
  }

  ghost predicate FilesOk(config: TaskConfig, items: seq<TransferItem>, files: seq<FileCheckpoint>) {
    && |files| == |items|
    && (forall f :: 0 <= f < |files| ==>
         && files[f].sizeBytes == items[f].sizeBytes
         && FileOk(files[f], Count(items[f].sizeBytes, config.chunkSizeBytes)))
  }

  predicate Done(files: seq<FileCheckpoint>, c: Chunk) {
    c.fileIndex < |files| && c.chunkIndex in files[c.fileIndex].completedChunks
  }

  /** `pool` (what is queued or leased) holds chunks of the cut, each at most once, and among
      them every chunk that is not done. */
  ghost predicate Covers(config: TaskConfig, items: seq<TransferItem>, files: seq<FileCheckpoint>,
                         pool: multiset<Chunk>)
  {
    && (forall c :: pool[c] <= 1)
    && (forall c :: c in pool ==> IsChunk(config, items, c))
    && (forall c :: IsChunk(config, items, c) ==> c in pool || Done(files, c))
  }

  ghost predicate AllDone(config: TaskConfig, items: seq<TransferItem>, files: seq<FileCheckpoint>) {
    forall c :: IsChunk(config, items, c) ==> Done(files, c)
  }

  function Leased(leases: seq<Lease>): (r: seq<Chunk>)
    ensures |r| == |leases|
  {
    seq(|leases|, k requires 0 <= k < |leases| => leases[k].chunk)
  }

  function CountLane(leases: seq<Lease>, lane: Lane): nat {
    if leases == [] then 0
    else CountLane(leases[..|leases| - 1], lane) + (if leases[|leases| - 1].lane == lane then 1 else 0)
  }

  function Pool(s: Sched, leases: seq<Lease>): multiset<Chunk> { s.Queued() + multiset(Leased(leases)) }

  ghost predicate LanesOk(mode: TransportMode, s: Sched, leases: seq<Lease>) {
    && s.adbInflight == CountLane(leases, Adb)
    && s.wifiInflight == CountLane(leases, Wifi)
    && (mode == AdbOnly ==> s.wifi == [])
    && (mode == WifiOnly ==> s.adb == [])
  }

  ghost predicate EntryOk(e: CheckpointEntry) {
    && Free(e.config.taskId, '\n') && !EndsInCr(e.config.taskId)
    && e.checkpoint.taskId == e.config.taskId
    && e.checkpoint.transportMode == e.config.transportMode
    && e.checkpoint.verifyEnabled == e.config.verifyEnabled
  }

  ghost predicate TaskOk(t: Task) {
    && t.checkpoint.config == t.config && EntryOk(t.checkpoint)
    && Fits(t.config, t.items)
    && FilesOk(t.config, t.items, t.Files())
    && t.metrics == Rebuild(t.config, t.items, t.Files())
    && t.state == t.checkpoint.checkpoint.state
    && (t.state == Completed ==> AllDone(t.config, t.items, t.Files()))
  }

  ghost predicate QueuesOk(t: Task, leases: seq<Lease>) {
    && Covers(t.config, t.items, t.Files(), Pool(t.sched, leases))
    && LanesOk(t.config.transportMode, t.sched, leases)
  }

  // ----- committing one chunk -----

  /** A descriptor a worker may commit: a chunk of the cut, or one of no known file. */
  ghost predicate Committable(t: Task, c: Chunk) {
    c.fileIndex >= |t.items| || IsChunk(t.config, t.items, c)
  }

  lemma IsChunkAt(config: TaskConfig, items: seq<TransferItem>, c: Chunk)
    requires Fits(config, items) && IsChunk(config, items, c)
    ensures c.chunkIndex < Count(items[c.fileIndex].sizeBytes, config.chunkSizeBytes)
    ensures c == ChunkAt(c.fileIndex, items[c.fileIndex].sizeBytes, config.chunkSizeBytes, c.chunkIndex)
  { }

  lemma PerFileUpdate(config: TaskConfig, items: seq<TransferItem>, files: seq<FileCheckpoint>, f: nat,
                      file: FileCheckpoint, d: Metrics)
    requires f < |files| == |items|
    requires CountOfFile(config, items[f].sizeBytes, f, file) == Plus(PerFile(config, items, files)[f], d)
    ensures PerFile(config, items, files[f := file])
         == PerFile(config, items, files)[f := Plus(PerFile(config, items, files)[f], d)]
  { }

  /** What the recomputation adds for a newly committed index. */
  function Found(config: TaskConfig, items: seq<TransferItem>, f: nat, index: U32Int): Option<Chunk>
    requires f < |items|
  {
    FindChunk(Split(f, items[f].sizeBytes, config.chunkSizeBytes), index)
  }

  /** Recomputing after a commit gives the old counters plus the chunk that was found. */
  lemma RebuildCommit(config: TaskConfig, items: seq<TransferItem>, files: seq<FileCheckpoint>,
                      f: nat, index: U32Int, lane: Lane)
    requires f < |files| == |items|
    requires Ascends(files[f].completedChunks) && index !in files[f].completedChunks
    ensures Rebuild(config, items, files[f := CommitToFile(files[f], index, lane)])
         == Plus(Rebuild(config, items, files), MovedBy(Found(config, items, f, index), lane))
  {
    hide CountFile, FindChunk, Sum, Sorted;
    var d := MovedBy(Found(config, items, f, index), lane);
    CountCommitted(Split(f, items[f].sizeBytes, config.chunkSizeBytes), config.transportMode,
      files[f].completedChunkLanes, files[f].completedChunks, index, lane);
    PerFileUpdate(config, items, files, f, CommitToFile(files[f], index, lane), d);
    SumUpdate(PerFile(config, items, files), f, d);
  }

  /** The cut has a chunk of this file and index, and it is this long. */
  ghost predicate TrueLength(config: TaskConfig, items: seq<TransferItem>, chunk: Chunk) {
    exists c :: IsChunk(config, items, c) && c.fileIndex == chunk.fileIndex
             && c.chunkIndex == chunk.chunkIndex && c.length == chunk.length
  }

  lemma TrueLengthIff(config: TaskConfig, items: seq<TransferItem>, chunk: Chunk)
    requires Fits(config, items) && chunk.fileIndex < |items|
    ensures TrueLength(config, items, chunk) <==>
      && Found(config, items, chunk.fileIndex, chunk.chunkIndex).Some?
      && Found(config, items, chunk.fileIndex, chunk.chunkIndex).value.length == chunk.length
  {
    hide FindChunk, Split, ChunkAt, Count;
    var f, i := chunk.fileIndex, chunk.chunkIndex;
    var size, cs := items[f].sizeBytes, config.chunkSizeBytes;
    FindIsCanonical(f, size, cs, i);
    if i < Count(size, cs) {
      CutHas(f, size, cs, i);
      assert IsChunk(config, items, ChunkAt(f, size, cs, i));
    }
    if c :| IsChunk(config, items, c) && c.fileIndex == f && c.chunkIndex == i && c.length == chunk.length {
      IsChunkAt(config, items, c);
    }
  }

  lemma SameSumIff(m: Metrics, length: nat, lane: Lane, found: Option<Chunk>)
    ensures Plus(m, Moved(length, lane)) == Plus(m, MovedBy(found, lane))
       <==> found.Some? && found.value.length == length
  { }

  /** A commit keeps the live counters equal to a recomputation exactly when it changes nothing,
      or its descriptor has an index of the cut and that chunk's true length. */
  lemma CommitKeepsCountersIff(t: Task, chunk: Chunk, lane: Lane)
    requires TaskOk(t)
    ensures var t1 := CommitChunk(t, chunk, lane);
            t1.metrics == Rebuild(t1.config, t1.items, t1.Files()) <==>
              chunk.fileIndex >= |t.items| || Done(t.Files(), chunk) || TrueLength(t.config, t.items, chunk)
  {
    var f := chunk.fileIndex;
    if f < |t.items| && !Done(t.Files(), chunk) {
      var found := Found(t.config, t.items, f, chunk.chunkIndex);
      RebuildCommit(t.config, t.items, t.Files(), f, chunk.chunkIndex, lane);
      SameSumIff(t.metrics, chunk.length, lane, found);
      TrueLengthIff(t.config, t.items, chunk);
    }
  }

  /** The record a flushed bundle makes of a file, chunk 0 with the whole length, is a true one
      exactly when the file is a single chunk. */
  lemma BundleRecordIff(config: TaskConfig, items: seq<TransferItem>, f: nat)
    requires Fits(config, items) && f < |items|
    ensures TrueLength(config, items, Chunk(f, 0, 0, items[f].sizeBytes))
       <==> items[f].sizeBytes <= AtLeastOne(config.chunkSizeBytes)
  {
    TrueLengthIff(config, items, Chunk(f, 0, 0, items[f].sizeBytes));
    FindIsCanonical(f, items[f].sizeBytes, config.chunkSizeBytes, 0);
  }

  lemma CommitFileOk(file: FileCheckpoint, count: nat, i: U32Int, lane: Lane)
    requires FileOk(file, count) && i < count && i !in file.completedChunks
    ensures FileOk(CommitToFile(file, i, lane), count)
    ensures forall x :: x in CommitToFile(file, i, lane).completedChunks <==> x in file.completedChunks || x == i
  {
    PushAndSort(file.completedChunks, i);
    var xs := Sorted(file.completedChunks + [i]);
    forall k | 0 <= k < |xs| ensures xs[k] < count { assert xs[k] in xs; }
  }

  /** Files only gain completed indices, each with its lane, and keep the lanes they had. */
  ghost predicate Grows(before: seq<FileCheckpoint>, after: seq<FileCheckpoint>) {
    && |before| == |after|
    && (forall f :: 0 <= f < |before| ==>
         && after[f].relativePath == before[f].relativePath
         && (forall i :: i in before[f].completedChunks ==> i in after[f].completedChunks)
         && (forall i :: i in after[f].completedChunks && i !in before[f].completedChunks ==>
              i in after[f].completedChunkLanes)
         && (forall i :: i in before[f].completedChunkLanes ==>
              i in after[f].completedChunkLanes && after[f].completedChunkLanes[i] == before[f].completedChunkLanes[i]))
  }

  lemma CommitFilesOk(config: TaskConfig, items: seq<TransferItem>, files: seq<FileCheckpoint>,
                      chunk: Chunk, lane: Lane)
    requires Fits(config, items) && FilesOk(config, items, files)
    requires IsChunk(config, items, chunk) && !Done(files, chunk)
    ensures var f := chunk.fileIndex;
            var after := files[f := CommitToFile(files[f], chunk.chunkIndex, lane)];
            FilesOk(config, items, after) && Grows(files, after) && Done(after, chunk)
  {
    var f := chunk.fileIndex;
    IsChunkAt(config, items, chunk);
    CommitFileOk(files[f], Count(items[f].sizeBytes, config.chunkSizeBytes), chunk.chunkIndex, lane);
  }

  lemma CommitOk(t: Task, chunk: Chunk, lane: Lane)
    requires TaskOk(t) && Committable(t, chunk)
    ensures TaskOk(CommitChunk(t, chunk, lane))
    ensures Grows(t.Files(), CommitChunk(t, chunk, lane).Files())
    ensures chunk.fileIndex < |t.items| ==> Done(CommitChunk(t, chunk, lane).Files(), chunk)
  {
    if chunk.fileIndex < |t.items| && !Done(t.Files(), chunk) {
      CommitFilesOk(t.config, t.items, t.Files(), chunk, lane);
      CommitKeepsCountersIff(t, chunk, lane);
      assert TrueLength(t.config, t.items, chunk);
    }
  }

  /** Committing what is committed, on whichever lane, changes nothing at all. */
  lemma RecommitChangesNothing(t: Task, chunk: Chunk, lane: Lane, again: Lane)
    requires TaskOk(t) && Committable(t, chunk)
    ensures CommitChunk(CommitChunk(t, chunk, lane), chunk, again) == CommitChunk(t, chunk, lane)
  {
    CommitOk(t, chunk, lane);
  }

  lemma DoneGrows(before: seq<FileCheckpoint>, after: seq<FileCheckpoint>)
    requires Grows(before, after)
    ensures forall c :: Done(before, c) ==> Done(after, c)
  { }

  lemma CoversGrows(config: TaskConfig, items: seq<TransferItem>, before: seq<FileCheckpoint>,
                    after: seq<FileCheckpoint>, pool: multiset<Chunk>)
    requires Covers(config, items, before, pool) && Grows(before, after)
    ensures Covers(config, items, after, pool)
  {
    DoneGrows(before, after);
  }

  // ----- completion -----

  /** The length test of the real workers is enough: with indices ascending and in range, as many
      indices as chunks means all of them. */
  lemma EnoughMeansAll(t: Task)
    requires TaskOk(t)
    ensures EnoughIndices(t) <==> AllDone(t.config, t.items, t.Files())
  {
    var files := t.Files();
    if EnoughIndices(t) {
      forall c | IsChunk(t.config, t.items, c) ensures Done(files, c) {
        var f := c.fileIndex;
        assert HasEnough(t, f);
        Pigeonhole(files[f].completedChunks, Count(t.items[f].sizeBytes, t.config.chunkSizeBytes));
        IsChunkAt(t.config, t.items, c);
        assert files[f].completedChunks[c.chunkIndex] == c.chunkIndex;
      }
    }
    if AllDone(t.config, t.items, files) {
      forall f | 0 <= f < |t.items|
        ensures HasEnough(t, f)
      {
        EveryIndexDone(t, f);
        AllIndices(files[f].completedChunks, Count(t.items[f].sizeBytes, t.config.chunkSizeBytes));
      }
    }
  }

  lemma CutHas(f: nat, size: nat, chunkSize: nat, i: nat)
    requires i < Count(size, chunkSize) <= TWO_TO_32
    ensures ChunkAt(f, size, chunkSize, i) in Split(f, size, chunkSize)
    ensures ChunkAt(f, size, chunkSize, i).fileIndex == f && ChunkAt(f, size, chunkSize, i).chunkIndex == i
  {
    assert Split(f, size, chunkSize)[i] == ChunkAt(f, size, chunkSize, i);
  }

  lemma EveryIndexOf(config: TaskConfig, items: seq<TransferItem>, files: seq<FileCheckpoint>, f: nat)
    requires AllDone(config, items, files) && f < |items| == |files|
    requires Count(items[f].sizeBytes, config.chunkSizeBytes) <= TWO_TO_32
    ensures forall i: nat :: i < Count(items[f].sizeBytes, config.chunkSizeBytes) ==> i in files[f].completedChunks
  {
    hide Count, Split, ChunkAt;
    var size, cs := items[f].sizeBytes, config.chunkSizeBytes;
    forall i: nat | i < Count(size, cs) ensures i in files[f].completedChunks {
      CutHas(f, size, cs, i);
      assert Done(files, ChunkAt(f, size, cs, i));
    }
  }

  lemma EveryIndexDone(t: Task, f: nat)
    requires TaskOk(t) && AllDone(t.config, t.items, t.Files()) && f < |t.items|
    ensures forall i: nat :: i < Count(t.items[f].sizeBytes, t.config.chunkSizeBytes) ==>
      i in t.Files()[f].completedChunks
  {
    hide Rebuild, Ascends, AllBelow, AllDone;
    EveryIndexOf(t.config, t.items, t.Files(), f);
  }

  /** A strictly ascending list that has 0 to n - 1 starts with them. */
  lemma {:induction false} AllIndices(xs: seq<U32Int>, n: nat)
    requires Ascends(xs) && forall i: nat :: i < n ==> i in xs
    ensures |xs| >= n
    ensures forall i :: 0 <= i < n ==> xs[i] == i
  {
    if n > 0 {
      AllIndices(xs, n - 1);
      var m := n - 1;
      assert m in xs;
      var k :| 0 <= k < |xs| && xs[k] == m;
      assert k >= m;
      assert m > 0 ==> xs[m - 1] < xs[m];
    }
  }

  // ----- counters of a task that is ok -----

  lemma {:induction false} SumBounds(ms: seq<Metrics>, items: seq<TransferItem>)
    requires |ms| == |items|
    requires forall f :: 0 <= f < |ms| ==>
      ms[f].committedBytes == ms[f].adbBytes + ms[f].wifiBytes <= items[f].sizeBytes
    ensures Sum(ms).committedBytes == Sum(ms).adbBytes + Sum(ms).wifiBytes <= TotalBytes(items)
    ensures (forall f :: 0 <= f < |ms| ==> ms[f].committedBytes == items[f].sizeBytes) ==>
      Sum(ms).committedBytes == TotalBytes(items)
  {
    if ms != [] {
      var n := |ms| - 1;
      SumBounds(ms[..n], items[..n]);
      assert (forall f :: 0 <= f < |ms| ==> ms[f].committedBytes == items[f].sizeBytes) ==>
        forall f :: 0 <= f < n ==> ms[..n][f].committedBytes == items[..n][f].sizeBytes;
    }
  }

  lemma FileCount(t: Task, f: nat)
    requires TaskOk(t) && f < |t.items|
    ensures var m := PerFile(t.config, t.items, t.Files())[f];
            && m.committedBytes == m.adbBytes + m.wifiBytes <= t.items[f].sizeBytes
            && (AllDone(t.config, t.items, t.Files()) ==> m.committedBytes == t.items[f].sizeBytes)
  {
    var size, cs, file := t.items[f].sizeBytes, t.config.chunkSizeBytes, t.Files()[f];
    CountBounds(f, size, cs, t.config.transportMode, file.completedChunkLanes, file.completedChunks);
    if AllDone(t.config, t.items, t.Files()) {
      EveryIndexDone(t, f);
      AllIndices(file.completedChunks, Count(size, cs));
      Pigeonhole(file.completedChunks, Count(size, cs));
      CountAll(f, size, cs, t.config.transportMode, file.completedChunkLanes, file.completedChunks);
      LastEnd(size, cs);
    }
  }

  /** The counters add up, stay within the total, and reach it when everything is done. */
  lemma CountersAddUp(t: Task)
    requires TaskOk(t)
    ensures t.metrics.committedBytes == t.metrics.adbBytes + t.metrics.wifiBytes <= t.metrics.totalBytes
    ensures t.metrics.totalBytes == TotalBytes(t.items)
    ensures AllDone(t.config, t.items, t.Files()) ==> t.metrics.committedBytes == t.metrics.totalBytes
  {
    var ms := PerFile(t.config, t.items, t.Files());
    forall f | 0 <= f < |ms|
      ensures ms[f].committedBytes == ms[f].adbBytes + ms[f].wifiBytes <= t.items[f].sizeBytes
      ensures AllDone(t.config, t.items, t.Files()) ==> ms[f].committedBytes == t.items[f].sizeBytes
    {
      FileCount(t, f);
    }
    SumBounds(ms, t.items);
  }

  // ----- leases -----

  function Without(leases: seq<Lease>, k: nat): seq<Lease>
    requires k < |leases|
  {
    leases[..k] + leases[k + 1..]
  }

  lemma {:induction false} CountLaneSplit(a: seq<Lease>, b: seq<Lease>, lane: Lane)
    ensures CountLane(a + b, lane) == CountLane(a, lane) + CountLane(b, lane)
  {
    if b == [] {
      assert a + b == a;
    } else {
      CountLaneSplit(a, b[..|b| - 1], lane);
      assert (a + b)[..|a + b| - 1] == a + b[..|b| - 1];
    }
  }

  lemma AddLease(leases: seq<Lease>, l: Lease)
    ensures Leased(leases + [l]) == Leased(leases) + [l.chunk]
    ensures forall lane :: CountLane(leases + [l], lane) == CountLane(leases, lane) + (if l.lane == lane then 1 else 0)
  {
    assert (leases + [l])[..|leases|] == leases;
  }

  lemma DropLeaseChunk(leases: seq<Lease>, k: nat)
    requires k < |leases|
    ensures multiset(Leased(Without(leases, k))) + multiset{leases[k].chunk} == multiset(Leased(leases))
  {
    var a, b := leases[..k], leases[k + 1..];
    assert Leased(leases) == Leased(a) + [leases[k].chunk] + Leased(b);
    assert Leased(a + b) == Leased(a) + Leased(b);
  }

  lemma DropLeaseCount(leases: seq<Lease>, k: nat, lane: Lane)
    requires k < |leases|
    ensures CountLane(leases, lane) == CountLane(Without(leases, k), lane) + (if leases[k].lane == lane then 1 else 0)
  {
    var a, b := leases[..k], leases[k + 1..];
    assert leases == a + [leases[k]] + b;
    CountLaneSplit(a, b, lane);
    CountLaneSplit(a + [leases[k]], b, lane);
    AddLease(a, leases[k]);
  }

  lemma LeasePool(s: Sched, leases: seq<Lease>, limit: nat, preferred: Lane)
    requires LeaseNext(s, limit, preferred).1.Some?
    ensures var (s1, l) := LeaseNext(s, limit, preferred);
            && Pool(s1, leases + [l.value]) == Pool(s, leases)
            && l.value.chunk in Pool(s, leases)
  {
    var (s1, l) := LeaseNext(s, limit, preferred);
    LeaseMovesOne(s, limit, preferred);
    AddLease(leases, l.value);
    assert multiset(Leased(leases + [l.value])) == multiset(Leased(leases)) + multiset{l.value.chunk};
  }

  lemma LeaseLanes(mode: TransportMode, s: Sched, leases: seq<Lease>, limit: nat, preferred: Lane)
    requires LeaseNext(s, limit, preferred).1.Some? && LanesOk(mode, s, leases)
    ensures LanesOk(mode, LeaseNext(s, limit, preferred).0, leases + [LeaseNext(s, limit, preferred).1.value])
  {
    AddLease(leases, LeaseNext(s, limit, preferred).1.value);
  }

  /** Leasing keeps the pool: what leaves a queue is outstanding from then on. */
  lemma LeaseKeeps(t: Task, leases: seq<Lease>, preferred: Lane)
    requires QueuesOk(t, leases)
    ensures var (s, l) := LeaseNext(t.sched, t.config.maxInFlightChunksPerLane, preferred);
            l.Some? ==>
              && QueuesOk(t.(sched := s), leases + [l.value])
              && IsChunk(t.config, t.items, l.value.chunk)
  {
    var limit := t.config.maxInFlightChunksPerLane;
    if LeaseNext(t.sched, limit, preferred).1.Some? {
      LeasePool(t.sched, leases, limit, preferred);
      LeaseLanes(t.config.transportMode, t.sched, leases, limit, preferred);
    }
  }

  lemma ShrinkPool(config: TaskConfig, items: seq<TransferItem>, files: seq<FileCheckpoint>,
                   before: multiset<Chunk>, after: multiset<Chunk>, done: Chunk)
    requires Covers(config, items, files, before) && after + multiset{done} == before && Done(files, done)
    ensures Covers(config, items, files, after)
  {
    assert forall c :: c in after ==> c in before;
    assert forall c :: c in before ==> c in after || c == done;
    assert forall c :: after[c] <= before[c];
  }

  lemma ReturnLanes(mode: TransportMode, s: Sched, leases: seq<Lease>, k: nat)
    requires k < |leases| && LanesOk(mode, s, leases)
    ensures LanesOk(mode, Complete(s, leases[k].lane), Without(leases, k))
  {
    DropLeaseCount(leases, k, Adb);
    DropLeaseCount(leases, k, Wifi);
  }

  /** Handing back a lease whose chunk is done keeps every chunk covered. */
  lemma ReturnKeeps(t: Task, leases: seq<Lease>, k: nat)
    requires QueuesOk(t, leases) && k < |leases| && Done(t.Files(), leases[k].chunk)
    ensures QueuesOk(t.(sched := Complete(t.sched, leases[k].lane)), Without(leases, k))
  {
    DropLeaseChunk(leases, k);
    ReturnLanes(t.config.transportMode, t.sched, leases, k);
    ShrinkPool(t.config, t.items, t.Files(), Pool(t.sched, leases),
      Pool(Complete(t.sched, leases[k].lane), Without(leases, k)), leases[k].chunk);
  }

  // ----- ticking -----

  lemma TickOnceKeeps(t: Task, leases: seq<Lease>, step: nat)
    requires TaskOk(t) && QueuesOk(t, leases) && TickOnce(t, step).Some?
    ensures var t1 := TickOnce(t, step).value;
            && TaskOk(t1) && QueuesOk(t1, leases) && Grows(t.Files(), t1.Files())
            && t1.config == t.config && t1.items == t.items && t1.state == t.state
  {
    var (s, lease) := LeaseNext(t.sched, t.config.maxInFlightChunksPerLane, TickLane(step));
    var l := lease.value;
    LeaseKeeps(t, leases, TickLane(step));
    hide LeaseNext, Grows, Rebuild, FilesOk, LanesOk;
    var t0 := t.(sched := s);
    var t1 := CommitChunk(t0, l.chunk, l.lane);
    CommitOk(t0, l.chunk, l.lane);
    CoversGrows(t.config, t.items, t.Files(), t1.Files(), Pool(s, leases + [l]));
    assert QueuesOk(t1, leases + [l]);
    ReturnKeeps(t1, leases + [l], |leases|);
    assert Without(leases + [l], |leases|) == leases;
  }

  lemma GrowsRefl(a: seq<FileCheckpoint>)
    ensures Grows(a, a)
  { }

  lemma GrowsTrans(a: seq<FileCheckpoint>, b: seq<FileCheckpoint>, c: seq<FileCheckpoint>)
    requires Grows(a, b) && Grows(b, c)
    ensures Grows(a, c)
  { }

  lemma {:induction false} TickLoopKeeps(t: Task, leases: seq<Lease>, step: nat, steps: nat)
    requires TaskOk(t) && QueuesOk(t, leases)
    ensures var t1 := TickLoop(t, step, steps);
            && TaskOk(t1) && QueuesOk(t1, leases) && Grows(t.Files(), t1.Files())
            && t1.config == t.config && t1.items == t.items && t1.state == t.state
    decreases steps - step
  {
    GrowsRefl(t.Files());
    hide TaskOk, QueuesOk, Grows, TickOnce;
    if step < steps && TickOnce(t, step).Some? {
      TickOnceKeeps(t, leases, step);
      TickLoopKeeps(TickOnce(t, step).value, leases, step + 1, steps);
      GrowsTrans(t.Files(), TickOnce(t, step).value.Files(), TickLoop(t, step, steps).Files());
    }
  }

  lemma {:induction false} NoLeases(leases: seq<Lease>)
    requires CountLane(leases, Adb) == 0 && CountLane(leases, Wifi) == 0
    ensures leases == []
  { }

  /** The scheduler's completion test is enough: empty queues and nothing in flight leave no
      chunk uncommitted. */
  lemma DrainedMeansAll(t: Task, leases: seq<Lease>)
    requires QueuesOk(t, leases) && t.sched.Drained()
    ensures AllDone(t.config, t.items, t.Files())
  {
    NoLeases(leases);
  }

  function QueuedCount(s: Sched): nat { |s.adb| + |s.wifi| }

  predicate NothingInFlight(s: Sched) { s.adbInflight == 0 && s.wifiInflight == 0 }

  /** A commit touches the files and the counters only. */
  lemma CommitShape(t: Task, chunk: Chunk, lane: Lane)
    ensures var t1 := CommitChunk(t, chunk, lane);
            t1.config == t.config && t1.items == t.items && t1.sched == t.sched && t1.state == t.state
  { }

  lemma TickOnceTakesOne(t: Task, step: nat)
    requires NothingInFlight(t.sched)
    ensures TickOnce(t, step).None? <==> t.config.maxInFlightChunksPerLane == 0 || QueuedCount(t.sched) == 0
    ensures TickOnce(t, step).Some? ==>
      var t1 := TickOnce(t, step).value;
      NothingInFlight(t1.sched) && QueuedCount(t1.sched) + 1 == QueuedCount(t.sched) && t1.config == t.config
  {
    var limit := t.config.maxInFlightChunksPerLane;
    IdleIff(t.sched, limit, TickLane(step));
    var (s, lease) := LeaseNext(t.sched, limit, TickLane(step));
    if lease.Some? {
      LeaseMovesOne(t.sched, limit, TickLane(step));
      CommitShape(t.(sched := s), lease.value.chunk, lease.value.lane);
      hide LeaseNext, CommitChunk;
    }
  }

  /** With nothing leased from outside, each step takes one chunk while there is one. */
  lemma {:induction false} TickTakes(t: Task, step: nat, steps: nat)
    requires step <= steps && NothingInFlight(t.sched)
    ensures var t1 := TickLoop(t, step, steps);
            && NothingInFlight(t1.sched)
            && QueuedCount(t1.sched) == QueuedCount(t.sched)
                 - (if t.config.maxInFlightChunksPerLane == 0 then 0 else Min(QueuedCount(t.sched), steps - step))
    decreases steps - step
  {
    hide TickOnce;
    if step < steps {
      TickOnceTakesOne(t, step);
      if TickOnce(t, step).Some? { TickTakes(TickOnce(t, step).value, step + 1, steps); }
    }
  }

  /** So a tick completes a running task exactly when it has at least as many steps as chunks are
      queued (and, unless none is, may lease at all). */
  lemma TickCompletesIff(t: Task, steps: nat)
    requires NothingInFlight(t.sched) && !Terminal(t.state) && t.state != Paused
    ensures TickTask(t, steps).task.state == Completed <==>
      || QueuedCount(t.sched) == 0
      || (t.config.maxInFlightChunksPerLane > 0 && QueuedCount(t.sched) <= AtLeastOne(steps))
  {
    TickTakes(t.To(Running), 0, AtLeastOne(steps));
    TickStateKept(t.To(Running), 0, AtLeastOne(steps));
  }

  lemma {:induction false} TickStateKept(t: Task, step: nat, steps: nat)
    ensures TickLoop(t, step, steps).state == t.state
    decreases steps - step
  {
    if step < steps && TickOnce(t, step).Some? { TickStateKept(TickOnce(t, step).value, step + 1, steps); }
  }

  // ----- a fresh scheduler -----

  /** The queue holds every chunk that is not done, once, and nothing else. */
  ghost predicate ExactlyRest(config: TaskConfig, items: seq<TransferItem>, files: seq<FileCheckpoint>,
                              queued: multiset<Chunk>)
  {
    forall c :: queued[c] == if IsChunk(config, items, c) && !Done(files, c) then 1 else 0
  }

  lemma RestIsExact(config: TaskConfig, items: seq<TransferItem>, files: seq<FileCheckpoint>)
    requires |files| == |items|
    ensures ExactlyRest(config, items, files, multiset(Rest(config, items, DoneLists(files))))
  {
    RestDistinct(config, items, DoneLists(files));
    forall c ensures c in Rest(config, items, DoneLists(files)) <==> IsChunk(config, items, c) && !Done(files, c) {
      RestMember(config, items, DoneLists(files), c);
    }
  }

  lemma NewQueuesOk(config: TaskConfig, items: seq<TransferItem>, files: seq<FileCheckpoint>)
    requires |files| == |items|
    ensures var s := New(config, items, DoneLists(files));
            && ExactlyRest(config, items, files, s.Queued())
            && Covers(config, items, files, Pool(s, []))
            && LanesOk(config.transportMode, s, [])
  {
    hide New, Rest, Split;
    DealIsPartition(config, items, DoneLists(files));
    RestIsExact(config, items, files);
    assert Leased([]) == [];
    assert Pool(New(config, items, DoneLists(files)), []) == New(config, items, DoneLists(files)).Queued();
  }

  // ----- one call -----

  ghost predicate NothingDone(files: seq<FileCheckpoint>) {
    forall f :: 0 <= f < |files| ==> files[f].completedChunks == [] && files[f].completedChunkLanes == map[]
  }

  /** What the engine's callers keep to: descriptors of the cut, and a new chunk size only before
      anything moved. (Leases are handed back by `Finish` below.) */
  ghost predicate Allowed(t: Task, leases: seq<Lease>, op: Op) {
    match op
    case RecordCommit(chunk, _, _) => Committable(t, chunk)
    case Reconfigure(chunkSize) =>
      NothingDone(t.Files()) && leases == [] && Fits(t.config.(chunkSizeBytes := AtLeastOne(chunkSize)), t.items)
    case CompleteReal(_) => false
    case _ => true
  }

  function AddedLease(leases: seq<Lease>, lease: Option<Lease>): seq<Lease> {
    match lease case None => leases case Some(l) => leases + [l]
  }

  lemma MarkKeeps(t: Task, leases: seq<Lease>)
    requires TaskOk(t) && QueuesOk(t, leases)
    ensures var t1 := MarkCompletedIfDrained(t);
            && TaskOk(t1) && QueuesOk(t1, leases)
            && t1.Files() == t.Files() && t1.config == t.config && t1.items == t.items
  {
    EnoughMeansAll(t);
  }

  lemma CommitKeeps(t: Task, leases: seq<Lease>, chunk: Chunk, lane: Lane)
    requires TaskOk(t) && QueuesOk(t, leases) && Committable(t, chunk)
    ensures var t1 := CommitChunk(t, chunk, lane);
            && TaskOk(t1) && QueuesOk(t1, leases) && Grows(t.Files(), t1.Files())
            && t1.config == t.config && t1.items == t.items && t1.sched == t.sched
  {
    CommitOk(t, chunk, lane);
    CoversGrows(t.config, t.items, t.Files(), CommitChunk(t, chunk, lane).Files(), Pool(t.sched, leases));
  }

  lemma {:induction false} CommitsKeep(t: Task, leases: seq<Lease>, chunks: seq<Chunk>, lane: Lane)
    requires TaskOk(t) && QueuesOk(t, leases) && forall k :: 0 <= k < |chunks| ==> Committable(t, chunks[k])
    ensures var t1 := CommitChunks(t, chunks, lane);
            && TaskOk(t1) && QueuesOk(t1, leases) && Grows(t.Files(), t1.Files())
            && t1.config == t.config && t1.items == t.items && t1.sched == t.sched
  {
    if chunks != [] {
      var n := |chunks| - 1;
      CommitsKeep(t, leases, chunks[..n], lane);
      var t1 := CommitChunks(t, chunks[..n], lane);
      CommitKeeps(t1, leases, chunks[n], lane);
      GrowsTrans(t.Files(), t1.Files(), CommitChunk(t1, chunks[n], lane).Files());
    }
  }

  /** Every call keeps the task's invariant, and only ever adds completed indices. */
  ghost predicate Kept(t: Task, t1: Task, leases1: seq<Lease>) {
    && TaskOk(t1) && QueuesOk(t1, leases1) && Grows(t.Files(), t1.Files())
    && t1.items == t.items && t1.config.transportMode == t.config.transportMode
    && (t1.config == t.config || NothingDone(t.Files()))
  }

  lemma DrainKeeps(t: Task, leases: seq<Lease>)
    requires TaskOk(t) && QueuesOk(t, leases)
    ensures var t1 := CompleteIfDrained(t);
            && TaskOk(t1) && QueuesOk(t1, leases)
            && t1.Files() == t.Files() && t1.config == t.config && t1.items == t.items
  {
    if t.sched.Drained() { DrainedMeansAll(t, leases); }
  }

  lemma TickKeeps(t: Task, leases: seq<Lease>, steps: nat)
    requires TaskOk(t) && QueuesOk(t, leases)
    ensures Kept(t, TickTask(t, steps).task, leases)
  {
    if !Terminal(t.state) && t.state != Paused {
      TickLoopKeeps(t.To(Running), leases, 0, AtLeastOne(steps));
      DrainKeeps(TickLoop(t.To(Running), 0, AtLeastOne(steps)), leases);
    }
  }

  lemma RunningKeeps(t: Task, leases: seq<Lease>)
    requires TaskOk(t) && QueuesOk(t, leases)
    ensures TaskOk(t.To(Running)) && QueuesOk(t.To(Running), leases)
    ensures Grows(t.Files(), t.Files()) && t.To(Running).Files() == t.Files()
  { }

  lemma RecordFileKeeps(t: Task, leases: seq<Lease>, f: nat, lane: Lane)
    requires TaskOk(t) && QueuesOk(t, leases)
    ensures Kept(t, RecordWholeFile(t, f, lane).task, leases)
  {
    RunningKeeps(t, leases);
    hide TaskOk, QueuesOk, Grows;
    if MayRecord(t.state) && f < |t.items| {
      var t0 := t.To(Running);
      var chunks := Split(f, t.items[f].sizeBytes, t.config.chunkSizeBytes);
      forall k | 0 <= k < |chunks| ensures Committable(t0, chunks[k]) { assert chunks[k] in chunks; }
      CommitsKeep(t0, leases, chunks, lane);
      MarkKeeps(CommitChunks(t0, chunks, lane), leases);
    }
  }

  lemma SchedIsFree(t: Task, s: Sched)
    requires TaskOk(t)
    ensures TaskOk(t.(sched := s))
  { }

  lemma LeaseRealKeeps(t: Task, leases: seq<Lease>, preferred: Lane)
    requires TaskOk(t) && QueuesOk(t, leases)
    ensures Kept(t, LeaseChunk(t, preferred).task, AddedLease(leases, LeaseChunk(t, preferred).lease))
  {
    RunningKeeps(t, leases);
    hide Grows, QueuesOk;
    if MayRecord(t.state) && t.state != Paused {
      var t0 := t.To(Running);
      SchedIsFree(t0, LeaseNext(t0.sched, t0.config.maxInFlightChunksPerLane, preferred).0);
      hide TaskOk;
      LeaseKeeps(t0, leases, preferred);
      IdleIff(t0.sched, t0.config.maxInFlightChunksPerLane, preferred);
    }
  }

  lemma RecordCommitKeeps(t: Task, leases: seq<Lease>, chunk: Chunk, lane: Lane, check: bool)
    requires TaskOk(t) && QueuesOk(t, leases) && Committable(t, chunk)
    ensures Kept(t, RecordChunk(t, chunk, lane, check).task, leases)
  {
    if MayRecord(t.state) {
      CommitKeeps(t.To(Running), leases, chunk, lane);
      MarkKeeps(CommitChunk(t.To(Running), chunk, lane), leases);
    }
  }

  lemma NothingDoneIsNotAll(config: TaskConfig, items: seq<TransferItem>, files: seq<FileCheckpoint>)
    requires |files| == |items| > 0 && NothingDone(files)
    ensures !AllDone(config, items, files)
  {
    assert IsChunk(config, items, Split(0, items[0].sizeBytes, config.chunkSizeBytes)[0]);
  }

  lemma ReconfigureKeeps(t: Task, leases: seq<Lease>, chunkSize: U64)
    requires TaskOk(t) && QueuesOk(t, leases) && Allowed(t, leases, Reconfigure(chunkSize))
    ensures Kept(t, ChangeChunkSize(t, chunkSize).task, leases)
  {
    var t1 := ChangeChunkSize(t, chunkSize).task;
    NewQueuesOk(t1.config, t1.items, t1.Files());
    if t.items != [] { NothingDoneIsNotAll(t.config, t.items, t.Files()); }
  }

  lemma StateKept(t: Task, leases: seq<Lease>, s: TaskState, error: Option<string>)
    requires TaskOk(t) && QueuesOk(t, leases) && s != Completed
    ensures Kept(t, t, leases) && Kept(t, t.To(s).(lastError := error), leases)
  { }

  lemma PauseKeeps(t: Task, leases: seq<Lease>)
    requires TaskOk(t) && QueuesOk(t, leases)
    ensures Kept(t, PauseTask(t).task, leases)
  {
    StateKept(t, leases, Paused, t.lastError);
  }

  lemma ResumeKeeps(t: Task, leases: seq<Lease>)
    requires TaskOk(t) && QueuesOk(t, leases)
    ensures Kept(t, ResumeTask(t).task, leases)
  {
    StateKept(t, leases, Running, t.lastError);
  }

  lemma CancelKeeps(t: Task, leases: seq<Lease>)
    requires TaskOk(t) && QueuesOk(t, leases)
    ensures Kept(t, CancelTask(t).task, leases)
  {
    StateKept(t, leases, Cancelled, t.lastError);
  }

  lemma RetryKeeps(t: Task, leases: seq<Lease>)
    requires TaskOk(t) && QueuesOk(t, leases)
    ensures Kept(t, RetryTask(t).task, leases)
  {
    StateKept(t, leases, Paused, None);
  }

  lemma CallKeeps(t: Task, leases: seq<Lease>, op: Op)
    requires TaskOk(t) && QueuesOk(t, leases) && Allowed(t, leases, op)
    ensures Kept(t, Apply(t, op).task, AddedLease(leases, Apply(t, op).lease))
  {
    hide Kept, TaskOk, QueuesOk;
    match op
    case Tick(steps) => TickKeeps(t, leases, steps);
    case Pause => PauseKeeps(t, leases);
    case Resume => ResumeKeeps(t, leases);
    case Cancel => CancelKeeps(t, leases);
    case Retry => RetryKeeps(t, leases);
    case RecordCommit(chunk, lane, check) => RecordCommitKeeps(t, leases, chunk, lane, check);
    case RecordFile(f, lane) => RecordFileKeeps(t, leases, f, lane);
    case LeaseReal(preferred) => LeaseRealKeeps(t, leases, preferred);
    case RecordFailure(message) => StateKept(t, leases, Failed, Some(message));
    case Reconfigure(chunkSize) => ReconfigureKeeps(t, leases, chunkSize);
  }

  /** Handing back an outstanding lease. */
  lemma FinishKeeps(t: Task, leases: seq<Lease>, k: nat)
    requires TaskOk(t) && QueuesOk(t, leases) && k < |leases|
    ensures var o := CompleteLeased(t, leases[k]);
            Kept(t, o.task, if o.effect == Refused then leases else Without(leases, k))
  {
    if MayRecord(t.state) {
      var l := leases[k];
      assert Leased(leases)[k] == l.chunk;
      assert l.chunk in Pool(t.sched, leases);
      var t0 := t.To(Running);
      CommitKeeps(t0, leases, l.chunk, l.lane);
      CommitOk(t0, l.chunk, l.lane);
      var t1 := CommitChunk(t0, l.chunk, l.lane);
      ReturnKeeps(t1, leases, k);
      MarkKeeps(t1.(sched := Complete(t1.sched, l.lane)), Without(leases, k));
    }
  }
}
