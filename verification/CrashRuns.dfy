/** Whole runs of the engine with broken saves and crashes in them. A world is the task in memory,
    the leases its workers hold, and the checkpoint file; a crash throws the first two away, and
    opening the task again reads whatever the file holds by then. */
module CrashRuns {
  import opened Wrappers
  import opened Models
  import opened Text
  import opened Chunks
  import opened Scheduling
  import opened Checkpoint
  import opened CutSaves
  import opened Counters
  import opened TransferTask
  import opened EngineRuns

  /** How a save ended. The store empties the file and then writes it. A save that fails, or that
      the process does not live to see the end of, leaves the file untouched, with the first `k`
      characters of the new text, or broken off inside a character and so unreadable. */
  datatype Save = Stored | Untouched | Torn(k: nat) | Garbled

  /** The checkpoint file: the first `length` characters of some entry's text. */
  datatype Disk = Missing | Unreadable | Written(entry: CheckpointEntry, length: nat)

  datatype World = World(task: Option<Task>, leases: seq<Lease>, disk: Disk)

  datatype Action =
    | Call(op: Op, now: U128, save: Save)
    | Finish(k: nat, now: U128, save: Save)
    | Crash
    | Open(config: TaskConfig, items: seq<TransferItem>, now: U128, save: Save)

  function FirstChars(s: string, n: nat): string { if n <= |s| then s[..n] else s }

  function Content(d: Disk): Option<string> {
    match d
    case Written(e, n) => Some(FirstChars(Serialize(e), n))
    case _ => None
  }

  /** The entry the store loads; None when there is no file, no text, or no checkpoint in it. */
  function Loaded(d: Disk): Option<CheckpointEntry> {
    match Content(d)
    case None => None
    case Some(text) => match Deserialize(text)
      case Ok(e) => Some(e)
      case Err(_) => None
  }

  function AfterSave(d: Disk, e: CheckpointEntry, save: Save): Disk {
    match save
    case Stored => Written(e, |Serialize(e)|)
    case Untouched => d
    case Torn(k) => Written(e, k)
    case Garbled => Unreadable
  }

  /** A call that saves stamps the task first. The task keeps what the call did however the save
      ended. */
  function Settle(o: Outcome, leases: seq<Lease>, disk: Disk, now: U128, save: Save): World {
    if o.effect == Effect.Saved then
      var t := Stamp(o.task, now);
      World(Some(t), leases, AfterSave(disk, t.checkpoint, save))
    else World(Some(o.task), leases, disk)
  }

  /** The task that opening builds: recovered from the file if that can be read, else new. */
  function Opened(disk: Disk, config: TaskConfig, items: seq<TransferItem>): Task {
    match Loaded(disk) case Some(e) => Recover(e) case None => Create(config, items)
  }

  /** Opening a task that is in memory does nothing. Otherwise it is saved at once, and known only
      when that worked. */
  function OpenTask(w: World, config: TaskConfig, items: seq<TransferItem>, now: U128, save: Save): World {
    if w.task.Some? then w
    else
      var t := Stamp(Opened(w.disk, config, items), now);
      World(if save.Stored? then Some(t) else None, [], AfterSave(w.disk, t.checkpoint, save))
  }

  function FinishLease(w: World, k: nat, now: U128, save: Save): World {
    if w.task.None? || k >= |w.leases| then w
    else
      var o := CompleteLeased(w.task.value, w.leases[k]);
      Settle(o, if o.effect == Refused then w.leases else Without(w.leases, k), w.disk, now, save)
  }

  function Step(w: World, a: Action): World {
    match a
    case Call(op, now, save) =>
      if w.task.None? then w
      else
        var o := Apply(w.task.value, op);
        Settle(o, AddedLease(w.leases, o.lease), w.disk, now, save)
    case Finish(k, now, save) => FinishLease(w, k, now, save)
    case Crash => World(None, [], w.disk)
    case Open(config, items, now, save) => OpenTask(w, config, items, now, save)
  }

  function Run(w: World, actions: seq<Action>): World
    decreases actions
  {
    if actions == [] then w else Run(Step(w, actions[0]), actions[1..])
  }

  /** A task may be created with these: its id prints on one line, and no file has more chunks
      than 32-bit indices. */
  ghost predicate Creatable(config: TaskConfig, items: seq<TransferItem>) {
    Free(config.taskId, '\n') && !EndsInCr(config.taskId) && Fits(config, items)
  }

  // ----- files that can be trusted -----

  ghost predicate FullFile(file: FileCheckpoint, count: nat) {
    forall i: nat :: i < count ==> i in file.completedChunks
  }

  ghost predicate FileSound(config: TaskConfig, file: FileCheckpoint, state: TaskState) {
    var count := Count(file.sizeBytes, config.chunkSizeBytes);
    count <= TWO_TO_32 && FileOk(file, count) && (state == Completed ==> FullFile(file, count))
  }

  /** An entry a task can be recovered from. */
  ghost predicate Sound(e: CheckpointEntry) {
    && EntryOk(e)
    && (forall f :: 0 <= f < |e.checkpoint.files| ==> FileSound(e.config, e.checkpoint.files[f], e.checkpoint.state))
  }

  /** A file line cut short is harmless when it claims only indices that were recorded, and all of
      them if the task claims to be completed. */
  predicate RecordClean(f: FileCheckpoint, state: TaskState, c: nat)
    requires 5 <= c <= |FileLine(f)|
  {
    var (j, d) := Locate(FileFields(f), "|", c - 5);
    2 <= j < 5 ==>
      && (forall v :: v in Claimed(f, j, d) ==> v in f.completedChunks)
      && (state == Completed ==> Claimed(f, j, d) == f.completedChunks)
  }

  /** Where a save may break off: where the text is refused, in the save time, between file lines,
      in the last two fields of a file line, or where the line claims nothing false. */
  predicate CleanCut(e: CheckpointEntry, k: nat)
    requires k <= |Serialize(e)|
  {
    AllLinesCount(e);
    var (i, c) := Locate(AllLines(e), "\n", k);
    LineAt(e, i);
    Reads(e, k) ==> i < 12 || c < 5 || RecordClean(e.checkpoint.files[i - 12], e.checkpoint.state, c)
  }

  ghost predicate CleanDisk(d: Disk) {
    d.Written? && d.length <= |Serialize(d.entry)| ==> CleanCut(d.entry, d.length)
  }

  ghost predicate AllowedAction(w: World, a: Action) {
    match a
    case Call(op, _, _) => w.task.Some? ==> Allowed(w.task.value, w.leases, op)
    case Open(config, items, _, _) => w.task.None? ==> Creatable(config, items)
    case _ => true
  }

  ghost predicate AllowedRun(w: World, actions: seq<Action>)
    decreases actions
  {
    actions == [] || (AllowedAction(w, actions[0]) && AllowedRun(Step(w, actions[0]), actions[1..]))
  }

  /** No task is recovered from a file in which a save broke off at a place that lies. */
  ghost predicate CleanRun(w: World, actions: seq<Action>)
    decreases actions
  {
    actions == [] ||
      ((actions[0].Open? && w.task.None? ==> CleanDisk(w.disk)) && CleanRun(Step(w, actions[0]), actions[1..]))
  }

  predicate Whole(save: Save) { save.Stored? || save.Untouched? }

  /** No save breaks off half way. */
  predicate Untorn(actions: seq<Action>) {
    forall i :: 0 <= i < |actions| ==> actions[i].Crash? || Whole(actions[i].save)
  }

  predicate SameSizes(a: seq<TransferItem>, b: seq<TransferItem>) {
    |a| == |b| && forall f :: 0 <= f < |a| ==> a[f].sizeBytes == b[f].sizeBytes
  }

  /** What was last given to the file may lag behind the task, never lead it. */
  ghost predicate LagsBehind(e: CheckpointEntry, t: Task) {
    && SameSizes(RecoveredItems(e.checkpoint.files), t.items)
    && Grows(e.checkpoint.files, t.Files())
    && (e.config.chunkSizeBytes == t.config.chunkSizeBytes || NothingDone(e.checkpoint.files))
  }

  ghost predicate DiskOk(d: Disk, task: Option<Task>) {
    d.Written? ==> Sound(d.entry) && (task.Some? ==> LagsBehind(d.entry, task.value))
  }

  ghost predicate Inv(w: World) {
    && (w.task.Some? ==> TaskOk(w.task.value) && QueuesOk(w.task.value, w.leases))
    && DiskOk(w.disk, w.task)
  }

  // ----- sound entries and tasks -----

  /** An entry is sound exactly when its parts meet what a task demands of its own. */
  lemma SoundIff(e: CheckpointEntry)
    ensures var items, files := RecoveredItems(e.checkpoint.files), e.checkpoint.files;
            Sound(e) <==>
              && EntryOk(e) && Fits(e.config, items) && FilesOk(e.config, items, files)
              && (e.checkpoint.state == Completed ==> AllDone(e.config, items, files))
  {
    hide EntryOk, FileOk;
    var items, files := RecoveredItems(e.checkpoint.files), e.checkpoint.files;
    if Sound(e) && e.checkpoint.state == Completed {
      forall c | IsChunk(e.config, items, c) ensures Done(files, c) {
        IsChunkAt(e.config, items, c);
        assert FileSound(e.config, files[c.fileIndex], Completed);
      }
    }
    if EntryOk(e) && Fits(e.config, items) && FilesOk(e.config, items, files)
       && (e.checkpoint.state == Completed ==> AllDone(e.config, items, files))
    {
      forall f | 0 <= f < |files| ensures FileSound(e.config, files[f], e.checkpoint.state) {
        assert Count(items[f].sizeBytes, e.config.chunkSizeBytes) <= TWO_TO_32;
        if e.checkpoint.state == Completed { EveryIndexOf(e.config, items, files, f); }
      }
    }
  }

  lemma SameChunks(config: TaskConfig, a: seq<TransferItem>, b: seq<TransferItem>, c: Chunk)
    requires SameSizes(a, b)
    ensures IsChunk(config, a, c) <==> IsChunk(config, b, c)
  { }

  lemma SameAllDone(config: TaskConfig, a: seq<TransferItem>, b: seq<TransferItem>, files: seq<FileCheckpoint>)
    requires SameSizes(a, b) && AllDone(config, a, files)
    ensures AllDone(config, b, files)
  {
    forall c | IsChunk(config, b, c) ensures Done(files, c) { SameChunks(config, a, b, c); }
  }

  lemma SameFilesOk(config: TaskConfig, a: seq<TransferItem>, b: seq<TransferItem>, files: seq<FileCheckpoint>)
    requires SameSizes(a, b) && Fits(config, a) && FilesOk(config, a, files)
    ensures Fits(config, b) && FilesOk(config, b, files)
  { }

  lemma SizesKept(config: TaskConfig, items: seq<TransferItem>, files: seq<FileCheckpoint>)
    requires FilesOk(config, items, files)
    ensures SameSizes(items, RecoveredItems(files)) && SameSizes(RecoveredItems(files), items)
  { }

  /** A task that is ok leaves a sound entry, level with it. */
  lemma TaskSound(t: Task)
    requires TaskOk(t)
    ensures Sound(t.checkpoint) && LagsBehind(t.checkpoint, t)
  {
    hide Rebuild, EntryOk, Count, FileOk;
    var items := RecoveredItems(t.Files());
    SizesKept(t.config, t.items, t.Files());
    SameFilesOk(t.config, t.items, items, t.Files());
    if t.state == Completed { SameAllDone(t.config, t.items, items, t.Files()); }
    SoundIff(t.checkpoint);
    GrowsRefl(t.Files());
  }

  /** A sound entry gives a task that is ok, with its queues holding exactly the chunks the entry
      does not have. */
  lemma RecoverOk(e: CheckpointEntry, now: U128)
    requires Sound(e)
    ensures var r := Recover(e);
            && TaskOk(Stamp(r, now)) && QueuesOk(Stamp(r, now), [])
            && ExactlyRest(e.config, RecoveredItems(e.checkpoint.files), e.checkpoint.files, r.sched.Queued())
            && NothingInFlight(r.sched)
  {
    hide Sound, New, Free, EndsInCr, Rebuild, Covers, ExactlyRest, FilesOk, Fits, AllDone;
    SoundIff(e);
    NewQueuesOk(e.config, RecoveredItems(e.checkpoint.files), e.checkpoint.files);
  }

  lemma NothingRebuilt(config: TaskConfig, items: seq<TransferItem>)
    ensures Rebuild(config, items, InitialFiles(items)) == ZERO.(totalBytes := TotalBytes(items))
  {
    var ms := PerFile(config, items, InitialFiles(items));
    forall f | 0 <= f < |ms| ensures ms[f].Nothing() { NothingInFile(config, items[f], f); }
    NothingCounted(ms);
  }

  lemma NothingInFile(config: TaskConfig, item: TransferItem, f: nat)
    ensures CountOfFile(config, item.sizeBytes, f, InitialFile(item)).Nothing()
  { }

  lemma CreateOk(config: TaskConfig, items: seq<TransferItem>)
    requires Creatable(config, items)
    ensures TaskOk(Create(config, items))
  {
    NothingRebuilt(config, items);
    hide Rebuild, New, Free;
  }

  lemma CreateQueues(config: TaskConfig, items: seq<TransferItem>)
    ensures QueuesOk(Create(config, items), [])
  {
    NewSameWithoutRecords(config, items);
    NewQueuesOk(config, items, InitialFiles(items));
    hide New, Covers, LanesOk, Pool;
  }

  /** Dealing without records is dealing with empty ones. */
  lemma NewSameWithoutRecords(config: TaskConfig, items: seq<TransferItem>)
    ensures New(config, items, []) == New(config, items, DoneLists(InitialFiles(items)))
  {
    var done := DoneLists(InitialFiles(items));
    forall f | 0 <= f < |items| ensures CompletedOf([], f) == CompletedOf(done, f) { assert done[f] == []; }
    assert Rests(config, items, []) == Rests(config, items, done);
  }

  lemma StampKeeps(t: Task, leases: seq<Lease>, now: U128)
    requires TaskOk(t) && QueuesOk(t, leases)
    ensures TaskOk(Stamp(t, now)) && QueuesOk(Stamp(t, now), leases) && Stamp(t, now).Files() == t.Files()
  { }

  // ----- what is read back -----

  lemma StripKeeps(s: string)
    requires !EndsInCr(s)
    ensures StripCr(s) == s
  { }

  lemma NormalFiles(files: seq<FileCheckpoint>)
    ensures forall f :: 0 <= f < |files| ==>
      var g := NormalizeFiles(files)[f];
      && g.relativePath == files[f].relativePath && g.sizeBytes == files[f].sizeBytes
      && g.completedChunks == files[f].completedChunks && g.completedChunkLanes == files[f].completedChunkLanes
  { }

  lemma NormalConfig(e: CheckpointEntry)
    requires EntryOk(e)
    ensures EntryOk(Normalize(e))
    ensures Normalize(e).config.chunkSizeBytes == e.config.chunkSizeBytes
    ensures Normalize(e).config.transportMode == e.config.transportMode
    ensures Normalize(e).checkpoint.files == NormalizeFiles(e.checkpoint.files)
    ensures Normalize(e).checkpoint.state == e.checkpoint.state
  {
    StripKeeps(e.config.taskId);
  }

  lemma DoneSame(a: seq<FileCheckpoint>, b: seq<FileCheckpoint>)
    requires |a| == |b| && forall f :: 0 <= f < |a| ==> a[f].completedChunks == b[f].completedChunks
    ensures forall c :: Done(a, c) <==> Done(b, c)
  { }

  lemma NormalSound(e: CheckpointEntry)
    requires Sound(e)
    ensures Sound(Normalize(e))
  {
    NormalConfig(e);
    NormalFiles(e.checkpoint.files);
    hide Normalize, EntryOk, NormalizeFiles, Count;
  }

  lemma FullIsEverything(file: FileCheckpoint, count: nat)
    requires FileOk(file, count) && FullFile(file, count)
    ensures |file.completedChunks| == count && forall i :: 0 <= i < count ==> file.completedChunks[i] == i
  {
    AllIndices(file.completedChunks, count);
    Pigeonhole(file.completedChunks, count);
  }

  lemma SameLists(a: seq<U32Int>, b: seq<U32Int>, count: nat)
    requires |a| == |b| == count
    requires forall i :: 0 <= i < count ==> a[i] == i
    requires forall i :: 0 <= i < count ==> b[i] == i
    ensures a == b
  { }

  /** A file line cut short reads as a sound file with only true indices exactly when it is clean. */
  lemma RecordSoundIff(config: TaskConfig, f: FileCheckpoint, state: TaskState, c: nat)
    requires 5 <= c <= |FileLine(f)| && RecordReads(f, c) && FileSound(config, f, state)
    ensures var g := RecordReadAs(f, c);
            (FileSound(config, g, state) && (forall v :: v in g.completedChunks ==> v in f.completedChunks))
              <==> RecordClean(f, state, c)
  {
    hide FileFields, RecordReads, RecordReadAs, Claimed, Count;
    RecordClaims(f, c);
    var g := RecordReadAs(f, c);
    var count := Count(f.sizeBytes, config.chunkSizeBytes);
    var (j, d) := Locate(FileFields(f), "|", c - 5);
    if state == Completed {
      FullIsEverything(f, count);
      if FileSound(config, g, state) {
        FullIsEverything(g, count);
        SameLists(f.completedChunks, g.completedChunks, count);
      }
    }
    if j < 5 { ShortClaims(g, j, f, d); }
    if RecordClean(f, state, c) { FewerBelow(g.completedChunks, f.completedChunks, count); }
  }

  lemma FewerBelow(a: seq<U32Int>, b: seq<U32Int>, bound: nat)
    requires AllBelow(b, bound) && forall v :: v in a ==> v in b
    ensures AllBelow(a, bound)
  {
    forall k | 0 <= k < |a| ensures a[k] < bound { assert a[k] in b; }
  }

  lemma ShortClaims(g: FileCheckpoint, j: nat, f: FileCheckpoint, d: nat)
    requires 2 <= j < 5 && d <= |FileFields(f)[j]| && g.completedChunks == Claimed(f, j, d)
    ensures Ascends(g.completedChunks)
  {
    hide FileFields;
  }

  lemma ReadAsKeeps(e: CheckpointEntry, i: nat, c: nat)
    requires i < |AllLines(e)| && c <= |AllLines(e)[i]| && LineReads(e, i, c) && EntryOk(e)
    ensures var x := LineReadAs(e, i, c);
            && EntryOk(x) && x.config.chunkSizeBytes == e.config.chunkSizeBytes
            && x.checkpoint.state == e.checkpoint.state
  {
    hide AllLines, LineReads, RecordReads, RecordReadAs, Key, NormalizeFile;
    NormalConfig(e);
  }

  lemma FirstSound(x: CheckpointEntry, e: CheckpointEntry, n: nat)
    requires Sound(e) && EntryOk(x) && n <= |e.checkpoint.files| && n <= |x.checkpoint.files|
    requires x.config.chunkSizeBytes == e.config.chunkSizeBytes && x.checkpoint.state == e.checkpoint.state
    requires x.checkpoint.files[..n] == NormalizeFiles(e.checkpoint.files[..n])
    ensures Sound(x) <==> forall f :: n <= f < |x.checkpoint.files| ==>
      FileSound(x.config, x.checkpoint.files[f], x.checkpoint.state)
  {
    hide EntryOk, Count;
    forall f | 0 <= f < n ensures FileSound(x.config, x.checkpoint.files[f], x.checkpoint.state) {
      assert x.checkpoint.files[f] == x.checkpoint.files[..n][f];
      assert FileSound(e.config, e.checkpoint.files[f], e.checkpoint.state);
    }
  }

  /** What a torn save leaves of a sound entry is a sound entry that claims nothing false exactly
      when the save broke off at a clean place. */
  lemma TornSoundIff(e: CheckpointEntry, k: nat)
    requires Sound(e) && k <= |Serialize(e)| && Reads(e, k)
    ensures Sound(ReadAs(e, k)) && NothingInvented(ReadAs(e, k), e) <==> CleanCut(e, k)
  {
    hide AllLines, FileLine, RecordReads, RecordReadAs, LineReads, LineReadAs, FileFields, Claimed, EntryOk,
      FileSound, RecordClean, NormalizeFile;
    AllLinesCount(e);
    var (i, c) := Locate(AllLines(e), "\n", k);
    var x := ReadAs(e, k);
    FilesLeft(e, i, c);
    ReadAsKeeps(e, i, c);
    if i >= 12 {
      FirstSound(x, e, i - 12);
      if c >= 5 {
        var f := e.checkpoint.files[i - 12];
        RecordSoundIff(e.config, f, e.checkpoint.state, c);
        LastInvents(x, e, i - 12);
        SameFileSound(e.config, x.config, x.checkpoint.files[i - 12], e.checkpoint.state);
      } else {
        FirstHonest(x, e, i - 12);
      }
    }
  }

  lemma SameFileSound(a: TaskConfig, b: TaskConfig, file: FileCheckpoint, state: TaskState)
    requires a.chunkSizeBytes == b.chunkSizeBytes
    ensures FileSound(a, file, state) <==> FileSound(b, file, state)
  { }

  lemma TakeAll(s: string)
    ensures s[..|s|] == s && FirstChars(s, |s|) == s
  { }

  /** A save that was not broken off is clean. */
  lemma WholeIsClean(e: CheckpointEntry)
    requires Sound(e)
    ensures CleanCut(e, |Serialize(e)|)
  {
    hide Serialize, Normalize, Reads, ReadAs, CleanCut, NormalizeFile, EntryOk, FileSound;
    TakeAll(Serialize(e));
    assert Free(e.config.taskId, '\n') by { SoundPrints(e); }
    PrintThenParse(e);
    CutReadsIff(e, |Serialize(e)|);
    NormalSound(e);
    NormalNothingInvented(e);
    TornSoundIff(e, |Serialize(e)|);
  }

  lemma SoundPrints(e: CheckpointEntry)
    requires Sound(e)
    ensures Free(e.config.taskId, '\n')
  { }

  lemma NormalNothingInvented(e: CheckpointEntry)
    ensures NothingInvented(Normalize(e), e)
  { }

  /** What a whole file, or one cut at a clean place, loads as. */
  lemma LoadsSound(d: Disk)
    requires DiskOk(d, None) && CleanDisk(d) && Loaded(d).Some?
    ensures Sound(Loaded(d).value)
  {
    hide Serialize, Normalize, Reads, ReadAs, CleanCut, Sound, NothingInvented;
    var e, text := d.entry, Serialize(d.entry);
    SoundPrints(e);
    if d.length <= |text| {
      CutReadsIff(e, d.length);
      assert Reads(e, d.length);
      TornSoundIff(e, d.length);
    } else {
      PrintThenParse(e);
      NormalSound(e);
    }
  }

  // ----- every step -----

  lemma HasFirst<T>(xs: seq<T>)
    ensures xs == [] || xs[0] in xs
  { }

  lemma NothingDoneBefore(before: seq<FileCheckpoint>, after: seq<FileCheckpoint>)
    requires Grows(before, after) && NothingDone(after)
    ensures NothingDone(before)
  {
    forall f | 0 <= f < |before| ensures before[f].completedChunks == [] && before[f].completedChunkLanes == map[] {
      HasFirst(before[f].completedChunks);
      assert after[f].completedChunks == [] && after[f].completedChunkLanes == map[];
      assert forall i :: i !in before[f].completedChunkLanes;
    }
  }

  lemma LagsStill(e: CheckpointEntry, t: Task, t1: Task)
    requires LagsBehind(e, t)
    requires t1.items == t.items && Grows(t.Files(), t1.Files())
    requires t1.config == t.config || NothingDone(t.Files())
    ensures LagsBehind(e, t1)
  {
    GrowsTrans(e.checkpoint.files, t.Files(), t1.Files());
    if t1.config != t.config { NothingDoneBefore(e.checkpoint.files, t.Files()); }
  }

  lemma SettleKeeps(t: Task, disk: Disk, o: Outcome, leases: seq<Lease>, now: U128, save: Save)
    requires DiskOk(disk, Some(t)) && Kept(t, o.task, leases)
    ensures Inv(Settle(o, leases, disk, now, save))
  {
    hide TaskOk, QueuesOk, LagsBehind, Stamp, Grows, Sound, Serialize;
    StampKeeps(o.task, leases, now);
    TaskSound(Stamp(o.task, now));
    if disk.Written? {
      LagsStill(disk.entry, t, o.task);
      StampLags(disk.entry, o.task, now);
    }
  }

  lemma StampLags(e: CheckpointEntry, t: Task, now: U128)
    requires LagsBehind(e, t)
    ensures LagsBehind(e, Stamp(t, now))
  {
    hide Grows, SameSizes;
  }

  lemma OpenedOk(disk: Disk, config: TaskConfig, items: seq<TransferItem>, now: U128)
    requires DiskOk(disk, None) && CleanDisk(disk) && Creatable(config, items)
    ensures var t := Stamp(Opened(disk, config, items), now);
            TaskOk(t) && QueuesOk(t, [])
  {
    hide TaskOk, QueuesOk, Recover, Create, Stamp, Sound, CleanDisk, Loaded, Creatable, DiskOk;
    match Loaded(disk)
    case Some(e) =>
      LoadsSound(disk);
      RecoverOk(e, now);
    case None =>
      CreateOk(config, items);
      CreateQueues(config, items);
      StampKeeps(Create(config, items), [], now);
  }

  lemma OpenKeeps(w: World, config: TaskConfig, items: seq<TransferItem>, now: U128, save: Save)
    requires Inv(w) && (w.task.None? ==> Creatable(config, items) && CleanDisk(w.disk))
    ensures Inv(OpenTask(w, config, items, now, save))
  {
    hide TaskOk, QueuesOk, Sound, Opened, Stamp, CleanDisk, Creatable, LagsBehind, Serialize;
    if w.task.None? {
      OpenedOk(w.disk, config, items, now);
      TaskSound(Stamp(Opened(w.disk, config, items), now));
    }
  }

  lemma StepKeeps(w: World, a: Action)
    requires Inv(w) && AllowedAction(w, a) && (a.Open? && w.task.None? ==> CleanDisk(w.disk))
    ensures Inv(Step(w, a))
  {
    hide Kept, TaskOk, QueuesOk, Apply, CompleteLeased, Settle, OpenTask, CleanDisk, Creatable, Allowed;
    match a
    case Call(op, now, save) =>
      if w.task.Some? {
        var t := w.task.value;
        CallKeeps(t, w.leases, op);
        var o := Apply(t, op);
        SettleKeeps(t, w.disk, o, AddedLease(w.leases, o.lease), now, save);
      }
    case Finish(k, now, save) =>
      if w.task.Some? && k < |w.leases| {
        var t := w.task.value;
        FinishKeeps(t, w.leases, k);
        var o := CompleteLeased(t, w.leases[k]);
        SettleKeeps(t, w.disk, o, if o.effect == Refused then w.leases else Without(w.leases, k), now, save);
      }
    case Crash =>
    case Open(config, items, now, save) => OpenKeeps(w, config, items, now, save);
  }

  // ----- every run -----

  lemma {:induction false} RunKeeps(w: World, actions: seq<Action>)
    requires Inv(w) && AllowedRun(w, actions) && CleanRun(w, actions)
    ensures Inv(Run(w, actions))
    decreases actions
  {
    hide Inv, AllowedAction, Step, CleanDisk;
    if actions != [] {
      StepKeeps(w, actions[0]);
      RunKeeps(Step(w, actions[0]), actions[1..]);
    }
  }

  /** Before any task: nothing in memory, no file. */
  const NOTHING_YET := World(None, [], Missing)

  /** A file's completed indices are all the indices there are, in order. */
  ghost predicate Everything(t: Task, f: nat)
    requires f < |t.items| && f < |t.Files()|
  {
    && |t.Files()[f].completedChunks| == Count(t.items[f].sizeBytes, t.config.chunkSizeBytes)
    && (forall i :: 0 <= i < |t.Files()[f].completedChunks| ==> t.Files()[f].completedChunks[i] == i)
  }

  /** Completed means everything moved. */
  lemma CompletedMeansEverything(t: Task)
    requires TaskOk(t) && t.state == Completed
    ensures forall f :: 0 <= f < |t.items| ==> Everything(t, f)
    ensures t.metrics.committedBytes == t.metrics.totalBytes == TotalBytes(t.items)
  {
    CountersAddUp(t);
    forall f | 0 <= f < |t.items| ensures Everything(t, f) {
      EveryIndexDone(t, f);
      AllIndices(t.Files()[f].completedChunks, Count(t.items[f].sizeBytes, t.config.chunkSizeBytes));
      Pigeonhole(t.Files()[f].completedChunks, Count(t.items[f].sizeBytes, t.config.chunkSizeBytes));
    }
  }

  /** After any run, from nothing, of creating or recovering, calls, handed-back leases, saves that
      fail or break off, and crashes, in which no task was recovered from a file that lies: the
      live counters are what recomputing them gives and split over the lanes; indices ascend, and
      only they have a lane; every chunk is committed, queued or leased, none is queued or leased
      twice; each lane's in-flight count is its number of leases; and Completed means everything. */
  lemma EveryRun(actions: seq<Action>)
    requires AllowedRun(NOTHING_YET, actions) && CleanRun(NOTHING_YET, actions)
    ensures var w := Run(NOTHING_YET, actions);
            w.task.Some? ==>
              var t := w.task.value;
              && t.metrics == Rebuild(t.config, t.items, t.Files())
              && t.metrics.committedBytes == t.metrics.adbBytes + t.metrics.wifiBytes <= t.metrics.totalBytes
              && FilesOk(t.config, t.items, t.Files())
              && Covers(t.config, t.items, t.Files(), Pool(t.sched, w.leases))
              && t.sched.adbInflight == CountLane(w.leases, Adb)
              && t.sched.wifiInflight == CountLane(w.leases, Wifi)
              && (t.state == Completed ==>
                   && (forall f :: 0 <= f < |t.items| ==> Everything(t, f))
                   && t.metrics.committedBytes == t.metrics.totalBytes)
  {
    RunKeeps(NOTHING_YET, actions);
    hide Run, AllowedRun, CleanRun, Covers, Everything, Rebuild, Count;
    var w := Run(NOTHING_YET, actions);
    if w.task.Some? {
      CountersAddUp(w.task.value);
      if w.task.value.state == Completed { CompletedMeansEverything(w.task.value); }
    }
  }

  lemma {:induction false} SameTotal(a: seq<TransferItem>, b: seq<TransferItem>)
    requires SameSizes(a, b)
    ensures TotalBytes(a) == TotalBytes(b)
  {
    if a != [] { SameTotal(a[..|a| - 1], b[..|b| - 1]); }
  }

  lemma SameCounters(a: TaskConfig, b: TaskConfig, items: seq<TransferItem>, again: seq<TransferItem>,
                     files: seq<FileCheckpoint>, copies: seq<FileCheckpoint>)
    requires a.chunkSizeBytes == b.chunkSizeBytes && a.transportMode == b.transportMode
    requires SameSizes(items, again) && |files| == |copies|
    requires forall f :: 0 <= f < |files| ==>
      && files[f].completedChunks == copies[f].completedChunks
      && files[f].completedChunkLanes == copies[f].completedChunkLanes
    ensures Rebuild(a, items, files) == Rebuild(b, again, copies)
  {
    SameTotal(items, again);
    assert PerFile(a, items, files) == PerFile(b, again, copies);
  }

  lemma SameExactly(config: TaskConfig, a: seq<TransferItem>, b: seq<TransferItem>, files: seq<FileCheckpoint>,
                    queued: multiset<Chunk>)
    requires SameSizes(a, b) && ExactlyRest(config, b, files, queued)
    ensures ExactlyRest(config, a, files, queued)
  {
    forall c ensures IsChunk(config, a, c) <==> IsChunk(config, b, c) { SameChunks(config, a, b, c); }
  }

  /** Recovery agrees with the live task. Printing the checkpoint of a task in any reachable
      state, parsing the text and recovering gives a task with the same counters, the same
      completed indices on the same lanes, nothing in flight, and queues that hold each
      uncommitted chunk exactly once and nothing else. */
  lemma RecoveryRefinesLive(t: Task)
    requires TaskOk(t)
    ensures Deserialize(Serialize(t.checkpoint)).Ok?
    ensures var r := Recover(Deserialize(Serialize(t.checkpoint)).value);
            && r.metrics == t.metrics
            && SameSizes(t.items, r.items)
            && |r.Files()| == |t.Files()|
            && (forall f :: 0 <= f < |t.Files()| ==>
                 && r.Files()[f].completedChunks == t.Files()[f].completedChunks
                 && r.Files()[f].completedChunkLanes == t.Files()[f].completedChunkLanes)
            && ExactlyRest(t.config, t.items, t.Files(), r.sched.Queued())
            && NothingInFlight(r.sched)
            && r.state == (if t.state == Completed || t.state == Cancelled then t.state else Paused)
            && r.lastError == None
  {
    hide Normalize, NormalizeFiles, ExactlyRest, Rebuild, New, Serialize, Deserialize, Sound, Free, EndsInCr;
    var e := Normalize(t.checkpoint);
    TaskSound(t);
    PrintThenParse(t.checkpoint);
    NormalSound(t.checkpoint);
    NormalConfig(t.checkpoint);
    NormalFiles(t.Files());
    var items := RecoveredItems(e.checkpoint.files);
    assert SameSizes(t.items, items);
    SameCounters(t.config, e.config, t.items, items, t.Files(), e.checkpoint.files);
    RecoverOk(e, 0);
    SameExactly(e.config, t.items, items, e.checkpoint.files, Recover(e).sched.Queued());
    SameRest(t, e, Recover(e).sched.Queued());
  }

  lemma SameRest(t: Task, e: CheckpointEntry, queued: multiset<Chunk>)
    requires e.config.chunkSizeBytes == t.config.chunkSizeBytes
    requires |e.checkpoint.files| == |t.Files()|
    requires forall f :: 0 <= f < |t.Files()| ==> e.checkpoint.files[f].completedChunks == t.Files()[f].completedChunks
    requires ExactlyRest(e.config, t.items, e.checkpoint.files, queued)
    ensures ExactlyRest(t.config, t.items, t.Files(), queued)
  {
    DoneSame(e.checkpoint.files, t.Files());
    forall c ensures IsChunk(e.config, t.items, c) <==> IsChunk(t.config, t.items, c) { }
  }

  // ----- runs without torn saves: what is on disk stays -----

  function DiskFiles(d: Disk): seq<FileCheckpoint> {
    match Loaded(d) case Some(e) => e.checkpoint.files case None => []
  }

  ghost predicate Extends(before: seq<FileCheckpoint>, after: seq<FileCheckpoint>) {
    before == [] || Grows(before, after)
  }

  lemma ExtendsTrans(a: seq<FileCheckpoint>, b: seq<FileCheckpoint>, c: seq<FileCheckpoint>)
    requires Extends(a, b) && Extends(b, c)
    ensures Extends(a, c)
  {
    if a != [] { GrowsTrans(a, b, c); }
  }

  predicate WholeDisk(d: Disk) { d.Written? ==> d.length >= |Serialize(d.entry)| }

  ghost predicate LanesFull(files: seq<FileCheckpoint>) {
    forall f :: 0 <= f < |files| ==> forall i :: i in files[f].completedChunks ==> i in files[f].completedChunkLanes
  }

  lemma WholeLoads(d: Disk)
    requires d.Written? && WholeDisk(d) && Sound(d.entry)
    ensures CleanDisk(d)
    ensures Loaded(d) == Some(Normalize(d.entry)) && DiskFiles(d) == NormalizeFiles(d.entry.checkpoint.files)
  {
    hide Serialize, Normalize, CleanCut, Deserialize, Sound;
    TakeAll(Serialize(d.entry));
    SoundPrints(d.entry);
    PrintThenParse(d.entry);
    WholeIsClean(d.entry);
    NormalFilesOf(d.entry);
  }

  lemma NormalFilesOf(e: CheckpointEntry)
    ensures Normalize(e).checkpoint.files == NormalizeFiles(e.checkpoint.files)
  { }

  lemma NormalGrows(files: seq<FileCheckpoint>)
    ensures Grows(files, NormalizeFiles(files)) && Grows(NormalizeFiles(files), files)
    ensures LanesFull(files) ==> LanesFull(NormalizeFiles(files))
  {
    NormalFiles(files);
    hide NormalizeFiles;
  }

  lemma FullGrows(before: seq<FileCheckpoint>, after: seq<FileCheckpoint>)
    requires Grows(before, after) && LanesFull(before)
    ensures LanesFull(after)
  { }

  /** What a save of `t` leaves, and what it keeps of the file before it. */
  lemma SaveExtends(d: Disk, t: Task, save: Save)
    requires WholeDisk(d) && DiskOk(d, Some(t)) && TaskOk(t) && Whole(save)
    ensures var d1 := AfterSave(d, t.checkpoint, save);
            WholeDisk(d1) && Extends(DiskFiles(d), DiskFiles(d1))
  {
    hide Serialize, Loaded, Sound, Grows, TaskOk, NormalizeFiles;
    GrowsRefl(DiskFiles(d));
    if save.Stored? {
      TaskSound(t);
      WholeLoads(AfterSave(d, t.checkpoint, save));
      if d.Written? {
        var files := d.entry.checkpoint.files;
        WholeLoads(d);
        NormalGrows(files);
        NormalGrows(t.Files());
        GrowsTrans(NormalizeFiles(files), files, t.Files());
        GrowsTrans(NormalizeFiles(files), t.Files(), NormalizeFiles(t.Files()));
      } else {
        assert DiskFiles(d) == [] by { NoFiles(d); }
      }
    }
  }

  lemma NoFiles(d: Disk)
    requires !d.Written?
    ensures DiskFiles(d) == [] && Loaded(d) == None
  { }

  lemma SettleExtends(t: Task, disk: Disk, o: Outcome, leases: seq<Lease>, now: U128, save: Save)
    requires WholeDisk(disk) && DiskOk(disk, Some(t)) && Kept(t, o.task, leases) && Whole(save)
    ensures var w := Settle(o, leases, disk, now, save);
            WholeDisk(w.disk) && Extends(DiskFiles(disk), DiskFiles(w.disk))
  {
    hide TaskOk, QueuesOk, LagsBehind, Stamp, Grows, Sound, Serialize, WholeDisk, DiskFiles;
    StampKeeps(o.task, leases, now);
    if disk.Written? {
      LagsStill(disk.entry, t, o.task);
      StampLags(disk.entry, o.task, now);
    }
    GrowsRefl(DiskFiles(disk));
    SaveExtends(disk, Stamp(o.task, now), save);
  }

  lemma RecoveredLags(e: CheckpointEntry, now: U128)
    ensures LagsBehind(e, Stamp(Recover(e), now))
    ensures Stamp(Recover(e), now).Files() == e.checkpoint.files
  {
    hide New, Rebuild;
    GrowsRefl(e.checkpoint.files);
  }

  /** Reading a whole file back into memory loses nothing. */
  lemma NormalLags(e: CheckpointEntry, t: Task)
    requires EntryOk(e) && LagsBehind(Normalize(e), t)
    ensures LagsBehind(e, t)
  {
    NormalConfig(e);
    var files := e.checkpoint.files;
    NormalFiles(files);
    NormalGrows(files);
    GrowsTrans(files, NormalizeFiles(files), t.Files());
    hide Grows, Normalize, NormalizeFiles, EntryOk;
  }

  lemma OpenExtends(w: World, config: TaskConfig, items: seq<TransferItem>, now: U128, save: Save)
    requires Inv(w) && WholeDisk(w.disk) && Whole(save) && (w.task.None? ==> Creatable(config, items))
    ensures w.task.None? ==> CleanDisk(w.disk)
    ensures var w1 := OpenTask(w, config, items, now, save);
            WholeDisk(w1.disk) && Extends(DiskFiles(w.disk), DiskFiles(w1.disk))
  {
    hide TaskOk, QueuesOk, LagsBehind, Stamp, Grows, Sound, Serialize, WholeDisk, DiskFiles, CleanDisk,
      Recover, Create, EntryOk, Normalize, Creatable, Loaded;
    GrowsRefl(DiskFiles(w.disk));
    if w.task.None? {
      var t := Stamp(Opened(w.disk, config, items), now);
      if w.disk.Written? {
        var e := w.disk.entry;
        WholeLoads(w.disk);
        SoundEntry(e);
        RecoveredLags(Normalize(e), now);
        NormalLags(e, t);
      } else {
        NoFiles(w.disk);
        UnwrittenIsClean(w.disk);
      }
      OpenedOk(w.disk, config, items, now);
      SaveExtends(w.disk, t, save);
    }
  }

  lemma SoundEntry(e: CheckpointEntry)
    requires Sound(e)
    ensures EntryOk(e)
  { }

  lemma UnwrittenIsClean(d: Disk)
    requires !d.Written?
    ensures CleanDisk(d)
  { }

  lemma StepExtends(w: World, a: Action)
    requires Inv(w) && WholeDisk(w.disk) && AllowedAction(w, a) && (a.Crash? || Whole(a.save))
    ensures a.Open? && w.task.None? ==> CleanDisk(w.disk)
    ensures WholeDisk(Step(w, a).disk) && Extends(DiskFiles(w.disk), DiskFiles(Step(w, a).disk))
  {
    hide Kept, TaskOk, QueuesOk, Apply, CompleteLeased, Settle, OpenTask, CleanDisk, Creatable, Allowed,
      WholeDisk, DiskFiles, Grows;
    GrowsRefl(DiskFiles(w.disk));
    match a
    case Call(op, now, save) =>
      if w.task.Some? {
        var t := w.task.value;
        CallKeeps(t, w.leases, op);
        var o := Apply(t, op);
        SettleExtends(t, w.disk, o, AddedLease(w.leases, o.lease), now, save);
      }
    case Finish(k, now, save) =>
      if w.task.Some? && k < |w.leases| {
        var t := w.task.value;
        FinishKeeps(t, w.leases, k);
        var o := CompleteLeased(t, w.leases[k]);
        SettleExtends(t, w.disk, o, if o.effect == Refused then w.leases else Without(w.leases, k), now, save);
      }
    case Crash =>
    case Open(config, items, now, save) => OpenExtends(w, config, items, now, save);
  }

  /** As long as no save breaks off half way, a commit that reached the file is never lost or moved
      to another lane, whatever calls, saves that fail before they begin, crashes and recoveries
      follow, and every recovery is one `EveryRun` speaks of. */
  lemma {:induction false} DurableStays(w: World, actions: seq<Action>)
    requires Inv(w) && WholeDisk(w.disk) && AllowedRun(w, actions) && Untorn(actions)
    ensures Extends(DiskFiles(w.disk), DiskFiles(Run(w, actions).disk))
    ensures CleanRun(w, actions)
    decreases actions
  {
    GrowsRefl(DiskFiles(w.disk));
    hide Inv, AllowedAction, Step, Grows, DiskFiles, WholeDisk, CleanDisk, Extends;
    if actions == [] {
      ExtendsRefl(DiskFiles(w.disk));
    } else {
      var w1 := Step(w, actions[0]);
      assert actions[0].Crash? || Whole(actions[0].save);
      StepExtends(w, actions[0]);
      StepKeeps(w, actions[0]);
      UntornRest(actions);
      DurableStays(w1, actions[1..]);
      ExtendsTrans(DiskFiles(w.disk), DiskFiles(w1.disk), DiskFiles(Run(w, actions).disk));
    }
  }

  lemma ExtendsRefl(a: seq<FileCheckpoint>)
    ensures Extends(a, a)
  {
    GrowsRefl(a);
  }

  lemma UntornRest(actions: seq<Action>)
    requires Untorn(actions) && actions != []
    ensures Untorn(actions[1..])
  {
    forall i | 0 <= i < |actions| - 1 ensures actions[1..][i].Crash? || Whole(actions[1..][i].save) {
      assert actions[1..][i] == actions[i + 1];
    }
  }

  ghost predicate LanesKept(w: World) {
    && (w.task.Some? ==> LanesFull(w.task.value.Files()))
    && (w.disk.Written? ==> LanesFull(w.disk.entry.checkpoint.files))
  }

  lemma NewLanes(config: TaskConfig, items: seq<TransferItem>, now: U128)
    ensures LanesFull(Stamp(Create(config, items), now).Files())
  { }

  lemma SettleLanes(t: Task, disk: Disk, o: Outcome, leases: seq<Lease>, now: U128, save: Save)
    requires LanesKept(World(Some(t), [], disk)) && Grows(t.Files(), o.task.Files()) && Whole(save)
    ensures LanesKept(Settle(o, leases, disk, now, save))
  {
    hide Grows, LanesFull, Serialize;
    FullGrows(t.Files(), o.task.Files());
  }

  lemma OpenLanes(w: World, config: TaskConfig, items: seq<TransferItem>, now: U128, save: Save)
    requires Inv(w) && WholeDisk(w.disk) && LanesKept(w) && Whole(save)
    ensures LanesKept(OpenTask(w, config, items, now, save))
  {
    hide Grows, LanesFull, Serialize, Recover, Create, Stamp, Loaded, Normalize, WholeDisk, TaskOk, QueuesOk, Sound;
    if w.task.None? {
      if w.disk.Written? {
        var e := w.disk.entry;
        WholeLoads(w.disk);
        NormalGrows(e.checkpoint.files);
        NormalFilesOf(e);
        RecoveredLags(Normalize(e), now);
      } else {
        NoFiles(w.disk);
        NewLanes(config, items, now);
      }
    }
  }

  lemma StepLanes(w: World, a: Action)
    requires Inv(w) && WholeDisk(w.disk) && AllowedAction(w, a) && (a.Crash? || Whole(a.save)) && LanesKept(w)
    ensures LanesKept(Step(w, a))
  {
    hide TaskOk, QueuesOk, Apply, CompleteLeased, Settle, OpenTask, Creatable, Allowed, WholeDisk, Grows, LanesFull;
    match a
    case Call(op, now, save) =>
      if w.task.Some? {
        CallKeeps(w.task.value, w.leases, op);
        var o := Apply(w.task.value, op);
        SettleLanes(w.task.value, w.disk, o, AddedLease(w.leases, o.lease), now, save);
      }
    case Finish(k, now, save) =>
      if w.task.Some? && k < |w.leases| {
        FinishKeeps(w.task.value, w.leases, k);
        var o := CompleteLeased(w.task.value, w.leases[k]);
        SettleLanes(w.task.value, w.disk, o, if o.effect == Refused then w.leases else Without(w.leases, k), now, save);
      }
    case Crash =>
    case Open(config, items, now, save) => OpenLanes(w, config, items, now, save);
  }

  lemma {:induction false} RunLanes(w: World, actions: seq<Action>)
    requires Inv(w) && WholeDisk(w.disk) && AllowedRun(w, actions) && Untorn(actions) && LanesKept(w)
    ensures LanesKept(Run(w, actions))
    decreases actions
  {
    hide Inv, AllowedAction, Step, WholeDisk, CleanDisk, Extends, LanesKept;
    if actions != [] {
      assert actions[0].Crash? || Whole(actions[0].save);
      StepExtends(w, actions[0]);
      StepKeeps(w, actions[0]);
      StepLanes(w, actions[0]);
      UntornRest(actions);
      RunLanes(Step(w, actions[0]), actions[1..]);
    }
  }

  /** In a run without torn saves every completed index also has its lane. */
  lemma UntornRun(actions: seq<Action>)
    requires AllowedRun(NOTHING_YET, actions) && Untorn(actions)
    ensures CleanRun(NOTHING_YET, actions)
    ensures var w := Run(NOTHING_YET, actions);
            w.task.Some? ==> forall f :: 0 <= f < |w.task.value.Files()| ==>
              var file := w.task.value.Files()[f];
              forall i :: i in file.completedChunks <==> i in file.completedChunkLanes
  {
    DurableStays(NOTHING_YET, actions);
    RunKeeps(NOTHING_YET, actions);
    RunLanes(NOTHING_YET, actions);
    hide Run, AllowedRun, CleanRun, Covers, Rebuild, Count;
  }
}
