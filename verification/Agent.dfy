/** The phone's file handlers: what each command does to its files and what it answers. Paths are
    already decoded and cleaned; a file's temporary name is its path with a suffix. */
module Agent {
  import opened Wrappers
  import opened Bytes

  type Path = Data

  /** `.nekotrans-tmp` */
  const SUFFIX: Data := [46, 110, 101, 107, 111, 116, 114, 97, 110, 115, 45, 116, 109, 112]

  function TempName(p: Path): Path { p + SUFFIX }

  datatype FileState = FileState(path: Path, size: nat, acked: set<nat>, completed: bool)

  /** `started` is whether a task is active. */
  datatype Phone = Phone(started: bool, current: Option<FileState>, files: map<Path, Data>)
  {
    function File(p: Path): Option<Data> { if p in files then Some(files[p]) else None }

    function Temp(p: Path): Option<Data> { File(TempName(p)) }

    /** What reads go to: the finished file when there is one. */
    function Readable(p: Path): Option<Data> { if p in files then File(p) else Temp(p) }

    predicate Current(p: Path) { current.Some? && current.value.path == p }

    predicate Acked(p: Path, i: nat) { Current(p) && i in current.value.acked }
  }

  datatype Reply =
    | Error
    | Hello
    | Written
    | AlreadyCommitted
    | Committed
    | CommittedOnDisk
    | NotCommitted
    | PathMismatch
    | Size(bytes: nat)
    | Done

  function StartFile(ph: Phone, p: Path, size: nat): (Phone, Reply) {
    if !ph.started then (ph, Error) else (ph.(current := Some(FileState(p, size, {}, false))), Done)
  }

  function WriteChunk(ph: Phone, p: Path, i: nat, offset: nat, payload: Data): (Phone, Reply) {
    if !ph.started || !ph.Current(p) then (ph, Error)
    else
      var temp := if ph.Temp(p).Some? then ph.Temp(p).value else [];
      var file := ph.current.value;
      (ph.(files := ph.files[TempName(p) := WriteAt(temp, offset, payload)],
           current := Some(file.(acked := file.acked + {i}))),
       if i in file.acked then AlreadyCommitted else Written)
  }

  function ChunkStatus(ph: Phone, p: Path, i: nat, offset: nat, length: nat): Reply {
    if ph.Acked(p, i) then Committed
    else if ph.Readable(p).Some? && |ph.Readable(p).value| >= offset + length then CommittedOnDisk
    else if ph.current.Some? && !ph.Current(p) then PathMismatch
    else NotCommitted
  }

  function StatFile(ph: Phone, p: Path): Reply {
    if !ph.started || ph.Readable(p).None? then Error else Size(|ph.Readable(p).value|)
  }

  function MarkCompleted(ph: Phone, p: Path): Phone {
    if ph.Current(p) then ph.(current := Some(ph.current.value.(completed := true))) else ph
  }

  /** Rename the temporary file over the final one. A file already finished stays so, and an empty
      file needs no temporary one. */
  function CompleteFile(ph: Phone, p: Path): (Phone, Reply) {
    if !ph.started then (ph, Error)
    else if ph.Temp(p).None? then
      if ph.Current(p) && ph.current.value.size == 0 then (MarkCompleted(ph.(files := ph.files[p := []]), p), Done)
      else if p in ph.files then (MarkCompleted(ph, p), Done)
      else (ph, Error)
    else
      (MarkCompleted(ph.(files := (ph.files - {TempName(p)})[p := ph.Temp(p).value]), p), Done)
  }

  lemma TempIsOther(p: Path)
    ensures TempName(p) != p
  {
    assert |TempName(p)| == |p| + 14;
  }

  /** Completing hands exactly the temporary file's bytes to readers. Doing it again, as after a
      lost answer, is also fine and changes nothing, except that a file announced as empty that
      was not is emptied. */
  lemma CompleteTwice(ph: Phone, p: Path)
    requires ph.started && ph.Temp(p).Some?
    ensures var (ph1, r) := CompleteFile(ph, p);
            && r == Done
            && ph1.File(p) == ph.Temp(p) && ph1.Temp(p) == None
            && (forall q :: q != p && q != TempName(p) ==> ph1.File(q) == ph.File(q))
            && (ph.Current(p) ==> ph1.current == Some(ph.current.value.(completed := true)))
            && CompleteFile(ph1, p).1 == Done
            && (CompleteFile(ph1, p).0 == ph1 <==>
                 ph.Temp(p) == Some([]) || !ph.Current(p) || ph.current.value.size != 0)
  {
    TempIsOther(p);
    hide TempName;
    var ph1 := CompleteFile(ph, p).0;
    if ph.Temp(p) == Some([]) { assert ph1.files[p := []] == ph1.files; }
    if ph1.files[p := []] == ph1.files { assert ph1.files[p] == []; }
  }

  /** Starting a file forgets every acknowledgement and what was completed, and keeps both files. */
  lemma StartForgets(ph: Phone, p: Path, size: nat)
    ensures var (ph1, r) := StartFile(ph, p, size);
            && ph1.files == ph.files && ph1.started == ph.started && (r == Done <==> ph.started)
            && (ph.started ==>
                 && ph1.current == Some(FileState(p, size, {}, false))
                 && (forall i, offset, length ::
                      ph1.Readable(p).None? ==> ChunkStatus(ph1, p, i, offset, length) == NotCommitted)
                 && (forall q :: q != p && ph1.Readable(q).None? ==> ChunkStatus(ph1, q, 0, 0, 0) == PathMismatch))
            && (!ph.started ==> ph1 == ph)
  { }

  /** The first write of a chunk is answered as written and acknowledged from then on, the next one as
      known, and leaves the same bytes. */
  lemma WrittenOnce(ph: Phone, p: Path, i: nat, offset: nat, payload: Data)
    requires ph.started && ph.Current(p) && !ph.Acked(p, i)
    ensures var (ph1, r) := WriteChunk(ph, p, i, offset, payload);
            && r == Written && ph1.Acked(p, i)
            && (forall j :: j != i ==> (ph1.Acked(p, j) <==> ph.Acked(p, j)))
            && ChunkStatus(ph1, p, i, offset, |payload|) == Committed
            && WriteChunk(ph1, p, i, offset, payload).1 == AlreadyCommitted
            && WriteChunk(ph1, p, i, offset, payload).0.Temp(p) == ph1.Temp(p)
  {
    hide TempName;
    var temp := if ph.Temp(p).Some? then ph.Temp(p).value else [];
    assert WriteAt(WriteAt(temp, offset, payload), offset, payload) == WriteAt(temp, offset, payload);
    hide WriteAt;
  }

  /** The old finished file is deleted first, so a rename that fails leaves neither in its place. */
  function FinishFile(ph: Phone, p: Path, renamed: bool): (Phone, Reply) {
    if renamed || !ph.started || ph.Temp(p).None? then CompleteFile(ph, p) else (ph.(files := ph.files - {p}), Error)
  }

  /** A failed rename loses nothing that was sent: readers see the temporary file, and completing
      again ends as it would have ended the first time. */
  lemma FailedRenameRecovers(ph: Phone, p: Path)
    requires ph.started && ph.Temp(p).Some?
    ensures var (ph1, r) := FinishFile(ph, p, false);
            && r == Error && ph1.Readable(p) == ph.Temp(p)
            && FinishFile(ph1, p, true) == FinishFile(ph, p, true)
  {
    TempIsOther(p);
    hide TempName;
    var ph1 := FinishFile(ph, p, false).0;
    assert (ph1.files - {TempName(p)})[p := ph.Temp(p).value] == (ph.files - {TempName(p)})[p := ph.Temp(p).value];
  }

  // ----- the server -----

  class AgentServer {
    var started: bool
    var currentFile: Option<FileState>
    var files: map<Path, Data>

    ghost function View(): Phone
      reads this
    {
      Phone(started, currentFile, files)
    }

    constructor (files: map<Path, Data>)
      ensures View() == Phone(false, None, files)
    {
      started := false;
      currentFile := None;
      this.files := files;
    }

    /** A new task forgets the current file. */
    method Start()
      modifies this
      ensures View() == Phone(true, None, old(files))
    {
      started := true;
      currentFile := None;
    }

    method AcceptFile(p: Path, size: nat) returns (r: Reply)
      modifies this`currentFile
      ensures (View(), r) == StartFile(old(View()), p, size)
    {
      if !started { return Error; }
      currentFile := Some(FileState(p, size, {}, false));
      r := Done;
    }

    method Write(p: Path, i: nat, offset: nat, payload: Data) returns (r: Reply)
      modifies this`currentFile, this`files
      ensures (View(), r) == WriteChunk(old(View()), p, i, offset, payload)
    {
      if !started || currentFile.None? || currentFile.value.path != p { return Error; }
      var target := TempName(p);
      files := files[target := WriteAt(if target in files then files[target] else [], offset, payload)];
      var file := currentFile.value;
      var added := i !in file.acked;
      currentFile := Some(file.(acked := file.acked + {i}));
      r := if added then Written else AlreadyCommitted;
    }

    method Status(p: Path, i: nat, offset: nat, length: nat) returns (r: Reply)
      ensures r == ChunkStatus(View(), p, i, offset, length)
    {
      var target := if p in files then p else TempName(p);
      var committedOnDisk := target in files && |files[target]| >= offset + length;
      if currentFile.Some? && currentFile.value.path == p && i in currentFile.value.acked {
        r := Committed;
      } else if committedOnDisk {
        r := CommittedOnDisk;
      } else if currentFile.Some? && currentFile.value.path != p {
        r := PathMismatch;
      } else {
        r := NotCommitted;
      }
    }

    method Stat(p: Path) returns (r: Reply)
      ensures r == StatFile(View(), p)
    {
      if !started { return Error; }
      var target := if p in files then p else TempName(p);
      if target !in files { return Error; }
      r := Size(|files[target]|);
    }

    /** `renamed` is whether the rename works. */
    method Finish(p: Path, renamed: bool) returns (r: Reply)
      modifies this`currentFile, this`files
      ensures (View(), r) == FinishFile(old(View()), p, renamed)
    {
      if !started { return Error; }
      var temp := TempName(p);
      var isCurrent := currentFile.Some? && currentFile.value.path == p;
      if temp !in files && isCurrent && currentFile.value.size == 0 {
        files := files - {p};
        files := files[p := []];
        assert files == old(files)[p := []];
        currentFile := Some(currentFile.value.(completed := true));
        return Done;
      }
      if temp !in files && p in files {
        if isCurrent { currentFile := Some(currentFile.value.(completed := true)); }
        return Done;
      }
      if temp !in files { return Error; }
      TempIsOther(p);
      files := files - {p};
      if !renamed { return Error; }
      files := (files - {temp})[p := files[temp]];
      assert files == (old(files) - {temp})[p := old(files)[temp]];
      if isCurrent { currentFile := Some(currentFile.value.(completed := true)); }
      r := Done;
    }
  }
}
