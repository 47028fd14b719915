/** Small files sent together: the desktop's packing loop, the bundle's manifest and payload, and
    the phone's unpacking of them. */
module Bundle {
  import opened Wrappers
  import opened Bytes
  import opened Text
  import opened Agent
  import PathArg
  import Frames

  // ----- packing -----

  /** A file to send; its path is already cleaned, and empty when nothing of it was left. */
  datatype LocalFile = LocalFile(path: Path, contents: Data, modified: nat)

  const MAX_BYTES := 64 * 1024 * 1024
  const MAX_FILES := 4096

  predicate IsCandidate(f: LocalFile) { |f.contents| <= MAX_BYTES }

  function Payload(bundle: seq<LocalFile>): Data {
    if bundle == [] then [] else Payload(bundle[..|bundle| - 1]) + bundle[|bundle| - 1].contents
  }

  predicate CanAccept(bundle: seq<LocalFile>, f: LocalFile) {
    bundle == [] || (|bundle| < MAX_FILES && |Payload(bundle)| + |f.contents| <= MAX_BYTES)
  }

  datatype Sending = Bundled(files: seq<LocalFile>) | Direct(file: LocalFile)

  function Flush(bundle: seq<LocalFile>): seq<Sending> { if bundle == [] then [] else [Bundled(bundle)] }

  /** What one file adds to what was sent and to the open bundle. */
  function PackOne(sent: seq<Sending>, bundle: seq<LocalFile>, f: LocalFile): (seq<Sending>, seq<LocalFile>) {
    if !IsCandidate(f) then (sent + Flush(bundle) + [Direct(f)], [])
    else if !CanAccept(bundle, f) then (sent + Flush(bundle), [f])
    else (sent, bundle + [f])
  }

  function Pack(files: seq<LocalFile>): (seq<Sending>, seq<LocalFile>) {
    if files == [] then ([], [])
    else
      var (sent, bundle) := Pack(files[..|files| - 1]);
      PackOne(sent, bundle, files[|files| - 1])
  }

  function FilesOf(sent: seq<Sending>): seq<LocalFile> {
    if sent == [] then []
    else FilesOf(sent[..|sent| - 1]) + match sent[|sent| - 1] case Bundled(files) => files case Direct(f) => [f]
  }

  /** A bundle that may be sent: at most 4096 files and 64 MiB. */
  predicate Fits(bundle: seq<LocalFile>) { |bundle| <= 4096 && |Payload(bundle)| <= 0x400_0000 }

  predicate SendingOk(s: Sending) {
    match s case Bundled(files) => files != [] && Fits(files) case Direct(f) => |f.contents| > 0x400_0000
  }

  /** With this file next the bundle has to be closed. */
  predicate MustClose(bundle: seq<LocalFile>, next: LocalFile) {
    |next.contents| > 0x400_0000 || |bundle| >= 4096 || |Payload(bundle)| + |next.contents| > 0x400_0000
  }

  lemma {:induction false} FilesOfAppend(a: seq<Sending>, b: seq<Sending>)
    ensures FilesOf(a + b) == FilesOf(a) + FilesOf(b)
  {
    if b == [] {
      assert a + b == a;
      assert FilesOf(a) + [] == FilesOf(a);
    } else {
      var n := |b| - 1;
      FilesOfAppend(a, b[..n]);
      assert (a + b)[..|a + b| - 1] == a + b[..n];
      var last := match b[n] case Bundled(files) => files case Direct(f) => [f];
      assert FilesOf(b) == FilesOf(b[..n]) + last && FilesOf(a + b) == FilesOf(a + b[..n]) + last;
      hide FilesOf;
      assert FilesOf(a) + (FilesOf(b[..n]) + last) == FilesOf(a) + FilesOf(b[..n]) + last;
    }
  }

  predicate AllOk(sent: seq<Sending>) { forall k :: 0 <= k < |sent| ==> SendingOk(sent[k]) }

  lemma AfterFlush(sent: seq<Sending>, bundle: seq<LocalFile>)
    requires AllOk(sent) && Fits(bundle)
    ensures FilesOf(sent + Flush(bundle)) == FilesOf(sent) + bundle && AllOk(sent + Flush(bundle))
  {
    FlushedFiles(sent, bundle);
  }

  lemma AfterDirect(sent: seq<Sending>, f: LocalFile)
    requires AllOk(sent) && !IsCandidate(f)
    ensures FilesOf(sent + [Direct(f)]) == FilesOf(sent) + [f] && AllOk(sent + [Direct(f)])
  {
    assert (sent + [Direct(f)])[..|sent|] == sent;
  }

  lemma AddFits(bundle: seq<LocalFile>, f: LocalFile)
    requires Fits(bundle) && IsCandidate(f)
    ensures Fits([f])
    ensures CanAccept(bundle, f) ==> Fits(bundle + [f])
  {
    assert (bundle + [f])[..|bundle|] == bundle;
    assert [f][..0] == [];
    assert bundle == [] ==> bundle + [f] == [f];
  }

  lemma PackOneKeeps(sent: seq<Sending>, bundle: seq<LocalFile>, f: LocalFile)
    requires AllOk(sent) && Fits(bundle)
    ensures var (sent1, bundle1) := PackOne(sent, bundle, f);
            FilesOf(sent1) + bundle1 == FilesOf(sent) + bundle + [f] && AllOk(sent1) && Fits(bundle1)
  {
    hide FilesOf, AllOk, Fits, CanAccept, Flush;
    AfterFlush(sent, bundle);
    if IsCandidate(f) {
      AddFits(bundle, f);
      assert FilesOf(sent) + (bundle + [f]) == FilesOf(sent) + bundle + [f];
    } else {
      AfterDirect(sent + Flush(bundle), f);
      assert FilesOf(sent) + bundle + [f] + [] == FilesOf(sent) + bundle + [f];
      EmptyFits();
    }
  }

  lemma EmptyFits()
    ensures Fits([])
  { }

  /** The loop loses and repeats nothing and keeps the order: what was sent followed by the open
      bundle is exactly the files so far. Every bundle has at most 4096 files and 64 MiB, and only
      larger files go on their own. */
  lemma {:induction false} PackKeepsAll(files: seq<LocalFile>)
    ensures var (sent, bundle) := Pack(files);
            && FilesOf(sent) + bundle == files
            && (forall k :: 0 <= k < |sent| ==> SendingOk(sent[k])) && Fits(bundle)
  {
    hide SendingOk, PackOne;
    assert AllOk([]);
    if files != [] {
      var n := |files| - 1;
      PackKeepsAll(files[..n]);
      var (sent, bundle) := Pack(files[..n]);
      PackOneKeeps(sent, bundle, files[n]);
      assert files == files[..n] + [files[n]];
    }
  }

  lemma CloseNow(sent: seq<Sending>, bundle: seq<LocalFile>, f: LocalFile, k: nat)
    requires k < |PackOne(sent, bundle, f).0| && k >= |sent| && PackOne(sent, bundle, f).0[k].Bundled?
    ensures PackOne(sent, bundle, f).0[..k + 1] == sent + Flush(bundle)
    ensures PackOne(sent, bundle, f).0[k] == Bundled(bundle) && MustClose(bundle, f)
  {
    hide Payload;
  }

  lemma CloseBefore(sent: seq<Sending>, bundle: seq<LocalFile>, f: LocalFile, k: nat)
    requires k < |sent|
    ensures var sent1 := PackOne(sent, bundle, f).0;
            k < |sent1| && sent1[k] == sent[k] && sent1[..k + 1] == sent[..k + 1]
  {
    hide CanAccept, IsCandidate;
  }

  /** The loop closes a bundle only when it has to: the file behind every bundle it closed is a larger
      one, or would be the 4097th, or would bring it over 64 MiB. */
  lemma {:induction false} ClosedOnlyWhen(files: seq<LocalFile>, k: nat)
    requires k < |Pack(files).0| && Pack(files).0[k].Bundled?
    ensures var n := |FilesOf(Pack(files).0[..k + 1])|;
            n < |files| && MustClose(Pack(files).0[k].files, files[n])
  {
    hide PackOne, FilesOf, MustClose;
    var n := |files| - 1;
    var (sent, bundle) := Pack(files[..n]);
    if k < |sent| {
      CloseBefore(sent, bundle, files[n], k);
      ClosedOnlyWhen(files[..n], k);
    } else {
      PackKeepsAll(files[..n]);
      CloseNow(sent, bundle, files[n], k);
      FlushedFiles(sent, bundle);
    }
  }

  lemma PackNone(files: seq<LocalFile>)
    ensures Pack(files[..0]) == ([], [])
  { }

  lemma PackNext(files: seq<LocalFile>, n: nat)
    requires n < |files|
    ensures Pack(files[..n + 1]) == PackOne(Pack(files[..n]).0, Pack(files[..n]).1, files[n])
  {
    assert files[..n + 1][..n] == files[..n];
  }

  datatype Ending = AllSent | PausedEarly | UnsafePath | RefusedByPhone

  /** The loop itself. A pause flushes the open bundle; an unusable path gives it up. The phone takes
      the first `takes` sendings and refuses the next, which ends the loop. */
  method SendFiles(files: seq<LocalFile>, pauseAt: nat, takes: nat)
    returns (sent: seq<Sending>, n: nat, ending: Ending)
    ensures n <= |files|
    ensures ending == AllSent ==> n == |files|
    ensures ending == PausedEarly ==> n == pauseAt < |files|
    ensures ending == UnsafePath ==> n < |files| && IsCandidate(files[n]) && files[n].path == []
    ensures n <= pauseAt && forall k :: 0 <= k < n && IsCandidate(files[k]) ==> files[k].path != []
    ensures var (before, bundle) := Pack(files[..n]);
            if ending == RefusedByPhone then
              || sent == before + Flush(bundle)
              || (n < |files| && !IsCandidate(files[n]) && sent == before + Flush(bundle) + [Direct(files[n])])
            else sent == if ending == UnsafePath && CanAccept(bundle, files[n]) then before else before + Flush(bundle)
    ensures if ending == RefusedByPhone then |sent| == takes + 1 else |sent| <= takes
  {
    hide Pack, CanAccept, IsCandidate;
    sent := [];
    var bundle: seq<LocalFile> := [];
    n := 0;
    PackNone(files);
    while n < |files|
      invariant n <= |files| && (sent, bundle) == Pack(files[..n]) && |sent| <= takes
      invariant n <= pauseAt && forall k :: 0 <= k < n && IsCandidate(files[k]) ==> files[k].path != []
    {
      if n == pauseAt {
        sent := sent + Flush(bundle);
        return sent, n, if |sent| > takes then RefusedByPhone else PausedEarly;
      }
      var f := files[n];
      PackNext(files, n);
      assert [] + [f] == [f];
      if IsCandidate(f) {
        if !CanAccept(bundle, f) {
          sent := sent + Flush(bundle);
          if |sent| > takes { return sent, n, RefusedByPhone; }
          bundle := [];
        }
        if f.path == [] {
          return sent, n, UnsafePath;
        }
        bundle := bundle + [f];
      } else {
        sent := sent + Flush(bundle);
        if |sent| > takes { return sent, n, RefusedByPhone; }
        sent := sent + [Direct(f)];
        if |sent| > takes { return sent, n, RefusedByPhone; }
        bundle := [];
      }
      n := n + 1;
    }
    assert files[..n] == files;
    sent := sent + Flush(bundle);
    ending := if |sent| > takes then RefusedByPhone else AllSent;
  }

  // ----- the manifest -----

  function ManifestLine(f: LocalFile): string {
    Join(["F", PathArg.Encode(f.path), Decimal(|f.contents|), Decimal(f.modified)], "\t")
  }

  function Manifest(bundle: seq<LocalFile>): string {
    if bundle == [] then "" else Manifest(bundle[..|bundle| - 1]) + ManifestLine(bundle[|bundle| - 1]) + "\n"
  }

  datatype Entry = FileEntry(path: Path, size: nat, modified: int) | DirEntry(path: Path)

  /** A carriage return, with or without a newline after it, ends a line too. */
  function OneNewline(s: string): string {
    if s == "" then ""
    else if s[0] != '\r' then [s[0]] + OneNewline(s[1..])
    else ['\n'] + OneNewline(if |s| > 1 && s[1] == '\n' then s[2..] else s[1..])
  }

  predicate IsBlank(s: string) { forall k :: 0 <= k < |s| ==> PathArg.IsSpace(s[k]) }

  function ParseLine(line: string): Option<Entry> {
    var parts := SplitOn(line, '\t');
    if parts[0] == "F" && |parts| == 4 then
      match PathArg.Decode(parts[1])
      case None => None
      case Some(path) =>
        var size := PathArg.ParseSigned(parts[2], PathArg.LONG_BOUND);
        var modified := PathArg.ParseSigned(parts[3], PathArg.LONG_BOUND);
        if size == None || modified == None || path == [] || size.value < 0 then None
        else Some(FileEntry(path, size.value, modified.value))
    else if parts[0] == "D" && |parts| == 2 then
      match PathArg.Decode(parts[1])
      case None => None
      case Some(path) => if path == [] then None else Some(DirEntry(path))
    else None
  }

  function ParseLines(lines: seq<string>): Option<seq<Entry>> {
    if lines == [] then Some([])
    else match ParseLines(lines[..|lines| - 1])
      case None => None
      case Some(entries) =>
        var line := lines[|lines| - 1];
        if IsBlank(line) then Some(entries)
        else match ParseLine(line) case None => None case Some(e) => Some(entries + [e])
  }

  function ParseManifest(text: string): Option<seq<Entry>> { ParseLines(SplitOn(OneNewline(text), '\n')) }

  /** A path the desktop's cleaning leaves: something, with no backslash in it. */
  predicate Clean(p: Path) { p != [] && 92 !in p }

  function EntryOf(f: LocalFile): Entry { FileEntry(f.path, |f.contents|, f.modified) }

  function EntriesOf(bundle: seq<LocalFile>): (r: seq<Entry>)
    ensures |r| == |bundle|
  {
    seq(|bundle|, k requires 0 <= k < |bundle| => EntryOf(bundle[k]))
  }

  /** Sizes and times are read as signed 64-bit numbers. */
  predicate Expressible(f: LocalFile) {
    |f.contents| < PathArg.LONG_BOUND && f.modified < PathArg.LONG_BOUND
  }

  lemma LineFieldsFree(f: LocalFile, c: char)
    requires c == '\t' || c == '\n' || c == '\r'
    ensures Free(PathArg.Encode(f.path), c) && Free("F", c)
    ensures Free(Decimal(|f.contents|), c) && Free(Decimal(f.modified), c)
  {
    PathArg.EncodedIsOneWord(f.path);
    assert !IsDigit(c);
  }

  /** A manifest line is one line, and parses to its file's entry. */
  lemma LineBack(f: LocalFile)
    requires Clean(f.path)
    ensures ParseLine(ManifestLine(f)) == if Expressible(f) then Some(EntryOf(f)) else None
    ensures Free(ManifestLine(f), '\n') && Free(ManifestLine(f), '\r') && !IsBlank(ManifestLine(f))
  {
    var parts := ["F", PathArg.Encode(f.path), Decimal(|f.contents|), Decimal(f.modified)];
    LineFieldsFree(f, '\t');
    LineFieldsFree(f, '\n');
    LineFieldsFree(f, '\r');
    JoinIsFree(parts, "\t", '\n');
    JoinIsFree(parts, "\t", '\r');
    SplitJoin(parts, '\t');
    assert "\t" == ['\t'];
    PathArg.RoundTrip(f.path);
    assert PathArg.Slashed(f.path) == f.path;
    PathArg.SignedDecimal(|f.contents|, PathArg.LONG_BOUND);
    PathArg.SignedDecimal(f.modified, PathArg.LONG_BOUND);
    assert ManifestLine(f)[0] == 'F';
    hide PathArg.Encode, Decimal, SplitOn, PathArg.ParseSigned;
  }

  lemma {:induction false} NoReturns(s: string)
    requires Free(s, '\r')
    ensures OneNewline(s) == s
  {
    if s != "" {
      NoReturns(s[1..]);
      assert [s[0]] + s[1..] == s;
    }
  }

  function LinesOf(bundle: seq<LocalFile>): (r: seq<string>)
    ensures |r| == |bundle|
    ensures forall k :: 0 <= k < |bundle| ==> r[k] == ManifestLine(bundle[k])
  {
    seq(|bundle|, k requires 0 <= k < |bundle| => ManifestLine(bundle[k]))
  }

  lemma {:induction false} JoinOneMore(lines: seq<string>, line: string)
    ensures Join(lines + [line, ""], "\n") == Join(lines + [""], "\n") + line + "\n"
  {
    if lines == [] {
      assert [] + [line, ""] == [line, ""];
      assert [line, ""][1..] == [""];
      assert [] + [""] == [""];
      assert Join([line, ""], "\n") == line + "\n" + "";
    } else {
      JoinOneMore(lines[1..], line);
      assert (lines + [line, ""])[1..] == lines[1..] + [line, ""];
      assert (lines + [""])[1..] == lines[1..] + [""];
      var rest := Join(lines[1..] + [""], "\n");
      assert lines[0] + "\n" + (rest + line + "\n") == lines[0] + "\n" + rest + line + "\n";
    }
  }

  lemma {:induction false} ManifestIsLines(bundle: seq<LocalFile>)
    ensures Manifest(bundle) == Join(LinesOf(bundle) + [""], "\n")
  {
    hide ManifestLine;
    if bundle == [] {
      assert LinesOf([]) + [""] == [""];
    } else {
      var n := |bundle| - 1;
      ManifestIsLines(bundle[..n]);
      JoinOneMore(LinesOf(bundle[..n]), ManifestLine(bundle[n]));
      assert LinesOf(bundle) + [""] == LinesOf(bundle[..n]) + [ManifestLine(bundle[n]), ""];
    }
  }

  predicate AllClean(bundle: seq<LocalFile>) { forall k :: 0 <= k < |bundle| ==> Clean(bundle[k].path) }

  predicate AllExpressible(bundle: seq<LocalFile>) { forall k :: 0 <= k < |bundle| ==> Expressible(bundle[k]) }

  lemma {:induction false} LinesParse(bundle: seq<LocalFile>)
    requires AllClean(bundle)
    ensures ParseLines(LinesOf(bundle)) == if AllExpressible(bundle) then Some(EntriesOf(bundle)) else None
  {
    hide ManifestLine, ParseLine, Expressible, Clean, IsBlank;
    if bundle != [] {
      var n := |bundle| - 1;
      LinesParse(bundle[..n]);
      LineBack(bundle[n]);
      assert LinesOf(bundle)[..n] == LinesOf(bundle[..n]);
      assert AllExpressible(bundle) <==> AllExpressible(bundle[..n]) && Expressible(bundle[n]) by {
        assert forall k :: 0 <= k < n ==> bundle[..n][k] == bundle[k];
      }
      assert EntriesOf(bundle) == EntriesOf(bundle[..n]) + [EntryOf(bundle[n])];
    }
  }

  /** The phone reads from a manifest exactly the entries of the bundle, when every size and time
      fits; otherwise it refuses the whole manifest. */
  lemma ManifestBack(bundle: seq<LocalFile>)
    requires AllClean(bundle)
    ensures ParseManifest(Manifest(bundle)) == if AllExpressible(bundle) then Some(EntriesOf(bundle)) else None
  {
    var lines := LinesOf(bundle) + [""];
    hide ManifestLine, ParseLine, Expressible, Clean, OneNewline, Join, SplitOn, Manifest;
    forall k | 0 <= k < |lines| ensures Free(lines[k], '\n') && Free(lines[k], '\r') {
      if k < |bundle| { LineBack(bundle[k]); }
    }
    ManifestIsLines(bundle);
    SplitJoin(lines, '\n');
    assert "\n" == ['\n'];
    JoinIsFree(lines, "\n", '\r');
    NoReturns(Manifest(bundle));
    LinesParse(bundle);
    BlankLast(LinesOf(bundle));
    hide LinesOf;
  }

  lemma BlankLast(lines: seq<string>)
    ensures ParseLines(lines + [""]) == ParseLines(lines)
  {
    assert (lines + [""])[..|lines|] == lines;
    assert IsBlank("");
  }

  // ----- unpacking -----

  /** The phone's files, what is left of the stream, and whether every entry so far arrived. */
  datatype Unpacked = Unpacked(files: map<Path, Data>, rest: Data, ok: bool)

  /** A file is written under its temporary name and then renamed. */
  function Placed(files: map<Path, Data>, p: Path, contents: Data): map<Path, Data> {
    (files[TempName(p) := contents] - {p} - {TempName(p)})[p := contents]
  }

  function UnpackOne(u: Unpacked, e: Entry): Unpacked {
    match e
    case DirEntry(p) => u.(files := u.files - {p})
    case FileEntry(p, size, _) =>
      if |u.rest| < size then Unpacked(u.files[TempName(p) := u.rest], [], false)
      else Unpacked(Placed(u.files, p, u.rest[..size]), u.rest[size..], true)
  }

  function UnpackAll(u: Unpacked, entries: seq<Entry>): Unpacked {
    if entries == [] then u
    else
      var u1 := UnpackAll(u, entries[..|entries| - 1]);
      if u1.ok then UnpackOne(u1, entries[|entries| - 1]) else u1
  }

  /** An entry whose directory is not created, or whose temporary file is not renamed. */
  function UnpackBroken(u: Unpacked, e: Entry): Unpacked {
    match e
    case DirEntry(p) => Unpacked(u.files - {p}, u.rest, false)
    case FileEntry(p, size, _) =>
      if |u.rest| < size then UnpackOne(u, e)
      else Unpacked(u.files[TempName(p) := u.rest[..size]] - {p}, u.rest[size..], false)
  }

  /** The entries up to the one, if it is come to, where the phone's storage fails. */
  function UnpackUntil(u: Unpacked, entries: seq<Entry>, breaks: nat): Unpacked {
    if breaks >= |entries| then UnpackAll(u, entries)
    else
      var u1 := UnpackAll(u, entries[..breaks]);
      if u1.ok then UnpackBroken(u1, entries[breaks]) else u1
  }

  /** The handler: the manifest first, then the files, and in the end the announced length has to
      be the one that was read. */
  function Receive(files: map<Path, Data>, manifest: string, payloadLength: nat, stream: Data)
    : (map<Path, Data>, bool)
  {
    match ParseManifest(manifest)
    case None => (files, false)
    case Some(entries) =>
      var u := UnpackAll(Unpacked(files, stream, true), entries);
      (u.files, u.ok && |stream| == payloadLength + |u.rest|)
  }

  lemma PlacedFiles(files: map<Path, Data>, p: Path, contents: Data, q: Path)
    ensures var after := Placed(files, p, contents);
            && p in after && after[p] == contents
            && (q == TempName(p) ==> q !in after)
            && (q != p && q != TempName(p) ==> (q in after <==> q in files) && (q in files ==> after[q] == files[q]))
  {
    TempIsOther(p);
    hide TempName;
  }

  predicate Distinct(bundle: seq<LocalFile>) {
    forall j, k :: 0 <= j < k < |bundle| ==> bundle[j].path != bundle[k].path
  }

  /** No later file of the bundle is written under this one's name. */
  predicate Untouched(bundle: seq<LocalFile>, k: nat)
    requires k < |bundle|
  {
    forall j :: k < j < |bundle| ==> TempName(bundle[j].path) != bundle[k].path
  }

  /** Each file has its contents, or, when a later one was written under its name, is gone. */
  ghost predicate InPlace(files: map<Path, Data>, bundle: seq<LocalFile>) {
    forall k :: 0 <= k < |bundle| ==>
      if Untouched(bundle, k) then bundle[k].path in files && files[bundle[k].path] == bundle[k].contents
      else bundle[k].path !in files
  }

  lemma PlaceNext(files: map<Path, Data>, bundle: seq<LocalFile>, n: nat)
    requires Distinct(bundle) && n == |bundle| - 1 && InPlace(files, bundle[..n])
    ensures InPlace(Placed(files, bundle[n].path, bundle[n].contents), bundle)
  {
    hide TempName, Placed;
    forall k | 0 <= k < |bundle|
      ensures var after := Placed(files, bundle[n].path, bundle[n].contents);
        if Untouched(bundle, k) then bundle[k].path in after && after[bundle[k].path] == bundle[k].contents
        else bundle[k].path !in after
    {
      PlacedFiles(files, bundle[n].path, bundle[n].contents, bundle[k].path);
      if k < n {
        assert bundle[..n][k] == bundle[k];
        UntouchedNext(bundle, k, n);
      }
    }
  }

  lemma UntouchedNext(bundle: seq<LocalFile>, k: nat, n: nat)
    requires k < n == |bundle| - 1
    ensures Untouched(bundle, k) <==> Untouched(bundle[..n], k) && TempName(bundle[n].path) != bundle[k].path
  {
    hide TempName;
    assert forall j :: 0 <= j < n ==> bundle[..n][j] == bundle[j];
  }

  lemma PayloadLast(bundle: seq<LocalFile>, rest: Data)
    requires bundle != []
    ensures var n := |bundle| - 1;
            Payload(bundle) + rest == Payload(bundle[..n]) + (bundle[n].contents + rest)
  {
    var n := |bundle| - 1;
    Frames.Regroup(Payload(bundle[..n]), bundle[n].contents, rest);
  }

  /** The files placed one after another. */
  function PlaceAll(files: map<Path, Data>, list: seq<LocalFile>): map<Path, Data> {
    if list == [] then files
    else
      var last := list[|list| - 1];
      Placed(PlaceAll(files, list[..|list| - 1]), last.path, last.contents)
  }

  lemma {:induction false} AllInPlace(files: map<Path, Data>, list: seq<LocalFile>)
    requires Distinct(list)
    ensures InPlace(PlaceAll(files, list), list)
  {
    hide InPlace, Placed;
    if list == [] {
      EmptyInPlace(files);
    } else {
      AllInPlace(files, list[..|list| - 1]);
      PlaceNext(PlaceAll(files, list[..|list| - 1]), list, |list| - 1);
    }
  }

  lemma EmptyInPlace(files: map<Path, Data>)
    ensures InPlace(files, [])
  { }

  /** Unpacking reads exactly the payload and places every file. */
  lemma {:induction false} UnpacksAll(files: map<Path, Data>, bundle: seq<LocalFile>, rest: Data)
    ensures UnpackAll(Unpacked(files, Payload(bundle) + rest, true), EntriesOf(bundle))
         == Unpacked(PlaceAll(files, bundle), rest, true)
    decreases |bundle|
  {
    hide Placed;
    if bundle == [] {
      assert Payload([]) + rest == rest;
    } else {
      var n := |bundle| - 1;
      var f := bundle[n];
      PayloadLast(bundle, rest);
      UnpacksAll(files, bundle[..n], f.contents + rest);
      assert EntriesOf(bundle)[..n] == EntriesOf(bundle[..n]);
      assert (f.contents + rest)[..|f.contents|] == f.contents && (f.contents + rest)[|f.contents|..] == rest;
      hide Payload;
    }
  }

  /** No file of the bundle has the name under which a later one is written. */
  predicate NoClash(bundle: seq<LocalFile>) { forall k :: 0 <= k < |bundle| ==> Untouched(bundle, k) }

  /** The bundle is lossless. Sent with its manifest and its payload, and whatever follows on the
      stream, a bundle of distinct clean paths is accepted and exactly its payload is read; every
      file then has its contents exactly when none has the name under which a later file is
      written. */
  lemma BundleIsLossless(files: map<Path, Data>, bundle: seq<LocalFile>, rest: Data)
    requires Distinct(bundle) && AllClean(bundle) && AllExpressible(bundle)
    ensures var stream := Payload(bundle) + rest;
            var (after, ok) := Receive(files, Manifest(bundle), |Payload(bundle)|, stream);
            && ok
            && (NoClash(bundle) <==>
                 forall k :: 0 <= k < |bundle| ==>
                   bundle[k].path in after && after[bundle[k].path] == bundle[k].contents)
  {
    ManifestBack(bundle);
    UnpacksAll(files, bundle, rest);
    AllInPlace(files, bundle);
    hide Payload, Manifest, ParseManifest, UnpackAll, PlaceAll, Untouched;
  }

  /** With any other length announced the bundle is refused, though its files are in place by then. */
  lemma LengthIsChecked(files: map<Path, Data>, bundle: seq<LocalFile>, announced: nat)
    requires AllClean(bundle) && AllExpressible(bundle)
    ensures Receive(files, Manifest(bundle), announced, Payload(bundle))
         == (PlaceAll(files, bundle), announced == |Payload(bundle)|)
  {
    hide Payload, Manifest, ParseManifest, UnpackAll, PlaceAll, AllClean, AllExpressible;
    ManifestBack(bundle);
    UnpacksAll(files, bundle, []);
    assert Payload(bundle) + [] == Payload(bundle);
  }

  /** A directory in a manifest takes the place of a file of its name, and reads nothing. */
  lemma DirectoryReplaces(u: Unpacked, p: Path)
    requires u.ok
    ensures var u1 := UnpackAll(u, [DirEntry(p)]);
            && u1.ok && u1.rest == u.rest && p !in u1.files
            && forall q :: q != p ==> (q in u1.files <==> q in u.files) && (q in u.files ==> u1.files[q] == u.files[q])
  {
    assert [DirEntry(p)][..0] == [];
  }

  /** Files outside the bundle keep their contents, unless one has a name the bundle writes
      under. */
  lemma {:induction false} OthersKept(u: Unpacked, bundle: seq<LocalFile>, q: Path)
    requires forall k :: 0 <= k < |bundle| ==> q != bundle[k].path && q != TempName(bundle[k].path)
    ensures var u1 := UnpackAll(u, EntriesOf(bundle));
            (q in u1.files <==> q in u.files) && (q in u.files ==> u1.files[q] == u.files[q])
    decreases |bundle|
  {
    hide TempName, Placed;
    if bundle != [] {
      var n := |bundle| - 1;
      assert EntriesOf(bundle)[..n] == EntriesOf(bundle[..n]);
      assert forall k :: 0 <= k < n ==> bundle[..n][k] == bundle[k];
      OthersKept(u, bundle[..n], q);
      var u1 := UnpackAll(u, EntriesOf(bundle[..n]));
      if u1.ok && |bundle[n].contents| <= |u1.rest| {
        PlacedFiles(u1.files, bundle[n].path, u1.rest[..|bundle[n].contents|], q);
      }
    }
  }

  // ----- a whole list of files -----

  /** The phone's files, and whether it took everything so far. */
  datatype Delivered = Delivered(files: map<Path, Data>, ok: bool)

  /** What the phone has after everything that was sent. A bundle goes through its manifest; a file
      sent on its own is completed by the same renaming. The first refusal ends the loop. */
  function Deliver(files: map<Path, Data>, sent: seq<Sending>): Delivered {
    if sent == [] then Delivered(files, true)
    else
      var before := Deliver(files, sent[..|sent| - 1]);
      if !before.ok then before
      else match sent[|sent| - 1]
        case Bundled(bundle) =>
          var (after, ok) := Receive(before.files, Manifest(bundle), |Payload(bundle)|, Payload(bundle));
          Delivered(after, ok)
        case Direct(f) => Delivered(Placed(before.files, f.path, f.contents), true)
  }

  lemma ReceivePlaces(files: map<Path, Data>, bundle: seq<LocalFile>)
    requires AllClean(bundle) && AllExpressible(bundle)
    ensures Receive(files, Manifest(bundle), |Payload(bundle)|, Payload(bundle)) == (PlaceAll(files, bundle), true)
  {
    hide Payload, Manifest, ParseManifest, UnpackAll, PlaceAll, AllClean, AllExpressible;
    ManifestBack(bundle);
    UnpacksAll(files, bundle, []);
    assert Payload(bundle) + [] == Payload(bundle);
  }

  predicate SameAt(a: map<Path, Data>, b: map<Path, Data>, q: Path) {
    (q in a <==> q in b) && (q in a ==> a[q] == b[q])
  }

  /** A name some file of the bundle is written under. */
  predicate IsNameOf(bundle: seq<LocalFile>, q: Path) {
    exists k :: 0 <= k < |bundle| && (q == bundle[k].path || q == TempName(bundle[k].path))
  }

  lemma {:induction false} PlaceAllAgree(a: map<Path, Data>, b: map<Path, Data>, list: seq<LocalFile>, q: Path)
    requires IsNameOf(list, q) || SameAt(a, b, q)
    ensures SameAt(PlaceAll(a, list), PlaceAll(b, list), q)
  {
    hide Placed, TempName;
    if list != [] {
      var n := |list| - 1;
      PlacedFiles(PlaceAll(a, list[..n]), list[n].path, list[n].contents, q);
      PlacedFiles(PlaceAll(b, list[..n]), list[n].path, list[n].contents, q);
      if q != list[n].path && q != TempName(list[n].path) {
        assert forall k :: 0 <= k < n ==> list[..n][k] == list[k];
        PlaceAllAgree(a, b, list[..n], q);
      }
    }
  }

  lemma BrokenElsewhere(u: Unpacked, bundle: seq<LocalFile>, breaks: nat, q: Path)
    requires !IsNameOf(bundle, q)
    ensures SameAt(UnpackUntil(u, EntriesOf(bundle), breaks).files, u.files, q)
  {
    hide UnpackAll, TempName, Placed;
    if breaks < |bundle| {
      assert EntriesOf(bundle)[..breaks] == EntriesOf(bundle[..breaks]);
      assert forall k :: 0 <= k < breaks ==> bundle[..breaks][k] == bundle[k];
      OthersKept(u, bundle[..breaks], q);
    } else {
      OthersKept(u, bundle, q);
    }
  }

  /** Sending a bundle again. However a first attempt at it ended, with the stream cut anywhere or
      the phone's storage failing at any entry, the second is taken and leaves every file on the
      phone as it would have without the first. */
  lemma BundleAgain(files: map<Path, Data>, bundle: seq<LocalFile>, stream: Data, breaks: nat)
    requires AllClean(bundle) && AllExpressible(bundle)
    ensures var broken := UnpackUntil(Unpacked(files, stream, true), EntriesOf(bundle), breaks).files;
            Receive(broken, Manifest(bundle), |Payload(bundle)|, Payload(bundle)) == (PlaceAll(files, bundle), true)
    ensures Receive(files, Manifest(bundle), |Payload(bundle)|, Payload(bundle)) == (PlaceAll(files, bundle), true)
  {
    hide Receive, UnpackUntil, PlaceAll, AllClean, AllExpressible, IsNameOf, Payload, Manifest;
    var u := Unpacked(files, stream, true);
    var broken := UnpackUntil(u, EntriesOf(bundle), breaks).files;
    ReceivePlaces(files, bundle);
    ReceivePlaces(broken, bundle);
    forall q ensures SameAt(PlaceAll(broken, bundle), PlaceAll(files, bundle), q) {
      if !IsNameOf(bundle, q) { BrokenElsewhere(u, bundle, breaks, q); }
      PlaceAllAgree(broken, files, bundle, q);
    }
    SameMaps(PlaceAll(broken, bundle), PlaceAll(files, bundle));
  }

  lemma SameMaps(a: map<Path, Data>, b: map<Path, Data>)
    requires forall q :: SameAt(a, b, q)
    ensures a == b
  {
    forall q ensures (q in a <==> q in b) && (q in a ==> a[q] == b[q]) { assert SameAt(a, b, q); }
  }

  lemma {:induction false} PlaceAllAppend(files: map<Path, Data>, a: seq<LocalFile>, b: seq<LocalFile>)
    ensures PlaceAll(files, a + b) == PlaceAll(PlaceAll(files, a), b)
  {
    hide Placed;
    if b == [] {
      assert a + b == a;
    } else {
      PlaceAllAppend(files, a, b[..|b| - 1]);
      assert (a + b)[..|a + b| - 1] == a + b[..|b| - 1];
    }
  }

  lemma Parts(a: seq<LocalFile>, b: seq<LocalFile>)
    requires AllClean(a + b) && AllExpressible(a + b)
    ensures AllClean(a) && AllExpressible(a) && AllClean(b) && AllExpressible(b)
  {
    forall k | 0 <= k < |a| ensures a[k] == (a + b)[k] { }
    forall k | 0 <= k < |b| ensures b[k] == (a + b)[|a| + k] { }
  }

  lemma {:induction false} DeliverPlaces(files: map<Path, Data>, sent: seq<Sending>)
    requires AllClean(FilesOf(sent)) && AllExpressible(FilesOf(sent))
    ensures Deliver(files, sent) == Delivered(PlaceAll(files, FilesOf(sent)), true)
  {
    hide Placed, PlaceAll, Receive, AllClean, AllExpressible;
    if sent == [] {
      PlaceNone(files);
    } else {
      var n := |sent| - 1;
      var before := FilesOf(sent[..n]);
      match sent[n]
      case Bundled(bundle) =>
        Parts(before, bundle);
        DeliverPlaces(files, sent[..n]);
        PlaceAllAppend(files, before, bundle);
        ReceivePlaces(Deliver(files, sent[..n]).files, bundle);
      case Direct(f) =>
        Parts(before, [f]);
        DeliverPlaces(files, sent[..n]);
        PlaceAllAppend(files, before, [f]);
        PlaceOne(Deliver(files, sent[..n]).files, f);
    }
  }

  lemma PlaceNone(files: map<Path, Data>)
    ensures PlaceAll(files, []) == files
  { }

  lemma PlaceOne(files: map<Path, Data>, f: LocalFile)
    ensures PlaceAll(files, [f]) == Placed(files, f.path, f.contents)
  {
    assert [f][..0] == [];
  }

  /** Everything arrives. However the loop packed a list of files with distinct clean paths, the
      phone takes all it sends, and has every file's contents afterwards exactly when no file has
      the name under which a later one is written. */
  lemma EverythingArrives(files: map<Path, Data>, list: seq<LocalFile>)
    requires Distinct(list) && AllClean(list) && AllExpressible(list)
    ensures var (sent, bundle) := Pack(list);
            var after := Deliver(files, sent + Flush(bundle));
            && after.ok
            && (NoClash(list) <==>
                 forall k :: 0 <= k < |list| ==>
                   list[k].path in after.files && after.files[list[k].path] == list[k].contents)
  {
    hide Pack, Flush, Deliver, PlaceAll, Untouched, FilesOf, AllClean, AllExpressible;
    var (sent, bundle) := Pack(list);
    PackKeepsAll(list);
    FlushedFiles(sent, bundle);
    DeliverPlaces(files, sent + Flush(bundle));
    AllInPlace(files, list);
  }

  lemma FlushedFiles(sent: seq<Sending>, bundle: seq<LocalFile>)
    ensures FilesOf(sent + Flush(bundle)) == FilesOf(sent) + bundle
  {
    FilesOfAppend(sent, Flush(bundle));
    if bundle != [] {
      assert [Bundled(bundle)][..0] == [];
      assert FilesOf([]) + bundle == bundle;
    }
  }

  /** For instance, a file called `a.nekotrans-tmp` does not survive a file `a` behind it, though
      the bundle is accepted. */
  lemma ClashLoses(files: map<Path, Data>, first: Data, second: Data)
    requires |first| < PathArg.LONG_BOUND && |second| < PathArg.LONG_BOUND
    ensures var bundle := [LocalFile([97] + SUFFIX, first, 0), LocalFile([97], second, 0)];
            var (after, ok) := Receive(files, Manifest(bundle), |Payload(bundle)|, Payload(bundle));
            ok && [97] + SUFFIX !in after && [97] in after && after[[97]] == second
  {
    hide Payload, Manifest, ParseManifest, UnpackAll, PlaceAll;
    var bundle := [LocalFile([97] + SUFFIX, first, 0), LocalFile([97], second, 0)];
    TempIsOther([97]);
    assert TempName(bundle[1].path) == bundle[0].path;
    assert !Untouched(bundle, 0) && Untouched(bundle, 1);
    ManifestBack(bundle);
    UnpacksAll(files, bundle, []);
    assert Payload(bundle) + [] == Payload(bundle);
    AllInPlace(files, bundle);
    hide Untouched;
  }

  // ----- the phone's loop -----

  /** Truncate, and copy piece by piece. */
  method ReceiveContents(server: AgentServer, input: Frames.InputStream, temp: Path, size: nat)
    returns (arrived: bool)
    modifies server`files, input
    ensures arrived <==> |old(input.data)| >= size
    ensures var n := Min(|old(input.data)|, size);
            && server.files == old(server.files)[temp := old(input.data)[..n]]
            && input.data == old(input.data)[n..]
  {
    server.files := server.files[temp := []];
    ghost var got: Data := [];
    var remaining: nat := size;
    while remaining > 0
      invariant |got| + remaining == size && old(input.data) == got + input.data
      invariant server.files == old(server.files)[temp := got]
    {
      var piece := input.Read(Min(Frames.BUFFER_SIZE, remaining));
      if piece == [] {
        Frames.TakeSplit(old(input.data), got, input.data);
        return false;
      }
      server.files := server.files[temp := server.files[temp] + piece];
      got := got + piece;
      remaining := remaining - |piece|;
    }
    Frames.TakeSplit(old(input.data), got, input.data);
    arrived := true;
  }

  /** One file of a bundle: copy it, delete the old one, rename. */
  method ReceiveFile(server: AgentServer, input: Frames.InputStream, p: Path, size: nat, renamed: bool)
    returns (ok: bool)
    modifies server`files, input
    ensures var before, e := Unpacked(old(server.files), old(input.data), true), FileEntry(p, size, 0);
            Unpacked(server.files, input.data, ok) == if renamed then UnpackOne(before, e) else UnpackBroken(before, e)
  {
    TempIsOther(p);
    hide TempName;
    var temp := TempName(p);
    ghost var stream := input.data;
    assert stream[..|stream|] == stream;
    var arrived := ReceiveContents(server, input, temp, size);
    if !arrived { return false; }
    var contents := server.files[temp];
    server.files := server.files - {p};
    if !renamed { return false; }
    server.files := (server.files - {temp})[p := contents];
    ok := true;
  }

  /** The phone's handler of a parsed bundle; at entry `breaks` its storage fails. */
  method ReceiveBundle(server: AgentServer, input: Frames.InputStream, entries: seq<Entry>, payloadLength: nat,
                       breaks: nat)
    returns (ok: bool)
    modifies server`files, input
    ensures var u := UnpackUntil(Unpacked(old(server.files), old(input.data), true), entries, breaks);
            && server.files == u.files && input.data == u.rest
            && (ok <==> u.ok && |old(input.data)| == payloadLength + |u.rest|)
  {
    hide TempName, Placed;
    ghost var start := Unpacked(server.files, input.data, true);
    var written := 0;
    for i := 0 to |entries|
      invariant i <= breaks
      invariant Unpacked(server.files, input.data, true) == UnpackAll(start, entries[..i])
      invariant written + |input.data| == |start.rest|
    {
      assert entries[..i + 1][..i] == entries[..i];
      match entries[i]
      case DirEntry(p) =>
        server.files := server.files - {p};
        if i == breaks { return false; }
      case FileEntry(p, size, modified) =>
        var arrived := ReceiveFile(server, input, p, size, i != breaks);
        if !arrived {
          if i < breaks { FailsBefore(start, entries, i + 1, breaks); }
          return false;
        }
        written := written + size;
    }
    assert entries[..|entries|] == entries;
    ok := written == payloadLength;
  }

  lemma FailsBefore(u: Unpacked, entries: seq<Entry>, n: nat, breaks: nat)
    requires n <= |entries| && n <= breaks && !UnpackAll(u, entries[..n]).ok
    ensures UnpackUntil(u, entries, breaks) == UnpackAll(u, entries[..n])
  {
    hide UnpackAll;
    if breaks < |entries| {
      assert entries[..breaks][..n] == entries[..n];
      FailureStays(u, entries[..breaks], n);
    } else {
      FailureStays(u, entries, n);
    }
  }

  lemma {:induction false} FailureStays(u: Unpacked, entries: seq<Entry>, n: nat)
    requires n <= |entries| && !UnpackAll(u, entries[..n]).ok
    ensures UnpackAll(u, entries) == UnpackAll(u, entries[..n])
  {
    if n == |entries| {
      assert entries[..n] == entries;
    } else {
      assert entries[..|entries| - 1][..n] == entries[..n];
      FailureStays(u, entries[..|entries| - 1], n);
    }
  }
}
