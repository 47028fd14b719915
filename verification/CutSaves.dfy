/** A save that did not finish. The store writes the checkpoint in place, and the text is not
    marked with its length, so what a broken write leaves is a prefix of it. Here is what every
    prefix of every checkpoint text reads as. */
module CutSaves {
  import opened Wrappers
  import opened Models
  import opened Text
  import opened Checkpoint

  // ----- where a cut falls -----

  /** The part of a joined list in which a cut after `k` characters falls, and how many
      characters of that part are before the cut. */
  function Locate(parts: seq<string>, sep: string, k: nat): (p: (nat, nat))
    requires |parts| > 0 && |sep| == 1 && k <= |Join(parts, sep)|
    ensures p.0 < |parts| && p.1 <= |parts[p.0]|
  {
    if |parts| == 1 || k <= |parts[0]| then (0, k)
    else
      var (i, c) := Locate(parts[1..], sep, k - |parts[0]| - 1);
      (i + 1, c)
  }

  function Offset(parts: seq<string>, i: nat, c: nat): nat
    requires i < |parts| && c <= |parts[i]|
  {
    if i == 0 then c else |parts[0]| + 1 + Offset(parts[1..], i - 1, c)
  }

  lemma LocateFirst(parts: seq<string>, sep: string)
    requires |parts| > 0 && |sep| == 1
    ensures |Join(parts, sep)| == if |parts| == 1 then |parts[0]| else |parts[0]| + 1 + |Join(parts[1..], sep)|
  { }

  lemma LocateHere(parts: seq<string>, sep: string, c: nat)
    requires |parts| > 0 && |sep| == 1 && c <= |parts[0]| && c <= |Join(parts, sep)|
    ensures Locate(parts, sep, c) == (0, c)
  { }

  lemma LocateLater(parts: seq<string>, sep: string, k: nat)
    requires |parts| > 1 && |sep| == 1 && |parts[0]| < k <= |Join(parts, sep)|
    requires k - |parts[0]| - 1 <= |Join(parts[1..], sep)|
    ensures var (i, c) := Locate(parts[1..], sep, k - |parts[0]| - 1);
            Locate(parts, sep, k) == (i + 1, c)
  { }

  /** Every column of every part is where some cut falls. */
  lemma {:induction false} OffsetIsLocated(parts: seq<string>, sep: string, i: nat, c: nat)
    requires i < |parts| && c <= |parts[i]| && |sep| == 1
    ensures Offset(parts, i, c) <= |Join(parts, sep)|
    ensures Locate(parts, sep, Offset(parts, i, c)) == (i, c)
  {
    hide Join, Locate;
    LocateFirst(parts, sep);
    if i > 0 {
      OffsetIsLocated(parts[1..], sep, i - 1, c);
      LocateLater(parts, sep, Offset(parts, i, c));
    } else {
      LocateHere(parts, sep, c);
    }
  }

  function CutParts(parts: seq<string>, i: nat, c: nat): (r: seq<string>)
    requires i < |parts| && c <= |parts[i]|
    ensures |r| == i + 1
  {
    parts[..i] + [parts[i][..c]]
  }

  lemma CutPartsRest(parts: seq<string>, i: nat, c: nat)
    requires 0 < i < |parts| && c <= |parts[i]|
    ensures CutParts(parts, i, c) == [parts[0]] + CutParts(parts[1..], i - 1, c)
  { }

  lemma JoinFirst(first: string, rest: seq<string>, sep: string)
    requires rest != []
    ensures Join([first] + rest, sep) == first + sep + Join(rest, sep)
  {
    assert ([first] + rest)[1..] == rest;
  }

  lemma CutSum(a: string, b: string, k: nat)
    requires |a| <= k <= |a| + |b|
    ensures (a + b)[..k] == a + b[..k - |a|]
  { }

  /** Cutting a joined text cuts one part and drops those after it. */
  lemma {:induction false} CutJoin(parts: seq<string>, sep: string, k: nat)
    requires |parts| > 0 && |sep| == 1 && k <= |Join(parts, sep)|
    ensures var (i, c) := Locate(parts, sep, k);
            Join(parts, sep)[..k] == Join(CutParts(parts, i, c), sep)
  {
    var (i, c) := Locate(parts, sep, k);
    if i == 0 {
      assert CutParts(parts, 0, c) == [parts[0][..c]];
    } else {
      var rest := parts[1..];
      CutJoin(rest, sep, k - |parts[0]| - 1);
      CutPartsRest(parts, i, c);
      JoinFirst(parts[0], CutParts(rest, i - 1, c), sep);
      CutSum(parts[0] + sep, Join(rest, sep), k);
    }
  }

  // ----- numbers cut short -----

  lemma AllButLast(n: nat)
    requires n >= 10
    ensures Decimal(n)[..|Decimal(n)| - 1] == Decimal(n / 10)
  { }

  /** The first digits of a number are a number again, and not a larger one. */
  lemma {:induction false} FirstDigits(n: nat, d: nat)
    requires 0 < d <= |Decimal(n)|
    ensures Decimal(n)[..d] == Decimal(DigitsValue(Decimal(n)[..d]))
    ensures DigitsValue(Decimal(n)[..d]) <= n
  {
    if d == |Decimal(n)| {
      assert Decimal(n)[..d] == Decimal(n);
      DecimalValue(n);
    } else {
      AllButLast(n);
      FirstDigits(n / 10, d);
      assert Decimal(n)[..d] == Decimal(n / 10)[..d];
    }
  }

  /** A number standing alone where a list of indices is expected. */
  lemma OneNumber(n: nat)
    ensures ParseChunks(Decimal(n)) == if n < TWO_TO_32 then Some([n]) else None
  {
    DecimalIsFree(n, ',');
    SplitFree(Decimal(n), ',');
    ParseDecimal(n, TWO_TO_32);
    var parts := [Decimal(n)];
    assert parts[..0] == [];
    assert ParseNumbers(parts[..0], TWO_TO_32) == Some([]);
    assert [] + [n] == [n];
  }

  // ----- lanes cut short -----

  function LaneParts(f: FileCheckpoint): seq<string> {
    AscendingKeys(f.completedChunkLanes.Keys);
    PrintLanes(f.completedChunkLanes, Ascending(f.completedChunkLanes.Keys))
  }

  lemma LaneNameCut(l: Lane, b: nat)
    requires b < |LaneName(l)|
    ensures ParseLane(LaneName(l)[..b]) == None
  {
    assert |LaneName(Adb)| == 3 && |LaneName(Wifi)| == 4;
    if b == 3 { assert LaneName(l)[..3][0] != LaneName(Adb)[0]; }
  }

  lemma LaneEntryCut(i: U32Int, l: Lane, b: nat)
    requires b < |PrintLane(i, l)|
    ensures var s := SplitOnce(PrintLane(i, l)[..b], ':');
            s.None? || ParseLane(s.value.1) == None
  {
    var number := Decimal(i);
    DecimalIsFree(i, ':');
    assert ":" == [':'];
    var cut := PrintLane(i, l)[..b];
    if b <= |number| {
      assert cut == number[..b];
      NoSplit(cut, ':');
    } else {
      var rest := LaneName(l)[..b - |number| - 1];
      assert cut == number + [':'] + rest;
      SplitOnceAt(number, ':', rest);
      LaneNameCut(l, |rest|);
    }
  }

  lemma {:induction false} NoSplit(s: string, sep: char)
    requires Free(s, sep)
    ensures SplitOnce(s, sep) == None
  {
    if s != "" { NoSplit(s[1..], sep); }
  }

  /** How many lane entries are whole before a cut in the lanes field; None when the cut falls
      inside an entry. */
  function WholeLanes(f: FileCheckpoint, d: nat): (n: Option<nat>)
    requires d <= |LanesText(f.completedChunkLanes)|
    ensures n.Some? ==> n.value <= |Ascending(f.completedChunkLanes.Keys)|
  {
    if d == 0 then Some(0)
    else
      var (m, b) := Locate(LaneParts(f), ",", d);
      if b == 0 then Some(m) else if b == |LaneParts(f)[m]| then Some(m + 1) else None
  }

  function FirstLanes(f: FileCheckpoint, n: nat): map<U32Int, Lane>
    requires n <= |Ascending(f.completedChunkLanes.Keys)|
  {
    AscendingKeys(f.completedChunkLanes.Keys);
    Restricted(f.completedChunkLanes, Ascending(f.completedChunkLanes.Keys)[..n])
  }

  lemma PrintFirst(lanes: map<U32Int, Lane>, keys: seq<U32Int>, m: nat)
    requires m <= |keys| && forall k :: k in keys ==> k in lanes
    ensures PrintLanes(lanes, keys)[..m] == PrintLanes(lanes, keys[..m])
  { }

  /** One more entry after whole ones. */
  lemma EntriesThen(lanes: map<U32Int, Lane>, keys: seq<U32Int>, m: nat, last: string)
    requires m <= |keys| && forall k :: k in keys ==> k in lanes
    ensures var all := PrintLanes(lanes, keys)[..m] + [last];
            var before := Restricted(lanes, keys[..m]);
            var s := SplitOnce(last, ':');
            && (last == "" ==> ParseLaneEntries(all) == Some(before))
            && (last != "" && (s.None? || ParseLane(s.value.1) == None) ==> ParseLaneEntries(all) == None)
  {
    var parts := PrintLanes(lanes, keys)[..m];
    assert (parts + [last])[..m] == parts;
    PrintFirst(lanes, keys, m);
    LaneEntriesParse(lanes, keys[..m]);
  }

  lemma CutIsFree(parts: seq<string>, i: nat, c: nat, sep: char)
    requires i < |parts| && c <= |parts[i]| && forall k :: 0 <= k < |parts| ==> Free(parts[k], sep)
    ensures forall k :: 0 <= k <= i ==> Free(CutParts(parts, i, c)[k], sep)
  { }

  lemma LanesCut(f: FileCheckpoint, d: nat)
    requires d <= |LanesText(f.completedChunkLanes)|
    ensures ParseLanes(LanesText(f.completedChunkLanes)[..d]) == match WholeLanes(f, d)
      case None => None
      case Some(n) => Some(FirstLanes(f, n))
  {
    hide ParseLaneEntries, PrintLane, SplitOnce, Ascending, ParseLane, Free, SplitOn;
    var lanes := f.completedChunkLanes;
    var keys := Ascending(lanes.Keys);
    AscendingKeys(lanes.Keys);
    if d > 0 {
      var parts := LaneParts(f);
      var (m, b) := Locate(parts, ",", d);
      CutJoin(parts, ",", d);
      LanePartsFree(lanes, keys, ',');
      CutIsFree(parts, m, b, ',');
      assert "," == [','];
      SplitJoin(CutParts(parts, m, b), ',');
      EntriesThen(lanes, keys, m, parts[m][..b]);
      if b == |parts[m]| {
        assert parts[m][..b] == parts[m];
        assert CutParts(parts, m, b) == parts[..m + 1];
        PrintFirst(lanes, keys, m + 1);
        LaneEntriesParse(lanes, keys[..m + 1]);
      } else if b > 0 {
        LaneEntryCut(keys[m], lanes[keys[m]], b);
      }
    } else {
      assert Restricted(lanes, keys[..0]) == map[];
    }
  }

  // ----- a file line cut short -----

  /** What the first `d` digits of the modification time say. */
  function TimeSoFar(f: FileCheckpoint, d: nat): nat
    requires d <= |Decimal(f.modifiedAtEpochMs)|
  {
    DigitsValue(Decimal(f.modifiedAtEpochMs)[..d])
  }

  /** Whether a file line cut in its field `j` after `d` characters still parses. Three to five
      fields are the older format, where the third field is the list of completed indices. */
  predicate FieldReads(f: FileCheckpoint, j: nat, d: nat)
    requires j < 7 && d <= |FileFields(f)[j]|
  {
    match j
    case 0 => false
    case 1 => false
    case 2 => d == 0 || TimeSoFar(f, d) < TWO_TO_32
    case 3 => f.modifiedAtEpochMs < TWO_TO_32
    case 4 => f.modifiedAtEpochMs < TWO_TO_32
    case 5 => true
    case 6 => WholeLanes(f, d).Some?
  }

  /** The file such a line reads as. */
  function FieldReadAs(f: FileCheckpoint, j: nat, d: nat): FileCheckpoint
    requires j < 7 && d <= |FileFields(f)[j]| && FieldReads(f, j, d)
  {
    var bare := FileCheckpoint(f.relativePath, f.sizeBytes, 0, None, [], map[], None);
    var chunks := PrintChunks(f.completedChunks);
    match j
    case 2 => if d == 0 then bare else bare.(completedChunks := [TimeSoFar(f, d)])
    case 3 => bare.(completedChunks := [f.modifiedAtEpochMs], verificationDigest := NoneIfEmpty(chunks[..d]))
    case 4 => bare.(completedChunks := [f.modifiedAtEpochMs], verificationDigest := NoneIfEmpty(chunks),
                    fingerprintHex := NoneIfEmpty(Unescape(Escape(OrEmpty(f.verificationDigest))[..d])))
    case 5 => NormalizeFile(f).(completedChunkLanes := map[],
                    fingerprintHex := NoneIfEmpty(Unescape(Escape(OrEmpty(f.fingerprintHex))[..d])))
    case 6 => NormalizeFile(f).(completedChunkLanes := FirstLanes(f, WholeLanes(f, d).value))
  }

  lemma FewParts(parts: seq<string>)
    requires 0 < |parts| <= 7 && forall k :: 0 <= k < |parts| ==> Free(parts[k], '|')
    ensures SplitN(Join(parts, "|"), 7, '|') == parts
  {
    assert "|" == ['|'];
    SplitJoin(parts, '|');
  }

  lemma {:induction false} PlainUnescape(s: string)
    requires Free(s, '\\')
    ensures Unescape(s) == s
  {
    if s != "" {
      PlainUnescape(s[1..]);
      assert [s[0]] + s[1..] == s;
    }
  }

  lemma ChunksArePlain(ns: seq<U32Int>, d: nat)
    requires d <= |PrintChunks(ns)|
    ensures Unescape(PrintChunks(ns)[..d]) == PrintChunks(ns)[..d]
  {
    JoinIsFree(Decimals(ns), ",", '\\');
    PlainUnescape(PrintChunks(ns)[..d]);
  }

  lemma PathAndSize(f: FileCheckpoint)
    ensures Unescape(FileFields(f)[0]) == f.relativePath
    ensures ParseUnsigned(FileFields(f)[1], TWO_TO_64) == Some(f.sizeBytes)
    ensures ParseUnsigned(FileFields(f)[2], TWO_TO_128) == Some(f.modifiedAtEpochMs)
  {
    UnescapeEscape(f.relativePath);
    ParseDecimal(f.sizeBytes, TWO_TO_64);
    ParseDecimal(f.modifiedAtEpochMs, TWO_TO_128);
  }

  /** The older format: the time field, or the part of it there is, is read as the one completed
      index. */
  lemma OldFormat(f: FileCheckpoint, number: Option<nat>, digest: string, fingerprint: string)
    ensures var text := match number case None => "" case Some(n) => Decimal(n);
            var r := ParseFileRest(FileFields(f)[0], FileFields(f)[1], 0, text, digest, fingerprint, "");
            var bare := FileCheckpoint(f.relativePath, f.sizeBytes, 0, NoneIfEmpty(Unescape(fingerprint)), [],
              map[], NoneIfEmpty(Unescape(digest)));
            match number
            case None => r == Ok(bare)
            case Some(n) => if n < TWO_TO_32 then r == Ok(bare.(completedChunks := [n])) else r.Err?
  {
    PathAndSize(f);
    assert ParseLanes("") == Some(map[]);
    if number.Some? { OneNumber(number.value); }
    hide Unescape, ParseUnsigned;
  }

  lemma NewFormat(f: FileCheckpoint, fingerprint: string, lanes: string)
    ensures var r := ParseFileRest(FileFields(f)[0], FileFields(f)[1], f.modifiedAtEpochMs, FileFields(f)[3],
              FileFields(f)[4], fingerprint, lanes);
            match ParseLanes(lanes)
            case None => r.Err?
            case Some(m) => r == Ok(NormalizeFile(f).(completedChunkLanes := m,
              fingerprintHex := NoneIfEmpty(Unescape(fingerprint))))
  {
    PathAndSize(f);
    ChunksParse(f.completedChunks);
    UnescapeEscape(OrEmpty(f.verificationDigest));
    hide Unescape, ParseLanes, ParseUnsigned, Escape;
  }

  lemma CutTime(f: FileCheckpoint, parts: seq<string>, d: nat)
    requires d <= |Decimal(f.modifiedAtEpochMs)|
    requires parts == CutParts(FileFields(f), 2, d) && SplitN(Join(parts, "|"), 7, '|') == parts
    ensures var r := ParseFile(Join(parts, "|"));
            if FieldReads(f, 2, d) then r == Ok(FieldReadAs(f, 2, d)) else r.Err?
  {
    if d > 0 { FirstDigits(f.modifiedAtEpochMs, d); }
    OldFormat(f, if d == 0 then None else Some(TimeSoFar(f, d)), "", "");
    assert Unescape("") == "";
    hide ParseFileRest, Unescape, Escape, PrintChunks, LanesText;
  }

  lemma CutChunks(f: FileCheckpoint, parts: seq<string>, j: nat, d: nat)
    requires 3 <= j < 5 && d <= |FileFields(f)[j]|
    requires parts == CutParts(FileFields(f), j, d) && SplitN(Join(parts, "|"), 7, '|') == parts
    ensures var r := ParseFile(Join(parts, "|"));
            if FieldReads(f, j, d) then r == Ok(FieldReadAs(f, j, d)) else r.Err?
  {
    var chunks := PrintChunks(f.completedChunks);
    if j == 3 {
      ChunksArePlain(f.completedChunks, d);
      OldFormat(f, Some(f.modifiedAtEpochMs), chunks[..d], "");
    } else {
      ChunksArePlain(f.completedChunks, |chunks|);
      assert chunks[..|chunks|] == chunks;
      OldFormat(f, Some(f.modifiedAtEpochMs), chunks, FileFields(f)[4][..d]);
    }
    assert Unescape("") == "";
    hide ParseFileRest, Unescape, Escape, PrintChunks, LanesText;
  }

  lemma CutLate(f: FileCheckpoint, parts: seq<string>, j: nat, d: nat)
    requires 5 <= j < 7 && d <= |FileFields(f)[j]|
    requires parts == CutParts(FileFields(f), j, d) && SplitN(Join(parts, "|"), 7, '|') == parts
    ensures var r := ParseFile(Join(parts, "|"));
            if FieldReads(f, j, d) then r == Ok(FieldReadAs(f, j, d)) else r.Err?
  {
    PathAndSize(f);
    if j == 5 {
      NewFormat(f, FileFields(f)[5][..d], "");
      assert ParseLanes("") == Some(map[]);
    } else {
      NewFormat(f, FileFields(f)[5], FileFields(f)[6][..d]);
      LanesCut(f, d);
      UnescapeEscape(OrEmpty(f.fingerprintHex));
    }
    hide ParseFileRest, Unescape, Escape, PrintChunks, LanesText, ParseLanes;
  }

  /** What every prefix of a printed file record reads as. */
  lemma FileCut(f: FileCheckpoint, k: nat)
    requires k <= |Join(FileFields(f), "|")|
    ensures var (j, d) := Locate(FileFields(f), "|", k);
            var r := ParseFile(Join(FileFields(f), "|")[..k]);
            if FieldReads(f, j, d) then r == Ok(FieldReadAs(f, j, d)) else r.Err?
  {
    var fields := FileFields(f);
    var (j, d) := Locate(fields, "|", k);
    var parts := CutParts(fields, j, d);
    CutJoin(fields, "|", k);
    FileFieldsFree(f);
    CutIsFree(fields, j, d, '|');
    FewParts(parts);
    if j == 2 { CutTime(f, parts, d); }
    else if j == 3 || j == 4 { CutChunks(f, parts, j, d); }
    else if j > 4 { CutLate(f, parts, j, d); }
    hide FileFields, ParseFileRest, Join, FieldReadAs;
  }

  // ----- the lines of a text cut short -----

  predicate Keyed(e: CheckpointEntry) {
    && e.checkpoint.taskId == e.config.taskId
    && e.checkpoint.transportMode == e.config.transportMode
    && e.checkpoint.verifyEnabled == e.config.verifyEnabled
  }

  lemma NormalIsKeyed(e: CheckpointEntry)
    ensures Keyed(Normalize(e))
  { }

  lemma CutLinesOf(parts: seq<string>, last: string)
    requires Free(last, '\n') && forall k :: 0 <= k < |parts| ==> Free(parts[k], '\n')
    ensures Lines(Join(parts + [last], "\n")) == StripEach(parts) + (if last == "" then [] else [last])
  {
    assert "\n" == ['\n'];
    SplitJoin(parts + [last], '\n');
    assert (parts + [last])[..|parts|] == parts;
  }

  /** The lines before the cut are whole lines of the normalized entry. */
  lemma LinesBefore(e: CheckpointEntry, i: nat)
    requires i <= |AllLines(e)|
    ensures |AllLines(e)| == 12 + |e.checkpoint.files|
    ensures StripEach(AllLines(e)[..i]) == (HeaderLines(Normalize(e)) + FileLines(e.checkpoint.files))[..i]
    ensures Free(e.config.taskId, '\n') ==> forall k :: 0 <= k < |AllLines(e)| ==> Free(AllLines(e)[k], '\n')
  {
    hide StripCr, Free, Normalize, AllLines, FileLine, Key, Value;
    AllLinesCount(e);
    forall k | 0 <= k < 12 + |e.checkpoint.files|
      ensures StripCr(AllLines(e)[k]) == (HeaderLines(Normalize(e)) + FileLines(e.checkpoint.files))[k]
      ensures Free(e.config.taskId, '\n') ==> Free(AllLines(e)[k], '\n')
    {
      LineStrips(e, k);
    }
  }

  lemma AllLinesCount(e: CheckpointEntry)
    ensures |AllLines(e)| == 12 + |e.checkpoint.files|
  { }

  lemma ReadNothing(so: Collected)
    ensures ReadLine(so, "") == Ok(so)
  { }

  /** What the whole lines before line `i` collect. */
  function Before(e: CheckpointEntry, i: nat): Collected
    requires i <= 12 + |e.checkpoint.files|
  {
    if i <= 12 then Collected(FieldMap(Normalize(e), i), [])
    else Collected(FieldMap(Normalize(e), 12), NormalizeFiles(e.checkpoint.files[..i - 12]))
  }

  lemma ReadsBefore(e: CheckpointEntry, i: nat)
    requires i <= 12 + |e.checkpoint.files|
    ensures ReadLines((HeaderLines(Normalize(e)) + FileLines(e.checkpoint.files))[..i]) == Ok(Before(e, i))
  {
    hide ReadLines, FileLine, FieldMap, HeaderLines, NormalizeFile, Normalize;
    var header := HeaderLines(Normalize(e));
    var all := header + FileLines(e.checkpoint.files);
    if i <= 12 {
      HeaderReads(Normalize(e), i);
      assert all[..i] == header[..i];
    } else {
      var files := e.checkpoint.files[..i - 12];
      FilesRead(Normalize(e), files);
      assert FileLines(e.checkpoint.files)[..i - 12] == FileLines(files);
      assert all[..i] == header + FileLines(files);
    }
  }

  /** What a text cut in line `i` collects: the lines before it, and what is there of line `i`. */
  lemma CutCollects(e: CheckpointEntry, k: nat)
    requires Free(e.config.taskId, '\n') && k <= |Serialize(e)|
    ensures var (i, c) := Locate(AllLines(e), "\n", k);
            && i < 12 + |e.checkpoint.files|
            && ReadLines(Lines(Serialize(e)[..k])) == ReadLine(Before(e, i), AllLines(e)[i][..c])
  {
    hide AllLines, ReadLine, ReadLines, Normalize, FileLine, HeaderLines, Before, StripEach, Free, Join;
    var lines := AllLines(e);
    AllLinesCount(e);
    var (i, c) := Locate(lines, "\n", k);
    CutJoin(lines, "\n", k);
    LinesBefore(e, i);
    CutFree(lines[i], c, '\n');
    CutLinesOf(lines[..i], lines[i][..c]);
    ReadsBefore(e, i);
    var before := StripEach(lines[..i]);
    if c == 0 {
      ReadNothing(Before(e, i));
      assert before + [] == before;
      assert lines[i][..c] == "";
    } else {
      ReadOneMore(before, lines[i][..c]);
    }
  }

  lemma CutFree(s: string, c: nat, sep: char)
    requires c <= |s| && Free(s, sep)
    ensures Free(s[..c], sep)
  { }

  // ----- what the collected lines build -----

  /** The entry without its files, or with others. */
  function WithFiles(e: CheckpointEntry, files: seq<FileCheckpoint>): CheckpointEntry {
    e.(checkpoint := e.checkpoint.(files := files))
  }

  function WithTime(e: CheckpointEntry, time: U128): CheckpointEntry {
    e.(checkpoint := e.checkpoint.(updatedAtEpochMs := time))
  }

  lemma {:induction false} FieldsAgree(a: CheckpointEntry, b: CheckpointEntry, n: nat)
    requires n <= 12 && forall i :: 0 <= i < n ==> Value(a, i) == Value(b, i)
    ensures FieldMap(a, n) == FieldMap(b, n)
  {
    hide Key, Value;
    if n > 0 { FieldsAgree(a, b, n - 1); }
  }

  lemma ValuesIgnore(e: CheckpointEntry, files: seq<FileCheckpoint>, time: U128)
    ensures forall i :: 0 <= i < 12 ==> Value(WithFiles(e, files), i) == Value(e, i)
    ensures forall i :: 0 <= i < 11 ==> Value(WithTime(WithFiles(e, files), time), i) == Value(e, i)
    ensures Value(WithTime(WithFiles(e, files), time), 11) == Decimal(time)
  {
    hide Escape;
  }

  lemma {:induction false} FieldMissing(e: CheckpointEntry, n: nat, i: nat)
    requires n <= i < 12
    ensures Key(i) !in FieldMap(e, n)
  {
    hide Key, Value;
    if n > 0 {
      FieldMissing(e, n - 1, i);
      KeysDiffer(n - 1, i);
    }
  }

  lemma BuildKeyed(e: CheckpointEntry)
    requires Keyed(e)
    ensures BuildEntry(Collected(FieldMap(e, 12), e.checkpoint.files)) == Ok(e)
  {
    hide BuildEntry, FieldMap;
    BuildBack(e);
  }

  lemma OthersKeyed(e: CheckpointEntry, files: seq<FileCheckpoint>, time: U128)
    requires Keyed(e)
    ensures Keyed(WithFiles(e, files)) && Keyed(WithTime(WithFiles(e, files), time))
  { }

  lemma LastField(e: CheckpointEntry)
    ensures FieldMap(e, 12) == FieldMap(e, 11)[Key(11) := Value(e, 11)]
  {
    hide Key, Value;
  }

  lemma BuildsWith(e: CheckpointEntry, files: seq<FileCheckpoint>)
    ensures BuildEntry(Collected(FieldMap(Normalize(e), 12), files)) == Ok(WithFiles(Normalize(e), files))
  {
    hide BuildEntry, FieldMap, Key, Value, Normalize, Keyed;
    var n := Normalize(e);
    NormalIsKeyed(e);
    ValuesIgnore(n, files, 0);
    OthersKeyed(n, files, 0);
    BuildKeyed(WithFiles(n, files));
    FieldsAgree(n, WithFiles(n, files), 12);
  }

  lemma NoTimeNoEntry(so: Collected)
    requires Key(11) !in so.fields
    ensures BuildEntry(so).Err?
  { }

  /** A header line cut short adds nothing, or its key with the start of its value. */
  lemma HeaderLineCut(so: Collected, i: nat, value: string, c: nat)
    requires i < 12 && c <= |HeaderLine(Key(i), value)|
    ensures var key := Key(i);
            ReadLine(so, HeaderLine(key, value)[..c]) == Ok(
              if c <= |key| then so else so.(fields := so.fields[key := value[..c - |key| - 1]]))
  {
    hide Key;
    KeysArePlain(i);
    var key := Key(i);
    var line := HeaderLine(key, value)[..c];
    if c <= |key| {
      assert line == key[..c];
      assert !("file=" <= line) by { if |line| > 0 { assert line[0] == key[0]; } }
      NoSplit(line, '=');
    } else {
      assert line == HeaderLine(key, value[..c - |key| - 1]);
      HeaderLineReads(so, i, value[..c - |key| - 1]);
    }
  }

  /** A text that ends before the last header line has begun its value is no checkpoint. */
  lemma CutEarly(e: CheckpointEntry, i: nat, c: nat)
    requires i < 12 && c <= |HeaderLine(Key(i), Value(e, i))|
    requires i < 11 || c <= |Key(11)|
    ensures var r := ReadLine(Before(e, i), HeaderLine(Key(i), Value(e, i))[..c]);
            r.Ok? && BuildEntry(r.value).Err?
  {
    hide Key, Value, Normalize, FieldMap;
    HeaderLineCut(Before(e, i), i, Value(e, i), c);
    FieldMissing(Normalize(e), i, 11);
    if i < 11 { KeysDiffer(i, 11); }
    NoTimeNoEntry(ReadLine(Before(e, i), HeaderLine(Key(i), Value(e, i))[..c]).value);
  }

  /** The save time cut short is a shorter number; without a digit there is no checkpoint. */
  lemma CutSaveTime(e: CheckpointEntry, d: nat)
    requires d <= |Decimal(e.checkpoint.updatedAtEpochMs)|
    ensures var text := Decimal(e.checkpoint.updatedAtEpochMs)[..d];
            var r := BuildEntry(Collected(FieldMap(Normalize(e), 11)[Key(11) := text], []));
            if d == 0 then r.Err? else
              && DigitsValue(text) <= e.checkpoint.updatedAtEpochMs
              && r == Ok(WithTime(WithFiles(Normalize(e), []), DigitsValue(text)))
  {
    hide Key, Value, BuildEntry, FieldMap, Normalize, Keyed;
    var n := Normalize(e);
    if d == 0 {
      EmptyTime(FieldMap(n, 11));
    } else {
      FirstDigits(e.checkpoint.updatedAtEpochMs, d);
      var time := DigitsValue(Decimal(e.checkpoint.updatedAtEpochMs)[..d]);
      var x := WithTime(WithFiles(n, []), time);
      NormalIsKeyed(e);
      ValuesIgnore(n, [], time);
      FieldsAgree(n, x, 11);
      OthersKeyed(n, [], time);
      BuildKeyed(x);
      LastField(x);
    }
  }

  lemma EmptyTime(fields: map<string, string>)
    ensures BuildEntry(Collected(fields[Key(11) := ""], [])).Err?
  { }

  // ----- every prefix -----

  /** Whether a file line of which the first `c` characters are there parses. */
  predicate RecordReads(f: FileCheckpoint, c: nat)
    requires 5 <= c <= |FileLine(f)|
  {
    var (j, d) := Locate(FileFields(f), "|", c - 5);
    FieldReads(f, j, d)
  }

  function RecordReadAs(f: FileCheckpoint, c: nat): FileCheckpoint
    requires 5 <= c <= |FileLine(f)| && RecordReads(f, c)
  {
    var (j, d) := Locate(FileFields(f), "|", c - 5);
    FieldReadAs(f, j, d)
  }

  lemma RecordLine(so: Collected, f: FileCheckpoint, c: nat)
    requires c <= |FileLine(f)|
    ensures var r := ReadLine(so, FileLine(f)[..c]);
            if c < 5 then r == Ok(so)
            else if RecordReads(f, c) then r == Ok(so.(files := so.files + [RecordReadAs(f, c)]))
            else r.Err?
  {
    hide FileFields, ParseFile, FieldReads, FieldReadAs;
    var line := FileLine(f)[..c];
    if c < 5 {
      assert line == "file="[..c];
      assert Free("file", '=') && "file="[..4] == "file";
      assert line == "file"[..c];
      NoSplit(line, '=');
    } else {
      FileCut(f, c - 5);
      assert line[5..] == Join(FileFields(f), "|")[..c - 5];
    }
  }

  lemma LineAt(e: CheckpointEntry, i: nat)
    requires i < 12 + |e.checkpoint.files|
    ensures |AllLines(e)| == 12 + |e.checkpoint.files|
    ensures AllLines(e)[i] ==
      if i < 12 then HeaderLine(Key(i), Value(e, i)) else FileLine(e.checkpoint.files[i - 12])
  {
    hide Key, Value, FileLine;
  }

  /** Whether a text cut in line `i`, after `c` characters of it, is still a checkpoint: the save
      time must have a digit, and a file line must be barely begun, or end where it parses. */
  predicate LineReads(e: CheckpointEntry, i: nat, c: nat)
    requires i < |AllLines(e)| && c <= |AllLines(e)[i]|
  {
    LineAt(e, i);
    if i < 11 then false
    else if i == 11 then c > |Key(11)| + 1
    else c < 5 || RecordReads(e.checkpoint.files[i - 12], c)
  }

  /** The checkpoint it is. */
  function LineReadAs(e: CheckpointEntry, i: nat, c: nat): CheckpointEntry
    requires i < |AllLines(e)| && c <= |AllLines(e)[i]| && LineReads(e, i, c)
  {
    LineAt(e, i);
    var n := Normalize(e);
    if i == 11 then
      FirstDigits(e.checkpoint.updatedAtEpochMs, c - |Key(11)| - 1);
      WithTime(WithFiles(n, []), DigitsValue(Decimal(e.checkpoint.updatedAtEpochMs)[..c - |Key(11)| - 1]))
    else
      var files := NormalizeFiles(e.checkpoint.files[..i - 12]);
      if c < 5 then WithFiles(n, files)
      else WithFiles(n, files + [RecordReadAs(e.checkpoint.files[i - 12], c)])
  }

  predicate Reads(e: CheckpointEntry, k: nat)
    requires k <= |Serialize(e)|
  {
    AllLinesCount(e);
    var (i, c) := Locate(AllLines(e), "\n", k);
    LineReads(e, i, c)
  }

  function ReadAs(e: CheckpointEntry, k: nat): CheckpointEntry
    requires k <= |Serialize(e)| && Reads(e, k)
  {
    AllLinesCount(e);
    var (i, c) := Locate(AllLines(e), "\n", k);
    LineReadAs(e, i, c)
  }

  lemma CutInHeader(e: CheckpointEntry, i: nat, c: nat)
    requires i < 12 && i < |AllLines(e)| && c <= |AllLines(e)[i]|
    ensures var r := ReadLine(Before(e, i), AllLines(e)[i][..c]);
            && r.Ok?
            && (if LineReads(e, i, c) then BuildEntry(r.value) == Ok(LineReadAs(e, i, c)) else BuildEntry(r.value).Err?)
  {
    hide Key, AllLines, BuildEntry, Normalize, FieldMap, ReadLine;
    LineAt(e, i);
    if i < 11 || c <= |Key(11)| {
      CutEarly(e, i, c);
    } else {
      HeaderLineCut(Before(e, 11), 11, Value(e, 11), c);
      CutSaveTime(e, c - |Key(11)| - 1);
    }
  }

  lemma CutInFile(e: CheckpointEntry, i: nat, c: nat)
    requires 12 <= i < |AllLines(e)| && c <= |AllLines(e)[i]| && i < 12 + |e.checkpoint.files|
    ensures var r := ReadLine(Before(e, i), AllLines(e)[i][..c]);
            if LineReads(e, i, c) then r.Ok? && BuildEntry(r.value) == Ok(LineReadAs(e, i, c)) else r.Err?
  {
    hide Key, AllLines, BuildEntry, Normalize, FieldMap, FileLine, RecordReads, RecordReadAs, ReadLine;
    LineAt(e, i);
    var f := e.checkpoint.files[i - 12];
    var files := NormalizeFiles(e.checkpoint.files[..i - 12]);
    assert Before(e, i) == Collected(FieldMap(Normalize(e), 12), files);
    RecordLine(Before(e, i), f, c);
    if c < 5 {
      BuildsWith(e, files);
    } else if RecordReads(f, c) {
      BuildsWith(e, files + [RecordReadAs(f, c)]);
    }
  }

  /** Every prefix of the text of every entry: exactly when it is read as a checkpoint, and then
      as which one. */
  lemma CutReadsIff(e: CheckpointEntry, k: nat)
    requires Free(e.config.taskId, '\n') && k <= |Serialize(e)|
    ensures Deserialize(Serialize(e)[..k]).Ok? <==> Reads(e, k)
    ensures Reads(e, k) ==> Deserialize(Serialize(e)[..k]) == Ok(ReadAs(e, k))
  {
    hide AllLines, BuildEntry, Before, ReadLine, LineReads, LineReadAs, ReadLines, Lines, Free;
    AllLinesCount(e);
    CutCollects(e, k);
    var (i, c) := Locate(AllLines(e), "\n", k);
    if i < 12 { CutInHeader(e, i, c); } else { CutInFile(e, i, c); }
  }

  // ----- what a cut text claims -----

  /** The completed indices a file line cut in its time, index or digest field claims. */
  function Claimed(f: FileCheckpoint, j: nat, d: nat): seq<nat>
    requires 2 <= j < 5 && d <= |FileFields(f)[j]|
  {
    if j > 2 then [f.modifiedAtEpochMs] else if d == 0 then [] else [TimeSoFar(f, d)]
  }

  /** No file of `x` claims an index the same file of `e` does not have. */
  ghost predicate NothingInvented(x: CheckpointEntry, e: CheckpointEntry) {
    && |x.checkpoint.files| <= |e.checkpoint.files|
    && (forall g, v :: 0 <= g < |x.checkpoint.files| && v in x.checkpoint.files[g].completedChunks ==>
         v in e.checkpoint.files[g].completedChunks)
  }

  /** Where the cut must fall for that. */
  predicate Honest(e: CheckpointEntry, i: nat, c: nat)
    requires i < |AllLines(e)| && c <= |AllLines(e)[i]|
  {
    LineAt(e, i);
    i < 12 || c < 5 ||
      var f := e.checkpoint.files[i - 12];
      var (j, d) := Locate(FileFields(f), "|", c - 5);
      2 <= j < 5 ==> forall v :: v in Claimed(f, j, d) ==> v in f.completedChunks
  }

  /** What is left of a file whose line was cut: its path and size, and the indices it claims. */
  lemma RecordClaims(f: FileCheckpoint, c: nat)
    requires 5 <= c <= |FileLine(f)| && RecordReads(f, c)
    ensures var (j, d) := Locate(FileFields(f), "|", c - 5);
            var g := RecordReadAs(f, c);
            && 2 <= j < 7 && g.relativePath == f.relativePath && g.sizeBytes == f.sizeBytes
            && g.completedChunks == (if j < 5 then Claimed(f, j, d) else f.completedChunks)
            && (j < 6 ==> g.completedChunkLanes == map[])
            && (forall v :: v in g.completedChunkLanes ==>
                 v in f.completedChunkLanes && g.completedChunkLanes[v] == f.completedChunkLanes[v])
  {
    hide FileFields, TimeSoFar, Unescape, Escape, PrintChunks;
    AscendingKeys(f.completedChunkLanes.Keys);
  }

  /** The files a cut text keeps: those before the cut line whole, and what is left of that one. */
  lemma FilesLeft(e: CheckpointEntry, i: nat, c: nat)
    requires i < |AllLines(e)| && c <= |AllLines(e)[i]| && LineReads(e, i, c)
    ensures |AllLines(e)| == 12 + |e.checkpoint.files|
    ensures i >= 11
    ensures i >= 12 && c >= 5 ==> c <= |FileLine(e.checkpoint.files[i - 12])|
    ensures i >= 12 && c >= 5 ==> RecordReads(e.checkpoint.files[i - 12], c)
    ensures LineReadAs(e, i, c).checkpoint.files ==
      if i == 11 then []
      else if c < 5 then NormalizeFiles(e.checkpoint.files[..i - 12])
      else NormalizeFiles(e.checkpoint.files[..i - 12]) + [RecordReadAs(e.checkpoint.files[i - 12], c)]
  {
    hide FileLine, Key, Value, RecordReads, RecordReadAs, NormalizeFile;
    LineAt(e, i);
  }

  /** A cut text claims a chunk that was never recorded exactly when the cut falls in the third
      to fifth field of a file line and the number read as an index is not one of that file's. */
  lemma InventsIff(e: CheckpointEntry, k: nat)
    requires k <= |Serialize(e)| && Reads(e, k)
    ensures var (i, c) := Locate(AllLines(e), "\n", k);
            NothingInvented(ReadAs(e, k), e) <==> Honest(e, i, c)
  {
    hide AllLines, FileLine, RecordReads, RecordReadAs, LineReads, LineReadAs, FileFields, Claimed;
    AllLinesCount(e);
    var (i, c) := Locate(AllLines(e), "\n", k);
    FilesLeft(e, i, c);
    if i >= 12 && c >= 5 {
      RecordClaims(e.checkpoint.files[i - 12], c);
      LastInvents(ReadAs(e, k), e, i - 12);
    } else if i >= 12 {
      FirstHonest(ReadAs(e, k), e, i - 12);
    }
  }

  lemma FirstHonest(x: CheckpointEntry, e: CheckpointEntry, n: nat)
    requires n <= |e.checkpoint.files| && x.checkpoint.files == NormalizeFiles(e.checkpoint.files[..n])
    ensures NothingInvented(x, e)
  { }

  lemma LastInvents(x: CheckpointEntry, e: CheckpointEntry, n: nat)
    requires n < |e.checkpoint.files| && |x.checkpoint.files| == n + 1
    requires x.checkpoint.files[..n] == NormalizeFiles(e.checkpoint.files[..n])
    ensures NothingInvented(x, e) <==>
      forall v :: v in x.checkpoint.files[n].completedChunks ==> v in e.checkpoint.files[n].completedChunks
  {
    forall g | 0 <= g < n
      ensures x.checkpoint.files[g].completedChunks == e.checkpoint.files[g].completedChunks
    {
      assert x.checkpoint.files[g] == x.checkpoint.files[..n][g];
    }
  }

  /** Where the cut must fall for index `v` of file `g` to be there still. */
  predicate StillThere(e: CheckpointEntry, i: nat, c: nat, g: nat, v: U32Int)
    requires i < |AllLines(e)| && c <= |AllLines(e)[i]| && g < |e.checkpoint.files|
  {
    LineAt(e, i);
    12 + g < i || (12 + g == i && c >= 5 &&
      var f := e.checkpoint.files[g];
      var (j, d) := Locate(FileFields(f), "|", c - 5);
      2 <= j && (j < 5 ==> v in Claimed(f, j, d)))
  }

  /** A torn save loses exactly the indices of the files after the cut, and those of the cut file
      too unless the cut falls in the last two fields of its line. */
  lemma StillThereIff(e: CheckpointEntry, k: nat, g: nat, v: U32Int)
    requires k <= |Serialize(e)| && Reads(e, k)
    requires g < |e.checkpoint.files| && v in e.checkpoint.files[g].completedChunks
    ensures var (i, c) := Locate(AllLines(e), "\n", k);
            (g < |ReadAs(e, k).checkpoint.files| && v in ReadAs(e, k).checkpoint.files[g].completedChunks)
              <==> StillThere(e, i, c, g, v)
  {
    hide AllLines, FileLine, RecordReads, RecordReadAs, LineReads, LineReadAs, FileFields, Claimed;
    AllLinesCount(e);
    var (i, c) := Locate(AllLines(e), "\n", k);
    FilesLeft(e, i, c);
    if i >= 12 && c >= 5 { RecordClaims(e.checkpoint.files[i - 12], c); }
  }

  // ----- reaching a cut -----

  lemma FieldLocated(f: FileCheckpoint, j: nat, d: nat)
    requires j < 7 && d <= |FileFields(f)[j]|
    ensures var o := Offset(FileFields(f), j, d);
            5 + o <= |FileLine(f)| && Locate(FileFields(f), "|", o) == (j, d)
  {
    hide FileFields, Locate, Offset, Join;
    OffsetIsLocated(FileFields(f), "|", j, d);
  }

  /** The cut after `d` characters of field `j` of file `g`. */
  function CutAt(e: CheckpointEntry, g: nat, j: nat, d: nat): nat
    requires g < |e.checkpoint.files| && j < 7 && d <= |FileFields(e.checkpoint.files[g])[j]|
  {
    LineAt(e, 12 + g);
    FieldLocated(e.checkpoint.files[g], j, d);
    Offset(AllLines(e), 12 + g, 5 + Offset(FileFields(e.checkpoint.files[g]), j, d))
  }

  lemma CutAtLocated(e: CheckpointEntry, g: nat, j: nat, d: nat)
    requires g < |e.checkpoint.files| && j < 7 && d <= |FileFields(e.checkpoint.files[g])[j]|
    ensures CutAt(e, g, j, d) <= |Serialize(e)|
    ensures var (i, c) := Locate(AllLines(e), "\n", CutAt(e, g, j, d));
            && i == 12 + g && 5 <= c <= |FileLine(e.checkpoint.files[g])|
            && Locate(FileFields(e.checkpoint.files[g]), "|", c - 5) == (j, d)
  {
    hide AllLines, FileFields, FileLine, Locate, Offset;
    var f := e.checkpoint.files[g];
    LineAt(e, 12 + g);
    FieldLocated(f, j, d);
    OffsetIsLocated(AllLines(e), "\n", 12 + g, 5 + Offset(FileFields(f), j, d));
  }

  lemma TimeRecord(f: FileCheckpoint, c: nat, d: nat)
    requires 5 <= c <= |FileLine(f)| && Locate(FileFields(f), "|", c - 5) == (2, d)
    requires 0 < d <= |Decimal(f.modifiedAtEpochMs)| && TimeSoFar(f, d) < TWO_TO_32
    ensures RecordReads(f, c) && RecordReadAs(f, c).completedChunks == [TimeSoFar(f, d)]
  {
    hide FileFields, TimeSoFar, Unescape, Escape, PrintChunks;
  }

  lemma RecordIsLine(e: CheckpointEntry, i: nat, c: nat)
    requires 12 <= i < |AllLines(e)| && c <= |AllLines(e)[i]| && |AllLines(e)| == 12 + |e.checkpoint.files|
    requires 5 <= c <= |FileLine(e.checkpoint.files[i - 12])| && RecordReads(e.checkpoint.files[i - 12], c)
    ensures LineReads(e, i, c)
  {
    hide AllLines, FileLine, RecordReads;
  }

  /** A save that breaks inside a file's modification time leaves a checkpoint in which the digits
      written so far are that file's one completed chunk. */
  lemma TimeBecomesIndex(e: CheckpointEntry, g: nat, d: nat)
    requires Free(e.config.taskId, '\n') && g < |e.checkpoint.files|
    requires 0 < d <= |Decimal(e.checkpoint.files[g].modifiedAtEpochMs)|
    requires TimeSoFar(e.checkpoint.files[g], d) < TWO_TO_32
    ensures CutAt(e, g, 2, d) <= |Serialize(e)|
    ensures var r := Deserialize(Serialize(e)[..CutAt(e, g, 2, d)]);
            && r.Ok? && |r.value.checkpoint.files| == g + 1
            && r.value.checkpoint.files[g].completedChunks == [TimeSoFar(e.checkpoint.files[g], d)]
  {
    hide AllLines, FileLine, CutAt, TimeSoFar, LineReadAs, LineReads, RecordReads, RecordReadAs, Deserialize,
      NormalizeFile, Free;
    var k := CutAt(e, g, 2, d);
    CutAtLocated(e, g, 2, d);
    CutReadsIff(e, k);
    var (i, c) := Locate(AllLines(e), "\n", k);
    AllLinesCount(e);
    TimeRecord(e.checkpoint.files[g], c, d);
    RecordIsLine(e, i, c);
    FilesLeft(e, i, c);
  }

  function FirstTwo(n: nat): nat
    requires n >= 10
  {
    if n < 100 then n else FirstTwo(n / 10)
  }

  lemma {:induction false} FirstTwoDigits(n: nat)
    requires n >= 10
    ensures |Decimal(n)| >= 2 && DigitsValue(Decimal(n)[..2]) == FirstTwo(n)
  {
    AllButLast(n);
    if n < 100 {
      assert Decimal(n)[..2] == Decimal(n);
      DecimalValue(n);
    } else {
      FirstTwoDigits(n / 10);
      assert Decimal(n)[..2] == Decimal(n / 10)[..2];
    }
  }

  function PowerOfTen(k: nat): nat { if k == 0 then 1 else 10 * PowerOfTen(k - 1) }

  /** The numbers with these first two digits. */
  lemma {:induction false} FirstTwoOf(n: nat, d: nat, k: nat)
    requires 10 <= d < 100 && d * PowerOfTen(k) <= n < (d + 1) * PowerOfTen(k)
    ensures n >= 10 && FirstTwo(n) == d
  {
    if k > 0 {
      var p := PowerOfTen(k - 1);
      assert d * (10 * p) == 10 * (d * p) && (d + 1) * (10 * p) == 10 * ((d + 1) * p);
      FirstTwoOf(n / 10, d, k - 1);
    }
  }
}
