/** The checkpoint record and its text form: `serialize_entry` and `deserialize_entry`. */
module Checkpoint {
  import opened Wrappers
  import opened Models
  import opened Text

  datatype FileCheckpoint = FileCheckpoint(
    relativePath: string,
    sizeBytes: U64,
    modifiedAtEpochMs: U128,
    fingerprintHex: Option<string>,
    completedChunks: seq<U32Int>,
    completedChunkLanes: map<U32Int, Lane>,
    verificationDigest: Option<string>)

  datatype TaskCheckpoint = TaskCheckpoint(
    taskId: string,
    state: TaskState,
    transportMode: TransportMode,
    verifyEnabled: bool,
    updatedAtEpochMs: U128,
    files: seq<FileCheckpoint>)

  datatype CheckpointEntry = CheckpointEntry(config: TaskConfig, checkpoint: TaskCheckpoint)

  datatype ParseError = Malformed(what: string)

  /** The record of a task that has moved nothing yet. */
  function InitialFile(item: TransferItem): FileCheckpoint {
    FileCheckpoint(item.relativePath, item.sizeBytes, item.modifiedAtEpochMs, item.fingerprint, [], map[], None)
  }

  function InitialFiles(items: seq<TransferItem>): (files: seq<FileCheckpoint>)
    ensures |files| == |items|
  {
    seq(|items|, i requires 0 <= i < |items| => InitialFile(items[i]))
  }

  function InitializeCheckpoint(config: TaskConfig, items: seq<TransferItem>): CheckpointEntry {
    CheckpointEntry(config,
      TaskCheckpoint(config.taskId, Pending, config.transportMode, config.verifyEnabled,
        config.createdAtEpochMs, InitialFiles(items)))
  }

  // ----- escaping -----

  function Replace(s: string, c: char, sub: string): string {
    if s == "" then ""
    else (if s[0] == c then sub else [s[0]]) + Replace(s[1..], c, sub)
  }

  /** Three passes over the whole string, backslashes first. */
  function Escape(s: string): string {
    Replace(Replace(Replace(s, '\\', "\\\\"), '\n', "\\n"), '|', "\\p")
  }

  function EscapeChar(c: char): (r: string)
    ensures r != ""
  {
    if c == '\\' then "\\\\" else if c == '\n' then "\\n" else if c == '|' then "\\p" else [c]
  }

  function EscapeEach(s: string): string {
    if s == "" then "" else EscapeChar(s[0]) + EscapeEach(s[1..])
  }

  lemma {:induction false} ReplaceAppend(a: string, b: string, c: char, sub: string)
    ensures Replace(a + b, c, sub) == Replace(a, c, sub) + Replace(b, c, sub)
  {
    if a == "" {
      assert a + b == b;
    } else {
      ReplaceAppend(a[1..], b, c, sub);
      assert (a + b)[1..] == a[1..] + b;
      AppendThree(if a[0] == c then sub else [a[0]], Replace(a[1..], c, sub), Replace(b, c, sub));
    }
  }

  lemma ReplaceOne(x: char, c: char, sub: string)
    ensures Replace([x], c, sub) == if x == c then sub else [x]
  {
    assert [x][1..] == "";
  }

  lemma ReplaceTwo(x: char, y: char, c: char, sub: string)
    requires x != c && y != c
    ensures Replace([x, y], c, sub) == [x, y]
  {
    assert [x, y] == [x] + [y];
    ReplaceAppend([x], [y], c, sub);
    ReplaceOne(x, c, sub);
    ReplaceOne(y, c, sub);
  }

  lemma EscapeOne(x: char)
    ensures Escape([x]) == EscapeChar(x)
  {
    ReplaceOne(x, '\\', "\\\\");
    if x == '\\' {
      ReplaceTwo('\\', '\\', '\n', "\\n");
      ReplaceTwo('\\', '\\', '|', "\\p");
    } else {
      ReplaceOne(x, '\n', "\\n");
      if x == '\n' { ReplaceTwo('\\', 'n', '|', "\\p"); } else { ReplaceOne(x, '|', "\\p"); }
    }
  }

  lemma EscapeAppend(a: string, b: string)
    ensures Escape(a + b) == Escape(a) + Escape(b)
  {
    var a1, b1 := Replace(a, '\\', "\\\\"), Replace(b, '\\', "\\\\");
    var a2, b2 := Replace(a1, '\n', "\\n"), Replace(b1, '\n', "\\n");
    ReplaceAppend(a, b, '\\', "\\\\");
    ReplaceAppend(a1, b1, '\n', "\\n");
    ReplaceAppend(a2, b2, '|', "\\p");
  }

  /** The three passes do not disturb each other: they amount to one map over the characters. */
  lemma {:induction false} EscapeIsCharMap(s: string)
    ensures Escape(s) == EscapeEach(s)
  {
    if s != "" {
      assert s == [s[0]] + s[1..];
      EscapeAppend([s[0]], s[1..]);
      EscapeOne(s[0]);
      EscapeIsCharMap(s[1..]);
    }
  }

  /** Escaped text has no newline and no field separator. */
  lemma {:induction false} EscapeIsSafe(s: string)
    ensures Free(Escape(s), '\n') && Free(Escape(s), '|')
  {
    EscapeIsCharMap(s);
    if s != "" {
      EscapeIsSafe(s[1..]);
      EscapeIsCharMap(s[1..]);
    }
  }

  function Unescape(s: string): string {
    if s == "" then ""
    else if s[0] != '\\' then [s[0]] + Unescape(s[1..])
    else if |s| == 1 then "\\"
    else UnescapePair(s[1]) + Unescape(s[2..])
  }

  function UnescapePair(c: char): string {
    if c == 'n' then "\n" else if c == 'p' then "|" else if c == '\\' then "\\" else ['\\', c]
  }

  lemma UnescapeNext(s: string, i: nat)
    requires i < |s|
    ensures s[i] != '\\' ==> Unescape(s[i..]) == [s[i]] + Unescape(s[i + 1..])
    ensures s[i] == '\\' && i + 1 < |s| ==> Unescape(s[i..]) == UnescapePair(s[i + 1]) + Unescape(s[i + 2..])
    ensures s[i] == '\\' && i + 1 == |s| ==> Unescape(s[i..]) == "\\" && Unescape(s[i + 1..]) == ""
  {
    var t := s[i..];
    assert t[1..] == s[i + 1..];
    if i + 1 < |s| { assert t[2..] == s[i + 2..]; }
  }

  method UnescapeText(input: string) returns (result: string)
    ensures result == Unescape(input)
  {
    result := "";
    var i := 0;
    while i < |input|
      invariant 0 <= i <= |input|
      invariant result + Unescape(input[i..]) == Unescape(input)
    {
      UnescapeNext(input, i);
      hide Unescape, UnescapePair;
      var ch := input[i];
      i := i + 1;
      if ch == '\\' {
        if i == |input| {
          result := result + "\\";
        } else {
          var next := input[i];
          i := i + 1;
          AppendThree(result, UnescapePair(next), Unescape(input[i..]));
          result := result + UnescapePair(next);
        }
      } else {
        AppendThree(result, [ch], Unescape(input[i..]));
        result := result + [ch];
      }
    }
    assert input[i..] == "";
  }

  predicate NoEscapes(s: string) {
    forall i :: 0 <= i < |s| - 1 && s[i] == '\\' ==> s[i + 1] != 'n' && s[i + 1] != 'p' && s[i + 1] != '\\'
  }

  lemma NoEscapesFrom(s: string, n: nat)
    requires 0 < n <= |s| && (n == 1 ==> s[0] != '\\') && (n == 2 ==> s[0] == '\\' && s[1] != '\\')
    requires n <= 2 && (n == 2 ==> s[1] != 'n' && s[1] != 'p')
    ensures NoEscapes(s) <==> NoEscapes(s[n..])
  {
    var t := s[n..];
    assert forall i :: 0 <= i < |t| ==> t[i] == s[n + i];
    if NoEscapes(t) {
      forall i | 0 <= i < |s| - 1 && s[i] == '\\' ensures s[i + 1] != 'n' && s[i + 1] != 'p' && s[i + 1] != '\\' {
        if i >= n { assert t[i - n] == '\\'; }
      }
    }
  }

  /** Only a backslash before an n, a p or another backslash means something; a text without such stays
      as it is, one with any gets shorter. */
  lemma {:induction false} UnescapeKeepsIff(s: string)
    ensures |Unescape(s)| < |s| <==> !NoEscapes(s)
    ensures Unescape(s) == s <==> NoEscapes(s)
  {
    if s != "" && s[0] != '\\' {
      assert s == [s[0]] + s[1..];
      UnescapeKeepsIff(s[1..]);
      NoEscapesFrom(s, 1);
    } else if |s| >= 2 {
      assert s == [s[0], s[1]] + s[2..];
      UnescapeKeepsIff(s[2..]);
      if s[1] != 'n' && s[1] != 'p' && s[1] != '\\' { NoEscapesFrom(s, 2); }
    }
  }

  /** Escaping loses nothing. */
  lemma {:induction false} UnescapeEscape(s: string)
    ensures Unescape(Escape(s)) == s
  {
    EscapeIsCharMap(s);
    if s != "" {
      UnescapeEscape(s[1..]);
      EscapeIsCharMap(s[1..]);
      var rest := EscapeEach(s[1..]);
      var all := EscapeEach(s);
      if |EscapeChar(s[0])| == 1 {
        assert all[1..] == rest;
      } else {
        assert all[2..] == rest;
      }
      assert s == [s[0]] + s[1..];
    }
  }

  /** The one character escaping lets through that a line reader drops. */
  lemma StripEscape(s: string)
    ensures StripCr(Escape(s)) == Escape(StripCr(s))
    ensures Escape(s) == "" <==> s == ""
  {
    if s != "" {
      var t, c := s[..|s| - 1], s[|s| - 1];
      assert s == t + [c];
      EscapeAppend(t, [c]);
      EscapeOne(c);
    }
  }

  // ----- names of the enumerations -----

  function DirectionName(d: Direction): string {
    match d case PcToAndroid => "pc_to_android" case AndroidToPc => "android_to_pc"
  }

  function ParseDirection(s: string): Option<Direction> {
    if s == "pc_to_android" then Some(PcToAndroid)
    else if s == "android_to_pc" then Some(AndroidToPc)
    else None
  }

  function ModeName(m: TransportMode): string {
    match m case AdbOnly => "adb_only" case WifiOnly => "wifi_only" case Dual => "dual"
  }

  function ParseMode(s: string): Option<TransportMode> {
    if s == "adb_only" then Some(AdbOnly)
    else if s == "wifi_only" then Some(WifiOnly)
    else if s == "dual" then Some(Dual)
    else None
  }

  function StateName(t: TaskState): string {
    match t
    case Pending => "pending" case Running => "running" case Paused => "paused"
    case Completed => "completed" case Failed => "failed" case Cancelled => "cancelled"
  }

  function ParseState(s: string): Option<TaskState> {
    if s == "pending" then Some(Pending)
    else if s == "running" then Some(Running)
    else if s == "paused" then Some(Paused)
    else if s == "completed" then Some(Completed)
    else if s == "failed" then Some(Failed)
    else if s == "cancelled" then Some(Cancelled)
    else None
  }

  function LaneName(l: Lane): string { match l case Adb => "adb" case Wifi => "wifi" }

  function ParseLane(s: string): Option<Lane> {
    if s == "adb" then Some(Adb) else if s == "wifi" then Some(Wifi) else None
  }

  function BoolName(b: bool): string { if b then "true" else "false" }

  function ParseBool(s: string): Option<bool> {
    if s == "true" then Some(true) else if s == "false" then Some(false) else None
  }

  lemma NamesParse(d: Direction, m: TransportMode, t: TaskState, l: Lane, b: bool)
    ensures ParseDirection(DirectionName(d)) == Some(d)
    ensures ParseMode(ModeName(m)) == Some(m)
    ensures ParseState(StateName(t)) == Some(t)
    ensures ParseLane(LaneName(l)) == Some(l)
    ensures ParseBool(BoolName(b)) == Some(b)
  {
    assert DirectionName(PcToAndroid)[0] != DirectionName(AndroidToPc)[0];
    assert ModeName(AdbOnly)[0] != ModeName(WifiOnly)[0];
    assert |ModeName(Dual)| == 4;
    assert StateName(Pending)[0] == 'p' && StateName(Pending)[1] == 'e' && StateName(Paused)[1] == 'a';
    assert StateName(Running)[0] == 'r' && StateName(Failed)[0] == 'f';
    assert StateName(Completed)[1] == 'o' && StateName(Cancelled)[1] == 'a';
    assert StateName(Completed)[0] == 'c' && StateName(Cancelled)[0] == 'c';
  }

  // ----- one file -----

  function Decimals(ns: seq<U32Int>): (r: seq<string>)
    ensures |r| == |ns|
    ensures forall k :: 0 <= k < |ns| ==> r[k] == Decimal(ns[k])
  {
    seq(|ns|, k requires 0 <= k < |ns| => Decimal(ns[k]))
  }

  lemma DecimalIsFree(n: nat, c: char)
    requires !IsDigit(c)
    ensures Free(Decimal(n), c)
  { }

  function ParseNumbers(parts: seq<string>, bound: nat): (r: Option<seq<nat>>)
    ensures r.Some? ==> |r.value| == |parts| && forall k :: 0 <= k < |parts| ==> r.value[k] < bound
  {
    if parts == [] then Some([])
    else match ParseNumbers(parts[..|parts| - 1], bound)
      case None => None
      case Some(ns) => match ParseUnsigned(parts[|parts| - 1], bound)
        case None => None
        case Some(n) => Some(ns + [n])
  }

  lemma {:induction false} NumbersParse(ns: seq<U32Int>)
    ensures ParseNumbers(Decimals(ns), TWO_TO_32) == Some(ns)
  {
    hide Decimal, DigitsValue, ParseUnsigned, Decimals;
    if ns != [] {
      var n := |ns| - 1;
      NumbersParse(ns[..n]);
      assert Decimals(ns)[..n] == Decimals(ns[..n]);
      ParseDecimal(ns[n], TWO_TO_32);
      assert ns == ns[..n] + [ns[n]];
    }
  }

  function PrintChunks(ns: seq<U32Int>): string { Join(Decimals(ns), ",") }

  function ParseChunks(text: string): Option<seq<nat>> {
    if text == "" then Some([]) else ParseNumbers(SplitOn(text, ','), TWO_TO_32)
  }

  lemma {:induction false} JoinNonEmpty(parts: seq<string>, sep: string)
    requires |parts| > 0 && parts[0] != ""
    ensures Join(parts, sep) != ""
  { }

  lemma ChunksParse(ns: seq<U32Int>)
    ensures ParseChunks(PrintChunks(ns)) == Some(ns)
    ensures Free(PrintChunks(ns), '|') && Free(PrintChunks(ns), '\n')
  {
    NumbersParse(ns);
    JoinIsFree(Decimals(ns), ",", '|');
    JoinIsFree(Decimals(ns), ",", '\n');
    if ns != [] {
      JoinNonEmpty(Decimals(ns), ",");
      assert "," == [','];
      SplitJoin(Decimals(ns), ',');
    }
  }

  predicate IsLeast(m: U32Int, keys: set<U32Int>) { m in keys && forall k :: k in keys ==> m <= k }

  /** The smallest key comes first when an ordered map is walked. */
  function Least(keys: set<U32Int>): (m: U32Int)
    requires keys != {}
    ensures IsLeast(m, keys)
  {
    LeastExists(keys);
    var m :| IsLeast(m, keys);
    m
  }

  lemma {:induction false} LeastExists(keys: set<U32Int>)
    requires keys != {}
    ensures exists m :: IsLeast(m, keys)
  {
    var x :| x in keys;
    var rest := keys - {x};
    assert forall k :: k in keys ==> k == x || k in rest;
    if rest == {} {
      assert IsLeast(x, keys);
    } else {
      LeastExists(rest);
      var m :| IsLeast(m, rest);
      assert IsLeast(if m < x then m else x, keys);
    }
  }

  function Ascending(keys: set<U32Int>): (r: seq<U32Int>)
    decreases |keys|
  {
    if keys == {} then [] else var m := Least(keys); [m] + Ascending(keys - {m})
  }

  function PrintLanes(lanes: map<U32Int, Lane>, keys: seq<U32Int>): (r: seq<string>)
    requires forall k :: k in keys ==> k in lanes
    ensures |r| == |keys|
    ensures forall k :: 0 <= k < |keys| ==> r[k] == PrintLane(keys[k], lanes[keys[k]])
  {
    seq(|keys|, k requires 0 <= k < |keys| => PrintLane(keys[k], lanes[keys[k]]))
  }

  function PrintLane(chunkIndex: U32Int, lane: Lane): (s: string)
    ensures s != ""
  {
    Decimal(chunkIndex) + ":" + LaneName(lane)
  }

  lemma {:induction false} AscendingKeys(keys: set<U32Int>)
    ensures forall k :: k in Ascending(keys) <==> k in keys
    ensures |Ascending(keys)| == |keys|
    decreases |keys|
  {
    if keys != {} {
      var m := Least(keys);
      AscendingKeys(keys - {m});
      assert keys == {m} + (keys - {m});
    }
  }

  function LanesText(lanes: map<U32Int, Lane>): string {
    AscendingKeys(lanes.Keys);
    Join(PrintLanes(lanes, Ascending(lanes.Keys)), ",")
  }

  function ParseLaneEntries(parts: seq<string>): Option<map<U32Int, Lane>> {
    if parts == [] then Some(map[])
    else match ParseLaneEntries(parts[..|parts| - 1])
      case None => None
      case Some(lanes) =>
        var entry := parts[|parts| - 1];
        if entry == "" then Some(lanes)
        else match SplitOnce(entry, ':')
          case None => None
          case Some((index, lane)) =>
            match (ParseUnsigned(index, TWO_TO_32), ParseLane(lane))
            case (Some(i), Some(l)) => Some(lanes[i := l])
            case _ => None
  }

  function ParseLanes(text: string): Option<map<U32Int, Lane>> {
    if text == "" then Some(map[]) else ParseLaneEntries(SplitOn(text, ','))
  }

  lemma LaneEntryParse(i: U32Int, l: Lane)
    ensures SplitOnce(PrintLane(i, l), ':') == Some((Decimal(i), LaneName(l)))
    ensures ParseUnsigned(Decimal(i), TWO_TO_32) == Some(i) && ParseLane(LaneName(l)) == Some(l)
  {
    DecimalIsFree(i, ':');
    assert ":" == [':'];
    SplitOnceAt(Decimal(i), ':', LaneName(l));
    ParseDecimal(i, TWO_TO_32);
    NamesParse(PcToAndroid, Dual, Pending, l, true);
  }

  function Restricted(lanes: map<U32Int, Lane>, keys: seq<U32Int>): map<U32Int, Lane>
    requires forall k :: k in keys ==> k in lanes
  {
    map k | k in keys :: lanes[k]
  }

  lemma RestrictedGrows(lanes: map<U32Int, Lane>, keys: seq<U32Int>)
    requires keys != [] && forall k :: k in keys ==> k in lanes
    ensures var n := |keys| - 1;
            Restricted(lanes, keys) == Restricted(lanes, keys[..n])[keys[n] := lanes[keys[n]]]
  {
    assert keys == keys[..|keys| - 1] + [keys[|keys| - 1]];
  }

  lemma {:induction false} LaneEntriesParse(lanes: map<U32Int, Lane>, keys: seq<U32Int>)
    requires forall k :: k in keys ==> k in lanes
    ensures ParseLaneEntries(PrintLanes(lanes, keys)) == Some(Restricted(lanes, keys))
  {
    hide Decimal, DigitsValue, ParseUnsigned, ParseLane, LaneName, SplitOnce, PrintLane, Restricted;
    if keys != [] {
      var n := |keys| - 1;
      LaneEntriesParse(lanes, keys[..n]);
      assert PrintLanes(lanes, keys)[..n] == PrintLanes(lanes, keys[..n]);
      LaneEntryParse(keys[n], lanes[keys[n]]);
      RestrictedGrows(lanes, keys);
    } else {
      RestrictedToNone(lanes);
      assert PrintLanes(lanes, keys) == [];
    }
  }

  lemma RestrictedToNone(lanes: map<U32Int, Lane>)
    ensures Restricted(lanes, []) == map[]
  { }

  lemma LaneNameIsPlain(l: Lane)
    ensures Free(LaneName(l), '|') && Free(LaneName(l), '\n') && Free(LaneName(l), ',') && Free(LaneName(l), '\r')
  {
    assert LaneName(Adb) == ['a', 'd', 'b'] && LaneName(Wifi) == ['w', 'i', 'f', 'i'];
  }

  lemma LanePartFree(i: U32Int, l: Lane)
    ensures var s := PrintLane(i, l); Free(s, '|') && Free(s, '\n') && Free(s, ',') && Free(s, '\r')
  {
    LaneNameIsPlain(l);
  }

  lemma LanePartsFree(lanes: map<U32Int, Lane>, keys: seq<U32Int>, c: char)
    requires c == '|' || c == '\n' || c == ',' || c == '\r'
    requires forall k :: k in keys ==> k in lanes
    ensures forall k :: 0 <= k < |keys| ==> Free(PrintLanes(lanes, keys)[k], c)
  {
    forall k | 0 <= k < |keys| ensures Free(PrintLanes(lanes, keys)[k], c) {
      LanePartFree(keys[k], lanes[keys[k]]);
    }
  }

  lemma LanesTextFree(lanes: map<U32Int, Lane>, c: char)
    requires c == '|' || c == '\n' || c == '\r'
    ensures Free(LanesText(lanes), c)
  {
    AscendingKeys(lanes.Keys);
    LanePartsFree(lanes, Ascending(lanes.Keys), c);
    JoinIsFree(PrintLanes(lanes, Ascending(lanes.Keys)), ",", c);
  }

  lemma LanesParse(lanes: map<U32Int, Lane>)
    ensures ParseLanes(LanesText(lanes)) == Some(lanes)
  {
    var keys := Ascending(lanes.Keys);
    AscendingKeys(lanes.Keys);
    if keys == [] {
      assert lanes == map[];
    } else {
      var parts := PrintLanes(lanes, keys);
      LanePartsFree(lanes, keys, ',');
      JoinNonEmpty(parts, ",");
      SplitJoin(parts, ',');
      LaneEntriesParse(lanes, keys);
      assert lanes == Restricted(lanes, keys);
    }
  }

  function OrEmpty(o: Option<string>): string { if o.Some? then o.value else "" }

  function NoneIfEmpty(s: string): Option<string> { if s == "" then None else Some(s) }

  /** The seven fields of a file line, in order. */
  function FileFields(f: FileCheckpoint): (r: seq<string>)
    ensures |r| == 7
  {
    [ Escape(f.relativePath),
      Decimal(f.sizeBytes),
      Decimal(f.modifiedAtEpochMs),
      PrintChunks(f.completedChunks),
      Escape(OrEmpty(f.verificationDigest)),
      Escape(OrEmpty(f.fingerprintHex)),
      LanesText(f.completedChunkLanes) ]
  }

  function FileLine(f: FileCheckpoint): string { "file=" + Join(FileFields(f), "|") }

  function Part(parts: seq<string>, i: nat): string { if i < |parts| then parts[i] else "" }

  /** A file line after its prefix. Lines of fewer fields come from older versions: six carry no
      lanes, five and fewer carry no modification time either. */
  function ParseFile(value: string): Result<FileCheckpoint, ParseError> {
    var parts := SplitN(value, 7, '|');
    if |parts| < 2 then Err(Malformed("missing file size"))
    else if |parts| < 3 then Err(Malformed("missing chunk data"))
    else if |parts| >= 6 then
      match ParseUnsigned(parts[2], TWO_TO_128)
      case None => Err(Malformed("invalid modified_at_epoch_ms"))
      case Some(time) => ParseFileRest(parts[0], parts[1], time, parts[3], parts[4], parts[5], Part(parts, 6))
    else ParseFileRest(parts[0], parts[1], 0, parts[2], Part(parts, 3), Part(parts, 4), "")
  }

  function ParseFileRest(path: string, size: string, time: U128, chunks: string, digest: string,
                         fingerprint: string, lanes: string): Result<FileCheckpoint, ParseError>
  {
    match ParseChunks(chunks)
    case None => Err(Malformed("invalid chunk"))
    case Some(completed) => match ParseLanes(lanes)
      case None => Err(Malformed("invalid completed lane"))
      case Some(laneMap) => match ParseUnsigned(size, TWO_TO_64)
        case None => Err(Malformed("invalid file size"))
        case Some(n) =>
          ChunksInRange(chunks);
          SizeInRange(size);
          Ok(FileCheckpoint(Unescape(path), n, time, NoneIfEmpty(Unescape(fingerprint)), completed,
            laneMap, NoneIfEmpty(Unescape(digest))))
  }

  lemma ChunksInRange(text: string)
    ensures ParseChunks(text).Some? ==>
      forall k :: 0 <= k < |ParseChunks(text).value| ==> ParseChunks(text).value[k] < TWO_TO_32
  { }

  lemma SizeInRange(text: string)
    ensures ParseUnsigned(text, TWO_TO_64).Some? ==> ParseUnsigned(text, TWO_TO_64).value < TWO_TO_64
  { }

  function NormalizeFile(f: FileCheckpoint): FileCheckpoint {
    f.(fingerprintHex := NoneIfEmpty(OrEmpty(f.fingerprintHex)),
       verificationDigest := NoneIfEmpty(OrEmpty(f.verificationDigest)))
  }

  lemma FileFieldsFree(f: FileCheckpoint)
    ensures forall k :: 0 <= k < 7 ==> Free(FileFields(f)[k], '|') && Free(FileFields(f)[k], '\n')
  {
    hide Escape, PrintChunks, ParseChunks, Decimal, OrEmpty;
    EscapeIsSafe(f.relativePath);
    EscapeIsSafe(OrEmpty(f.verificationDigest));
    EscapeIsSafe(OrEmpty(f.fingerprintHex));
    ChunksParse(f.completedChunks);
    LanesTextFree(f.completedChunkLanes, '|');
    LanesTextFree(f.completedChunkLanes, '\n');
  }

  /** A printed file line parses to the file it was printed from, up to empty digests. */
  lemma FileParses(f: FileCheckpoint)
    ensures ParseFile(Join(FileFields(f), "|")) == Ok(NormalizeFile(f))
  {
    var fields := FileFields(f);
    FileFieldsFree(f);
    assert "|" == ['|'];
    SplitJoin(fields, '|');
    ParseDecimal(f.modifiedAtEpochMs, TWO_TO_128);
    ParseDecimal(f.sizeBytes, TWO_TO_64);
    ChunksParse(f.completedChunks);
    LanesParse(f.completedChunkLanes);
    UnescapeEscape(f.relativePath);
    UnescapeEscape(OrEmpty(f.verificationDigest));
    UnescapeEscape(OrEmpty(f.fingerprintHex));
  }

  // ----- the whole entry -----

  function Key(i: nat): string
    requires i < 12
  {
    match i
    case 0 => "task_id"
    case 1 => "direction"
    case 2 => "transport_mode"
    case 3 => "verify_enabled"
    case 4 => "source_root"
    case 5 => "target_root"
    case 6 => "chunk_size_bytes"
    case 7 => "small_file_threshold_bytes"
    case 8 => "max_in_flight_chunks_per_lane"
    case 9 => "created_at_epoch_ms"
    case 10 => "state"
    case 11 => "updated_at_epoch_ms"
  }

  function Value(e: CheckpointEntry, i: nat): string
    requires i < 12
  {
    match i
    case 0 => e.config.taskId
    case 1 => DirectionName(e.config.direction)
    case 2 => ModeName(e.config.transportMode)
    case 3 => BoolName(e.config.verifyEnabled)
    case 4 => Escape(e.config.sourceRoot)
    case 5 => Escape(e.config.targetRoot)
    case 6 => Decimal(e.config.chunkSizeBytes)
    case 7 => Decimal(e.config.smallFileThresholdBytes)
    case 8 => Decimal(e.config.maxInFlightChunksPerLane)
    case 9 => Decimal(e.config.createdAtEpochMs)
    case 10 => StateName(e.checkpoint.state)
    case 11 => Decimal(e.checkpoint.updatedAtEpochMs)
  }

  function HeaderLine(key: string, value: string): string { key + "=" + value }

  function HeaderLines(e: CheckpointEntry): (r: seq<string>)
    ensures |r| == 12
    ensures forall i :: 0 <= i < 12 ==> r[i] == HeaderLine(Key(i), Value(e, i))
  {
    seq(12, i requires 0 <= i < 12 => HeaderLine(Key(i), Value(e, i)))
  }

  function FileLines(files: seq<FileCheckpoint>): (r: seq<string>)
    ensures |r| == |files|
  {
    seq(|files|, i requires 0 <= i < |files| => FileLine(files[i]))
  }

  lemma FileLinesGrow(files: seq<FileCheckpoint>, i: nat)
    requires i < |files|
    ensures FileLines(files[..i + 1]) == FileLines(files[..i]) + [FileLine(files[i])]
  {
    hide FileLine;
  }

  function AllLines(e: CheckpointEntry): seq<string> {
    HeaderLines(e) + FileLines(e.checkpoint.files)
  }

  function Serialize(e: CheckpointEntry): string { Join(AllLines(e), "\n") }

  method SerializeEntry(e: CheckpointEntry) returns (text: string)
    ensures text == Serialize(e)
  {
    var lines := HeaderLines(e);
    var files := e.checkpoint.files;
    for i := 0 to |files|
      invariant lines == HeaderLines(e) + FileLines(files[..i])
    {
      FileLinesGrow(files, i);
      lines := lines + [FileLine(files[i])];
    }
    assert files[..|files|] == files;
    text := Join(lines, "\n");
  }

  /** What reading has collected so far: the keyed lines and the files. */
  datatype Collected = Collected(fields: map<string, string>, files: seq<FileCheckpoint>)

  function ReadLine(so: Collected, line: string): Result<Collected, ParseError> {
    if "file=" <= line then
      match ParseFile(line[5..])
      case Ok(f) => Ok(so.(files := so.files + [f]))
      case Err(e) => Err(e)
    else match SplitOnce(line, '=')
      case Some((key, value)) => Ok(so.(fields := so.fields[key := value]))
      case None => Ok(so)
  }

  function ReadLines(lines: seq<string>): Result<Collected, ParseError> {
    if lines == [] then Ok(Collected(map[], []))
    else match ReadLines(lines[..|lines| - 1])
      case Err(e) => Err(e)
      case Ok(so) => ReadLine(so, lines[|lines| - 1])
  }

  function Required(fields: map<string, string>, key: string): Option<string> {
    if key in fields then Some(fields[key]) else None
  }

  function RequiredNumber(fields: map<string, string>, key: string, bound: nat): (r: Option<nat>)
    ensures r.Some? ==> r.value < bound
  {
    match Required(fields, key)
    case None => None
    case Some(text) => ParseUnsigned(text, bound)
  }

  function BuildEntry(so: Collected): Result<CheckpointEntry, ParseError> {
    var f := so.fields;
    var id := Required(f, "task_id");
    var direction := match Required(f, "direction") case None => None case Some(t) => ParseDirection(t);
    var mode := match Required(f, "transport_mode") case None => None case Some(t) => ParseMode(t);
    var verify := match Required(f, "verify_enabled") case None => None case Some(t) => ParseBool(t);
    var source := Required(f, "source_root");
    var target := Required(f, "target_root");
    var chunkSize := RequiredNumber(f, "chunk_size_bytes", TWO_TO_64);
    var threshold := RequiredNumber(f, "small_file_threshold_bytes", TWO_TO_64);
    var limit := RequiredNumber(f, "max_in_flight_chunks_per_lane", TWO_TO_64);
    var created := RequiredNumber(f, "created_at_epoch_ms", TWO_TO_128);
    var state := match Required(f, "state") case None => None case Some(t) => ParseState(t);
    var updated := RequiredNumber(f, "updated_at_epoch_ms", TWO_TO_128);
    if id.None? then Err(Malformed("task_id"))
    else if direction.None? then Err(Malformed("direction"))
    else if mode.None? then Err(Malformed("transport_mode"))
    else if verify.None? then Err(Malformed("verify_enabled"))
    else if source.None? then Err(Malformed("source_root"))
    else if target.None? then Err(Malformed("target_root"))
    else if chunkSize.None? then Err(Malformed("chunk_size_bytes"))
    else if threshold.None? then Err(Malformed("small_file_threshold_bytes"))
    else if limit.None? then Err(Malformed("max_in_flight_chunks_per_lane"))
    else if created.None? then Err(Malformed("created_at_epoch_ms"))
    else if state.None? then Err(Malformed("state"))
    else if updated.None? then Err(Malformed("updated_at_epoch_ms"))
    else
      Ok(CheckpointEntry(
        TaskConfig(id.value, direction.value, mode.value, verify.value, Unescape(source.value),
          Unescape(target.value), chunkSize.value, threshold.value, limit.value, created.value),
        TaskCheckpoint(id.value, state.value, mode.value, verify.value, updated.value, so.files)))
  }

  function Deserialize(content: string): Result<CheckpointEntry, ParseError> {
    match ReadLines(Lines(content))
    case Err(e) => Err(e)
    case Ok(so) => BuildEntry(so)
  }

  method DeserializeEntry(content: string) returns (r: Result<CheckpointEntry, ParseError>)
    ensures r == Deserialize(content)
  {
    var lines := Lines(content);
    var so := Collected(map[], []);
    for i := 0 to |lines|
      invariant ReadLines(lines[..i]) == Ok(so)
    {
      assert lines[..i + 1][..i] == lines[..i];
      var next := ReadLine(so, lines[i]);
      if next.Err? {
        FirstErrorStays(lines, i + 1);
        return Err(next.error);
      }
      so := next.value;
    }
    assert lines[..|lines|] == lines;
    r := BuildEntry(so);
  }

  lemma {:induction false} FirstErrorStays(lines: seq<string>, n: nat)
    requires n <= |lines| && ReadLines(lines[..n]).Err?
    ensures ReadLines(lines) == ReadLines(lines[..n])
  {
    if n == |lines| {
      assert lines[..n] == lines;
    } else {
      assert lines[..|lines| - 1][..n] == lines[..n];
      FirstErrorStays(lines[..|lines| - 1], n);
    }
  }

  // ----- round trip -----

  /** What a print and a parse make of an entry. */
  function Normalize(e: CheckpointEntry): CheckpointEntry {
    var c := e.config;
    var id := StripCr(c.taskId);
    CheckpointEntry(
      c.(taskId := id, sourceRoot := StripCr(c.sourceRoot), targetRoot := StripCr(c.targetRoot)),
      TaskCheckpoint(id, e.checkpoint.state, c.transportMode, c.verifyEnabled,
        e.checkpoint.updatedAtEpochMs, NormalizeFiles(e.checkpoint.files)))
  }

  function NormalizeFiles(files: seq<FileCheckpoint>): (r: seq<FileCheckpoint>)
    ensures |r| == |files|
  {
    seq(|files|, i requires 0 <= i < |files| => NormalizeFile(files[i]))
  }

  predicate IsKeyChar(c: char) { 'a' <= c <= 'z' || c == '_' }

  lemma KeyChars(i: nat)
    requires i < 12
    ensures forall k :: 0 <= k < |Key(i)| ==> IsKeyChar(Key(i)[k])
  {
    if i < 6 { KeyCharsFirst(i); } else if i < 8 { KeyCharsSizes(i); } else { KeyCharsLast(i); }
  }

  lemma KeyCharsFirst(i: nat)
    requires i < 6
    ensures forall k :: 0 <= k < |Key(i)| ==> IsKeyChar(Key(i)[k])
  { }

  lemma KeyCharsSizes(i: nat)
    requires 6 <= i < 8
    ensures forall k :: 0 <= k < |Key(i)| ==> IsKeyChar(Key(i)[k])
  { }

  lemma KeyCharsLast(i: nat)
    requires 8 <= i < 12
    ensures forall k :: 0 <= k < |Key(i)| ==> IsKeyChar(Key(i)[k])
  { }

  lemma KeysArePlain(i: nat)
    requires i < 12
    ensures Key(i) != "" && Key(i)[0] != 'f' && Free(Key(i), '=') && Free(Key(i), '\n')
  {
    KeyChars(i);
  }

  lemma KeysDiffer(i: nat, j: nat)
    requires i < j < 12
    ensures Key(i) != Key(j)
  {
    if |Key(i)| == |Key(j)| { assert Key(i)[0] != Key(j)[0]; }
  }

  function FieldMap(e: CheckpointEntry, n: nat): map<string, string>
    requires n <= 12
  {
    if n == 0 then map[] else FieldMap(e, n - 1)[Key(n - 1) := Value(e, n - 1)]
  }

  lemma {:induction false} FieldLookup(e: CheckpointEntry, n: nat, i: nat)
    requires i < n <= 12
    ensures Required(FieldMap(e, n), Key(i)) == Some(Value(e, i))
  {
    if i < n - 1 {
      FieldLookup(e, n - 1, i);
      KeysDiffer(i, n - 1);
    }
  }

  lemma HeaderLineReads(so: Collected, i: nat, value: string)
    requires i < 12
    ensures ReadLine(so, HeaderLine(Key(i), value)) == Ok(so.(fields := so.fields[Key(i) := value]))
  {
    var key := Key(i);
    KeysArePlain(i);
    var line := HeaderLine(key, value);
    assert line[0] == key[0];
    assert "file="[0] == 'f';
    assert "=" == ['='];
    SplitOnceAt(key, '=', value);
  }

  lemma {:induction false} HeaderReads(e: CheckpointEntry, n: nat)
    requires n <= 12
    ensures ReadLines(HeaderLines(e)[..n]) == Ok(Collected(FieldMap(e, n), []))
  {
    hide Key, Value, ReadLine, HeaderLine, ReadLines;
    if n > 0 {
      HeaderReads(e, n - 1);
      assert HeaderLines(e)[..n] == HeaderLines(e)[..n - 1] + [HeaderLines(e)[n - 1]];
      ReadOneMore(HeaderLines(e)[..n - 1], HeaderLines(e)[n - 1]);
      HeaderLineReads(Collected(FieldMap(e, n - 1), []), n - 1, Value(e, n - 1));
    } else {
      ReadNone();
    }
  }

  lemma ReadNone()
    ensures ReadLines([]) == Ok(Collected(map[], []))
  { }

  lemma FileLineReads(so: Collected, f: FileCheckpoint)
    ensures ReadLine(so, FileLine(f)) == Ok(so.(files := so.files + [NormalizeFile(f)]))
  {
    assert FileLine(f)[5..] == Join(FileFields(f), "|");
    FileParses(f);
  }

  lemma NormalizeGrows(files: seq<FileCheckpoint>)
    requires files != []
    ensures var n := |files| - 1;
            NormalizeFiles(files[..n]) + [NormalizeFile(files[n])] == NormalizeFiles(files)
  { }

  lemma ReadOneMore(lines: seq<string>, line: string)
    requires ReadLines(lines).Ok?
    ensures ReadLines(lines + [line]) == ReadLine(ReadLines(lines).value, line)
  {
    assert (lines + [line])[..|lines|] == lines;
  }

  lemma {:induction false} FilesRead(e: CheckpointEntry, files: seq<FileCheckpoint>)
    ensures ReadLines(HeaderLines(e) + FileLines(files)) == Ok(Collected(FieldMap(e, 12), NormalizeFiles(files)))
  {
    var header := HeaderLines(e);
    if files == [] {
      assert header + FileLines(files) == header[..12];
      HeaderReads(e, 12);
    } else {
      var n := |files| - 1;
      FilesRead(e, files[..n]);
      FileLinesGrow(files, n);
      assert files[..n + 1] == files;
      var before := header + FileLines(files[..n]);
      assert header + FileLines(files) == before + [FileLine(files[n])];
      ReadOneMore(before, FileLine(files[n]));
      FileLineReads(Collected(FieldMap(e, 12), NormalizeFiles(files[..n])), files[n]);
      NormalizeGrows(files);
    }
  }

  predicate EndsInCr(s: string) { s != "" && s[|s| - 1] == '\r' }

  lemma {:induction false} JoinEnd(parts: seq<string>, sep: string)
    requires |parts| > 1 && sep != "" && Free(sep, '\r') && Free(parts[|parts| - 1], '\r')
    ensures !EndsInCr(Join(parts, sep))
  {
    var rest := parts[1..];
    if |parts| > 2 {
      JoinEnd(rest, sep);
    }
    var tail := Join(rest, sep);
    assert Join(parts, sep) == parts[0] + (sep + tail);
  }

  lemma FileLineEnd(f: FileCheckpoint)
    ensures StripCr(FileLine(f)) == FileLine(f) && Free(FileLine(f), '\n') && FileLine(f) != ""
  {
    LanesTextFree(f.completedChunkLanes, '\r');
    JoinEnd(FileFields(f), "|");
    FileFieldsFree(f);
    JoinIsFree(FileFields(f), "|", '\n');
    assert Free("file=", '\n');
  }

  lemma PlainDecimal(n: nat)
    ensures StripCr(Decimal(n)) == Decimal(n) && Free(Decimal(n), '\n')
  {
    assert IsDigit(Decimal(n)[|Decimal(n)| - 1]);
  }

  lemma PlainNames(d: Direction, m: TransportMode, t: TaskState, b: bool)
    ensures StripCr(DirectionName(d)) == DirectionName(d) && Free(DirectionName(d), '\n')
    ensures StripCr(ModeName(m)) == ModeName(m) && Free(ModeName(m), '\n')
    ensures StripCr(StateName(t)) == StateName(t) && Free(StateName(t), '\n')
    ensures StripCr(BoolName(b)) == BoolName(b) && Free(BoolName(b), '\n')
  { }

  /** Losing a carriage return per line turns the values into those of the normalized entry. */
  lemma StrippedValue(e: CheckpointEntry, i: nat)
    requires i < 12
    ensures StripCr(Value(e, i)) == Value(Normalize(e), i)
    ensures Free(e.config.taskId, '\n') ==> Free(Value(e, i), '\n')
  {
    var c := e.config;
    if 1 <= i < 4 || i == 10 {
      PlainNames(c.direction, c.transportMode, e.checkpoint.state, c.verifyEnabled);
    } else if i == 4 {
      StripEscape(c.sourceRoot);
      EscapeIsSafe(c.sourceRoot);
    } else if i == 5 {
      StripEscape(c.targetRoot);
      EscapeIsSafe(c.targetRoot);
    } else if i != 0 {
      PlainDecimal(if i == 6 then c.chunkSizeBytes else if i == 7 then c.smallFileThresholdBytes
        else if i == 8 then c.maxInFlightChunksPerLane else if i == 9 then c.createdAtEpochMs
        else e.checkpoint.updatedAtEpochMs);
    }
  }

  lemma HeaderLineStrips(e: CheckpointEntry, i: nat)
    requires i < 12
    ensures StripCr(HeaderLine(Key(i), Value(e, i))) == HeaderLine(Key(i), Value(Normalize(e), i))
    ensures Free(e.config.taskId, '\n') ==> Free(HeaderLine(Key(i), Value(e, i)), '\n')
  {
    StrippedValue(e, i);
    KeysArePlain(i);
    var key, value := Key(i), Value(e, i);
    assert StripCr(HeaderLine(key, value)) == HeaderLine(key, StripCr(value));
  }

  lemma LineStrips(e: CheckpointEntry, i: nat)
    requires i < 12 + |e.checkpoint.files|
    ensures StripCr(AllLines(e)[i]) == (HeaderLines(Normalize(e)) + FileLines(e.checkpoint.files))[i]
    ensures Free(e.config.taskId, '\n') ==> Free(AllLines(e)[i], '\n')
  {
    hide Value, Key, FileLine, StripCr, Normalize, Free;
    var h, n := HeaderLines(e), HeaderLines(Normalize(e));
    if i < 12 {
      HeaderLineStrips(e, i);
      assert (h + FileLines(e.checkpoint.files))[i] == h[i];
      assert (n + FileLines(e.checkpoint.files))[i] == n[i];
    } else {
      var line := FileLines(e.checkpoint.files)[i - 12];
      FileLineEnd(e.checkpoint.files[i - 12]);
      assert (h + FileLines(e.checkpoint.files))[i] == line == (n + FileLines(e.checkpoint.files))[i];
    }
  }

  lemma LastLineKeepsAll(e: CheckpointEntry)
    ensures AllLines(e)[|AllLines(e)| - 1] != ""
    ensures StripCr(AllLines(e)[|AllLines(e)| - 1]) == AllLines(e)[|AllLines(e)| - 1]
  {
    hide FileLine, StripCr, Value;
    var files := e.checkpoint.files;
    if files == [] {
      LastHeaderKept(e);
      assert AllLines(e) == HeaderLines(e);
    } else {
      FileLineEnd(files[|files| - 1]);
      LastOfSum(HeaderLines(e), FileLines(files));
    }
  }

  lemma LastOfSum(a: seq<string>, b: seq<string>)
    requires b != []
    ensures (a + b)[|a + b| - 1] == b[|b| - 1]
  { }

  lemma LastHeaderKept(e: CheckpointEntry)
    ensures StripCr(HeaderLines(e)[11]) == HeaderLines(e)[11] && HeaderLines(e)[11] != ""
  {
    HeaderLineStrips(e, 11);
    assert Value(Normalize(e), 11) == Value(e, 11);
  }

  lemma StripAll(parts: seq<string>)
    requires |parts| > 0 && StripCr(parts[|parts| - 1]) == parts[|parts| - 1]
    ensures StripEach(parts[..|parts| - 1]) + [parts[|parts| - 1]] == StripEach(parts)
  { }

  lemma LinesRead(e: CheckpointEntry)
    requires Free(e.config.taskId, '\n')
    ensures Lines(Serialize(e)) == HeaderLines(Normalize(e)) + FileLines(e.checkpoint.files)
  {
    hide FileLine, StripCr, Value, Normalize;
    var all := AllLines(e);
    var want := HeaderLines(Normalize(e)) + FileLines(e.checkpoint.files);
    forall i | 0 <= i < |all| ensures Free(all[i], '\n') && StripCr(all[i]) == want[i] { LineStrips(e, i); }
    LastLineKeepsAll(e);
    LinesOfJoin(all);
    StripAll(all);
    assert StripEach(all) == want;
  }

  lemma BuildBack(e: CheckpointEntry)
    requires e.checkpoint.taskId == e.config.taskId
    requires e.checkpoint.transportMode == e.config.transportMode
    requires e.checkpoint.verifyEnabled == e.config.verifyEnabled
    ensures BuildEntry(Collected(FieldMap(e, 12), e.checkpoint.files)) == Ok(e)
  {
    FieldLookup(e, 12, 0); FieldLookup(e, 12, 1); FieldLookup(e, 12, 2); FieldLookup(e, 12, 3);
    FieldLookup(e, 12, 4); FieldLookup(e, 12, 5); FieldLookup(e, 12, 6); FieldLookup(e, 12, 7);
    FieldLookup(e, 12, 8); FieldLookup(e, 12, 9); FieldLookup(e, 12, 10); FieldLookup(e, 12, 11);
    var c := e.config;
    NamesParse(c.direction, c.transportMode, e.checkpoint.state, Adb, c.verifyEnabled);
    UnescapeEscape(c.sourceRoot);
    UnescapeEscape(c.targetRoot);
    ParseDecimal(c.chunkSizeBytes, TWO_TO_64);
    ParseDecimal(c.smallFileThresholdBytes, TWO_TO_64);
    ParseDecimal(c.maxInFlightChunksPerLane, TWO_TO_64);
    ParseDecimal(c.createdAtEpochMs, TWO_TO_128);
    ParseDecimal(e.checkpoint.updatedAtEpochMs, TWO_TO_128);
  }

  /** For every entry whose id has no newline, printing and parsing gives exactly its
      normal form. */
  lemma PrintThenParse(e: CheckpointEntry)
    requires Free(e.config.taskId, '\n')
    ensures Deserialize(Serialize(e)) == Ok(Normalize(e))
  {
    LinesRead(e);
    FilesRead(Normalize(e), e.checkpoint.files);
    BuildBack(Normalize(e));
  }

  /** What an entry must be for its text to be faithful. */
  ghost predicate Printable(e: CheckpointEntry) {
    && e.checkpoint.taskId == e.config.taskId
    && e.checkpoint.transportMode == e.config.transportMode
    && e.checkpoint.verifyEnabled == e.config.verifyEnabled
    && Free(e.config.taskId, '\n') && !EndsInCr(e.config.taskId)
    && !EndsInCr(e.config.sourceRoot) && !EndsInCr(e.config.targetRoot)
    && (forall f :: f in e.checkpoint.files ==> f.fingerprintHex != Some("") && f.verificationDigest != Some(""))
  }

  lemma NormalIff(e: CheckpointEntry)
    requires Free(e.config.taskId, '\n')
    ensures Normalize(e) == e <==> Printable(e)
  {
    var files := e.checkpoint.files;
    if NormalizeFiles(files) == files {
      forall f | f in files ensures f.fingerprintHex != Some("") && f.verificationDigest != Some("") {
        var i :| 0 <= i < |files| && files[i] == f;
        assert NormalizeFiles(files)[i] == NormalizeFile(f);
      }
    }
    if Printable(e) {
      forall i | 0 <= i < |files| ensures NormalizeFile(files[i]) == files[i] { assert files[i] in files; }
    }
  }

  lemma {:induction false} ValuesAreOneLine(lines: seq<string>, key: string)
    requires forall i :: 0 <= i < |lines| ==> Free(lines[i], '\n')
    ensures ReadLines(lines).Ok? && key in ReadLines(lines).value.fields ==>
      Free(ReadLines(lines).value.fields[key], '\n')
  {
    if lines != [] {
      var n := |lines| - 1;
      ValuesAreOneLine(lines[..n], key);
      SplitOncePart(lines[n], '=');
    }
  }

  lemma {:induction false} SplitOncePart(s: string, sep: char)
    ensures SplitOnce(s, sep).Some? ==> s == SplitOnce(s, sep).value.0 + [sep] + SplitOnce(s, sep).value.1
  {
    if s != "" && s[0] != sep { SplitOncePart(s[1..], sep); }
  }

  /** The text of an entry gives the entry back exactly when the entry is printable. */
  lemma RoundTripIff(e: CheckpointEntry)
    ensures Deserialize(Serialize(e)) == Ok(e) <==> Printable(e)
  {
    if Free(e.config.taskId, '\n') {
      PrintThenParse(e);
      NormalIff(e);
    } else {
      ValuesAreOneLine(Lines(Serialize(e)), "task_id");
    }
  }
}
