/** Which texts are checkpoints at all, and what they say, read off their lines: of several lines with
    one key the last counts, a line without an equals sign is skipped, and unknown keys are ignored. */
module Reading {
  import opened Wrappers
  import opened Text
  import opened Models
  import opened Checkpoint

  predicate IsFile(line: string) { "file=" <= line }

  /** The value of the last line with this key. */
  function LastValue(lines: seq<string>, key: string): Option<string> {
    if lines == [] then None
    else
      var n := |lines| - 1;
      var cut := if IsFile(lines[n]) then None else SplitOnce(lines[n], '=');
      if cut.Some? && cut.value.0 == key then Some(cut.value.1) else LastValue(lines[..n], key)
  }

  function FilesOf(lines: seq<string>): seq<string> {
    if lines == [] then []
    else
      var n := |lines| - 1;
      FilesOf(lines[..n]) + (if IsFile(lines[n]) then [lines[n][5..]] else [])
  }

  predicate FilesParse(lines: seq<string>) {
    forall k :: 0 <= k < |FilesOf(lines)| ==> ParseFile(FilesOf(lines)[k]).Ok?
  }

  /** What the collected lines amount to. */
  ghost predicate Collects(lines: seq<string>, so: Collected) {
    && (forall key :: LastValue(lines, key) == if key in so.fields then Some(so.fields[key]) else None)
    && |so.files| == |FilesOf(lines)|
    && (forall k :: 0 <= k < |so.files| ==> ParseFile(FilesOf(lines)[k]) == Ok(so.files[k]))
  }

  lemma LineCollects(lines: seq<string>, so: Collected)
    requires lines != [] && Collects(lines[..|lines| - 1], so) && ReadLine(so, lines[|lines| - 1]).Ok?
    ensures Collects(lines, ReadLine(so, lines[|lines| - 1]).value)
  {
    hide ParseFile;
  }

  lemma FilesParseTurn(lines: seq<string>)
    requires lines != []
    ensures var n := |lines| - 1;
            FilesParse(lines) <==> FilesParse(lines[..n]) && (IsFile(lines[n]) ==> ParseFile(lines[n][5..]).Ok?)
  {
    hide ParseFile;
    var n := |lines| - 1;
    var before, all := FilesOf(lines[..n]), FilesOf(lines);
    assert forall k :: 0 <= k < |before| ==> all[k] == before[k];
    if IsFile(lines[n]) { assert all[|before|] == lines[n][5..]; }
  }

  lemma {:induction false} LinesCollect(lines: seq<string>)
    ensures ReadLines(lines).Ok? <==> FilesParse(lines)
    ensures ReadLines(lines).Ok? ==> Collects(lines, ReadLines(lines).value)
  {
    hide ParseFile, FilesParse, Collects;
    if lines == [] {
      NoLinesCollect();
    } else {
      LinesCollect(lines[..|lines| - 1]);
      FilesParseTurn(lines);
      if ReadLines(lines).Ok? { LineCollects(lines, ReadLines(lines[..|lines| - 1]).value); }
    }
  }

  lemma NoLinesCollect()
    ensures FilesParse([]) && Collects([], Collected(map[], []))
  { }

  predicate NumberReads(lines: seq<string>, key: string, bound: nat) {
    LastValue(lines, key).Some? && ParseUnsigned(LastValue(lines, key).value, bound).Some?
  }

  /** All twelve keys are there, and each value is of its kind. */
  predicate HeaderReads(lines: seq<string>) {
    && LastValue(lines, "task_id").Some?
    && LastValue(lines, "direction") in {Some("pc_to_android"), Some("android_to_pc")}
    && LastValue(lines, "transport_mode") in {Some("adb_only"), Some("wifi_only"), Some("dual")}
    && LastValue(lines, "verify_enabled") in {Some("true"), Some("false")}
    && LastValue(lines, "source_root").Some?
    && LastValue(lines, "target_root").Some?
    && NumberReads(lines, "chunk_size_bytes", 0x1_0000_0000_0000_0000)
    && NumberReads(lines, "small_file_threshold_bytes", 0x1_0000_0000_0000_0000)
    && NumberReads(lines, "max_in_flight_chunks_per_lane", 0x1_0000_0000_0000_0000)
    && NumberReads(lines, "created_at_epoch_ms", TWO_TO_128)
    && LastValue(lines, "state") in
         {Some("pending"), Some("running"), Some("paused"), Some("completed"), Some("failed"), Some("cancelled")}
    && NumberReads(lines, "updated_at_epoch_ms", TWO_TO_128)
  }

  lemma EntryBuiltIff(lines: seq<string>, so: Collected)
    requires Collects(lines, so)
    ensures BuildEntry(so).Ok? <==> HeaderReads(lines)
  {
    hide LastValue, FilesOf, ParseFile, ParseUnsigned;
  }

  /** A text is a checkpoint if and only if its file lines parse and its last lines of the twelve keys
      are there and readable. */
  lemma ReadsIff(content: string)
    ensures Deserialize(content).Ok? <==> FilesParse(Lines(content)) && HeaderReads(Lines(content))
  {
    hide FilesParse, HeaderReads, BuildEntry, ReadLines, Collects, Lines;
    var lines := Lines(content);
    LinesCollect(lines);
    if ReadLines(lines).Ok? { EntryBuiltIff(lines, ReadLines(lines).value); }
  }

  /** What it then says. */
  ghost predicate Says(lines: seq<string>, e: CheckpointEntry) {
    var c, p := e.config, e.checkpoint;
    && LastValue(lines, "task_id") == Some(c.taskId) && p.taskId == c.taskId
    && LastValue(lines, "direction") == Some(DirectionName(c.direction))
    && LastValue(lines, "transport_mode") == Some(ModeName(c.transportMode)) && p.transportMode == c.transportMode
    && LastValue(lines, "verify_enabled") == Some(BoolName(c.verifyEnabled)) && p.verifyEnabled == c.verifyEnabled
    && LastValue(lines, "state") == Some(StateName(p.state))
    && (exists text :: LastValue(lines, "source_root") == Some(text) && c.sourceRoot == Unescape(text))
    && (exists text :: LastValue(lines, "target_root") == Some(text) && c.targetRoot == Unescape(text))
    && NumberIs(lines, "chunk_size_bytes", c.chunkSizeBytes)
    && NumberIs(lines, "small_file_threshold_bytes", c.smallFileThresholdBytes)
    && NumberIs(lines, "max_in_flight_chunks_per_lane", c.maxInFlightChunksPerLane)
    && NumberIs(lines, "created_at_epoch_ms", c.createdAtEpochMs)
    && NumberIs(lines, "updated_at_epoch_ms", p.updatedAtEpochMs)
    && |p.files| == |FilesOf(lines)|
    && (forall k :: 0 <= k < |p.files| ==> ParseFile(FilesOf(lines)[k]) == Ok(p.files[k]))
  }

  predicate NumberIs(lines: seq<string>, key: string, n: nat) {
    LastValue(lines, key).Some? && ParseUnsigned(LastValue(lines, key).value, TWO_TO_128) == Some(n)
  }

  lemma EntrySays(lines: seq<string>, so: Collected)
    requires Collects(lines, so) && BuildEntry(so).Ok?
    ensures Says(lines, BuildEntry(so).value)
  {
    hide LastValue, FilesOf, ParseFile, Unescape, ParseUnsigned;
    BoundGrows(LastValue(lines, "chunk_size_bytes"));
    BoundGrows(LastValue(lines, "small_file_threshold_bytes"));
    BoundGrows(LastValue(lines, "max_in_flight_chunks_per_lane"));
  }

  lemma BoundGrows(text: Option<string>)
    ensures text.Some? && ParseUnsigned(text.value, TWO_TO_64).Some? ==>
      ParseUnsigned(text.value, TWO_TO_128) == ParseUnsigned(text.value, TWO_TO_64)
  { }

  lemma ReadsAs(content: string)
    requires Deserialize(content).Ok?
    ensures Says(Lines(content), Deserialize(content).value)
  {
    hide FilesParse, Says, BuildEntry, ReadLines, Collects, Lines;
    LinesCollect(Lines(content));
    EntrySays(Lines(content), ReadLines(Lines(content)).value);
  }
}
