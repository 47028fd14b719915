/** The engine's counters: kept one commit at a time by the live task, and rebuilt from the
    checkpoint after a crash. */
module Counters {
  import opened Wrappers
  import opened Models
  import opened Bytes
  import opened Chunks
  import opened Checkpoint

  datatype Metrics = Metrics(totalBytes: nat, committedBytes: nat, adbBytes: nat, wifiBytes: nat, completedChunks: nat)
  {
    predicate Nothing() {
      totalBytes == 0 && committedBytes == 0 && adbBytes == 0 && wifiBytes == 0 && completedChunks == 0
    }
  }

  const ZERO := Metrics(0, 0, 0, 0, 0)

  function Plus(a: Metrics, b: Metrics): Metrics {
    Metrics(a.totalBytes + b.totalBytes, a.committedBytes + b.committedBytes,
      a.adbBytes + b.adbBytes, a.wifiBytes + b.wifiBytes, a.completedChunks + b.completedChunks)
  }

  /** One chunk moved over one lane. */
  function Moved(length: nat, lane: Lane): Metrics {
    Metrics(0, length, if lane == Adb then length else 0, if lane == Wifi then length else 0, 1)
  }

  // ----- sorted lists of completed indices -----

  predicate Ascends(xs: seq<U32Int>) { forall i, j :: 0 <= i < j < |xs| ==> xs[i] < xs[j] }

  function InsertSorted(xs: seq<U32Int>, v: U32Int): (r: seq<U32Int>)
    ensures |r| == |xs| + 1
  {
    if xs == [] || xs[|xs| - 1] <= v then xs + [v]
    else InsertSorted(xs[..|xs| - 1], v) + [xs[|xs| - 1]]
  }

  /** `sort_unstable`. */
  function Sorted(xs: seq<U32Int>): (r: seq<U32Int>)
    ensures |r| == |xs|
  {
    if xs == [] then [] else InsertSorted(Sorted(xs[..|xs| - 1]), xs[|xs| - 1])
  }

  lemma {:induction false} InsertMember(xs: seq<U32Int>, v: U32Int, x: U32Int)
    ensures x in InsertSorted(xs, v) <==> x in xs || x == v
  {
    if xs != [] && xs[|xs| - 1] > v {
      var n := |xs| - 1;
      InsertMember(xs[..n], v, x);
      assert xs == xs[..n] + [xs[n]];
    }
  }

  lemma {:induction false} SortedMember(xs: seq<U32Int>, x: U32Int)
    ensures x in Sorted(xs) <==> x in xs
  {
    if xs != [] {
      SortedMember(xs[..|xs| - 1], x);
      InsertMember(Sorted(xs[..|xs| - 1]), xs[|xs| - 1], x);
      assert xs == xs[..|xs| - 1] + [xs[|xs| - 1]];
    }
  }

  lemma {:induction false} InsertAscends(xs: seq<U32Int>, v: U32Int)
    requires Ascends(xs) && v !in xs
    ensures Ascends(InsertSorted(xs, v))
  {
    if xs != [] { assert xs[|xs| - 1] in xs; }
    if xs != [] && xs[|xs| - 1] > v {
      var n := |xs| - 1;
      InsertAscends(xs[..n], v);
      var r := InsertSorted(xs[..n], v);
      forall i | 0 <= i < |r| ensures r[i] < xs[n] { InsertMember(xs[..n], v, r[i]); }
    }
  }

  lemma InsertAtEnd(xs: seq<U32Int>, v: U32Int)
    requires xs == [] || xs[|xs| - 1] <= v
    ensures InsertSorted(xs, v) == xs + [v]
  { }

  lemma LastIsLargest(xs: seq<U32Int>)
    requires Ascends(xs) && xs != []
    ensures var n := |xs| - 1;
            Ascends(xs[..n]) && (xs[..n] == [] || xs[..n][n - 1] <= xs[n]) && xs == xs[..n] + [xs[n]]
  { }

  lemma {:induction false} SortedAscending(xs: seq<U32Int>)
    requires Ascends(xs)
    ensures Sorted(xs) == xs
  {
    hide InsertSorted, Ascends;
    if xs != [] {
      var n := |xs| - 1;
      LastIsLargest(xs);
      SortedAscending(xs[..n]);
      InsertAtEnd(xs[..n], xs[n]);
    }
  }

  /** Pushing a new index on a strictly ascending list and sorting keeps it strictly ascending,
      and adds exactly that index. */
  lemma PushAndSort(xs: seq<U32Int>, v: U32Int)
    requires Ascends(xs) && v !in xs
    ensures Sorted(xs + [v]) == InsertSorted(xs, v)
    ensures Ascends(Sorted(xs + [v]))
    ensures forall x :: x in Sorted(xs + [v]) <==> x in xs || x == v
  {
    assert (xs + [v])[..|xs|] == xs;
    SortedAscending(xs);
    InsertAscends(xs, v);
    forall x ensures x in InsertSorted(xs, v) <==> x in xs || x == v { InsertMember(xs, v, x); }
  }

  // ----- recomputing the counters -----

  function FindChunk(chunks: seq<Chunk>, index: U32Int): Option<Chunk> {
    if chunks == [] then None
    else if chunks[0].chunkIndex == index then Some(chunks[0])
    else FindChunk(chunks[1..], index)
  }

  /** A chunk whose lane was not recorded counts for the lane the mode suggests. */
  function LaneOf(mode: TransportMode, lanes: map<U32Int, Lane>, index: U32Int): Lane {
    if index in lanes then lanes[index]
    else match mode
      case AdbOnly => Adb
      case WifiOnly => Wifi
      case Dual => if index % 2 == 0 then Adb else Wifi
  }

  function CountOne(chunks: seq<Chunk>, mode: TransportMode, lanes: map<U32Int, Lane>, index: U32Int): Metrics {
    MovedBy(FindChunk(chunks, index), LaneOf(mode, lanes, index))
  }

  function MovedBy(found: Option<Chunk>, lane: Lane): Metrics {
    match found case None => ZERO case Some(c) => Moved(c.length, lane)
  }

  function CountFile(chunks: seq<Chunk>, mode: TransportMode, lanes: map<U32Int, Lane>, completed: seq<U32Int>)
    : Metrics
  {
    if completed == [] then ZERO
    else
      var n := |completed| - 1;
      Plus(CountFile(chunks, mode, lanes, completed[..n]), CountOne(chunks, mode, lanes, completed[n]))
  }

  function TotalBytes(items: seq<TransferItem>): nat {
    if items == [] then 0 else TotalBytes(items[..|items| - 1]) + items[|items| - 1].sizeBytes
  }

  function CountOfFile(config: TaskConfig, size: nat, f: nat, file: FileCheckpoint): Metrics {
    CountFile(Split(f, size, config.chunkSizeBytes), config.transportMode,
      file.completedChunkLanes, file.completedChunks)
  }

  /** One count per item; an item without a record counts nothing. */
  function PerFile(config: TaskConfig, items: seq<TransferItem>, files: seq<FileCheckpoint>): (r: seq<Metrics>)
    ensures |r| == |items|
    ensures forall f :: 0 <= f < |items| ==>
      r[f] == if f < |files| then CountOfFile(config, items[f].sizeBytes, f, files[f]) else ZERO
  {
    seq(|items|, f requires 0 <= f < |items| =>
      if f < |files| then CountOfFile(config, items[f].sizeBytes, f, files[f]) else ZERO)
  }

  function Sum(ms: seq<Metrics>): Metrics {
    if ms == [] then ZERO else Plus(Sum(ms[..|ms| - 1]), ms[|ms| - 1])
  }

  lemma {:induction false} SumUpdate(ms: seq<Metrics>, f: nat, d: Metrics)
    requires f < |ms|
    ensures Sum(ms[f := Plus(ms[f], d)]) == Plus(Sum(ms), d)
  {
    var n := |ms| - 1;
    var us := ms[f := Plus(ms[f], d)];
    if f < n {
      SumUpdate(ms[..n], f, d);
      assert us[..n] == ms[..n][f := Plus(ms[f], d)];
    } else {
      assert us[..n] == ms[..n];
    }
  }

  lemma {:induction false} NothingCounted(ms: seq<Metrics>)
    requires forall f :: 0 <= f < |ms| ==> ms[f].Nothing()
    ensures Sum(ms).Nothing()
  {
    if ms != [] {
      NothingCounted(ms[..|ms| - 1]);
      assert ms[|ms| - 1].Nothing();
    }
  }

  lemma SumNone(ms: seq<Metrics>)
    ensures Sum(ms[..0]) == ZERO
  { }

  lemma SumStep(ms: seq<Metrics>, f: nat)
    requires f < |ms|
    ensures Sum(ms[..f + 1]) == Plus(Sum(ms[..f]), ms[f])
    ensures ms[f].Nothing() ==> Sum(ms[..f + 1]) == Sum(ms[..f])
  {
    assert ms[..f + 1][..f] == ms[..f];
  }

  /** What the counters must be, given the checkpoint. */
  function Rebuild(config: TaskConfig, items: seq<TransferItem>, files: seq<FileCheckpoint>): Metrics {
    Sum(PerFile(config, items, files)).(totalBytes := TotalBytes(items))
  }

  method RebuildMetrics(config: TaskConfig, items: seq<TransferItem>, files: seq<FileCheckpoint>) returns (m: Metrics)
    ensures m == Rebuild(config, items, files)
  {
    var total := 0;
    for f := 0 to |items|
      invariant total == TotalBytes(items[..f])
    {
      assert items[..f + 1][..f] == items[..f];
      total := total + items[f].sizeBytes;
    }
    assert items[..|items|] == items;
    m := ZERO;
    ghost var all := PerFile(config, items, files);
    SumNone(all);
    hide Sum, Plus, CountFile, Split, FindChunk, LaneOf;
    for f := 0 to |items|
      invariant m == Sum(all[..f])
    {
      SumStep(all, f);
      if f < |files| {
        var cut := SplitIntoChunks(f, items[f].sizeBytes, config.chunkSizeBytes);
        var moved := CountInto(cut, config.transportMode, files[f].completedChunkLanes, files[f].completedChunks);
        m := Plus(m, moved);
      }
    }
    assert all[..|items|] == all;
    m := m.(totalBytes := total);
  }

  lemma CountStep(chunks: seq<Chunk>, mode: TransportMode, lanes: map<U32Int, Lane>, completed: seq<U32Int>,
                  i: nat, m: Metrics)
    requires i < |completed| && m == CountFile(chunks, mode, lanes, completed[..i])
    ensures CountFile(chunks, mode, lanes, completed[..i + 1]) == Plus(m, CountOne(chunks, mode, lanes, completed[i]))
  {
    assert completed[..i + 1][..i] == completed[..i];
  }

  method CountInto(chunks: seq<Chunk>, mode: TransportMode, lanes: map<U32Int, Lane>, completed: seq<U32Int>)
    returns (m: Metrics)
    ensures m == CountFile(chunks, mode, lanes, completed)
  {
    m := ZERO;
    for i := 0 to |completed|
      invariant m == CountFile(chunks, mode, lanes, completed[..i])
    {
      CountStep(chunks, mode, lanes, completed, i, m);
      var one := MovedBy(FindChunk(chunks, completed[i]), LaneOf(mode, lanes, completed[i]));
      m := Plus(m, one);
    }
    assert completed[..|completed|] == completed;
  }

  // ----- what recomputing promises -----

  lemma {:induction false} FindsFirst(chunks: seq<Chunk>, index: U32Int, k: nat)
    requires k < |chunks| && chunks[k].chunkIndex == index
    requires forall j :: 0 <= j < k ==> chunks[j].chunkIndex != index
    ensures FindChunk(chunks, index) == Some(chunks[k])
  {
    if k > 0 { FindsFirst(chunks[1..], index, k - 1); }
  }

  /** Finding a chunk by index gives the canonical chunk of that index, or nothing. */
  lemma FindIsCanonical(f: nat, size: nat, chunkSize: nat, index: U32Int)
    requires Count(size, chunkSize) <= TWO_TO_32
    ensures FindChunk(Split(f, size, chunkSize), index)
         == if index < Count(size, chunkSize) then Some(ChunkAt(f, size, chunkSize, index)) else None
  {
    var s := Split(f, size, chunkSize);
    if index < |s| {
      FindsFirst(s, index, index);
    } else {
      NotFound(s, index);
    }
  }

  lemma {:induction false} NotFound(chunks: seq<Chunk>, index: U32Int)
    requires forall c :: c in chunks ==> c.chunkIndex != index
    ensures FindChunk(chunks, index) == None
  {
    if chunks != [] {
      assert forall c :: c in chunks[1..] ==> c in chunks;
      NotFound(chunks[1..], index);
    }
  }

  lemma {:induction false} OtherLanesIrrelevant(chunks: seq<Chunk>, mode: TransportMode, lanes: map<U32Int, Lane>,
                                                completed: seq<U32Int>, v: U32Int, lane: Lane)
    requires v !in completed
    ensures CountFile(chunks, mode, lanes[v := lane], completed) == CountFile(chunks, mode, lanes, completed)
  {
    if completed != [] {
      OtherLanesIrrelevant(chunks, mode, lanes, completed[..|completed| - 1], v, lane);
    }
  }

  lemma {:induction false} CountInserted(chunks: seq<Chunk>, mode: TransportMode, lanes: map<U32Int, Lane>,
                                         completed: seq<U32Int>, v: U32Int)
    ensures CountFile(chunks, mode, lanes, InsertSorted(completed, v))
         == Plus(CountFile(chunks, mode, lanes, completed), CountOne(chunks, mode, lanes, v))
  {
    hide CountOne, CountFile, InsertSorted, Plus;
    if completed == [] || completed[|completed| - 1] <= v {
      InsertAtEnd(completed, v);
      CountLast(chunks, mode, lanes, completed, v);
    } else {
      var n := |completed| - 1;
      CountInserted(chunks, mode, lanes, completed[..n], v);
      InsertBelow(completed, v);
      CountLast(chunks, mode, lanes, InsertSorted(completed[..n], v), completed[n]);
      CountLast(chunks, mode, lanes, completed[..n], completed[n]);
      assert completed == completed[..n] + [completed[n]];
      PlusSwaps(CountFile(chunks, mode, lanes, completed[..n]), CountOne(chunks, mode, lanes, v),
        CountOne(chunks, mode, lanes, completed[n]));
    }
  }

  lemma CountLast(chunks: seq<Chunk>, mode: TransportMode, lanes: map<U32Int, Lane>, completed: seq<U32Int>, v: U32Int)
    ensures CountFile(chunks, mode, lanes, completed + [v])
         == Plus(CountFile(chunks, mode, lanes, completed), CountOne(chunks, mode, lanes, v))
  {
    assert (completed + [v])[..|completed|] == completed;
  }

  lemma InsertBelow(xs: seq<U32Int>, v: U32Int)
    requires xs != [] && xs[|xs| - 1] > v
    ensures InsertSorted(xs, v) == InsertSorted(xs[..|xs| - 1], v) + [xs[|xs| - 1]]
  { }

  lemma PlusSwaps(a: Metrics, b: Metrics, c: Metrics)
    ensures Plus(Plus(a, b), c) == Plus(Plus(a, c), b)
  { }

  /** Committing a new index adds exactly that chunk, on that lane, to the recomputed counters. */
  lemma CountCommitted(chunks: seq<Chunk>, mode: TransportMode, lanes: map<U32Int, Lane>,
                       completed: seq<U32Int>, v: U32Int, lane: Lane)
    requires Ascends(completed) && v !in completed
    ensures CountFile(chunks, mode, lanes[v := lane], Sorted(completed + [v]))
         == Plus(CountFile(chunks, mode, lanes, completed),
                 MovedBy(FindChunk(chunks, v), lane))
  {
    PushAndSort(completed, v);
    CountInserted(chunks, mode, lanes[v := lane], completed, v);
    OtherLanesIrrelevant(chunks, mode, lanes, completed, v, lane);
  }

  /** One past the last index of a list. */
  function Past(xs: seq<U32Int>): nat { if xs == [] then 0 else var last: int := xs[|xs| - 1]; last + 1 }

  predicate AllBelow(xs: seq<U32Int>, bound: nat) { forall k :: 0 <= k < |xs| ==> xs[k] < bound }

  lemma {:induction false} UpToMonotone(size: nat, chunkSize: nat, a: nat, b: nat)
    requires a <= b <= Count(size, chunkSize)
    ensures UpTo(size, chunkSize, a) <= UpTo(size, chunkSize, b)
    decreases b - a
  {
    if a < b {
      Adjacent(size, chunkSize, a);
      UpToMonotone(size, chunkSize, a + 1, b);
    }
  }

  /** A chunk of the file is found, and its length is the step from its start to its end. */
  lemma CountOneLength(f: nat, size: nat, chunkSize: nat, mode: TransportMode, lanes: map<U32Int, Lane>, i: U32Int)
    requires i < Count(size, chunkSize) <= TWO_TO_32
    ensures UpTo(size, chunkSize, i) <= UpTo(size, chunkSize, i + 1)
    ensures CountOne(Split(f, size, chunkSize), mode, lanes, i)
         == Moved(UpTo(size, chunkSize, i + 1) - UpTo(size, chunkSize, i), LaneOf(mode, lanes, i))
  {
    FindIsCanonical(f, size, chunkSize, i);
    Adjacent(size, chunkSize, i);
  }

  lemma UpToNone(size: nat, chunkSize: nat)
    ensures UpTo(size, chunkSize, 0) == 0
  { }

  /** The counters always split over the two lanes, and a strictly ascending list of indices
      never counts more bytes than lie before the end of its last chunk. */
  /** Records of older versions carry no lanes: then everything counts for the only lane of a task
      that has one, and in Dual mode even chunks count for ADB and odd ones for Wi-Fi. */
  lemma {:induction false} OldRecords(chunks: seq<Chunk>, mode: TransportMode, completed: seq<U32Int>)
    ensures var m := CountFile(chunks, mode, map[], completed);
            && (mode == AdbOnly ==> m.wifiBytes == 0) && (mode == WifiOnly ==> m.adbBytes == 0)
            && (mode == Dual && (forall i :: i in completed ==> i % 2 == 0) ==> m.wifiBytes == 0)
            && (mode == Dual && (forall i :: i in completed ==> i % 2 == 1) ==> m.adbBytes == 0)
  {
    hide CountOne;
    if completed != [] {
      var n := |completed| - 1;
      OldRecords(chunks, mode, completed[..n]);
      OldRecord(chunks, mode, completed[n]);
      assert completed[n] in completed && forall i :: i in completed[..n] ==> i in completed;
    }
  }

  lemma OldRecord(chunks: seq<Chunk>, mode: TransportMode, index: U32Int)
    ensures var m := CountOne(chunks, mode, map[], index);
            && (mode == AdbOnly || (mode == Dual && index % 2 == 0) ==> m.wifiBytes == 0)
            && (mode == WifiOnly || (mode == Dual && index % 2 == 1) ==> m.adbBytes == 0)
  {
    hide FindChunk;
  }

  lemma {:induction false} CountBounds(f: nat, size: nat, chunkSize: nat, mode: TransportMode,
                                       lanes: map<U32Int, Lane>, completed: seq<U32Int>)
    requires Count(size, chunkSize) <= TWO_TO_32 && Ascends(completed) && AllBelow(completed, Count(size, chunkSize))
    ensures var m := CountFile(Split(f, size, chunkSize), mode, lanes, completed);
            && m.committedBytes == m.adbBytes + m.wifiBytes
            && m.completedChunks == |completed|
            && m.committedBytes <= UpTo(size, chunkSize, Past(completed))
  {
    hide CountOne, FindChunk, UpTo;
    UpToNone(size, chunkSize);
    if completed != [] {
      var n := |completed| - 1;
      var last := completed[n];
      CountBounds(f, size, chunkSize, mode, lanes, completed[..n]);
      UpToMonotone(size, chunkSize, Past(completed[..n]), last);
      UpToMonotone(size, chunkSize, last, Past(completed));
      CountOneLength(f, size, chunkSize, mode, lanes, last);
    }
  }

  lemma {:induction false} CountAll(f: nat, size: nat, chunkSize: nat, mode: TransportMode,
                                    lanes: map<U32Int, Lane>, completed: seq<U32Int>)
    requires Count(size, chunkSize) <= TWO_TO_32 && |completed| <= Count(size, chunkSize)
    requires forall i :: 0 <= i < |completed| ==> completed[i] == i
    ensures CountFile(Split(f, size, chunkSize), mode, lanes, completed).committedBytes
         == UpTo(size, chunkSize, |completed|)
  {
    if completed != [] {
      var n := |completed| - 1;
      CountAll(f, size, chunkSize, mode, lanes, completed[..n]);
      UpToMonotone(size, chunkSize, n, n + 1);
      CountOneLength(f, size, chunkSize, mode, lanes, n);
    }
  }

  /** Pigeonhole: strictly ascending indices below a bound are as many as the bound only when
      they are all of them. */
  lemma {:induction false} Pigeonhole(xs: seq<U32Int>, bound: nat)
    requires Ascends(xs) && AllBelow(xs, bound)
    ensures |xs| <= bound
    ensures |xs| == bound ==> forall i :: 0 <= i < |xs| ==> xs[i] == i
  {
    if xs != [] {
      Pigeonhole(xs[..|xs| - 1], xs[|xs| - 1]);
    }
  }
}
