/** The two-queue scheduler. `Sched` and the functions on it say what the scheduler holds and
    what each call does; class `Scheduler` is the mutable object, proved against them. */
module Scheduling {
  import opened Wrappers
  import opened Models
  import opened Chunks

  datatype Lease = Lease(lane: Lane, chunk: Chunk)

  datatype Sched = Sched(
    adb: seq<Chunk>, wifi: seq<Chunk>,
    adbInflight: nat, wifiInflight: nat,
    bias: Lane)
  {
    function Queue(lane: Lane): seq<Chunk> { match lane case Adb => adb case Wifi => wifi }

    function Inflight(lane: Lane): nat { match lane case Adb => adbInflight case Wifi => wifiInflight }

    function WithQueue(lane: Lane, q: seq<Chunk>): Sched {
      match lane case Adb => this.(adb := q) case Wifi => this.(wifi := q)
    }

    function WithInflight(lane: Lane, n: nat): Sched {
      match lane case Adb => this.(adbInflight := n) case Wifi => this.(wifiInflight := n)
    }

    function Queued(): multiset<Chunk> { multiset(adb) + multiset(wifi) }

    predicate Drained() { adb == [] && wifi == [] && adbInflight == 0 && wifiInflight == 0 }
  }

  // ----- the initial deal -----

  function CompletedOf(completedByFile: seq<seq<nat>>, fileIndex: nat): set<nat> {
    if fileIndex < |completedByFile| then set i | i in completedByFile[fileIndex] else {}
  }

  function Uncompleted(chunks: seq<Chunk>, completed: set<nat>): (r: seq<Chunk>)
  {
    if chunks == [] then []
    else
      var c := chunks[|chunks| - 1];
      Uncompleted(chunks[..|chunks| - 1], completed) + (if c.chunkIndex in completed then [] else [c])
  }

  /** The chunks of one file that still have to move. */
  function FileRest(config: TaskConfig, items: seq<TransferItem>, done: seq<seq<nat>>, f: nat): seq<Chunk>
    requires f < |items|
  {
    Uncompleted(Split(f, items[f].sizeBytes, config.chunkSizeBytes), CompletedOf(done, f))
  }

  function Rests(config: TaskConfig, items: seq<TransferItem>, done: seq<seq<nat>>): (r: seq<seq<Chunk>>)
    ensures |r| == |items|
    ensures forall f :: 0 <= f < |items| ==> r[f] == FileRest(config, items, done, f)
  {
    seq(|items|, f requires 0 <= f < |items| => FileRest(config, items, done, f))
  }

  function Flatten(lists: seq<seq<Chunk>>): seq<Chunk> {
    if lists == [] then [] else Flatten(lists[..|lists| - 1]) + lists[|lists| - 1]
  }

  /** The chunks of all files that still have to move, in file order. */
  function Rest(config: TaskConfig, items: seq<TransferItem>, done: seq<seq<nat>>): seq<Chunk> {
    Flatten(Rests(config, items, done))
  }

  /** Even positions to one list, odd positions to the other. */
  function Deal(chunks: seq<Chunk>): (r: (seq<Chunk>, seq<Chunk>))
    ensures |r.0| + |r.1| == |chunks|
    ensures |r.0| - 1 <= |r.1| <= |r.0|
  {
    if chunks == [] then ([], [])
    else
      var n := |chunks| - 1;
      var (a, w) := Deal(chunks[..n]);
      if n % 2 == 0 then (a + [chunks[n]], w) else (a, w + [chunks[n]])
  }

  /** Both lists together are the dealt list. */
  lemma {:induction false} DealLosesNothing(chunks: seq<Chunk>)
    ensures multiset(Deal(chunks).0) + multiset(Deal(chunks).1) == multiset(chunks)
  {
    if chunks != [] {
      var n := |chunks| - 1;
      DealLosesNothing(chunks[..n]);
      assert chunks == chunks[..n] + [chunks[n]];
    }
  }

  lemma DealStep(chunks: seq<Chunk>, i: nat)
    requires i < |chunks|
    ensures Deal(chunks[..i + 1]) ==
      if i % 2 == 0 then (Deal(chunks[..i]).0 + [chunks[i]], Deal(chunks[..i]).1)
      else (Deal(chunks[..i]).0, Deal(chunks[..i]).1 + [chunks[i]])
  {
    assert chunks[..i + 1][..i] == chunks[..i];
  }

  /** What each queue is given of one file's chunks. */
  function Given(s: Sched, config: TaskConfig, size: nat, chunks: seq<Chunk>): (seq<Chunk>, seq<Chunk>) {
    match config.transportMode
    case AdbOnly => (chunks, [])
    case WifiOnly => ([], chunks)
    case Dual =>
      if IsLargeFile(size, config.smallFileThresholdBytes) then Deal(chunks)
      else if s.bias == Adb then (chunks, []) else ([], chunks)
  }

  /** Hand the chunks of one file to the queues. */
  function Place(s: Sched, config: TaskConfig, size: nat, chunks: seq<Chunk>): Sched {
    var (a, w) := Given(s, config, size, chunks);
    var flip := config.transportMode == Dual && !IsLargeFile(size, config.smallFileThresholdBytes);
    s.(adb := s.adb + a, wifi := s.wifi + w, bias := if flip then OtherLane(s.bias) else s.bias)
  }

  lemma AppendBoth(a: seq<Chunk>, x: seq<Chunk>, w: seq<Chunk>, y: seq<Chunk>)
    ensures multiset(a + x) + multiset(w + y) == multiset(a) + multiset(w) + (multiset(x) + multiset(y))
  { }

  lemma PlaceAddsAll(s: Sched, config: TaskConfig, size: nat, chunks: seq<Chunk>)
    ensures Place(s, config, size, chunks).Queued() == s.Queued() + multiset(chunks)
  {
    var (x, y) := Given(s, config, size, chunks);
    AppendBoth(s.adb, x, s.wifi, y);
    DealLosesNothing(chunks);
  }

  const EMPTY := Sched([], [], 0, 0, Adb)

  function DealFiles(config: TaskConfig, items: seq<TransferItem>, rests: seq<seq<Chunk>>, n: nat): Sched
    requires n <= |items| == |rests|
  {
    if n == 0 then EMPTY
    else Place(DealFiles(config, items, rests, n - 1), config, items[n - 1].sizeBytes, rests[n - 1])
  }

  lemma DealNone(config: TaskConfig, items: seq<TransferItem>, rests: seq<seq<Chunk>>)
    requires |items| == |rests|
    ensures DealFiles(config, items, rests, 0) == Sched([], [], 0, 0, Adb)
  { }

  lemma DealNext(config: TaskConfig, items: seq<TransferItem>, rests: seq<seq<Chunk>>, f: nat)
    requires f < |items| == |rests|
    ensures DealFiles(config, items, rests, f + 1)
         == Place(DealFiles(config, items, rests, f), config, items[f].sizeBytes, rests[f])
  { }

  /** The scheduler `new_with_completed` builds. */
  function New(config: TaskConfig, items: seq<TransferItem>, done: seq<seq<nat>>): Sched {
    DealFiles(config, items, Rests(config, items, done), |items|)
  }

  lemma FlattenNone()
    ensures Flatten([]) == []
  { }

  lemma FlattenNext(lists: seq<seq<Chunk>>, n: nat)
    requires n < |lists|
    ensures Flatten(lists[..n + 1]) == Flatten(lists[..n]) + lists[n]
  {
    assert lists[..n + 1][..n] == lists[..n];
  }

  lemma {:induction false} DealKeepsAll(config: TaskConfig, items: seq<TransferItem>, rests: seq<seq<Chunk>>, n: nat)
    requires n <= |items| == |rests|
    ensures DealFiles(config, items, rests, n).Queued() == multiset(Flatten(rests[..n]))
  {
    hide DealFiles, Place, Flatten;
    if n == 0 {
      DealNone(config, items, rests);
      FlattenNone();
    } else {
      DealKeepsAll(config, items, rests, n - 1);
      DealNext(config, items, rests, n - 1);
      PlaceAddsAll(DealFiles(config, items, rests, n - 1), config, items[n - 1].sizeBytes, rests[n - 1]);
      FlattenNext(rests, n - 1);
    }
  }

  lemma {:induction false} DealLanes(config: TaskConfig, items: seq<TransferItem>, rests: seq<seq<Chunk>>, n: nat)
    requires n <= |items| == |rests|
    ensures DealFiles(config, items, rests, n).adbInflight == DealFiles(config, items, rests, n).wifiInflight == 0
    ensures config.transportMode == AdbOnly ==> DealFiles(config, items, rests, n).wifi == []
    ensures config.transportMode == WifiOnly ==> DealFiles(config, items, rests, n).adb == []
  {
    if n > 0 { DealLanes(config, items, rests, n - 1); }
  }

  /** The two queues together hold exactly the chunks that are not completed, nothing is in
      flight, and in a single-lane mode the other lane is dealt nothing. */
  lemma DealIsPartition(config: TaskConfig, items: seq<TransferItem>, done: seq<seq<nat>>)
    ensures var s := New(config, items, done);
            && s.Queued() == multiset(Rest(config, items, done))
            && s.adbInflight == s.wifiInflight == 0
            && (config.transportMode == AdbOnly ==> s.wifi == [])
            && (config.transportMode == WifiOnly ==> s.adb == [])
  {
    var rests := Rests(config, items, done);
    DealKeepsAll(config, items, rests, |items|);
    DealLanes(config, items, rests, |items|);
    assert rests[..|items|] == rests;
  }

  lemma {:induction false} UncompletedMember(chunks: seq<Chunk>, completed: set<nat>, c: Chunk)
    ensures c in Uncompleted(chunks, completed) <==> c in chunks && c.chunkIndex !in completed
  {
    if chunks != [] {
      var n := |chunks| - 1;
      UncompletedMember(chunks[..n], completed, c);
      assert chunks == chunks[..n] + [chunks[n]];
    }
  }

  lemma {:induction false} FlattenMember(lists: seq<seq<Chunk>>, c: Chunk)
    ensures c in Flatten(lists) <==> exists f :: 0 <= f < |lists| && c in lists[f]
  {
    if lists != [] {
      var n := |lists| - 1;
      FlattenMember(lists[..n], c);
      assert forall f :: 0 <= f < n ==> lists[..n][f] == lists[f];
    }
  }

  /** What is left of all files: the chunks of the cut whose index is not completed. */
  lemma RestMember(config: TaskConfig, items: seq<TransferItem>, done: seq<seq<nat>>, c: Chunk)
    ensures c in Rest(config, items, done) <==>
      && c.fileIndex < |items|
      && c in Split(c.fileIndex, items[c.fileIndex].sizeBytes, config.chunkSizeBytes)
      && c.chunkIndex !in CompletedOf(done, c.fileIndex)
  {
    FlattenMember(Rests(config, items, done), c);
    forall f | 0 <= f < |items|
      ensures c in FileRest(config, items, done, f) <==>
        && c.fileIndex == f
        && c in Split(f, items[f].sizeBytes, config.chunkSizeBytes)
        && c.chunkIndex !in CompletedOf(done, f)
    {
      FileRestUniform(config, items, done, f);
      UncompletedMember(Split(f, items[f].sizeBytes, config.chunkSizeBytes), CompletedOf(done, f), c);
    }
    if c.fileIndex < |items| {
      assert Rests(config, items, done)[c.fileIndex] == FileRest(config, items, done, c.fileIndex);
    }
  }

  lemma {:induction false} UncompletedDistinct(chunks: seq<Chunk>, completed: set<nat>)
    requires forall i, j :: 0 <= i < j < |chunks| ==> chunks[i] != chunks[j]
    ensures forall c :: multiset(Uncompleted(chunks, completed))[c] <= 1
  {
    if chunks != [] {
      var n := |chunks| - 1;
      UncompletedDistinct(chunks[..n], completed);
      UncompletedMember(chunks[..n], completed, chunks[n]);
      assert chunks[n] !in chunks[..n];
    }
  }

  lemma FileRestUniform(config: TaskConfig, items: seq<TransferItem>, done: seq<seq<nat>>, f: nat)
    requires f < |items|
    ensures forall c :: c in FileRest(config, items, done, f) ==> c.fileIndex == f
  {
    forall c | c in FileRest(config, items, done, f) ensures c.fileIndex == f {
      UncompletedMember(Split(f, items[f].sizeBytes, config.chunkSizeBytes), CompletedOf(done, f), c);
    }
  }

  lemma FileRestDistinct(config: TaskConfig, items: seq<TransferItem>, done: seq<seq<nat>>, f: nat)
    requires f < |items|
    ensures forall c :: multiset(FileRest(config, items, done, f))[c] <= 1
  {
    var chunks := Split(f, items[f].sizeBytes, config.chunkSizeBytes);
    if items[f].sizeBytes > 0 {
      forall i, j | 0 <= i < j < |chunks| ensures chunks[i] != chunks[j] {
        MulMono(i, j, AtLeastOne(config.chunkSizeBytes));
      }
    }
    UncompletedDistinct(chunks, CompletedOf(done, f));
  }

  lemma {:induction false} FlattenDistinct(lists: seq<seq<Chunk>>)
    requires forall f, c :: 0 <= f < |lists| && c in lists[f] ==> c.fileIndex == f
    requires forall f, c :: 0 <= f < |lists| ==> multiset(lists[f])[c] <= 1
    ensures forall c :: multiset(Flatten(lists))[c] <= 1
  {
    if lists != [] {
      var n := |lists| - 1;
      FlattenDistinct(lists[..n]);
      forall c ensures multiset(Flatten(lists))[c] <= 1 {
        FlattenMember(lists[..n], c);
        assert c in Flatten(lists[..n]) ==> c.fileIndex != n;
      }
    }
  }

  /** No chunk is left twice. */
  lemma RestDistinct(config: TaskConfig, items: seq<TransferItem>, done: seq<seq<nat>>)
    ensures forall c :: multiset(Rest(config, items, done))[c] <= 1
  {
    forall f | 0 <= f < |items|
      ensures forall c :: c in FileRest(config, items, done, f) ==> c.fileIndex == f
      ensures forall c :: multiset(FileRest(config, items, done, f))[c] <= 1
    {
      FileRestUniform(config, items, done, f);
      FileRestDistinct(config, items, done, f);
    }
    FlattenDistinct(Rests(config, items, done));
  }

  // ----- how Dual mode balances -----

  /** The chunks of one file inside a queue. */
  function OfFile(q: seq<Chunk>, f: nat): seq<Chunk> {
    if q == [] then []
    else OfFile(q[..|q| - 1], f) + (if q[|q| - 1].fileIndex == f then [q[|q| - 1]] else [])
  }

  lemma {:induction false} OfFileAppend(q: seq<Chunk>, r: seq<Chunk>, f: nat)
    ensures OfFile(q + r, f) == OfFile(q, f) + OfFile(r, f)
  {
    hide OfFile;
    if r == [] {
      assert q + r == q;
      OfFileNone(f);
    } else {
      var n := |r| - 1;
      OfFileAppend(q, r[..n], f);
      assert (q + r)[..|q + r| - 1] == q + r[..n];
      OfFileLast(q + r, f);
      OfFileLast(r, f);
    }
  }

  lemma OfFileNone(f: nat)
    ensures OfFile([], f) == []
  { }

  lemma OfFileLast(q: seq<Chunk>, f: nat)
    requires q != []
    ensures OfFile(q, f) == OfFile(q[..|q| - 1], f) + (if q[|q| - 1].fileIndex == f then [q[|q| - 1]] else [])
  { }

  lemma {:induction false} OfFileUniform(q: seq<Chunk>, f: nat, g: nat)
    requires forall c :: c in q ==> c.fileIndex == g
    ensures OfFile(q, f) == if f == g then q else []
  {
    if q != [] {
      OfFileUniform(q[..|q| - 1], f, g);
      assert q == q[..|q| - 1] + [q[|q| - 1]];
    }
  }

  function SmallBefore(config: TaskConfig, items: seq<TransferItem>, n: nat): nat
    requires n <= |items|
  {
    if n == 0 then 0
    else SmallBefore(config, items, n - 1) + if items[n - 1].sizeBytes < config.smallFileThresholdBytes then 1 else 0
  }

  function LaneOfParity(k: nat): Lane { if k % 2 == 0 then Adb else Wifi }

  lemma DealtUniform(chunks: seq<Chunk>, g: nat)
    requires forall c :: c in chunks ==> c.fileIndex == g
    ensures forall c :: c in Deal(chunks).0 || c in Deal(chunks).1 ==> c.fileIndex == g
  {
    DealLosesNothing(chunks);
    forall c | c in Deal(chunks).0 || c in Deal(chunks).1 ensures c.fileIndex == g {
      assert c in multiset(Deal(chunks).0) + multiset(Deal(chunks).1);
      assert c in multiset(chunks);
    }
  }

  /** A file's share of the two queues depends only on its size class and on how many small
      files came before it. */
  function Share(config: TaskConfig, items: seq<TransferItem>, rest: seq<Chunk>, f: nat): (seq<Chunk>, seq<Chunk>)
    requires f < |items|
  {
    if IsLargeFile(items[f].sizeBytes, config.smallFileThresholdBytes) then Deal(rest)
    else if LaneOfParity(SmallBefore(config, items, f)) == Adb then (rest, [])
    else ([], rest)
  }

  lemma {:induction false} DealBias(config: TaskConfig, items: seq<TransferItem>, rests: seq<seq<Chunk>>, n: nat)
    requires config.transportMode == Dual && n <= |items| == |rests|
    ensures DealFiles(config, items, rests, n).bias == LaneOfParity(SmallBefore(config, items, n))
  {
    if n > 0 { DealBias(config, items, rests, n - 1); }
  }

  lemma AppendUniform(q: seq<Chunk>, a: seq<Chunk>, f: nat, g: nat)
    requires forall c :: c in a ==> c.fileIndex == g
    ensures OfFile(q + a, f) == if f == g then OfFile(q, f) + a else OfFile(q, f)
  {
    OfFileAppend(q, a, f);
    OfFileUniform(a, f, g);
    assert OfFile(q, f) + [] == OfFile(q, f);
  }

  lemma {:induction false} DealShare(config: TaskConfig, items: seq<TransferItem>, rests: seq<seq<Chunk>>,
                                     n: nat, f: nat)
    requires config.transportMode == Dual && n <= |items| == |rests|
    requires forall g, c :: 0 <= g < |rests| && c in rests[g] ==> c.fileIndex == g
    ensures (OfFile(DealFiles(config, items, rests, n).adb, f), OfFile(DealFiles(config, items, rests, n).wifi, f))
         == if f < n then Share(config, items, rests[f], f) else ([], [])
  {
    hide Deal, SmallBefore, OfFile;
    if n > 0 {
      var g := n - 1;
      var s := DealFiles(config, items, rests, g);
      var (a, w) := Given(s, config, items[g].sizeBytes, rests[g]);
      DealShare(config, items, rests, g, f);
      DealBias(config, items, rests, g);
      DealtUniform(rests[g], g);
      AppendUniform(s.adb, a, f, g);
      AppendUniform(s.wifi, w, f, g);
      assert [] + a == a && [] + w == w;
    } else {
      NothingDealt(f);
    }
  }

  lemma NothingDealt(f: nat)
    ensures OfFile(EMPTY.adb, f) == OfFile(EMPTY.wifi, f) == []
  { }

  /** In Dual mode a large file is dealt to both lanes with at most one chunk of difference; the
      k-th small file goes whole to the lane of k's parity. */
  lemma DualBalance(config: TaskConfig, items: seq<TransferItem>, done: seq<seq<nat>>, f: nat)
    requires config.transportMode == Dual && f < |items|
    ensures var s := New(config, items, done);
            var rest := FileRest(config, items, done, f);
            var a, w := OfFile(s.adb, f), OfFile(s.wifi, f);
            if items[f].sizeBytes >= config.smallFileThresholdBytes
            then |a| + |w| == |rest| && |a| - 1 <= |w| <= |a|
            else (a, w) == if SmallBefore(config, items, f) % 2 == 0 then (rest, []) else ([], rest)
  {
    forall g | 0 <= g < |items|
      ensures forall c :: c in FileRest(config, items, done, g) ==> c.fileIndex == g
    {
      FileRestUniform(config, items, done, g);
    }
    DealShare(config, items, Rests(config, items, done), |items|, f);
  }

  // ----- the order of the queues -----

  predicate Earlier(a: Chunk, b: Chunk) {
    a.fileIndex < b.fileIndex || (a.fileIndex == b.fileIndex && a.chunkIndex < b.chunkIndex)
  }

  predicate InOrder(q: seq<Chunk>) { forall j, k :: 0 <= j < k < |q| ==> Earlier(q[j], q[k]) }

  lemma AppendInOrder(q: seq<Chunk>, r: seq<Chunk>)
    requires InOrder(q) && InOrder(r) && forall a, b :: a in q && b in r ==> Earlier(a, b)
    ensures InOrder(q + r)
  {
    hide Earlier;
    forall j, k | 0 <= j < k < |q + r| ensures Earlier((q + r)[j], (q + r)[k]) {
      if j < |q| <= k { assert q[j] in q && r[k - |q|] in r; }
    }
  }

  lemma LastInOrder(q: seq<Chunk>)
    requires InOrder(q) && q != []
    ensures var n := |q| - 1;
            InOrder(q[..n]) && (forall a :: a in q[..n] ==> Earlier(a, q[n])) && forall a :: a in q[..n] ==> a in q
  {
    hide Earlier;
  }

  lemma {:induction false} UncompletedInOrder(chunks: seq<Chunk>, completed: set<nat>)
    requires InOrder(chunks)
    ensures InOrder(Uncompleted(chunks, completed)) && forall c :: c in Uncompleted(chunks, completed) ==> c in chunks
  {
    hide Earlier, InOrder;
    if chunks != [] {
      var n := |chunks| - 1;
      LastInOrder(chunks);
      UncompletedInOrder(chunks[..n], completed);
      OneInOrder(chunks[n]);
      var before := Uncompleted(chunks[..n], completed);
      assert before + [] == before;
      if chunks[n].chunkIndex !in completed { AppendInOrder(before, [chunks[n]]); }
    } else {
      NoneInOrder();
    }
  }

  lemma OneInOrder(c: Chunk)
    ensures InOrder([c])
  { }

  lemma NoneInOrder()
    ensures InOrder([])
  { }

  lemma {:induction false} DealInOrder(chunks: seq<Chunk>)
    requires InOrder(chunks)
    ensures InOrder(Deal(chunks).0) && InOrder(Deal(chunks).1)
    ensures forall c :: c in Deal(chunks).0 || c in Deal(chunks).1 ==> c in chunks
  {
    hide Earlier, InOrder;
    if chunks != [] {
      var n := |chunks| - 1;
      LastInOrder(chunks);
      DealInOrder(chunks[..n]);
      OneInOrder(chunks[n]);
      if n % 2 == 0 {
        AppendInOrder(Deal(chunks[..n]).0, [chunks[n]]);
      } else {
        AppendInOrder(Deal(chunks[..n]).1, [chunks[n]]);
      }
    } else {
      NoneInOrder();
    }
  }

  lemma SplitInOrder(f: nat, size: nat, chunkSize: nat)
    requires Count(size, chunkSize) <= TWO_TO_32
    ensures InOrder(Split(f, size, chunkSize))
  {
    hide ChunkAt, Count;
    var chunks := Split(f, size, chunkSize);
    forall j, k | 0 <= j < k < |chunks| ensures Earlier(chunks[j], chunks[k]) {
      ChunkAtNames(f, size, chunkSize, j);
      ChunkAtNames(f, size, chunkSize, k);
    }
  }

  lemma ChunkAtNames(f: nat, size: nat, chunkSize: nat, i: nat)
    requires i < Count(size, chunkSize) <= TWO_TO_32
    ensures ChunkAt(f, size, chunkSize, i).fileIndex == f && ChunkAt(f, size, chunkSize, i).chunkIndex == i
  { }

  lemma {:induction false} DealtInOrder(config: TaskConfig, items: seq<TransferItem>, done: seq<seq<nat>>, n: nat)
    requires n <= |items|
    requires forall f :: 0 <= f < |items| ==> Count(items[f].sizeBytes, config.chunkSizeBytes) <= TWO_TO_32
    ensures var s := DealFiles(config, items, Rests(config, items, done), n);
            && InOrder(s.adb) && InOrder(s.wifi)
            && forall c :: c in s.adb || c in s.wifi ==> c.fileIndex < n
  {
    hide Deal, InOrder, Split, Uncompleted;
    if n > 0 {
      var g := n - 1;
      var s, rest := DealFiles(config, items, Rests(config, items, done), g), FileRest(config, items, done, g);
      DealtInOrder(config, items, done, g);
      FileRestUniform(config, items, done, g);
      SplitInOrder(g, items[g].sizeBytes, config.chunkSizeBytes);
      UncompletedInOrder(Split(g, items[g].sizeBytes, config.chunkSizeBytes), CompletedOf(done, g));
      DealInOrder(rest);
      NoneInOrder();
      var (a, w) := Given(s, config, items[g].sizeBytes, rest);
      AppendInOrder(s.adb, a);
      AppendInOrder(s.wifi, w);
    } else {
      NoneInOrder();
    }
  }

  /** Both queues of a new scheduler hold their chunks in the order of the files and of the chunks in
      them. */
  lemma QueuesInOrder(config: TaskConfig, items: seq<TransferItem>, done: seq<seq<nat>>)
    requires forall f :: 0 <= f < |items| ==> Count(items[f].sizeBytes, config.chunkSizeBytes) <= TWO_TO_32
    ensures InOrder(New(config, items, done).adb) && InOrder(New(config, items, done).wifi)
  {
    hide Deal, InOrder, DealFiles;
    DealtInOrder(config, items, done, |items|);
  }

  // ----- leasing -----

  function TryLease(s: Sched, lane: Lane): (Sched, Option<Lease>) {
    if s.Queue(lane) != [] then TakeFrom(s, lane)
    else if s.Queue(OtherLane(lane)) != [] then TakeFrom(s, OtherLane(lane))
    else (s, None)
  }

  function TakeFrom(s: Sched, lane: Lane): (Sched, Option<Lease>)
    requires s.Queue(lane) != []
  {
    var q := s.Queue(lane);
    (s.WithQueue(lane, q[1..]).WithInflight(lane, s.Inflight(lane) + 1), Some(Lease(lane, q[0])))
  }

  function LeaseNext(s: Sched, limit: nat, preferred: Lane): (Sched, Option<Lease>) {
    if s.Inflight(preferred) >= limit then
      if s.Inflight(OtherLane(preferred)) >= limit then (s, None)
      else TryLease(s, OtherLane(preferred))
    else TryLease(s, preferred)
  }

  function Complete(s: Sched, lane: Lane): Sched {
    s.WithInflight(lane, if s.Inflight(lane) == 0 then 0 else s.Inflight(lane) - 1)
  }

  /** Whose chunk is leased. The preferred lane's, when it has one and either the lane is below the
      limit, or the other lane is and has none; the other lane's, when that one has one and either
      is below the limit while the preferred one is not, or the preferred one is and has none. It
      is the first in its queue. */
  lemma LeaseOrder(s: Sched, limit: nat, preferred: Lane)
    ensures var lease, other := LeaseNext(s, limit, preferred).1, OtherLane(preferred);
            var mine, theirs := s.Queue(preferred), s.Queue(other);
            && (lease.Some? && lease.value.lane == preferred <==>
                 && mine != []
                 && (s.Inflight(preferred) < limit || (s.Inflight(other) < limit && theirs == [])))
            && (lease.Some? && lease.value.lane == other <==>
                 && theirs != []
                 && if s.Inflight(preferred) < limit then mine == [] else s.Inflight(other) < limit)
            && (lease.Some? ==> lease.value.chunk == s.Queue(lease.value.lane)[0])
  { }

  /** Nothing is leased exactly when both lanes are at the limit or both queues are empty. */
  lemma IdleIff(s: Sched, limit: nat, preferred: Lane)
    ensures LeaseNext(s, limit, preferred).1.None? <==>
      || (s.adbInflight >= limit && s.wifiInflight >= limit)
      || (s.adb == [] && s.wifi == [])
    ensures LeaseNext(s, limit, preferred).1.None? ==> LeaseNext(s, limit, preferred).0 == s
  { }

  lemma TakeMovesOne(s: Sched, lane: Lane)
    requires s.Queue(lane) != []
    ensures var (t, l) := TakeFrom(s, lane);
            && t.Queued() + multiset{l.value.chunk} == s.Queued()
            && s.Queue(lane) == [l.value.chunk] + t.Queue(lane)
  {
    var q := s.Queue(lane);
    assert q == [q[0]] + q[1..];
  }

  /** A lease moves one chunk out of its lane's queue and adds one to that lane's count;
      nothing else changes. */
  lemma LeaseMovesOne(s: Sched, limit: nat, preferred: Lane)
    requires LeaseNext(s, limit, preferred).1.Some?
    ensures var (t, l) := LeaseNext(s, limit, preferred);
            && t.Queued() + multiset{l.value.chunk} == s.Queued()
            && |t.adb| + |t.wifi| + 1 == |s.adb| + |s.wifi|
            && t.Inflight(l.value.lane) == s.Inflight(l.value.lane) + 1
            && t.Inflight(OtherLane(l.value.lane)) == s.Inflight(OtherLane(l.value.lane))
            && s.Queue(l.value.lane) == [l.value.chunk] + t.Queue(l.value.lane)
            && t.Queue(OtherLane(l.value.lane)) == s.Queue(OtherLane(l.value.lane))
  {
    var lane := LeaseNext(s, limit, preferred).1.value.lane;
    assert LeaseNext(s, limit, preferred) == TakeFrom(s, lane);
    TakeMovesOne(s, lane);
    hide LeaseNext, TryLease;
  }

  /** With one queue empty every lease carries the other lane, whatever is preferred and however
      many of its chunks are in flight: the fallback does not look at the limit again. */
  lemma SingleLaneLeases(s: Sched, limit: nat, preferred: Lane, lane: Lane)
    requires s.Queue(OtherLane(lane)) == []
    ensures LeaseNext(s, limit, preferred).1.Some? ==> LeaseNext(s, limit, preferred).1.value.lane == lane
    ensures LeaseNext(s, limit, preferred).0.Queue(OtherLane(lane)) == []
  { }

  // ----- the limit over whole runs -----

  /** The lane whose queue a lease looks at first. */
  function FirstLane(s: Sched, limit: nat, preferred: Lane): Lane {
    if s.Inflight(preferred) < limit then preferred else OtherLane(preferred)
  }

  /** A lease stays within its lane's limit exactly when the first queue had a chunk, or the other
      lane was below the limit as well: the fallback to that lane's queue does not look again. */
  lemma CapHoldsIff(s: Sched, limit: nat, preferred: Lane)
    requires LeaseNext(s, limit, preferred).1.Some?
    ensures var first, lane := FirstLane(s, limit, preferred), LeaseNext(s, limit, preferred).1.value.lane;
            s.Inflight(lane) < limit <==> s.Queue(first) != [] || s.Inflight(OtherLane(first)) < limit
  { }

  /** What the workers do with a scheduler: ask for a chunk, or give a lease back. */
  datatype Use = Ask(preferred: Lane) | Return(lane: Lane)

  function Used(s: Sched, limit: nat, u: Use): Sched {
    match u
    case Ask(preferred) => LeaseNext(s, limit, preferred).0
    case Return(lane) => Complete(s, lane)
  }

  function RunUses(s: Sched, limit: nat, uses: seq<Use>): Sched
    decreases uses
  {
    if uses == [] then s else RunUses(Used(s, limit, uses[0]), limit, uses[1..])
  }

  predicate WithinLimit(s: Sched, limit: nat) { s.adbInflight <= limit && s.wifiInflight <= limit }

  predicate Idle(s: Sched) { s.adbInflight == s.wifiInflight == 0 }

  /** Whatever the workers do, no lane has more in flight than the limit. */
  ghost predicate NeverPassed(s: Sched, limit: nat) {
    forall uses :: WithinLimit(RunUses(s, limit, uses), limit)
  }

  /** A chunk in flight on a lane came from that lane's queue. */
  lemma UsedKeepsTotal(s: Sched, limit: nat, u: Use, lane: Lane)
    ensures var t := Used(s, limit, u);
            t.Inflight(lane) + |t.Queue(lane)| <= s.Inflight(lane) + |s.Queue(lane)|
    ensures limit == 0 && s.Inflight(lane) == 0 ==> Used(s, limit, u).Inflight(lane) == 0
  {
    if u.Ask? && LeaseNext(s, limit, u.preferred).1.Some? {
      LeaseMovesOne(s, limit, u.preferred);
    } else if u.Ask? {
      IdleIff(s, limit, u.preferred);
    }
  }

  lemma {:induction false} RunKeepsTotal(s: Sched, limit: nat, uses: seq<Use>, lane: Lane)
    ensures var t := RunUses(s, limit, uses);
            t.Inflight(lane) + |t.Queue(lane)| <= s.Inflight(lane) + |s.Queue(lane)|
    ensures limit == 0 && s.Inflight(lane) == 0 ==> RunUses(s, limit, uses).Inflight(lane) == 0
    decreases uses
  {
    hide Used;
    if uses != [] {
      UsedKeepsTotal(s, limit, uses[0], lane);
      RunKeepsTotal(Used(s, limit, uses[0]), limit, uses[1..], lane);
    }
  }

  /** `n` times the same two steps: ask for a chunk of `lane` and give it back at once. */
  function Emptying(lane: Lane, n: nat): seq<Use> {
    if n == 0 then [] else [Ask(lane), Return(lane)] + Emptying(lane, n - 1)
  }

  lemma RunTwo(s: Sched, limit: nat, u: Use, v: Use, rest: seq<Use>)
    ensures RunUses(s, limit, [u, v] + rest) == RunUses(Used(Used(s, limit, u), limit, v), limit, rest)
  {
    var all := [u, v] + rest;
    assert all[1..] == [v] + rest && all[1..][1..] == rest;
  }

  lemma {:induction false} RunAppend(s: Sched, limit: nat, a: seq<Use>, b: seq<Use>)
    ensures RunUses(s, limit, a + b) == RunUses(RunUses(s, limit, a), limit, b)
    decreases a
  {
    hide Used;
    if a == [] {
      assert a + b == b;
    } else {
      assert (a + b)[1..] == a[1..] + b;
      RunAppend(Used(s, limit, a[0]), limit, a[1..], b);
    }
  }

  /** Asking and giving back empties one queue and touches nothing else. */
  lemma {:induction false} EmptyingEmpties(s: Sched, limit: nat, lane: Lane)
    requires limit > 0 && Idle(s)
    ensures RunUses(s, limit, Emptying(lane, |s.Queue(lane)|)) == s.WithQueue(lane, [])
    decreases |s.Queue(lane)|
  {
    var q := s.Queue(lane);
    if q == [] {
      assert s.WithQueue(lane, []) == s;
    } else {
      var t := s.WithQueue(lane, q[1..]);
      RunTwo(s, limit, Ask(lane), Return(lane), Emptying(lane, |q| - 1));
      assert Used(Used(s, limit, Ask(lane)), limit, Return(lane)) == t;
      EmptyingEmpties(t, limit, lane);
    }
  }

  function Asks(prefs: seq<Lane>): (r: seq<Use>)
    ensures |r| == |prefs|
  {
    seq(|prefs|, k requires 0 <= k < |prefs| => Ask(prefs[k]))
  }

  function Lesser(a: nat, b: nat): nat { if a < b then a else b }

  /** With the other queue empty and nothing of it in flight, every question is answered with a
      chunk as long as there is one, whatever the limit and whichever lane is preferred. */
  lemma {:induction false} AloneIsUncapped(s: Sched, limit: nat, lane: Lane, prefs: seq<Lane>)
    requires limit > 0 && s.Queue(OtherLane(lane)) == [] && s.Inflight(OtherLane(lane)) == 0
    ensures var t := RunUses(s, limit, Asks(prefs));
            && t.Inflight(lane) == s.Inflight(lane) + Lesser(|prefs|, |s.Queue(lane)|)
            && t.Queue(lane) == s.Queue(lane)[Lesser(|prefs|, |s.Queue(lane)|)..]
    decreases prefs
  {
    if prefs != [] {
      var t := Used(s, limit, Ask(prefs[0]));
      assert Asks(prefs)[1..] == Asks(prefs[1..]);
      if s.Queue(lane) == [] {
        assert t == s;
      } else {
        assert t == s.WithQueue(lane, s.Queue(lane)[1..]).WithInflight(lane, s.Inflight(lane) + 1);
      }
      AloneIsUncapped(t, limit, lane, prefs[1..]);
    }
  }

  lemma LongQueuePasses(s: Sched, limit: nat, lane: Lane)
    requires limit > 0 && Idle(s) && |s.Queue(lane)| > limit
    ensures !NeverPassed(s, limit)
  {
    var other := OtherLane(lane);
    var alone := s.WithQueue(other, []);
    var first, prefs := Emptying(other, |s.Queue(other)|), seq(limit + 1, _ => lane);
    EmptyingEmpties(s, limit, other);
    AloneIsUncapped(alone, limit, lane, prefs);
    RunAppend(s, limit, first, Asks(prefs));
    assert !WithinLimit(RunUses(s, limit, first + Asks(prefs)), limit);
  }

  /** From an idle scheduler the limit is never passed, whatever the workers do, exactly when it
      is zero or no queue is longer than it. Otherwise emptying the other queue first is a way
      to pass it. */
  lemma NeverPassedIff(s: Sched, limit: nat)
    requires Idle(s)
    ensures NeverPassed(s, limit) <==> limit == 0 || (|s.adb| <= limit && |s.wifi| <= limit)
  {
    if limit == 0 || (|s.adb| <= limit && |s.wifi| <= limit) {
      forall uses ensures WithinLimit(RunUses(s, limit, uses), limit) {
        RunKeepsTotal(s, limit, uses, Adb);
        RunKeepsTotal(s, limit, uses, Wifi);
      }
    } else if |s.adb| > limit {
      LongQueuePasses(s, limit, Adb);
    } else {
      LongQueuePasses(s, limit, Wifi);
    }
  }

  /** In a single-lane mode the limit, unless it is zero, stops nobody: from the scheduler of a
      new task, as many chunks are in flight as were asked for, until there are none left. */
  lemma SingleModeIsUncapped(config: TaskConfig, items: seq<TransferItem>, done: seq<seq<nat>>, prefs: seq<Lane>)
    requires config.transportMode != Dual && config.maxInFlightChunksPerLane > 0
    ensures var lane := if config.transportMode == AdbOnly then Adb else Wifi;
            var t := RunUses(New(config, items, done), config.maxInFlightChunksPerLane, Asks(prefs));
            t.Inflight(lane) == Lesser(|prefs|, |Rest(config, items, done)|)
  {
    var lane := if config.transportMode == AdbOnly then Adb else Wifi;
    var s := New(config, items, done);
    DealIsPartition(config, items, done);
    assert |s.Queue(lane)| == |s.Queued()| == |Rest(config, items, done)|;
    AloneIsUncapped(s, config.maxInFlightChunksPerLane, lane, prefs);
    hide New, Rest;
  }

  const ONE_AT_A_TIME := TaskConfig("t", PcToAndroid, AdbOnly, false, "", "", 1, 0, 1, 0)

  /** A file of two one-byte chunks, one chunk at a time over ADB: two leases, two in flight. */
  lemma TwoLeasesPassOne()
    ensures var s := New(ONE_AT_A_TIME, [TransferItem("a", 2, 0, None)], []);
            var (s1, first) := LeaseNext(s, 1, Adb);
            var (s2, second) := LeaseNext(s1, 1, Adb);
            && first == Some(Lease(Adb, Chunk(0, 0, 0, 1))) && second == Some(Lease(Adb, Chunk(0, 1, 1, 1)))
            && s2.adbInflight == 2
  {
    var items := [TransferItem("a", 2, 0, None)];
    var rests := Rests(ONE_AT_A_TIME, items, []);
    var cut := Split(0, 2, 1);
    assert cut == [Chunk(0, 0, 0, 1), Chunk(0, 1, 1, 1)];
    assert cut[..1] == [cut[0]] && cut[..1][..0] == [];
    assert Uncompleted(cut, {}) == cut;
    assert rests[0] == cut;
    DealNone(ONE_AT_A_TIME, items, rests);
    DealNext(ONE_AT_A_TIME, items, rests, 0);
    assert New(ONE_AT_A_TIME, items, []).adb == [] + cut;
    assert cut[1..] == [cut[1]];
  }

  // ----- the mutable scheduler -----

  class Scheduler {
    var adbQueue: seq<Chunk>
    var wifiQueue: seq<Chunk>
    var inflight: map<Lane, nat>
    var laneBias: Lane

    ghost predicate Valid()
      reads this
    {
      inflight.Keys == {Adb, Wifi}
    }

    ghost function View(): Sched
      reads this
      requires Valid()
    {
      Sched(adbQueue, wifiQueue, inflight[Adb], inflight[Wifi], laneBias)
    }

    constructor NewWithCompleted(config: TaskConfig, items: seq<TransferItem>, completedByFile: seq<seq<nat>>)
      ensures Valid() && View() == New(config, items, completedByFile)
    {
      adbQueue, wifiQueue := [], [];
      inflight := map[Adb := 0, Wifi := 0];
      laneBias := Adb;
      new;
      DealNone(config, items, Rests(config, items, completedByFile));
      hide DealFiles, Place, FileRest;
      for f := 0 to |items|
        invariant Valid() && View() == DealFiles(config, items, Rests(config, items, completedByFile), f)
      {
        DealNext(config, items, Rests(config, items, completedByFile), f);
        DealFile(config, items, completedByFile, f);
      }
    }

    method DealFile(config: TaskConfig, items: seq<TransferItem>, completedByFile: seq<seq<nat>>, f: nat)
      requires Valid() && f < |items|
      modifies this`adbQueue, this`wifiQueue, this`laneBias
      ensures Valid()
      ensures View() == Place(old(View()), config, items[f].sizeBytes, FileRest(config, items, completedByFile, f))
    {
      var completed := if f < |completedByFile| then set i | i in completedByFile[f] else {};
      var all := SplitIntoChunks(f, items[f].sizeBytes, config.chunkSizeBytes);
      PlaceChunks(config, items[f].sizeBytes, Uncompleted(all, completed));
    }

    method PlaceChunks(config: TaskConfig, size: nat, chunks: seq<Chunk>)
      requires Valid()
      modifies this`adbQueue, this`wifiQueue, this`laneBias
      ensures Valid() && View() == Place(old(View()), config, size, chunks)
    {
      assert adbQueue + [] == adbQueue && wifiQueue + [] == wifiQueue;
      match config.transportMode {
        case AdbOnly => adbQueue := adbQueue + chunks;
        case WifiOnly => wifiQueue := wifiQueue + chunks;
        case Dual =>
          if IsLargeFile(size, config.smallFileThresholdBytes) {
            DealOut(chunks);
          } else {
            match laneBias {
              case Adb => adbQueue := adbQueue + chunks;
              case Wifi => wifiQueue := wifiQueue + chunks;
            }
            laneBias := OtherLane(laneBias);
          }
      }
    }

    method DealOut(chunks: seq<Chunk>)
      requires Valid()
      modifies this`adbQueue, this`wifiQueue
      ensures Valid()
      ensures (adbQueue, wifiQueue) == (old(adbQueue) + Deal(chunks).0, old(wifiQueue) + Deal(chunks).1)
    {
      ghost var a, w := adbQueue, wifiQueue;
      for index := 0 to |chunks|
        invariant adbQueue == a + Deal(chunks[..index]).0 && wifiQueue == w + Deal(chunks[..index]).1
      {
        DealStep(chunks, index);
        ghost var d := Deal(chunks[..index]);
        if index % 2 == 0 {
          adbQueue := adbQueue + [chunks[index]];
          assert a + (d.0 + [chunks[index]]) == a + d.0 + [chunks[index]];
        } else {
          wifiQueue := wifiQueue + [chunks[index]];
          assert w + (d.1 + [chunks[index]]) == w + d.1 + [chunks[index]];
        }
      }
      assert chunks[..|chunks|] == chunks;
    }

    method NextLease(config: TaskConfig, preferred: Lane) returns (decision: Option<Lease>)
      requires Valid()
      modifies this
      ensures Valid()
      ensures (View(), decision) == LeaseNext(old(View()), config.maxInFlightChunksPerLane, preferred)
    {
      var limit := config.maxInFlightChunksPerLane;
      if inflight[preferred] >= limit {
        var fallback := OtherLane(preferred);
        if inflight[fallback] >= limit {
          return None;
        }
        decision := LeaseFrom(fallback);
      } else {
        decision := LeaseFrom(preferred);
      }
    }

    method LeaseFrom(lane: Lane) returns (decision: Option<Lease>)
      requires Valid()
      modifies this
      ensures Valid()
      ensures (View(), decision) == TryLease(old(View()), lane)
    {
      var chunk := PopFront(lane);
      if chunk.Some? {
        inflight := inflight[lane := inflight[lane] + 1];
        return Some(Lease(lane, chunk.value));
      }
      var fallback := OtherLane(lane);
      chunk := PopFront(fallback);
      if chunk.Some? {
        inflight := inflight[fallback := inflight[fallback] + 1];
        return Some(Lease(fallback, chunk.value));
      }
      decision := None;
    }

    method PopFront(lane: Lane) returns (chunk: Option<Chunk>)
      requires Valid()
      modifies this`adbQueue, this`wifiQueue
      ensures Valid()
      ensures old(View().Queue(lane)) == [] ==> chunk == None && View() == old(View())
      ensures old(View().Queue(lane)) != [] ==>
        && chunk == Some(old(View().Queue(lane))[0])
        && View() == old(View()).WithQueue(lane, old(View().Queue(lane))[1..])
    {
      match lane {
        case Adb =>
          if adbQueue == [] { return None; }
          chunk := Some(adbQueue[0]);
          adbQueue := adbQueue[1..];
        case Wifi =>
          if wifiQueue == [] { return None; }
          chunk := Some(wifiQueue[0]);
          wifiQueue := wifiQueue[1..];
      }
    }

    method CompleteLease(lease: Lease)
      requires Valid()
      modifies this`inflight
      ensures Valid() && View() == Complete(old(View()), lease.lane)
    {
      assert lease.lane == Adb || lease.lane == Wifi;
      var n := inflight[lease.lane];
      inflight := inflight[lease.lane := if n == 0 then 0 else n - 1];
    }

    method IsDrained() returns (drained: bool)
      requires Valid()
      ensures drained == View().Drained()
    {
      drained := adbQueue == [] && wifiQueue == [] && (forall lane :: lane in inflight ==> inflight[lane] == 0);
    }
  }
}
