/** The same-file Dual protocol: an ADB lane and a Wi-Fi lane write disjoint chunks of one
    temporary file on the phone while they record commits, step by step in any interleaving, and
    attempts can be interrupted and resumed with another split between the lanes. */
module Dual {
  import opened Wrappers
  import opened Models
  import opened Bytes
  import opened Chunks

  // ----- the chunks of the file -----

  /** What is sent: the source bytes and the chunk size, cut into fewer than 2^32 chunks. */
  datatype Job = Job(src: Data, chunkSize: nat)
  {
    ghost predicate Valid() { |src| > 0 && chunkSize > 0 && Count(|src|, chunkSize) < TWO_TO_32 }

    function Total(): nat { ChunkCountForSize(|src|, chunkSize) }

    function From(i: nat): nat { i * chunkSize }

    function To(i: nat): nat { i * chunkSize + ChunkLengthFor(|src|, chunkSize, i) }
  }

  lemma Ranges(job: Job, i: nat)
    requires job.Valid() && i < job.Total()
    ensures job.From(i) < job.To(i) <= |job.src|
  {
    InFile(|job.src|, job.chunkSize, i);
  }

  /** Every position lies in one chunk. */
  lemma Position(job: Job, p: nat)
    requires job.Valid() && p < |job.src|
    ensures p / job.chunkSize < job.Total()
    ensures job.From(p / job.chunkSize) <= p < job.To(p / job.chunkSize)
  {
    ChunkOfByte(0, |job.src|, job.chunkSize, p);
    InFile(|job.src|, job.chunkSize, p / job.chunkSize);
  }

  /** The bytes of the range are in the file. */
  ghost predicate Has(src: Data, temp: Option<Data>, from: nat, to: nat)
    requires to <= |src|
  {
    from < to ==> temp.Some? && to <= |temp.value| && forall p :: from <= p < to ==> temp.value[p] == src[p]
  }

  ghost predicate Exact(job: Job, temp: Option<Data>, i: nat)
    requires job.Valid()
  {
    i < job.Total() && (Ranges(job, i); Has(job.src, temp, job.From(i), job.To(i)))
  }

  ghost predicate AllExact(job: Job, temp: Option<Data>, chunks: set<nat>)
    requires job.Valid()
  {
    forall i :: i in chunks ==> Exact(job, temp, i)
  }

  function Length(temp: Option<Data>): nat { if temp.Some? then |temp.value| else 0 }

  /** A write opens the file, creating it when needed. */
  function Written(temp: Option<Data>, from: nat, data: Data): Option<Data> {
    Some(WriteAt(if temp.Some? then temp.value else [], from, data))
  }

  lemma WriteKeepsRange(src: Data, temp: Option<Data>, from: nat, to: nat, a: nat, b: nat)
    requires from <= to <= |src| && a <= b <= |src| && Has(src, temp, a, b)
    ensures Has(src, Written(temp, from, src[from..to]), a, b)
  { }

  lemma WriteOwnRange(src: Data, file: Data, from: nat, to: nat)
    requires from <= to <= |src|
    ensures Has(src, Some(WriteAt(file, from, src[from..to])), from, to)
  {
    var data := src[from..to];
    var w := WriteAt(file, from, data);
    forall p | from <= p < to ensures p < |w| && w[p] == src[p] { assert data[p - from] == src[p]; }
    hide WriteAt;
  }

  /** Writing source bytes where they belong makes that range right, and never makes the file
      longer than the source. */
  lemma WriteHelps(src: Data, temp: Option<Data>, from: nat, to: nat)
    requires from <= to <= |src|
    ensures var t1 := Written(temp, from, src[from..to]);
            && Has(src, t1, from, to)
            && |t1.value| <= Max(if temp.Some? then |temp.value| else 0, |src|)
  {
    hide Has, WriteAt;
    WriteOwnRange(src, if temp.Some? then temp.value else [], from, to);
  }

  // ----- who sends which chunk -----

  function WifiOwns(i: nat, stride: nat): bool { i % Max(stride, 2) == 1 }

  predicate Owns(lane: Lane, i: nat, stride: nat) {
    match lane case Adb => !WifiOwns(i, stride) case Wifi => WifiOwns(i, stride)
  }

  /** Each chunk has one owner, and both lanes own some of any two neighbours at the start. */
  lemma OneOwner(i: nat, stride: nat)
    ensures Owns(Adb, i, stride) <==> !Owns(Wifi, i, stride)
    ensures Owns(Adb, 0, stride) && Owns(Wifi, 1, stride)
  { }

  /** The Wi-Fi lane owns the second of every `stride` chunks, or of every two when that is fewer. */
  lemma WifiShare(q: nat, r: nat, stride: nat)
    requires stride >= 2 && r < stride
    ensures Owns(Wifi, q * stride + r, stride) <==> r == 1
    ensures stride == 2 ==> (Owns(Wifi, q * 2 + r, 1) <==> r == 1) && (Owns(Wifi, q * 2 + r, 0) <==> r == 1)
  {
    CoversIff(stride, q, q * stride + r);
  }

  // ----- one attempt -----

  datatype Plan = Plan(stride: nat, batch: nat, completed: set<nat>)

  datatype AdbPc = AtChunk(i: nat) | ToRecord(j: nat) | AdbDone | AdbFailed

  /** `next` is where the scan goes on after the flush. */
  datatype WifiPc =
    | Scan(i: nat)
    | Batch(frame: nat, next: nat)
    | Fallback(m: nat, next: nat)
    | Commit(r: nat, next: nat)
    | WifiDone
    | WifiFailed

  /** `trusted` are the chunks that were taken as written for the length of the file alone, and
      have not been written since. */
  datatype State = State(
    temp: Option<Data>, final: Option<Data>,
    acked: set<nat>, recorded: set<nat>, trusted: set<nat>, paused: bool,
    adb: AdbPc, wifi: WifiPc, pending: seq<nat>)
  {
    function Content(): Held { Held(temp, trusted) }
  }

  /** The temporary file, and the chunks in it that are only believed to be there. */
  datatype Held = Held(temp: Option<Data>, trusted: set<nat>)

  /** How a call to the phone turns out: done, failed, or, for a chunk pushed again on its own,
      confirmed by its acknowledgement or by the length of the file. */
  datatype Luck = Good | Bad | ByAck | ByLength

  datatype Action =
    | AdbTurn(adbLuck: Luck)
    | WifiTurn(wifiLuck: Luck)
    | PauseRequest
    | Late(chunk: nat, length: nat)

  function SendChunk(job: Job, s: State, i: nat): State
    requires job.Valid() && i < job.Total()
  {
    Ranges(job, i);
    s.(temp := Written(s.temp, job.From(i), job.src[job.From(i)..job.To(i)]), trusted := s.trusted - {i})
  }

  /** An error on either lane also stops the other at its next chunk. */
  function AdbStep(job: Job, plan: Plan, s: State, luck: Luck): State
    requires job.Valid()
  {
    match s.adb
    case AtChunk(i) =>
      if i >= job.Total() then s.(adb := AdbDone)
      else if !Owns(Adb, i, plan.stride) then s.(adb := AtChunk(i + 1))
      else if s.paused then s.(adb := AdbFailed)
      else if i in plan.completed then s.(adb := AtChunk(i + 1))
      else if luck == Good then SendChunk(job, s, i).(adb := ToRecord(i))
      else s.(adb := AdbFailed, paused := true)
    case ToRecord(i) =>
      s.(adb := AtChunk(i + 1), recorded := if luck == Good then s.recorded + {i} else s.recorded)
    case AdbDone => s
    case AdbFailed => s
  }

  function Readable(s: State): Option<Data> { if s.final.Some? then s.final else s.temp }

  function AfterFlush(job: Job, s: State, next: nat): State {
    s.(pending := [], wifi := if next >= job.Total() then WifiDone else Scan(next))
  }

  function WifiScan(job: Job, plan: Plan, s: State, i: nat): State {
    if i >= job.Total() then s.(wifi := if s.pending == [] then WifiDone else Batch(0, i))
    else if !Owns(Wifi, i, plan.stride) then s.(wifi := Scan(i + 1))
    else if s.paused then s.(wifi := WifiFailed)
    else if i in plan.completed then s.(wifi := Scan(i + 1))
    else
      var pending := s.pending + [i];
      s.(pending := pending, wifi := if |pending| >= plan.batch then Batch(0, i + 1) else Scan(i + 1))
  }

  /** One frame of a batch at a time; a batch that fails anywhere, or whose answer is lost, is
      sent again chunk by chunk. */
  function WifiBatch(job: Job, s: State, frame: nat, next: nat, luck: Luck): State
    requires job.Valid() && forall k :: 0 <= k < |s.pending| ==> s.pending[k] < job.Total()
  {
    if luck != Good then s.(wifi := Fallback(0, next))
    else if frame >= |s.pending| then s.(wifi := Commit(0, next))
    else
      var i := s.pending[frame];
      SendChunk(job, s, i).(acked := s.acked + {i}, wifi := Batch(frame + 1, next))
  }

  function WifiFallback(job: Job, s: State, m: nat, next: nat, luck: Luck): State
    requires job.Valid() && forall k :: 0 <= k < |s.pending| ==> s.pending[k] < job.Total()
  {
    if m >= |s.pending| then s.(wifi := Commit(0, next))
    else
      var i := s.pending[m];
      if luck == Good then SendChunk(job, s, i).(acked := s.acked + {i}, wifi := Fallback(m + 1, next))
      else if luck == ByAck && i in s.acked then s.(wifi := Fallback(m + 1, next))
      else if luck == ByLength && Readable(s).Some? && |Readable(s).value| >= job.To(i) then
        s.(trusted := s.trusted + {i}, wifi := Fallback(m + 1, next))
      else s.(wifi := WifiFailed, paused := true)
  }

  function WifiStep(job: Job, plan: Plan, s: State, luck: Luck): State
    requires job.Valid() && forall k :: 0 <= k < |s.pending| ==> s.pending[k] < job.Total()
  {
    match s.wifi
    case Scan(i) => WifiScan(job, plan, s, i)
    case Batch(frame, next) => WifiBatch(job, s, frame, next, luck)
    case Fallback(m, next) => WifiFallback(job, s, m, next, luck)
    case Commit(r, next) =>
      if r >= |s.pending| then AfterFlush(job, s, next)
      else s.(wifi := Commit(r + 1, next),
              recorded := if luck == Good then s.recorded + {s.pending[r]} else s.recorded)
    case WifiDone => s
    case WifiFailed => s
  }

  /** The first bytes of a chunk, written late. */
  function Carried(job: Job, temp: Option<Data>, i: nat, length: nat): Option<Data>
    requires job.Valid() && i < job.Total()
  {
    Ranges(job, i);
    Written(temp, job.From(i), job.src[job.From(i)..Min(job.From(i) + length, job.To(i))])
  }

  /** `Late` is a request that was given up and is still carried out, wholly or in part: the half
      written chunk of a failed call is one. */
  function Step(job: Job, plan: Plan, s: State, a: Action): State
    requires job.Valid() && forall k :: 0 <= k < |s.pending| ==> s.pending[k] < job.Total()
  {
    match a
    case AdbTurn(luck) => AdbStep(job, plan, s, luck)
    case WifiTurn(luck) => WifiStep(job, plan, s, luck)
    case PauseRequest => s.(paused := true)
    case Late(i, length) =>
      if i >= job.Total() then s else s.(temp := Carried(job, s.temp, i, length))
  }

  predicate PendingOk(job: Job, s: State) {
    forall k :: 0 <= k < |s.pending| ==> s.pending[k] < job.Total()
  }

  lemma PendingStays(job: Job, plan: Plan, s: State, a: Action)
    requires job.Valid() && PendingOk(job, s)
    ensures PendingOk(job, Step(job, plan, s, a))
  { }

  function Run(job: Job, plan: Plan, s: State, actions: seq<Action>): (r: State)
    requires job.Valid() && PendingOk(job, s)
    ensures PendingOk(job, r)
    decreases actions
  {
    if actions == [] then s
    else
      PendingStays(job, plan, s, actions[0]);
      Run(job, plan, Step(job, plan, s, actions[0]), actions[1..])
  }

  // ----- what every step keeps -----

  /** The chunk's bytes are there, or it is one of those taken on trust. */
  ghost predicate Sure(job: Job, h: Held, i: nat)
    requires job.Valid()
  {
    Exact(job, h.temp, i) || i in h.trusted
  }

  ghost predicate AllSure(job: Job, h: Held, chunks: set<nat>)
    requires job.Valid()
  {
    forall i :: i in chunks ==> Sure(job, h, i)
  }

  /** Everything the lane owns below `upTo` is right, or taken on trust, or waits in `pending`. */
  ghost predicate Swept(job: Job, plan: Plan, h: Held, lane: Lane, upTo: nat, pending: seq<nat>)
    requires job.Valid()
  {
    forall i: nat :: i < upTo && i < job.Total() && Owns(lane, i, plan.stride) ==> Sure(job, h, i) || i in pending
  }

  ghost predicate SentFirst(job: Job, h: Held, pending: seq<nat>, n: nat)
    requires job.Valid()
  {
    forall k :: 0 <= k < n && k < |pending| ==> Sure(job, h, pending[k])
  }

  ghost predicate AdbOk(job: Job, plan: Plan, s: State)
    requires job.Valid()
  {
    match s.adb
    case AtChunk(i) => Swept(job, plan, s.Content(), Adb, i, [])
    case ToRecord(i) => Sure(job, s.Content(), i) && Swept(job, plan, s.Content(), Adb, i + 1, [])
    case AdbDone => Swept(job, plan, s.Content(), Adb, job.Total(), [])
    case AdbFailed => true
  }

  ghost predicate WifiOk(job: Job, plan: Plan, s: State)
    requires job.Valid()
  {
    match s.wifi
    case Scan(i) => Swept(job, plan, s.Content(), Wifi, i, s.pending)
    case Batch(frame, next) =>
      Swept(job, plan, s.Content(), Wifi, next, s.pending) && SentFirst(job, s.Content(), s.pending, frame)
    case Fallback(m, next) =>
      Swept(job, plan, s.Content(), Wifi, next, s.pending) && SentFirst(job, s.Content(), s.pending, m)
    case Commit(r, next) =>
      Swept(job, plan, s.Content(), Wifi, next, s.pending) && SentFirst(job, s.Content(), s.pending, |s.pending|)
    case WifiDone => Swept(job, plan, s.Content(), Wifi, job.Total(), [])
    case WifiFailed => true
  }

  /** What is recorded, acknowledged or was completed before is in the file or taken on trust; each
      lane is right about what it has sent; and the file is no longer than `bound`. */
  ghost predicate Inv(job: Job, plan: Plan, s: State, bound: nat) {
    && job.Valid() && PendingOk(job, s)
    && AllSure(job, s.Content(), plan.completed)
    && AllSure(job, s.Content(), s.recorded)
    && AllSure(job, s.Content(), s.acked)
    && AdbOk(job, plan, s) && WifiOk(job, plan, s)
    && (s.temp.Some? ==> |s.temp.value| <= bound)
  }

  /** A file that is sure of all the chunks another one is sure of. */
  ghost predicate AtLeastAs(job: Job, before: Held, after: Held)
    requires job.Valid()
  {
    forall i :: Sure(job, before, i) ==> Sure(job, after, i)
  }

  lemma SendHelps(job: Job, temp: Option<Data>, i: nat, length: nat)
    requires job.Valid() && i < job.Total()
    ensures var t1 := Carried(job, temp, i, length);
            && (forall j :: Exact(job, temp, j) ==> Exact(job, t1, j))
            && |t1.value| <= Max(if temp.Some? then |temp.value| else 0, |job.src|)
            && (job.From(i) + length >= job.To(i) ==> Exact(job, t1, i))
  {
    Ranges(job, i);
    var from, to := job.From(i), Min(job.From(i) + length, job.To(i));
    WriteHelps(job.src, temp, from, to);
    forall j | Exact(job, temp, j) ensures Exact(job, Carried(job, temp, i, length), j) {
      Ranges(job, j);
      WriteKeepsRange(job.src, temp, from, to, job.From(j), job.To(j));
    }
    hide Has, Written, ChunkLengthFor;
  }

  lemma SendChunkHelps(job: Job, s: State, i: nat)
    requires job.Valid() && i < job.Total()
    ensures var s1 := SendChunk(job, s, i);
            && AtLeastAs(job, s.Content(), s1.Content()) && Exact(job, s1.temp, i)
            && |s1.temp.value| <= Max(if s.temp.Some? then |s.temp.value| else 0, |job.src|)
  {
    Ranges(job, i);
    SendHelps(job, s.temp, i, |job.src|);
    assert SendChunk(job, s, i).temp == Carried(job, s.temp, i, |job.src|);
    hide Exact, Carried, ChunkLengthFor;
  }

  lemma AllStay(job: Job, before: Held, after: Held, chunks: set<nat>)
    requires job.Valid() && AtLeastAs(job, before, after) && AllSure(job, before, chunks)
    ensures AllSure(job, after, chunks)
  { }

  lemma SweptStays(job: Job, plan: Plan, before: Held, after: Held, lane: Lane, upTo: nat, pending: seq<nat>)
    requires job.Valid() && AtLeastAs(job, before, after) && Swept(job, plan, before, lane, upTo, pending)
    ensures Swept(job, plan, after, lane, upTo, pending)
  { }

  lemma SentStays(job: Job, before: Held, after: Held, pending: seq<nat>, n: nat)
    requires job.Valid() && AtLeastAs(job, before, after) && SentFirst(job, before, pending, n)
    ensures SentFirst(job, after, pending, n)
  { }

  /** The state with another file in its place. */
  function Holding(s: State, h: Held): State { s.(temp := h.temp, trusted := h.trusted) }

  /** A write by anyone leaves everything that was established as it was. */
  lemma OthersStay(job: Job, plan: Plan, s: State, h: Held, bound: nat)
    requires Inv(job, plan, s, bound) && AtLeastAs(job, s.Content(), h)
    requires h.temp.Some? ==> |h.temp.value| <= bound
    ensures Inv(job, plan, Holding(s, h), bound)
  {
    hide AllSure, Swept, SentFirst, Exact, Sure, AtLeastAs;
    var s1 := Holding(s, h);
    assert s1.Content() == h;
    AllStay(job, s.Content(), h, plan.completed);
    AllStay(job, s.Content(), h, s.recorded);
    AllStay(job, s.Content(), h, s.acked);
    match s.adb {
      case AtChunk(i) => SweptStays(job, plan, s.Content(), h, Adb, i, []);
      case ToRecord(i) => SweptStays(job, plan, s.Content(), h, Adb, i + 1, []); SureStays(job, s.Content(), h, i);
      case AdbDone => SweptStays(job, plan, s.Content(), h, Adb, job.Total(), []);
      case AdbFailed =>
    }
    WifiStays(job, plan, s, h);
  }

  lemma SureStays(job: Job, before: Held, after: Held, i: nat)
    requires job.Valid() && AtLeastAs(job, before, after) && Sure(job, before, i)
    ensures Sure(job, after, i)
  { }

  lemma WifiStays(job: Job, plan: Plan, s: State, h: Held)
    requires job.Valid() && WifiOk(job, plan, s) && AtLeastAs(job, s.Content(), h)
    ensures WifiOk(job, plan, Holding(s, h))
  {
    hide Swept, SentFirst, Exact, Sure, AtLeastAs;
    assert Holding(s, h).Content() == h;
    match s.wifi {
      case Scan(i) => SweptStays(job, plan, s.Content(), h, Wifi, i, s.pending);
      case Batch(frame, next) =>
        SweptStays(job, plan, s.Content(), h, Wifi, next, s.pending);
        SentStays(job, s.Content(), h, s.pending, frame);
      case Fallback(m, next) =>
        SweptStays(job, plan, s.Content(), h, Wifi, next, s.pending);
        SentStays(job, s.Content(), h, s.pending, m);
      case Commit(r, next) =>
        SweptStays(job, plan, s.Content(), h, Wifi, next, s.pending);
        SentStays(job, s.Content(), h, s.pending, |s.pending|);
      case WifiDone => SweptStays(job, plan, s.Content(), h, Wifi, job.Total(), []);
      case WifiFailed =>
    }
  }

  lemma LateKeeps(job: Job, plan: Plan, s: State, i: nat, length: nat, bound: nat)
    requires Inv(job, plan, s, bound) && |job.src| <= bound
    ensures Inv(job, plan, Step(job, plan, s, Late(i, length)), bound)
  {
    if i < job.Total() {
      hide Inv, Exact, Carried;
      var h := Held(Carried(job, s.temp, i, length), s.trusted);
      SendHelps(job, s.temp, i, length);
      assert AtLeastAs(job, s.Content(), h);
      OthersStay(job, plan, s, h, bound);
    }
  }

  lemma SweepOne(job: Job, plan: Plan, h: Held, lane: Lane, i: nat, pending: seq<nat>)
    requires job.Valid() && Swept(job, plan, h, lane, i, pending)
    requires i >= job.Total() || !Owns(lane, i, plan.stride) || Sure(job, h, i) || i in pending
    ensures Swept(job, plan, h, lane, i + 1, pending)
  { }

  lemma AdbKeeps(job: Job, plan: Plan, s: State, luck: Luck, bound: nat)
    requires Inv(job, plan, s, bound) && |job.src| <= bound
    ensures Inv(job, plan, AdbStep(job, plan, s, luck), bound)
  {
    match s.adb
    case AtChunk(i) =>
      if i < job.Total() && Owns(Adb, i, plan.stride) && !s.paused && i !in plan.completed && luck == Good {
        SendChunkHelps(job, s, i);
        OthersStay(job, plan, s, SendChunk(job, s, i).Content(), bound);
        SweepOne(job, plan, SendChunk(job, s, i).Content(), Adb, i, []);
      } else {
        AdbPasses(job, plan, s, luck, i, bound);
      }
    case ToRecord(i) =>
    case AdbDone =>
    case AdbFailed =>
  }

  lemma AdbPasses(job: Job, plan: Plan, s: State, luck: Luck, i: nat, bound: nat)
    requires Inv(job, plan, s, bound) && s.adb == AtChunk(i)
    requires !(i < job.Total() && Owns(Adb, i, plan.stride) && !s.paused && i !in plan.completed && luck == Good)
    ensures Inv(job, plan, AdbStep(job, plan, s, luck), bound)
  {
    if i in plan.completed || !Owns(Adb, i, plan.stride) { SweepOne(job, plan, s.Content(), Adb, i, []); }
  }

  lemma SweptGrows(job: Job, plan: Plan, h: Held, upTo: nat, pending: seq<nat>)
    requires job.Valid() && Swept(job, plan, h, Wifi, upTo, pending)
    ensures Swept(job, plan, h, Wifi, upTo + 1, pending + [upTo])
  { }

  lemma SweptFlushed(job: Job, plan: Plan, h: Held, upTo: nat, pending: seq<nat>)
    requires job.Valid() && Swept(job, plan, h, Wifi, upTo, pending) && SentFirst(job, h, pending, |pending|)
    ensures Swept(job, plan, h, Wifi, upTo, [])
    ensures upTo >= job.Total() ==> Swept(job, plan, h, Wifi, job.Total(), [])
  { }

  lemma ScanKeeps(job: Job, plan: Plan, s: State, i: nat, bound: nat)
    requires Inv(job, plan, s, bound) && s.wifi == Scan(i)
    ensures Inv(job, plan, WifiScan(job, plan, s, i), bound)
  {
    if i >= job.Total() {
      if s.pending == [] { SweptFlushed(job, plan, s.Content(), i, s.pending); }
    } else if !Owns(Wifi, i, plan.stride) || i in plan.completed {
      SweepOne(job, plan, s.Content(), Wifi, i, s.pending);
    } else {
      SweptGrows(job, plan, s.Content(), i, s.pending);
    }
    hide Swept, Exact, AdbOk;
  }

  lemma SentOneMore(job: Job, before: Held, after: Held, pending: seq<nat>, n: nat)
    requires job.Valid() && AtLeastAs(job, before, after) && SentFirst(job, before, pending, n)
    requires n < |pending| && Sure(job, after, pending[n])
    ensures SentFirst(job, after, pending, n + 1)
  { }

  /** Sending the next pending chunk, in a batch or on its own, and having it acknowledged. */
  lemma SendNext(job: Job, plan: Plan, s: State, n: nat, next: nat, pc: WifiPc, bound: nat)
    requires Inv(job, plan, s, bound) && |job.src| <= bound && n < |s.pending|
    requires
      || (s.wifi == Batch(n, next) && pc == Batch(n + 1, next))
      || (s.wifi == Fallback(n, next) && pc == Fallback(n + 1, next))
    ensures Inv(job, plan, SendChunk(job, s, s.pending[n]).(acked := s.acked + {s.pending[n]}, wifi := pc), bound)
  {
    var i := s.pending[n];
    SendChunkHelps(job, s, i);
    var h := SendChunk(job, s, i).Content();
    OthersStay(job, plan, s, h, bound);
    SentOneMore(job, s.Content(), h, s.pending, n);
    hide Swept, SentFirst, Exact, AdbOk, SendChunk, AtLeastAs;
  }

  /** Taking a pending chunk on trust. */
  lemma TrustNext(job: Job, plan: Plan, s: State, m: nat, next: nat, bound: nat)
    requires Inv(job, plan, s, bound) && s.wifi == Fallback(m, next) && m < |s.pending|
    ensures Inv(job, plan, s.(trusted := s.trusted + {s.pending[m]}, wifi := Fallback(m + 1, next)), bound)
  {
    var h := Held(s.temp, s.trusted + {s.pending[m]});
    OthersStay(job, plan, s, h, bound);
    SentOneMore(job, s.Content(), h, s.pending, m);
    hide Swept, SentFirst, Exact, AdbOk, AtLeastAs;
  }

  lemma FallbackKeeps(job: Job, plan: Plan, s: State, m: nat, next: nat, luck: Luck, bound: nat)
    requires Inv(job, plan, s, bound) && |job.src| <= bound && s.wifi == Fallback(m, next)
    ensures Inv(job, plan, WifiFallback(job, s, m, next, luck), bound)
  {
    if m < |s.pending| {
      if luck == Good {
        SendNext(job, plan, s, m, next, Fallback(m + 1, next), bound);
      } else if luck == ByAck && s.pending[m] in s.acked {
        SentOneMore(job, s.Content(), s.Content(), s.pending, m);
      } else if luck == ByLength {
        TrustNext(job, plan, s, m, next, bound);
      }
    }
    hide Swept, AdbOk, SendChunk, Exact;
  }

  lemma BatchKeeps(job: Job, plan: Plan, s: State, frame: nat, next: nat, luck: Luck, bound: nat)
    requires Inv(job, plan, s, bound) && |job.src| <= bound && s.wifi == Batch(frame, next)
    ensures Inv(job, plan, WifiBatch(job, s, frame, next, luck), bound)
  {
    if luck == Good && frame < |s.pending| { SendNext(job, plan, s, frame, next, Batch(frame + 1, next), bound); }
    hide Swept, AdbOk, SendChunk, Exact;
  }

  lemma CommitKeeps(job: Job, plan: Plan, s: State, r: nat, next: nat, luck: Luck, bound: nat)
    requires Inv(job, plan, s, bound) && s.wifi == Commit(r, next)
    ensures Inv(job, plan, WifiStep(job, plan, s, luck), bound)
  {
    SweptFlushed(job, plan, s.Content(), next, s.pending);
    hide Swept, AdbOk;
  }

  lemma WifiKeeps(job: Job, plan: Plan, s: State, luck: Luck, bound: nat)
    requires Inv(job, plan, s, bound) && |job.src| <= bound
    ensures Inv(job, plan, WifiStep(job, plan, s, luck), bound)
  {
    match s.wifi
    case Scan(i) => ScanKeeps(job, plan, s, i, bound);
    case Batch(frame, next) => BatchKeeps(job, plan, s, frame, next, luck, bound);
    case Fallback(m, next) => FallbackKeeps(job, plan, s, m, next, luck, bound);
    case Commit(r, next) => CommitKeeps(job, plan, s, r, next, luck, bound);
    case WifiDone =>
    case WifiFailed =>
  }

  /** It is the turn of a lane that has this chunk to record. */
  predicate AtRecord(s: State, a: Action, i: nat) {
    || (a.AdbTurn? && s.adb == ToRecord(i))
    || (a.WifiTurn? && s.wifi.Commit? && s.wifi.r < |s.pending| && s.pending[s.wifi.r] == i)
  }

  predicate Succeeds(a: Action) { a == AdbTurn(Good) || a == WifiTurn(Good) }

  lemma StepRecords(job: Job, plan: Plan, s: State, a: Action, i: nat)
    requires job.Valid() && PendingOk(job, s)
    ensures i in Step(job, plan, s, a).recorded <==> i in s.recorded || (AtRecord(s, a, i) && Succeeds(a))
  {
    hide ChunkLengthFor, Owns, Written;
  }

  /** Every step keeps what is established, and records exactly the chunk whose record call succeeds in
      it. */
  lemma StepKeeps(job: Job, plan: Plan, s: State, a: Action, bound: nat)
    requires Inv(job, plan, s, bound) && |job.src| <= bound
    ensures Inv(job, plan, Step(job, plan, s, a), bound)
    ensures forall i: nat :: i in Step(job, plan, s, a).recorded <==>
      i in s.recorded || (AtRecord(s, a, i) && Succeeds(a))
  {
    assert PendingOk(job, s);
    forall i: nat
      ensures i in Step(job, plan, s, a).recorded <==> i in s.recorded || (AtRecord(s, a, i) && Succeeds(a))
    {
      StepRecords(job, plan, s, a, i);
    }
    hide AdbStep, WifiStep;
    match a
    case AdbTurn(luck) => AdbKeeps(job, plan, s, luck, bound);
    case WifiTurn(luck) => WifiKeeps(job, plan, s, luck, bound);
    case PauseRequest =>
    case Late(i, length) => LateKeeps(job, plan, s, i, length, bound);
  }

  lemma {:induction false} RunKeeps(job: Job, plan: Plan, s: State, actions: seq<Action>, bound: nat)
    requires Inv(job, plan, s, bound) && |job.src| <= bound
    ensures Inv(job, plan, Run(job, plan, s, actions), bound)
    decreases actions
  {
    if actions != [] {
      StepKeeps(job, plan, s, actions[0], bound);
      hide Inv, Step;
      RunKeeps(job, plan, Step(job, plan, s, actions[0]), actions[1..], bound);
    }
  }

  // ----- starting an attempt -----

  /** The chunks whose bytes are read back before the others are trusted: the first and last of
      all, the first and last each lane would own, and the last two. */
  predicate Guard(chunks: set<nat>, stride: nat, i: nat) {
    || (forall j :: j in chunks ==> i <= j)
    || (forall j :: j in chunks && WifiOwns(j, stride) == WifiOwns(i, stride) ==> i <= j)
    || (forall j :: j in chunks && WifiOwns(j, stride) == WifiOwns(i, stride) ==> j <= i)
    || |set j | j in chunks && j > i| < 2
  }

  /** The chunk reads back equal. */
  predicate ReadsBack(job: Job, file: Option<Data>, i: nat)
    requires job.Valid()
  {
    i < job.Total() && file.Some? &&
      (Ranges(job, i); job.To(i) <= |file.value| &&
        file.value[job.From(i)..job.To(i)] == job.src[job.From(i)..job.To(i)])
  }

  lemma ReadsBackIff(job: Job, file: Option<Data>, i: nat)
    requires job.Valid()
    ensures ReadsBack(job, file, i) <==> Exact(job, file, i)
  {
    hide ChunkLengthFor;
    if i < job.Total() {
      Ranges(job, i);
      var from, to := job.From(i), job.To(i);
      if ReadsBack(job, file, i) {
        forall p | from <= p < to ensures file.value[p] == job.src[p] {
          assert file.value[from..to][p - from] == job.src[from..to][p - from];
        }
      }
    }
  }

  function InRange(completed: set<nat>, total: nat): set<nat> { set i | i in completed && i < total }

  predicate GuardsPass(job: Job, chunks: set<nat>, stride: nat, file: Option<Data>)
    requires job.Valid()
  {
    forall i :: i in chunks && Guard(chunks, stride, i) ==> ReadsBack(job, file, i)
  }

  /** What is not sent again. The guards are read back from the phone; when one of them does not
      read back equal, every chunk is checked. */
  function PrepareResume(job: Job, completed: set<nat>, stride: nat, file: Option<Data>): (r: set<nat>)
    requires job.Valid()
    ensures r <= completed && forall i :: i in r ==> i < job.Total()
  {
    var chunks := InRange(completed, job.Total());
    if GuardsPass(job, chunks, stride, file) then chunks else set i | i in chunks && ReadsBack(job, file, i)
  }

  /** A guard that is not there makes the check complete. */
  lemma GuardNotices(job: Job, completed: set<nat>, stride: nat, file: Option<Data>)
    requires job.Valid()
    ensures var chunks := InRange(completed, job.Total());
            (exists i :: i in chunks && Guard(chunks, stride, i) && !Exact(job, file, i)) ==>
              AllExact(job, file, PrepareResume(job, completed, stride, file))
  {
    hide Guard, Exact, ReadsBack;
    forall i ensures ReadsBack(job, file, i) <==> Exact(job, file, i) { ReadsBackIff(job, file, i); }
  }

  /** What is not sent again is there, whatever happened to the file. */
  ghost predicate ResumeSafe(job: Job, completed: set<nat>, stride: nat)
    requires job.Valid()
  {
    forall file :: AllExact(job, file, PrepareResume(job, completed, stride, file))
  }

  function OtherByte(b: Byte): (c: Byte)
    ensures c != b
  {
    if b == 0 then 1 else 0
  }

  /** The source with every byte of one chunk changed. */
  function Spoiled(job: Job, i: nat): (d: Data)
    requires job.Valid() && i < job.Total()
    ensures |d| == |job.src|
    ensures forall p :: 0 <= p < |d| ==> (d[p] == job.src[p] <==> !(job.From(i) <= p < job.To(i)))
  {
    seq(|job.src|, p requires 0 <= p < |job.src| =>
      if job.From(i) <= p < job.To(i) then OtherByte(job.src[p]) else job.src[p])
  }

  lemma InTurn(job: Job, i: nat, j: nat)
    requires job.Valid() && i < j
    ensures job.To(i) <= job.From(j)
  {
    MulMono(i, j, job.chunkSize);
  }

  lemma Apart(job: Job, i: nat, j: nat)
    requires job.Valid() && i != j
    ensures job.To(i) <= job.From(j) || job.To(j) <= job.From(i)
  {
    if i < j { InTurn(job, i, j); } else { InTurn(job, j, i); }
  }

  lemma SpoiledIsExact(job: Job, i: nat, j: nat)
    requires job.Valid() && i < job.Total() && j < job.Total()
    ensures Exact(job, Some(Spoiled(job, i)), j) <==> i != j
  {
    hide ChunkLengthFor, Spoiled;
    Ranges(job, i);
    Ranges(job, j);
    if i != j {
      Apart(job, i, j);
    } else {
      assert Spoiled(job, i)[job.From(i)] != job.src[job.From(i)];
    }
  }

  /** A chunk that is no guard can be wrong unnoticed: all else being right, it is not sent again. */
  lemma NoGuardIsFooled(job: Job, completed: set<nat>, stride: nat, i: nat)
    requires job.Valid() && i in InRange(completed, job.Total()) && !Guard(InRange(completed, job.Total()), stride, i)
    ensures var file := Some(Spoiled(job, i));
            i in PrepareResume(job, completed, stride, file) && !Exact(job, file, i)
  {
    hide Guard, Exact, ReadsBack, Spoiled;
    var file := Some(Spoiled(job, i));
    forall j | j in InRange(completed, job.Total()) ensures ReadsBack(job, file, j) <==> i != j {
      ReadsBackIff(job, file, j);
      SpoiledIsExact(job, i, j);
    }
    SpoiledIsExact(job, i, i);
  }

  /** The quick check is safe for every file exactly when every remembered chunk is a guard. */
  lemma ResumeSafeIff(job: Job, completed: set<nat>, stride: nat)
    requires job.Valid()
    ensures var chunks := InRange(completed, job.Total());
            ResumeSafe(job, completed, stride) <==> forall i :: i in chunks ==> Guard(chunks, stride, i)
  {
    hide Guard, Exact, ReadsBack, PrepareResume, Spoiled;
    var chunks := InRange(completed, job.Total());
    if forall i :: i in chunks ==> Guard(chunks, stride, i) {
      forall file ensures AllExact(job, file, PrepareResume(job, completed, stride, file)) {
        GuardNotices(job, completed, stride, file);
      }
    } else {
      var i :| i in chunks && !Guard(chunks, stride, i);
      NoGuardIsFooled(job, completed, stride, i);
    }
  }

  // ----- how many guards there are -----

  predicate Smallest(chunks: set<nat>, i: nat) { i in chunks && forall j :: j in chunks ==> i <= j }

  predicate Largest(chunks: set<nat>, i: nat) { i in chunks && forall j :: j in chunks ==> j <= i }

  function OfLane(chunks: set<nat>, stride: nat, wifi: bool): set<nat> {
    set j | j in chunks && WifiOwns(j, stride) == wifi
  }

  /** At most one chunk is the smallest, the largest, or the last but one. */
  function TheSmallest(chunks: set<nat>): (r: set<nat>)
    ensures |r| <= 1 && forall i :: i in r <==> Smallest(chunks, i)
  {
    AtMostOne(set i | i in chunks && Smallest(chunks, i));
    set i | i in chunks && Smallest(chunks, i)
  }

  function TheLargest(chunks: set<nat>): (r: set<nat>)
    ensures |r| <= 1 && forall i :: i in r <==> Largest(chunks, i)
  {
    AtMostOne(set i | i in chunks && Largest(chunks, i));
    set i | i in chunks && Largest(chunks, i)
  }

  lemma AtMostOne(r: set<nat>)
    requires forall i, j :: i in r && j in r ==> i == j
    ensures |r| <= 1
  {
    if r != {} {
      var x :| x in r;
      assert r == {x};
    }
  }

  /** Those that could be guards, lane by lane. */
  function Candidates(chunks: set<nat>, stride: nat): set<nat> {
    var adb, wifi := OfLane(chunks, stride, false), OfLane(chunks, stride, true);
    TheSmallest(adb) + TheSmallest(wifi) + TheLargest(adb) + TheLargest(wifi) + TheLargest(chunks - TheLargest(chunks))
  }

  lemma GuardsAreCandidates(chunks: set<nat>, stride: nat, i: nat)
    requires i in chunks && Guard(chunks, stride, i)
    ensures i in Candidates(chunks, stride)
  {
    hide WifiOwns;
    var mine := OfLane(chunks, stride, WifiOwns(i, stride));
    assert i in mine;
    var above := set j | j in chunks && j > i;
    if |above| < 2 && !Largest(chunks, i) {
      var top :| top in chunks && top > i;
      OneAbove(above, top);
      forall j | j in chunks ensures j <= top { assert j > i ==> j in above; }
      assert Largest(chunks, top);
      assert TheLargest(chunks) == {top};
      assert Largest(chunks - TheLargest(chunks), i);
    }
  }

  lemma OneAbove(above: set<nat>, top: nat)
    requires top in above && |above| < 2
    ensures above == {top}
  {
    if x :| x in above && x != top {
      assert {x, top} <= above;
      FewerMembers({x, top}, above);
    }
  }

  lemma {:induction false} FewerMembers(a: set<nat>, b: set<nat>)
    requires a <= b
    ensures |a| <= |b|
    decreases |a|
  {
    if a != {} {
      var x :| x in a;
      FewerMembers(a - {x}, b - {x});
    }
  }

  lemma SumOfFive(a: set<nat>, b: set<nat>, c: set<nat>, d: set<nat>, e: set<nat>)
    requires |a| <= 1 && |b| <= 1 && |c| <= 1 && |d| <= 1 && |e| <= 1
    ensures |a + b + c + d + e| <= 5
  { }

  /** There are never more than five guards, so more than five remembered chunks are never safe for
      every file. */
  lemma FiveGuards(job: Job, completed: set<nat>, stride: nat)
    requires job.Valid()
    ensures var chunks := InRange(completed, job.Total());
            && |set i | i in chunks && Guard(chunks, stride, i)| <= 5
            && (|chunks| > 5 ==> !ResumeSafe(job, completed, stride))
  {
    hide Guard, Candidates, ResumeSafe;
    var chunks := InRange(completed, job.Total());
    var guards := set i | i in chunks && Guard(chunks, stride, i);
    forall i | i in guards ensures i in Candidates(chunks, stride) { GuardsAreCandidates(chunks, stride, i); }
    FewerMembers(guards, Candidates(chunks, stride));
    FiveCandidates(chunks, stride);
    ResumeSafeIff(job, completed, stride);
    if forall i :: i in chunks ==> Guard(chunks, stride, i) { assert guards == chunks; }
  }

  lemma FiveCandidates(chunks: set<nat>, stride: nat)
    ensures |Candidates(chunks, stride)| <= 5
  {
    var adb, wifi := OfLane(chunks, stride, false), OfLane(chunks, stride, true);
    SumOfFive(TheSmallest(adb), TheSmallest(wifi), TheLargest(adb), TheLargest(wifi),
      TheLargest(chunks - TheLargest(chunks)));
  }

  const SEVEN := Job([1, 1, 1, 1, 1, 1, 1], 1)

  /** Seven chunks, all remembered, the third one wrong on the phone: it is not sent again. */
  lemma CheckIsFooled()
    ensures SEVEN.Valid()
    ensures var all, file := {0, 1, 2, 3, 4, 5, 6}, Some([1, 1, 0, 1, 1, 1, 1]);
            2 in PrepareResume(SEVEN, all, 2, file) && !Exact(SEVEN, file, 2)
  {
    hide Guard;
    var all, file := {0, 1, 2, 3, 4, 5, 6}, Some([1, 1, 0, 1, 1, 1, 1]);
    assert SEVEN.Total() == 7;
    forall i | 0 <= i < 7 ensures SEVEN.From(i) == i && SEVEN.To(i) == i + 1 { }
    assert InRange(all, 7) == all;
    forall i | i in all && i != 2 ensures ReadsBack(SEVEN, file, i) {
      ReadsBackIff(SEVEN, file, i);
      assert file.value[i] == SEVEN.src[i];
    }
    TwoIsNoGuard();
    assert file.value[2] != SEVEN.src[2];
  }

  lemma TwoIsNoGuard()
    ensures !Guard({0, 1, 2, 3, 4, 5, 6}, 2, 2)
  {
    var all := {0, 1, 2, 3, 4, 5, 6};
    assert 0 in all && 4 in all;
    assert !WifiOwns(0, 2) && !WifiOwns(2, 2) && !WifiOwns(4, 2);
    var above := set j | j in all && j > 2;
    assert {3, 4} <= above;
    FewerMembers({3, 4}, above);
  }

  lemma LargestIsGuard(chunks: set<nat>, stride: nat, i: nat)
    requires forall j :: j in chunks ==> j <= i
    ensures Guard(chunks, stride, i)
  {
    assert (set j | j in chunks && j > i) == {};
  }

  /** A file that lost its tail is always noticed: when it ends before the last completed chunk
      does, only chunks that are really there are kept. */
  lemma TruncationNoticed(job: Job, completed: set<nat>, stride: nat, file: Option<Data>, last: nat)
    requires job.Valid() && last in completed && last < job.Total()
    requires forall j :: j in completed && j < job.Total() ==> j <= last
    requires Length(file) < job.To(last)
    ensures AllExact(job, file, PrepareResume(job, completed, stride, file))
  {
    hide Guard, ReadsBack, PrepareResume;
    Ranges(job, last);
    LargestIsGuard(InRange(completed, job.Total()), stride, last);
    assert !Exact(job, file, last);
    GuardNotices(job, completed, stride, file);
  }

  /** Between attempts: the phone's files, what the engine remembers as committed, and which of
      that it only believes. */
  datatype World = World(temp: Option<Data>, final: Option<Data>, recorded: set<nat>, trusted: set<nat>)

  /** One attempt: the split, what the engine still remembers of its commits (a crash may have
      lost some), whether removing old files worked, and what happens. */
  datatype Attempt = Attempt(
    stride: nat, batch: nat, remembered: set<nat>,
    tempRemoved: bool, finalRemoved: bool, actions: seq<Action>)

  /** With nothing remembered the old files are removed first; a removal that fails is ignored. */
  function Begin(w: World, a: Attempt): State {
    State(
      if a.remembered == {} && a.tempRemoved then None else w.temp,
      if a.remembered == {} && a.finalRemoved then None else w.final,
      {}, a.remembered, w.trusted * a.remembered, false, AtChunk(0), Scan(0), [])
  }

  function PlanOf(job: Job, w: World, a: Attempt): Plan
    requires job.Valid()
  {
    Plan(a.stride, a.batch, PrepareResume(job, a.remembered, a.stride, Readable(Begin(w, a))))
  }

  /** There is something to read back, and no file to read it from. */
  predicate NothingToRead(job: Job, w: World, a: Attempt)
    requires job.Valid()
  {
    InRange(a.remembered, job.Total()) != {} && Readable(Begin(w, a)).None?
  }

  /** Then the attempt ends with an error before either lane starts. */
  function Start(job: Job, w: World, a: Attempt): State
    requires job.Valid()
  {
    if NothingToRead(job, w, a) then Begin(w, a).(adb := AdbFailed, wifi := WifiFailed) else Begin(w, a)
  }

  function After(job: Job, w: World, a: Attempt): State
    requires job.Valid()
  {
    Run(job, PlanOf(job, w, a), Start(job, w, a), a.actions)
  }

  function WorldOf(s: State): World { World(s.temp, s.final, s.recorded, s.trusted) }

  function History(job: Job, w: World, attempts: seq<Attempt>): World
    requires job.Valid()
    decreases attempts
  {
    if attempts == [] then w else History(job, WorldOf(After(job, w, attempts[0])), attempts[1..])
  }

  /** The engine remembers nothing it did not record. */
  ghost predicate Possible(job: Job, w: World, attempts: seq<Attempt>)
    requires job.Valid()
    decreases attempts
  {
    attempts == [] ||
    (attempts[0].remembered <= w.recorded && Possible(job, WorldOf(After(job, w, attempts[0])), attempts[1..]))
  }

  ghost predicate WorldOk(job: Job, w: World, bound: nat)
    requires job.Valid()
  {
    AllSure(job, Held(w.temp, w.trusted), w.recorded) && (w.temp.Some? ==> |w.temp.value| <= bound)
  }

  lemma BeginOk(job: Job, w: World, a: Attempt, bound: nat)
    requires job.Valid() && WorldOk(job, w, bound) && a.remembered <= w.recorded
    ensures Inv(job, PlanOf(job, w, a), Start(job, w, a), bound)
  {
    hide Exact, Guard, GuardsPass, ReadsBack;
    var s, plan := Begin(w, a), PlanOf(job, w, a);
    forall i | i in a.remembered ensures Sure(job, s.Content(), i) {
      assert Sure(job, Held(w.temp, w.trusted), i);
    }
    assert plan.completed <= a.remembered;
    assert Start(job, w, a).Content() == s.Content();
  }

  lemma AttemptKeeps(job: Job, w: World, a: Attempt, bound: nat)
    requires job.Valid() && WorldOk(job, w, bound) && |job.src| <= bound
    requires a.remembered <= w.recorded
    ensures Inv(job, PlanOf(job, w, a), After(job, w, a), bound)
    ensures WorldOk(job, WorldOf(After(job, w, a)), bound)
  {
    hide Exact, Step, AdbOk, WifiOk, PlanOf;
    BeginOk(job, w, a, bound);
    RunKeeps(job, PlanOf(job, w, a), Start(job, w, a), a.actions, bound);
  }

  lemma {:induction false} HistoryKeeps(job: Job, w: World, attempts: seq<Attempt>, bound: nat)
    requires job.Valid() && WorldOk(job, w, bound) && |job.src| <= bound && Possible(job, w, attempts)
    ensures WorldOk(job, History(job, w, attempts), bound)
    decreases attempts
  {
    hide WorldOk, After;
    if attempts != [] {
      AttemptKeeps(job, w, attempts[0], bound);
      HistoryKeeps(job, WorldOf(After(job, w, attempts[0])), attempts[1..], bound);
    }
  }

  /** No chunk is taken as written for the length of the file alone. */
  predicate Evident(actions: seq<Action>) {
    forall k :: 0 <= k < |actions| ==> actions[k] != WifiTurn(ByLength)
  }

  lemma StepTrusts(job: Job, plan: Plan, s: State, a: Action)
    requires job.Valid() && PendingOk(job, s) && a != WifiTurn(ByLength)
    ensures Step(job, plan, s, a).trusted <= s.trusted
  { }

  /** Only a confirmation by length puts a chunk among the trusted ones. */
  lemma {:induction false} RunTrusts(job: Job, plan: Plan, s: State, actions: seq<Action>)
    requires job.Valid() && PendingOk(job, s) && Evident(actions)
    ensures Run(job, plan, s, actions).trusted <= s.trusted
    decreases actions
  {
    hide Step;
    if actions != [] {
      PendingStays(job, plan, s, actions[0]);
      StepTrusts(job, plan, s, actions[0]);
      RunTrusts(job, plan, Step(job, plan, s, actions[0]), actions[1..]);
    }
  }

  ghost predicate AllThere(job: Job, temp: Option<Data>)
    requires job.Valid()
  {
    forall i: nat :: i < job.Total() ==> Exact(job, temp, i)
  }

  lemma ExactMeansEqual(job: Job, temp: Option<Data>, p: nat)
    requires job.Valid() && p < |job.src| && AllThere(job, temp)
    ensures temp.Some? && p < |temp.value| && temp.value[p] == job.src[p]
  {
    Position(job, p);
    assert Exact(job, temp, p / job.chunkSize);
  }

  /** All chunks are there exactly when the file starts with the source. */
  lemma AllThereIff(job: Job, temp: Option<Data>)
    requires job.Valid()
    ensures AllThere(job, temp) <==> temp.Some? && job.src <= temp.value
  {
    if AllThere(job, temp) {
      hide AllThere;
      ExactMeansEqual(job, temp, |job.src| - 1);
      forall p: nat | p < |job.src| ensures temp.value[p] == job.src[p] { ExactMeansEqual(job, temp, p); }
    }
    if temp.Some? && job.src <= temp.value {
      forall i: nat | i < job.Total() ensures Exact(job, temp, i) { Ranges(job, i); }
    }
  }

  lemma AllOwned(job: Job, plan: Plan, h: Held)
    requires job.Valid()
    requires Swept(job, plan, h, Adb, job.Total(), []) && Swept(job, plan, h, Wifi, job.Total(), [])
    ensures forall i: nat :: i < job.Total() ==> Sure(job, h, i)
  {
    forall i: nat | i < job.Total() ensures Sure(job, h, i) { OneOwner(i, plan.stride); }
  }

  lemma BothDone(job: Job, plan: Plan, s: State, bound: nat)
    requires Inv(job, plan, s, bound) && s.adb == AdbDone && s.wifi == WifiDone
    ensures forall i: nat :: i < job.Total() && i !in s.trusted ==> Exact(job, s.temp, i)
    ensures s.temp.Some? && job.src <= s.temp.value <==> AllExact(job, s.temp, InRange(s.trusted, job.Total()))
  {
    hide Exact, Swept;
    AllOwned(job, plan, s.Content());
    forall i: nat | i < job.Total() && i !in s.trusted ensures Exact(job, s.temp, i) {
      assert Sure(job, s.Content(), i);
    }
    AllThereIff(job, s.temp);
  }

  // ----- the length of the file -----

  predicate Removes(a: Attempt) { a.remembered == {} && a.tempRemoved }

  predicate Cleaned(attempts: seq<Attempt>) { exists k :: 0 <= k < |attempts| && Removes(attempts[k]) }

  lemma StepGrows(job: Job, plan: Plan, s: State, a: Action)
    requires job.Valid() && PendingOk(job, s)
    ensures Length(Step(job, plan, s, a).temp) >= Length(s.temp)
  { }

  lemma {:induction false} RunGrows(job: Job, plan: Plan, s: State, actions: seq<Action>)
    requires job.Valid() && PendingOk(job, s)
    ensures Length(Run(job, plan, s, actions).temp) >= Length(s.temp)
    decreases actions
  {
    if actions != [] {
      StepGrows(job, plan, s, actions[0]);
      PendingStays(job, plan, s, actions[0]);
      hide Step;
      RunGrows(job, plan, Step(job, plan, s, actions[0]), actions[1..]);
    }
  }

  /** Only a removal makes the file shorter. */
  lemma {:induction false} LongStaysLong(job: Job, w: World, attempts: seq<Attempt>)
    requires job.Valid() && !Cleaned(attempts)
    ensures Length(History(job, w, attempts).temp) >= Length(w.temp)
    decreases attempts
  {
    if attempts != [] {
      var a := attempts[0];
      assert !Removes(a);
      RunGrows(job, PlanOf(job, w, a), Start(job, w, a), a.actions);
      forall k | 0 <= k < |attempts[1..]| ensures !Removes(attempts[1..][k]) {
        assert attempts[1..][k] == attempts[k + 1];
      }
      LongStaysLong(job, WorldOf(After(job, w, a)), attempts[1..]);
      hide PlanOf;
    }
  }

  lemma AttemptBound(job: Job, w: World, a: Attempt, bound: nat)
    requires job.Valid() && WorldOk(job, w, bound) && |job.src| <= bound
    requires a.remembered <= w.recorded && Removes(a)
    ensures WorldOk(job, WorldOf(After(job, w, a)), |job.src|)
  {
    var fresh0 := World(None, w.final, {}, {});
    assert Begin(fresh0, a) == Begin(w, a);
    AttemptKeeps(job, fresh0, a, |job.src|);
    hide WorldOk, Run;
  }

  lemma {:induction false} CleanedBound(job: Job, w: World, attempts: seq<Attempt>, bound: nat)
    requires job.Valid() && WorldOk(job, w, bound) && |job.src| <= bound && Possible(job, w, attempts)
    ensures WorldOk(job, History(job, w, attempts), if Cleaned(attempts) then |job.src| else bound)
    decreases attempts
  {
    if attempts != [] {
      var a := attempts[0];
      if Removes(a) {
        AttemptBound(job, w, a, bound);
        HistoryKeeps(job, WorldOf(After(job, w, a)), attempts[1..], |job.src|);
        hide WorldOk, After;
      } else {
        AttemptKeeps(job, w, a, bound);
        CleanedTail(attempts);
        hide WorldOk, After, Cleaned;
        CleanedBound(job, WorldOf(After(job, w, a)), attempts[1..], bound);
      }
    }
  }

  lemma CleanedTail(attempts: seq<Attempt>)
    requires attempts != [] && !Removes(attempts[0])
    ensures Cleaned(attempts) <==> Cleaned(attempts[1..])
  {
    forall k | 0 <= k < |attempts[1..]| ensures attempts[1..][k] == attempts[k + 1] { }
    if Cleaned(attempts) {
      var k :| 0 <= k < |attempts| && Removes(attempts[k]);
      assert attempts[1..][k - 1] == attempts[k];
    }
  }

  // ----- convergence -----

  /** Convergence. Whatever file was left over, after any number of interrupted attempts with any
      splits between the lanes, once both lanes of an attempt end well every chunk is in its place,
      in every interleaving, except those for which the length of the file was taken as proof. So
      the file starts with the source exactly when those are right too, and it is the source
      exactly when, besides, the leftover was no longer than the source or was removed by some
      attempt. */
  lemma Converges(job: Job, start: World, attempts: seq<Attempt>, last: Attempt)
    requires job.Valid() && start.recorded == {}
    requires Possible(job, start, attempts)
    requires last.remembered <= History(job, start, attempts).recorded
    ensures var s := After(job, History(job, start, attempts), last);
            var doubtful := InRange(s.trusted, job.Total());
            s.adb == AdbDone && s.wifi == WifiDone ==>
              && (forall i: nat :: i < job.Total() && i !in doubtful ==> Exact(job, s.temp, i))
              && (s.temp.Some? && job.src <= s.temp.value <==> AllExact(job, s.temp, doubtful))
              && (s.temp == Some(job.src) <==>
                   && AllExact(job, s.temp, doubtful)
                   && (Length(start.temp) <= |job.src| || Cleaned(attempts) || Removes(last)))
  {
    hide After, History, WorldOk, Possible, AllExact, Exact;
    var bound := Max(Length(start.temp), |job.src|);
    var w := History(job, start, attempts);
    StartOk(job, start, bound);
    CleanedBound(job, start, attempts, bound);
    if !Cleaned(attempts) { LongStaysLong(job, start, attempts); }
    LastAttempt(job, w, last, if Cleaned(attempts) then |job.src| else bound);
    SameFileIff(After(job, w, last).temp, job.src);
  }

  lemma SameFileIff(temp: Option<Data>, src: Data)
    ensures temp == Some(src) <==> temp.Some? && src <= temp.value && Length(temp) <= |src|
  {
    if temp.Some? && src <= temp.value && Length(temp) <= |src| { assert temp.value == src; }
  }

  lemma StartOk(job: Job, start: World, bound: nat)
    requires job.Valid() && start.recorded == {} && Length(start.temp) <= bound
    ensures WorldOk(job, start, bound)
  { }

  ghost predicate AllEvident(attempts: seq<Attempt>) {
    forall k :: 0 <= k < |attempts| ==> Evident(attempts[k].actions)
  }

  lemma AttemptTrusts(job: Job, w: World, a: Attempt)
    requires job.Valid() && a.remembered <= w.recorded && w.trusted * w.recorded == {} && Evident(a.actions)
    ensures After(job, w, a).trusted == {}
  {
    hide PlanOf, NothingToRead;
    assert w.trusted * a.remembered == {};
    RunTrusts(job, PlanOf(job, w, a), Start(job, w, a), a.actions);
  }

  lemma {:induction false} HistoryTrusts(job: Job, w: World, attempts: seq<Attempt>)
    requires job.Valid() && Possible(job, w, attempts) && w.trusted * w.recorded == {} && AllEvident(attempts)
    ensures var w1 := History(job, w, attempts); w1.trusted * w1.recorded == {}
    decreases attempts
  {
    hide After, Evident;
    if attempts != [] {
      AttemptTrusts(job, w, attempts[0]);
      forall k | 0 <= k < |attempts[1..]| ensures Evident(attempts[1..][k].actions) {
        assert attempts[1..][k] == attempts[k + 1];
      }
      HistoryTrusts(job, WorldOf(After(job, w, attempts[0])), attempts[1..]);
    }
  }

  /** Without a confirmation by length anywhere nothing is in doubt: once both lanes end well the
      file starts with the source, and it is the source exactly when the leftover allows it. */
  lemma ConvergesPlainly(job: Job, start: World, attempts: seq<Attempt>, last: Attempt)
    requires job.Valid() && start.recorded == {}
    requires Possible(job, start, attempts) && AllEvident(attempts) && Evident(last.actions)
    requires last.remembered <= History(job, start, attempts).recorded
    ensures var s := After(job, History(job, start, attempts), last);
            s.adb == AdbDone && s.wifi == WifiDone ==>
              && s.temp.Some? && job.src <= s.temp.value
              && (s.temp == Some(job.src) <==> Length(start.temp) <= |job.src| || Cleaned(attempts) || Removes(last))
  {
    hide After, History, Possible, Exact, Evident;
    HistoryTrusts(job, start, attempts);
    AttemptTrusts(job, History(job, start, attempts), last);
    Converges(job, start, attempts, last);
  }

  /** The last attempt, from whatever the earlier ones left. */
  lemma LastAttempt(job: Job, w: World, last: Attempt, bound: nat)
    requires job.Valid() && WorldOk(job, w, bound) && |job.src| <= bound
    requires last.remembered <= w.recorded
    ensures var s := After(job, w, last);
            s.adb == AdbDone && s.wifi == WifiDone ==>
              && (forall i: nat :: i < job.Total() && i !in s.trusted ==> Exact(job, s.temp, i))
              && (s.temp.Some? && job.src <= s.temp.value <==> AllExact(job, s.temp, InRange(s.trusted, job.Total())))
              && (bound == |job.src| || Removes(last) ==> Length(s.temp) <= |job.src|)
              && (!Removes(last) ==> Length(s.temp) >= Length(w.temp))
  {
    hide Run, AllExact, PlanOf, AllSure, AdbOk, WifiOk, Exact;
    AttemptKeeps(job, w, last, bound);
    if Removes(last) {
      AttemptBound(job, w, last, bound);
    } else {
      RunGrows(job, PlanOf(job, w, last), Start(job, w, last), last.actions);
    }
    var s := After(job, w, last);
    if s.adb == AdbDone && s.wifi == WifiDone { BothDone(job, PlanOf(job, w, last), s, bound); }
  }

  // ----- an attempt that nothing disturbs ends -----

  function Left(n: nat, i: nat): nat { if i < n then n - i else 0 }

  function AdbLeft(job: Job, s: State): nat {
    match s.adb
    case AtChunk(i) => 2 * Left(job.Total(), i) + 1
    case ToRecord(i) => 2 * Left(job.Total(), i)
    case AdbDone => 0
    case AdbFailed => 0
  }

  function WifiLeft(job: Job, s: State): nat {
    match s.wifi
    case Scan(i) => 8 * Left(job.Total(), i) + 5 * |s.pending| + 1
    case Batch(frame, next) => 8 * Left(job.Total(), next) + Left(|s.pending|, frame) + |s.pending| + 3
    case Fallback(m, next) => 8 * Left(job.Total(), next) + Left(|s.pending|, m) + |s.pending| + 3
    case Commit(r, next) => 8 * Left(job.Total(), next) + Left(|s.pending|, r) + 2
    case WifiDone => 0
    case WifiFailed => 0
  }

  predicate Smooth(actions: seq<Action>) {
    forall k :: 0 <= k < |actions| ==> actions[k].Late? || actions[k] == AdbTurn(Good) || actions[k] == WifiTurn(Good)
  }

  function Turns(actions: seq<Action>, a: Action): nat {
    if actions == [] then 0 else (if actions[0] == a then 1 else 0) + Turns(actions[1..], a)
  }

  predicate Undisturbed(job: Job, s: State) {
    && PendingOk(job, s) && !s.paused && s.adb != AdbFailed && s.wifi != WifiFailed
    && (s.adb.ToRecord? ==> s.adb.j < job.Total())
  }

  lemma AdbProgress(job: Job, plan: Plan, s: State)
    requires job.Valid() && Undisturbed(job, s)
    ensures var s1 := AdbStep(job, plan, s, Good);
            && Undisturbed(job, s1) && WifiLeft(job, s1) == WifiLeft(job, s)
            && (s.adb != AdbDone ==> AdbLeft(job, s1) < AdbLeft(job, s)) && (s.adb == AdbDone ==> s1 == s)
  { }

  lemma WifiProgress(job: Job, plan: Plan, s: State)
    requires job.Valid() && Undisturbed(job, s)
    ensures var s1 := WifiStep(job, plan, s, Good);
            && Undisturbed(job, s1) && AdbLeft(job, s1) == AdbLeft(job, s)
            && (s.wifi != WifiDone ==> WifiLeft(job, s1) < WifiLeft(job, s)) && (s.wifi == WifiDone ==> s1 == s)
  { }

  /** Enough turns of each lane, in any order, end both lanes well when no call fails and nobody
      asks for a pause. */
  lemma {:induction false} SmoothRunEnds(job: Job, plan: Plan, s: State, actions: seq<Action>)
    requires job.Valid() && Undisturbed(job, s) && Smooth(actions)
    requires Turns(actions, AdbTurn(Good)) >= AdbLeft(job, s) && Turns(actions, WifiTurn(Good)) >= WifiLeft(job, s)
    ensures Run(job, plan, s, actions).adb == AdbDone && Run(job, plan, s, actions).wifi == WifiDone
    decreases actions
  {
    if actions != [] {
      var s1 := Step(job, plan, s, actions[0]);
      AdbProgress(job, plan, s);
      WifiProgress(job, plan, s);
      assert Undisturbed(job, s1);
      assert actions[0] == AdbTurn(Good) ==> s1 == AdbStep(job, plan, s, Good);
      assert actions[0] == WifiTurn(Good) ==> s1 == WifiStep(job, plan, s, Good);
      assert actions[0].Late? ==> AdbLeft(job, s1) == AdbLeft(job, s) && WifiLeft(job, s1) == WifiLeft(job, s);
      hide Step, AdbStep, WifiStep, Undisturbed;
      SmoothRunEnds(job, plan, s1, actions[1..]);
    }
  }

  // ----- what a length proves -----

  /** Whatever happens, confirmations by length included, a file that held only source bytes and
      zeros still does: a chunk that was lost leaves a hole, never another chunk's bytes. */
  ghost predicate OnlyHoles(job: Job, temp: Option<Data>) {
    temp.Some? ==>
      && |temp.value| <= |job.src|
      && (forall p :: 0 <= p < |temp.value| ==> temp.value[p] == job.src[p] || temp.value[p] == 0)
  }

  lemma HolesStay(job: Job, temp: Option<Data>, from: nat, to: nat)
    requires from <= to <= |job.src| && OnlyHoles(job, temp)
    ensures OnlyHoles(job, Written(temp, from, job.src[from..to]))
  {
    hide WriteAt;
    var data, t1 := job.src[from..to], Written(temp, from, job.src[from..to]).value;
    forall p | 0 <= p < |t1| ensures t1[p] == job.src[p] || t1[p] == 0 {
      if from <= p < to { assert data[p - from] == job.src[p]; }
    }
  }

  lemma StepLeavesHoles(job: Job, plan: Plan, s: State, a: Action)
    requires job.Valid() && PendingOk(job, s) && OnlyHoles(job, s.temp)
    ensures OnlyHoles(job, Step(job, plan, s, a).temp)
  {
    forall i: nat | i < job.Total()
      ensures OnlyHoles(job, SendChunk(job, s, i).temp)
    {
      Ranges(job, i);
      HolesStay(job, s.temp, job.From(i), job.To(i));
    }
    if a.Late? && a.chunk < job.Total() {
      Ranges(job, a.chunk);
      HolesStay(job, s.temp, job.From(a.chunk), Min(job.From(a.chunk) + a.length, job.To(a.chunk)));
    }
    hide OnlyHoles, Written;
  }

  lemma {:induction false} RunLeavesHoles(job: Job, plan: Plan, s: State, actions: seq<Action>)
    requires job.Valid() && PendingOk(job, s) && OnlyHoles(job, s.temp)
    ensures OnlyHoles(job, Run(job, plan, s, actions).temp)
    decreases actions
  {
    if actions != [] {
      StepLeavesHoles(job, plan, s, actions[0]);
      PendingStays(job, plan, s, actions[0]);
      hide Step, OnlyHoles;
      RunLeavesHoles(job, plan, Step(job, plan, s, actions[0]), actions[1..]);
    }
  }

  function Repeat(a: Action, k: nat): seq<Action> { if k == 0 then [] else [a] + Repeat(a, k - 1) }

  lemma Turn(job: Job, plan: Plan, s: State, a: Action, k: nat, rest: seq<Action>)
    requires job.Valid() && PendingOk(job, s)
    ensures PendingOk(job, Step(job, plan, s, a))
    ensures Run(job, plan, s, Repeat(a, k + 1) + rest) == Run(job, plan, Step(job, plan, s, a), Repeat(a, k) + rest)
  {
    PendingStays(job, plan, s, a);
    assert (Repeat(a, k + 1) + rest)[1..] == Repeat(a, k) + rest;
  }

  lemma NoTurns(job: Job, plan: Plan, s: State, a: Action, rest: seq<Action>)
    requires job.Valid() && PendingOk(job, s)
    ensures Repeat(a, 0) + rest == rest && Run(job, plan, s, []) == s
  { }
}
