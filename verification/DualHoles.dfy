/** When the length of the file is proof enough. A chunk that was lost leaves a hole, and a hole
    reads as zeros; so, starting from no file, confirmations by length can go wrong exactly when
    some chunk that a later one can cover up is not all zeros. */
module DualHoles {
  import opened Wrappers
  import opened Models
  import opened Bytes
  import opened Chunks
  import opened Dual

  // ----- neighbours -----

  /** Each chunk starts where the one before it ends, and the last one ends the file. */
  lemma Neighbours(job: Job, i: nat)
    requires job.Valid() && i < job.Total()
    ensures i + 1 < job.Total() ==> job.To(i) == job.From(i + 1)
    ensures i + 1 == job.Total() ==> job.To(i) == |job.src|
  {
    if i + 1 < job.Total() {
      Adjacent(|job.src|, job.chunkSize, i + 1);
    } else {
      LastEnd(|job.src|, job.chunkSize);
    }
    InFile(|job.src|, job.chunkSize, i);
  }

  /** Only the last chunk reaches the end of the file. */
  lemma ReachesEnd(job: Job, i: nat)
    requires job.Valid() && i < job.Total() && job.To(i) >= |job.src|
    ensures i + 1 == job.Total()
  {
    hide ChunkLengthFor;
    Neighbours(job, i);
    if i + 1 < job.Total() { Ranges(job, i + 1); }
  }

  // ----- safe when what can be covered up is zeros -----

  ghost predicate ZeroChunk(job: Job, i: nat)
    requires job.Valid() && i < job.Total()
  {
    Ranges(job, i);
    forall p :: job.From(i) <= p < job.To(i) ==> job.src[p] == 0
  }

  /** Every chunk of the Wi-Fi lane is all zeros, except the last chunk of the file if that is one. */
  ghost predicate OnlyZerosAtRisk(job: Job, stride: nat)
    requires job.Valid()
  {
    forall i: nat :: i + 1 < job.Total() && Owns(Wifi, i, stride) ==> ZeroChunk(job, i)
  }

  /** A file as long as the source has the last chunk whole. */
  ghost predicate LastWhole(job: Job, temp: Option<Data>)
    requires job.Valid()
  {
    Length(temp) >= |job.src| ==> Exact(job, temp, job.Total() - 1)
  }

  ghost predicate PendingOwned(job: Job, plan: Plan, pending: seq<nat>) {
    forall k :: 0 <= k < |pending| ==> pending[k] < job.Total() && Owns(Wifi, pending[k], plan.stride)
  }

  ghost predicate Tidy(job: Job, plan: Plan, s: State)
    requires job.Valid()
  {
    && s.final == None && OnlyHoles(job, s.temp) && LastWhole(job, s.temp)
    && PendingOwned(job, plan, s.pending)
    && AllExact(job, s.temp, s.trusted)
  }

  lemma SendTidy(job: Job, temp: Option<Data>, i: nat, length: nat, trusted: set<nat>)
    requires job.Valid() && i < job.Total()
    requires OnlyHoles(job, temp) && LastWhole(job, temp) && AllExact(job, temp, trusted)
    ensures var t1 := Carried(job, temp, i, length);
            OnlyHoles(job, t1) && LastWhole(job, t1) && AllExact(job, t1, trusted)
  {
    hide Exact, OnlyHoles, ChunkLengthFor, WriteAt;
    Ranges(job, i);
    SendHelps(job, temp, i, length);
    HolesStay(job, temp, job.From(i), Min(job.From(i) + length, job.To(i)));
    var t1 := Carried(job, temp, i, length);
    if Length(t1) >= |job.src| > Length(temp) {
      CarriedLength(job, temp, i, length);
      ReachesEnd(job, i);
    }
  }

  lemma CarriedLength(job: Job, temp: Option<Data>, i: nat, length: nat)
    requires job.Valid() && i < job.Total()
    ensures Length(Carried(job, temp, i, length)) <= Max(Length(temp), Min(job.From(i) + length, job.To(i)))
  {
    hide ChunkLengthFor;
    Ranges(job, i);
  }

  lemma SendIsCarried(job: Job, s: State, i: nat)
    requires job.Valid() && i < job.Total()
    ensures SendChunk(job, s, i) == s.(temp := Carried(job, s.temp, i, |job.src|), trusted := s.trusted - {i})
  {
    Ranges(job, i);
  }

  /** A chunk of zeros, or the last one, is there as soon as the file is long enough. */
  lemma LongEnoughIsExact(job: Job, stride: nat, temp: Option<Data>, i: nat)
    requires job.Valid() && i < job.Total() && Owns(Wifi, i, stride) && OnlyZerosAtRisk(job, stride)
    requires OnlyHoles(job, temp) && LastWhole(job, temp) && Length(temp) >= job.To(i)
    ensures Exact(job, temp, i)
  {
    hide ChunkLengthFor, Owns;
    Ranges(job, i);
    Neighbours(job, i);
    if i + 1 < job.Total() { assert ZeroChunk(job, i); }
  }

  lemma AdbTidy(job: Job, plan: Plan, s: State, luck: Luck)
    requires job.Valid() && PendingOk(job, s) && Tidy(job, plan, s)
    ensures Tidy(job, plan, AdbStep(job, plan, s, luck))
  {
    hide OnlyHoles, LastWhole, Exact, Owns, SendChunk, Carried;
    if s.adb.AtChunk? && s.adb.i < job.Total() {
      SendIsCarried(job, s, s.adb.i);
      SendTidy(job, s.temp, s.adb.i, |job.src|, s.trusted);
    }
  }

  lemma SentTidy(job: Job, plan: Plan, s: State, i: nat)
    requires job.Valid() && Tidy(job, plan, s) && i < job.Total()
    ensures Tidy(job, plan, SendChunk(job, s, i))
  {
    hide OnlyHoles, LastWhole, Exact, Owns, SendChunk, Carried;
    SendIsCarried(job, s, i);
    SendTidy(job, s.temp, i, |job.src|, s.trusted);
  }

  lemma WifiTidy(job: Job, plan: Plan, s: State, luck: Luck)
    requires job.Valid() && PendingOk(job, s) && Tidy(job, plan, s) && OnlyZerosAtRisk(job, plan.stride)
    ensures Tidy(job, plan, WifiStep(job, plan, s, luck))
  {
    hide OnlyHoles, LastWhole, Exact, Owns, SendChunk, OnlyZerosAtRisk, ChunkLengthFor;
    match s.wifi
    case Scan(i) =>
    case Batch(frame, next) =>
      if frame < |s.pending| { SentTidy(job, plan, s, s.pending[frame]); }
    case Fallback(m, next) =>
      if m < |s.pending| {
        SentTidy(job, plan, s, s.pending[m]);
        if Length(s.temp) >= job.To(s.pending[m]) { LongEnoughIsExact(job, plan.stride, s.temp, s.pending[m]); }
      }
    case Commit(r, next) =>
    case WifiDone =>
    case WifiFailed =>
  }

  lemma StepTidy(job: Job, plan: Plan, s: State, a: Action)
    requires job.Valid() && PendingOk(job, s) && Tidy(job, plan, s) && OnlyZerosAtRisk(job, plan.stride)
    ensures Tidy(job, plan, Step(job, plan, s, a))
  {
    hide OnlyHoles, LastWhole, Exact, Owns, OnlyZerosAtRisk, Carried, AdbStep, WifiStep;
    match a
    case AdbTurn(luck) => AdbTidy(job, plan, s, luck);
    case WifiTurn(luck) => WifiTidy(job, plan, s, luck);
    case PauseRequest =>
    case Late(i, length) => if i < job.Total() { SendTidy(job, s.temp, i, length, s.trusted); }
  }

  lemma {:induction false} RunTidy(job: Job, plan: Plan, s: State, actions: seq<Action>)
    requires job.Valid() && PendingOk(job, s) && Tidy(job, plan, s) && OnlyZerosAtRisk(job, plan.stride)
    ensures Tidy(job, plan, Run(job, plan, s, actions))
    decreases actions
  {
    hide Tidy, Step, OnlyZerosAtRisk;
    if actions != [] {
      PendingStays(job, plan, s, actions[0]);
      StepTidy(job, plan, s, actions[0]);
      RunTidy(job, plan, Step(job, plan, s, actions[0]), actions[1..]);
    }
  }

  // ----- unsafe otherwise: a run that loses a chunk -----

  /** Chunk `i` was never written: where the file covers it there are zeros. */
  ghost predicate Unwritten(job: Job, temp: Option<Data>, i: nat)
    requires job.Valid() && i < job.Total()
  {
    Ranges(job, i);
    forall p :: job.From(i) <= p < job.To(i) && p < Length(temp) ==> temp.value[p] == 0
  }

  lemma OthersLeaveIt(job: Job, s: State, i: nat, j: nat)
    requires job.Valid() && i < job.Total() && j < job.Total() && i != j && Unwritten(job, s.temp, i)
    ensures Unwritten(job, SendChunk(job, s, j).temp, i)
    ensures Length(SendChunk(job, s, j).temp) == Max(Length(s.temp), job.To(j))
  {
    hide ChunkLengthFor;
    Apart(job, i, j);
    Ranges(job, i);
    Ranges(job, j);
  }

  /** Nothing was written of the chunks of `n`. */
  ghost predicate NeverSent(job: Job, n: set<nat>, temp: Option<Data>)
    requires job.Valid()
  {
    && (forall i: nat :: i in n && i < job.Total() ==> Unwritten(job, temp, i))
    && (job.Total() - 1 in n ==> Length(temp) <= job.From(job.Total() - 1))
    && ((forall i: nat :: i < job.Total() ==> i in n) ==> temp == None)
  }

  lemma BelowLast(job: Job, s: State, j: nat)
    requires job.Valid() && j + 1 < job.Total() && Length(s.temp) <= job.From(job.Total() - 1)
    ensures Length(SendChunk(job, s, j).temp) <= job.From(job.Total() - 1)
  {
    hide ChunkLengthFor, Carried, SendChunk, DivCeil;
    SendIsCarried(job, s, j);
    CarriedLength(job, s.temp, j, |job.src|);
    InTurn(job, j, job.Total() - 1);
  }

  lemma SendElsewhere(job: Job, n: set<nat>, s: State, j: nat)
    requires job.Valid() && NeverSent(job, n, s.temp) && j < job.Total() && j !in n
    ensures NeverSent(job, n, SendChunk(job, s, j).temp)
  {
    hide ChunkLengthFor, Unwritten, SendChunk, Carried;
    var s1 := SendChunk(job, s, j);
    SendIsCarried(job, s, j);
    forall i: nat | i in n && i < job.Total() ensures Unwritten(job, s1.temp, i) { OthersLeaveIt(job, s, i, j); }
    if job.Total() - 1 in n { BelowLast(job, s, j); }
  }

  // ----- what has arrived, apart from a set of chunks -----

  /** The state when all that is known of the chunks of `n` is that they may be missing. */
  function Blind(s: State, n: set<nat>): State { s.(recorded := {}, trusted := n) }

  /** Each lane has sent what it passed by, apart from the chunks of `n`. */
  ghost predicate Arriving(job: Job, plan: Plan, s: State, n: set<nat>) {
    Inv(job, plan, Blind(s, n), |job.src|)
  }

  lemma BlindStep(job: Job, plan: Plan, s: State, a: Action, n: set<nat>)
    requires job.Valid() && PendingOk(job, s)
    ensures var s1, t := Step(job, plan, s, a), Step(job, plan, Blind(s, n), a);
            Blind(s1, n) == t.(recorded := {}, trusted := n)
  {
    hide AdbStep, WifiStep;
    match a
    case AdbTurn(luck) => AdbBlind(job, plan, s, luck, n);
    case WifiTurn(luck) => WifiBlind(job, plan, s, luck, n);
    case PauseRequest =>
    case Late(_, _) =>
  }

  lemma AdbBlind(job: Job, plan: Plan, s: State, luck: Luck, n: set<nat>)
    requires job.Valid()
    ensures Blind(AdbStep(job, plan, s, luck), n)
         == AdbStep(job, plan, Blind(s, n), luck).(recorded := {}, trusted := n)
  {
    hide ChunkLengthFor, WriteAt, Owns;
  }

  lemma SendBlind(job: Job, s: State, n: set<nat>, i: nat)
    requires job.Valid() && i < job.Total()
    ensures SendChunk(job, Blind(s, n), i).temp == SendChunk(job, s, i).temp
    ensures Blind(SendChunk(job, s, i), n) == SendChunk(job, Blind(s, n), i).(trusted := n)
  {
    hide ChunkLengthFor, WriteAt;
  }

  lemma ScanBlind(job: Job, plan: Plan, s: State, i: nat, n: set<nat>)
    ensures Blind(WifiScan(job, plan, s, i), n)
         == WifiScan(job, plan, Blind(s, n), i).(recorded := {}, trusted := n)
  {
    hide Owns;
  }

  lemma BatchBlind(job: Job, s: State, frame: nat, next: nat, luck: Luck, n: set<nat>)
    requires job.Valid() && PendingOk(job, s)
    ensures Blind(WifiBatch(job, s, frame, next, luck), n)
         == WifiBatch(job, Blind(s, n), frame, next, luck).(recorded := {}, trusted := n)
  {
    hide SendChunk;
    if frame < |s.pending| { SendBlind(job, s, n, s.pending[frame]); }
  }

  lemma FallbackBlind(job: Job, s: State, m: nat, next: nat, luck: Luck, n: set<nat>)
    requires job.Valid() && PendingOk(job, s)
    ensures Blind(WifiFallback(job, s, m, next, luck), n)
         == WifiFallback(job, Blind(s, n), m, next, luck).(recorded := {}, trusted := n)
  {
    hide SendChunk, ChunkLengthFor;
    if m < |s.pending| { SendBlind(job, s, n, s.pending[m]); }
  }

  lemma WifiBlind(job: Job, plan: Plan, s: State, luck: Luck, n: set<nat>)
    requires job.Valid() && PendingOk(job, s)
    ensures Blind(WifiStep(job, plan, s, luck), n)
         == WifiStep(job, plan, Blind(s, n), luck).(recorded := {}, trusted := n)
  {
    hide WifiScan, WifiBatch, WifiFallback;
    match s.wifi
    case Scan(i) => ScanBlind(job, plan, s, i, n);
    case Batch(frame, next) => BatchBlind(job, s, frame, next, luck, n);
    case Fallback(m, next) => FallbackBlind(job, s, m, next, luck, n);
    case Commit(_, _) =>
    case WifiDone =>
    case WifiFailed =>
  }

  lemma Forget(job: Job, plan: Plan, t: State, n: set<nat>)
    requires Inv(job, plan, t, |job.src|) && t.trusted <= n
    ensures Inv(job, plan, t.(recorded := {}, trusted := n), |job.src|)
  {
    hide AdbOk, WifiOk, Exact;
    var h := Held(t.temp, n);
    OthersStay(job, plan, t, h, |job.src|);
    NoRecords(job, plan, Holding(t, h));
  }

  lemma NoRecords(job: Job, plan: Plan, t: State)
    requires Inv(job, plan, t, |job.src|)
    ensures Inv(job, plan, t.(recorded := {}), |job.src|)
  {
    hide Swept, SentFirst, Sure;
  }

  /** A step keeps that, unless a chunk outside `n` is taken on trust. */
  lemma StepArrives(job: Job, plan: Plan, s: State, a: Action, n: set<nat>)
    requires job.Valid() && Arriving(job, plan, s, n) && PendingOk(job, s)
    requires Step(job, plan, Blind(s, n), a).trusted <= n
    ensures Arriving(job, plan, Step(job, plan, s, a), n)
  {
    hide Inv, Step;
    StepKeeps(job, plan, Blind(s, n), a, |job.src|);
    BlindStep(job, plan, s, a, n);
    Forget(job, plan, Step(job, plan, Blind(s, n), a), n);
  }

  lemma ArrivedAll(job: Job, plan: Plan, s: State, n: set<nat>)
    requires Arriving(job, plan, s, n) && s.adb == AdbDone && s.wifi == WifiDone
    ensures forall i: nat :: i < job.Total() && i !in n ==> Exact(job, s.temp, i)
    ensures Length(s.temp) <= |job.src|
  {
    hide Exact;
    BothDone(job, plan, Blind(s, n), |job.src|);
  }

  lemma StartArrives(job: Job, plan: Plan, s: State, n: set<nat>)
    requires job.Valid() && plan.completed <= n && s.temp == None && s.acked == {} && s.pending == []
    requires s.adb == AtChunk(0) && s.wifi == Scan(0)
    ensures Arriving(job, plan, s, n)
  {
    hide Exact;
  }

  // ----- a run that skips chunks -----

  /** The ADB lane has sent the chunk after `i`. */
  predicate Past(pc: AdbPc, i: nat) {
    match pc
    case AtChunk(k) => k > i + 1
    case ToRecord(k) => k >= i + 1
    case AdbDone => true
    case AdbFailed => false
  }

  /** Once the ADB lane is through, the file readers see is long enough to confirm chunk `i`. */
  predicate Coverable(job: Job, plan: Plan, s: State, n: set<nat>, i: nat) {
    && i < job.Total() && Owns(Wifi, i, plan.stride)
    && match s.final
       case Some(final) => |final| >= job.To(i)
       case None => i + 1 < job.Total() && i + 1 !in n && (Past(s.adb, i) ==> Length(s.temp) >= job.To(i))
  }

  /** On the way to ending both lanes well without sending any chunk of `n`. */
  ghost predicate Skipping(job: Job, plan: Plan, s: State, n: set<nat>)
    requires job.Valid()
  {
    && plan.completed <= n && Undisturbed(job, s) && (s.wifi.Batch? ==> s.wifi.frame == 0)
    && (forall k :: 0 <= k < |s.pending| ==> s.pending[k] !in plan.completed)
    && NeverSent(job, n, s.temp) && Arriving(job, plan, s, n)
    && (forall i :: i in n && i !in plan.completed ==> Coverable(job, plan, s, n, i))
  }

  /** First the ADB lane, without failures. Then the Wi-Fi lane: every batch fails, and the chunks
      are pushed one by one, except those of `n`, which are taken as written for the length of the
      file. */
  function SkippingTurn(s: State, n: set<nat>): Action {
    if s.adb != AdbDone then AdbTurn(Good)
    else match s.wifi
      case Batch(_, _) => WifiTurn(Bad)
      case Fallback(m, _) => if m < |s.pending| && s.pending[m] in n then WifiTurn(ByLength) else WifiTurn(Good)
      case _ => WifiTurn(Good)
  }

  function TurnsLeft(job: Job, s: State): nat {
    AdbLeft(job, s) + 2 * WifiLeft(job, s) + (if s.wifi.Batch? then 1 else 0)
  }

  lemma NextIsOurs(i: nat, stride: nat)
    requires Owns(Wifi, i, stride)
    ensures Owns(Adb, i + 1, stride)
  {
    var m := Max(stride, 2);
    assert i == (i / m) * m + 1;
    assert i + 1 == (i / m) * m + 2;
    NotOne(i / m, m);
  }

  lemma NotOne(q: nat, m: nat)
    requires m >= 2
    ensures (q * m + 2) % m != 1
  {
    if m == 2 {
      CoversIff(2, q + 1, q * 2 + 2);
    } else {
      CoversIff(m, q, q * m + 2);
    }
  }

  lemma FurtherOn(job: Job, i: nat, j: nat)
    requires job.Valid() && i < j < job.Total()
    ensures job.To(i) <= job.To(j)
  {
    hide ChunkLengthFor;
    InTurn(job, i, j);
    Ranges(job, j);
  }

  lemma SendLonger(job: Job, s: State, j: nat)
    requires job.Valid() && j < job.Total()
    ensures Length(SendChunk(job, s, j).temp) == Max(Length(s.temp), job.To(j))
  {
    hide ChunkLengthFor;
    Ranges(job, j);
  }

  lemma AdbCovers(job: Job, plan: Plan, s: State, n: set<nat>, i: nat)
    requires job.Valid() && PendingOk(job, s) && s.adb != AdbFailed && !s.paused && plan.completed <= n
    requires Coverable(job, plan, s, n, i)
    ensures Coverable(job, plan, AdbStep(job, plan, s, Good), n, i)
  {
    hide ChunkLengthFor, SendChunk, WifiOwns;
    NextIsOurs(i, plan.stride);
    if s.adb.AtChunk? && s.adb.i < job.Total() {
      SendLonger(job, s, s.adb.i);
      SendIsCarried(job, s, s.adb.i);
      if s.adb.i > i { FurtherOn(job, i, s.adb.i); }
    }
  }

  lemma AdbArrives(job: Job, plan: Plan, s: State, n: set<nat>)
    requires job.Valid() && Arriving(job, plan, s, n) && PendingOk(job, s)
    ensures Arriving(job, plan, AdbStep(job, plan, s, Good), n)
  {
    hide Inv, SendChunk, Owns;
    AdbTrusts(job, plan, Blind(s, n));
    StepArrives(job, plan, s, AdbTurn(Good), n);
  }

  lemma AdbTrusts(job: Job, plan: Plan, s: State)
    requires job.Valid()
    ensures AdbStep(job, plan, s, Good).trusted <= s.trusted
  { }

  lemma AdbNeverSends(job: Job, plan: Plan, s: State, n: set<nat>, luck: Luck)
    requires job.Valid() && NeverSent(job, n, s.temp)
    requires forall i :: i in n && i !in plan.completed ==> Owns(Wifi, i, plan.stride)
    ensures NeverSent(job, n, AdbStep(job, plan, s, luck).temp)
  {
    hide NeverSent, SendChunk, WifiOwns, ChunkLengthFor;
    if s.adb.AtChunk? {
      var i := s.adb.i;
      if i < job.Total() && Owns(Adb, i, plan.stride) && i !in plan.completed { SendElsewhere(job, n, s, i); }
    }
  }

  lemma AdbSkips(job: Job, plan: Plan, s: State, n: set<nat>)
    requires job.Valid() && Skipping(job, plan, s, n) && s.adb != AdbDone
    ensures var s1 := AdbStep(job, plan, s, Good);
            Skipping(job, plan, s1, n) && TurnsLeft(job, s1) < TurnsLeft(job, s)
  {
    var s1 := AdbStep(job, plan, s, Good);
    forall i | i in n && i !in plan.completed ensures Coverable(job, plan, s1, n, i) { AdbCovers(job, plan, s, n, i); }
    AdbNeverSends(job, plan, s, n, Good);
    AdbArrives(job, plan, s, n);
    AdbProgress(job, plan, s);
    AdbShape(job, plan, s);
    hide Coverable, NeverSent, Arriving, AdbStep, Undisturbed, AdbLeft, WifiLeft;
  }

  lemma AdbShape(job: Job, plan: Plan, s: State)
    requires job.Valid()
    ensures var s1 := AdbStep(job, plan, s, Good); s1.wifi == s.wifi && s1.pending == s.pending
  { }

  /** The part of a Wi-Fi turn that concerns the file: nothing, or one pending chunk is sent. */
  lemma WifiSkips(job: Job, plan: Plan, s: State, n: set<nat>, a: Action)
    requires job.Valid() && Skipping(job, plan, s, n) && s.adb == AdbDone && s.wifi != WifiDone
    requires a == SkippingTurn(s, n)
    ensures var s1 := Step(job, plan, s, a);
            Skipping(job, plan, s1, n) && TurnsLeft(job, s1) < TurnsLeft(job, s)
  {
    WifiMoves(job, plan, s, n);
    WifiLeaves(job, plan, s, n);
    WifiArrives(job, plan, s, n);
    var s1 := Step(job, plan, s, a);
    forall i | i in n && i !in plan.completed ensures Coverable(job, plan, s1, n, i) {
      assert Coverable(job, plan, s, n, i);
    }
    hide NeverSent, Arriving, Step, Undisturbed, AdbLeft, WifiLeft;
  }

  lemma TrustIsGranted(job: Job, plan: Plan, s: State, n: set<nat>, i: nat)
    requires job.Valid() && s.adb == AdbDone && Coverable(job, plan, s, n, i)
    ensures Readable(s).Some? && |Readable(s).value| >= job.To(i)
  {
    Ranges(job, i);
  }

  lemma FallbackMoves(job: Job, plan: Plan, s: State)
    requires job.Valid() && Undisturbed(job, s) && s.wifi.Fallback? && s.wifi.m < |s.pending|
    requires Readable(s).Some? && |Readable(s).value| >= job.To(s.pending[s.wifi.m])
    ensures var s1 := WifiStep(job, plan, s, ByLength);
            && Undisturbed(job, s1) && !s1.wifi.Batch? && s1.pending == s.pending
            && AdbLeft(job, s1) == AdbLeft(job, s) && WifiLeft(job, s1) < WifiLeft(job, s)
            && s1.final == s.final && s1.adb == s.adb && s1.temp == s.temp
  {
    hide ChunkLengthFor;
  }

  lemma BatchMoves(job: Job, plan: Plan, s: State)
    requires job.Valid() && Undisturbed(job, s) && s.wifi.Batch? && s.wifi.frame == 0
    ensures var s1 := WifiStep(job, plan, s, Bad);
            && Undisturbed(job, s1) && !s1.wifi.Batch? && s1.pending == s.pending
            && AdbLeft(job, s1) == AdbLeft(job, s) && WifiLeft(job, s1) == WifiLeft(job, s)
            && s1.final == s.final && s1.adb == s.adb && s1.temp == s.temp
  { }

  lemma GoodMoves(job: Job, plan: Plan, s: State)
    requires job.Valid() && Undisturbed(job, s) && !s.wifi.Batch?
    requires forall k :: 0 <= k < |s.pending| ==> s.pending[k] !in plan.completed
    ensures var s1 := WifiStep(job, plan, s, Good);
            && (s1.wifi.Batch? ==> s1.wifi.frame == 0) && s1.final == s.final && s1.adb == s.adb
            && (forall k :: 0 <= k < |s1.pending| ==> s1.pending[k] !in plan.completed)
            && Length(s1.temp) >= Length(s.temp)
  {
    hide ChunkLengthFor, Owns;
  }

  lemma WifiMoves(job: Job, plan: Plan, s: State, n: set<nat>)
    requires job.Valid() && Skipping(job, plan, s, n) && s.adb == AdbDone && s.wifi != WifiDone
    ensures var s1 := Step(job, plan, s, SkippingTurn(s, n));
            && Undisturbed(job, s1) && (s1.wifi.Batch? ==> s1.wifi.frame == 0)
            && (forall k :: 0 <= k < |s1.pending| ==> s1.pending[k] !in plan.completed)
            && TurnsLeft(job, s1) < TurnsLeft(job, s)
            && s1.final == s.final && s1.adb == s.adb && Length(s1.temp) >= Length(s.temp)
  {
    hide NeverSent, Arriving, WifiStep, AdbLeft, WifiLeft, Coverable;
    if s.wifi.Batch? {
      BatchMoves(job, plan, s);
    } else if s.wifi.Fallback? && s.wifi.m < |s.pending| && s.pending[s.wifi.m] in n {
      TrustIsGranted(job, plan, s, n, s.pending[s.wifi.m]);
      FallbackMoves(job, plan, s);
    } else {
      GoodMoves(job, plan, s);
      WifiProgress(job, plan, s);
    }
  }

  lemma WifiLeaves(job: Job, plan: Plan, s: State, n: set<nat>)
    requires job.Valid() && Skipping(job, plan, s, n) && s.adb == AdbDone && s.wifi != WifiDone
    ensures NeverSent(job, n, Step(job, plan, s, SkippingTurn(s, n)).temp)
  {
    hide NeverSent, Arriving, SendChunk, ChunkLengthFor, Owns, Coverable;
    if s.wifi.Fallback? && s.wifi.m < |s.pending| && s.pending[s.wifi.m] !in n {
      SendElsewhere(job, n, s, s.pending[s.wifi.m]);
      SendIsCarried(job, s, s.pending[s.wifi.m]);
    }
  }

  lemma WifiArrives(job: Job, plan: Plan, s: State, n: set<nat>)
    requires job.Valid() && Skipping(job, plan, s, n) && s.adb == AdbDone && s.wifi != WifiDone
    ensures Arriving(job, plan, Step(job, plan, s, SkippingTurn(s, n)), n)
  {
    hide NeverSent, Arriving, Coverable;
    WifiTrusts(job, plan, Blind(s, n), n, SkippingTurn(s, n));
    StepArrives(job, plan, s, SkippingTurn(s, n), n);
  }

  lemma WifiTrusts(job: Job, plan: Plan, s: State, n: set<nat>, a: Action)
    requires job.Valid() && PendingOk(job, s) && s.trusted <= n && a == SkippingTurn(s, n) && s.adb == AdbDone
    ensures Step(job, plan, s, a).trusted <= n
  {
    hide ChunkLengthFor, Owns;
  }

  lemma SkipsOne(job: Job, plan: Plan, s: State, n: set<nat>)
    requires job.Valid() && Skipping(job, plan, s, n) && !(s.adb == AdbDone && s.wifi == WifiDone)
    ensures PendingOk(job, s)
    ensures var s1 := Step(job, plan, s, SkippingTurn(s, n));
            Skipping(job, plan, s1, n) && TurnsLeft(job, s1) < TurnsLeft(job, s)
  {
    assert PendingOk(job, s);
    hide AdbStep, WifiStep, Skipping, TurnsLeft;
    if s.adb != AdbDone { AdbSkips(job, plan, s, n); } else { WifiSkips(job, plan, s, n, SkippingTurn(s, n)); }
  }

  predicate NoneLate(actions: seq<Action>) { forall k :: 0 <= k < |actions| ==> !actions[k].Late? }

  /** So there is a run that ends both lanes well and sends exactly the chunks outside `n`. */
  lemma {:induction false} SkippingRun(job: Job, plan: Plan, s: State, n: set<nat>) returns (actions: seq<Action>)
    requires job.Valid() && Skipping(job, plan, s, n)
    ensures PendingOk(job, s) && NoneLate(actions)
    ensures var s1 := Run(job, plan, s, actions);
            s1.adb == AdbDone && s1.wifi == WifiDone && Skipping(job, plan, s1, n) && s1.final == s.final
    decreases TurnsLeft(job, s)
  {
    hide Step, Skipping, TurnsLeft;
    if s.adb == AdbDone && s.wifi == WifiDone {
      SkippingIsPending(job, plan, s, n);
      actions := [];
    } else {
      var a := SkippingTurn(s, n);
      SkipsOne(job, plan, s, n);
      StepKeepsFinal(job, plan, s, a);
      var rest := SkippingRun(job, plan, Step(job, plan, s, a), n);
      actions := [a] + rest;
      assert actions[1..] == rest;
    }
  }

  lemma SkippingIsPending(job: Job, plan: Plan, s: State, n: set<nat>)
    requires job.Valid() && Skipping(job, plan, s, n)
    ensures PendingOk(job, s)
  { }

  lemma StepKeepsFinal(job: Job, plan: Plan, s: State, a: Action)
    requires job.Valid() && PendingOk(job, s)
    ensures Step(job, plan, s, a).final == s.final
  { }

  lemma SkippingEnds(job: Job, plan: Plan, s: State, n: set<nat>)
    requires job.Valid() && Skipping(job, plan, s, n) && s.adb == AdbDone && s.wifi == WifiDone
    ensures NeverSent(job, n, s.temp) && Length(s.temp) <= |job.src|
    ensures forall i: nat :: i < job.Total() && i !in n ==> Exact(job, s.temp, i)
  {
    hide NeverSent, Exact, Coverable, Inv;
    ArrivedAll(job, plan, s, n);
  }

  // ----- all attempts from a clean start -----

  const NO_FILE := World(None, None, {}, {})

  ghost predicate StridesIn(attempts: seq<Attempt>, strides: iset<nat>) {
    forall k :: 0 <= k < |attempts| ==> attempts[k].stride in strides
  }

  /** Any interrupted attempts and then one more, each with one of these splits between the lanes. */
  ghost predicate Legal(job: Job, strides: iset<nat>, attempts: seq<Attempt>, last: Attempt)
    requires job.Valid()
  {
    && Possible(job, NO_FILE, attempts) && StridesIn(attempts, strides)
    && last.remembered <= History(job, NO_FILE, attempts).recorded && last.stride in strides
  }

  function EndOf(job: Job, attempts: seq<Attempt>, last: Attempt): State
    requires job.Valid()
  {
    After(job, History(job, NO_FILE, attempts), last)
  }

  /** Whenever both lanes end well the file is the source, confirmations by length or not. */
  ghost predicate NeverWrong(job: Job, strides: iset<nat>)
    requires job.Valid()
  {
    forall attempts, last :: Legal(job, strides, attempts, last) ==>
      var s := EndOf(job, attempts, last);
      s.adb == AdbDone && s.wifi == WifiDone ==> s.temp == Some(job.src)
  }

  ghost predicate NoRisk(job: Job, strides: iset<nat>)
    requires job.Valid()
  {
    forall stride :: stride in strides ==> OnlyZerosAtRisk(job, stride)
  }

  ghost predicate WorldTidy(job: Job, w: World)
    requires job.Valid()
  {
    w.final == None && OnlyHoles(job, w.temp) && LastWhole(job, w.temp) && AllExact(job, w.temp, w.trusted)
  }

  lemma BeginTidy(job: Job, w: World, a: Attempt)
    requires job.Valid() && WorldTidy(job, w)
    ensures Tidy(job, PlanOf(job, w, a), Start(job, w, a))
  {
    hide Exact, PlanOf;
  }

  lemma StrideOf(job: Job, w: World, a: Attempt)
    requires job.Valid()
    ensures PlanOf(job, w, a).stride == a.stride
  { }

  lemma AttemptTidy(job: Job, w: World, a: Attempt)
    requires job.Valid() && WorldTidy(job, w) && OnlyZerosAtRisk(job, a.stride)
    ensures AllExact(job, After(job, w, a).temp, After(job, w, a).trusted)
    ensures WorldTidy(job, WorldOf(After(job, w, a)))
  {
    hide Run, PlanOf, OnlyZerosAtRisk, OnlyHoles, LastWhole, AllExact, Start;
    BeginTidy(job, w, a);
    StrideOf(job, w, a);
    RunTidy(job, PlanOf(job, w, a), Start(job, w, a), a.actions);
  }

  lemma {:induction false} HistoryTidy(job: Job, w: World, attempts: seq<Attempt>, strides: iset<nat>)
    requires job.Valid() && WorldTidy(job, w) && StridesIn(attempts, strides) && NoRisk(job, strides)
    ensures WorldTidy(job, History(job, w, attempts))
    decreases attempts
  {
    hide WorldTidy, After, OnlyZerosAtRisk;
    if attempts != [] {
      AttemptTidy(job, w, attempts[0]);
      forall k | 0 <= k < |attempts[1..]| ensures attempts[1..][k].stride in strides {
        assert attempts[1..][k] == attempts[k + 1];
      }
      HistoryTidy(job, WorldOf(After(job, w, attempts[0])), attempts[1..], strides);
    }
  }

  lemma SafeEnd(job: Job, strides: iset<nat>, attempts: seq<Attempt>, last: Attempt)
    requires job.Valid() && NoRisk(job, strides) && Legal(job, strides, attempts, last)
    ensures var s := EndOf(job, attempts, last);
            s.adb == AdbDone && s.wifi == WifiDone ==> s.temp == Some(job.src)
  {
    hide After, History, Possible, OnlyZerosAtRisk, Exact;
    HistoryTidy(job, NO_FILE, attempts, strides);
    AttemptTidy(job, History(job, NO_FILE, attempts), last);
    Converges(job, NO_FILE, attempts, last);
  }

  function SkippingAttempt(stride: nat, actions: seq<Action>): Attempt { Attempt(stride, 1, {}, true, true, actions) }

  lemma SkippingStart(job: Job, stride: nat, i: nat, actions: seq<Action>)
    requires job.Valid() && i + 1 < job.Total() && Owns(Wifi, i, stride)
    ensures var a := SkippingAttempt(stride, actions);
            && PlanOf(job, NO_FILE, a) == Plan(stride, 1, {})
            && Start(job, NO_FILE, a) == Begin(NO_FILE, a)
            && Skipping(job, Plan(stride, 1, {}), Begin(NO_FILE, a), {i})
  {
    hide Guard, ReadsBack, Arriving, ChunkLengthFor;
    assert PlanOf(job, NO_FILE, SkippingAttempt(stride, actions)).completed <= {};
    StartArrives(job, Plan(stride, 1, {}), Begin(NO_FILE, SkippingAttempt(stride, actions)), {i});
    assert i + 1 !in {i};
  }

  lemma LostIsWrong(job: Job, temp: Option<Data>, i: nat)
    requires job.Valid() && i < job.Total() && Unwritten(job, temp, i) && !ZeroChunk(job, i)
    ensures temp != Some(job.src)
  {
    hide ChunkLengthFor;
    Ranges(job, i);
  }

  lemma RiskGoesWrong(job: Job, strides: iset<nat>, stride: nat, i: nat)
    requires job.Valid() && i + 1 < job.Total() && Owns(Wifi, i, stride) && !ZeroChunk(job, i) && stride in strides
    ensures !NeverWrong(job, strides)
  {
    hide Run, Skipping, PlanOf, ZeroChunk, Owns, Unwritten, Start;
    SkippingStart(job, stride, i, []);
    var start := Begin(NO_FILE, SkippingAttempt(stride, []));
    var actions := SkippingRun(job, Plan(stride, 1, {}), start, {i});
    var last := SkippingAttempt(stride, actions);
    SkippingStart(job, stride, i, actions);
    var s := EndOf(job, [], last);
    assert s == Run(job, Plan(stride, 1, {}), start, actions);
    SkippingEnds(job, Plan(stride, 1, {}), s, {i});
    LostIsWrong(job, s.temp, i);
    assert Legal(job, strides, [], last);
  }

  /** From no file, over all attempts with splits from any set, and all that can happen in them,
      both lanes ending well always means that the file is the source exactly when, for each of
      these splits, every chunk of the Wi-Fi lane other than the last chunk of the file is all
      zeros. Anything else there can be lost and still be confirmed by the length of the file. */
  lemma LengthProvesIff(job: Job, strides: iset<nat>)
    requires job.Valid()
    ensures NeverWrong(job, strides) <==> NoRisk(job, strides)
  {
    hide Legal, EndOf, ZeroChunk, Owns;
    if NoRisk(job, strides) {
      forall attempts, last | Legal(job, strides, attempts, last)
        ensures var s := EndOf(job, attempts, last);
                s.adb == AdbDone && s.wifi == WifiDone ==> s.temp == Some(job.src)
      {
        SafeEnd(job, strides, attempts, last);
      }
    } else {
      var stride: nat :| stride in strides && !OnlyZerosAtRisk(job, stride);
      var i: nat :| i + 1 < job.Total() && Owns(Wifi, i, stride) && !ZeroChunk(job, i);
      RiskGoesWrong(job, strides, stride, i);
    }
  }

  const ONES := Job([1, 1, 1], 1)

  /** Three bytes, one a chunk, none of them zero: a length is no proof of the middle one. */
  lemma LengthIsNoProof()
    ensures ONES.Valid() && !NeverWrong(ONES, iset{2})
  {
    assert ONES.Total() == 3 && Owns(Wifi, 1, 2);
    Ranges(ONES, 1);
    assert ONES.From(1) == 1 && ONES.To(1) == 2;
    assert !ZeroChunk(ONES, 1) by { assert ONES.src[1] == 1; }
    assert !OnlyZerosAtRisk(ONES, 2);
    LengthProvesIff(ONES, iset{2});
  }
}
