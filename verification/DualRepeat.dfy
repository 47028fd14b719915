/** A Dual attempt that finds a finished file, as after a completion whose answer was lost: the
    guards and the lengths are those of the finished file, while the lanes write a new one. */
module DualRepeat {
  import opened Wrappers
  import opened Models
  import opened Bytes
  import opened Chunks
  import opened Dual
  import opened DualHoles

  // ----- attempts over a finished file -----

  /** What completing makes of the two files. */
  function Finished(s: State): Option<Data> { if s.temp.Some? then s.temp else s.final }

  /** An attempt with this split and these chunks remembered, which starts with this finished file
      and no temporary one. */
  ghost predicate Repeats(job: Job, final: Data, stride: nat, remembered: set<nat>, w: World, a: Attempt) {
    && w.temp == None && w.final == Some(final) && a.remembered <= w.recorded
    && a.stride == stride && a.remembered == remembered && (remembered == {} ==> !a.finalRemoved)
  }

  /** Whatever the batches, the losses, the interleaving and the confirmations, once both lanes end
      well completing leaves the source. */
  ghost predicate KeepsSource(job: Job, final: Data, stride: nat, remembered: set<nat>, late: bool)
    requires job.Valid()
  {
    forall w, a :: Repeats(job, final, stride, remembered, w, a) && (late || NoneLate(a.actions)) ==>
      var s := After(job, w, a);
      s.adb == AdbDone && s.wifi == WifiDone ==> Finished(s) == Some(job.src)
  }

  /** What the lanes skip: all that is remembered, when the guards read back equal. */
  function Skipped(job: Job, final: Data, stride: nat, remembered: set<nat>): set<nat>
    requires job.Valid()
  {
    PrepareResume(job, remembered, stride, Some(final))
  }

  /** The chunks of the Wi-Fi lane that a file of this length confirms. */
  function Covered(job: Job, stride: nat, length: nat): set<nat> {
    set i | 0 <= i < job.Total() && Owns(Wifi, i, stride) && length >= job.To(i)
  }

  /** What may end the attempt unsent: the skipped chunks, and those the finished file confirms. */
  function MayStay(job: Job, final: Data, stride: nat, remembered: set<nat>): set<nat>
    requires job.Valid()
  {
    Skipped(job, final, stride, remembered) + Covered(job, stride, |final|)
  }

  ghost predicate ZerosOnly(job: Job, n: set<nat>)
    requires job.Valid()
  {
    forall i: nat :: i < job.Total() && i in n ==> ZeroChunk(job, i)
  }

  /** The last chunk has to be sent, and all that may stay unsent is zeros. */
  ghost predicate SentOver(job: Job, final: Data, stride: nat, remembered: set<nat>)
    requires job.Valid()
  {
    var stay := MayStay(job, final, stride, remembered);
    job.Total() - 1 !in stay && ZerosOnly(job, stay)
  }

  ghost predicate AllBut(job: Job, n: set<nat>, last: nat)
    requires job.Valid()
  {
    forall i: nat :: i < job.Total() && i != last ==> i in n
  }

  /** The source is there already, and everything is skipped, or all but the last chunk of a file
      that is zeros up to it. */
  ghost predicate LeftAlone(job: Job, final: Data, stride: nat, remembered: set<nat>)
    requires job.Valid()
  {
    var last, skipped := job.Total() - 1, Skipped(job, final, stride, remembered);
    && final == job.src && AllBut(job, skipped, last)
    && (last in skipped || forall i: nat :: i < last ==> ZeroChunk(job, i))
  }

  // ----- the start -----

  lemma StartsSo(job: Job, final: Data, stride: nat, remembered: set<nat>, w: World, a: Attempt)
    requires job.Valid() && Repeats(job, final, stride, remembered, w, a)
    ensures var s, plan := Start(job, w, a), PlanOf(job, w, a);
            && plan == Plan(stride, a.batch, Skipped(job, final, stride, remembered))
            && s.temp == None && s.final == Some(final) && s.acked == {} && s.pending == [] && !s.paused
            && s.adb == AtChunk(0) && s.wifi == Scan(0)
  {
    hide PrepareResume;
  }

  // ----- what any run keeps -----

  /** The finished file stays, and what is pending belongs to the Wi-Fi lane. */
  ghost predicate OverFinished(job: Job, plan: Plan, s: State, final: Data) {
    s.final == Some(final) && PendingOwned(job, plan, s.pending)
  }

  lemma StepOverFinished(job: Job, plan: Plan, s: State, a: Action, final: Data)
    requires job.Valid() && OverFinished(job, plan, s, final)
    ensures PendingOk(job, s) && OverFinished(job, plan, Step(job, plan, s, a), final)
  {
    assert PendingOk(job, s);
    StepKeepsFinal(job, plan, s, a);
    hide AdbStep, WifiStep, Owns, Carried;
    match a
    case AdbTurn(luck) => AdbKeepsPending(job, plan, s, luck);
    case WifiTurn(luck) => WifiKeepsOwned(job, plan, s, luck);
    case PauseRequest =>
    case Late(_, _) =>
  }

  lemma AdbKeepsPending(job: Job, plan: Plan, s: State, luck: Luck)
    requires job.Valid()
    ensures AdbStep(job, plan, s, luck).pending == s.pending
  { }

  lemma ScanKeepsOwned(job: Job, plan: Plan, s: State, i: nat)
    requires PendingOwned(job, plan, s.pending)
    ensures PendingOwned(job, plan, WifiScan(job, plan, s, i).pending)
  {
    hide Owns;
  }

  lemma WifiKeepsOwned(job: Job, plan: Plan, s: State, luck: Luck)
    requires job.Valid() && PendingOk(job, s) && PendingOwned(job, plan, s.pending)
    ensures PendingOwned(job, plan, WifiStep(job, plan, s, luck).pending)
  {
    hide Owns, ChunkLengthFor, SendChunk, WifiScan;
    if s.wifi.Scan? { ScanKeepsOwned(job, plan, s, s.wifi.i); }
    if s.wifi.Batch? && s.wifi.frame < |s.pending| { SendIsCarried(job, s, s.pending[s.wifi.frame]); }
    if s.wifi.Fallback? && s.wifi.m < |s.pending| { SendIsCarried(job, s, s.pending[s.wifi.m]); }
  }

  /** Only chunks the finished file covers are taken on trust. */
  lemma TrustsCovered(job: Job, plan: Plan, s: State, a: Action, final: Data, n: set<nat>)
    requires job.Valid() && OverFinished(job, plan, s, final) && s.trusted <= n
    requires forall i: nat :: i < job.Total() && Owns(Wifi, i, plan.stride) && |final| >= job.To(i) ==> i in n
    ensures PendingOk(job, s) && Step(job, plan, s, a).trusted <= n
  {
    hide ChunkLengthFor, Owns, WriteAt;
    assert PendingOk(job, s);
  }

  lemma {:induction false} RunArrives(job: Job, plan: Plan, s: State, actions: seq<Action>, final: Data, n: set<nat>)
    requires job.Valid() && OverFinished(job, plan, s, final) && Arriving(job, plan, s, n)
    requires forall i: nat :: i < job.Total() && Owns(Wifi, i, plan.stride) && |final| >= job.To(i) ==> i in n
    ensures PendingOk(job, s)
    ensures var s1 := Run(job, plan, s, actions);
            OverFinished(job, plan, s1, final) && Arriving(job, plan, s1, n)
    decreases actions
  {
    hide Step, Arriving, Owns, ChunkLengthFor, PendingOwned;
    OwnedIsOk(job, plan, s, final);
    if actions != [] {
      StepOverFinished(job, plan, s, actions[0], final);
      TrustsCovered(job, plan, Blind(s, n), actions[0], final, n);
      StepArrives(job, plan, s, actions[0], n);
      RunArrives(job, plan, Step(job, plan, s, actions[0]), actions[1..], final, n);
    }
  }

  lemma OwnedIsOk(job: Job, plan: Plan, s: State, final: Data)
    requires OverFinished(job, plan, s, final)
    ensures PendingOk(job, s)
  { }

  // ----- safe: what is sent covers everything that matters -----

  lemma ZerosAreThere(job: Job, temp: Option<Data>, i: nat)
    requires job.Valid() && i < job.Total() && ZeroChunk(job, i) && OnlyHoles(job, temp) && Length(temp) >= |job.src|
    ensures Exact(job, temp, i)
  {
    hide ChunkLengthFor;
    Ranges(job, i);
  }

  lemma ExactIsLong(job: Job, temp: Option<Data>, i: nat)
    requires job.Valid() && i < job.Total() && Exact(job, temp, i)
    ensures temp.Some? && Length(temp) >= job.To(i) && Length(temp) > 0
    ensures i + 1 == job.Total() ==> Length(temp) >= |job.src|
  {
    hide ChunkLengthFor;
    Ranges(job, i);
    Neighbours(job, i);
  }

  /** A file with the last chunk, whose missing chunks are zeros, is the source. */
  lemma HolesAreFine(job: Job, temp: Option<Data>, n: set<nat>)
    requires job.Valid() && OnlyHoles(job, temp) && job.Total() - 1 !in n && ZerosOnly(job, n)
    requires forall i: nat :: i < job.Total() && i !in n ==> Exact(job, temp, i)
    ensures temp == Some(job.src)
  {
    hide Exact, OnlyHoles, ZeroChunk;
    ExactIsLong(job, temp, job.Total() - 1);
    forall i: nat | i < job.Total() ensures Exact(job, temp, i) { if i in n { ZerosAreThere(job, temp, i); } }
    AllThereIff(job, temp);
    HolesAreShort(job, temp);
    SameFileIff(temp, job.src);
  }

  lemma HolesAreShort(job: Job, temp: Option<Data>)
    requires OnlyHoles(job, temp)
    ensures Length(temp) <= |job.src|
  { }

  lemma AttemptArrives(job: Job, final: Data, stride: nat, remembered: set<nat>, w: World, a: Attempt)
    requires job.Valid() && Repeats(job, final, stride, remembered, w, a)
    ensures var s := After(job, w, a);
            && OnlyHoles(job, s.temp) && s.final == Some(final)
            && (s.adb == AdbDone && s.wifi == WifiDone ==>
                 forall i: nat :: i < job.Total() && i !in MayStay(job, final, stride, remembered) ==>
                   Exact(job, s.temp, i))
  {
    hide Run, PlanOf, Start, Arriving, Skipped, Owns, Exact, ChunkLengthFor;
    var s0, plan, stay := Start(job, w, a), PlanOf(job, w, a), MayStay(job, final, stride, remembered);
    StartsSo(job, final, stride, remembered, w, a);
    SkippedInRange(job, final, stride, remembered);
    StartArrives(job, plan, s0, stay);
    RunArrives(job, plan, s0, a.actions, final, stay);
    RunLeavesHoles(job, plan, s0, a.actions);
    var s := After(job, w, a);
    if s.adb == AdbDone && s.wifi == WifiDone { ArrivedAll(job, plan, s, stay); }
  }

  lemma SkippedInRange(job: Job, final: Data, stride: nat, remembered: set<nat>)
    requires job.Valid()
    ensures forall i :: i in Skipped(job, final, stride, remembered) ==> i < job.Total()
    ensures Skipped(job, final, stride, remembered) <= MayStay(job, final, stride, remembered)
  {
    hide PrepareResume;
  }

  lemma SentOverKeeps(job: Job, final: Data, stride: nat, remembered: set<nat>)
    requires job.Valid() && SentOver(job, final, stride, remembered)
    ensures KeepsSource(job, final, stride, remembered, true)
  {
    hide Repeats, After, MayStay, ZerosOnly, Exact, OnlyHoles;
    forall w, a | Repeats(job, final, stride, remembered, w, a)
      ensures var s := After(job, w, a);
              s.adb == AdbDone && s.wifi == WifiDone ==> Finished(s) == Some(job.src)
    {
      AttemptArrives(job, final, stride, remembered, w, a);
      var s := After(job, w, a);
      if s.adb == AdbDone && s.wifi == WifiDone {
        HolesAreFine(job, s.temp, MayStay(job, final, stride, remembered));
      }
    }
  }

  // ----- safe: what is there stays -----

  /** Nothing but chunk `last` was ever sent. */
  ghost predicate OnlyLast(job: Job, plan: Plan, s: State, last: nat)
    requires job.Valid() && last < job.Total()
  {
    && PendingOk(job, s) && (forall k :: 0 <= k < |s.pending| ==> s.pending[k] !in plan.completed)
    && (s.temp == None || (last !in plan.completed && Exact(job, s.temp, last)))
  }

  lemma SendLast(job: Job, plan: Plan, s: State, i: nat, last: nat)
    requires job.Valid() && last < job.Total() && i < job.Total() && i !in plan.completed
    requires AllBut(job, plan.completed, last)
    ensures last !in plan.completed && Exact(job, SendChunk(job, s, i).temp, last)
  {
    hide Exact, SendChunk;
    SendChunkHelps(job, s, i);
  }

  lemma AdbOnlyLast(job: Job, plan: Plan, s: State, luck: Luck, last: nat)
    requires job.Valid() && last < job.Total() && AllBut(job, plan.completed, last) && OnlyLast(job, plan, s, last)
    ensures OnlyLast(job, plan, AdbStep(job, plan, s, luck), last)
  {
    hide Exact, SendChunk, Owns, ChunkLengthFor, AllBut;
    if s.adb.AtChunk? && s.adb.i < job.Total() && s.adb.i !in plan.completed {
      SendLast(job, plan, s, s.adb.i, last);
      SendIsCarried(job, s, s.adb.i);
    }
  }

  lemma ScanOnlyLast(job: Job, plan: Plan, s: State, i: nat, last: nat)
    requires job.Valid() && last < job.Total() && OnlyLast(job, plan, s, last)
    ensures OnlyLast(job, plan, WifiScan(job, plan, s, i), last)
  {
    hide Exact, Owns, ChunkLengthFor;
  }

  lemma WifiOnlyLast(job: Job, plan: Plan, s: State, luck: Luck, last: nat)
    requires job.Valid() && last < job.Total() && AllBut(job, plan.completed, last) && OnlyLast(job, plan, s, last)
    ensures OnlyLast(job, plan, WifiStep(job, plan, s, luck), last)
  {
    hide Exact, SendChunk, Owns, ChunkLengthFor, AllBut, WifiScan;
    if s.wifi.Scan? { ScanOnlyLast(job, plan, s, s.wifi.i, last); }
    var k := if s.wifi.Batch? then s.wifi.frame else if s.wifi.Fallback? then s.wifi.m else |s.pending|;
    if k < |s.pending| {
      SendLast(job, plan, s, s.pending[k], last);
      SendIsCarried(job, s, s.pending[k]);
    }
  }

  lemma StepOnlyLast(job: Job, plan: Plan, s: State, a: Action, last: nat)
    requires job.Valid() && last < job.Total() && AllBut(job, plan.completed, last) && !a.Late?
    requires OnlyLast(job, plan, s, last)
    ensures PendingOk(job, s) && OnlyLast(job, plan, Step(job, plan, s, a), last)
  {
    hide Exact, AdbStep, WifiStep, AllBut;
    match a
    case AdbTurn(luck) => AdbOnlyLast(job, plan, s, luck, last);
    case WifiTurn(luck) => WifiOnlyLast(job, plan, s, luck, last);
    case PauseRequest =>
    case Late(_, _) =>
  }

  lemma {:induction false} RunOnlyLast(job: Job, plan: Plan, s: State, actions: seq<Action>, last: nat)
    requires job.Valid() && last < job.Total() && AllBut(job, plan.completed, last) && NoneLate(actions)
    requires OnlyLast(job, plan, s, last)
    ensures PendingOk(job, s) && OnlyLast(job, plan, Run(job, plan, s, actions), last)
    decreases actions
  {
    assert PendingOk(job, s);
    hide Step, OnlyLast, AllBut;
    if actions != [] {
      StepOnlyLast(job, plan, s, actions[0], last);
      assert forall k :: 0 <= k < |actions[1..]| ==> actions[1..][k] == actions[k + 1];
      RunOnlyLast(job, plan, Step(job, plan, s, actions[0]), actions[1..], last);
    }
  }

  lemma LeftAloneEnds(job: Job, final: Data, stride: nat, remembered: set<nat>, w: World, a: Attempt)
    requires job.Valid() && Repeats(job, final, stride, remembered, w, a) && NoneLate(a.actions)
    requires LeftAlone(job, final, stride, remembered)
    ensures Finished(After(job, w, a)) == Some(job.src)
  {
    hide Run, PlanOf, Start, Skipped, Exact, ZeroChunk, OnlyHoles, Repeats;
    var last, plan := job.Total() - 1, PlanOf(job, w, a);
    StartsSo(job, final, stride, remembered, w, a);
    RunOnlyLast(job, plan, Start(job, w, a), a.actions, last);
    AttemptArrives(job, final, stride, remembered, w, a);
    var s := After(job, w, a);
    if s.temp.Some? {
      ExactIsLong(job, s.temp, last);
      forall i: nat | i < job.Total() ensures Exact(job, s.temp, i) { if i < last { ZerosAreThere(job, s.temp, i); } }
      AllThereIff(job, s.temp);
      HolesAreShort(job, s.temp);
      SameFileIff(s.temp, job.src);
    }
  }

  // ----- otherwise there is a run that spoils the file -----

  function RepeatWorld(final: Data, remembered: set<nat>): World { World(None, Some(final), remembered, {}) }

  function RepeatAttempt(stride: nat, remembered: set<nat>, actions: seq<Action>): Attempt {
    Attempt(stride, 1, remembered, false, false, actions)
  }

  lemma NothingSentYet(job: Job, n: set<nat>)
    requires job.Valid()
    ensures NeverSent(job, n, None)
  { }

  lemma SkippingFrom(job: Job, plan: Plan, s: State, n: set<nat>, final: Data)
    requires job.Valid() && s.temp == None && s.final == Some(final) && s.acked == {} && s.pending == [] && !s.paused
    requires s.adb == AtChunk(0) && s.wifi == Scan(0)
    requires plan.completed <= n <= plan.completed + Covered(job, plan.stride, |final|)
    ensures Skipping(job, plan, s, n)
  {
    hide NeverSent, Arriving, ChunkLengthFor, Owns;
    NothingSentYet(job, n);
    StartArrives(job, plan, s, n);
  }

  /** For any set between what is skipped and what may stay, a run that ends both lanes well and
      sends exactly the others. */
  lemma RepeatRun(job: Job, final: Data, stride: nat, remembered: set<nat>, n: set<nat>) returns (actions: seq<Action>)
    requires job.Valid()
    requires Skipped(job, final, stride, remembered) <= n <= MayStay(job, final, stride, remembered)
    ensures NoneLate(actions)
    ensures var w, a := RepeatWorld(final, remembered), RepeatAttempt(stride, remembered, actions);
            var s := After(job, w, a);
            && Repeats(job, final, stride, remembered, w, a)
            && s.adb == AdbDone && s.wifi == WifiDone && s.final == Some(final)
            && NeverSent(job, n, s.temp) && Length(s.temp) <= |job.src|
            && (forall i: nat :: i < job.Total() && i !in n ==> Exact(job, s.temp, i))
  {
    hide Run, PlanOf, Start, Skipping, Skipped, Covered, Exact, NeverSent;
    var w := RepeatWorld(final, remembered);
    var plan := Plan(stride, 1, Skipped(job, final, stride, remembered));
    var s0 := Start(job, w, RepeatAttempt(stride, remembered, []));
    StartsSo(job, final, stride, remembered, w, RepeatAttempt(stride, remembered, []));
    SkippingFrom(job, plan, s0, n, final);
    actions := SkippingRun(job, plan, s0, n);
    var a := RepeatAttempt(stride, remembered, actions);
    StartsSo(job, final, stride, remembered, w, a);
    SameStart(job, w, stride, remembered, actions);
    SkippingEnds(job, plan, After(job, w, a), n);
  }

  lemma SameStart(job: Job, w: World, stride: nat, remembered: set<nat>, actions: seq<Action>)
    requires job.Valid()
    ensures Start(job, w, RepeatAttempt(stride, remembered, actions))
         == Start(job, w, RepeatAttempt(stride, remembered, []))
  { }

  /** When such a run leaves the source. */
  lemma SentMeans(job: Job, s: State, n: set<nat>)
    requires job.Valid() && NeverSent(job, n, s.temp) && Finished(s) == Some(job.src)
    requires forall i: nat :: i < job.Total() && i !in n ==> Exact(job, s.temp, i)
    ensures (forall i: nat :: i < job.Total() ==> i in n) ==> s.final == Some(job.src)
    ensures !(forall i: nat :: i < job.Total() ==> i in n) ==> job.Total() - 1 !in n && ZerosOnly(job, n)
  {
    hide Exact, Unwritten, ZeroChunk, ChunkLengthFor;
    if i: nat :| i < job.Total() && i !in n {
      ExactIsLong(job, s.temp, i);
      Ranges(job, job.Total() - 1);
      forall j: nat | j < job.Total() && j in n ensures ZeroChunk(job, j) {
        if !ZeroChunk(job, j) { LostIsWrong(job, s.temp, j); }
      }
    }
  }

  /** So each set between those two must be one that can be left out. */
  lemma SetKept(job: Job, final: Data, stride: nat, remembered: set<nat>, n: set<nat>)
    requires job.Valid() && KeepsSource(job, final, stride, remembered, false)
    requires Skipped(job, final, stride, remembered) <= n <= MayStay(job, final, stride, remembered)
    ensures (forall i: nat :: i < job.Total() ==> i in n) ==> final == job.src
    ensures !(forall i: nat :: i < job.Total() ==> i in n) ==> job.Total() - 1 !in n && ZerosOnly(job, n)
  {
    hide After, Exact, NeverSent, Repeats, Skipped, MayStay, ZeroChunk, Finished, NoneLate;
    var actions := RepeatRun(job, final, stride, remembered, n);
    var s := After(job, RepeatWorld(final, remembered), RepeatAttempt(stride, remembered, actions));
    SentMeans(job, s, n);
  }

  lemma KeptMeans(job: Job, final: Data, stride: nat, remembered: set<nat>)
    requires job.Valid() && KeepsSource(job, final, stride, remembered, false)
    ensures SentOver(job, final, stride, remembered) || LeftAlone(job, final, stride, remembered)
  {
    hide KeepsSource, ZeroChunk, Skipped, Covered;
    var last := job.Total() - 1;
    var skipped, stay := Skipped(job, final, stride, remembered), MayStay(job, final, stride, remembered);
    SetKept(job, final, stride, remembered, skipped);
    SetKept(job, final, stride, remembered, stay);
    if last in stay && last !in skipped { SetKept(job, final, stride, remembered, skipped + {last}); }
  }

  // ----- late requests -----

  lemma {:induction false} RunOn(job: Job, plan: Plan, s: State, a: seq<Action>, b: seq<Action>)
    requires job.Valid() && PendingOk(job, s)
    ensures Run(job, plan, s, a + b) == Run(job, plan, Run(job, plan, s, a), b)
    decreases a
  {
    hide Step;
    if a == [] {
      assert a + b == b;
    } else {
      PendingStays(job, plan, s, a[0]);
      assert (a + b)[1..] == a[1..] + b;
      RunOn(job, plan, Step(job, plan, s, a[0]), a[1..], b);
    }
  }

  lemma LateOpens(job: Job, plan: Plan, s: State)
    requires job.Valid() && PendingOk(job, s) && s.temp == None
    ensures var s1 := Run(job, plan, s, [Late(0, 0)]);
            s1.temp == Some([]) && s1.adb == s.adb && s1.wifi == s.wifi
  {
    Ranges(job, 0);
    assert [Late(0, 0)][1..] == [];
    assert job.src[job.From(0)..Min(job.From(0) + 0, job.To(0))] == [];
    assert Carried(job, s.temp, 0, 0) == Some([]);
    hide ChunkLengthFor;
  }

  /** A request that is carried out late may create the new file after all. */
  lemma LateSpoils(job: Job, final: Data, stride: nat, remembered: set<nat>)
    requires job.Valid() && forall i: nat :: i < job.Total() ==> i in MayStay(job, final, stride, remembered)
    ensures !KeepsSource(job, final, stride, remembered, true)
  {
    hide Run, PlanOf, Start, Skipped, MayStay, Exact, Unwritten;
    var n := MayStay(job, final, stride, remembered);
    SkippedInRange(job, final, stride, remembered);
    var actions := RepeatRun(job, final, stride, remembered, n);
    var w, more := RepeatWorld(final, remembered), RepeatAttempt(stride, remembered, actions + [Late(0, 0)]);
    var plan, s0 := PlanOf(job, w, more), Start(job, w, more);
    StartsSo(job, final, stride, remembered, w, more);
    StartsSo(job, final, stride, remembered, w, RepeatAttempt(stride, remembered, actions));
    SameStart(job, w, stride, remembered, actions);
    SameStart(job, w, stride, remembered, actions + [Late(0, 0)]);
    RunOn(job, plan, s0, actions, [Late(0, 0)]);
    LateOpens(job, plan, Run(job, plan, s0, actions));
    assert Repeats(job, final, stride, remembered, w, more);
    assert Finished(After(job, w, more)) == Some([]);
  }

  lemma FewerRuns(job: Job, final: Data, stride: nat, remembered: set<nat>)
    requires job.Valid() && KeepsSource(job, final, stride, remembered, true)
    ensures KeepsSource(job, final, stride, remembered, false)
  {
    hide After, Repeats, Finished, NoneLate;
  }

  /** Left alone but not sent over means that all may stay. */
  lemma LeftAloneMayStay(job: Job, final: Data, stride: nat, remembered: set<nat>)
    requires job.Valid() && LeftAlone(job, final, stride, remembered) && !SentOver(job, final, stride, remembered)
    ensures forall i: nat :: i < job.Total() ==> i in MayStay(job, final, stride, remembered)
  {
    hide Skipped, Covered, ZeroChunk;
  }

  /** Repeating an attempt over a finished file, for every file, split and remembered set. Without
      late requests, both lanes ending well and completing always leave the source exactly when the
      last chunk has to be sent and all that may stay unsent is zeros, or the source is there
      already and everything is skipped, or all but the last chunk of a file that is zeros up to
      it. With late requests only the first is left. */
  lemma RepeatKeepsIff(job: Job, final: Data, stride: nat, remembered: set<nat>)
    requires job.Valid()
    ensures KeepsSource(job, final, stride, remembered, false) <==>
      SentOver(job, final, stride, remembered) || LeftAlone(job, final, stride, remembered)
    ensures KeepsSource(job, final, stride, remembered, true) <==> SentOver(job, final, stride, remembered)
  {
    hide KeepsSource, SentOver, LeftAlone;
    if KeepsSource(job, final, stride, remembered, false) { KeptMeans(job, final, stride, remembered); }
    if SentOver(job, final, stride, remembered) {
      SentOverKeeps(job, final, stride, remembered);
      FewerRuns(job, final, stride, remembered);
    } else if LeftAlone(job, final, stride, remembered) {
      LeftAloneKeeps(job, final, stride, remembered);
      LeftAloneMayStay(job, final, stride, remembered);
      LateSpoils(job, final, stride, remembered);
    }
    if KeepsSource(job, final, stride, remembered, true) { FewerRuns(job, final, stride, remembered); }
  }

  lemma LeftAloneKeeps(job: Job, final: Data, stride: nat, remembered: set<nat>)
    requires job.Valid() && LeftAlone(job, final, stride, remembered)
    ensures KeepsSource(job, final, stride, remembered, false)
  {
    hide Repeats, After, LeftAlone, Finished, NoneLate;
    forall w, a | Repeats(job, final, stride, remembered, w, a) && NoneLate(a.actions)
      ensures Finished(After(job, w, a)) == Some(job.src)
    {
      LeftAloneEnds(job, final, stride, remembered, w, a);
    }
  }

  const AFTER_ZERO := Job([0, 1, 1], 1)

  /** The finished file is the source and its first chunk is remembered: the length of the finished
      file confirms the second chunk, and the new file has a zero there. */
  lemma RepeatLoses()
    ensures AFTER_ZERO.Valid() && !KeepsSource(AFTER_ZERO, AFTER_ZERO.src, 2, {0}, false)
  {
    var job := AFTER_ZERO;
    assert job.Total() == 3 && job.From(1) == 1 && job.To(1) == 2 && Owns(Wifi, 1, 2);
    assert 1 in Covered(job, 2, 3);
    assert !ZeroChunk(job, 1) by { assert job.src[1] == 1; }
    assert 1 !in Skipped(job, job.src, 2, {0});
    assert !AllBut(job, Skipped(job, job.src, 2, {0}), 2);
    RepeatKeepsIff(job, job.src, 2, {0});
  }
}
