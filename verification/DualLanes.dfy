/** How the lanes of a Dual attempt stop and batch: a failure or a pause is heard by both, nothing is
    recorded then but what was under way, and the Wi-Fi lane sends full batches but for the last. */
module DualLanes {
  import opened Wrappers
  import opened Models
  import opened Bytes
  import opened Chunks
  import opened Dual
  import opened DualHoles

  // ----- starting -----

  /** The finished file is gone after an attempt exactly when nothing was remembered and removing it
      worked; no turn of either lane touches it. */
  lemma FinishedFileIs(job: Job, w: World, a: Attempt)
    requires job.Valid()
    ensures After(job, w, a).final == if a.remembered == {} && a.finalRemoved then None else w.final
    ensures Start(job, w, a).temp == if a.remembered == {} && a.tempRemoved then None else w.temp
  {
    hide Run, PrepareResume;
    RunKeepsFinal(job, PlanOf(job, w, a), Start(job, w, a), a.actions);
  }

  lemma {:induction false} RunKeepsFinal(job: Job, plan: Plan, s: State, actions: seq<Action>)
    requires job.Valid() && PendingOk(job, s)
    ensures Run(job, plan, s, actions).final == s.final
    decreases actions
  {
    hide Step;
    if actions != [] {
      PendingStays(job, plan, s, actions[0]);
      StepKeepsFinal(job, plan, s, actions[0]);
      RunKeepsFinal(job, plan, Step(job, plan, s, actions[0]), actions[1..]);
    }
  }

  /** An attempt that has something to read back and no file to read it from ends before it begins:
      whatever turns follow, neither lane ends well, nothing is recorded or forgotten, and, short of a
      late request, nothing is written. */
  lemma NothingReadNothingDone(job: Job, w: World, a: Attempt, i: nat)
    requires job.Valid() && i in a.remembered && i < job.Total() && w.temp == None && w.final == None
    ensures var s := After(job, w, a);
            && s.adb == AdbFailed && s.wifi == WifiFailed && s.recorded == a.remembered
            && (NoneLate(a.actions) ==> s.temp == None)
  {
    hide Run, PrepareResume;
    assert i in InRange(a.remembered, job.Total());
    FailedStays(job, PlanOf(job, w, a), Start(job, w, a), a.actions);
  }

  lemma {:induction false} FailedStays(job: Job, plan: Plan, s: State, actions: seq<Action>)
    requires job.Valid() && PendingOk(job, s) && s.adb == AdbFailed && s.wifi == WifiFailed
    ensures var s1 := Run(job, plan, s, actions);
            && s1.adb == AdbFailed && s1.wifi == WifiFailed && s1.recorded == s.recorded
            && (NoneLate(actions) ==> s1.temp == s.temp)
    decreases actions
  {
    hide Carried;
    if actions != [] {
      assert NoneLate(actions) ==> NoneLate(actions[1..]) by {
        assert forall k :: 0 <= k < |actions[1..]| ==> actions[1..][k] == actions[k + 1];
      }
      FailedStays(job, plan, Step(job, plan, s, actions[0]), actions[1..]);
    }
  }

  // ----- stopping -----

  /** A lane that fails has asked the other to stop, or was asked itself. */
  lemma FailureIsHeard(job: Job, plan: Plan, s: State, a: Action)
    requires job.Valid() && PendingOk(job, s)
    ensures var s1 := Step(job, plan, s, a);
            && (s.paused ==> s1.paused)
            && (s.adb != AdbFailed && s1.adb == AdbFailed ==> s1.paused)
            && (s.wifi != WifiFailed && s1.wifi == WifiFailed ==> s1.paused)
  {
    hide Owns, ChunkLengthFor, Written;
  }

  /** What was under way when the pause came. */
  predicate UnderWay(s: State, i: nat) { i in s.pending || s.adb == ToRecord(i) }

  /** Since the pause, no more than that was recorded or is under way. */
  ghost predicate WindsUp(s: State, s1: State) {
    && s1.paused && (forall i :: UnderWay(s1, i) ==> UnderWay(s, i))
    && (forall i :: i in s1.recorded ==> i in s.recorded || UnderWay(s, i))
  }

  lemma AdbWindsUp(job: Job, plan: Plan, s: State, luck: Luck)
    requires job.Valid() && s.paused
    ensures WindsUp(s, AdbStep(job, plan, s, luck))
  {
    hide Owns, ChunkLengthFor, Written;
  }

  lemma WifiWindsUp(job: Job, plan: Plan, s: State, luck: Luck)
    requires job.Valid() && PendingOk(job, s) && s.paused
    ensures WindsUp(s, WifiStep(job, plan, s, luck))
  {
    hide Owns, ChunkLengthFor, Written;
  }

  lemma StepWindsUp(job: Job, plan: Plan, s: State, a: Action)
    requires job.Valid() && PendingOk(job, s) && s.paused
    ensures WindsUp(s, Step(job, plan, s, a))
  {
    hide AdbStep, WifiStep, Carried;
    match a
    case AdbTurn(luck) => AdbWindsUp(job, plan, s, luck);
    case WifiTurn(luck) => WifiWindsUp(job, plan, s, luck);
    case PauseRequest =>
    case Late(_, _) =>
  }

  lemma WindsUpTwice(a: State, b: State, c: State)
    requires WindsUp(a, b) && WindsUp(b, c)
    ensures WindsUp(a, c)
  {
    hide UnderWay;
  }

  lemma WindsUpAtOnce(s: State)
    requires s.paused
    ensures WindsUp(s, s)
  { }

  /** After a pause, or a failure of either lane, whatever turns follow, nothing is recorded that was
      not being sent or recorded at that moment. */
  lemma {:induction false} PausedRunWindsUp(job: Job, plan: Plan, s: State, actions: seq<Action>)
    requires job.Valid() && PendingOk(job, s) && s.paused
    ensures WindsUp(s, Run(job, plan, s, actions))
    decreases actions
  {
    hide Step, WindsUp;
    if actions == [] {
      WindsUpAtOnce(s);
    } else {
      var s1 := Step(job, plan, s, actions[0]);
      StepWindsUp(job, plan, s, actions[0]);
      FailureIsHeard(job, plan, s, actions[0]);
      PendingStays(job, plan, s, actions[0]);
      PausedRunWindsUp(job, plan, s1, actions[1..]);
      WindsUpTwice(s, s1, Run(job, plan, s1, actions[1..]));
    }
  }

  // ----- batches -----

  /** A batch that is sent is full, or the last; until then there is room. */
  predicate Batched(job: Job, plan: Plan, s: State) {
    var most := if plan.batch == 0 then 1 else plan.batch;
    match s.wifi
    case Scan(_) => |s.pending| < most
    case Batch(_, next) => |s.pending| == most || (0 < |s.pending| < most && next >= job.Total())
    case Fallback(_, next) => |s.pending| == most || (0 < |s.pending| < most && next >= job.Total())
    case Commit(_, next) => |s.pending| == most || (0 < |s.pending| < most && next >= job.Total())
    case WifiDone => s.pending == []
    case WifiFailed => |s.pending| <= most
  }

  lemma StepBatches(job: Job, plan: Plan, s: State, a: Action)
    requires job.Valid() && PendingOk(job, s) && Batched(job, plan, s)
    ensures Batched(job, plan, Step(job, plan, s, a))
  {
    hide Owns, ChunkLengthFor, Written;
  }

  /** In every prefix of every attempt the Wi-Fi lane sends full batches, but for the last one of the
      file. */
  lemma {:induction false} RunBatches(job: Job, plan: Plan, s: State, actions: seq<Action>)
    requires job.Valid() && PendingOk(job, s) && Batched(job, plan, s)
    ensures Batched(job, plan, Run(job, plan, s, actions))
    decreases actions
  {
    hide Step, Batched;
    if actions != [] {
      PendingStays(job, plan, s, actions[0]);
      StepBatches(job, plan, s, actions[0]);
      RunBatches(job, plan, Step(job, plan, s, actions[0]), actions[1..]);
    }
  }

  lemma AttemptBatches(job: Job, w: World, a: Attempt)
    requires job.Valid()
    ensures Batched(job, PlanOf(job, w, a), After(job, w, a))
  {
    hide Step, PrepareResume;
    RunBatches(job, PlanOf(job, w, a), Start(job, w, a), a.actions);
  }

  // ----- the chunks read back -----

  const TEN := {0, 1, 2, 3, 4, 5, 6, 7, 8, 9}

  /** Of ten remembered chunks, every fifth the Wi-Fi lane's from 1 on, these are read back: the first,
      the last two, and the first and last of the Wi-Fi lane. */
  lemma TenGuards(i: nat)
    requires i in TEN
    ensures Guard(TEN, 5, i) <==> i in {0, 1, 6, 8, 9}
  {
    var above := set j | j in TEN && j > i;
    if i < 8 { FewerMembers({8, 9}, above); } else { FewerMembers(above, {9}); }
    assert WifiOwns(1, 5) && WifiOwns(6, 5) && !WifiOwns(0, 5) && !WifiOwns(9, 5);
  }
}
