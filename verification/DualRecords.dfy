/** What a Dual attempt records: every chunk a lane sends comes to its record call, what is recorded
    is exactly what was remembered or recorded with success, and the next attempt sends no more than
    what does not read back. */
module DualRecords {
  import opened Wrappers
  import opened Models
  import opened Bytes
  import opened Chunks
  import opened Dual
  import opened DualHoles

  /** The run comes to the record call of the chunk. */
  ghost predicate Comes(job: Job, plan: Plan, s: State, actions: seq<Action>, i: nat)
    requires job.Valid() && PendingOk(job, s)
  {
    exists k :: 0 <= k < |actions| && AtRecord(Run(job, plan, s, actions[..k]), actions[k], i)
  }

  /** And the call succeeds. */
  ghost predicate Records(job: Job, plan: Plan, s: State, actions: seq<Action>, i: nat)
    requires job.Valid() && PendingOk(job, s)
  {
    exists k :: 0 <= k < |actions| && AtRecord(Run(job, plan, s, actions[..k]), actions[k], i) && Succeeds(actions[k])
  }

  lemma FirstOrLater(job: Job, plan: Plan, s: State, actions: seq<Action>, i: nat)
    requires job.Valid() && PendingOk(job, s) && actions != []
    ensures PendingOk(job, Step(job, plan, s, actions[0]))
    ensures var s1 := Step(job, plan, s, actions[0]);
            && (Comes(job, plan, s, actions, i) <==>
                 AtRecord(s, actions[0], i) || Comes(job, plan, s1, actions[1..], i))
            && (Records(job, plan, s, actions, i) <==>
                 (AtRecord(s, actions[0], i) && Succeeds(actions[0])) || Records(job, plan, s1, actions[1..], i))
  {
    hide Step, AtRecord;
    PendingStays(job, plan, s, actions[0]);
    var s1, rest := Step(job, plan, s, actions[0]), actions[1..];
    assert Run(job, plan, s, actions[..0]) == s;
    forall k | 0 <= k < |rest|
      ensures Run(job, plan, s, actions[..k + 1]) == Run(job, plan, s1, rest[..k]) && actions[k + 1] == rest[k]
    {
      assert actions[..k + 1][1..] == rest[..k];
    }
    if Comes(job, plan, s, actions, i) && !AtRecord(s, actions[0], i) {
      var k :| 0 <= k < |actions| && AtRecord(Run(job, plan, s, actions[..k]), actions[k], i);
      assert AtRecord(Run(job, plan, s1, rest[..k - 1]), rest[k - 1], i);
    }
    if Records(job, plan, s, actions, i) && !(AtRecord(s, actions[0], i) && Succeeds(actions[0])) {
      var k :| 0 <= k < |actions| && AtRecord(Run(job, plan, s, actions[..k]), actions[k], i) && Succeeds(actions[k]);
      assert AtRecord(Run(job, plan, s1, rest[..k - 1]), rest[k - 1], i);
    }
    if Comes(job, plan, s1, rest, i) {
      var k :| 0 <= k < |rest| && AtRecord(Run(job, plan, s1, rest[..k]), rest[k], i);
      assert AtRecord(Run(job, plan, s, actions[..k + 1]), actions[k + 1], i);
    }
    if Records(job, plan, s1, rest, i) {
      var k :| 0 <= k < |rest| && AtRecord(Run(job, plan, s1, rest[..k]), rest[k], i) && Succeeds(rest[k]);
      assert AtRecord(Run(job, plan, s, actions[..k + 1]), actions[k + 1], i);
    }
  }

  /** In every prefix of every run, a chunk is recorded exactly when it was so at the start or its
      record call succeeded. */
  lemma {:induction false} RecordedIff(job: Job, plan: Plan, s: State, actions: seq<Action>, i: nat)
    requires job.Valid() && PendingOk(job, s)
    ensures i in Run(job, plan, s, actions).recorded <==> i in s.recorded || Records(job, plan, s, actions, i)
    decreases actions
  {
    hide Step, AtRecord, Records;
    if actions == [] {
      NoRecords(job, plan, s, i);
    } else {
      FirstOrLater(job, plan, s, actions, i);
      StepRecords(job, plan, s, actions[0], i);
      RecordedIff(job, plan, Step(job, plan, s, actions[0]), actions[1..], i);
    }
  }

  lemma NoRecords(job: Job, plan: Plan, s: State, i: nat)
    requires job.Valid() && PendingOk(job, s)
    ensures !Records(job, plan, s, [], i) && !Comes(job, plan, s, [], i)
  { }

  // ----- a record call that fails -----

  /** The same, or the same lane's turn to record, however that ends. */
  ghost predicate SameTurn(s: State, a: Action, b: Action) {
    a == b || ((a.AdbTurn? <==> b.AdbTurn?) && exists i: nat :: AtRecord(s, a, i) && AtRecord(s, b, i))
  }

  /** The same turns but for how record calls turn out. */
  ghost predicate Alike(job: Job, plan: Plan, s: State, actions: seq<Action>, others: seq<Action>)
    requires job.Valid() && PendingOk(job, s)
    decreases actions
  {
    && |actions| == |others|
    && (actions != [] ==>
         && SameTurn(s, actions[0], others[0])
         && PendingOk(job, Step(job, plan, s, actions[0]))
         && Alike(job, plan, Step(job, plan, s, actions[0]), actions[1..], others[1..]))
  }

  predicate SameBut(a: State, b: State) { a.(recorded := {}) == b.(recorded := {}) }

  lemma SameButTwice(a: State, b: State, c: State)
    requires SameBut(a, b) && SameBut(b, c)
    ensures SameBut(a, c)
  { }

  lemma AdbIgnores(job: Job, plan: Plan, s: State, t: State, luck: Luck)
    requires job.Valid() && SameBut(s, t)
    ensures SameBut(AdbStep(job, plan, s, luck), AdbStep(job, plan, t, luck))
  {
    hide Owns, ChunkLengthFor, Written;
  }

  lemma WifiIgnores(job: Job, plan: Plan, s: State, t: State, luck: Luck)
    requires job.Valid() && PendingOk(job, s) && PendingOk(job, t) && SameBut(s, t)
    ensures SameBut(WifiStep(job, plan, s, luck), WifiStep(job, plan, t, luck))
  {
    hide WifiScan, WifiBatch, WifiFallback;
    match s.wifi
    case Scan(i) => ScanIgnores(job, plan, s, t, i);
    case Batch(frame, next) => BatchIgnores(job, s, t, frame, next, luck);
    case Fallback(m, next) => FallbackIgnores(job, s, t, m, next, luck);
    case Commit(_, _) =>
    case WifiDone =>
    case WifiFailed =>
  }

  lemma ScanIgnores(job: Job, plan: Plan, s: State, t: State, i: nat)
    requires SameBut(s, t)
    ensures SameBut(WifiScan(job, plan, s, i), WifiScan(job, plan, t, i))
  {
    hide Owns;
  }

  lemma BatchIgnores(job: Job, s: State, t: State, frame: nat, next: nat, luck: Luck)
    requires job.Valid() && PendingOk(job, s) && PendingOk(job, t) && SameBut(s, t)
    ensures SameBut(WifiBatch(job, s, frame, next, luck), WifiBatch(job, t, frame, next, luck))
  {
    hide ChunkLengthFor, Written;
  }

  lemma FallbackIgnores(job: Job, s: State, t: State, m: nat, next: nat, luck: Luck)
    requires job.Valid() && PendingOk(job, s) && PendingOk(job, t) && SameBut(s, t)
    ensures SameBut(WifiFallback(job, s, m, next, luck), WifiFallback(job, t, m, next, luck))
  {
    hide ChunkLengthFor, Written;
  }

  lemma StepIgnores(job: Job, plan: Plan, s: State, t: State, a: Action)
    requires job.Valid() && PendingOk(job, s) && PendingOk(job, t) && SameBut(s, t)
    ensures SameBut(Step(job, plan, s, a), Step(job, plan, t, a))
  {
    hide AdbStep, WifiStep, Carried;
    match a
    case AdbTurn(luck) => AdbIgnores(job, plan, s, t, luck);
    case WifiTurn(luck) => WifiIgnores(job, plan, s, t, luck);
    case PauseRequest =>
    case Late(_, _) =>
  }

  lemma RecordTurnAlike(job: Job, plan: Plan, s: State, a: Action, b: Action)
    requires job.Valid() && PendingOk(job, s) && SameTurn(s, a, b)
    ensures SameBut(Step(job, plan, s, a), Step(job, plan, s, b))
  {
    hide WifiScan, WifiBatch, WifiFallback, AfterFlush, SendChunk, Owns;
  }

  /** Whether record calls succeed decides what is recorded and nothing else: both lanes go on as they
      would, and send the same. */
  lemma {:induction false} RecordsDecideNothing(job: Job, plan: Plan, s: State, t: State,
                                               actions: seq<Action>, others: seq<Action>)
    requires job.Valid() && PendingOk(job, s) && PendingOk(job, t) && SameBut(s, t)
    requires Alike(job, plan, s, actions, others)
    ensures SameBut(Run(job, plan, s, actions), Run(job, plan, t, others))
    decreases actions
  {
    hide Step, SameBut, SameTurn;
    if actions != [] {
      var s1, t1 := Step(job, plan, s, actions[0]), Step(job, plan, t, others[0]);
      RecordTurnAlike(job, plan, s, actions[0], others[0]);
      PendingStays(job, plan, s, others[0]);
      StepIgnores(job, plan, s, t, others[0]);
      PendingStays(job, plan, t, others[0]);
      SameButTwice(s1, Step(job, plan, s, others[0]), t1);
      RecordsDecideNothing(job, plan, s1, t1, actions[1..], others[1..]);
    }
  }

  // ----- every chunk comes to its record call -----

  /** The chunk is behind the lanes: it needed no sending, or came to its record call, or the lane
      that sends it still has that before it, or has failed. */
  predicate Accounted(job: Job, plan: Plan, s: State, came: bool, i: nat) {
    || came || i in plan.completed || i >= job.Total()
    || (Owns(Adb, i, plan.stride) && match s.adb
         case AtChunk(j) => i >= j
         case ToRecord(j) => i >= j
         case AdbDone => false
         case AdbFailed => true)
    || (Owns(Wifi, i, plan.stride) && match s.wifi
         case Scan(next) => i >= next || i in s.pending
         case Batch(_, next) => i >= next || i in s.pending
         case Fallback(_, next) => i >= next || i in s.pending
         case Commit(r, next) => i >= next || i in s.pending[Min(r, |s.pending|)..]
         case WifiDone => false
         case WifiFailed => true)
  }

  lemma AdbAccounts(job: Job, plan: Plan, s: State, luck: Luck, came: bool, i: nat)
    requires job.Valid() && PendingOk(job, s) && Accounted(job, plan, s, came, i)
    ensures Accounted(job, plan, AdbStep(job, plan, s, luck), came || AtRecord(s, AdbTurn(luck), i), i)
  {
    hide ChunkLengthFor, Written, Owns;
    OneOwner(i, plan.stride);
  }

  lemma TailMember(pending: seq<nat>, r: nat, i: nat)
    requires r < |pending| && i in pending[r..]
    ensures i == pending[r] || i in pending[r + 1..]
  { }

  lemma ScanAccounts(job: Job, plan: Plan, s: State, luck: Luck, came: bool, i: nat)
    requires job.Valid() && PendingOk(job, s) && Accounted(job, plan, s, came, i) && s.wifi.Scan?
    ensures Accounted(job, plan, WifiStep(job, plan, s, luck), came, i)
  {
    hide Owns;
    assert s.pending[0..] == s.pending;
  }

  lemma SendAccounts(job: Job, plan: Plan, s: State, luck: Luck, came: bool, i: nat)
    requires job.Valid() && PendingOk(job, s) && Accounted(job, plan, s, came, i) && (s.wifi.Batch? || s.wifi.Fallback?)
    ensures Accounted(job, plan, WifiStep(job, plan, s, luck), came, i)
  {
    hide Owns, ChunkLengthFor, Written, WifiScan;
    assert s.pending[0..] == s.pending;
  }

  lemma CommitAccounts(job: Job, plan: Plan, s: State, luck: Luck, came: bool, i: nat)
    requires job.Valid() && PendingOk(job, s) && Accounted(job, plan, s, came, i) && s.wifi.Commit?
    ensures Accounted(job, plan, WifiStep(job, plan, s, luck), came || AtRecord(s, WifiTurn(luck), i), i)
  {
    hide Owns, WifiScan, WifiBatch, WifiFallback;
    if s.wifi.r < |s.pending| && i in s.pending[s.wifi.r..] { TailMember(s.pending, s.wifi.r, i); }
  }

  lemma WifiAccounts(job: Job, plan: Plan, s: State, luck: Luck, came: bool, i: nat)
    requires job.Valid() && PendingOk(job, s) && Accounted(job, plan, s, came, i)
    ensures Accounted(job, plan, WifiStep(job, plan, s, luck), came || AtRecord(s, WifiTurn(luck), i), i)
  {
    hide Accounted;
    match s.wifi
    case Scan(_) => ScanAccounts(job, plan, s, luck, came, i);
    case Batch(_, _) => SendAccounts(job, plan, s, luck, came, i);
    case Fallback(_, _) => SendAccounts(job, plan, s, luck, came, i);
    case Commit(_, _) => CommitAccounts(job, plan, s, luck, came, i);
    case WifiDone =>
    case WifiFailed =>
  }

  lemma {:induction false} RunAccounts(job: Job, plan: Plan, s: State, actions: seq<Action>, came: bool, i: nat)
    requires job.Valid() && PendingOk(job, s) && Accounted(job, plan, s, came, i)
    ensures Accounted(job, plan, Run(job, plan, s, actions), came || Comes(job, plan, s, actions, i), i)
    decreases actions
  {
    hide Accounted, AtRecord, Comes, Step;
    if actions != [] {
      var s1 := Step(job, plan, s, actions[0]);
      FirstOrLater(job, plan, s, actions, i);
      StepAccounts(job, plan, s, actions[0], came, i);
      RunAccounts(job, plan, s1, actions[1..], came || AtRecord(s, actions[0], i), i);
    } else {
      NoRecords(job, plan, s, i);
    }
  }

  lemma StepAccounts(job: Job, plan: Plan, s: State, a: Action, came: bool, i: nat)
    requires job.Valid() && PendingOk(job, s) && Accounted(job, plan, s, came, i)
    ensures Accounted(job, plan, Step(job, plan, s, a), came || AtRecord(s, a, i), i)
  {
    hide AdbStep, WifiStep, AtRecord, Carried;
    match a
    case AdbTurn(luck) => AdbAccounts(job, plan, s, luck, came, i);
    case WifiTurn(luck) => WifiAccounts(job, plan, s, luck, came, i);
    case PauseRequest => SameAccounts(job, plan, s, s.(paused := true), came, i);
    case Late(j, length) =>
      if j < job.Total() { SameAccounts(job, plan, s, s.(temp := Carried(job, s.temp, j, length)), came, i); }
  }

  lemma SameAccounts(job: Job, plan: Plan, s: State, s1: State, came: bool, i: nat)
    requires Accounted(job, plan, s, came, i) && s1.adb == s.adb && s1.wifi == s.wifi && s1.pending == s.pending
    ensures Accounted(job, plan, s1, came, i) && Accounted(job, plan, s1, true, i)
  { }

  lemma StartAccounts(job: Job, plan: Plan, s: State, i: nat)
    requires (s.adb == AtChunk(0) && s.wifi == Scan(0)) || (s.adb == AdbFailed && s.wifi == WifiFailed)
    ensures Accounted(job, plan, s, false, i)
  {
    OneOwner(i, plan.stride);
  }

  lemma StartsAtTheStart(job: Job, w: World, a: Attempt)
    requires job.Valid()
    ensures var s, plan := Start(job, w, a), PlanOf(job, w, a);
            && PendingOk(job, s) && s.recorded == a.remembered && plan.completed <= a.remembered
            && ((s.adb == AtChunk(0) && s.wifi == Scan(0)) || (s.adb == AdbFailed && s.wifi == WifiFailed))
  {
    hide PrepareResume;
  }

  /** What an attempt records. In every prefix, exactly what it remembered and the chunks whose record
      call succeeded; and once both lanes have ended well, every chunk has come to its record call or
      was left out. */
  lemma AttemptRecords(job: Job, w: World, a: Attempt, i: nat)
    requires job.Valid()
    ensures PendingOk(job, Start(job, w, a))
    ensures var s, s0, plan := After(job, w, a), Start(job, w, a), PlanOf(job, w, a);
            && (i in s.recorded <==> i in a.remembered || Records(job, plan, s0, a.actions, i))
            && (s.adb == AdbDone && s.wifi == WifiDone && i < job.Total() ==>
                 i in plan.completed || Comes(job, plan, s0, a.actions, i))
  {
    hide Run, PlanOf, Start, Records, Comes;
    var s0, plan := Start(job, w, a), PlanOf(job, w, a);
    StartsAtTheStart(job, w, a);
    RecordedIff(job, plan, s0, a.actions, i);
    StartAccounts(job, plan, s0, i);
    RunAccounts(job, plan, s0, a.actions, false, i);
  }

  lemma SameStart(job: Job, w: World, a: Attempt, actions: seq<Action>)
    requires job.Valid()
    ensures PendingOk(job, Start(job, w, a))
    ensures Start(job, w, a.(actions := actions)) == Start(job, w, a)
    ensures PlanOf(job, w, a.(actions := actions)) == PlanOf(job, w, a)
  {
    hide PrepareResume;
  }

  /** Committed means present: after any attempts, in every prefix of every interleaving of the
      next one, whatever fails, each chunk recorded as committed has its exact bytes at its place
      in the temporary file, unless the length of the file was all that spoke for it; and recorded
      are exactly the chunks remembered and those whose record call succeeded. */
  lemma CommittedMeansPresent(job: Job, start: World, attempts: seq<Attempt>, next: Attempt, n: nat)
    requires job.Valid() && start.recorded == {} && Possible(job, start, attempts)
    requires next.remembered <= History(job, start, attempts).recorded
    requires n <= |next.actions|
    ensures var s := After(job, History(job, start, attempts), next.(actions := next.actions[..n]));
            forall i :: i in s.recorded && i !in s.trusted ==> Exact(job, s.temp, i)
    ensures PendingOk(job, Start(job, History(job, start, attempts), next))
    ensures var w := History(job, start, attempts);
            var s := After(job, w, next.(actions := next.actions[..n]));
            forall i: nat :: i in s.recorded <==>
              i in next.remembered || Records(job, PlanOf(job, w, next), Start(job, w, next), next.actions[..n], i)
  {
    hide History, Possible, Exact, Step, AdbOk, WifiOk, PlanOf, Records, Comes;
    var bound := Max(Length(start.temp), |job.src|);
    var w := History(job, start, attempts);
    HistoryKeeps(job, start, attempts, bound);
    AttemptKeeps(job, w, next.(actions := next.actions[..n]), bound);
    SameStart(job, w, next, next.actions[..n]);
    forall i: nat
      ensures i in After(job, w, next.(actions := next.actions[..n])).recorded <==>
        i in next.remembered || Records(job, PlanOf(job, w, next), Start(job, w, next), next.actions[..n], i)
    {
      AttemptRecords(job, w, next.(actions := next.actions[..n]), i);
    }
  }

  /** No record call fails. */
  ghost predicate AllSucceed(job: Job, plan: Plan, s: State, actions: seq<Action>)
    requires job.Valid() && PendingOk(job, s)
  {
    forall i: nat :: Comes(job, plan, s, actions, i) ==> Records(job, plan, s, actions, i)
  }

  /** So when no record call fails and both lanes end well, the whole file is recorded. */
  lemma AllIsRecorded(job: Job, w: World, a: Attempt)
    requires job.Valid()
    ensures PendingOk(job, Start(job, w, a))
    ensures var s := After(job, w, a);
            && s.adb == AdbDone && s.wifi == WifiDone
            && AllSucceed(job, PlanOf(job, w, a), Start(job, w, a), a.actions) ==>
              forall i: nat :: i < job.Total() ==> i in s.recorded
  {
    hide Run, PlanOf, Start, Records, Comes, After;
    StartsAtTheStart(job, w, a);
    var s := After(job, w, a);
    forall i: nat | i < job.Total()
      ensures i in s.recorded || !(s.adb == AdbDone && s.wifi == WifiDone)
              || !AllSucceed(job, PlanOf(job, w, a), Start(job, w, a), a.actions)
    {
      AttemptRecords(job, w, a, i);
    }
  }

  /** With enough turns, no failure and no pause, an attempt that starts ends with the whole file
      recorded. */
  lemma SmoothAttemptRecords(job: Job, w: World, a: Attempt)
    requires job.Valid() && Smooth(a.actions) && !NothingToRead(job, w, a)
    requires Turns(a.actions, AdbTurn(Good)) >= AdbLeft(job, Start(job, w, a))
    requires Turns(a.actions, WifiTurn(Good)) >= WifiLeft(job, Start(job, w, a))
    ensures var s := After(job, w, a);
            s.adb == AdbDone && s.wifi == WifiDone && forall i: nat :: i < job.Total() ==> i in s.recorded
  {
    hide Run, PlanOf, Records, Comes, NothingToRead, Turns, AdbLeft, WifiLeft;
    var s0, plan := Start(job, w, a), PlanOf(job, w, a);
    StartsAtTheStart(job, w, a);
    SmoothRunEnds(job, plan, s0, a.actions);
    forall i: nat | Comes(job, plan, s0, a.actions, i) ensures Records(job, plan, s0, a.actions, i) {
      SmoothSucceeds(job, plan, s0, a.actions, i);
    }
    AllIsRecorded(job, w, a);
  }

  lemma SmoothSucceeds(job: Job, plan: Plan, s: State, actions: seq<Action>, i: nat)
    requires job.Valid() && PendingOk(job, s) && Smooth(actions) && Comes(job, plan, s, actions, i)
    ensures Records(job, plan, s, actions, i)
  {
    hide Run;
    var k :| 0 <= k < |actions| && AtRecord(Run(job, plan, s, actions[..k]), actions[k], i);
    assert Succeeds(actions[k]);
  }

  // ----- the next attempt -----

  /** When everything is recorded and remembered, the next attempt leaves out every chunk that reads
      back from the phone. */
  lemma NextLeavesOut(job: Job, w: World, b: Attempt, i: nat)
    requires job.Valid() && i < job.Total() && forall j: nat :: j < job.Total() ==> j in b.remembered
    ensures Exact(job, Readable(Begin(w, b)), i) ==> i in PlanOf(job, w, b).completed
  {
    hide Guard, Exact, ReadsBack;
    ReadsBackIff(job, Readable(Begin(w, b)), i);
  }

  ghost predicate NothingToSend(job: Job, plan: Plan) { forall i: nat :: i < job.Total() ==> i in plan.completed }

  lemma StepSendsNothing(job: Job, plan: Plan, s: State, a: Action)
    requires job.Valid() && NothingToSend(job, plan) && s.pending == [] && !a.Late?
    requires s.wifi.Scan? || s.wifi.WifiDone? || s.wifi.WifiFailed?
    ensures PendingOk(job, s)
    ensures var s1 := Step(job, plan, s, a);
            && s1.temp == s.temp && s1.final == s.final && s1.pending == []
            && (s1.wifi.Scan? || s1.wifi.WifiDone? || s1.wifi.WifiFailed?)
  {
    hide Owns, ChunkLengthFor;
  }

  lemma {:induction false} RunSendsNothing(job: Job, plan: Plan, s: State, actions: seq<Action>)
    requires job.Valid() && NothingToSend(job, plan) && s.pending == [] && NoneLate(actions)
    requires s.wifi.Scan? || s.wifi.WifiDone? || s.wifi.WifiFailed?
    ensures PendingOk(job, s)
    ensures var s1 := Run(job, plan, s, actions); s1.temp == s.temp && s1.final == s.final
    decreases actions
  {
    hide Step, NothingToSend;
    assert PendingOk(job, s);
    if actions != [] {
      StepSendsNothing(job, plan, s, actions[0]);
      assert forall k :: 0 <= k < |actions[1..]| ==> actions[1..][k] == actions[k + 1];
      RunSendsNothing(job, plan, Step(job, plan, s, actions[0]), actions[1..]);
    }
  }

  /** Over a file that reads back whole, with everything remembered, the next attempt sends nothing:
      whatever turns it takes, short of a late request, both files stay as they are. */
  lemma NextSendsNothing(job: Job, w: World, b: Attempt)
    requires job.Valid() && forall j: nat :: j < job.Total() ==> j in b.remembered
    requires AllThere(job, Readable(Begin(w, b))) && NoneLate(b.actions)
    ensures After(job, w, b).temp == w.temp && After(job, w, b).final == w.final
  {
    hide PlanOf, Exact, Run, NothingToRead;
    forall i: nat | i < job.Total() ensures i in PlanOf(job, w, b).completed {
      assert Exact(job, Readable(Begin(w, b)), i);
      NextLeavesOut(job, w, b, i);
    }
    assert 0 < job.Total() && 0 in b.remembered;
    RunSendsNothing(job, PlanOf(job, w, b), Start(job, w, b), b.actions);
  }

  /** A file is sent once. After any attempts without a confirmation by length, once both lanes of one
      have ended well with no record call failed, and no finished file is in the way, an attempt that
      remembers what was recorded sends nothing more. */
  lemma SentOnce(job: Job, start: World, attempts: seq<Attempt>, last: Attempt, next: Attempt)
    requires job.Valid() && start.recorded == {}
    requires Possible(job, start, attempts) && AllEvident(attempts) && Evident(last.actions)
    requires last.remembered <= History(job, start, attempts).recorded
    requires PendingOk(job, Start(job, History(job, start, attempts), last))
    requires var w := History(job, start, attempts);
             AllSucceed(job, PlanOf(job, w, last), Start(job, w, last), last.actions)
    requires var s := After(job, History(job, start, attempts), last);
             s.adb == AdbDone && s.wifi == WifiDone && s.final == None && next.remembered == s.recorded
    requires NoneLate(next.actions)
    ensures var s := After(job, History(job, start, attempts), last);
            && s.temp.Some? && job.src <= s.temp.value
            && After(job, WorldOf(s), next).temp == s.temp && After(job, WorldOf(s), next).final == None
  {
    hide After, History, Possible, AllSucceed, Evident, AllEvident, PlanOf, Start, AllThere;
    var w := History(job, start, attempts);
    var s := After(job, w, last);
    ConvergesPlainly(job, start, attempts, last);
    AllIsRecorded(job, w, last);
    AllThereIff(job, s.temp);
    assert 0 < job.Total() && 0 in next.remembered;
    NextSendsNothing(job, WorldOf(s), next);
  }
}
