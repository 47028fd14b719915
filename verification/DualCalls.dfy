/** The calls a Dual attempt makes to the phone, in full: what the retry loop and the batch handler
    do to the phone is what the turns of module Dual say, losses and broken streams included. */
module DualCalls {
  import opened Wrappers
  import opened Models
  import opened Bytes
  import opened Chunks
  import opened Dual
  import Agent
  import Frames
  import WifiPush

  // ----- one chunk on its own -----

  function ChunkRequest(job: Job, p: Agent.Path, i: nat): WifiPush.Request
    requires job.Valid() && i < job.Total()
  {
    Ranges(job, i);
    WifiPush.Request(p, i, job.From(i), job.src[job.From(i)..job.To(i)])
  }

  /** The phone is in the state the protocol says. */
  ghost predicate Shows(ph: Agent.Phone, p: Agent.Path, s: State) {
    && ph.started && ph.Current(p)
    && ph.Temp(p) == s.temp && ph.File(p) == s.final && ph.current.value.acked == s.acked
  }

  lemma RunOne(job: Job, plan: Plan, s: State, a: Action)
    requires job.Valid() && PendingOk(job, s)
    ensures Run(job, plan, s, [a]) == Step(job, plan, s, a)
  {
    PendingStays(job, plan, s, a);
    assert [a][1..] == [];
    hide Step;
    assert Run(job, plan, Step(job, plan, s, a), []) == Step(job, plan, s, a);
  }

  lemma RunTwo(job: Job, plan: Plan, s: State, a: Action, b: Action)
    requires job.Valid() && PendingOk(job, s)
    ensures PendingOk(job, Step(job, plan, s, a))
    ensures Run(job, plan, s, [a, b]) == Step(job, plan, Step(job, plan, s, a), b)
  {
    PendingStays(job, plan, s, a);
    assert [a, b][1..] == [b];
    hide Step;
    RunOne(job, plan, Step(job, plan, s, a), b);
  }

  /** What turns a push amounts to. */
  function PushTurns(s: State, i: nat, written: bool, ok: bool): seq<Action> {
    if written then if ok then [WifiTurn(Good)] else [Late(i, 0x1_0000_0000_0000_0000), WifiTurn(Bad)]
    else if !ok then [WifiTurn(Bad)]
    else if i in s.acked then [WifiTurn(ByAck)]
    else [WifiTurn(ByLength)]
  }

  lemma WrittenShows(job: Job, ph: Agent.Phone, p: Agent.Path, s: State, i: nat)
    requires job.Valid() && i < job.Total() && Shows(ph, p, s)
    ensures Shows(WifiPush.WrittenPhone(ph, ChunkRequest(job, p, i)), p, SendChunk(job, s, i).(acked := s.acked + {i}))
  {
    Agent.TempIsOther(p);
    hide Agent.TempName, WriteAt, ChunkLengthFor;
  }

  lemma CarriedWhole(job: Job, s: State, i: nat)
    requires job.Valid() && i < job.Total() && |job.src| < 0x1_0000_0000_0000_0000
    ensures Carried(job, s.temp, i, 0x1_0000_0000_0000_0000) == SendChunk(job, s, i).temp
  {
    Ranges(job, i);
    hide ChunkLengthFor, WriteAt;
  }

  /** Phone and lane after the turns are where the push left them. */
  ghost predicate Follows(s: State, s1: State, ph1: Agent.Phone, p: Agent.Path, m: nat, next: nat, ok: bool) {
    && s1.temp == ph1.Temp(p) && s1.final == ph1.File(p)
    && s1.wifi == (if ok then Fallback(m + 1, next) else WifiFailed)
    && s1.pending == s.pending && s1.recorded == s.recorded && s1.adb == s.adb
    && (ok ==> Shows(ph1, p, s1))
  }

  lemma WrittenFollows(job: Job, plan: Plan, s: State, ph: Agent.Phone, p: Agent.Path, m: nat, next: nat, ok: bool)
    requires job.Valid() && |job.src| < 0x1_0000_0000_0000_0000 && PendingOk(job, s)
    requires s.wifi == Fallback(m, next) && m < |s.pending| && Shows(ph, p, s)
    ensures var i := s.pending[m];
            var ph1 := WifiPush.WrittenPhone(ph, ChunkRequest(job, p, i));
            Follows(s, Run(job, plan, s, PushTurns(s, i, true, ok)), ph1, p, m, next, ok)
  {
    hide WifiPush.WrittenPhone, ChunkLengthFor, Run, Carried, ChunkRequest;
    var i := s.pending[m];
    WrittenShows(job, ph, p, s, i);
    CarriedWhole(job, s, i);
    if ok {
      RunOne(job, plan, s, WifiTurn(Good));
    } else {
      RunTwo(job, plan, s, Late(i, 0x1_0000_0000_0000_0000), WifiTurn(Bad));
    }
    hide WriteAt, Written;
  }

  lemma UnchangedFollows(job: Job, plan: Plan, s: State, ph: Agent.Phone, p: Agent.Path, m: nat, next: nat, ok: bool)
    requires job.Valid() && PendingOk(job, s)
    requires s.wifi == Fallback(m, next) && m < |s.pending| && Shows(ph, p, s)
    requires ok ==> WifiPush.Misleading(ph, ChunkRequest(job, p, s.pending[m]))
    ensures Follows(s, Run(job, plan, s, PushTurns(s, s.pending[m], false, ok)), ph, p, m, next, ok)
  {
    hide Run, SendChunk, Carried;
    var i := s.pending[m];
    Ranges(job, i);
    if !ok {
      RunOne(job, plan, s, WifiTurn(Bad));
    } else if i in s.acked {
      RunOne(job, plan, s, WifiTurn(ByAck));
    } else {
      RunOne(job, plan, s, WifiTurn(ByLength));
    }
    hide ChunkLengthFor;
  }

  /** The retry loop refines one turn of the fallback. Whatever is lost, pushing a pending chunk
      again takes phone and lane to where turns of the protocol take them: a good turn, a late
      write and a bad one, or a confirmation; and a confirmation by length is only ever taken of a
      chunk that was neither acknowledged before nor written now. */
  lemma FallbackIsTurns(job: Job, plan: Plan, s: State, ph: Agent.Phone, p: Agent.Path, m: nat, next: nat,
                        fates: seq<WifiPush.Fate>)
    requires job.Valid() && |job.src| < 0x1_0000_0000_0000_0000 && PendingOk(job, s)
    requires s.wifi == Fallback(m, next) && m < |s.pending| && Shows(ph, p, s)
    requires |fates| == 4 * WifiPush.MAX_ATTEMPTS
    ensures var req := ChunkRequest(job, p, s.pending[m]);
            var (ph1, r) := WifiPush.Push(ph, req, fates, 0, false);
            var turns := PushTurns(s, s.pending[m], ph1 == WifiPush.WrittenPhone(ph, req), r.Some?);
            Follows(s, Run(job, plan, s, turns), ph1, p, m, next, r.Some?)
  {
    hide WifiPush.Push, WifiPush.Misleading, WifiPush.WrittenPhone, Follows, Run, PushTurns;
    var req := ChunkRequest(job, p, s.pending[m]);
    var (ph1, r) := WifiPush.Push(ph, req, fates, 0, false);
    WifiPush.PushIsOneOf(ph, req, fates, 0, false);
    hide ChunkRequest;
    if ph1 == WifiPush.WrittenPhone(ph, req) {
      WrittenFollows(job, plan, s, ph, p, m, next, r.Some?);
    } else {
      UnchangedFollows(job, plan, s, ph, p, m, next, r.Some?);
    }
  }

  // ----- a batch -----

  /** Index, offset and length of every chunk fit the phone's signed numbers. */
  ghost predicate Sendable(job: Job) {
    && job.Valid() && |job.src| < Frames.INT64_BOUND
    && job.Total() <= Frames.INT32_BOUND && job.chunkSize < Frames.INT32_BOUND
  }

  function FrameOf(job: Job, i: nat): Frames.Frame
    requires Sendable(job) && i < job.Total()
  {
    Ranges(job, i);
    Frames.Frame(i, job.From(i), job.src[job.From(i)..job.To(i)])
  }

  function FramesOf(job: Job, pending: seq<nat>): (r: seq<Frames.Frame>)
    requires Sendable(job) && forall k :: 0 <= k < |pending| ==> pending[k] < job.Total()
    ensures |r| == |pending|
    ensures forall k :: 0 <= k < |pending| ==> r[k] == FrameOf(job, pending[k])
  {
    seq(|pending|, k requires 0 <= k < |pending| => FrameOf(job, pending[k]))
  }

  lemma FramesInRange(job: Job, pending: seq<nat>)
    requires Sendable(job) && forall k :: 0 <= k < |pending| ==> pending[k] < job.Total()
    ensures Frames.Sendable(FramesOf(job, pending)) && Frames.AllInRange(FramesOf(job, pending))
  {
    forall k | 0 <= k < |pending| ensures Frames.InRange(FramesOf(job, pending)[k]) { Ranges(job, pending[k]); }
  }

  /** The lane after `j` more frames of its batch were taken. */
  function Taken(job: Job, s: State, c: nat, next: nat, j: nat): State
    requires Sendable(job) && PendingOk(job, s) && s.temp.Some? && c + j <= |s.pending|
  {
    var frames := FramesOf(job, s.pending)[c..c + j];
    s.(temp := Some(Frames.WriteFrames(s.temp.value, frames)),
       acked := s.acked + Frames.IndicesOf(frames), trusted := s.trusted - Frames.IndicesOf(frames),
       wifi := Batch(c + j, next))
  }

  lemma OneFrame(job: Job, plan: Plan, s: State, c: nat, next: nat)
    requires Sendable(job) && PendingOk(job, s) && s.temp.Some? && s.wifi == Batch(c, next) && c < |s.pending|
    ensures var f := FrameOf(job, s.pending[c]);
            Step(job, plan, s, WifiTurn(Good)) == (
              s.(temp := Some(WriteAt(s.temp.value, f.offset, f.payload)),
                 acked := s.acked + {f.chunkIndex}, trusted := s.trusted - {f.chunkIndex},
                 wifi := Batch(c + 1, next)))
  {
    hide WriteAt, ChunkLengthFor;
  }

  lemma TakenNone(job: Job, s: State, c: nat, next: nat)
    requires Sendable(job) && PendingOk(job, s) && s.temp.Some? && s.wifi == Batch(c, next) && c <= |s.pending|
    ensures Taken(job, s, c, next, 0) == s
  {
    assert FramesOf(job, s.pending)[c..c] == [];
    assert s.acked + Frames.IndicesOf([]) == s.acked && s.trusted - Frames.IndicesOf([]) == s.trusted;
  }

  lemma TakenNext(job: Job, plan: Plan, s: State, c: nat, next: nat, j: nat)
    requires Sendable(job) && PendingOk(job, s) && s.temp.Some? && s.wifi == Batch(c, next)
    requires j > 0 && c + j <= |s.pending|
    ensures var s1 := Step(job, plan, s, WifiTurn(Good));
            && PendingOk(job, s1) && s1.temp.Some? && s1.wifi == Batch(c + 1, next) && s1.pending == s.pending
            && Taken(job, s1, c + 1, next, j - 1) == Taken(job, s, c, next, j)
  {
    hide Step, WriteAt, ChunkLengthFor, FrameOf, Frames.IndicesOf;
    OneFrame(job, plan, s, c, next);
    var frames := FramesOf(job, s.pending);
    var part := frames[c..c + j];
    assert part[1..] == frames[c + 1..c + j] && part[0] == frames[c];
    Frames.TailIndices(part);
    assert s.acked + {frames[c].chunkIndex} + Frames.IndicesOf(part[1..]) == s.acked + Frames.IndicesOf(part);
    assert s.trusted - {frames[c].chunkIndex} - Frames.IndicesOf(part[1..]) == s.trusted - Frames.IndicesOf(part);
  }

  lemma {:induction false} GoodTurns(job: Job, plan: Plan, s: State, c: nat, next: nat, j: nat, rest: seq<Action>)
    requires Sendable(job) && PendingOk(job, s) && s.temp.Some? && s.wifi == Batch(c, next) && c + j <= |s.pending|
    ensures Run(job, plan, s, Repeat(WifiTurn(Good), j) + rest) == Run(job, plan, Taken(job, s, c, next, j), rest)
    decreases j
  {
    hide Run, Step, Taken, PendingOk;
    if j == 0 {
      NoTurns(job, plan, s, WifiTurn(Good), rest);
      TakenNone(job, s, c, next);
    } else {
      Turn(job, plan, s, WifiTurn(Good), j - 1, rest);
      TakenNext(job, plan, s, c, next, j);
      GoodTurns(job, plan, Step(job, plan, s, WifiTurn(Good)), c + 1, next, j - 1, rest);
    }
  }

  /** The turns of a batch whose stream broke off in frame `j` after `k` bytes of its payload, or
      that came through when `j` is the number of frames. */
  function BatchTurns(s: State, j: nat, k: nat): seq<Action>
    requires s.pending != [] && j <= |s.pending|
  {
    var last := if j < |s.pending| then [Late(s.pending[j], k), WifiTurn(Bad)] else [];
    [Late(s.pending[0], 0)] + (Repeat(WifiTurn(Good), j) + last)
  }

  lemma Opens(job: Job, plan: Plan, s: State, rest: seq<Action>)
    requires job.Valid() && PendingOk(job, s) && s.pending != []
    ensures var s0 := s.(temp := Some(if s.temp.Some? then s.temp.value else []));
            PendingOk(job, s0) && Run(job, plan, s, [Late(s.pending[0], 0)] + rest) == Run(job, plan, s0, rest)
  {
    var a := Late(s.pending[0], 0);
    Ranges(job, s.pending[0]);
    assert job.src[job.From(s.pending[0])..Min(job.From(s.pending[0]) + 0, job.To(s.pending[0]))] == [];
    assert ([a] + rest)[1..] == rest;
    hide ChunkLengthFor;
  }

  lemma BreaksOff(job: Job, plan: Plan, s: State, j: nat, next: nat, k: nat)
    requires Sendable(job) && PendingOk(job, s) && s.temp.Some? && s.wifi == Batch(j, next) && j < |s.pending|
    requires k <= |FrameOf(job, s.pending[j]).payload|
    ensures var f := FrameOf(job, s.pending[j]);
            Run(job, plan, s, [Late(s.pending[j], k), WifiTurn(Bad)]) == (
              s.(temp := Some(WriteAt(s.temp.value, f.offset, f.payload[..k])), wifi := Fallback(0, next)))
  {
    RunTwo(job, plan, s, Late(s.pending[j], k), WifiTurn(Bad));
    var i := s.pending[j];
    Ranges(job, i);
    assert job.src[job.From(i)..job.To(i)][..k] == job.src[job.From(i)..job.From(i) + k];
    hide ChunkLengthFor, WriteAt, Run;
  }

  /** The batch handler refines turns of the lane. However far the stream of a flushed batch gets,
      the phone's file and acknowledgements are what good turns for the whole frames, a late write
      for the part of the next, and a bad turn make of them. */
  lemma BatchIsTurns(job: Job, plan: Plan, s: State, next: nat, n: nat)
    requires Sendable(job) && PendingOk(job, s) && s.pending != [] && s.wifi == Batch(0, next)
    requires Frames.Sendable(FramesOf(job, s.pending)) && n <= |Frames.Encoded(FramesOf(job, s.pending))|
    ensures var frames := FramesOf(job, s.pending);
            var file := if s.temp.Some? then s.temp.value else [];
            var u := Frames.TakeFrames(Frames.Intake(file, s.acked, Frames.Encoded(frames)[..n], true), |frames|);
            exists j: nat, k: nat :: j <= |s.pending| && BatchFollows(job, plan, s, next, j, k, u)
  {
    hide Run, Taken, BatchFollows, Frames.Encoded, Frames.TakeFrames, FramesOf;
    var frames := FramesOf(job, s.pending);
    var file := if s.temp.Some? then s.temp.value else [];
    FramesInRange(job, s.pending);
    Frames.BrokenStream(file, s.acked, frames, n);
    var u := Frames.TakeFrames(Frames.Intake(file, s.acked, Frames.Encoded(frames)[..n], true), |frames|);
    hide Frames.PartWritten, Frames.IndicesOf;
    var j: nat, k: nat :|
      && Frames.PartWritten(file, u.file, frames, j, k)
      && j <= |frames| && u.acked == s.acked + Frames.IndicesOf(frames[..j]) && (u.ok <==> j == |frames|);
    BatchFollowsAt(job, plan, s, next, j, k, u);
  }

  ghost predicate BatchFollows(job: Job, plan: Plan, s: State, next: nat, j: nat, k: nat, u: Frames.Intake)
    requires Sendable(job) && PendingOk(job, s) && s.pending != [] && j <= |s.pending|
  {
    Run(job, plan, s, BatchTurns(s, j, k))
    == s.(temp := Some(u.file), acked := u.acked,
          trusted := s.trusted - Frames.IndicesOf(FramesOf(job, s.pending)[..j]),
          wifi := if u.ok then Batch(|s.pending|, next) else Fallback(0, next))
  }

  lemma BatchFollowsAt(job: Job, plan: Plan, s: State, next: nat, j: nat, k: nat, u: Frames.Intake)
    requires Sendable(job) && PendingOk(job, s) && s.pending != [] && s.wifi == Batch(0, next)
    requires var file := if s.temp.Some? then s.temp.value else [];
             Frames.PartWritten(file, u.file, FramesOf(job, s.pending), j, k)
    requires j <= |s.pending| && u.acked == s.acked + Frames.IndicesOf(FramesOf(job, s.pending)[..j])
    requires u.ok <==> j == |s.pending|
    ensures BatchFollows(job, plan, s, next, j, k, u)
  {
    hide Run, WriteAt, ChunkLengthFor, FrameOf, Frames.IndicesOf, Repeat;
    var frames := FramesOf(job, s.pending);
    var s0 := s.(temp := Some(if s.temp.Some? then s.temp.value else []));
    var last := if j < |s.pending| then [Late(s.pending[j], k), WifiTurn(Bad)] else [];
    Opens(job, plan, s, Repeat(WifiTurn(Good), j) + last);
    GoodTurns(job, plan, s0, 0, next, j, last);
    var s1 := Taken(job, s0, 0, next, j);
    assert frames[0..j] == frames[..j];
    if j < |s.pending| {
      BreaksOff(job, plan, s1, j, next, k);
    } else {
      assert frames[..j] == frames;
      NoTurns(job, plan, s1, PauseRequest, []);
    }
  }
}
