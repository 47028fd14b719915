/** Pushing one chunk over a channel that loses requests and answers, with the desktop's fallbacks
    and probes, and pushing a whole file in order with it. */
module WifiPush {
  import opened Wrappers
  import opened Models
  import opened Bytes
  import opened Chunks
  import opened Agent
  import PathArg
  import Text

  /** A request may be lost, or carried out and its answer lost. */
  datatype Fate = Delivered | RequestLost | ReplyLost

  datatype Request = Request(path: Path, chunkIndex: nat, offset: nat, payload: Data)

  // ----- which commands the phone takes -----

  predicate NumbersFit(req: Request) {
    req.path != [] && req.chunkIndex < PathArg.INT_BOUND && req.offset < PathArg.LONG_BOUND
  }

  predicate BinaryTaken(req: Request) {
    && NumbersFit(req) && |req.payload| < PathArg.INT_BOUND
    && |PathArg.PushCommand(req.path, req.chunkIndex, req.offset, |req.payload|)| <= PathArg.MAX_LINE
  }

  /** The text form carries the payload on the command line, as base64. */
  function TextLength(req: Request): nat {
    |"PUSH_CHUNK "| + |PathArg.Encode(req.path)| + |Text.Decimal(req.chunkIndex)| + |Text.Decimal(req.offset)| + 3
      + 4 * ((|req.payload| + 2) / 3)
  }

  predicate TextTaken(req: Request) { NumbersFit(req) && TextLength(req) <= PathArg.MAX_LINE }

  predicate StatusTaken(req: Request) { NumbersFit(req) && |req.payload| < PathArg.LONG_BOUND }

  // ----- the calls -----

  function PushBinary(ph: Phone, req: Request): (Phone, Reply) {
    if BinaryTaken(req) then WriteChunk(ph, req.path, req.chunkIndex, req.offset, req.payload) else (ph, Error)
  }

  /** A line that is too long is answered as a greeting. */
  function PushText(ph: Phone, req: Request): (Phone, Reply) {
    if TextTaken(req) then WriteChunk(ph, req.path, req.chunkIndex, req.offset, req.payload) else (ph, Hello)
  }

  function Through(before: Phone, done: (Phone, Reply), fate: Fate): (Phone, Option<Reply>) {
    match fate
    case Delivered => (done.0, Some(done.1))
    case RequestLost => (before, None)
    case ReplyLost => (done.0, None)
  }

  predicate SaysWritten(r: Option<Reply>) { r == Some(Written) || r == Some(AlreadyCommitted) }

  /** `push_wifi_chunk_once`: the binary form, then the text form. */
  function PushOnce(ph: Phone, req: Request, binary: Fate, text: Fate): (Phone, bool) {
    var (ph1, r1) := Through(ph, PushBinary(ph, req), binary);
    if SaysWritten(r1) then (ph1, true)
    else
      var (ph2, r2) := Through(ph1, PushText(ph1, req), text);
      (ph2, SaysWritten(r2))
  }

  function Ask(answer: Reply, fate: Fate): Option<Reply> { if fate == Delivered then Some(answer) else None }

  function Status(ph: Phone, req: Request): Reply {
    if StatusTaken(req) then ChunkStatus(ph, req.path, req.chunkIndex, req.offset, |req.payload|) else Error
  }

  datatype Outcome = Pushed | RetriedAfterStatus | RecoveredByStatus | RecoveredByStat

  const MAX_ATTEMPTS := 2

  datatype Decision = Finish(outcome: Outcome) | Again(retried: bool) | Fail

  /** After a failed push: what the two probes, each of which may be lost, make of it. The second
      is only asked for when the first does not settle the matter. */
  function Decide(req: Request, status: Option<Reply>, stat: Option<Reply>, attempt: nat, retried: bool): Decision {
    if status == Some(Committed) || status == Some(CommittedOnDisk) then Finish(RecoveredByStatus)
    else if status == Some(NotCommitted) && attempt + 1 < MAX_ATTEMPTS then Again(true)
    else if status == Some(PathMismatch) then Fail
    else match stat
      case Some(Size(n)) => if n >= req.offset + |req.payload| then Finish(RecoveredByStat) else Again(retried)
      case _ => Fail
  }

  function DecideOn(ph: Phone, req: Request, status: Fate, stat: Fate, attempt: nat, retried: bool): Decision {
    Decide(req, Ask(Status(ph, req), status), Ask(StatFile(ph, req.path), stat), attempt, retried)
  }

  /** `push_wifi_chunk_with_recovery` from an attempt on: at most four calls each. None is the
      error return. */
  function Push(ph: Phone, req: Request, fates: seq<Fate>, attempt: nat, retried: bool): (Phone, Option<Outcome>)
    requires |fates| == 4 * MAX_ATTEMPTS
    decreases MAX_ATTEMPTS - attempt
  {
    if attempt >= MAX_ATTEMPTS then (ph, None)
    else
      var k := 4 * attempt;
      var (ph1, ok) := PushOnce(ph, req, fates[k], fates[k + 1]);
      if ok then (ph1, Some(if retried then RetriedAfterStatus else Pushed))
      else match DecideOn(ph1, req, fates[k + 2], fates[k + 3], attempt, retried)
        case Finish(outcome) => (ph1, Some(outcome))
        case Fail => (ph1, None)
        case Again(retried1) => Push(ph1, req, fates, attempt + 1, retried1)
  }

  /** One turn of the loop. */
  lemma PushTurn(ph: Phone, req: Request, fates: seq<Fate>, attempt: nat, retried: bool)
    requires |fates| == 4 * MAX_ATTEMPTS && attempt < MAX_ATTEMPTS
    ensures var k := 4 * attempt;
            var (ph1, ok) := PushOnce(ph, req, fates[k], fates[k + 1]);
            var d := DecideOn(ph1, req, fates[k + 2], fates[k + 3], attempt, retried);
            Push(ph, req, fates, attempt, retried) == (
              if ok then (ph1, Some(if retried then RetriedAfterStatus else Pushed))
              else if d.Finish? then (ph1, Some(d.outcome))
              else if d.Fail? then (ph1, None)
              else Push(ph1, req, fates, attempt + 1, d.retried))
  {
    hide PushOnce, DecideOn;
  }

  lemma PushEnds(ph: Phone, req: Request, fates: seq<Fate>, attempt: nat, retried: bool)
    requires |fates| == 4 * MAX_ATTEMPTS && attempt >= MAX_ATTEMPTS
    ensures Push(ph, req, fates, attempt, retried) == (ph, None)
  { }

  // ----- the desktop's loop -----

  method SendPush(server: AgentServer, req: Request, fate: Fate, taken: bool) returns (r: Option<Reply>)
    modifies server
    ensures (server.View(), r) == Through(old(server.View()),
      if taken then WriteChunk(old(server.View()), req.path, req.chunkIndex, req.offset, req.payload)
      else (old(server.View()), Error), fate)
  {
    if fate == RequestLost { return None; }
    var reply := Error;
    if taken { reply := server.Write(req.path, req.chunkIndex, req.offset, req.payload); }
    r := if fate == Delivered then Some(reply) else None;
  }

  method PushWifiChunkOnce(server: AgentServer, req: Request, binary: Fate, text: Fate) returns (ok: bool)
    modifies server
    ensures (server.View(), ok) == PushOnce(old(server.View()), req, binary, text)
  {
    var reply := SendPush(server, req, binary, BinaryTaken(req));
    if SaysWritten(reply) { return true; }
    hide BinaryTaken, TextTaken;
    var fallback := SendPush(server, req, text, TextTaken(req));
    ok := SaysWritten(fallback);
  }

  method PushWifiChunkWithRecovery(server: AgentServer, req: Request, fates: seq<Fate>) returns (r: Option<Outcome>)
    requires |fates| == 4 * MAX_ATTEMPTS
    modifies server
    ensures (server.View(), r) == Push(old(server.View()), req, fates, 0, false)
  {
    hide PushOnce, StatusTaken, Push;
    var retried := false;
    ghost var start := server.View();
    for attempt := 0 to MAX_ATTEMPTS
      invariant Push(start, req, fates, 0, false) == Push(server.View(), req, fates, attempt, retried)
    {
      var k := 4 * attempt;
      PushTurn(server.View(), req, fates, attempt, retried);
      var ok := PushWifiChunkOnce(server, req, fates[k], fates[k + 1]);
      if ok { return Some(if retried then RetriedAfterStatus else Pushed); }
      var probe := Error;
      if StatusTaken(req) { probe := server.Status(req.path, req.chunkIndex, req.offset, |req.payload|); }
      var status := Ask(probe, fates[k + 2]);
      if status == Some(Committed) || status == Some(CommittedOnDisk) { return Some(RecoveredByStatus); }
      if status == Some(NotCommitted) && attempt + 1 < MAX_ATTEMPTS {
        retried := true;
        continue;
      }
      if status == Some(PathMismatch) { return None; }
      var size := server.Stat(req.path);
      var stat := Ask(size, fates[k + 3]);
      if stat.None? || !stat.value.Size? { return None; }
      if stat.value.bytes >= req.offset + |req.payload| { return Some(RecoveredByStat); }
      if attempt + 1 >= MAX_ATTEMPTS {
        PushEnds(server.View(), req, fates, attempt + 1, retried);
        return None;
      }
    }
    PushEnds(server.View(), req, fates, MAX_ATTEMPTS, retried);
    r := None;
  }

  // ----- when an Ok means the bytes are there -----

  /** The chunk's bytes are in the temporary file, at their place. */
  predicate Holds(ph: Phone, req: Request) {
    req.payload != [] ==>
      && ph.Temp(req.path).Some?
      && req.offset + |req.payload| <= |ph.Temp(req.path).value|
      && ph.Temp(req.path).value[req.offset..req.offset + |req.payload|] == req.payload
  }

  predicate Misleading(ph: Phone, req: Request) {
    || ph.Acked(req.path, req.chunkIndex)
    || (ph.Readable(req.path).Some? && |ph.Readable(req.path).value| >= req.offset + |req.payload|)
  }

  lemma WriteMakesHold(ph: Phone, req: Request)
    requires ph.started && ph.Current(req.path)
    ensures Holds(WriteChunk(ph, req.path, req.chunkIndex, req.offset, req.payload).0, req)
  { }

  /** One call leaves the phone as it was, or holding the chunk. */
  ghost predicate Harmless(ph: Phone, ph1: Phone, req: Request) {
    && ph1.started == ph.started && (forall p :: ph1.Current(p) <==> ph.Current(p))
    && (ph1 == ph || Holds(ph1, req))
  }

  lemma CallHarmless(ph: Phone, req: Request, taken: bool, refusal: Reply, fate: Fate)
    requires !SaysWritten(Some(refusal))
    ensures var w := WriteChunk(ph, req.path, req.chunkIndex, req.offset, req.payload);
            var (ph1, r) := Through(ph, if taken then w else (ph, refusal), fate);
            Harmless(ph, ph1, req) && (SaysWritten(r) ==> Holds(ph1, req))
  {
    if ph.started && ph.Current(req.path) { WriteMakesHold(ph, req); }
    hide Holds;
  }

  lemma HarmlessTwice(a: Phone, b: Phone, c: Phone, req: Request)
    requires Harmless(a, b, req) && Harmless(b, c, req)
    ensures Harmless(a, c, req)
  { }

  /** After a push the phone is as before, or holds the chunk; and it holds it after an Ok. */
  lemma OnceHarmless(ph: Phone, req: Request, binary: Fate, text: Fate)
    ensures var (ph1, ok) := PushOnce(ph, req, binary, text);
            Harmless(ph, ph1, req) && (ok ==> Holds(ph1, req))
  {
    CallHarmless(ph, req, BinaryTaken(req), Error, binary);
    var ph1 := Through(ph, PushBinary(ph, req), binary).0;
    CallHarmless(ph1, req, TextTaken(req), Hello, text);
    HarmlessTwice(ph, ph1, Through(ph1, PushText(ph1, req), text).0, req);
    hide Harmless, Holds, Through, WriteChunk;
  }

  /** Nothing false is said of the chunk. */
  lemma AnswersAreTrue(ph: Phone, req: Request, status: Fate, stat: Fate, attempt: nat, retried: bool)
    requires Holds(ph, req) || !Misleading(ph, req)
    ensures DecideOn(ph, req, status, stat, attempt, retried).Finish? ==> Holds(ph, req)
  {
    hide Holds;
  }

  /** As long as the phone holds the chunk, or nothing on it looks as if it did, an Ok is true
      whatever is lost. */
  lemma {:induction false} OkMeansHolds(ph: Phone, req: Request, fates: seq<Fate>, attempt: nat, retried: bool)
    requires |fates| == 4 * MAX_ATTEMPTS && (Holds(ph, req) || !Misleading(ph, req))
    ensures var (ph1, r) := Push(ph, req, fates, attempt, retried); r.Some? ==> Holds(ph1, req)
    decreases MAX_ATTEMPTS - attempt
  {
    hide Holds, Misleading, PushOnce, DecideOn;
    if attempt >= MAX_ATTEMPTS {
      PushEnds(ph, req, fates, attempt, retried);
    } else {
      var k := 4 * attempt;
      var (ph1, ok) := PushOnce(ph, req, fates[k], fates[k + 1]);
      OnceHarmless(ph, req, fates[k], fates[k + 1]);
      AnswersAreTrue(ph1, req, fates[k + 2], fates[k + 3], attempt, retried);
      PushTurn(ph, req, fates, attempt, retried);
      hide Push;
      var d := DecideOn(ph1, req, fates[k + 2], fates[k + 3], attempt, retried);
      if !ok && d.Again? { OkMeansHolds(ph1, req, fates, attempt + 1, d.retried); }
    }
  }

  ghost predicate OkIsTrue(ph: Phone, req: Request) {
    forall fates: seq<Fate> :: |fates| == 4 * MAX_ATTEMPTS ==>
      Push(ph, req, fates, 0, false).1.Some? ==> Holds(Push(ph, req, fates, 0, false).0, req)
  }

  const ALL_LOST: seq<Fate> :=
    [RequestLost, RequestLost, Delivered, Delivered, RequestLost, RequestLost, Delivered, Delivered]

  lemma LostPush(ph: Phone, req: Request)
    requires Misleading(ph, req) && StatusTaken(req)
    ensures Push(ph, req, ALL_LOST, 0, false) == (ph, Some(RecoveredByStatus))
  {
    assert PushOnce(ph, req, RequestLost, RequestLost) == (ph, false);
    assert ALL_LOST[0] == ALL_LOST[1] == RequestLost && ALL_LOST[2] == Delivered;
    hide PushOnce, StatusTaken;
  }

  /** Exactly when an Ok can be believed: for every pattern of lost requests and lost answers, a
      push that returns Ok leaves the chunk's bytes in the temporary file, if and only if they
      were there already, or the chunk was not acknowledged and the file readers see was shorter
      than the chunk's end. */
  lemma OkIsTrueIff(ph: Phone, req: Request)
    requires StatusTaken(req)
    ensures OkIsTrue(ph, req) <==> Holds(ph, req) || !Misleading(ph, req)
  {
    if Holds(ph, req) || !Misleading(ph, req) {
      forall fates: seq<Fate> | |fates| == 4 * MAX_ATTEMPTS
        ensures Push(ph, req, fates, 0, false).1.Some? ==> Holds(Push(ph, req, fates, 0, false).0, req)
      {
        OkMeansHolds(ph, req, fates, 0, false);
      }
    } else {
      LostPush(ph, req);
      assert |ALL_LOST| == 8;
      assert Push(ph, req, ALL_LOST, 0, false).1.Some?;
    }
    hide Push, Holds, Misleading;
  }

  // ----- written once, or not at all -----

  /** The phone after the chunk was written. */
  function WrittenPhone(ph: Phone, req: Request): Phone {
    WriteChunk(ph, req.path, req.chunkIndex, req.offset, req.payload).0
  }

  lemma WriteTwice(file: Data, offset: nat, data: Data)
    ensures WriteAt(WriteAt(file, offset, data), offset, data) == WriteAt(file, offset, data)
  { }

  lemma WriteAgain(ph: Phone, req: Request)
    requires ph.started && ph.Current(req.path)
    ensures var w := WrittenPhone(ph, req);
            && w.started && w.Current(req.path) && WrittenPhone(w, req) == w
            && w.Acked(req.path, req.chunkIndex)
  {
    var temp := if ph.Temp(req.path).Some? then ph.Temp(req.path).value else [];
    WriteTwice(temp, req.offset, req.payload);
    var w := WrittenPhone(ph, req);
    assert w.files[TempName(req.path) := WriteAt(temp, req.offset, req.payload)] == w.files;
    assert w.current.value.acked + {req.chunkIndex} == w.current.value.acked;
  }

  /** However many times it was carried out, a push leaves the phone as it was or written once. */
  ghost predicate OneOf(ph: Phone, ph1: Phone, req: Request) {
    ph1 == ph || ph1 == WrittenPhone(ph, req)
  }

  lemma OnceIsOneOf(ph: Phone, req: Request, binary: Fate, text: Fate)
    requires ph.started && ph.Current(req.path)
    ensures OneOf(ph, PushOnce(ph, req, binary, text).0, req)
    ensures PushOnce(ph, req, binary, text).1 ==>
      PushOnce(ph, req, binary, text).0 == WrittenPhone(ph, req)
  {
    WriteAgain(ph, req);
    hide BinaryTaken, TextTaken, WriteChunk;
  }

  /** An Ok of a phone that is unchanged was said of its acknowledgement or its length. */
  lemma {:induction false} PushIsOneOf(ph: Phone, req: Request, fates: seq<Fate>,
                                       attempt: nat, retried: bool)
    requires |fates| == 4 * MAX_ATTEMPTS && ph.started && ph.Current(req.path)
    ensures var (ph1, r) := Push(ph, req, fates, attempt, retried);
            OneOf(ph, ph1, req) && (r.Some? ==> ph1 == WrittenPhone(ph, req) || Misleading(ph, req))
    decreases MAX_ATTEMPTS - attempt
  {
    hide PushOnce, DecideOn, Misleading, WrittenPhone;
    if attempt >= MAX_ATTEMPTS {
      PushEnds(ph, req, fates, attempt, retried);
    } else {
      var k := 4 * attempt;
      var (ph1, ok) := PushOnce(ph, req, fates[k], fates[k + 1]);
      OnceIsOneOf(ph, req, fates[k], fates[k + 1]);
      WriteAgain(ph, req);
      PushTurn(ph, req, fates, attempt, retried);
      FinishMisleads(ph1, req, fates[k + 2], fates[k + 3], attempt, retried);
      hide Push;
      var d := DecideOn(ph1, req, fates[k + 2], fates[k + 3], attempt, retried);
      if !ok && d.Again? { PushIsOneOf(ph1, req, fates, attempt + 1, d.retried); }
    }
  }

  lemma FinishMisleads(ph: Phone, req: Request, status: Fate, stat: Fate,
                       attempt: nat, retried: bool)
    ensures DecideOn(ph, req, status, stat, attempt, retried).Finish? ==> Misleading(ph, req)
  { }

  // ----- a whole file, in order -----

  function ChunkRequest(p: Path, src: Data, chunkSize: nat, k: nat): Request
    requires k < Count(|src|, chunkSize)
  {
    var c := ChunkAt(0, |src|, chunkSize, k);
    Request(p, k, c.offset, Slice(src, c))
  }

  function Length(ph: Phone, p: Path): nat { if ph.Temp(p).Some? then |ph.Temp(p).value| else 0 }

  function EndOf(src: Data, chunkSize: nat, k: nat): nat
    requires k < Count(|src|, chunkSize)
  {
    End(ChunkAt(0, |src|, chunkSize, k))
  }

  /** The temporary file is a first part of the source, nothing is finished yet, and what is
      acknowledged lies within that part. */
  ghost predicate InOrder(ph: Phone, p: Path, src: Data, chunkSize: nat) {
    && ph.started && ph.Current(p) && p !in ph.files
    && (ph.Temp(p).Some? ==> ph.Temp(p).value <= src)
    && (forall i: nat :: ph.Acked(p, i) && i < Count(|src|, chunkSize) ==> EndOf(src, chunkSize, i) <= Length(ph, p))
  }

  /** Everything before chunk `k` has arrived. */
  ghost predicate Ready(ph: Phone, p: Path, src: Data, chunkSize: nat, k: nat)
    requires k < Count(|src|, chunkSize)
  {
    InOrder(ph, p, src, chunkSize) && ChunkAt(0, |src|, chunkSize, k).offset <= Length(ph, p)
  }

  lemma PrefixGrows(src: Data, temp: Data, from: nat, to: nat)
    requires temp <= src && from <= |temp| && from <= to <= |src|
    ensures WriteAt(temp, from, src[from..to]) <= src
    ensures |WriteAt(temp, from, src[from..to])| == Max(|temp|, to)
  {
    var w := WriteAt(temp, from, src[from..to]);
    forall q | 0 <= q < |w| ensures w[q] == src[q] { }
  }

  lemma WriteEffect(ph: Phone, req: Request)
    requires ph.started && ph.Current(req.path)
    ensures var ph1 := WriteChunk(ph, req.path, req.chunkIndex, req.offset, req.payload).0;
            var temp := if ph.Temp(req.path).Some? then ph.Temp(req.path).value else [];
            && ph1.started && ph1.Current(req.path) && (req.path in ph1.files <==> req.path in ph.files)
            && ph1.Temp(req.path) == Some(WriteAt(temp, req.offset, req.payload))
            && (forall i :: ph1.Acked(req.path, i) <==> ph.Acked(req.path, i) || i == req.chunkIndex)
  {
    TempIsOther(req.path);
    hide TempName, WriteAt;
  }

  lemma WriteStaysReady(ph: Phone, p: Path, src: Data, chunkSize: nat, k: nat)
    requires k < Count(|src|, chunkSize) && Ready(ph, p, src, chunkSize, k)
    ensures var req := ChunkRequest(p, src, chunkSize, k);
            var ph1 := WriteChunk(ph, p, k, req.offset, req.payload).0;
            Ready(ph1, p, src, chunkSize, k) && Length(ph1, p) >= Length(ph, p)
  {
    hide TempName, WriteAt, ChunkAt, WriteChunk;
    var c := ChunkAt(0, |src|, chunkSize, k);
    WriteEffect(ph, ChunkRequest(p, src, chunkSize, k));
    PrefixGrows(src, if ph.Temp(p).Some? then ph.Temp(p).value else [], c.offset, End(c));
  }

  ghost predicate StillReady(before: Phone, after: Phone, p: Path, src: Data, chunkSize: nat, k: nat)
    requires k < Count(|src|, chunkSize)
  {
    Ready(after, p, src, chunkSize, k) && Length(after, p) >= Length(before, p)
  }

  lemma OnceStaysReady(ph: Phone, p: Path, src: Data, chunkSize: nat, k: nat, binary: Fate, text: Fate)
    requires k < Count(|src|, chunkSize) && Ready(ph, p, src, chunkSize, k)
    ensures StillReady(ph, PushOnce(ph, ChunkRequest(p, src, chunkSize, k), binary, text).0, p, src, chunkSize, k)
  {
    hide Ready, WriteChunk, Length, BinaryTaken, TextTaken, ChunkRequest, StillReady;
    var req := ChunkRequest(p, src, chunkSize, k);
    CallStaysReady(ph, p, src, chunkSize, k, BinaryTaken(req), Error, binary);
    var ph1 := Through(ph, PushBinary(ph, req), binary).0;
    assert req.path == p && req.chunkIndex == k by { RequestOf(p, src, chunkSize, k); }
    assert Ready(ph1, p, src, chunkSize, k) by { ReadyAfter(ph, ph1, p, src, chunkSize, k); }
    CallStaysReady(ph1, p, src, chunkSize, k, TextTaken(req), Hello, text);
    StillTwice(ph, ph1, Through(ph1, PushText(ph1, req), text).0, p, src, chunkSize, k);
  }

  lemma RequestOf(p: Path, src: Data, chunkSize: nat, k: nat)
    requires k < Count(|src|, chunkSize)
    ensures ChunkRequest(p, src, chunkSize, k).path == p && ChunkRequest(p, src, chunkSize, k).chunkIndex == k
  { }

  lemma ReadyAfter(before: Phone, after: Phone, p: Path, src: Data, chunkSize: nat, k: nat)
    requires k < Count(|src|, chunkSize) && StillReady(before, after, p, src, chunkSize, k)
    ensures Ready(after, p, src, chunkSize, k)
  { }

  lemma StillTwice(a: Phone, b: Phone, c: Phone, p: Path, src: Data, chunkSize: nat, k: nat)
    requires k < Count(|src|, chunkSize)
    requires StillReady(a, b, p, src, chunkSize, k) && StillReady(b, c, p, src, chunkSize, k)
    ensures StillReady(a, c, p, src, chunkSize, k)
  {
    hide Ready, Length;
  }

  lemma CallStaysReady(ph: Phone, p: Path, src: Data, chunkSize: nat, k: nat, taken: bool, refusal: Reply, fate: Fate)
    requires k < Count(|src|, chunkSize) && Ready(ph, p, src, chunkSize, k)
    ensures var req := ChunkRequest(p, src, chunkSize, k);
            var w := WriteChunk(ph, req.path, req.chunkIndex, req.offset, req.payload);
            StillReady(ph, Through(ph, if taken then w else (ph, refusal), fate).0, p, src, chunkSize, k)
  {
    hide Ready, WriteChunk, Length, ChunkAt;
    WriteStaysReady(ph, p, src, chunkSize, k);
    RequestOf(p, src, chunkSize, k);
  }

  lemma {:induction false} PushStaysReady(ph: Phone, p: Path, src: Data, chunkSize: nat, k: nat, req: Request,
                                          fates: seq<Fate>, attempt: nat, retried: bool)
    requires k < Count(|src|, chunkSize) && Ready(ph, p, src, chunkSize, k) && |fates| == 4 * MAX_ATTEMPTS
    requires req == ChunkRequest(p, src, chunkSize, k)
    ensures StillReady(ph, Push(ph, req, fates, attempt, retried).0, p, src, chunkSize, k)
    decreases MAX_ATTEMPTS - attempt
  {
    hide Ready, Length, ChunkRequest, PushOnce, DecideOn;
    if attempt >= MAX_ATTEMPTS {
      PushEnds(ph, req, fates, attempt, retried);
    } else {
      var f := 4 * attempt;
      OnceStaysReady(ph, p, src, chunkSize, k, fates[f], fates[f + 1]);
      var (ph1, ok) := PushOnce(ph, req, fates[f], fates[f + 1]);
      PushTurn(ph, req, fates, attempt, retried);
      hide Push;
      var d := DecideOn(ph1, req, fates[f + 2], fates[f + 3], attempt, retried);
      if !ok && d.Again? { PushStaysReady(ph1, p, src, chunkSize, k, req, fates, attempt + 1, d.retried); }
    }
  }

  /** When everything before it has arrived, a chunk that looks present is present. */
  lemma ReadyIsHonest(ph: Phone, p: Path, src: Data, chunkSize: nat, k: nat)
    requires k < Count(|src|, chunkSize) && Ready(ph, p, src, chunkSize, k)
    ensures var req := ChunkRequest(p, src, chunkSize, k);
            && (Holds(ph, req) || !Misleading(ph, req))
            && (Holds(ph, req) ==> EndOf(src, chunkSize, k) <= Length(ph, p))
  {
    hide ChunkAt;
  }

  /** Pushing the next chunk in order: whatever is lost, the temporary file stays a first part of
      the source, and after an Ok that part reaches the end of the chunk. */
  lemma InOrderPush(ph: Phone, p: Path, src: Data, chunkSize: nat, k: nat, fates: seq<Fate>)
    requires k < Count(|src|, chunkSize) && Ready(ph, p, src, chunkSize, k) && |fates| == 4 * MAX_ATTEMPTS
    ensures var (ph1, r) := Push(ph, ChunkRequest(p, src, chunkSize, k), fates, 0, false);
            && InOrder(ph1, p, src, chunkSize) && Length(ph1, p) >= Length(ph, p)
            && (r.Some? ==> EndOf(src, chunkSize, k) <= Length(ph1, p))
  {
    var req := ChunkRequest(p, src, chunkSize, k);
    PushStaysReady(ph, p, src, chunkSize, k, req, fates, 0, false);
    ReadyIsHonest(ph, p, src, chunkSize, k);
    OkMeansHolds(ph, req, fates, 0, false);
    ReadyIsHonest(Push(ph, req, fates, 0, false).0, p, src, chunkSize, k);
    hide Push, InOrder, Holds, Misleading, ChunkRequest;
  }

  /** What a pass over the file leaves; `ok` when it reached the end. */
  datatype Pass = Pass(phone: Phone, recorded: set<nat>, ok: bool)

  ghost predicate FatesOk(fates: seq<seq<Fate>>) {
    forall k :: 0 <= k < |fates| ==> |fates[k]| == 4 * MAX_ATTEMPTS
  }

  /** The loop over the chunks: those completed before are skipped, the first error stops it, and
      so does a pause, which comes where `fates` ends. */
  function PushFrom(ph: Phone, p: Path, src: Data, chunkSize: nat, completed: set<nat>, recorded: set<nat>,
                    fates: seq<seq<Fate>>, k: nat): Pass
    requires k <= ChunkCountForSize(|src|, chunkSize) <= Count(|src|, chunkSize)
    requires forall j :: 0 <= j < |fates| ==> |fates[j]| == 4 * MAX_ATTEMPTS
    decreases ChunkCountForSize(|src|, chunkSize) - k
  {
    if k == ChunkCountForSize(|src|, chunkSize) then Pass(ph, recorded, true)
    else if k >= |fates| then Pass(ph, recorded, false)
    else if k in completed then PushFrom(ph, p, src, chunkSize, completed, recorded, fates, k + 1)
    else
      var (ph1, r) := Push(ph, ChunkRequest(p, src, chunkSize, k), fates[k], 0, false);
      if r.None? then Pass(ph1, recorded, false)
      else PushFrom(ph1, p, src, chunkSize, completed, recorded + {k}, fates, k + 1)
  }

  /** Each of these chunks ends within what has arrived. */
  ghost predicate Within(chunks: set<nat>, src: Data, chunkSize: nat, arrived: nat) {
    forall i :: i in chunks && i < Count(|src|, chunkSize) ==> EndOf(src, chunkSize, i) <= arrived
  }

  lemma PassTurn(ph: Phone, p: Path, src: Data, chunkSize: nat, completed: set<nat>, recorded: set<nat>,
                 fates: seq<seq<Fate>>, k: nat)
    requires k < ChunkCountForSize(|src|, chunkSize) <= Count(|src|, chunkSize) && k < |fates| && FatesOk(fates)
    ensures var (ph1, r) := Push(ph, ChunkRequest(p, src, chunkSize, k), fates[k], 0, false);
            PushFrom(ph, p, src, chunkSize, completed, recorded, fates, k) == (
              if k in completed then PushFrom(ph, p, src, chunkSize, completed, recorded, fates, k + 1)
              else if r.None? then Pass(ph1, recorded, false)
              else PushFrom(ph1, p, src, chunkSize, completed, recorded + {k}, fates, k + 1))
  {
    hide Push;
  }

  lemma PassEnds(ph: Phone, p: Path, src: Data, chunkSize: nat, completed: set<nat>, recorded: set<nat>,
                 fates: seq<seq<Fate>>, k: nat)
    requires k <= ChunkCountForSize(|src|, chunkSize) <= Count(|src|, chunkSize) && FatesOk(fates)
    requires k == ChunkCountForSize(|src|, chunkSize) || k >= |fates|
    ensures PushFrom(ph, p, src, chunkSize, completed, recorded, fates, k)
         == Pass(ph, recorded, k == ChunkCountForSize(|src|, chunkSize))
  { }

  lemma ArrivedNext(src: Data, chunkSize: nat, k: nat, completed: set<nat>, arrived: nat)
    requires k < Count(|src|, chunkSize) && UpTo(|src|, chunkSize, k) <= arrived
    ensures UpTo(|src|, chunkSize, k + 1) == EndOf(src, chunkSize, k)
    ensures ChunkAt(0, |src|, chunkSize, k).offset <= arrived
    ensures k in completed && Within(completed, src, chunkSize, arrived) ==> EndOf(src, chunkSize, k) <= arrived
  {
    Adjacent(|src|, chunkSize, k);
  }

  lemma WithinGrows(chunks: set<nat>, src: Data, chunkSize: nat, before: nat, after: nat, k: nat)
    requires Within(chunks, src, chunkSize, before) && before <= after
    ensures Within(chunks, src, chunkSize, after)
    ensures k < Count(|src|, chunkSize) && EndOf(src, chunkSize, k) <= after ==>
      Within(chunks + {k}, src, chunkSize, after)
  {
    hide EndOf;
  }

  lemma {:induction false} PassInOrder(ph: Phone, p: Path, src: Data, chunkSize: nat, completed: set<nat>,
                                       recorded: set<nat>, fates: seq<seq<Fate>>, k: nat)
    requires k <= ChunkCountForSize(|src|, chunkSize) <= Count(|src|, chunkSize) && FatesOk(fates)
    requires InOrder(ph, p, src, chunkSize) && UpTo(|src|, chunkSize, k) <= Length(ph, p)
    requires Within(completed, src, chunkSize, Length(ph, p)) && Within(recorded, src, chunkSize, Length(ph, p))
    ensures var r := PushFrom(ph, p, src, chunkSize, completed, recorded, fates, k);
            && InOrder(r.phone, p, src, chunkSize)
            && Within(r.recorded, src, chunkSize, Length(r.phone, p))
            && (r.ok ==> UpTo(|src|, chunkSize, ChunkCountForSize(|src|, chunkSize)) <= Length(r.phone, p))
    decreases ChunkCountForSize(|src|, chunkSize) - k
  {
    hide InOrder, Push, PushFrom, EndOf, UpTo, Within, ChunkCountForSize;
    if k == ChunkCountForSize(|src|, chunkSize) || k >= |fates| {
      PassEnds(ph, p, src, chunkSize, completed, recorded, fates, k);
    } else {
      PassTurn(ph, p, src, chunkSize, completed, recorded, fates, k);
      ArrivedNext(src, chunkSize, k, completed, Length(ph, p));
      if k in completed {
        PassInOrder(ph, p, src, chunkSize, completed, recorded, fates, k + 1);
      } else {
        InOrderPush(ph, p, src, chunkSize, k, fates[k]);
        var (ph1, r) := Push(ph, ChunkRequest(p, src, chunkSize, k), fates[k], 0, false);
        WithinGrows(completed, src, chunkSize, Length(ph, p), Length(ph1, p), k);
        WithinGrows(recorded, src, chunkSize, Length(ph, p), Length(ph1, p), k);
        if r.Some? { PassInOrder(ph1, p, src, chunkSize, completed, recorded + {k}, fates, k + 1); }
      }
    }
  }

  /** The desktop's loop over the chunks of a file. */
  method PushFile(server: AgentServer, p: Path, src: Data, chunkSize: nat, completed: set<nat>, fates: seq<seq<Fate>>)
    returns (recorded: set<nat>, ok: bool)
    requires ChunkCountForSize(|src|, chunkSize) <= Count(|src|, chunkSize) && FatesOk(fates)
    modifies server
    ensures Pass(server.View(), recorded, ok)
         == PushFrom(old(server.View()), p, src, chunkSize, completed, completed, fates, 0)
  {
    hide PushFrom, Push, ChunkCountForSize;
    ghost var start := server.View();
    recorded := completed;
    for k := 0 to ChunkCountForSize(|src|, chunkSize)
      invariant PushFrom(start, p, src, chunkSize, completed, completed, fates, 0)
             == PushFrom(server.View(), p, src, chunkSize, completed, recorded, fates, k)
    {
      if k >= |fates| {
        PassEnds(server.View(), p, src, chunkSize, completed, recorded, fates, k);
        return recorded, false;
      }
      PassTurn(server.View(), p, src, chunkSize, completed, recorded, fates, k);
      if k in completed { continue; }
      var outcome := PushWifiChunkWithRecovery(server, ChunkRequest(p, src, chunkSize, k), fates[k]);
      if outcome.None? { return recorded, false; }
      recorded := recorded + {k};
    }
    PassEnds(server.View(), p, src, chunkSize, completed, recorded, fates, ChunkCountForSize(|src|, chunkSize));
    ok := true;
  }

  // ----- whole histories of one file -----

  /** One attempt at the file: the commits the engine remembers, and what happens to the calls. */
  datatype Try = Try(remembered: set<nat>, fates: seq<seq<Fate>>)

  ghost predicate TryOk(t: Try) { FatesOk(t.fates) }

  ghost predicate TriesOk(tries: seq<Try>) { forall k :: 0 <= k < |tries| ==> TryOk(tries[k]) }

  /** START_TASK and START_FILE: the files stay, the acknowledgements are forgotten. */
  function Begin(files: map<Path, Data>, p: Path, size: nat): Phone {
    Phone(true, Some(FileState(p, size, {}, false)), files)
  }

  lemma BeginStarts(ph: Phone, p: Path, size: nat)
    requires ph.started
    ensures StartFile(ph, p, size) == (Begin(ph.files, p, size), Done)
  { }

  function Attempt(files: map<Path, Data>, p: Path, src: Data, chunkSize: nat, t: Try): Pass
    requires ChunkCountForSize(|src|, chunkSize) <= Count(|src|, chunkSize) && TryOk(t)
  {
    PushFrom(Begin(files, p, |src|), p, src, chunkSize, t.remembered, t.remembered, t.fates, 0)
  }

  function History(files: map<Path, Data>, recorded: set<nat>, p: Path, src: Data, chunkSize: nat, tries: seq<Try>)
    : (map<Path, Data>, set<nat>)
    requires ChunkCountForSize(|src|, chunkSize) <= Count(|src|, chunkSize) && TriesOk(tries)
    decreases tries
  {
    if tries == [] then (files, recorded)
    else
      var r := Attempt(files, p, src, chunkSize, tries[0]);
      History(r.phone.files, r.recorded, p, src, chunkSize, tries[1..])
  }

  /** The engine remembers nothing it did not record. */
  ghost predicate Possible(files: map<Path, Data>, recorded: set<nat>, p: Path, src: Data, chunkSize: nat,
                           tries: seq<Try>)
    requires ChunkCountForSize(|src|, chunkSize) <= Count(|src|, chunkSize) && TriesOk(tries)
    decreases tries
  {
    tries == [] ||
    (var r := Attempt(files, p, src, chunkSize, tries[0]);
     tries[0].remembered <= recorded && Possible(r.phone.files, r.recorded, p, src, chunkSize, tries[1..]))
  }

  lemma {:induction false} SizeStays(ph: Phone, req: Request, fates: seq<Fate>, attempt: nat, retried: bool)
    requires |fates| == 4 * MAX_ATTEMPTS && ph.current.Some?
    ensures var ph1 := Push(ph, req, fates, attempt, retried).0;
            ph1.current.Some? && ph1.current.value.size == ph.current.value.size
    decreases MAX_ATTEMPTS - attempt
  {
    hide PushOnce, DecideOn;
    if attempt >= MAX_ATTEMPTS {
      PushEnds(ph, req, fates, attempt, retried);
    } else {
      var f := 4 * attempt;
      OnceKeepsSize(ph, req, fates[f], fates[f + 1]);
      var (ph1, ok) := PushOnce(ph, req, fates[f], fates[f + 1]);
      PushTurn(ph, req, fates, attempt, retried);
      hide Push;
      var d := DecideOn(ph1, req, fates[f + 2], fates[f + 3], attempt, retried);
      if !ok && d.Again? { SizeStays(ph1, req, fates, attempt + 1, d.retried); }
    }
  }

  lemma OnceKeepsSize(ph: Phone, req: Request, binary: Fate, text: Fate)
    requires ph.current.Some?
    ensures var ph1 := PushOnce(ph, req, binary, text).0;
            ph1.current.Some? && ph1.current.value.size == ph.current.value.size
  {
    hide BinaryTaken, TextTaken, WriteAt;
  }

  lemma {:induction false} PassKeepsSize(ph: Phone, p: Path, src: Data, chunkSize: nat, completed: set<nat>,
                                         recorded: set<nat>, fates: seq<seq<Fate>>, k: nat)
    requires k <= ChunkCountForSize(|src|, chunkSize) <= Count(|src|, chunkSize) && FatesOk(fates) && ph.current.Some?
    ensures var r := PushFrom(ph, p, src, chunkSize, completed, recorded, fates, k);
            r.phone.current.Some? && r.phone.current.value.size == ph.current.value.size
    decreases ChunkCountForSize(|src|, chunkSize) - k
  {
    hide Push, PushFrom, ChunkCountForSize;
    if k == ChunkCountForSize(|src|, chunkSize) || k >= |fates| {
      PassEnds(ph, p, src, chunkSize, completed, recorded, fates, k);
    } else {
      PassTurn(ph, p, src, chunkSize, completed, recorded, fates, k);
      if k in completed {
        PassKeepsSize(ph, p, src, chunkSize, completed, recorded, fates, k + 1);
      } else {
        SizeStays(ph, ChunkRequest(p, src, chunkSize, k), fates[k], 0, false);
        var (ph1, r) := Push(ph, ChunkRequest(p, src, chunkSize, k), fates[k], 0, false);
        if r.Some? { PassKeepsSize(ph1, p, src, chunkSize, completed, recorded + {k}, fates, k + 1); }
      }
    }
  }
}
