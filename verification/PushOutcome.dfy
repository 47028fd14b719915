/** When a push returns Ok, and with which outcome, said of the phone before it and of what happens to
    its calls; and how far a pass over the file gets with that. */
module PushOutcome {
  import opened Wrappers
  import opened Bytes
  import opened Chunks
  import opened Agent
  import opened WifiPush
  import PathArg

  /** What happens to the calls of one try: the two forms of the push, and the two probes. */
  datatype Calls = Calls(binary: Fate, text: Fate, status: Fate, stat: Fate)

  function FirstTry(fates: seq<Fate>): Calls
    requires |fates| == 8
  {
    Calls(fates[0], fates[1], fates[2], fates[3])
  }

  function SecondTry(fates: seq<Fate>): Calls
    requires |fates| == 8
  {
    Calls(fates[4], fates[5], fates[6], fates[7])
  }

  predicate Writable(ph: Phone, req: Request) { ph.started && ph.Current(req.path) }

  /** A form of the push that the phone takes is answered. */
  predicate Answered(ph: Phone, req: Request, c: Calls) {
    Writable(ph, req) && ((BinaryTaken(req) && c.binary == Delivered) || (TextTaken(req) && c.text == Delivered))
  }

  /** One is carried out, answered or not. */
  predicate CarriedOut(ph: Phone, req: Request, c: Calls) {
    Writable(ph, req) && ((BinaryTaken(req) && c.binary != RequestLost) || (TextTaken(req) && c.text != RequestLost))
  }

  function EndOfChunk(req: Request): nat { req.offset + |req.payload| }

  function SizeOf(t: Option<Data>): nat { if t.Some? then |t.value| else 0 }

  /** There is a file to read, now that the chunk was written or not. */
  predicate AnyFile(ph: Phone, req: Request, written: bool) {
    ph.File(req.path).Some? || ph.Temp(req.path).Some? || written
  }

  /** And it reaches the end of the chunk. A finished file hides the temporary one. */
  predicate Reaches(ph: Phone, req: Request, written: bool) {
    if ph.File(req.path).Some? then SizeOf(ph.File(req.path)) >= EndOfChunk(req)
    else AnyFile(ph, req, written) && ((written && req.payload != []) || SizeOf(ph.Temp(req.path)) >= EndOfChunk(req))
  }

  /** The first probe is answered by a phone that understands it. */
  predicate Asked(req: Request, c: Calls) {
    && c.status == Delivered && req.path != [] && req.chunkIndex < 0x8000_0000
    && req.offset < 0x8000_0000_0000_0000 && |req.payload| < 0x8000_0000_0000_0000
  }

  /** The first probe says that the chunk is there. */
  predicate StatusSays(ph: Phone, req: Request, c: Calls, written: bool) {
    Asked(req, c) && (written || ph.Acked(req.path, req.chunkIndex) || Reaches(ph, req, written))
  }

  /** It says that the chunk is missing, and not that another file is current. */
  predicate StatusDenies(ph: Phone, req: Request, c: Calls, written: bool) {
    && Asked(req, c) && !StatusSays(ph, req, c, written)
    && (ph.current.None? || ph.current.value.path == req.path)
  }

  /** Without an answer to the first, the second probe says that the file reaches the chunk's end. */
  predicate StatSays(ph: Phone, req: Request, c: Calls, written: bool) {
    !Asked(req, c) && c.stat == Delivered && ph.started && Reaches(ph, req, written)
  }

  predicate StatDenies(ph: Phone, req: Request, c: Calls, written: bool) {
    !Asked(req, c) && c.stat == Delivered && ph.started && AnyFile(ph, req, written) && !Reaches(ph, req, written)
  }

  function After(ph: Phone, req: Request, written: bool): Phone { if written then WrittenPhone(ph, req) else ph }

  lemma FormIs(ph: Phone, req: Request, taken: bool, refusal: Reply, fate: Fate)
    requires !SaysWritten(Some(refusal))
    ensures var w := WriteChunk(ph, req.path, req.chunkIndex, req.offset, req.payload);
            var (ph1, r) := Through(ph, if taken then w else (ph, refusal), fate);
            && ph1 == After(ph, req, Writable(ph, req) && taken && fate != RequestLost)
            && (SaysWritten(r) <==> Writable(ph, req) && taken && fate == Delivered)
  {
    hide WriteAt, TempName;
  }

  lemma OnceIs(ph: Phone, req: Request, c: Calls)
    ensures PushOnce(ph, req, c.binary, c.text) == (After(ph, req, CarriedOut(ph, req, c)), Answered(ph, req, c))
  {
    if Writable(ph, req) { WriteAgain(ph, req); }
    hide BinaryTaken, TextTaken, WriteChunk, Through;
    FormIs(ph, req, BinaryTaken(req), Error, c.binary);
    var ph1 := Through(ph, PushBinary(ph, req), c.binary).0;
    FormIs(ph1, req, TextTaken(req), Hello, c.text);
  }

  lemma AfterSees(ph: Phone, req: Request, written: bool)
    requires written ==> Writable(ph, req)
    ensures var p := After(ph, req, written);
            && p.started == ph.started && (p.current.Some? <==> ph.current.Some?)
            && (p.current.Some? ==> p.current.value.path == ph.current.value.path)
            && (p.Acked(req.path, req.chunkIndex) <==> written || ph.Acked(req.path, req.chunkIndex))
            && (p.Readable(req.path).Some? <==> AnyFile(ph, req, written))
            && (Reaches(ph, req, written) <==>
                 p.Readable(req.path).Some? && |p.Readable(req.path).value| >= EndOfChunk(req))
  {
    TempIsOther(req.path);
    if written { WriteEffect(ph, req); }
    hide TempName, WriteAt;
  }

  /** What is made of the probes after a push that was not answered. */
  lemma DecidesSo(ph: Phone, req: Request, c: Calls, written: bool, attempt: nat, retried: bool)
    requires written ==> Writable(ph, req)
    ensures var d := DecideOn(After(ph, req, written), req, c.status, c.stat, attempt, retried);
            d == if StatusSays(ph, req, c, written) then Finish(RecoveredByStatus)
                 else if StatSays(ph, req, c, written) then Finish(RecoveredByStat)
                 else if StatusDenies(ph, req, c, written) && attempt + 1 < MAX_ATTEMPTS then Again(true)
                 else if StatDenies(ph, req, c, written) then Again(retried)
                 else d
    ensures var d := DecideOn(After(ph, req, written), req, c.status, c.stat, attempt, retried);
            d.Finish? <==> StatusSays(ph, req, c, written) || StatSays(ph, req, c, written)
    ensures var d := DecideOn(After(ph, req, written), req, c.status, c.stat, attempt, retried);
            attempt + 1 < MAX_ATTEMPTS ==>
              (d.Again? <==> StatusDenies(ph, req, c, written) || StatDenies(ph, req, c, written))
  {
    AfterSees(ph, req, written);
    hide After, Reaches, AnyFile;
  }

  /** Why the first try is followed by a second. */
  datatype Chance = NoChance | ToldMissing | SeenShort

  function SecondChance(ph: Phone, req: Request, c: Calls): Chance {
    var written := CarriedOut(ph, req, c);
    if Answered(ph, req, c) then NoChance
    else if StatusDenies(ph, req, c, written) then ToldMissing
    else if StatDenies(ph, req, c, written) then SeenShort
    else NoChance
  }

  lemma WrittenTwice(ph: Phone, req: Request, c: Calls, written: bool)
    requires written ==> Writable(ph, req)
    ensures var p := After(ph, req, written);
            && After(p, req, CarriedOut(p, req, c)) == After(ph, req, written || CarriedOut(ph, req, c))
            && (Answered(p, req, c) <==> Answered(ph, req, c))
  {
    if written { WriteAgain(ph, req); }
    hide BinaryTaken, TextTaken, WriteAt, TempName;
  }

  /** The second try ends the push one way or another. */
  lemma LastTry(ph: Phone, req: Request, fates: seq<Fate>, written: bool, retried: bool)
    requires |fates| == 4 * MAX_ATTEMPTS && (written ==> Writable(ph, req))
    ensures var c, w := SecondTry(fates), written || CarriedOut(ph, req, SecondTry(fates));
            Push(After(ph, req, written), req, fates, 1, retried) == (After(ph, req, w),
              if Answered(ph, req, c) then Some(if retried then RetriedAfterStatus else Pushed)
              else if StatusSays(ph, req, c, w) then Some(RecoveredByStatus)
              else if StatSays(ph, req, c, w) then Some(RecoveredByStat)
              else None)
  {
    hide PushOnce, DecideOn, Answered, CarriedOut, StatusSays, StatSays, StatusDenies, StatDenies;
    var c, p := SecondTry(fates), After(ph, req, written);
    var w := written || CarriedOut(ph, req, c);
    CarriedNeedsWritable(ph, req, c);
    PushTurn(p, req, fates, 1, retried);
    OnceIs(p, req, c);
    WrittenTwice(ph, req, c, written);
    DecidesSo(ph, req, c, w, 1, retried);
    var d := DecideOn(After(ph, req, w), req, c.status, c.stat, 1, retried);
    hide Push, After;
    if d.Again? { PushEnds(After(ph, req, w), req, fates, 2, d.retried); }
  }

  lemma CarriedNeedsWritable(ph: Phone, req: Request, c: Calls)
    ensures CarriedOut(ph, req, c) ==> Writable(ph, req)
    ensures Answered(ph, req, c) ==> CarriedOut(ph, req, c)
  { }

  /** The outcome of a push, for every phone, request and pattern of losses. It is pushed when a form
      of the push was answered; recovered when it was not and a probe says that the chunk is there;
      tried once more when a probe says that it is not, or that there is too little, and then pushed
      or recovered likewise; and otherwise an error. The phone has the chunk written once if any form
      of it was carried out, and is otherwise as before. */
  lemma PushOutcomeIff(ph: Phone, req: Request, fates: seq<Fate>)
    requires |fates| == 4 * MAX_ATTEMPTS
    ensures var (ph1, r) := Push(ph, req, fates, 0, false);
            var c, d := FirstTry(fates), SecondTry(fates);
            var chance, w := SecondChance(ph, req, c), CarriedOut(ph, req, c);
            var again, w2 := chance != NoChance, w || CarriedOut(ph, req, d);
            && ph1 == After(ph, req, if again then w2 else w)
            && (r == Some(Pushed) <==> Answered(ph, req, c) || (chance == SeenShort && Answered(ph, req, d)))
            && (r == Some(RetriedAfterStatus) <==> chance == ToldMissing && Answered(ph, req, d))
            && (r == Some(RecoveredByStatus) <==>
                 || (!Answered(ph, req, c) && StatusSays(ph, req, c, w))
                 || (again && !Answered(ph, req, d) && StatusSays(ph, req, d, w2)))
            && (r == Some(RecoveredByStat) <==>
                 || (!Answered(ph, req, c) && StatSays(ph, req, c, w))
                 || (again && !Answered(ph, req, d) && StatSays(ph, req, d, w2)))
            && (r == None <==>
                 && !Answered(ph, req, c) && !StatusSays(ph, req, c, w) && !StatSays(ph, req, c, w)
                 && (again ==> !Answered(ph, req, d) && !StatusSays(ph, req, d, w2) && !StatSays(ph, req, d, w2)))
  {
    hide PushOnce, DecideOn, Answered, CarriedOut, Push, Writable;
    var c := FirstTry(fates);
    var w := CarriedOut(ph, req, c);
    CarriedNeedsWritable(ph, req, c);
    PushTurn(ph, req, fates, 0, false);
    OnceIs(ph, req, c);
    DecidesSo(ph, req, c, w, 0, false);
    SaysOrDenies(ph, req, c, w);
    var d := DecideOn(After(ph, req, w), req, c.status, c.stat, 0, false);
    hide After, StatusSays, StatSays, StatusDenies, StatDenies;
    if d.Again? { LastTry(ph, req, fates, w, d.retried); }
    SaysOrDenies(ph, req, SecondTry(fates), w || CarriedOut(ph, req, SecondTry(fates)));
  }

  lemma SaysOrDenies(ph: Phone, req: Request, c: Calls, written: bool)
    ensures !(StatusSays(ph, req, c, written) && StatSays(ph, req, c, written))
    ensures StatusDenies(ph, req, c, written) || StatDenies(ph, req, c, written) ==>
      !StatusSays(ph, req, c, written) && !StatSays(ph, req, c, written)
    ensures !(StatusDenies(ph, req, c, written) && StatDenies(ph, req, c, written))
  {
    hide Reaches, AnyFile, StatusTaken;
  }

  /** So a push that got lost, of a chunk the phone has nothing of, is pushed again when the phone
      says so, and a second push that gets through is an Ok with the bytes in place. */
  lemma LostIsPushedAgain(ph: Phone, req: Request, fates: seq<Fate>)
    requires |fates| == 4 * MAX_ATTEMPTS && Writable(ph, req) && BinaryTaken(req)
    requires !Misleading(ph, req)
    requires fates[0] == fates[1] == RequestLost && fates[2] == fates[4] == Delivered
    ensures var (ph1, r) := Push(ph, req, fates, 0, false);
            r == Some(RetriedAfterStatus) && ph1 == WrittenPhone(ph, req) && Holds(ph1, req)
  {
    PushOutcomeIff(ph, req, fates);
    AfterSees(ph, req, false);
    WriteMakesHold(ph, req);
    assert StatusTaken(req);
    assert SecondChance(ph, req, FirstTry(fates)) == ToldMissing by {
      hide BinaryTaken, TextTaken, StatusTaken, AnyFile;
      assert FirstTry(fates) == Calls(RequestLost, RequestLost, Delivered, fates[3]);
    }
    hide Push, Holds, StatusSays, StatSays, StatDenies, StatusDenies, SecondChance;
  }

  // ----- how far a pass gets -----

  /** The pass records each chunk it comes to and pushes, up to the one where it stops: everything
      before is remembered or recorded, and no more. */
  lemma {:induction false} PassRecords(ph: Phone, p: Path, src: Data, chunkSize: nat, completed: set<nat>,
                                       recorded: set<nat>, fates: seq<seq<Fate>>, k: nat) returns (m: nat)
    requires ChunkCountForSize(|src|, chunkSize) == Count(|src|, chunkSize) && FatesOk(fates)
    requires k <= Count(|src|, chunkSize)
    ensures var r := PushFrom(ph, p, src, chunkSize, completed, recorded, fates, k);
            && k <= m <= Count(|src|, chunkSize) && (r.ok <==> m == Count(|src|, chunkSize))
            && (forall i: nat :: i in r.recorded <==> i in recorded || (k <= i < m && i !in completed))
    decreases Count(|src|, chunkSize) - k
  {
    hide Push, PushFrom, ChunkCountForSize, Count;
    m := k;
    if k == Count(|src|, chunkSize) || k >= |fates| {
      PassEnds(ph, p, src, chunkSize, completed, recorded, fates, k);
    } else {
      PassTurn(ph, p, src, chunkSize, completed, recorded, fates, k);
      if k in completed {
        m := PassRecords(ph, p, src, chunkSize, completed, recorded, fates, k + 1);
      } else {
        var (ph1, r) := Push(ph, ChunkRequest(p, src, chunkSize, k), fates[k], 0, false);
        if r.Some? { m := PassRecords(ph1, p, src, chunkSize, completed, recorded + {k}, fates, k + 1); }
      }
    }
  }

  /** The first form of every push is taken and answered. */
  ghost predicate Smooth(p: Path, src: Data, chunkSize: nat, fates: seq<seq<Fate>>) {
    && |fates| >= Count(|src|, chunkSize)
    && (forall k :: 0 <= k < Count(|src|, chunkSize) ==>
         |fates[k]| == 4 * MAX_ATTEMPTS && fates[k][0] == Delivered && BinaryTaken(ChunkRequest(p, src, chunkSize, k)))
  }

  lemma SmoothPush(ph: Phone, req: Request, fates: seq<Fate>)
    requires |fates| == 4 * MAX_ATTEMPTS && fates[0] == Delivered && BinaryTaken(req) && Writable(ph, req)
    ensures Push(ph, req, fates, 0, false) == (WrittenPhone(ph, req), Some(Pushed))
    ensures Writable(WrittenPhone(ph, req), req)
  {
    PushOutcomeIff(ph, req, fates);
    WriteAgain(ph, req);
    hide Push, StatusSays, StatSays, StatDenies, StatusDenies, BinaryTaken, TextTaken, WrittenPhone;
  }

  /** When nothing is lost a pass gets through, and has recorded every chunk that was not remembered. */
  lemma {:induction false} SmoothPass(ph: Phone, p: Path, src: Data, chunkSize: nat, completed: set<nat>,
                                      recorded: set<nat>, fates: seq<seq<Fate>>, k: nat)
    requires ChunkCountForSize(|src|, chunkSize) == Count(|src|, chunkSize) && FatesOk(fates)
    requires k <= Count(|src|, chunkSize) && Smooth(p, src, chunkSize, fates) && ph.started && ph.Current(p)
    ensures var r := PushFrom(ph, p, src, chunkSize, completed, recorded, fates, k);
            && r.ok
            && (forall i: nat :: i in r.recorded <==>
                 i in recorded || (k <= i < Count(|src|, chunkSize) && i !in completed))
    decreases Count(|src|, chunkSize) - k
  {
    hide Push, PushFrom, ChunkCountForSize, Count, WrittenPhone, ChunkRequest, BinaryTaken;
    if k == Count(|src|, chunkSize) {
      PassEnds(ph, p, src, chunkSize, completed, recorded, fates, k);
    } else {
      PassTurn(ph, p, src, chunkSize, completed, recorded, fates, k);
      if k in completed {
        SmoothPass(ph, p, src, chunkSize, completed, recorded, fates, k + 1);
      } else {
        var req := ChunkRequest(p, src, chunkSize, k);
        RequestOf(p, src, chunkSize, k);
        SmoothPush(ph, req, fates[k]);
        SmoothPass(WrittenPhone(ph, req), p, src, chunkSize, completed, recorded + {k}, fates, k + 1);
      }
    }
  }

  // ----- which forms the phone takes -----

  /** The binary form is taken exactly when the phone accepts its command line. */
  lemma BinaryTakenIff(req: Request)
    ensures BinaryTaken(req) <==>
      PathArg.Accept(PathArg.PushCommand(req.path, req.chunkIndex, req.offset, |req.payload|)).Some?
  {
    PathArg.CommandAccepted(req.path, req.chunkIndex, req.offset, |req.payload|);
  }

  /** The text form is taken up to 16 KiB of line, the payload in four symbols for three bytes; so never
      with more than 12 KiB. */
  lemma TextTakenIff(req: Request)
    ensures TextTaken(req) <==>
      && req.path != [] && req.chunkIndex < 0x8000_0000 && req.offset < 0x8000_0000_0000_0000
      && TextLength(req) <= 16384
    ensures TextTaken(req) ==> |req.payload| <= 12288
  { }
}
