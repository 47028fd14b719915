/** Sending a file from START_FILE on, whatever an earlier transfer left on the phone: a finished file,
    as after a completion whose answer was lost, or a temporary one, of this source or of another. */
module WifiRepeat {
  import opened Wrappers
  import opened Bytes
  import opened Chunks
  import opened Agent
  import opened WifiPush

  /** What START_FILE finds of a file, and leaves. */
  datatype Found = Found(final: Option<Data>, temp: Option<Data>)
  {
    /** What readers see. */
    function Seen(): Option<Data> { if final.Some? then final else temp }
  }

  function FoundAt(files: map<Path, Data>, p: Path): Found {
    Found(Begin(files, p, 0).File(p), Begin(files, p, 0).Temp(p))
  }

  // ----- what a pass writes -----

  /** The temporary file when, of the first `k` chunks, those in `w` were written in order. */
  function Painted(src: Data, chunkSize: nat, temp: Option<Data>, w: set<nat>, k: nat): Option<Data>
    requires k <= Count(|src|, chunkSize)
  {
    if k == 0 then temp
    else
      var before := Painted(src, chunkSize, temp, w, k - 1);
      if k - 1 !in w then before
      else
        var c := ChunkAt(0, |src|, chunkSize, k - 1);
        Some(WriteAt(if before.Some? then before.value else [], c.offset, Slice(src, c)))
  }

  lemma {:induction false} PaintedSame(src: Data, chunkSize: nat, temp: Option<Data>, a: set<nat>, b: set<nat>, k: nat)
    requires k <= Count(|src|, chunkSize) && forall i :: 0 <= i < k ==> (i in a <==> i in b)
    ensures Painted(src, chunkSize, temp, a, k) == Painted(src, chunkSize, temp, b, k)
  {
    if k > 0 { PaintedSame(src, chunkSize, temp, a, b, k - 1); }
  }

  function LengthOf(t: Option<Data>): nat { if t.Some? then |t.value| else 0 }

  /** A byte of a file; past its end, what a gap is filled with. */
  function ByteOf(t: Option<Data>, q: nat): Byte { if q < LengthOf(t) then t.value[q] else 0 }

  lemma PaintedNext(src: Data, chunkSize: nat, temp: Option<Data>, w: set<nat>, k: nat)
    requires k < Count(|src|, chunkSize)
    ensures UpTo(|src|, chunkSize, k) == ChunkAt(0, |src|, chunkSize, k).offset
    ensures UpTo(|src|, chunkSize, k + 1) == EndOf(src, chunkSize, k)
    ensures k !in w ==> Painted(src, chunkSize, temp, w, k + 1) == Painted(src, chunkSize, temp, w, k)
    ensures k in w ==>
      var before, c := Painted(src, chunkSize, temp, w, k), ChunkAt(0, |src|, chunkSize, k);
      Painted(src, chunkSize, temp, w, k + 1)
        == Some(WriteAt(if before.Some? then before.value else [], c.offset, Slice(src, c)))
  {
    Adjacent(|src|, chunkSize, k);
  }

  lemma PaintedStart(src: Data, chunkSize: nat, temp: Option<Data>, w: set<nat>)
    ensures Painted(src, chunkSize, temp, w, 0) == temp && UpTo(|src|, chunkSize, 0) == 0
  { }

  lemma NonEmptyChunk(src: Data, chunkSize: nat, k: nat)
    requires src != [] && k < Count(|src|, chunkSize)
    ensures ChunkAt(0, |src|, chunkSize, k).offset < EndOf(src, chunkSize, k)
  {
    Tiling(0, |src|, chunkSize);
    assert Split(0, |src|, chunkSize)[k] == ChunkAt(0, |src|, chunkSize, k);
  }

  /** How far the painted file reaches. */
  lemma {:induction false} PaintedLength(src: Data, chunkSize: nat, temp: Option<Data>, w: set<nat>, k: nat)
    requires k <= Count(|src|, chunkSize)
    ensures var t := Painted(src, chunkSize, temp, w, k);
            && LengthOf(temp) <= LengthOf(t) <= Max(LengthOf(temp), UpTo(|src|, chunkSize, k))
            && (src != [] && k > 0 && k - 1 in w ==> LengthOf(t) == Max(LengthOf(temp), UpTo(|src|, chunkSize, k)))
            && (k > 0 && k - 1 !in w ==> LengthOf(t) <= Max(LengthOf(temp), UpTo(|src|, chunkSize, k - 1)))
            && (t.None? <==> temp.None? && forall i :: 0 <= i < k ==> i !in w)
  {
    hide Painted, ChunkAt, UpTo;
    if k > 0 {
      PaintedLength(src, chunkSize, temp, w, k - 1);
      PaintedNext(src, chunkSize, temp, w, k - 1);
      if src != [] { NonEmptyChunk(src, chunkSize, k - 1); }
    } else {
      PaintedStart(src, chunkSize, temp, w);
    }
  }

  lemma ChunkOfPosition(src: Data, chunkSize: nat, k: nat, q: nat)
    requires q < |src| && k < Count(|src|, chunkSize)
    ensures ChunkAt(0, |src|, chunkSize, k).offset <= q < EndOf(src, chunkSize, k) <==> k == q / AtLeastOne(chunkSize)
  {
    ChunkOfByte(0, |src|, chunkSize, q);
    assert Split(0, |src|, chunkSize)[k] == ChunkAt(0, |src|, chunkSize, k);
  }

  lemma WrittenByte(src: Data, file: Data, from: nat, to: nat, q: nat)
    requires from <= to <= |src| && q < |src|
    ensures ByteOf(Some(WriteAt(file, from, src[from..to])), q)
         == if from <= q < to then src[q] else ByteOf(Some(file), q)
  {
    var data := src[from..to];
    if from <= q < to { assert data[q - from] == src[q]; }
    hide WriteAt;
  }

  lemma PaintedByteNext(src: Data, chunkSize: nat, temp: Option<Data>, w: set<nat>, k: nat, q: nat)
    requires k < Count(|src|, chunkSize) && q < |src|
    ensures ByteOf(Painted(src, chunkSize, temp, w, k + 1), q) ==
      if k == q / AtLeastOne(chunkSize) && k in w then src[q] else ByteOf(Painted(src, chunkSize, temp, w, k), q)
  {
    hide Painted, ChunkAt, UpTo, WriteAt, AtLeastOne;
    PaintedNext(src, chunkSize, temp, w, k);
    ChunkOfPosition(src, chunkSize, k, q);
    var before, c := Painted(src, chunkSize, temp, w, k), ChunkAt(0, |src|, chunkSize, k);
    if k in w { WrittenByte(src, if before.Some? then before.value else [], c.offset, End(c), q); }
  }

  /** Byte for byte: of the source if its chunk was written, else as before. */
  lemma {:induction false} PaintedByte(src: Data, chunkSize: nat, temp: Option<Data>, w: set<nat>, k: nat, q: nat)
    requires k <= Count(|src|, chunkSize) && q < |src|
    ensures var i := q / AtLeastOne(chunkSize);
            ByteOf(Painted(src, chunkSize, temp, w, k), q) == if i < k && i in w then src[q] else ByteOf(temp, q)
  {
    hide Painted, ByteOf, AtLeastOne;
    if k == 0 {
      PaintedStart(src, chunkSize, temp, w);
    } else {
      PaintedByte(src, chunkSize, temp, w, k - 1, q);
      PaintedByteNext(src, chunkSize, temp, w, k - 1, q);
    }
  }

  /** The chunk is there already, counting a gap as zeros. */
  ghost predicate Fine(src: Data, chunkSize: nat, temp: Option<Data>, k: nat)
    requires k < Count(|src|, chunkSize)
  {
    forall q :: ChunkAt(0, |src|, chunkSize, k).offset <= q < EndOf(src, chunkSize, k) ==> ByteOf(temp, q) == src[q]
  }

  /** Painting makes the chunks it writes fine and changes no other. */
  lemma PaintedFineIff(src: Data, chunkSize: nat, temp: Option<Data>, w: set<nat>, k: nat, i: nat)
    requires k <= Count(|src|, chunkSize) && i < Count(|src|, chunkSize)
    ensures Fine(src, chunkSize, Painted(src, chunkSize, temp, w, k), i) <==>
      (i < k && i in w) || Fine(src, chunkSize, temp, i)
  {
    hide Painted, ChunkAt, ByteOf;
    forall q | ChunkAt(0, |src|, chunkSize, i).offset <= q < EndOf(src, chunkSize, i)
      ensures ByteOf(Painted(src, chunkSize, temp, w, k), q) == if i < k && i in w then src[q] else ByteOf(temp, q)
    {
      ChunkOfPosition(src, chunkSize, i, q);
      PaintedByte(src, chunkSize, temp, w, k, q);
    }
  }

  lemma SameFileIff(src: Data, chunkSize: nat, t: Option<Data>)
    requires src != []
    ensures t == Some(src) <==>
      LengthOf(t) == |src| && forall k: nat :: k < Count(|src|, chunkSize) ==> Fine(src, chunkSize, t, k)
  {
    hide ChunkAt, Count;
    if LengthOf(t) == |src| && forall k: nat :: k < Count(|src|, chunkSize) ==> Fine(src, chunkSize, t, k) {
      forall q: nat | q < |src| ensures t.value[q] == src[q] {
        var k := q / AtLeastOne(chunkSize);
        ChunkOfByte(0, |src|, chunkSize, q);
        ChunkOfPosition(src, chunkSize, k, q);
        assert Fine(src, chunkSize, t, k);
      }
      assert t.value == src;
    }
  }

  /** The painted file is the source exactly when what was there is no longer, the last chunk was
      written or reached already, and every chunk that was not written is there already. */
  lemma PaintedIsSourceIff(src: Data, chunkSize: nat, temp: Option<Data>, w: set<nat>)
    requires src != []
    ensures var n := Count(|src|, chunkSize);
            Painted(src, chunkSize, temp, w, n) == Some(src) <==>
              && LengthOf(temp) <= |src| && (n - 1 in w || LengthOf(temp) == |src|)
              && (forall k: nat :: k < n && k !in w ==> Fine(src, chunkSize, temp, k))
  {
    hide Painted, ChunkAt, UpTo, Fine;
    var n := Count(|src|, chunkSize);
    LastEnd(|src|, chunkSize);
    PaintedNext(src, chunkSize, temp, w, n - 1);
    NonEmptyChunk(src, chunkSize, n - 1);
    PaintedLength(src, chunkSize, temp, w, n);
    SameFileIff(src, chunkSize, Painted(src, chunkSize, temp, w, n));
    forall k: nat | k < n
      ensures Fine(src, chunkSize, Painted(src, chunkSize, temp, w, n), k) <==> k in w || Fine(src, chunkSize, temp, k)
    {
      PaintedFineIff(src, chunkSize, temp, w, n, k);
    }
  }

  // ----- what a pass may leave -----

  /** What readers see reaches the end of the chunk, so its length confirms the chunk unsent. */
  predicate CoveredUp(found: Found, src: Data, chunkSize: nat, k: nat)
    requires k < Count(|src|, chunkSize)
  {
    found.Seen().Some? && |found.Seen().value| >= EndOf(src, chunkSize, k)
  }

  /** The phone after the first `k` chunks, of which those in `w` were written. */
  ghost predicate At(ph: Phone, p: Path, src: Data, chunkSize: nat, found: Found, w: set<nat>, k: nat)
    requires k <= Count(|src|, chunkSize)
  {
    && ph.started && ph.Current(p) && ph.File(p) == found.final
    && ph.Temp(p) == Painted(src, chunkSize, found.temp, w, k)
    && (forall i: nat :: ph.Acked(p, i) ==> i < k)
    && (forall i :: i in w ==> i < k)
  }

  lemma Skips(ph: Phone, p: Path, src: Data, chunkSize: nat, found: Found, w: set<nat>, k: nat)
    requires k < Count(|src|, chunkSize) && At(ph, p, src, chunkSize, found, w, k)
    ensures At(ph, p, src, chunkSize, found, w, k + 1)
  {
    hide Painted;
    PaintedNext(src, chunkSize, found.temp, w, k);
  }

  lemma Writes(ph: Phone, p: Path, src: Data, chunkSize: nat, found: Found, w: set<nat>, k: nat)
    requires k < Count(|src|, chunkSize) && At(ph, p, src, chunkSize, found, w, k)
    ensures At(WrittenPhone(ph, ChunkRequest(p, src, chunkSize, k)), p, src, chunkSize, found, w + {k}, k + 1)
  {
    hide Painted, WriteAt, ChunkAt, TempName, WriteChunk;
    var req := ChunkRequest(p, src, chunkSize, k);
    PaintedSame(src, chunkSize, found.temp, w, w + {k}, k);
    PaintedNext(src, chunkSize, found.temp, w + {k}, k);
    WriteEffect(ph, req);
    FinalStays(ph, req);
  }

  lemma FinalStays(ph: Phone, req: Request)
    requires ph.started && ph.Current(req.path)
    ensures WrittenPhone(ph, req).File(req.path) == ph.File(req.path)
  {
    TempIsOther(req.path);
    hide TempName, WriteAt;
  }

  /** A chunk that was not written before looks written only when what was there covers it up. */
  lemma MisleadingIff(ph: Phone, p: Path, src: Data, chunkSize: nat, found: Found, w: set<nat>, k: nat)
    requires k < Count(|src|, chunkSize) && At(ph, p, src, chunkSize, found, w, k)
    ensures Misleading(ph, ChunkRequest(p, src, chunkSize, k)) <==> CoveredUp(found, src, chunkSize, k)
  {
    hide Painted, ChunkAt, UpTo;
    PaintedLength(src, chunkSize, found.temp, w, k);
    PaintedNext(src, chunkSize, found.temp, w, k);
    if k == 0 {
      PaintedStart(src, chunkSize, found.temp, w);
    } else {
      NonEmptyChunk(src, chunkSize, k);
    }
  }

  /** Of the chunks from `k` up to `m`, `w` writes only such as are not completed, and all of these
      that are not covered up. */
  predicate Fitting(found: Found, src: Data, chunkSize: nat, completed: set<nat>, w: set<nat>, k: nat, m: nat) {
    forall i: nat :: k <= i < m && i < Count(|src|, chunkSize) ==>
      (i in w ==> i !in completed) && (i !in completed ==> i in w || CoveredUp(found, src, chunkSize, i))
  }

  lemma OneChunk(ph: Phone, p: Path, src: Data, chunkSize: nat, found: Found, w: set<nat>, k: nat, fates: seq<Fate>)
    requires k < Count(|src|, chunkSize) && At(ph, p, src, chunkSize, found, w, k) && |fates| == 4 * MAX_ATTEMPTS
    ensures var (ph1, r) := Push(ph, ChunkRequest(p, src, chunkSize, k), fates, 0, false);
            || At(ph1, p, src, chunkSize, found, w + {k}, k + 1)
            || (CoveredUp(found, src, chunkSize, k) && At(ph1, p, src, chunkSize, found, w, k + 1))
            || (r.None? && At(ph1, p, src, chunkSize, found, w, k))
  {
    hide Push, Misleading, WrittenPhone, CoveredUp, ChunkRequest, At;
    var req := ChunkRequest(p, src, chunkSize, k);
    MisleadingIff(ph, p, src, chunkSize, found, w, k);
    RequestOf(p, src, chunkSize, k);
    AtIsOpen(ph, p, src, chunkSize, found, w, k);
    PushIsOneOf(ph, req, fates, 0, false);
    Writes(ph, p, src, chunkSize, found, w, k);
    Skips(ph, p, src, chunkSize, found, w, k);
    var ph1 := Push(ph, req, fates, 0, false).0;
    if ph1 != WrittenPhone(ph, req) { assert ph1 == ph; }
  }

  lemma AtIsOpen(ph: Phone, p: Path, src: Data, chunkSize: nat, found: Found, w: set<nat>, k: nat)
    requires k <= Count(|src|, chunkSize) && At(ph, p, src, chunkSize, found, w, k)
    ensures ph.started && ph.Current(p)
  { }

  lemma FitsNone(found: Found, src: Data, chunkSize: nat, completed: set<nat>, w: set<nat>, k: nat)
    ensures Fitting(found, src, chunkSize, completed, w, k, k)
  { }

  lemma FitsFirst(found: Found, src: Data, chunkSize: nat, completed: set<nat>, w: set<nat>, k: nat, m: nat)
    requires k < m <= Count(|src|, chunkSize) && Fitting(found, src, chunkSize, completed, w, k + 1, m)
    requires if k in completed then k !in w else k in w || CoveredUp(found, src, chunkSize, k)
    ensures Fitting(found, src, chunkSize, completed, w, k, m)
  {
    hide CoveredUp, Count;
  }

  /** Whatever is lost, a pass has written some fitting set of the chunks it came to, and recorded
      no other chunk; one that gets through came to all. */
  lemma {:induction false} PassPaints(ph: Phone, p: Path, src: Data, chunkSize: nat, found: Found, w: set<nat>,
                                      completed: set<nat>, recorded: set<nat>, fates: seq<seq<Fate>>, k: nat)
    returns (v: set<nat>, m: nat)
    requires ChunkCountForSize(|src|, chunkSize) == Count(|src|, chunkSize) && FatesOk(fates)
    requires k <= Count(|src|, chunkSize) && At(ph, p, src, chunkSize, found, w, k)
    ensures var r := PushFrom(ph, p, src, chunkSize, completed, recorded, fates, k);
            && k <= m <= Count(|src|, chunkSize) && (r.ok ==> m == Count(|src|, chunkSize))
            && At(r.phone, p, src, chunkSize, found, v, m)
            && Fitting(found, src, chunkSize, completed, v, k, m)
            && (forall i :: 0 <= i < k ==> (i in v <==> i in w))
            && (forall i :: i in r.recorded ==> i in recorded || i < m)
    decreases Count(|src|, chunkSize) - k
  {
    hide Push, PushFrom, At, CoveredUp, ChunkCountForSize, Count, Fitting;
    v, m := w, k;
    FitsNone(found, src, chunkSize, completed, w, k);
    if k == Count(|src|, chunkSize) || k >= |fates| {
      PassEnds(ph, p, src, chunkSize, completed, recorded, fates, k);
    } else {
      PassTurn(ph, p, src, chunkSize, completed, recorded, fates, k);
      OnlyEarlier(ph, p, src, chunkSize, found, w, k);
      if k in completed {
        Skips(ph, p, src, chunkSize, found, w, k);
        v, m := PassPaints(ph, p, src, chunkSize, found, w, completed, recorded, fates, k + 1);
        FitsFirst(found, src, chunkSize, completed, v, k, m);
      } else {
        var (ph1, r) := Push(ph, ChunkRequest(p, src, chunkSize, k), fates[k], 0, false);
        OneChunk(ph, p, src, chunkSize, found, w, k, fates[k]);
        if At(ph1, p, src, chunkSize, found, w + {k}, k + 1) {
          v, m := w + {k}, k + 1;
          FitsNone(found, src, chunkSize, completed, v, m);
        } else if CoveredUp(found, src, chunkSize, k) && At(ph1, p, src, chunkSize, found, w, k + 1) {
          m := k + 1;
          FitsNone(found, src, chunkSize, completed, v, m);
        }
        if r.Some? { v, m := PassPaints(ph1, p, src, chunkSize, found, v, completed, recorded + {k}, fates, k + 1); }
        if m > k { FitsFirst(found, src, chunkSize, completed, v, k, m); }
      }
    }
  }

  lemma OnlyEarlier(ph: Phone, p: Path, src: Data, chunkSize: nat, found: Found, w: set<nat>, k: nat)
    requires k <= Count(|src|, chunkSize) && At(ph, p, src, chunkSize, found, w, k)
    ensures k !in w
  { }

  // ----- every fitting set can happen -----

  const ALL_DELIVERED: seq<Fate> :=
    [Delivered, Delivered, Delivered, Delivered, Delivered, Delivered, Delivered, Delivered]

  function FatesFor(w: set<nat>, n: nat): (fates: seq<seq<Fate>>)
    ensures |fates| == n
    ensures forall k :: 0 <= k < n ==> fates[k] == if k in w then ALL_DELIVERED else ALL_LOST
    ensures FatesOk(fates)
  {
    seq(n, k => if k in w then ALL_DELIVERED else ALL_LOST)
  }

  /** The phone takes the push of every chunk. */
  ghost predicate AllTaken(p: Path, src: Data, chunkSize: nat) {
    forall k :: 0 <= k < Count(|src|, chunkSize) ==> BinaryTaken(ChunkRequest(p, src, chunkSize, k))
  }

  lemma DeliveredPush(ph: Phone, req: Request)
    requires BinaryTaken(req) && ph.started && ph.Current(req.path)
    ensures Push(ph, req, ALL_DELIVERED, 0, false) == (WrittenPhone(ph, req), Some(Pushed))
  {
    hide BinaryTaken, WriteAt, TempName;
  }

  /** The loop with these fates writes exactly these chunks and gets through. */
  lemma {:induction false} PassFollows(ph: Phone, p: Path, src: Data, chunkSize: nat, found: Found, w: set<nat>,
                                       completed: set<nat>, recorded: set<nat>, v: set<nat>, k: nat)
    requires ChunkCountForSize(|src|, chunkSize) == Count(|src|, chunkSize)
    requires k <= Count(|src|, chunkSize) && At(ph, p, src, chunkSize, found, w, k)
    requires Fitting(found, src, chunkSize, completed, v, k, Count(|src|, chunkSize)) && AllTaken(p, src, chunkSize)
    requires forall i :: 0 <= i < k ==> (i in v <==> i in w)
    ensures var r := PushFrom(ph, p, src, chunkSize, completed, recorded, FatesFor(v, Count(|src|, chunkSize)), k);
            r.ok && r.phone.started && r.phone.Current(p) && r.phone.File(p) == found.final
            && r.phone.Temp(p) == Painted(src, chunkSize, found.temp, v, Count(|src|, chunkSize))
    decreases Count(|src|, chunkSize) - k
  {
    hide Push, PushFrom, CoveredUp, ChunkCountForSize, Count, BinaryTaken, Painted, WrittenPhone, ChunkRequest;
    var fates := FatesFor(v, Count(|src|, chunkSize));
    if k == Count(|src|, chunkSize) {
      PassEnds(ph, p, src, chunkSize, completed, recorded, fates, k);
      PaintedSame(src, chunkSize, found.temp, v, w, k);
    } else {
      var req := ChunkRequest(p, src, chunkSize, k);
      PassTurn(ph, p, src, chunkSize, completed, recorded, fates, k);
      OnlyEarlier(ph, p, src, chunkSize, found, w, k);
      RequestOf(p, src, chunkSize, k);
      if k in v {
        DeliveredPush(ph, req);
        Writes(ph, p, src, chunkSize, found, w, k);
        hide At;
        PassFollows(WrittenPhone(ph, req), p, src, chunkSize, found, w + {k}, completed, recorded + {k}, v, k + 1);
      } else {
        Skips(ph, p, src, chunkSize, found, w, k);
        if k !in completed {
          MisleadingIff(ph, p, src, chunkSize, found, w, k);
          BinaryStatus(req);
          LostPush(ph, req);
        }
        hide At;
        var recorded1 := if k in completed then recorded else recorded + {k};
        PassFollows(ph, p, src, chunkSize, found, w, completed, recorded1, v, k + 1);
      }
    }
  }

  lemma BinaryStatus(req: Request)
    requires BinaryTaken(req)
    ensures StatusTaken(req)
  { }

  // ----- when a pass is safe -----

  /** Whatever is lost, a pass that gets through and is then completed leaves the source. */
  ghost predicate RepeatSafe(files: map<Path, Data>, p: Path, src: Data, chunkSize: nat, remembered: set<nat>)
    requires ChunkCountForSize(|src|, chunkSize) == Count(|src|, chunkSize)
  {
    forall fates | FatesOk(fates) ::
      var r := Attempt(files, p, src, chunkSize, Try(remembered, fates));
      r.ok ==> CompleteFile(r.phone, p).0.File(p) == Some(src)
  }

  /** What completing a file of this size makes of the phone's two files. */
  function Finished(size: nat, final: Option<Data>, temp: Option<Data>): Option<Data> {
    if temp.Some? then temp else if size == 0 then Some([]) else final
  }

  lemma CompletesAs(ph: Phone, p: Path)
    requires ph.started && ph.Current(p)
    ensures CompleteFile(ph, p).0.File(p) == Finished(ph.current.value.size, ph.File(p), ph.Temp(p))
  {
    TempIsOther(p);
    hide TempName;
  }

  lemma BeginAt(files: map<Path, Data>, p: Path, src: Data, chunkSize: nat)
    ensures At(Begin(files, p, |src|), p, src, chunkSize, FoundAt(files, p), {}, 0)
  { }

  /** So what counts is what every fitting set of written chunks leaves. */
  ghost predicate EverySetSafe(found: Found, src: Data, chunkSize: nat, remembered: set<nat>) {
    forall w: set<nat> | Fitting(found, src, chunkSize, remembered, w, 0, Count(|src|, chunkSize)) ::
      Finished(|src|, found.final, Painted(src, chunkSize, found.temp, w, Count(|src|, chunkSize))) == Some(src)
  }

  lemma PassFinishes(files: map<Path, Data>, p: Path, src: Data, chunkSize: nat, remembered: set<nat>,
                     fates: seq<seq<Fate>>)
    requires ChunkCountForSize(|src|, chunkSize) == Count(|src|, chunkSize)
    requires FatesOk(fates) && EverySetSafe(FoundAt(files, p), src, chunkSize, remembered)
    ensures var r := Attempt(files, p, src, chunkSize, Try(remembered, fates));
            r.ok ==> CompleteFile(r.phone, p).0.File(p) == Some(src)
  {
    hide PushFrom, CompleteFile, Painted, Fitting, ChunkCountForSize, Finished, FoundAt;
    var ph := Begin(files, p, |src|);
    BeginAt(files, p, src, chunkSize);
    var v, m := PassPaints(ph, p, src, chunkSize, FoundAt(files, p), {}, remembered, remembered, fates, 0);
    PassKeepsSize(ph, p, src, chunkSize, remembered, remembered, fates, 0);
    var r := PushFrom(ph, p, src, chunkSize, remembered, remembered, fates, 0);
    if r.ok { CompletesAs(r.phone, p); }
  }

  lemma SetFinishes(files: map<Path, Data>, p: Path, src: Data, chunkSize: nat, remembered: set<nat>, w: set<nat>)
    requires ChunkCountForSize(|src|, chunkSize) == Count(|src|, chunkSize)
    requires AllTaken(p, src, chunkSize) && RepeatSafe(files, p, src, chunkSize, remembered)
    requires Fitting(FoundAt(files, p), src, chunkSize, remembered, w, 0, Count(|src|, chunkSize))
    ensures var found := FoundAt(files, p);
            Finished(|src|, found.final, Painted(src, chunkSize, found.temp, w, Count(|src|, chunkSize))) == Some(src)
  {
    hide PushFrom, CompleteFile, Painted, Fitting, ChunkCountForSize, Finished, FatesFor, FatesOk, AllTaken, FoundAt;
    var ph := Begin(files, p, |src|);
    var fates := FatesFor(w, Count(|src|, chunkSize));
    BeginAt(files, p, src, chunkSize);
    PassFollows(ph, p, src, chunkSize, FoundAt(files, p), {}, remembered, remembered, w, 0);
    PassKeepsSize(ph, p, src, chunkSize, remembered, remembered, fates, 0);
    assert Attempt(files, p, src, chunkSize, Try(remembered, fates)).ok;
    CompletesAs(PushFrom(ph, p, src, chunkSize, remembered, remembered, fates, 0).phone, p);
  }

  /** A chunk that may end the pass unwritten. */
  predicate Unsent(found: Found, src: Data, chunkSize: nat, remembered: set<nat>, k: nat)
    requires k < Count(|src|, chunkSize)
  {
    k in remembered || CoveredUp(found, src, chunkSize, k)
  }

  /** The temporary file is no longer than the source, and wherever a chunk may stay unsent it is
      there already, counting a gap as zeros; the last one with the file's full length. */
  ghost predicate SentOver(found: Found, src: Data, chunkSize: nat, remembered: set<nat>) {
    && LengthOf(found.temp) <= |src|
    && (Unsent(found, src, chunkSize, remembered, Count(|src|, chunkSize) - 1) ==> LengthOf(found.temp) == |src|)
    && (forall k: nat :: k < Count(|src|, chunkSize) && Unsent(found, src, chunkSize, remembered, k) ==>
          Fine(src, chunkSize, found.temp, k))
  }

  /** The source is there already with no temporary file, and everything is remembered, or all but
      the last chunk and the others are all zeros. */
  ghost predicate LeftAlone(found: Found, src: Data, chunkSize: nat, remembered: set<nat>) {
    var last := Count(|src|, chunkSize) - 1;
    && found == Found(Some(src), None)
    && (forall k: nat :: k < last ==> k in remembered)
    && (last in remembered || forall k: nat :: k < last ==> Fine(src, chunkSize, None, k))
  }

  lemma SafeSets(found: Found, src: Data, chunkSize: nat, remembered: set<nat>, w: set<nat>)
    requires Fitting(found, src, chunkSize, remembered, w, 0, Count(|src|, chunkSize))
    requires SentOver(found, src, chunkSize, remembered) || LeftAlone(found, src, chunkSize, remembered)
    ensures Finished(|src|, found.final, Painted(src, chunkSize, found.temp, w, Count(|src|, chunkSize))) == Some(src)
  {
    hide Painted, CoveredUp, Fine, UpTo;
    var n := Count(|src|, chunkSize);
    LastEnd(|src|, chunkSize);
    PaintedLength(src, chunkSize, found.temp, w, n);
    if src != [] { PaintedIsSourceIff(src, chunkSize, found.temp, w); }
    if SentOver(found, src, chunkSize, remembered) {
      forall k: nat | k < n && k !in w ensures Fine(src, chunkSize, found.temp, k) {
        assert Unsent(found, src, chunkSize, remembered, k);
      }
    }
  }

  /** The chunks not remembered, and of these the ones that must be written. */
  function Fresh(src: Data, chunkSize: nat, remembered: set<nat>): set<nat> {
    set k | 0 <= k < Count(|src|, chunkSize) && k !in remembered
  }

  function Needed(found: Found, src: Data, chunkSize: nat, remembered: set<nat>): set<nat> {
    set k | 0 <= k < Count(|src|, chunkSize) && !Unsent(found, src, chunkSize, remembered, k)
  }

  /** What a safe set of written chunks must be. */
  lemma SetLeaves(found: Found, src: Data, chunkSize: nat, remembered: set<nat>, w: set<nat>)
    requires EverySetSafe(found, src, chunkSize, remembered) && forall k :: k in w ==> k < Count(|src|, chunkSize)
    requires Fitting(found, src, chunkSize, remembered, w, 0, Count(|src|, chunkSize))
    ensures src == [] ==> LengthOf(found.temp) == 0
    ensures src != [] && w == {} && found.temp.None? ==> found.final == Some(src)
    ensures src != [] && (w != {} || found.temp.Some?) ==>
      && LengthOf(found.temp) <= |src| && (Count(|src|, chunkSize) - 1 in w || LengthOf(found.temp) == |src|)
      && (forall k: nat :: k < Count(|src|, chunkSize) && k !in w ==> Fine(src, chunkSize, found.temp, k))
  {
    hide Painted, CoveredUp, Fine, UpTo;
    PaintedLength(src, chunkSize, found.temp, w, Count(|src|, chunkSize));
    if src != [] { PaintedIsSourceIff(src, chunkSize, found.temp, w); }
  }

  lemma EmptyFine(chunkSize: nat, temp: Option<Data>, k: nat)
    requires k < Count(0, chunkSize)
    ensures Fine([], chunkSize, temp, k)
  { }

  lemma UnsafeSet(found: Found, src: Data, chunkSize: nat, remembered: set<nat>)
    requires EverySetSafe(found, src, chunkSize, remembered)
    ensures SentOver(found, src, chunkSize, remembered) || LeftAlone(found, src, chunkSize, remembered)
  {
    hide Painted, CoveredUp, Fine, Count;
    var last := Count(|src|, chunkSize) - 1;
    var all, must := Fresh(src, chunkSize, remembered), Needed(found, src, chunkSize, remembered);
    SetLeaves(found, src, chunkSize, remembered, all);
    SetLeaves(found, src, chunkSize, remembered, must);
    if src == [] {
      forall k: nat | k < Count(0, chunkSize) ensures Fine([], chunkSize, found.temp, k) {
        EmptyFine(chunkSize, found.temp, k);
      }
    } else if found.temp.None? && Unsent(found, src, chunkSize, remembered, last) {
      AllButLast(found, src, chunkSize, remembered);
    }
  }

  lemma AllButLast(found: Found, src: Data, chunkSize: nat, remembered: set<nat>)
    requires EverySetSafe(found, src, chunkSize, remembered) && src != [] && found.temp.None?
    requires Unsent(found, src, chunkSize, remembered, Count(|src|, chunkSize) - 1)
    ensures LeftAlone(found, src, chunkSize, remembered)
  {
    hide Painted, CoveredUp, Fine, Count;
    var last, all := Count(|src|, chunkSize) - 1, Fresh(src, chunkSize, remembered);
    SetLeaves(found, src, chunkSize, remembered, all);
    SetLeaves(found, src, chunkSize, remembered, all - {last});
    assert all - {last} == {};
    forall k: nat | k < last ensures k in remembered { assert k !in all - {last}; }
    if last !in remembered { assert last in all; }
  }

  /** One pass. Whatever finished or temporary file is on the phone and whatever commits are
      remembered, every pass that gets through and is completed leaves the source, for all losses,
      exactly when the temporary file is no longer than the source and right wherever a chunk may
      stay unsent, or the source is there already and everything but at most the last chunk, in a
      file that is zeros up to it, is remembered. */
  lemma RepeatSafeIff(files: map<Path, Data>, p: Path, src: Data, chunkSize: nat, remembered: set<nat>)
    requires ChunkCountForSize(|src|, chunkSize) == Count(|src|, chunkSize) && AllTaken(p, src, chunkSize)
    ensures RepeatSafe(files, p, src, chunkSize, remembered) <==>
      || SentOver(FoundAt(files, p), src, chunkSize, remembered)
      || LeftAlone(FoundAt(files, p), src, chunkSize, remembered)
  {
    hide RepeatSafe, SentOver, LeftAlone, AllTaken, ChunkCountForSize, FoundAt, Fitting, Painted, Finished;
    var found, n := FoundAt(files, p), Count(|src|, chunkSize);
    if SentOver(found, src, chunkSize, remembered) || LeftAlone(found, src, chunkSize, remembered) {
      SafeWhen(files, p, src, chunkSize, remembered);
    }
    if RepeatSafe(files, p, src, chunkSize, remembered) {
      forall w: set<nat> | Fitting(found, src, chunkSize, remembered, w, 0, n)
        ensures Finished(|src|, found.final, Painted(src, chunkSize, found.temp, w, n)) == Some(src)
      {
        SetFinishes(files, p, src, chunkSize, remembered, w);
      }
      UnsafeSet(found, src, chunkSize, remembered);
    }
  }

  lemma SafeWhen(files: map<Path, Data>, p: Path, src: Data, chunkSize: nat, remembered: set<nat>)
    requires ChunkCountForSize(|src|, chunkSize) == Count(|src|, chunkSize)
    requires || SentOver(FoundAt(files, p), src, chunkSize, remembered)
             || LeftAlone(FoundAt(files, p), src, chunkSize, remembered)
    ensures RepeatSafe(files, p, src, chunkSize, remembered)
  {
    hide Attempt, CompleteFile, Fitting, Finished, SentOver, LeftAlone, ChunkCountForSize, FoundAt, Painted;
    var found, n := FoundAt(files, p), Count(|src|, chunkSize);
    forall w: set<nat> | Fitting(found, src, chunkSize, remembered, w, 0, n)
      ensures Finished(|src|, found.final, Painted(src, chunkSize, found.temp, w, n)) == Some(src)
    {
      SafeSets(found, src, chunkSize, remembered, w);
    }
    forall fates: seq<seq<Fate>> | FatesOk(fates)
      ensures var r := Attempt(files, p, src, chunkSize, Try(remembered, fates));
              r.ok ==> CompleteFile(r.phone, p).0.File(p) == Some(src)
    {
      PassFinishes(files, p, src, chunkSize, remembered, fates);
    }
  }

  const TWO_ONES: Data := [1, 1]

  /** The source is finished on the phone and its first chunk remembered: when the requests for the
      second are lost its length confirms it, and nothing is wrong. But when the second is sent and
      the first is not, completing puts a zero in its place. */
  lemma RepeatLoses(files: map<Path, Data>, p: Path)
    requires p in files && files[p] == TWO_ONES && TempName(p) !in files && AllTaken(p, TWO_ONES, 1)
    ensures ChunkCountForSize(2, 1) == Count(2, 1) && !RepeatSafe(files, p, TWO_ONES, 1, {0})
  {
    assert Fine(TWO_ONES, 1, None, 0) ==> ByteOf(None, 0) == TWO_ONES[0] by {
      assert ChunkAt(0, 2, 1, 0).offset <= 0 < EndOf(TWO_ONES, 1, 0);
    }
    RepeatSafeIff(files, p, TWO_ONES, 1, {0});
  }

  // ----- whole histories of one file -----

  /** The source is there already, in one chunk, and there is no temporary file. */
  ghost predicate OneThere(found: Found, src: Data, chunkSize: nat) {
    found == Found(Some(src), None) && Count(|src|, chunkSize) == 1
  }

  ghost predicate Sound(found: Found, src: Data, chunkSize: nat, recorded: set<nat>) {
    SentOver(found, src, chunkSize, recorded) || OneThere(found, src, chunkSize)
  }

  lemma LessIsSound(found: Found, src: Data, chunkSize: nat, recorded: set<nat>, remembered: set<nat>)
    requires Sound(found, src, chunkSize, recorded) && remembered <= recorded
    ensures Sound(found, src, chunkSize, remembered)
  {
    hide CoveredUp, Fine, Count;
  }

  /** A chunk that may stay unsent next time was come to this time, or might have stayed unsent. */
  lemma UnsentLater(found: Found, src: Data, chunkSize: nat, completed: set<nat>, w: set<nat>, m: nat,
                    recorded: set<nat>, k: nat)
    requires src != [] && k < Count(|src|, chunkSize) && m <= Count(|src|, chunkSize)
    requires forall i :: i in recorded ==> i in completed || i < m
    requires var t := Painted(src, chunkSize, found.temp, w, m);
             Unsent(Found(found.final, t), src, chunkSize, recorded, k)
    ensures k < m || Unsent(found, src, chunkSize, completed, k)
  {
    hide Painted, UpTo, ChunkAt;
    PaintedLength(src, chunkSize, found.temp, w, m);
    if m <= k { UpToBefore(src, chunkSize, m, k); }
  }

  lemma {:induction false} UpToBefore(src: Data, chunkSize: nat, m: nat, k: nat)
    requires src != [] && m <= k < Count(|src|, chunkSize)
    ensures UpTo(|src|, chunkSize, m) < EndOf(src, chunkSize, k)
  {
    hide Count, UpTo, ChunkAt;
    PaintedNext(src, chunkSize, None, {}, k);
    NonEmptyChunk(src, chunkSize, k);
    if m < k {
      UpToBefore(src, chunkSize, m, k - 1);
      PaintedNext(src, chunkSize, None, {}, k - 1);
    }
  }

  /** A pass, however it ends, leaves a phone on which the next one is as safe. */
  lemma PaintedSentOver(found: Found, src: Data, chunkSize: nat, completed: set<nat>, w: set<nat>, m: nat,
                        recorded: set<nat>)
    requires m <= Count(|src|, chunkSize) && Fitting(found, src, chunkSize, completed, w, 0, m)
    requires SentOver(found, src, chunkSize, completed) && forall i :: i in recorded ==> i in completed || i < m
    ensures SentOver(Found(found.final, Painted(src, chunkSize, found.temp, w, m)), src, chunkSize, recorded)
  {
    hide Painted, UpTo, ChunkAt, Fine, CoveredUp, Count;
    var n, t := Count(|src|, chunkSize), Painted(src, chunkSize, found.temp, w, m);
    var found1 := Found(found.final, t);
    PaintedLength(src, chunkSize, found.temp, w, m);
    UpToAll(src, chunkSize, m);
    forall k: nat | k < n && Unsent(found1, src, chunkSize, recorded, k) ensures Fine(src, chunkSize, t, k) {
      if src == [] {
        EmptyFine(chunkSize, t, k);
      } else {
        UnsentLater(found, src, chunkSize, completed, w, m, recorded, k);
        PaintedFineIff(src, chunkSize, found.temp, w, m, k);
        if k < m && k !in w { assert Unsent(found, src, chunkSize, completed, k); }
      }
    }
    if src != [] && Unsent(found1, src, chunkSize, recorded, n - 1) {
      UnsentLater(found, src, chunkSize, completed, w, m, recorded, n - 1);
      if n - 1 < m && n - 1 !in w { assert Unsent(found, src, chunkSize, completed, n - 1); }
    }
  }

  lemma UpToAll(src: Data, chunkSize: nat, m: nat)
    requires m <= Count(|src|, chunkSize)
    ensures UpTo(|src|, chunkSize, m) <= |src|
    ensures m == Count(|src|, chunkSize) ==> UpTo(|src|, chunkSize, m) == |src|
  {
    LastEnd(|src|, chunkSize);
  }

  /** In a file of one chunk that is there already, what is written is all of it. */
  lemma PaintedOneThere(found: Found, src: Data, chunkSize: nat, w: set<nat>, m: nat, recorded: set<nat>)
    requires m <= Count(|src|, chunkSize) && OneThere(found, src, chunkSize)
    ensures Sound(Found(found.final, Painted(src, chunkSize, found.temp, w, m)), src, chunkSize, recorded)
  {
    hide Painted, ChunkAt, CoveredUp, Fine;
    var t := Painted(src, chunkSize, None, w, m);
    PaintedStart(src, chunkSize, None, w);
    if m == 1 && 0 in w {
      if src == [] {
        PaintedLength(src, chunkSize, None, w, 1);
        LastEnd(0, chunkSize);
        EmptyFine(chunkSize, t, 0);
      } else {
        PaintedIsSourceIff(src, chunkSize, None, w);
        SameFileIff(src, chunkSize, t);
      }
    } else if m == 1 {
      PaintedNext(src, chunkSize, None, w, 0);
    }
  }

  lemma AttemptSound(files: map<Path, Data>, recorded: set<nat>, p: Path, src: Data, chunkSize: nat, t: Try)
    requires ChunkCountForSize(|src|, chunkSize) == Count(|src|, chunkSize) && TryOk(t)
    requires Sound(FoundAt(files, p), src, chunkSize, recorded) && t.remembered <= recorded
    ensures var r := Attempt(files, p, src, chunkSize, t); Sound(FoundAt(r.phone.files, p), src, chunkSize, r.recorded)
  {
    hide PushFrom, Painted, Fitting, ChunkCountForSize, Sound, Count;
    var found, done := FoundAt(files, p), t.remembered;
    LessIsSound(found, src, chunkSize, recorded, done);
    BeginAt(files, p, src, chunkSize);
    var v, m := PassPaints(Begin(files, p, |src|), p, src, chunkSize, found, {}, done, done, t.fates, 0);
    var r := Attempt(files, p, src, chunkSize, t);
    assert FoundAt(r.phone.files, p) == Found(found.final, Painted(src, chunkSize, found.temp, v, m));
    SoundAfter(found, src, chunkSize, done, v, m, r.recorded);
  }

  lemma SoundAfter(found: Found, src: Data, chunkSize: nat, completed: set<nat>, w: set<nat>, m: nat,
                   recorded: set<nat>)
    requires m <= Count(|src|, chunkSize) && Fitting(found, src, chunkSize, completed, w, 0, m)
    requires Sound(found, src, chunkSize, completed) && forall i :: i in recorded ==> i in completed || i < m
    ensures Sound(Found(found.final, Painted(src, chunkSize, found.temp, w, m)), src, chunkSize, recorded)
  {
    hide Painted, Fitting, SentOver, OneThere, Count;
    if SentOver(found, src, chunkSize, completed) {
      PaintedSentOver(found, src, chunkSize, completed, w, m, recorded);
    } else {
      PaintedOneThere(found, src, chunkSize, w, m, recorded);
    }
  }

  lemma {:induction false} HistorySound(files: map<Path, Data>, recorded: set<nat>, p: Path, src: Data, chunkSize: nat,
                                        tries: seq<Try>)
    requires ChunkCountForSize(|src|, chunkSize) == Count(|src|, chunkSize) && TriesOk(tries)
    requires Sound(FoundAt(files, p), src, chunkSize, recorded) && Possible(files, recorded, p, src, chunkSize, tries)
    ensures var (files1, recorded1) := History(files, recorded, p, src, chunkSize, tries);
            Sound(FoundAt(files1, p), src, chunkSize, recorded1)
    decreases tries
  {
    hide Sound, Attempt, FoundAt, ChunkCountForSize, Count;
    if tries != [] {
      AttemptSound(files, recorded, p, src, chunkSize, tries[0]);
      var r := Attempt(files, p, src, chunkSize, tries[0]);
      HistorySound(r.phone.files, r.recorded, p, src, chunkSize, tries[1..]);
    }
  }

  /** However many attempts were interrupted by lost requests, lost answers, pauses or crashes, the
      first that gets through the loop and is completed leaves the source. */
  ghost predicate Arrives(files: map<Path, Data>, p: Path, src: Data, chunkSize: nat)
    requires ChunkCountForSize(|src|, chunkSize) == Count(|src|, chunkSize)
  {
    forall tries, last | TriesOk(tries) && TryOk(last) && Possible(files, {}, p, src, chunkSize, tries) ::
      var (files1, recorded1) := History(files, {}, p, src, chunkSize, tries);
      last.remembered <= recorded1 ==>
        var r := Attempt(files1, p, src, chunkSize, last);
        r.ok ==> CompleteFile(r.phone, p).0.File(p) == Some(src)
  }

  /** A whole file. It always arrives exactly when, of the files an earlier transfer left on the
      phone, the temporary one is no longer than the source and right wherever their length would
      confirm a chunk, or the finished one is the source already, in one chunk. With neither file
      there it always arrives. */
  lemma FileArrivesIff(files: map<Path, Data>, p: Path, src: Data, chunkSize: nat)
    requires ChunkCountForSize(|src|, chunkSize) == Count(|src|, chunkSize) && AllTaken(p, src, chunkSize)
    ensures Arrives(files, p, src, chunkSize) <==>
      SentOver(FoundAt(files, p), src, chunkSize, {}) || OneThere(FoundAt(files, p), src, chunkSize)
    ensures p !in files && TempName(p) !in files ==> Arrives(files, p, src, chunkSize)
  {
    hide Arrives, AllTaken, ChunkCountForSize, Count, FoundAt, SentOver, LeftAlone, RepeatSafe;
    var found := FoundAt(files, p);
    if Sound(found, src, chunkSize, {}) { SoundArrives(files, p, src, chunkSize); }
    if Arrives(files, p, src, chunkSize) {
      FirstAttempt(files, p, src, chunkSize);
      RepeatSafeIff(files, p, src, chunkSize, {});
      if LeftAlone(found, src, chunkSize, {}) { LeftIsOne(found, src, chunkSize); }
    }
    if p !in files && TempName(p) !in files { NothingThere(files, p, src, chunkSize); }
  }

  lemma NothingThere(files: map<Path, Data>, p: Path, src: Data, chunkSize: nat)
    requires p !in files && TempName(p) !in files
    ensures SentOver(FoundAt(files, p), src, chunkSize, {})
  { }

  lemma LeftIsOne(found: Found, src: Data, chunkSize: nat)
    requires LeftAlone(found, src, chunkSize, {})
    ensures OneThere(found, src, chunkSize)
  {
    var last := Count(|src|, chunkSize) - 1;
    var none: set<nat>, first: nat := {}, 0;
    assert last > 0 ==> first in none;
  }

  lemma OneIsLeft(found: Found, src: Data, chunkSize: nat, remembered: set<nat>)
    requires OneThere(found, src, chunkSize)
    ensures LeftAlone(found, src, chunkSize, remembered)
  { }

  lemma FirstAttempt(files: map<Path, Data>, p: Path, src: Data, chunkSize: nat)
    requires ChunkCountForSize(|src|, chunkSize) == Count(|src|, chunkSize) && Arrives(files, p, src, chunkSize)
    ensures RepeatSafe(files, p, src, chunkSize, {})
  {
    hide Attempt, CompleteFile, ChunkCountForSize, Count;
    assert TriesOk([]) && Possible(files, {}, p, src, chunkSize, []);
    assert History(files, {}, p, src, chunkSize, []) == (files, {});
    forall fates | FatesOk(fates)
      ensures var r := Attempt(files, p, src, chunkSize, Try({}, fates));
              r.ok ==> CompleteFile(r.phone, p).0.File(p) == Some(src)
    {
      assert TryOk(Try({}, fates));
    }
  }

  lemma SoundArrives(files: map<Path, Data>, p: Path, src: Data, chunkSize: nat)
    requires ChunkCountForSize(|src|, chunkSize) == Count(|src|, chunkSize)
    requires Sound(FoundAt(files, p), src, chunkSize, {})
    ensures Arrives(files, p, src, chunkSize)
  {
    hide Attempt, CompleteFile, ChunkCountForSize, Count, FoundAt, Sound, History, Possible;
    forall tries, last | TriesOk(tries) && TryOk(last) && Possible(files, {}, p, src, chunkSize, tries)
      ensures var (files1, recorded1) := History(files, {}, p, src, chunkSize, tries);
              last.remembered <= recorded1 ==>
                var r := Attempt(files1, p, src, chunkSize, last);
                r.ok ==> CompleteFile(r.phone, p).0.File(p) == Some(src)
    {
      HistorySound(files, {}, p, src, chunkSize, tries);
      var (files1, recorded1) := History(files, {}, p, src, chunkSize, tries);
      if last.remembered <= recorded1 {
        LessIsSound(FoundAt(files1, p), src, chunkSize, recorded1, last.remembered);
        SoundIsSafe(files1, p, src, chunkSize, last.remembered);
        assert last == Try(last.remembered, last.fates) && FatesOk(last.fates);
      }
    }
  }

  lemma SoundIsSafe(files: map<Path, Data>, p: Path, src: Data, chunkSize: nat, remembered: set<nat>)
    requires ChunkCountForSize(|src|, chunkSize) == Count(|src|, chunkSize)
    requires Sound(FoundAt(files, p), src, chunkSize, remembered)
    ensures RepeatSafe(files, p, src, chunkSize, remembered)
  {
    hide ChunkCountForSize, Count, SentOver, OneThere, LeftAlone, RepeatSafe, FoundAt;
    if OneThere(FoundAt(files, p), src, chunkSize) { OneIsLeft(FoundAt(files, p), src, chunkSize, remembered); }
    SafeWhen(files, p, src, chunkSize, remembered);
  }
}
