/** Batch frames: the desktop's big-endian framing and the phone's reader, which writes each
    payload into the temporary file as it arrives, in pieces of any size. */
module Frames {
  import opened Wrappers
  import opened Bytes
  import opened Models

  // ----- big-endian numbers -----

  function Power(k: nat): (p: nat)
    ensures p > 0
  {
    if k == 0 then 1 else 256 * Power(k - 1)
  }

  /** The last `k` bytes of a number. */
  function BigEndian(n: nat, k: nat): (d: Data)
    ensures |d| == k
  {
    if k == 0 then [] else BigEndian(n / 256, k - 1) + [n % 256]
  }

  function Number(d: Data): nat {
    if d == [] then 0 else 256 * Number(d[..|d| - 1]) + d[|d| - 1]
  }

  lemma {:induction false} NumberBack(n: nat, k: nat)
    requires n < Power(k)
    ensures Number(BigEndian(n, k)) == n
  {
    if k > 0 {
      NumberBack(n / 256, k - 1);
      assert BigEndian(n, k)[..k - 1] == BigEndian(n / 256, k - 1);
    }
  }

  const INT32_BOUND := 0x8000_0000
  const INT64_BOUND := 0x8000_0000_0000_0000

  /** The phone reads every number as a signed one. */
  function Signed(n: nat, bound: nat): int { if n < bound then n else n - 2 * bound }

  lemma Powers()
    ensures Power(4) == TWO_TO_32 == 2 * INT32_BOUND && Power(8) == TWO_TO_64 == 2 * INT64_BOUND
  {
    assert Power(2) == 65536;
    assert Power(4) == 65536 * 65536;
    assert Power(6) == 65536 * Power(4);
    assert Power(8) == 65536 * Power(6);
  }

  /** Four bytes are read as the number written exactly when it is below 2^31, and as a negative
      one otherwise; likewise eight bytes and 2^63. */
  lemma SignedBack(n: nat)
    ensures n < TWO_TO_32 ==>
      Signed(Number(BigEndian(n, 4)), INT32_BOUND) == if n < INT32_BOUND then n else n - TWO_TO_32
    ensures n < TWO_TO_64 ==>
      Signed(Number(BigEndian(n, 8)), INT64_BOUND) == if n < INT64_BOUND then n else n - TWO_TO_64
  {
    Powers();
    if n < TWO_TO_32 { NumberBack(n, 4); }
    if n < TWO_TO_64 { NumberBack(n, 8); }
    hide Power, Number, BigEndian;
  }

  // ----- the desktop's side -----

  datatype Frame = Frame(chunkIndex: U32Int, offset: U64, payload: Data)

  function Header(f: Frame): (h: Data)
    requires |f.payload| < TWO_TO_32
    ensures |h| == 16
  {
    BigEndian(f.chunkIndex, 4) + BigEndian(f.offset, 8) + BigEndian(|f.payload|, 4)
  }

  lemma LastByte(n: nat, k: nat)
    ensures BigEndian(n, k + 1) == BigEndian(n / 256, k) + [n % 256] && BigEndian(n, 0) == []
  { }

  lemma {:induction false} AllZeros(k: nat)
    ensures BigEndian(0, k) == Zeros(k)
  {
    if k > 0 { AllZeros(k - 1); }
  }

  /** The index in four bytes, the offset in eight and the length in four, most significant first. */
  lemma HeaderIs()
    ensures Header(Frame(0x01020304, 0x05060708, [7, 7])) == [1, 2, 3, 4, 0, 0, 0, 0, 5, 6, 7, 8, 0, 0, 0, 2]
  {
    hide BigEndian;
    LastByte(0x01020304, 3);
    LastByte(0x010203, 2);
    LastByte(0x0102, 1);
    LastByte(1, 0);
    LastByte(0x05060708, 7);
    LastByte(0x050607, 6);
    LastByte(0x0506, 5);
    LastByte(5, 4);
    LastByte(2, 3);
    AllZeros(0);
    AllZeros(3);
    AllZeros(4);
  }

  predicate Sendable(frames: seq<Frame>) { forall k :: 0 <= k < |frames| ==> |frames[k].payload| < TWO_TO_32 }

  function Encoded(frames: seq<Frame>): Data
    requires Sendable(frames)
  {
    if frames == [] then [] else Header(frames[0]) + frames[0].payload + Encoded(frames[1..])
  }

  lemma {:induction false} EncodedAppend(a: seq<Frame>, f: Frame)
    requires Sendable(a) && |f.payload| < TWO_TO_32
    ensures Encoded(a + [f]) == Encoded(a) + (Header(f) + f.payload)
  {
    if a == [] {
      assert [f][1..] == [];
      assert Header(f) + f.payload + [] == [] + (Header(f) + f.payload);
    } else {
      EncodedAppend(a[1..], f);
      assert (a + [f])[1..] == a[1..] + [f];
      Regroup(Header(a[0]) + a[0].payload, Encoded(a[1..]), Header(f) + f.payload);
    }
  }

  lemma Regroup(x: Data, y: Data, z: Data)
    ensures x + (y + z) == (x + y) + z
  { }

  /** The stream ends before the length of frame `i`, whose payload is too long. */
  predicate CutBefore(sent: Data, frames: seq<Frame>, i: nat)
    requires i < |frames|
  {
    && Sendable(frames[..i]) && |frames[i].payload| >= TWO_TO_32
    && sent == Encoded(frames[..i]) + (BigEndian(frames[i].chunkIndex, 4) + BigEndian(frames[i].offset, 8))
  }

  /** A payload of 2^32 bytes or more is only noticed after its index and offset went out. */
  method SendFrames(frames: seq<Frame>) returns (ok: bool, sent: Data)
    ensures ok == Sendable(frames)
    ensures ok ==> sent == Encoded(frames)
    ensures !ok ==> exists i :: 0 <= i < |frames| && CutBefore(sent, frames, i)
  {
    sent := [];
    for i := 0 to |frames|
      invariant Sendable(frames[..i]) && sent == Encoded(frames[..i])
    {
      var f := frames[i];
      assert frames[..i + 1] == frames[..i] + [f];
      ghost var before := sent;
      sent := sent + BigEndian(f.chunkIndex, 4);
      sent := sent + BigEndian(f.offset, 8);
      if |f.payload| >= TWO_TO_32 {
        Regroup(before, BigEndian(f.chunkIndex, 4), BigEndian(f.offset, 8));
        assert CutBefore(sent, frames, i);
        return false, sent;
      }
      sent := sent + BigEndian(|f.payload|, 4);
      assert sent == before + Header(f);
      sent := sent + f.payload;
      Regroup(before, Header(f), f.payload);
      EncodedAppend(frames[..i], f);
    }
    assert frames[..|frames|] == frames;
    ok := true;
  }

  // ----- the phone's side -----

  /** What the phone has after some frames: the file, the acknowledged chunks and the bytes it has
      not read; `ok` is false from the first frame it could not take. */
  datatype Intake = Intake(file: Data, acked: set<nat>, rest: Data, ok: bool)

  function TakeFrame(s: Intake): Intake {
    if |s.rest| < 16 then s.(ok := false, rest := [])
    else
      var chunkIndex := Signed(Number(s.rest[..4]), INT32_BOUND);
      var offset := Signed(Number(s.rest[4..12]), INT64_BOUND);
      var length := Signed(Number(s.rest[12..16]), INT32_BOUND);
      var body := s.rest[16..];
      if chunkIndex < 0 || offset < 0 || length < 0 then s.(ok := false, rest := body)
      else if |body| < length then Intake(WriteAt(s.file, offset, body), s.acked, [], false)
      else Intake(WriteAt(s.file, offset, body[..length]), s.acked + {chunkIndex}, body[length..], true)
  }

  function TakeFrames(s: Intake, count: nat): Intake
    decreases count
  {
    if count == 0 || !s.ok then s else TakeFrames(TakeFrame(s), count - 1)
  }

  function WriteFrames(file: Data, frames: seq<Frame>): Data
    decreases frames
  {
    if frames == [] then file else WriteFrames(WriteAt(file, frames[0].offset, frames[0].payload), frames[1..])
  }

  predicate InRange(f: Frame) {
    f.chunkIndex < INT32_BOUND && f.offset < INT64_BOUND && |f.payload| < INT32_BOUND
  }

  function IndicesOf(frames: seq<Frame>): set<nat> { set k | 0 <= k < |frames| :: frames[k].chunkIndex }

  lemma HeaderParts(f: Frame, rest: Data)
    requires |f.payload| < TWO_TO_32
    ensures var d := Header(f) + f.payload + rest;
            && d[..4] == BigEndian(f.chunkIndex, 4) && d[4..12] == BigEndian(f.offset, 8)
            && d[12..16] == BigEndian(|f.payload|, 4) && d[16..] == f.payload + rest
  { }

  /** One frame in range is taken whole; one out of range is refused. */
  lemma TakesFrame(file: Data, acked: set<nat>, f: Frame, rest: Data)
    requires |f.payload| < TWO_TO_32
    ensures var s := TakeFrame(Intake(file, acked, Header(f) + f.payload + rest, true));
            if InRange(f)
            then s == Intake(WriteAt(file, f.offset, f.payload), acked + {f.chunkIndex}, rest, true)
            else !s.ok && s.file == file && s.acked == acked
  {
    hide Header, BigEndian, Number, Signed, WriteAt;
    HeaderParts(f, rest);
    SignedBack(f.chunkIndex);
    SignedBack(f.offset);
    SignedBack(|f.payload|);
    assert (f.payload + rest)[..|f.payload|] == f.payload && (f.payload + rest)[|f.payload|..] == rest;
  }

  /** Framing round trip. The phone reads back exactly the frames sent, leaves what follows them
      unread, acknowledges their chunks, and its file is the writes in order; and it takes the
      whole batch exactly when every frame is in the range of its signed types. */
  lemma {:induction false} BatchRoundTrip(file: Data, acked: set<nat>, frames: seq<Frame>, rest: Data)
    requires Sendable(frames)
    ensures var s := TakeFrames(Intake(file, acked, Encoded(frames) + rest, true), |frames|);
            && (s.ok <==> forall k :: 0 <= k < |frames| ==> InRange(frames[k]))
            && (s.ok ==> s == Intake(WriteFrames(file, frames), acked + IndicesOf(frames), rest, true))
    decreases frames
  {
    hide TakeFrame, Header, WriteAt, InRange;
    if frames == [] {
      assert Encoded(frames) + rest == rest;
      assert acked + IndicesOf([]) == acked;
    } else {
      var f := frames[0];
      Regroup(Header(f) + f.payload, Encoded(frames[1..]), rest);
      TakesFrame(file, acked, f, Encoded(frames[1..]) + rest);
      if InRange(f) {
        BatchRoundTrip(WriteAt(file, f.offset, f.payload), acked + {f.chunkIndex}, frames[1..], rest);
        TailInRange(frames);
        TailIndices(frames);
        assert acked + {f.chunkIndex} + IndicesOf(frames[1..]) == acked + IndicesOf(frames);
      }
    }
  }

  lemma TailInRange(frames: seq<Frame>)
    requires frames != [] && InRange(frames[0])
    ensures (forall k :: 0 <= k < |frames| ==> InRange(frames[k]))
       <==> (forall k :: 0 <= k < |frames[1..]| ==> InRange(frames[1..][k]))
  {
    if forall k :: 0 <= k < |frames[1..]| ==> InRange(frames[1..][k]) {
      forall k | 0 <= k < |frames| ensures InRange(frames[k]) { if k > 0 { assert frames[k] == frames[1..][k - 1]; } }
    }
  }

  lemma TailIndices(frames: seq<Frame>)
    requires frames != []
    ensures IndicesOf(frames) == {frames[0].chunkIndex} + IndicesOf(frames[1..])
  {
    forall i ensures i in IndicesOf(frames) <==> i == frames[0].chunkIndex || i in IndicesOf(frames[1..]) {
      if i in IndicesOf(frames) && i != frames[0].chunkIndex {
        var k: nat :| 0 <= k < |frames| && frames[k].chunkIndex == i;
        assert frames[1..][k - 1] == frames[k];
      }
      if i in IndicesOf(frames[1..]) {
        var k: nat :| 0 <= k < |frames[1..]| && frames[1..][k].chunkIndex == i;
        assert frames[k + 1] == frames[1..][k];
      }
    }
  }

  // ----- a stream that breaks off -----

  /** The first `j` frames are in the file, and the first `k` bytes of the next one. */
  ghost predicate PartWritten(before: Data, after: Data, frames: seq<Frame>, j: nat, k: nat) {
    && j <= |frames|
    && if j == |frames| then after == WriteFrames(before, frames)
       else
         && k <= |frames[j].payload|
         && after == WriteAt(WriteFrames(before, frames[..j]), frames[j].offset, frames[j].payload[..k])
  }

  lemma TakesPart(file: Data, acked: set<nat>, f: Frame, rest: Data, n: nat)
    requires InRange(f) && n < 16 + |f.payload|
    ensures var s := TakeFrame(Intake(file, acked, (Header(f) + f.payload + rest)[..n], true));
            && !s.ok && s.acked == acked
            && s.file == WriteAt(file, f.offset, f.payload[..if n < 16 then 0 else n - 16])
  {
    var whole := Header(f) + f.payload + rest;
    if n >= 16 {
      HeaderParts(f, rest);
      SignedBack(f.chunkIndex);
      SignedBack(f.offset);
      SignedBack(|f.payload|);
      CutSlices(whole, n);
      CutPayload(f, rest, n);
    }
    hide Header, BigEndian, Number, Signed;
  }

  lemma CutSlices(whole: Data, n: nat)
    requires 16 <= n <= |whole|
    ensures var cut := whole[..n];
            cut[..4] == whole[..4] && cut[4..12] == whole[4..12] && cut[12..16] == whole[12..16]
  { }

  lemma CutPayload(f: Frame, rest: Data, n: nat)
    requires |f.payload| < TWO_TO_32 && 16 <= n < 16 + |f.payload|
    ensures (Header(f) + f.payload + rest)[..n][16..] == f.payload[..n - 16]
  {
    hide Header;
  }

  predicate AllInRange(frames: seq<Frame>) { forall k :: 0 <= k < |frames| ==> InRange(frames[k]) }

  /** Whole frames up to some place, then part of one; only whole frames are acknowledged. */
  ghost predicate Broken(file: Data, acked: set<nat>, frames: seq<Frame>, s: Intake) {
    exists j: nat, k: nat ::
      && PartWritten(file, s.file, frames, j, k)
      && s.acked == acked + IndicesOf(frames[..j]) && (s.ok <==> j == |frames|)
  }

  lemma BrokenAt(file: Data, acked: set<nat>, frames: seq<Frame>, s: Intake, j: nat, k: nat)
    requires PartWritten(file, s.file, frames, j, k)
    requires s.acked == acked + IndicesOf(frames[..j]) && (s.ok <==> j == |frames|)
    ensures Broken(file, acked, frames, s)
  { }

  /** The first frame breaks off. */
  lemma BreaksNow(file: Data, acked: set<nat>, frames: seq<Frame>, n: nat)
    requires Sendable(frames) && AllInRange(frames) && frames != [] && n < 16 + |frames[0].payload|
    ensures Broken(file, acked, frames, TakeFrame(Intake(file, acked, Encoded(frames)[..n], true)))
    ensures !TakeFrame(Intake(file, acked, Encoded(frames)[..n], true)).ok
  {
    var s := TakeFrame(Intake(file, acked, Encoded(frames)[..n], true));
    TakesPart(file, acked, frames[0], Encoded(frames[1..]), n);
    hide TakeFrame, Header, WriteAt;
    assert frames[..0] == [];
    assert acked + IndicesOf([]) == acked;
    BrokenAt(file, acked, frames, s, 0, if n < 16 then 0 else n - 16);
  }

  lemma BreaksLaterAt(file: Data, acked: set<nat>, frames: seq<Frame>, s: Intake, j: nat, k: nat)
    requires frames != []
    requires PartWritten(WriteAt(file, frames[0].offset, frames[0].payload), s.file, frames[1..], j, k)
    requires s.acked == acked + {frames[0].chunkIndex} + IndicesOf(frames[1..][..j]) && (s.ok <==> j == |frames[1..]|)
    ensures Broken(file, acked, frames, s)
  {
    LaterPart(file, s.file, frames, j, k);
    assert frames[..j + 1][1..] == frames[1..][..j];
    TailIndices(frames[..j + 1]);
    hide PartWritten, IndicesOf, WriteAt, Broken;
    BrokenAt(file, acked, frames, s, j + 1, k);
  }

  lemma BreaksLater(file: Data, acked: set<nat>, frames: seq<Frame>, s: Intake)
    requires frames != []
    requires Broken(WriteAt(file, frames[0].offset, frames[0].payload), acked + {frames[0].chunkIndex}, frames[1..], s)
    ensures Broken(file, acked, frames, s)
  {
    hide IndicesOf, WriteAt;
    var j: nat, k: nat :|
      && PartWritten(WriteAt(file, frames[0].offset, frames[0].payload), s.file, frames[1..], j, k)
      && s.acked == acked + {frames[0].chunkIndex} + IndicesOf(frames[1..][..j]) && (s.ok <==> j == |frames[1..]|);
    BreaksLaterAt(file, acked, frames, s, j, k);
  }

  lemma FirstTaken(file: Data, acked: set<nat>, frames: seq<Frame>, n: nat)
    requires Sendable(frames) && AllInRange(frames) && frames != []
    requires 16 + |frames[0].payload| <= n <= |Encoded(frames)|
    ensures var f, m := frames[0], n - 16 - |frames[0].payload|;
            && |Encoded(frames)| == n - m + |Encoded(frames[1..])|
            && TakeFrame(Intake(file, acked, Encoded(frames)[..n], true))
                 == Intake(WriteAt(file, f.offset, f.payload), acked + {f.chunkIndex}, Encoded(frames[1..])[..m], true)
  {
    var f, m := frames[0], n - 16 - |frames[0].payload|;
    assert Encoded(frames)[..n] == Header(f) + f.payload + Encoded(frames[1..])[..m];
    TakesFrame(file, acked, f, Encoded(frames[1..])[..m]);
    hide TakeFrame, WriteAt, Header;
  }

  lemma NothingBreaks(file: Data, acked: set<nat>, rest: Data)
    ensures Broken(file, acked, [], Intake(file, acked, rest, true))
  {
    assert acked + IndicesOf([]) == acked;
    BrokenAt(file, acked, [], Intake(file, acked, rest, true), 0, 0);
  }

  lemma TakeFramesTurn(s: Intake, count: nat)
    ensures TakeFrames(s, count) == if count == 0 || !s.ok then s else TakeFrames(TakeFrame(s), count - 1)
  {
    hide TakeFrame;
  }

  /** However far the stream got, the file holds the whole frames that arrived, in order, then at
      most a first part of the next payload at its own offset; only whole frames are acknowledged. */
  lemma {:induction false} BrokenStream(file: Data, acked: set<nat>, frames: seq<Frame>, n: nat)
    requires Sendable(frames) && AllInRange(frames) && n <= |Encoded(frames)|
    ensures Broken(file, acked, frames, TakeFrames(Intake(file, acked, Encoded(frames)[..n], true), |frames|))
    decreases frames
  {
    hide Broken, TakeFrame, TakeFrames, WriteAt, Header, Encoded, IndicesOf, InRange;
    var start := Intake(file, acked, Encoded(frames)[..n], true);
    TakeFramesTurn(start, |frames|);
    if frames == [] {
      NothingBreaks(file, acked, Encoded(frames)[..n]);
    } else if n < 16 + |frames[0].payload| {
      BreaksNow(file, acked, frames, n);
      TakeFramesTurn(TakeFrame(start), |frames| - 1);
    } else {
      var f, m := frames[0], n - 16 - |frames[0].payload|;
      FirstTaken(file, acked, frames, n);
      BrokenStream(WriteAt(file, f.offset, f.payload), acked + {f.chunkIndex}, frames[1..], m);
      BreaksLater(file, acked, frames, TakeFrames(start, |frames|));
    }
  }

  /** The stream ends inside a frame's header: the phone gives up without an answer. */
  predicate GivesUp(s: Intake, count: nat)
    decreases count
  {
    count > 0 && s.ok && (|s.rest| < 16 || GivesUp(TakeFrame(s), count - 1))
  }

  /** The stream breaks off in the header of frame `j`. */
  predicate InHeader(frames: seq<Frame>, n: nat, j: nat)
    requires Sendable(frames) && j < |frames|
  {
    |Encoded(frames[..j])| <= n < |Encoded(frames[..j])| + 16
  }

  ghost predicate EndsInHeader(frames: seq<Frame>, n: nat)
    requires Sendable(frames)
  {
    exists j: nat :: j < |frames| && InHeader(frames, n, j)
  }

  lemma EncodedFirst(frames: seq<Frame>, j: nat)
    requires Sendable(frames) && j < |frames|
    ensures |Encoded(frames[..j + 1])| == 16 + |frames[0].payload| + |Encoded(frames[1..][..j])|
  {
    assert frames[..j + 1][1..] == frames[1..][..j];
  }

  lemma HeaderLater(frames: seq<Frame>, n: nat)
    requires Sendable(frames) && frames != [] && n >= 16
    ensures var whole := 16 + |frames[0].payload|;
            EndsInHeader(frames, n) <==> n >= whole && EndsInHeader(frames[1..], n - whole)
  {
    hide Encoded;
    assert Encoded(frames[..0]) == [] by { NothingEncoded(frames); }
    var rest, whole := frames[1..], 16 + |frames[0].payload|;
    if EndsInHeader(frames, n) {
      var j: nat :| j < |frames| && InHeader(frames, n, j);
      if j > 0 {
        EncodedFirst(frames, j - 1);
        assert InHeader(rest, n - whole, j - 1);
      }
    }
    if n >= whole && EndsInHeader(rest, n - whole) {
      var m: nat := n - whole;
      var j: nat :| j < |rest| && InHeader(rest, m, j);
      EncodedFirst(frames, j);
      assert InHeader(frames, n, j + 1);
    }
  }

  lemma NothingEncoded(frames: seq<Frame>)
    ensures Encoded(frames[..0]) == []
  { }

  lemma FirstHeader(frames: seq<Frame>, n: nat)
    requires Sendable(frames) && frames != [] && n < 16
    ensures EndsInHeader(frames, n)
  {
    NothingEncoded(frames);
    assert InHeader(frames, n, 0);
  }

  /** The phone gives up without an answer exactly when the stream breaks off in a header. */
  lemma {:induction false} GivesUpIff(file: Data, acked: set<nat>, frames: seq<Frame>, n: nat)
    requires Sendable(frames) && AllInRange(frames) && n < |Encoded(frames)|
    ensures GivesUp(Intake(file, acked, Encoded(frames)[..n], true), |frames|) <==> EndsInHeader(frames, n)
    decreases frames
  {
    assert frames != [];
    hide InHeader, EndsInHeader, TakeFrame, WriteAt, Header, InRange, Broken, Encoded;
    var f := frames[0];
    if n < 16 {
      FirstHeader(frames, n);
    } else {
      HeaderLater(frames, n);
      if n < 16 + |f.payload| {
        BreaksNow(file, acked, frames, n);
      } else {
        var m: nat := n - 16 - |f.payload|;
        FirstTaken(file, acked, frames, n);
        GivesUpIff(WriteAt(file, f.offset, f.payload), acked + {f.chunkIndex}, frames[1..], m);
      }
    }
  }

  lemma LaterPart(before: Data, after: Data, frames: seq<Frame>, j: nat, k: nat)
    requires frames != [] && PartWritten(WriteAt(before, frames[0].offset, frames[0].payload), after, frames[1..], j, k)
    ensures PartWritten(before, after, frames, j + 1, k)
  {
    assert frames[..j + 1][1..] == frames[1..][..j];
    hide WriteAt;
  }

  // ----- the reader itself -----

  class InputStream {
    var data: Data

    constructor (data: Data)
      ensures this.data == data
    {
      this.data := data;
    }

    /** At most `wanted` bytes, at least one unless the stream has ended. */
    method Read(wanted: nat) returns (piece: Data)
      requires wanted > 0
      modifies this
      ensures old(data) == piece + data && |piece| <= wanted
      ensures piece == [] <==> old(data) == []
    {
      if data == [] { return []; }
      var most := Min(wanted, |data|);
      var n :| 1 <= n <= most;
      piece := data[..n];
      data := data[n..];
    }

    /** None when the stream ends first. */
    method ReadExact(length: nat) returns (payload: Option<Data>)
      modifies this
      ensures payload == if |old(data)| < length then None else Some(old(data)[..length])
      ensures data == if |old(data)| < length then [] else old(data)[length..]
    {
      var got: Data := [];
      while |got| < length
        invariant |got| <= length && old(data) == got + data
        decreases length - |got|
      {
        var piece := Read(length - |got|);
        if piece == [] { return None; }
        got := got + piece;
      }
      payload := Some(got);
    }
  }

  class RandomAccessFile {
    var content: Data
    var position: nat

    constructor (content: Data)
      ensures this.content == content && position == 0
    {
      this.content := content;
      position := 0;
    }

    method Seek(offset: nat)
      modifies this`position
      ensures position == offset
    {
      position := offset;
    }

    method Write(piece: Data)
      modifies this
      ensures content == WriteAt(old(content), old(position), piece) && position == old(position) + |piece|
    {
      content := WriteAt(content, position, piece);
      position := position + |piece|;
    }
  }

  lemma WriteInPieces(file: Data, offset: nat, a: Data, b: Data)
    ensures WriteAt(WriteAt(file, offset, a), offset + |a|, b) == WriteAt(file, offset, a + b)
  {
    var l, r := WriteAt(WriteAt(file, offset, a), offset + |a|, b), WriteAt(file, offset, a + b);
    assert |l| == |r|;
    forall p | 0 <= p < |l| ensures l[p] == r[p] { }
  }

  lemma TakeSplit(whole: Data, a: Data, b: Data)
    requires whole == a + b
    ensures |a| <= |whole| && whole[..|a|] == a && whole[|a|..] == b
  { }

  const BUFFER_SIZE := 1024 * 1024

  /** Copy the next bytes of the stream into the file; false when the stream ends first, with
      what did arrive already written. */
  method CopyExact(input: InputStream, output: RandomAccessFile, length: nat) returns (ok: bool)
    modifies input, output
    ensures ok <==> |old(input.data)| >= length
    ensures var n := Min(|old(input.data)|, length);
      && output.content == WriteAt(old(output.content), old(output.position), old(input.data)[..n])
      && input.data == old(input.data)[n..]
  {
    hide WriteAt;
    var remaining: nat := length;
    ghost var got: Data := [];
    while remaining > 0
      invariant |got| + remaining == length && old(input.data) == got + input.data
      invariant output.content == WriteAt(old(output.content), old(output.position), got)
      invariant output.position == old(output.position) + |got|
    {
      var piece := input.Read(Min(BUFFER_SIZE, remaining));
      if piece == [] {
        TakeSplit(old(input.data), got, input.data);
        return false;
      }
      output.Write(piece);
      WriteInPieces(old(output.content), old(output.position), got, piece);
      Regroup(got, piece, input.data);
      got := got + piece;
      remaining := remaining - |piece|;
    }
    TakeSplit(old(input.data), got, input.data);
    ok := true;
  }

  /** One frame: header, seek, payload, acknowledgement. */
  method TakeNext(input: InputStream, output: RandomAccessFile, acked: set<nat>)
    returns (acked1: set<nat>, ok: bool, answered: bool)
    modifies input, output
    ensures answered <==> |old(input.data)| >= 16
    ensures Intake(output.content, acked1, input.data, ok)
         == TakeFrame(Intake(old(output.content), acked, old(input.data), true))
  {
    hide WriteAt, Number, Signed;
    acked1 := acked;
    ghost var whole := input.data;
    var a := input.ReadExact(4);
    if a.None? { return acked, false, false; }
    var b := input.ReadExact(8);
    if b.None? { return acked, false, false; }
    var c := input.ReadExact(4);
    if c.None? { return acked, false, false; }
    HeaderSlices(whole);
    var chunkIndex := Signed(Number(a.value), INT32_BOUND);
    var offset := Signed(Number(b.value), INT64_BOUND);
    var length := Signed(Number(c.value), INT32_BOUND);
    answered := true;
    if chunkIndex < 0 || offset < 0 || length < 0 { return acked, false, true; }
    output.Seek(offset);
    ok := CopyExact(input, output, length);
    if ok { acked1 := acked + {chunkIndex}; }
  }

  lemma HeaderSlices(whole: Data)
    requires |whole| >= 16
    ensures whole[4..][..8] == whole[4..12] && whole[4..][8..] == whole[12..]
    ensures whole[12..][..4] == whole[12..16] && whole[12..][4..] == whole[16..]
  { }

  /** The phone's handler of a batch. A stream that ends in a header is an exception to it, which
      closes the connection unanswered. */
  method PushBatch(input: InputStream, output: RandomAccessFile, acked: set<nat>, count: nat)
    returns (acked1: set<nat>, ok: bool, answered: bool)
    modifies input, output
    ensures var start := Intake(old(output.content), acked, old(input.data), true);
            && Intake(output.content, acked1, input.data, ok) == TakeFrames(start, count)
            && (answered <==> !GivesUp(start, count))
  {
    acked1, ok, answered := acked, true, true;
    ghost var start := Intake(output.content, acked, input.data, true);
    for i := 0 to count
      invariant ok && answered
      invariant GivesUp(start, count) <==> GivesUp(Intake(output.content, acked1, input.data, true), count - i)
      invariant TakeFrames(start, count) == TakeFrames(Intake(output.content, acked1, input.data, true), count - i)
    {
      hide TakeFrame;
      acked1, ok, answered := TakeNext(input, output, acked1);
      if !ok { return; }
    }
  }
}
