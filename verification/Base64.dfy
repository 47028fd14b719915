/** The two halves of the hand-written base64 (RFC 4648, section 4), on bytes: the text is its
    ASCII codes. Shifts on 8-bit values drop the bits that leave the byte. */
module Base64 {
  import opened Wrappers

  type Octets = seq<bv8>

  /** The alphabet's symbol for a 6-bit value. */
  function Symbol(v: bv8): bv8 {
    if v < 26 then v + 65
    else if v < 52 then v - 26 + 97
    else if v < 62 then v - 52 + 48
    else if v == 62 then 43
    else 47
  }

  const PAD: bv8 := 61

  function Triple(a: bv8, b: bv8, c: bv8): bv32 { ((a as bv32) << 16) | ((b as bv32) << 8) | (c as bv32) }

  function Sextet(t: bv32, k: nat): bv8
    requires k < 4
  {
    if k == 0 then ((t >> 18) & 0x3f) as bv8
    else if k == 1 then ((t >> 12) & 0x3f) as bv8
    else if k == 2 then ((t >> 6) & 0x3f) as bv8
    else (t & 0x3f) as bv8
  }

  /** The four symbols of one to three bytes. */
  function Four(chunk: Octets): (s: Octets)
    requires 1 <= |chunk| <= 3
    ensures |s| == 4
  {
    var t := Triple(chunk[0], if |chunk| > 1 then chunk[1] else 0, if |chunk| > 2 then chunk[2] else 0);
    [Symbol(Sextet(t, 0)), Symbol(Sextet(t, 1)),
     if |chunk| >= 2 then Symbol(Sextet(t, 2)) else PAD,
     if |chunk| == 3 then Symbol(Sextet(t, 3)) else PAD]
  }

  function Encode(input: Octets): Octets {
    if input == [] then []
    else if |input| <= 3 then Four(input)
    else Four(input[..3]) + Encode(input[3..])
  }

  lemma EncodeStep(input: Octets, i: nat, j: nat)
    requires i < |input| && j == if i + 3 <= |input| then i + 3 else |input|
    ensures Encode(input[i..]) == Four(input[i..j]) + Encode(input[j..])
  {
    assert input[i..][..j - i] == input[i..j] && input[i..][j - i..] == input[j..];
  }

  method Base64Encode(input: Octets) returns (output: Octets)
    ensures output == Encode(input)
  {
    output := [];
    var i := 0;
    while i < |input|
      invariant i <= |input| && output + Encode(input[i..]) == Encode(input)
    {
      var j := if i + 3 <= |input| then i + 3 else |input|;
      EncodeStep(input, i, j);
      Regroup(output, Four(input[i..j]), Encode(input[j..]));
      output := output + Four(input[i..j]);
      i := j;
      hide Four, Encode;
    }
  }

  lemma Regroup(x: Octets, y: Octets, z: Octets)
    ensures x + (y + z) == (x + y) + z
  { }

  // ----- decoding -----

  datatype DecodeError = InvalidByte(byte: bv8) | InvalidLength

  function IsSpace(b: bv8): bool { b == 32 || b == 9 || b == 10 || b == 12 || b == 13 }

  function Strip(text: Octets): Octets {
    if text == [] then []
    else Strip(text[..|text| - 1]) + (if IsSpace(text[|text| - 1]) then [] else [text[|text| - 1]])
  }

  /** 64 stands for the padding sign. */
  function DecodeByte(b: bv8): Result<bv8, DecodeError> {
    if 65 <= b <= 90 then Ok(b - 65)
    else if 97 <= b <= 122 then Ok(b - 97 + 26)
    else if 48 <= b <= 57 then Ok(b - 48 + 52)
    else if b == 43 then Ok(62)
    else if b == 47 then Ok(63)
    else if b == 61 then Ok(64)
    else Err(InvalidByte(b))
  }

  /** One to three bytes out of four values. */
  function Three(v: Octets): Octets
    requires |v| == 4
  {
    [(v[0] << 2) | (v[1] >> 4)]
    + (if v[2] != 64 then [(v[1] << 4) | (v[2] >> 2)] else [])
    + (if v[3] != 64 then [(v[2] << 6) | v[3]] else [])
  }

  /** What has been read so far: the finished bytes and the values still short of a group. */
  datatype Progress = Progress(done: Octets, buffer: Octets)

  function Feed(p: Progress, v: bv8): (q: Progress)
    requires |p.buffer| < 4
    ensures |q.buffer| < 4
  {
    if |p.buffer| == 3 then Progress(p.done + Three(p.buffer + [v]), []) else p.(buffer := p.buffer + [v])
  }

  function Read(text: Octets): (r: Result<Progress, DecodeError>)
    ensures r.Ok? ==> |r.value.buffer| < 4
  {
    if text == [] then Ok(Progress([], []))
    else
      var last := text[|text| - 1];
      match Read(text[..|text| - 1])
      case Err(e) => Err(e)
      case Ok(p) =>
        if IsSpace(last) then Ok(p)
        else match DecodeByte(last)
          case Err(e) => Err(e)
          case Ok(v) => Ok(Feed(p, v))
  }

  function Decode(text: Octets): Result<Octets, DecodeError> {
    match Read(text)
    case Err(e) => Err(e)
    case Ok(p) => if p.buffer != [] then Err(InvalidLength) else Ok(p.done)
  }

  method Base64Decode(input: Octets) returns (r: Result<Octets, DecodeError>)
    ensures r == Decode(input)
  {
    var output: Octets := [];
    var buffer := new bv8[4];
    var bufferLen: nat := 0;
    for i := 0 to |input|
      invariant bufferLen < 4 && Read(input[..i]) == Ok(Progress(output, buffer[..bufferLen]))
    {
      ReadNext(input, i);
      if !IsSpace(input[i]) {
        var v := DecodeByte(input[i]);
        if v.Err? {
          ErrorStays(input, i + 1);
          return Err(v.error);
        }
        output, bufferLen := Push(buffer, bufferLen, v.value, output);
      }
    }
    assert input[..|input|] == input;
    r := if bufferLen != 0 then Err(InvalidLength) else Ok(output);
  }

  /** Put one value in the buffer; a full buffer becomes output. */
  method Push(buffer: array<bv8>, bufferLen: nat, v: bv8, output: Octets) returns (output1: Octets, len1: nat)
    requires buffer.Length == 4 && bufferLen < 4
    modifies buffer
    ensures len1 < 4
    ensures Progress(output1, buffer[..len1]) == Feed(Progress(output, old(buffer[..bufferLen])), v)
  {
    buffer[bufferLen] := v;
    output1, len1 := output, bufferLen + 1;
    assert buffer[..len1] == old(buffer[..bufferLen]) + [v];
    if len1 == 4 {
      assert buffer[..] == buffer[..4];
      output1 := Flush(buffer, output);
      len1 := 0;
    }
    hide Three;
  }

  /** Turn a full buffer into bytes. */
  method Flush(buffer: array<bv8>, output: Octets) returns (output1: Octets)
    requires buffer.Length == 4
    ensures output1 == output + Three(buffer[..])
  {
    var first, second, third, fourth := buffer[0], buffer[1], buffer[2], buffer[3];
    assert buffer[..] == [first, second, third, fourth];
    ThreeInParts(output, first, second, third, fourth);
    output1 := output + [(first << 2) | (second >> 4)];
    if third != 64 { output1 := output1 + [(second << 4) | (third >> 2)]; }
    if fourth != 64 { output1 := output1 + [(third << 6) | fourth]; }
    hide Three;
  }

  lemma ThreeInParts(output: Octets, v0: bv8, v1: bv8, v2: bv8, v3: bv8)
    ensures var o1 := output + [(v0 << 2) | (v1 >> 4)];
            var o2 := if v2 != 64 then o1 + [(v1 << 4) | (v2 >> 2)] else o1;
            (if v3 != 64 then o2 + [(v2 << 6) | v3] else o2) == output + Three([v0, v1, v2, v3])
  { }

  lemma ReadNext(text: Octets, i: nat)
    requires i < |text|
    ensures text[..i + 1][..i] == text[..i] && text[..i + 1][i] == text[i]
  { }

  lemma {:induction false} ErrorStays(text: Octets, n: nat)
    requires n <= |text| && Read(text[..n]).Err?
    ensures Read(text) == Read(text[..n])
  {
    if n == |text| {
      assert text[..n] == text;
    } else {
      assert text[..|text| - 1][..n] == text[..n];
      ErrorStays(text[..|text| - 1], n);
    }
  }

  // ----- round trip -----

  lemma SymbolDecodes(v: bv8)
    requires v < 64
    ensures DecodeByte(Symbol(v)) == Ok(v) && !IsSpace(Symbol(v))
  { }

  lemma SextetsFit(t: bv32, k: nat)
    requires k < 4
    ensures Sextet(t, k) < 64
  { }

  /** Six-bit pieces put back together are the bytes they were cut from. */
  lemma PiecesJoin(a: bv8, b: bv8, c: bv8)
    ensures var t := Triple(a, b, c);
            && (Sextet(t, 0) << 2) | (Sextet(t, 1) >> 4) == a
            && (Sextet(t, 1) << 4) | (Sextet(t, 2) >> 2) == b
            && (Sextet(t, 2) << 6) | Sextet(t, 3) == c
  { }

  /** The values of the four symbols, with 64 for padding. */
  function Values(chunk: Octets): (v: Octets)
    requires 1 <= |chunk| <= 3
    ensures |v| == 4
  {
    var t := Triple(chunk[0], if |chunk| > 1 then chunk[1] else 0, if |chunk| > 2 then chunk[2] else 0);
    [Sextet(t, 0), Sextet(t, 1),
     if |chunk| >= 2 then Sextet(t, 2) else 64,
     if |chunk| == 3 then Sextet(t, 3) else 64]
  }

  lemma FourDecodes(chunk: Octets, k: nat)
    requires 1 <= |chunk| <= 3 && k < 4
    ensures DecodeByte(Four(chunk)[k]) == Ok(Values(chunk)[k]) && !IsSpace(Four(chunk)[k])
  {
    var t := Triple(chunk[0], if |chunk| > 1 then chunk[1] else 0, if |chunk| > 2 then chunk[2] else 0);
    SextetsFit(t, k);
    SymbolDecodes(Sextet(t, k));
    hide Sextet, Triple, Symbol, DecodeByte;
    assert DecodeByte(PAD) == Ok(64) && !IsSpace(PAD) by { PadDecodes(); }
  }

  lemma PadDecodes()
    ensures DecodeByte(PAD) == Ok(64) && !IsSpace(PAD)
  { }

  lemma ThreeOf(v: Octets, chunk: Octets)
    requires |v| == 4 && 1 <= |chunk| <= 3
    requires (v[0] << 2) | (v[1] >> 4) == chunk[0]
    requires if |chunk| >= 2 then v[2] != 64 && (v[1] << 4) | (v[2] >> 2) == chunk[1] else v[2] == 64
    requires if |chunk| == 3 then v[3] != 64 && (v[2] << 6) | v[3] == chunk[2] else v[3] == 64
    ensures Three(v) == chunk
  { }

  lemma SextetIsNot64(t: bv32, k: nat)
    requires k < 4
    ensures Sextet(t, k) != 64
  {
    SextetsFit(t, k);
  }

  lemma ThreeBack(chunk: Octets)
    requires 1 <= |chunk| <= 3
    ensures Three(Values(chunk)) == chunk
  {
    hide Sextet, Triple, Three;
    var b, c := if |chunk| > 1 then chunk[1] else 0, if |chunk| > 2 then chunk[2] else 0;
    var t := Triple(chunk[0], b, c);
    PiecesJoin(chunk[0], b, c);
    SextetIsNot64(t, 2);
    SextetIsNot64(t, 3);
    ThreeOf(Values(chunk), chunk);
  }

  lemma ReadAppend(text: Octets, b: bv8, v: bv8)
    requires Read(text).Ok? && DecodeByte(b) == Ok(v) && !IsSpace(b)
    ensures Read(text + [b]) == Ok(Feed(Read(text).value, v))
  {
    assert (text + [b])[..|text|] == text;
  }

  lemma FeedFour(done: Octets, v: Octets)
    requires |v| == 4
    ensures Feed(Feed(Feed(Feed(Progress(done, []), v[0]), v[1]), v[2]), v[3]) == Progress(done + Three(v), [])
  {
    assert [] + [v[0]] + [v[1]] + [v[2]] + [v[3]] == v;
    hide Three;
  }

  /** Reading the four symbols of a chunk after whole groups adds exactly the chunk. */
  lemma ReadFour(text: Octets, done: Octets, chunk: Octets)
    requires Read(text) == Ok(Progress(done, [])) && 1 <= |chunk| <= 3
    ensures Read(text + Four(chunk)) == Ok(Progress(done + chunk, []))
  {
    hide Four, Values, Three, DecodeByte, Read, IsSpace, Feed;
    var f, v := Four(chunk), Values(chunk);
    FourDecodes(chunk, 0);
    FourDecodes(chunk, 1);
    FourDecodes(chunk, 2);
    FourDecodes(chunk, 3);
    ThreeBack(chunk);
    FeedFour(done, v);
    var t1 := text + [f[0]];
    var t2 := t1 + [f[1]];
    var t3 := t2 + [f[2]];
    ReadAppend(text, f[0], v[0]);
    ReadAppend(t1, f[1], v[1]);
    ReadAppend(t2, f[2], v[2]);
    ReadAppend(t3, f[3], v[3]);
    assert text + f == t3 + [f[3]];
  }

  lemma {:induction false} ReadEncoded(text: Octets, done: Octets, input: Octets)
    requires Read(text) == Ok(Progress(done, []))
    ensures Read(text + Encode(input)) == Ok(Progress(done + input, []))
    decreases input
  {
    hide Four, Read;
    if input == [] {
      assert text + Encode(input) == text && done + input == done;
    } else if |input| <= 3 {
      ReadFour(text, done, input);
    } else {
      ReadFour(text, done, input[..3]);
      ReadEncoded(text + Four(input[..3]), done + input[..3], input[3..]);
      assert text + Encode(input) == text + Four(input[..3]) + Encode(input[3..]);
      assert done + input == done + input[..3] + input[3..];
    }
  }

  /** Encoding then decoding gives every byte sequence back, with either amount of padding. */
  lemma RoundTrip(input: Octets)
    ensures Decode(Encode(input)) == Ok(input)
  {
    ReadEncoded([], [], input);
    assert [] + Encode(input) == Encode(input) && [] + input == input;
    hide Encode;
  }

  lemma {:induction false} StripReads(text: Octets)
    ensures Read(Strip(text)) == Read(text)
  {
    if text != [] {
      var n := |text| - 1;
      StripReads(text[..n]);
      if IsSpace(text[n]) {
        assert Strip(text) == Strip(text[..n]);
      } else {
        assert Strip(text)[..|Strip(text)| - 1] == Strip(text[..n]);
      }
      hide Feed, DecodeByte;
    }
  }

  /** Whitespace put anywhere between the symbols changes nothing. */
  lemma WhitespaceIgnored(text: Octets, input: Octets)
    requires Strip(text) == Encode(input)
    ensures Decode(text) == Ok(input)
  {
    StripReads(text);
    RoundTrip(input);
  }

  lemma {:induction false} EncodedLength(input: Octets)
    ensures |Encode(input)| == 4 * ((|input| + 2) / 3)
  {
    if |input| > 3 { EncodedLength(input[3..]); }
  }

  predicate Legal(b: bv8) { IsSpace(b) || DecodeByte(b).Ok? }

  lemma {:induction false} ReadOkIff(text: Octets)
    ensures Read(text).Ok? <==> forall k :: 0 <= k < |text| ==> Legal(text[k])
  {
    hide DecodeByte, IsSpace, Three, Feed;
    if text != [] {
      var n := |text| - 1;
      ReadOkIff(text[..n]);
      assert forall k :: 0 <= k < n ==> text[..n][k] == text[k];
    }
  }

  lemma {:induction false} BufferedCount(text: Octets)
    ensures Read(text).Ok? ==> |Read(text).value.buffer| == |Strip(text)| % 4
  {
    hide DecodeByte, IsSpace, Three;
    if text != [] { BufferedCount(text[..|text| - 1]); }
  }

  /** A text decodes exactly when it has only symbols of the alphabet, padding signs and
      whitespace, and four times some number of the former two. */
  lemma DecodesIff(text: Octets)
    ensures Decode(text).Ok? <==>
      (forall k :: 0 <= k < |text| ==> Legal(text[k])) && |Strip(text)| % 4 == 0
  {
    ReadOkIff(text);
    BufferedCount(text);
    hide Legal, Read, Strip;
  }

  /** The test vectors of RFC 4648, section 10: "", "f", "fo", "foo", "foob", "fooba", "foobar". */
  lemma TestVectors()
    ensures Encode([]) == [] && Encode([102]) == [90, 103, 61, 61] && Encode([102, 111]) == [90, 109, 56, 61]
    ensures Encode([102, 111, 111]) == [90, 109, 57, 118]
    ensures Encode([102, 111, 111, 98]) == [90, 109, 57, 118, 89, 103, 61, 61]
    ensures Encode([102, 111, 111, 98, 97]) == [90, 109, 57, 118, 89, 109, 69, 61]
    ensures Encode([102, 111, 111, 98, 97, 114]) == [90, 109, 57, 118, 89, 109, 70, 121]
  {
    assert Four([102, 111, 111]) == [90, 109, 57, 118];
    var foo := [102, 111, 111];
    forall tail: Octets ensures (foo + tail)[..3] == foo && (foo + tail)[3..] == tail { }
    assert [102, 111, 111, 98] == foo + [98] && [102, 111, 111, 98, 97] == foo + [98, 97];
    assert [102, 111, 111, 98, 97, 114] == foo + [98, 97, 114];
  }
}
