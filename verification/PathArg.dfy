/** Percent-encoded path arguments (RFC 3986, section 2.1) on the line protocol: the desktop's
    encoder, the phone's decoder, and the command that carries them. Paths are byte strings. */
module PathArg {
  import opened Wrappers
  import opened Bytes
  import opened Models
  import opened Text

  // ----- encoding -----

  predicate IsPlain(b: Byte) {
    48 <= b <= 57 || 65 <= b <= 90 || 97 <= b <= 122 || b == 46 || b == 45 || b == 95 || b == 47
  }

  function HexDigit(d: nat): char
    requires d < 16
  {
    if d < 10 then ('0' as int + d) as char else ('A' as int + (d - 10)) as char
  }

  /** Backslashes become slashes. */
  function Slashed(p: Data): (r: Data)
    ensures |r| == |p|
    ensures forall k :: 0 <= k < |p| ==> r[k] == if p[k] == 92 then 47 else p[k]
  {
    seq(|p|, k requires 0 <= k < |p| => if p[k] == 92 then 47 else p[k])
  }

  function EncodeByte(b: Byte): (s: string)
    ensures s != ""
  {
    if IsPlain(b) then [b as char] else ['%', HexDigit(b / 16), HexDigit(b % 16)]
  }

  function EncodeEach(p: Data): string {
    if p == [] then "" else EncodeByte(p[0]) + EncodeEach(p[1..])
  }

  function Encode(p: Data): string { EncodeEach(Slashed(p)) }

  method EncodePathArg(value: Data) returns (encoded: string)
    ensures encoded == Encode(value)
  {
    var normalized := Slashed(value);
    encoded := "";
    for i := 0 to |normalized|
      invariant encoded + EncodeEach(normalized[i..]) == Encode(value)
    {
      var b := normalized[i];
      assert normalized[i..][1..] == normalized[i + 1..];
      AppendThree(encoded, EncodeByte(b), EncodeEach(normalized[i + 1..]));
      if IsPlain(b) {
        encoded := encoded + [b as char];
      } else {
        encoded := encoded + ['%', HexDigit(b / 16), HexDigit(b % 16)];
      }
    }
  }

  const HEX := "0123456789ABCDEF"

  /** Letters, digits, dot, hyphen, underscore and slash stand for themselves; every other byte is a
      percent sign and two capital hexadecimal digits. */
  lemma ByteIs(b: Byte)
    ensures var c := b as char;
            if c in {'.', '-', '_', '/'} || '0' <= c <= '9' || 'A' <= c <= 'Z' || 'a' <= c <= 'z'
            then EncodeByte(b) == [c]
            else EncodeByte(b) == ['%', HEX[b / 16], HEX[b % 16]]
  {
    DigitIs(b / 16);
    DigitIs(b % 16);
  }

  lemma DigitIs(d: nat)
    requires d < 16
    ensures HexDigit(d) == HEX[d]
  { }

  predicate IsSafe(c: char) { c == '%' || (c as int < 128 && IsPlain(c as int)) }

  lemma HexIsSafe(d: nat)
    requires d < 16
    ensures IsSafe(HexDigit(d))
  { }

  lemma ByteIsSafe(b: Byte)
    ensures forall k :: 0 <= k < |EncodeByte(b)| ==> IsSafe(EncodeByte(b)[k])
  {
    HexIsSafe(b / 16);
    HexIsSafe(b % 16);
  }

  lemma {:induction false} EachIsSafe(p: Data)
    ensures forall k :: 0 <= k < |EncodeEach(p)| ==> IsSafe(EncodeEach(p)[k])
  {
    if p != [] {
      ByteIsSafe(p[0]);
      EachIsSafe(p[1..]);
      hide EncodeByte, IsSafe;
    }
  }

  /** An encoded path has no separator in it: no space, no tab, no end of line. */
  lemma EncodedIsOneWord(p: Data)
    ensures Free(Encode(p), ' ') && Free(Encode(p), '\t') && Free(Encode(p), '\r') && Free(Encode(p), '\n')
    ensures Encode(p) == "" <==> p == []
  {
    EachIsSafe(Slashed(p));
  }

  // ----- decoding -----

  function HexValue(c: char): Option<nat> {
    if '0' <= c <= '9' then Some(c as int - '0' as int)
    else if 'a' <= c <= 'f' then Some(c as int - 'a' as int + 10)
    else if 'A' <= c <= 'F' then Some(c as int - 'A' as int + 10)
    else None
  }

  /** A character outside the percent signs as UTF-8. One beyond the basic plane is two units to
      the decoder, and each half becomes a question mark. */
  function Utf8(c: char): Data {
    var u := c as int;
    if u < 0x80 then [u]
    else if u < 0x800 then [0xC0 + u / 0x40, 0x80 + u % 0x40]
    else if u < 0x10000 then [0xE0 + u / 0x1000, 0x80 + u / 0x40 % 0x40, 0x80 + u % 0x40]
    else [63, 63]
  }

  function Prepend(d: Data, rest: Option<Data>): Option<Data> {
    match rest case None => None case Some(r) => Some(d + r)
  }

  /** The value of the two digits after a percent sign. */
  function HexPair(s: string): (r: Option<nat>)
    requires s != ""
    ensures r.Some? ==> |s| >= 3 && r.value < 256
  {
    if |s| < 3 || HexValue(s[1]) == None || HexValue(s[2]) == None then None
    else Some(HexValue(s[1]).value * 16 + HexValue(s[2]).value)
  }

  function Decode(s: string): Option<Data> {
    if s == "" then Some([])
    else if s[0] == '%' then
      match HexPair(s) case None => None case Some(v) => Prepend([v], Decode(s[3..]))
    else Prepend(Utf8(s[0]), Decode(s[1..]))
  }

  lemma PrependTwice(a: Data, b: Data, rest: Option<Data>)
    ensures Prepend(a, Prepend(b, rest)) == Prepend(a + b, rest)
  {
    if rest.Some? { assert a + (b + rest.value) == (a + b) + rest.value; }
  }

  lemma PrependNothing(rest: Option<Data>)
    ensures Prepend([], rest) == rest
  {
    if rest.Some? { assert [] + rest.value == rest.value; }
  }

  method DecodePathArg(input: string) returns (r: Option<Data>)
    ensures r == Decode(input)
  {
    var bytes: Data := [];
    var index := 0;
    PrependNothing(Decode(input));
    assert input[0..] == input;
    while index < |input|
      invariant index <= |input| && Decode(input) == Prepend(bytes, Decode(input[index..]))
    {
      var rest := input[index..];
      if input[index] == '%' {
        if index + 2 >= |input| { return None; }
        var high, low := HexValue(input[index + 1]), HexValue(input[index + 2]);
        if high.None? || low.None? { return None; }
        var v: Byte := high.value * 16 + low.value;
        assert rest[3..] == input[index + 3..];
        PrependTwice(bytes, [v], Decode(input[index + 3..]));
        bytes := bytes + [v];
        index := index + 3;
      } else {
        assert rest[1..] == input[index + 1..];
        PrependTwice(bytes, Utf8(input[index]), Decode(input[index + 1..]));
        bytes := bytes + Utf8(input[index]);
        index := index + 1;
      }
    }
    assert input[index..] == "";
    assert bytes + [] == bytes;
    r := Some(bytes);
  }

  lemma HexBack(d: nat)
    requires d < 16
    ensures HexValue(HexDigit(d)) == Some(d)
  { }

  lemma ByteBack(b: Byte, rest: string)
    ensures Decode(EncodeByte(b) + rest) == Prepend([b], Decode(rest))
  {
    var s := EncodeByte(b) + rest;
    if IsPlain(b) {
      assert s[1..] == rest && s[0] == b as char && Utf8(b as char) == [b];
    } else {
      HexBack(b / 16);
      HexBack(b % 16);
      assert s[3..] == rest && s[0] == '%' && s[1] == HexDigit(b / 16) && s[2] == HexDigit(b % 16);
      assert HexPair(s) == Some(b);
    }
  }

  lemma {:induction false} EachBack(p: Data)
    ensures Decode(EncodeEach(p)) == Some(p)
  {
    if p != [] {
      EachBack(p[1..]);
      ByteBack(p[0], EncodeEach(p[1..]));
      assert [p[0]] + p[1..] == p;
    }
  }

  /** Every path survives, with its backslashes turned into slashes. */
  lemma RoundTrip(p: Data)
    ensures Decode(Encode(p)) == Some(Slashed(p))
  {
    EachBack(Slashed(p));
  }

  predicate IsHex(c: char) { '0' <= c <= '9' || 'a' <= c <= 'f' || 'A' <= c <= 'F' }

  /** Two hexadecimal digits follow every percent sign. */
  predicate WellFormed(s: string) {
    forall i :: 0 <= i < |s| && s[i] == '%' ==> i + 2 < |s| && IsHex(s[i + 1]) && IsHex(s[i + 2])
  }

  lemma WellFormedFrom(s: string, n: nat)
    requires n <= |s| && forall i :: 0 < i < n ==> s[i] != '%'
    requires n > 0 && (s[0] == '%' ==> |s| >= 3 && IsHex(s[1]) && IsHex(s[2]))
    ensures WellFormed(s) <==> WellFormed(s[n..])
  {
    var t := s[n..];
    assert forall i :: 0 <= i < |t| ==> t[i] == s[n + i];
    if WellFormed(t) {
      forall i | 0 <= i < |s| && s[i] == '%' ensures i + 2 < |s| && IsHex(s[i + 1]) && IsHex(s[i + 2]) {
        if i >= n { assert t[i - n] == '%'; }
      }
    }
  }

  lemma {:induction false} DecodesIff(s: string)
    ensures Decode(s).Some? <==> WellFormed(s)
  {
    if s != "" {
      if s[0] != '%' {
        WellFormedFrom(s, 1);
        DecodesIff(s[1..]);
      } else if |s| >= 3 && IsHex(s[1]) && IsHex(s[2]) {
        WellFormedFrom(s, 3);
        DecodesIff(s[3..]);
      }
    }
  }

  // ----- the command line -----

  const INT_BOUND := 0x8000_0000
  const LONG_BOUND := 0x8000_0000_0000_0000
  const MAX_LINE := 16 * 1024

  predicate IsSpace(c: char) {
    var u := c as int;
    || 9 <= u <= 13 || 28 <= u <= 32 || u == 0xA0 || u == 0x1680 || 0x2000 <= u <= 0x200A
    || u == 0x2028 || u == 0x2029 || u == 0x202F || u == 0x205F || u == 0x3000
  }

  function TrimStart(s: string): string {
    if s != "" && IsSpace(s[0]) then TrimStart(s[1..]) else s
  }

  function TrimEnd(s: string): string {
    if s != "" && IsSpace(s[|s| - 1]) then TrimEnd(s[..|s| - 1]) else s
  }

  function Trim(s: string): string { TrimEnd(TrimStart(s)) }

  /** `toIntOrNull` and `toLongOrNull`: an optional sign, then digits. */
  function ParseSigned(s: string, bound: nat): Option<int> {
    if s != "" && s[0] == '-' then
      var body := s[1..];
      if body == "" || !AllDigits(body) then None
      else
        var v: int := DigitsValue(body);
        if v > bound then None else Some(-v)
    else match ParseUnsigned(s, bound)
      case None => None
      case Some(n) => Some(n)
  }

  datatype PushArgs = PushArgs(path: Data, chunkIndex: nat, offset: nat, length: nat)

  const PUSH_WORD := "PUSH_CHUNK_BIN "

  function PushFields(path: Data, chunkIndex: nat, offset: nat, length: nat): (r: seq<string>)
    ensures |r| == 4
  {
    [Encode(path), Decimal(chunkIndex), Decimal(offset), Decimal(length)]
  }

  /** The line the desktop writes. */
  function PushCommand(path: Data, chunkIndex: nat, offset: nat, length: nat): string {
    PUSH_WORD + Join(PushFields(path, chunkIndex, offset, length), " ")
  }

  function ParsePush(args: string): Option<PushArgs> {
    var parts := SplitOn(args, ' ');
    if |parts| != 4 then None
    else match Decode(parts[0])
      case None => None
      case Some(path) =>
        var chunkIndex := ParseSigned(parts[1], INT_BOUND);
        var offset := ParseSigned(parts[2], LONG_BOUND);
        var length := ParseSigned(parts[3], INT_BOUND);
        if path == [] || chunkIndex == None || offset == None || length == None then None
        else if chunkIndex.value < 0 || offset.value < 0 || length.value < 0 then None
        else Some(PushArgs(path, chunkIndex.value, offset.value, length.value))
  }

  /** What the phone makes of a line: one that is too long is not a command at all. */
  function Accept(line: string): Option<PushArgs> {
    if |line| > MAX_LINE then None
    else
      var command := Trim(line);
      if |command| < |PUSH_WORD| || command[..|PUSH_WORD|] != PUSH_WORD then None
      else ParsePush(Trim(command[|PUSH_WORD|..]))
  }

  lemma TrimKeeps(s: string)
    requires s != "" && !IsSpace(s[0]) && !IsSpace(s[|s| - 1])
    ensures Trim(s) == s && Trim(" " + s) == s
  {
    assert (" " + s)[1..] == s;
  }

  lemma SignedDecimal(n: nat, bound: nat)
    ensures ParseSigned(Decimal(n), bound) == if n < bound then Some(n) else None
  {
    ParseDecimal(n, bound);
    assert IsDigit(Decimal(n)[0]);
  }

  lemma {:induction false} JoinEnds(parts: seq<string>, sep: string)
    requires |parts| > 0 && parts[|parts| - 1] != ""
    ensures var j := Join(parts, sep); var last := parts[|parts| - 1]; j != "" && j[|j| - 1] == last[|last| - 1]
  {
    if |parts| > 1 { JoinEnds(parts[1..], sep); }
  }

  lemma JoinStarts(parts: seq<string>, sep: string)
    requires |parts| > 0 && parts[0] != ""
    ensures Join(parts, sep) != "" && Join(parts, sep)[0] == parts[0][0]
  { }

  lemma DecimalEnds(n: nat)
    ensures !IsSpace(Decimal(n)[0]) && !IsSpace(Decimal(n)[|Decimal(n)| - 1]) && Free(Decimal(n), ' ')
  {
    assert IsDigit(Decimal(n)[0]) && IsDigit(Decimal(n)[|Decimal(n)| - 1]);
  }

  lemma FieldsAreWords(path: Data, chunkIndex: nat, offset: nat, length: nat)
    ensures forall k :: 0 <= k < 4 ==> Free(PushFields(path, chunkIndex, offset, length)[k], ' ')
  {
    EncodedIsOneWord(path);
    DecimalEnds(chunkIndex);
    DecimalEnds(offset);
    DecimalEnds(length);
    hide Encode, Decimal, Free;
  }

  /** The fields parse back to what was sent, when they fit the phone's signed types. */
  lemma FieldsParse(path: Data, chunkIndex: nat, offset: nat, length: nat)
    ensures ParsePush(Join(PushFields(path, chunkIndex, offset, length), " "))
         == if path != [] && chunkIndex < INT_BOUND && offset < LONG_BOUND && length < INT_BOUND
            then Some(PushArgs(Slashed(path), chunkIndex, offset, length)) else None
  {
    FieldsAreWords(path, chunkIndex, offset, length);
    SplitJoin(PushFields(path, chunkIndex, offset, length), ' ');
    RoundTrip(path);
    SignedDecimal(chunkIndex, INT_BOUND);
    SignedDecimal(offset, LONG_BOUND);
    SignedDecimal(length, INT_BOUND);
    assert " " == [' '];
    hide Encode, Decimal, ParseSigned, Join, SplitOn;
  }

  lemma EmptyPathParses(chunkIndex: nat, offset: nat, length: nat)
    ensures var args := Join(PushFields([], chunkIndex, offset, length), " ");
            |args| > 0 && args[0] == ' ' && ParsePush(args[1..]) == None
  {
    var fields := PushFields([], chunkIndex, offset, length);
    EncodedIsOneWord([]);
    FieldsAreWords([], chunkIndex, offset, length);
    assert Join(fields, " ") == " " + Join(fields[1..], " ");
    forall k | 0 <= k < 3 ensures Free(fields[1..][k], ' ') { assert fields[1..][k] == fields[k + 1]; }
    SplitJoin(fields[1..], ' ');
    assert " " == [' '];
    hide Encode, Decimal, Join, SplitOn, Free;
  }

  lemma ArgsEnds(path: Data, chunkIndex: nat, offset: nat, length: nat)
    ensures var args := Join(PushFields(path, chunkIndex, offset, length), " ");
            && args != "" && !IsSpace(args[|args| - 1])
            && (path != [] ==> !IsSpace(args[0]))
  {
    var fields := PushFields(path, chunkIndex, offset, length);
    DecimalEnds(length);
    JoinEnds(fields, " ");
    if path != [] {
      EncodedIsOneWord(path);
      EachIsSafe(Slashed(path));
      JoinStarts(fields, " ");
    }
    hide Decimal, Join, EncodeByte, Free;
  }

  lemma TrimmedArgs(path: Data, chunkIndex: nat, offset: nat, length: nat)
    ensures ParsePush(Trim(Join(PushFields(path, chunkIndex, offset, length), " ")))
         == if path != [] && chunkIndex < INT_BOUND && offset < LONG_BOUND && length < INT_BOUND
            then Some(PushArgs(Slashed(path), chunkIndex, offset, length)) else None
  {
    var args := Join(PushFields(path, chunkIndex, offset, length), " ");
    ArgsEnds(path, chunkIndex, offset, length);
    if path != [] {
      TrimKeeps(args);
      FieldsParse(path, chunkIndex, offset, length);
    } else {
      EmptyPathParses(chunkIndex, offset, length);
      DecimalEnds(chunkIndex);
      TailStarts(chunkIndex, offset, length);
      TrimKeeps(args[1..]);
      assert args == " " + args[1..];
    }
    hide PushFields, Join, ParsePush, IsSpace;
  }

  lemma TailStarts(chunkIndex: nat, offset: nat, length: nat)
    ensures var args := Join(PushFields([], chunkIndex, offset, length), " ");
            |args| > 1 && !IsSpace(args[1])
  {
    var fields := PushFields([], chunkIndex, offset, length);
    EncodedIsOneWord([]);
    assert Join(fields, " ") == " " + Join(fields[1..], " ");
    DecimalEnds(chunkIndex);
    JoinStarts(fields[1..], " ");
    hide Encode, Decimal, IsSpace, Free;
  }

  /** The phone takes a push command exactly when the path is not empty, the numbers fit its
      signed types and the line is at most 16 KiB, and then reads what was sent. */
  lemma CommandAccepted(path: Data, chunkIndex: nat, offset: nat, length: nat)
    ensures Accept(PushCommand(path, chunkIndex, offset, length))
         == if && path != [] && chunkIndex < INT_BOUND && offset < LONG_BOUND && length < INT_BOUND
               && |PushCommand(path, chunkIndex, offset, length)| <= MAX_LINE
            then Some(PushArgs(Slashed(path), chunkIndex, offset, length)) else None
  {
    var line := PushCommand(path, chunkIndex, offset, length);
    var args := Join(PushFields(path, chunkIndex, offset, length), " ");
    ArgsEnds(path, chunkIndex, offset, length);
    assert line[0] == PUSH_WORD[0] == 'P';
    assert line[|line| - 1] == args[|args| - 1];
    TrimKeeps(line);
    assert line[..|PUSH_WORD|] == PUSH_WORD && line[|PUSH_WORD|..] == args;
    TrimmedArgs(path, chunkIndex, offset, length);
    hide PushFields, Join, ParsePush, Trim;
  }
}
