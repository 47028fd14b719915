/** Cutting a file into chunks: the transfer core's own cut (`split_into_chunks`) and the
    arithmetic the desktop workers redo on their side (`chunk_count_for_size`,
    `chunk_length_for`). */
module Chunks {
  import opened Bytes
  import opened Models

  /** A chunk's index is 32 bits wide: the core truncates it. */
  datatype Chunk = Chunk(fileIndex: nat, chunkIndex: U32Int, offset: nat, length: nat)

  function AtLeastOne(n: nat): nat { if n == 0 then 1 else n }

  lemma MulStep(n: nat, c: nat)
    ensures (n + 1) * c == n * c + c
  { }

  lemma {:induction false} MulMono(a: nat, b: nat, c: nat)
    requires a < b
    ensures a * c + c <= b * c
  {
    MulStep(b - 1, c);
    if a < b - 1 { MulMono(a, b - 1, c); }
  }

  lemma DivBounds(p: nat, c: nat)
    requires c > 0
    ensures (p / c) * c <= p < (p / c) * c + c
  { }

  function DivCeil(n: nat, d: nat): (q: nat)
    requires d > 0
    ensures q > 0 <==> n > 0
  {
    if n == 0 then 0 else (n - 1) / d + 1
  }

  lemma DivCeilBounds(n: nat, d: nat)
    requires n > 0 && d > 0
    ensures (DivCeil(n, d) - 1) * d < n <= DivCeil(n, d) * d
  {
    DivBounds(n - 1, d);
  }

  /** How many chunks the core cuts, before any truncation of the index. */
  function Count(size: nat, chunkSize: nat): (n: nat)
    ensures n > 0
  {
    if size == 0 then 1 else DivCeil(size, AtLeastOne(chunkSize))
  }

  /** The i-th chunk of a file, as the core describes it. */
  function ChunkAt(fileIndex: nat, size: nat, chunkSize: nat, i: nat): (c: Chunk)
    requires i < Count(size, chunkSize)
    ensures c.offset + c.length <= size
  {
    if size == 0 then Chunk(fileIndex, 0, 0, 0)
    else
      var c := AtLeastOne(chunkSize);
      InFile(size, c, i);
      Chunk(fileIndex, i % TWO_TO_32, i * c, Min(size - i * c, c))
  }

  lemma InFile(size: nat, c: nat, i: nat)
    requires size > 0 && c > 0 && i < DivCeil(size, c)
    ensures i * c < size
  {
    DivCeilBounds(size, c);
    if i < DivCeil(size, c) - 1 { MulMono(i, DivCeil(size, c) - 1, c); }
  }

  function Split(fileIndex: nat, size: nat, chunkSize: nat): (chunks: seq<Chunk>)
    ensures |chunks| == Count(size, chunkSize)
  {
    seq(Count(size, chunkSize), i requires 0 <= i < Count(size, chunkSize) => ChunkAt(fileIndex, size, chunkSize, i))
  }

  method SplitIntoChunks(fileIndex: nat, size: nat, chunkSize: nat) returns (output: seq<Chunk>)
    ensures output == Split(fileIndex, size, chunkSize)
  {
    if size == 0 {
      return [Chunk(fileIndex, 0, 0, 0)];
    }
    var c := if chunkSize > 1 then chunkSize else 1;
    var chunks := DivCeil(size, c);
    output := [];
    for i := 0 to chunks
      invariant |output| == i
      invariant forall k :: 0 <= k < i ==> output[k] == ChunkAt(fileIndex, size, chunkSize, k)
    {
      InFile(size, c, i);
      var offset := i * c;
      var remaining := size - offset;
      output := output + [Chunk(fileIndex, i % TWO_TO_32, offset, Min(remaining, c))];
    }
  }

  // ----- tiling -----

  function End(c: Chunk): nat { c.offset + c.length }

  /** The chunks lie end to end from 0 to the size of the file: no gap, no overlap. */
  lemma Tiling(fileIndex: nat, size: nat, chunkSize: nat)
    ensures var s := Split(fileIndex, size, chunkSize);
            && s[0].offset == 0
            && End(s[|s| - 1]) == size
            && (forall i :: 0 <= i < |s| - 1 ==> End(s[i]) == s[i + 1].offset)
            && (size > 0 ==> forall i :: 0 <= i < |s| ==> 0 < s[i].length <= AtLeastOne(chunkSize))
  {
    var c := AtLeastOne(chunkSize);
    var s := Split(fileIndex, size, chunkSize);
    if size > 0 {
      var n := |s|;
      InFile(size, c, n - 1);
      DivCeilBounds(size, c);
      assert size <= n * c == (n - 1) * c + c;
      forall i | 0 <= i < n - 1 ensures End(s[i]) == s[i + 1].offset && s[i].length == c {
        InFile(size, c, i + 1);
        assert (i + 1) * c == i * c + c;
      }
      forall i | 0 <= i < n ensures 0 < s[i].length <= c {
        InFile(size, c, i);
      }
    }
  }

  /** Chunk i covers exactly the positions whose quotient by the chunk size is i. */
  lemma CoversIff(c: nat, i: nat, p: nat)
    requires c > 0
    ensures i * c <= p < i * c + c <==> i == p / c
  {
    DivBounds(p, c);
    if i < p / c { MulMono(i, p / c, c); }
    if i > p / c { MulMono(p / c, i, c); }
  }

  /** Every byte position belongs to exactly one chunk. */
  lemma ChunkOfByte(fileIndex: nat, size: nat, chunkSize: nat, p: nat)
    requires p < size
    ensures var s := Split(fileIndex, size, chunkSize);
            && p / AtLeastOne(chunkSize) < |s|
            && (forall j :: 0 <= j < |s| ==>
                 (s[j].offset <= p < End(s[j]) <==> j == p / AtLeastOne(chunkSize)))
  {
    var c := AtLeastOne(chunkSize);
    var n := DivCeil(size, c);
    DivBounds(p, c);
    DivCeilBounds(size, c);
    if p / c > n - 1 { MulMono(n - 1, p / c, c); }
    forall j | 0 <= j < n ensures
      var s := Split(fileIndex, size, chunkSize);
      s[j].offset <= p < End(s[j]) <==> j == p / c
    {
      InFile(size, c, j);
      CoversIff(c, j, p);
    }
  }

  /** Truncating the index to 32 bits keeps chunk indices apart exactly when there are at most
      2^32 of them. */
  lemma IndicesDistinctIff(fileIndex: nat, size: nat, chunkSize: nat)
    ensures var s := Split(fileIndex, size, chunkSize);
            (forall i, j :: 0 <= i < j < |s| ==> s[i].chunkIndex != s[j].chunkIndex) <==> |s| <= TWO_TO_32
  {
    var s := Split(fileIndex, size, chunkSize);
    if |s| <= TWO_TO_32 {
      forall i | 0 <= i < |s| ensures s[i].chunkIndex == i { }
    } else {
      assert s[0].chunkIndex == s[TWO_TO_32].chunkIndex;
    }
  }

  // ----- the workers' own arithmetic -----

  function ChunkCountForSize(size: nat, chunkSize: nat): nat {
    if size == 0 then 1 else DivCeil(size, AtLeastOne(chunkSize)) % TWO_TO_32
  }

  function ChunkLengthFor(size: nat, chunkSize: nat, chunkIndex: nat): nat {
    if size == 0 then 0
    else
      var offset := chunkIndex * AtLeastOne(chunkSize);
      Min(if size < offset then 0 else size - offset, AtLeastOne(chunkSize))
  }

  function Canonical(fileIndex: nat, size: nat, chunkSize: nat, i: U32Int): Chunk {
    Chunk(fileIndex, i, i * chunkSize, ChunkLengthFor(size, chunkSize, i))
  }

  /** A worker counts as many chunks as the core cut exactly when they are fewer than 2^32, and
      then every descriptor it builds for itself is the core's. */
  lemma WorkersAgreeWithCore(fileIndex: nat, size: nat, chunkSize: nat)
    requires chunkSize > 0
    ensures ChunkCountForSize(size, chunkSize) == |Split(fileIndex, size, chunkSize)|
       <==> Count(size, chunkSize) < TWO_TO_32
    ensures forall i :: 0 <= i < Count(size, chunkSize) && i < TWO_TO_32 ==>
      Split(fileIndex, size, chunkSize)[i] == Canonical(fileIndex, size, chunkSize, i)
  {
    var s := Split(fileIndex, size, chunkSize);
    forall i | 0 <= i < |s| && i < TWO_TO_32 ensures s[i] == Canonical(fileIndex, size, chunkSize, i) {
      if size > 0 { InFile(size, chunkSize, i); }
    }
  }

  /** Two chunk sizes give one index the same bytes only when they are equal, or when both
      hold the whole file in chunk 0. */
  lemma SameRangeIff(size: nat, a: nat, b: nat, i: nat)
    requires a > 0 && b > 0 && size > 0
    requires i < Count(size, a) && i < Count(size, b)
    ensures ChunkAt(0, size, a, i) == ChunkAt(0, size, b, i)
       <==> a == b || (i == 0 && a >= size && b >= size)
  {
    InFile(size, a, i);
    InFile(size, b, i);
    if i > 0 && a < b { MulStrict(a, b, i); }
    if i > 0 && b < a { MulStrict(b, a, i); }
  }

  lemma MulStrict(a: nat, b: nat, i: nat)
    requires a < b && i > 0
    ensures i * a < i * b
  { }

  // ----- the bytes of a chunk -----

  function Slice(src: Data, c: Chunk): Data
    requires End(c) <= |src|
  {
    src[c.offset..End(c)]
  }

  function Cuts(src: Data, chunkSize: nat, n: nat): (parts: seq<Data>)
    requires n <= Count(|src|, chunkSize)
    ensures |parts| == n
  {
    seq(n, i requires 0 <= i < n => Slice(src, ChunkAt(0, |src|, chunkSize, i)))
  }

  function Concat(parts: seq<Data>): Data {
    if parts == [] then [] else Concat(parts[..|parts| - 1]) + parts[|parts| - 1]
  }

  /** Where the first `n` chunks end. */
  function UpTo(size: nat, chunkSize: nat, n: nat): (p: nat)
    requires n <= Count(size, chunkSize)
    ensures p <= size
  {
    if n == 0 then 0 else End(ChunkAt(0, size, chunkSize, n - 1))
  }

  lemma Adjacent(size: nat, chunkSize: nat, n: nat)
    requires n < Count(size, chunkSize)
    ensures ChunkAt(0, size, chunkSize, n).offset == UpTo(size, chunkSize, n)
  {
    var c := AtLeastOne(chunkSize);
    if size > 0 && n > 0 {
      InFile(size, c, n);
      MulStep(n - 1, c);
    }
  }

  /** The last chunk ends where the file does. */
  lemma LastEnd(size: nat, chunkSize: nat)
    ensures UpTo(size, chunkSize, Count(size, chunkSize)) == size
  {
    var c := AtLeastOne(chunkSize);
    if size > 0 {
      DivCeilBounds(size, c);
      MulStep(Count(size, chunkSize) - 1, c);
    }
  }

  /** The first `n` chunks of a file, one after another, are its first bytes. */
  lemma {:induction false} ConcatCuts(src: Data, chunkSize: nat, n: nat)
    requires n <= Count(|src|, chunkSize)
    ensures Concat(Cuts(src, chunkSize, n)) == src[..UpTo(|src|, chunkSize, n)]
  {
    if n > 0 {
      ConcatCuts(src, chunkSize, n - 1);
      CutsGrow(src, chunkSize, n - 1);
      hide Cuts, Concat, UpTo;
      assert src[..UpTo(|src|, chunkSize, n - 1)] + src[UpTo(|src|, chunkSize, n - 1)..UpTo(|src|, chunkSize, n)]
          == src[..UpTo(|src|, chunkSize, n)];
    }
  }

  lemma CutsGrow(src: Data, chunkSize: nat, n: nat)
    requires n < Count(|src|, chunkSize)
    ensures UpTo(|src|, chunkSize, n) <= UpTo(|src|, chunkSize, n + 1)
    ensures Concat(Cuts(src, chunkSize, n + 1))
         == Concat(Cuts(src, chunkSize, n)) + src[UpTo(|src|, chunkSize, n)..UpTo(|src|, chunkSize, n + 1)]
  {
    hide ChunkAt;
    Adjacent(|src|, chunkSize, n);
    assert Cuts(src, chunkSize, n + 1)[..n] == Cuts(src, chunkSize, n);
  }

  /** Cutting and gluing back is the identity. */
  lemma CutAndGlue(src: Data, chunkSize: nat)
    ensures Concat(Cuts(src, chunkSize, Count(|src|, chunkSize))) == src
  {
    ConcatCuts(src, chunkSize, Count(|src|, chunkSize));
    LastEnd(|src|, chunkSize);
  }
}
