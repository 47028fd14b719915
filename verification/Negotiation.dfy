/** The chunk size all files of a same-file Dual task agree on before the workers start. */
module Negotiation {
  import opened Wrappers
  import opened Models
  import opened Bytes
  import opened Chunks

  const MIB := 0x10_0000
  const GIB := 0x4000_0000

  function Adaptive(fileSize: nat): nat {
    if fileSize >= 4 * GIB then 64 * MIB else if fileSize >= GIB then 32 * MIB else 8 * MIB
  }

  /** `dual_same_file_chunk_size` */
  function SameFileChunkSize(fileSize: nat, requested: nat): nat {
    Max(1, Min(Max(requested, Adaptive(fileSize)), 64 * MIB))
  }

  /** The largest size any of the files wants. */
  function Negotiated(sizes: seq<nat>, requested: nat): Option<nat> {
    if sizes == [] then None
    else
      var last := SameFileChunkSize(sizes[|sizes| - 1], requested);
      match Negotiated(sizes[..|sizes| - 1], requested)
      case None => Some(last)
      case Some(m) => Some(Max(m, last))
  }

  lemma {:induction false} NegotiatedIsMax(sizes: seq<nat>, requested: nat)
    ensures sizes == [] <==> Negotiated(sizes, requested).None?
    ensures sizes != [] ==>
      && (forall k :: 0 <= k < |sizes| ==> SameFileChunkSize(sizes[k], requested) <= Negotiated(sizes, requested).value)
      && (exists k :: 0 <= k < |sizes| && SameFileChunkSize(sizes[k], requested) == Negotiated(sizes, requested).value)
  {
    if sizes != [] {
      var n := |sizes| - 1;
      NegotiatedIsMax(sizes[..n], requested);
      assert forall k :: 0 <= k < n ==> sizes[..n][k] == sizes[k];
      if n > 0 {
        var k :| 0 <= k < n && SameFileChunkSize(sizes[..n][k], requested) == Negotiated(sizes[..n], requested).value;
        assert SameFileChunkSize(sizes[k], requested) <= Negotiated(sizes, requested).value;
      }
      assert SameFileChunkSize(sizes[n], requested) <= Negotiated(sizes, requested).value;
    }
  }

  /** What is negotiated is a fixpoint for every file it was negotiated over: asked for that size,
      each of them wants exactly it. So a later attempt negotiates the same size again and leaves
      the task's chunks alone. */
  lemma NegotiationIsStable(sizes: seq<nat>, requested: nat)
    requires sizes != []
    ensures var r := Negotiated(sizes, requested).value;
            && 0 < r <= 64 * MIB
            && (forall k :: 0 <= k < |sizes| ==> SameFileChunkSize(sizes[k], r) == r)
            && Negotiated(sizes, r) == Some(r)
  {
    var r := Negotiated(sizes, requested).value;
    NegotiatedIsMax(sizes, requested);
    NegotiatedIsMax(sizes, r);
    forall k | 0 <= k < |sizes| ensures SameFileChunkSize(sizes[k], r) == r {
      assert SameFileChunkSize(sizes[k], requested) <= r;
    }
    hide SameFileChunkSize, Negotiated;
  }

  /** At most 64 MiB, and no less than 64 MiB for a file of 4 GiB or more, 32 MiB for one of 1 GiB or
      more, and 8 MiB for a smaller one. */
  predicate Suits(fileSize: nat, chunkSize: nat) {
    && 0x80_0000 <= chunkSize <= 0x400_0000
    && (fileSize >= 0x4000_0000 ==> chunkSize >= 0x200_0000)
    && (fileSize >= 0x1_0000_0000 ==> chunkSize >= 0x400_0000)
  }

  /** A file keeps exactly the sizes that suit it. */
  lemma FixpointIff(fileSize: nat, chunkSize: nat)
    ensures SameFileChunkSize(fileSize, chunkSize) == chunkSize <==> Suits(fileSize, chunkSize)
  { }

  /** Whatever was requested, a file below 4 GiB is cut into at most 128 chunks, and a larger one into
      chunks of 64 MiB. */
  lemma FewChunks(fileSize: nat, requested: nat)
    ensures var size := SameFileChunkSize(fileSize, requested);
            if fileSize < 0x1_0000_0000 then Count(fileSize, size) <= 128 else size == 0x400_0000
  {
    var size := SameFileChunkSize(fileSize, requested);
    if 0 < fileSize < 0x1_0000_0000 {
      DivCeilBounds(fileSize, size);
      if Count(fileSize, size) > 128 { MulMono(127, Count(fileSize, size) - 1, size); }
    }
  }

  /** After the negotiation each worker's own arithmetic names the engine's chunks: as many of
      them, each with the engine's offset and length. */
  lemma WorkersNameEngineChunks(sizes: seq<nat>, requested: nat, k: nat, fileIndex: nat, i: U32Int)
    requires k < |sizes| && sizes[k] > 0
    requires Count(sizes[k], Negotiated(sizes, requested).value) < TWO_TO_32
    requires i < Count(sizes[k], Negotiated(sizes, requested).value)
    ensures var r := Negotiated(sizes, requested).value;
            var own := SameFileChunkSize(sizes[k], r);
            && ChunkCountForSize(sizes[k], own) == |Split(fileIndex, sizes[k], r)|
            && Split(fileIndex, sizes[k], r)[i] == Canonical(fileIndex, sizes[k], own, i)
  {
    NegotiationIsStable(sizes, requested);
    WorkersAgreeWithCore(fileIndex, sizes[k], Negotiated(sizes, requested).value);
  }

  /** A task left at another chunk size would not do: past chunk 0 a worker's chunk and the
      engine's chunk of the same index are then different bytes. */
  lemma WithoutNegotiation(size: nat, engineSize: nat, i: nat)
    requires engineSize > 0 && i > 0 && size > 0
    requires i < Count(size, engineSize) && i < Count(size, SameFileChunkSize(size, engineSize))
    ensures ChunkAt(0, size, engineSize, i) == ChunkAt(0, size, SameFileChunkSize(size, engineSize), i)
       <==> Suits(size, engineSize)
  {
    SameRangeIff(size, engineSize, SameFileChunkSize(size, engineSize), i);
    FixpointIff(size, engineSize);
  }
}
