/** File contents as byte sequences, and the one way both ends change them:
    a write at an offset that zero-fills any gap. */
module Bytes {

  type Byte = x: int | 0 <= x < 256

  type Data = seq<Byte>

  function Zeros(n: nat): (z: Data)
    ensures |z| == n
    ensures forall k :: 0 <= k < n ==> z[k] == 0
  {
    seq(n, i => 0)
  }

  function Max(a: nat, b: nat): nat { if a < b then b else a }

  function Min(a: nat, b: nat): nat { if a < b then a else b }

  /** What `seek(off); write(data)` on a random-access file, or `dd seek=... conv=notrunc`,
      leaves behind. An empty write does not extend the file. */
  function WriteAt(f: Data, off: nat, data: Data): (r: Data)
    ensures |r| == if data == [] then |f| else Max(|f|, off + |data|)
    ensures forall p :: 0 <= p < |r| ==>
      r[p] == if off <= p < off + |data| then data[p - off] else if p < |f| then f[p] else 0
  {
    if data == [] then f
    else
      var g := if |f| < off then f + Zeros(off - |f|) else f;
      g[..off] + data + (if off + |data| < |g| then g[off + |data|..] else [])
  }

  /** A later write to a disjoint range commutes with an earlier one. */
  lemma WritesCommute(f: Data, a: nat, x: Data, b: nat, y: Data)
    requires a + |x| <= b
    ensures WriteAt(WriteAt(f, a, x), b, y) == WriteAt(WriteAt(f, b, y), a, x)
  {
    var l, r := WriteAt(WriteAt(f, a, x), b, y), WriteAt(WriteAt(f, b, y), a, x);
    assert |l| == |r|;
    forall p | 0 <= p < |l| ensures l[p] == r[p] { }
  }
}
