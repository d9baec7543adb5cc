/**
 * Whole-buffer byte copies, the model of `memcpy(dst, src, n)` as the
 * view uses it: the first `n` bytes of `src` replace the first `n` bytes
 * of `dst`, and nothing else changes.
 */
module Memory {

  /** The contents of `dst` after its first `n` bytes were overwritten by those of `src`. */
  function Copied(dst: seq<bv8>, src: seq<bv8>, n: nat): (r: seq<bv8>)
    requires n <= |dst| && n <= |src|
    ensures |r| == |dst|
    ensures r[..n] == src[..n]
    ensures r[n..] == dst[n..]
  {
    src[..n] + dst[n..]
  }

  /** `memcpy` on two distinct buffers, byte by byte. */
  method Memcpy(dst: array<bv8>, src: array<bv8>, n: nat)
    requires n <= dst.Length && n <= src.Length
    requires dst != src
    modifies dst
    ensures dst[..] == Copied(old(dst[..]), src[..], n)
  {
    var i := 0;
    while i < n
      invariant 0 <= i <= n
      invariant forall k :: 0 <= k < i ==> dst[k] == src[k]
      invariant forall k :: i <= k < dst.Length ==> dst[k] == old(dst[k])
    {
      dst[i] := src[i];
      i := i + 1;
    }
    assert dst[..] == Copied(old(dst[..]), src[..], n);
  }
}
