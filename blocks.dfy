/**
 * Block-wise processing shared by the phase scrambler and its inverse: a
 * signal is cut into `len // block_size` full blocks, block i is combined
 * sample by sample with a factor c[i], and whatever lies past the last full
 * block stays zero, as in a buffer from `np.zeros_like`.
 */
module Blocks {
  /** `len // block_size` with Python's floor division: no full block when the block size is negative. */
  function NumBlocks(n: nat, b: int): (nb: nat)
    requires b != 0
    ensures b > 0 ==> nb * b <= n < nb * b + b
    ensures b < 0 ==> nb == 0
  {
    if b > 0 then n / b else 0
  }

  /** The block a sample index falls in. */
  lemma BlockIndex(k: int, b: int, n: int)
    requires b > 0 && 0 <= k < n * b
    ensures 0 <= k / b < n
  {
    MulMonotone(n, k / b, b);
  }

  lemma MulMonotone(x: int, y: int, b: int)
    requires b > 0
    ensures x <= y ==> x * b <= y * b
  {
  }

  /** Sample j of block i has block index i. */
  lemma DivBlock(i: int, j: int, b: int)
    requires b > 0 && 0 <= j < b
    ensures (i * b + j) / b == i
  {
    var x := i * b + j;
    var q := x / b;
    assert (q - i) * b == j - x % b;
    MulMonotone(1, q - i, b);
    MulMonotone(q - i, -1, b);
  }

  /**
   * The buffer after the first m samples of the full blocks have been
   * written: sample k < m is `op(s[k], c[k / b])`, every later sample is zero.
   */
  function Blockwise(s: seq<real>, b: int, c: seq<real>, m: int, op: (real, real) -> real): (r: seq<real>)
    requires b > 0 && m <= |c| * b
    ensures |r| == |s|
  {
    seq(|s|, k requires 0 <= k < |s| =>
      if k < m then (BlockIndex(k, b, |c|); op(s[k], c[k / b])) else 0.0)
  }

  /** Writing sample m extends the written prefix by one. */
  lemma BlockwiseStep(s: seq<real>, b: int, c: seq<real>, m: nat, op: (real, real) -> real)
    requires b > 0 && m < |c| * b && m < |s|
    ensures 0 <= m / b < |c|
    ensures Blockwise(s, b, c, m + 1, op) == Blockwise(s, b, c, m, op)[m := op(s[m], c[m / b])]
  {
    BlockIndex(m, b, |c|);
  }

  /** Nothing is written yet. */
  lemma BlockwiseNone(s: seq<real>, b: int, c: seq<real>, op: (real, real) -> real)
    requires b > 0
    ensures Blockwise(s, b, c, 0, op) == seq(|s|, _ => 0.0)
  {
  }

  /**
   * The whole buffer: every sample of the full blocks combined with its
   * block's factor, zeros after them, and all zeros for a negative block size.
   */
  function AllBlocks(s: seq<real>, b: int, c: seq<real>, op: (real, real) -> real): (r: seq<real>)
    requires b != 0 && |c| == NumBlocks(|s|, b)
    ensures |r| == |s|
  {
    if b > 0 then Blockwise(s, b, c, |c| * b, op) else seq(|s|, _ => 0.0)
  }

  /** Sample j of full block i of the whole buffer. */
  lemma AllBlocksSample(s: seq<real>, b: int, c: seq<real>, op: (real, real) -> real, i: nat, j: nat)
    requires b > 0 && |c| == NumBlocks(|s|, b) && i < |c| && j < b
    ensures i * b + j < |s|
    ensures AllBlocks(s, b, c, op)[i * b + j] == op(s[i * b + j], c[i])
  {
    MulMonotone(i + 1, |c|, b);
    DivBlock(i, j, b);
  }

  /** Every sample past the last full block is zero. */
  lemma AllBlocksTail(s: seq<real>, b: int, c: seq<real>, op: (real, real) -> real, k: nat)
    requires b != 0 && |c| == NumBlocks(|s|, b) && k < |s|
    requires b > 0 ==> k >= |c| * b
    ensures AllBlocks(s, b, c, op)[k] == 0.0
  {
  }

  /**
   * The slice assignment `buf[i*b:(i+1)*b] = op(s[i*b:(i+1)*b], factor)` for
   * full block i, whose factor is c[i].
   */
  method WriteBlock(buf: array<real>, s: seq<real>, b: int, ghost c: seq<real>, i: nat, factor: real, op: (real, real) -> real)
    requires b > 0 && buf.Length == |s| && i < |c| && |c| * b <= |s| && factor == c[i]
    requires buf[..] == Blockwise(s, b, c, i * b, op)
    modifies buf
    ensures buf[..] == Blockwise(s, b, c, (i + 1) * b, op)
  {
    MulMonotone(i + 1, |c|, b);
    var j := 0;
    while j < b
      invariant 0 <= j <= b
      invariant buf[..] == Blockwise(s, b, c, i * b + j, op)
    {
      BlockwiseStep(s, b, c, i * b + j, op);
      DivBlock(i, j, b);
      buf[i * b + j] := op(s[i * b + j], factor);
      j := j + 1;
    }
    assert i * b + b == (i + 1) * b;
  }
}
