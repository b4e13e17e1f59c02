/**
 * The receiver-side decoder (FieldUnlockDecoder.py): spectral de-smearing,
 * then block phase de-scrambling, then division by the peak, drawing from
 * numpy's global generator in the same pattern as the obfuscator.
 */
module Unlock {
  import opened Errors
  import opened Signals
  import opened Rng
  import opened Primitives
  import opened Blocks
  import opened Scrambler

  /**
   * `block / np.cos(phase_shift)`, sample by sample.  A zero factor makes
   * numpy produce inf or nan; the buffer value written for it here is a
   * placeholder, and the operation reports NonFinite instead.
   */
  function Div(x: real, f: real): real {
    if f != 0.0 then x / f else 0.0
  }

  /** Some full block's factor is zero, so the descrambled signal holds inf or nan. */
  predicate HasZeroFactor(c: seq<real>) {
    exists i :: 0 <= i < |c| && c[i] == 0.0
  }

  lemma ZeroFactorPrefix(c: seq<real>, i: nat)
    requires i < |c|
    ensures HasZeroFactor(c[..i + 1]) <==> HasZeroFactor(c[..i]) || c[i] == 0.0
  {
    assert c[..i + 1] == c[..i] + [c[i]];
  }

  /** What `_descramble_phase` writes for the block factors c. */
  function Descrambled(s: seq<real>, b: int, c: seq<real>): (r: seq<real>)
    requires b != 0 && |c| == NumBlocks(|s|, b)
    ensures |r| == |s|
  {
    AllBlocks(s, b, c, Div)
  }

  /** The full blocks of a signal, zeros after them. */
  function FullBlocks(s: seq<real>, b: int): (r: seq<real>)
    requires b != 0
    ensures |r| == |s|
  {
    seq(|s|, k requires 0 <= k < |s| => if b > 0 && k < NumBlocks(|s|, b) * b then s[k] else 0.0)
  }

  /** Sample j of full block i is the input sample divided by block i's nonzero factor. */
  lemma DescrambledBlock(s: seq<real>, b: int, c: seq<real>, i: nat, j: nat)
    requires b > 0 && |c| == NumBlocks(|s|, b) && i < |c| && j < b && c[i] != 0.0
    ensures i * b + j < |s| && Descrambled(s, b, c)[i * b + j] == s[i * b + j] / c[i]
  {
    AllBlocksSample(s, b, c, Div, i, j);
  }

  /** The samples past the last full block are zero. */
  lemma DescrambledTail(s: seq<real>, b: int, c: seq<real>, k: nat)
    requires b != 0 && |c| == NumBlocks(|s|, b) && NumBlocks(|s|, b) * b <= k < |s|
    ensures Descrambled(s, b, c)[k] == 0.0
  {
    AllBlocksTail(s, b, c, Div, k);
  }

  /**
   * Block-wise inverse: with the same nonzero factors, descrambling the
   * scrambled signal restores every full-block sample; the tail stays zero.
   */
  lemma DescrambleScramble(s: seq<real>, b: int, c: seq<real>)
    requires b != 0 && |c| == NumBlocks(|s|, b) && !HasZeroFactor(c)
    ensures Descrambled(Scrambled(s, b, c), b, c) == FullBlocks(s, b)
  {
    var x := Scrambled(s, b, c);
    var r := Descrambled(x, b, c);
    forall k | 0 <= k < |s|
      ensures r[k] == FullBlocks(s, b)[k]
    {
      if b > 0 && k < |c| * b {
        BlockIndex(k, b, |c|);
        var f := c[k / b];
        assert x == Blockwise(s, b, c, |c| * b, Mul);
        assert x[k] == Mul(s[k], f);
        assert r == Blockwise(x, b, c, |c| * b, Div);
        assert r[k] == Div(x[k], f);
        ProductQuotient(s[k], f);
      }
    }
  }

  /** `_desmear_spectrum(signal)`: `np.fft.fft` of an empty array raises ValueError before any draw. */
  method DesmearSpectrum(rng: RandomState, ops: Ops, signal: seq<real>) returns (r: Result<seq<real>>)
    modifies rng`history
    ensures |signal| == 0 ==> r == Failure(ValueError) && rng.history == old(rng.history)
    ensures |signal| > 0 ==> rng.history == old(rng.history) + Repeat(NormalDraw, |signal|)
    ensures |signal| > 0 ==> r == Success(Desmeared(ops, signal, SmearFactors(rng.gen, rng.seed, old(rng.history), |signal|)))
  {
    if |signal| == 0 {
      return Failure(ValueError);
    }
    var smear := rng.NormalArray(|signal|, 1.0, SmearStrength);
    r := Success(Desmeared(ops, signal, smear));
  }

  /** What `_descramble_phase` returns: NonFinite when some full block's factor is zero. */
  function DescrambleResult(s: seq<real>, b: int, c: seq<real>): (r: Result<seq<real>>)
    requires b != 0 && |c| == NumBlocks(|s|, b)
    ensures r.Failure? <==> HasZeroFactor(c)
    ensures r.Success? ==> r.value == Descrambled(s, b, c)
  {
    if HasZeroFactor(c) then Failure(NonFinite) else Success(Descrambled(s, b, c))
  }

  /**
   * `_descramble_phase(signal, block_size)`: one uniform draw per full block,
   * in block order, whichever factors come out.  A zero block size raises
   * ZeroDivisionError in `//`.
   */
  method DescramblePhase(rng: RandomState, ops: Ops, signal: seq<real>, blockSize: int) returns (r: Result<seq<real>>)
    modifies rng`history
    ensures blockSize == 0 ==> r == Failure(ZeroDivisionError) && rng.history == old(rng.history)
    ensures blockSize != 0 ==> rng.history == old(rng.history) + Repeat(UniformDraw, NumBlocks(|signal|, blockSize))
    ensures blockSize != 0 ==> r == DescrambleResult(signal, blockSize,
      PhaseFactors(ops, rng.gen, rng.seed, old(rng.history), NumBlocks(|signal|, blockSize)))
  {
    if blockSize == 0 {
      return Failure(ZeroDivisionError);
    }
    var numBlocks := NumBlocks(|signal|, blockSize);
    ghost var h0 := rng.history;
    ghost var c := PhaseFactors(ops, rng.gen, rng.seed, h0, numBlocks);
    var restored := new real[|signal|](_ => 0.0);
    var nonFinite := false;
    if blockSize > 0 {
      BlockwiseNone(signal, blockSize, c, Div);
    }
    for i := 0 to numBlocks
      invariant rng.history == h0 + Repeat(UniformDraw, i)
      invariant blockSize > 0 ==> restored[..] == Blockwise(signal, blockSize, c, i * blockSize, Div)
      invariant blockSize < 0 ==> restored[..] == seq(|signal|, _ => 0.0)
      invariant nonFinite <==> HasZeroFactor(c[..i])
    {
      var phaseShift := rng.Uniform(-Pi, Pi);
      var factor := ops.cos(phaseShift);
      assert factor == c[i];
      if factor == 0.0 {
        nonFinite := true;
      }
      WriteBlock(restored, signal, blockSize, c, i, factor, Div);
      RepeatSnoc(UniformDraw, i);
      ZeroFactorPrefix(c, i);
    }
    assert c[..numBlocks] == c;
    if nonFinite {
      return Failure(NonFinite);
    }
    r := Success(restored[..]);
  }

  /**
   * What `decode` returns for a generator at (seed, history): de-smear, then
   * de-scramble, then divide by the peak, with no guard for a zero peak.
   */
  function Decoded(ops: Ops, g: Generator, seed: Seed, history: seq<Draw>, signal: seq<real>): (r: Result<seq<real>>)
    ensures r.Failure? ==> r.error == ValueError || r.error == NonFinite
    ensures r.Failure? && r.error == ValueError <==> |signal| == 0
    ensures r.Success? ==> |r.value| == |signal|
  {
    if |signal| == 0 then Failure(ValueError)
    else
      var n := |signal|;
      var desmeared := Desmeared(ops, signal, SmearFactors(g, seed, history, n));
      var c := PhaseFactors(ops, g, seed, history + Repeat(NormalDraw, n), NumBlocks(n, DefaultBlockSize));
      if HasZeroFactor(c) then Failure(NonFinite)
      else
        var restored := Descrambled(desmeared, DefaultBlockSize, c);
        if MaxAbs(restored) == 0.0 then Failure(NonFinite)
        else Success(Normalized(restored))
  }

  /** `decode(signal)`. */
  method Decode(rng: RandomState, ops: Ops, signal: seq<real>) returns (r: Result<seq<real>>)
    modifies rng`history
    ensures r == Decoded(ops, rng.gen, rng.seed, old(rng.history), signal)
    ensures |signal| > 0 ==> rng.history == old(rng.history) + ObfuscateDraws(|signal|)
  {
    var desmeared :- DesmearSpectrum(rng, ops, signal);
    var restored :- DescramblePhase(rng, ops, desmeared, DefaultBlockSize);
    var maxVal := MaxAbs(restored);
    if maxVal == 0.0 {
      return Failure(NonFinite);
    }
    r := Success(Divide(restored, maxVal));
  }

  /** A decoded signal has every sample in [-1, 1] and peak exactly 1. */
  lemma DecodedPeak(ops: Ops, g: Generator, seed: Seed, history: seq<Draw>, signal: seq<real>)
    requires Decoded(ops, g, seed, history, signal).Success?
    ensures PeakAtMost(Decoded(ops, g, seed, history, signal).value, 1.0)
    ensures MaxAbs(Decoded(ops, g, seed, history, signal).value) == 1.0
  {
    var n := |signal|;
    var desmeared := Desmeared(ops, signal, SmearFactors(g, seed, history, n));
    var c := PhaseFactors(ops, g, seed, history + Repeat(NormalDraw, n), NumBlocks(n, DefaultBlockSize));
    NormalizedPeak(Descrambled(desmeared, DefaultBlockSize, c));
  }
}
