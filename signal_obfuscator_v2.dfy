/**
 * The two-layer obfuscator (SignalObfuscator_v2.py): spectral smearing, then
 * block phase scrambling, both drawing from numpy's global generator, which
 * here is an explicit `RandomState` the caller passes in.
 */
module Scrambler {
  import opened Errors
  import opened Signals
  import opened Rng
  import opened Primitives
  import opened Blocks

  /** The default `smear_strength`. */
  const SmearStrength: real := 0.03

  /** The default `block_size`. */
  const DefaultBlockSize: int := 1024

  /** `np.random.normal(1.0, smear_strength, size=n)` after `history`: one smear factor per FFT bin. */
  function SmearFactors(g: Generator, seed: Seed, history: seq<Draw>, n: nat): (f: seq<real>)
    ensures |f| == n
  {
    Normals(g, seed, history, n, 1.0, SmearStrength)
  }

  /** The block factors: `np.cos(np.random.uniform(-np.pi, np.pi))` once per full block, in block order. */
  function PhaseFactors(ops: Ops, g: Generator, seed: Seed, history: seq<Draw>, nb: nat): (c: seq<real>)
    ensures |c| == nb
    ensures forall i :: 0 <= i < nb ==> c[i] == ops.cos(Uniforms(g, seed, history, nb, -Pi, Pi)[i])
    ensures forall i :: 0 <= i < nb ==> -1.0 <= c[i] <= 1.0
  {
    seq(nb, i requires 0 <= i < nb => ops.cos(UniformAfter(g, seed, history + Repeat(UniformDraw, i), -Pi, Pi)))
  }

  /** `block * np.cos(phase_shift)`, sample by sample. */
  function Mul(x: real, f: real): real {
    x * f
  }

  /** What `scramble_phase` returns for the block factors c. */
  function Scrambled(s: seq<real>, b: int, c: seq<real>): (r: seq<real>)
    requires b != 0 && |c| == NumBlocks(|s|, b)
    ensures |r| == |s|
  {
    AllBlocks(s, b, c, Mul)
  }

  /** Sample j of full block i is the input sample times block i's factor. */
  lemma ScrambledBlock(s: seq<real>, b: int, c: seq<real>, i: nat, j: nat)
    requires b > 0 && |c| == NumBlocks(|s|, b) && i < |c| && j < b
    ensures i * b + j < |s| && Scrambled(s, b, c)[i * b + j] == s[i * b + j] * c[i]
  {
    AllBlocksSample(s, b, c, Mul, i, j);
  }

  /** The samples past the last full block are zero. */
  lemma ScrambledTail(s: seq<real>, b: int, c: seq<real>, k: nat)
    requires b != 0 && |c| == NumBlocks(|s|, b) && NumBlocks(|s|, b) * b <= k < |s|
    ensures Scrambled(s, b, c)[k] == 0.0
  {
    AllBlocksTail(s, b, c, Mul, k);
  }

  /** With factors in [-1, 1], as cosines are, no sample grows in magnitude. */
  lemma ScrambledBounded(s: seq<real>, b: int, c: seq<real>)
    requires b != 0 && |c| == NumBlocks(|s|, b)
    requires forall i :: 0 <= i < |c| ==> -1.0 <= c[i] <= 1.0
    ensures forall k :: 0 <= k < |s| ==> Abs(Scrambled(s, b, c)[k]) <= Abs(s[k])
  {
    var r := Scrambled(s, b, c);
    forall k | 0 <= k < |s|
      ensures Abs(r[k]) <= Abs(s[k])
    {
      if b > 0 && k < |c| * b {
        BlockIndex(k, b, |c|);
        assert r == Blockwise(s, b, c, |c| * b, Mul);
        assert r[k] == Mul(s[k], c[k / b]);
        AbsScaleAtMost(s[k], c[k / b]);
      } else {
        assert r[k] == 0.0;
      }
    }
  }

  /** `smear_spectrum(signal)`: `np.fft.fft` of an empty array raises ValueError before any draw. */
  method SmearSpectrum(rng: RandomState, ops: Ops, signal: seq<real>) returns (r: Result<seq<real>>)
    modifies rng`history
    ensures |signal| == 0 ==> r == Failure(ValueError) && rng.history == old(rng.history)
    ensures |signal| > 0 ==> rng.history == old(rng.history) + Repeat(NormalDraw, |signal|)
    ensures |signal| > 0 ==> r == Success(Smeared(ops, signal, SmearFactors(rng.gen, rng.seed, old(rng.history), |signal|)))
  {
    if |signal| == 0 {
      return Failure(ValueError);
    }
    var smear := rng.NormalArray(|signal|, 1.0, SmearStrength);
    r := Success(Smeared(ops, signal, smear));
  }

  /**
   * `scramble_phase(signal, block_size)`: one uniform draw per full block, in
   * block order, each block written into a zeroed buffer.  A zero block size
   * raises ZeroDivisionError in `//`.
   */
  method ScramblePhase(rng: RandomState, ops: Ops, signal: seq<real>, blockSize: int) returns (r: Result<seq<real>>)
    modifies rng`history
    ensures blockSize == 0 ==> r == Failure(ZeroDivisionError) && rng.history == old(rng.history)
    ensures blockSize != 0 ==> rng.history == old(rng.history) + Repeat(UniformDraw, NumBlocks(|signal|, blockSize))
    ensures blockSize != 0 ==> r == Success(Scrambled(signal, blockSize,
      PhaseFactors(ops, rng.gen, rng.seed, old(rng.history), NumBlocks(|signal|, blockSize))))
  {
    if blockSize == 0 {
      return Failure(ZeroDivisionError);
    }
    var numBlocks := NumBlocks(|signal|, blockSize);
    ghost var h0 := rng.history;
    ghost var c := PhaseFactors(ops, rng.gen, rng.seed, h0, numBlocks);
    var scrambled := new real[|signal|](_ => 0.0);
    if blockSize > 0 {
      BlockwiseNone(signal, blockSize, c, Mul);
    }
    for i := 0 to numBlocks
      invariant rng.history == h0 + Repeat(UniformDraw, i)
      invariant blockSize > 0 ==> scrambled[..] == Blockwise(signal, blockSize, c, i * blockSize, Mul)
      invariant blockSize < 0 ==> scrambled[..] == seq(|signal|, _ => 0.0)
    {
      var phaseShift := rng.Uniform(-Pi, Pi);
      var factor := ops.cos(phaseShift);
      assert factor == c[i];
      WriteBlock(scrambled, signal, blockSize, c, i, factor, Mul);
      RepeatSnoc(UniformDraw, i);
    }
    r := Success(scrambled[..]);
  }

  /** What `obfuscate` returns for a generator at (seed, history): scramble(smear(signal)). */
  function Obfuscated(ops: Ops, g: Generator, seed: Seed, history: seq<Draw>, signal: seq<real>): (r: Result<seq<real>>)
    ensures r.Failure? <==> |signal| == 0
    ensures r.Failure? ==> r.error == ValueError
    ensures r.Success? ==> |r.value| == |signal|
  {
    if |signal| == 0 then Failure(ValueError)
    else
      var n := |signal|;
      var smeared := Smeared(ops, signal, SmearFactors(g, seed, history, n));
      Success(Scrambled(smeared, DefaultBlockSize,
        PhaseFactors(ops, g, seed, history + Repeat(NormalDraw, n), NumBlocks(n, DefaultBlockSize))))
  }

  /** The draws `obfuscate` makes: one normal per FFT bin, then one uniform per full block. */
  function ObfuscateDraws(n: nat): seq<Draw> {
    Repeat(NormalDraw, n) + Repeat(UniformDraw, NumBlocks(n, DefaultBlockSize))
  }

  /** `obfuscate(signal)`: `scramble_phase(smear_spectrum(signal))`. */
  method Obfuscate(rng: RandomState, ops: Ops, signal: seq<real>) returns (r: Result<seq<real>>)
    modifies rng`history
    ensures r == Obfuscated(ops, rng.gen, rng.seed, old(rng.history), signal)
    ensures |signal| > 0 ==> rng.history == old(rng.history) + ObfuscateDraws(|signal|)
  {
    var smeared :- SmearSpectrum(rng, ops, signal);
    r := ScramblePhase(rng, ops, smeared, DefaultBlockSize);
  }

  /** The obfuscated signal never exceeds the smeared one in magnitude, sample by sample. */
  lemma ObfuscatedBounded(ops: Ops, g: Generator, seed: Seed, history: seq<Draw>, signal: seq<real>)
    requires |signal| > 0
    ensures var smeared := Smeared(ops, signal, SmearFactors(g, seed, history, |signal|));
      forall k :: 0 <= k < |signal| ==> Abs(Obfuscated(ops, g, seed, history, signal).value[k]) <= Abs(smeared[k])
  {
    var n := |signal|;
    var smeared := Smeared(ops, signal, SmearFactors(g, seed, history, n));
    ScrambledBounded(smeared, DefaultBlockSize, PhaseFactors(ops, g, seed, history + Repeat(NormalDraw, n), NumBlocks(n, DefaultBlockSize)));
  }
}
