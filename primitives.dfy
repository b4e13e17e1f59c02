/**
 * The numerical and cryptographic routines the transforms call but that this
 * model does not define: sine and cosine, the FFT-based array operations,
 * SHA-256 and the generator algorithm.  Each is an uninterpreted
 * deterministic function, one field of `Ops`; every operation of the model
 * that needs them takes the record as a parameter.
 */
module Primitives {
  import opened Signals
  import opened Text
  import opened Rng

  /** `np.pi`: the double nearest to pi. */
  const Pi: real := 3.141592653589793

  type Magnitude = r: real | r >= 0.0

  /** A SHA-256 digest: 32 bytes. */
  type Digest = d: seq<byte> | |d| == 32 witness seq(32, _ => 0)

  /**
   * An FFT round trip of a signal s with one factor per bin, given sample by
   * sample: `op(s, g, k)` is sample k of the result, which has the length of s.
   */
  type SpectralOp = (seq<real>, seq<real>, nat) -> real

  /** An FFT magnitude spectrum, bin by bin: `op(s, k)` is `abs(fft(s))[k]`. */
  type MagnitudeOp = (seq<real>, nat) -> Magnitude

  datatype Ops = Ops(
    sin: real -> Bounded,
    cos: real -> Bounded,
    /** `hashlib.sha256(s.encode()).digest()`: SHA-256 of the UTF-8 encoding of s. */
    sha256: string -> Digest,
    /** the generator algorithm behind `np.random` */
    gen: Generator,
    /** `np.abs(fft(s))`, bin by bin */
    magnitude: MagnitudeOp,
    /** `np.real(ifft(g * abs(F) * exp(1j * angle(F))))` with F = `fft(s)`: bin k scaled by g[k] */
    smear: SpectralOp,
    /** `np.real(ifft((abs(F) / g) * exp(1j * angle(F))))` with F = `fft(s)`: bin k divided by g[k] */
    desmear: SpectralOp,
    /** `np.mean(np.rad2deg(np.unwrap(angle(fft(b)) - angle(fft(a)))))`, before the `% 360` */
    meanPhaseDiff: (seq<real>, seq<real>) -> real)

  /** `np.abs(fft(s))`: one non-negative magnitude per bin. */
  function Spectrum(ops: Ops, s: seq<real>): (m: seq<real>)
    ensures |m| == |s| && forall k :: 0 <= k < |m| ==> m[k] >= 0.0
  {
    var m := seq(|s|, k requires 0 <= k < |s| => ops.magnitude(s, k));
    assert forall k :: 0 <= k < |m| ==> m[k] == ops.magnitude(s, k) >= 0.0;
    m
  }

  /** The smearing round trip `ifft(g * fft(s))`, real part. */
  function Smeared(ops: Ops, s: seq<real>, g: seq<real>): (r: seq<real>)
    ensures |r| == |s|
  {
    seq(|s|, k requires 0 <= k < |s| => ops.smear(s, g, k))
  }

  /** The unsmearing round trip `ifft(fft(s) / g)`, real part. */
  function Desmeared(ops: Ops, s: seq<real>, g: seq<real>): (r: seq<real>)
    ensures |r| == |s|
  {
    seq(|s|, k requires 0 <= k < |s| => ops.desmear(s, g, k))
  }

  /**
   * The generator seed derived from a secret: the first four bytes of the
   * SHA-256 digest of the secret, read as a big-endian unsigned integer.
   */
  function KeySeed(ops: Ops, key: string): (seed: Seed)
    ensures var d := ops.sha256(key);
      seed == d[0] as int * 0x100_0000 + d[1] as int * 0x1_0000 + d[2] as int * 0x100 + d[3] as int
  {
    var d := ops.sha256(key);
    BigEndianFour(d[..4]);
    assert Pow256(4) == 0x1_0000_0000;
    BigEndian(d[..4])
  }
}
