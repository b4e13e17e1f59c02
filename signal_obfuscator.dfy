/**
 * Keyed additive noise (SignalObfuscator.py).  `apply_noise` adds a noise
 * array drawn from a generator freshly seeded from the key, renormalising
 * if the sum would clip; `remove_noise` re-draws the same array and
 * subtracts it.
 */
module NoiseMask {
  import opened Errors
  import opened Signals
  import opened Rng
  import opened Primitives

  /** `SignalObfuscator(noise_key, noise_strength)` */
  datatype SignalObfuscator = SignalObfuscator(key: string, strength: real) {
    /** `_generate_seed`, computed once by the constructor */
    function Seed(ops: Ops): Seed {
      KeySeed(ops, key)
    }
  }

  /** The defaults `SignalObfuscator()`: key "OBF-369", strength 0.2. */
  const DefaultObfuscator := SignalObfuscator("OBF-369", 0.2)

  /**
   * `rng.normal(0.0, 1.0, size=n) * noise_strength` from a fresh generator:
   * sample i is the strength times the i-th standard normal draw after seeding.
   */
  function Noise(ops: Ops, o: SignalObfuscator, n: nat): (noise: seq<real>)
    ensures |noise| == n
    ensures forall i :: 0 <= i < n ==>
      noise[i] == o.strength * NormalAfter(ops.gen, o.Seed(ops), Repeat(NormalDraw, i), 0.0, 1.0)
  {
    var z := Normals(ops.gen, o.Seed(ops), [], n, 0.0, 1.0);
    assert forall i :: 0 <= i < n ==> [] + Repeat(NormalDraw, i) == Repeat(NormalDraw, i);
    Times(o.strength, z)
  }

  /** Whether `apply_noise` divides by the peak: the sum's peak exceeds 1. */
  predicate Renormalises(ops: Ops, o: SignalObfuscator, w: seq<real>)
    requires |w| > 0
  {
    MaxAbs(Add(w, Noise(ops, o, |w|))) > 1.0
  }

  /**
   * `apply_noise(waveform)`: the pair (obfuscated, noise).  `np.max` of an
   * empty array raises ValueError.
   */
  function ApplyNoise(ops: Ops, o: SignalObfuscator, w: seq<real>): (r: Result<(seq<real>, seq<real>)>)
    ensures r.Failure? <==> |w| == 0
    ensures r.Failure? ==> r.error == ValueError
    ensures r.Success? ==> |r.value.0| == |w| && r.value.1 == Noise(ops, o, |w|)
    ensures r.Success? && !Renormalises(ops, o, w) ==> r.value.0 == Add(w, r.value.1)
    ensures r.Success? && Renormalises(ops, o, w) ==>
      r.value.0 == Divide(Add(w, r.value.1), MaxAbs(Add(w, r.value.1)))
  {
    if |w| == 0 then Failure(ValueError)
    else
      var noise := Noise(ops, o, |w|);
      var obfuscated := Add(w, noise);
      var maxVal := MaxAbs(obfuscated);
      if maxVal > 1.0 then Success((Divide(obfuscated, maxVal), noise))
      else Success((obfuscated, noise))
  }

  /** `remove_noise(obfuscated)`: subtracts the noise a fresh generator draws for that length. */
  function RemoveNoise(ops: Ops, o: SignalObfuscator, x: seq<real>): (r: seq<real>)
    ensures |r| == |x|
    ensures forall i :: 0 <= i < |x| ==> r[i] == x[i] - Noise(ops, o, |x|)[i]
  {
    Sub(x, Noise(ops, o, |x|))
  }

  /**
   * The obfuscated waveform never clips: every sample lies in [-1, 1], and
   * when renormalisation fires its peak is exactly 1.
   */
  lemma ApplyNoisePeak(ops: Ops, o: SignalObfuscator, w: seq<real>)
    requires |w| > 0
    ensures PeakAtMost(ApplyNoise(ops, o, w).value.0, 1.0)
    ensures Renormalises(ops, o, w) ==> MaxAbs(ApplyNoise(ops, o, w).value.0) == 1.0
  {
    var s := Add(w, Noise(ops, o, |w|));
    if Renormalises(ops, o, w) {
      NormalizedPeak(s);
    } else {
      PeakBound(s);
    }
  }

  /** `remove_noise` subtracts exactly the noise array `apply_noise` returned for a waveform of that length. */
  lemma RemoveNoiseSameNoise(ops: Ops, o: SignalObfuscator, w: seq<real>, x: seq<real>)
    requires |w| > 0 && |x| == |w|
    ensures RemoveNoise(ops, o, x) == Sub(x, ApplyNoise(ops, o, w).value.1)
  {
  }

  /** The round trip: without renormalisation, removing the noise gives the waveform back exactly. */
  lemma RemoveApplyNoise(ops: Ops, o: SignalObfuscator, w: seq<real>)
    requires |w| > 0 && !Renormalises(ops, o, w)
    ensures RemoveNoise(ops, o, ApplyNoise(ops, o, w).value.0) == w
  {
    SubAdd(w, Noise(ops, o, |w|));
  }

  /**
   * With renormalisation the round trip never holds: `remove_noise` does not
   * undo the division by the peak, so at the peak sample it misses the waveform.
   */
  lemma RenormalisedNotRecovered(ops: Ops, o: SignalObfuscator, w: seq<real>)
    requires |w| > 0 && Renormalises(ops, o, w)
    ensures RemoveNoise(ops, o, ApplyNoise(ops, o, w).value.0) != w
  {
    var n := Noise(ops, o, |w|);
    var s := Add(w, n);
    var m := MaxAbs(s);
    var x := ApplyNoise(ops, o, w).value.0;
    assert x == Divide(s, m);
    var k := PeakIndex(s);
    assert Abs(s[k]) == m > 1.0;
    QuotientMoves(s[k], m);
    assert RemoveNoise(ops, o, x)[k] == s[k] / m - n[k] != w[k];
  }

  /** Dividing a nonzero value by a factor above 1 changes it. */
  lemma QuotientMoves(a: real, m: real)
    requires m > 1.0 && a != 0.0
    ensures a / m != a
  {
    var d := a * (1.0 - m);
    assert d != 0.0;
    assert a / m - a == d / m;
  }

  /** `remove_noise` inverts `apply_noise` exactly when `apply_noise` did not renormalise. */
  lemma RemoveApplyNoiseIff(ops: Ops, o: SignalObfuscator, w: seq<real>)
    requires |w| > 0
    ensures RemoveNoise(ops, o, ApplyNoise(ops, o, w).value.0) == w <==> !Renormalises(ops, o, w)
  {
    if Renormalises(ops, o, w) {
      RenormalisedNotRecovered(ops, o, w);
    } else {
      RemoveApplyNoise(ops, o, w);
    }
  }

  /**
   * A waveform already at peak 1, as the modulator produces, renormalises as
   * soon as the noise at its peak sample has that sample's sign.
   */
  lemma PeakOneRenormalises(ops: Ops, o: SignalObfuscator, w: seq<real>)
    requires |w| > 0 && MaxAbs(w) == 1.0
    requires var k, e := PeakIndex(w), Noise(ops, o, |w|)[PeakIndex(w)];
      (w[k] > 0.0 && e > 0.0) || (w[k] < 0.0 && e < 0.0)
    ensures Renormalises(ops, o, w)
  {
    var k := PeakIndex(w);
    var s := Add(w, Noise(ops, o, |w|));
    assert Abs(s[k]) > 1.0;
  }

  /** The factor `apply_noise` divided by: the peak of the sum when it exceeds 1, otherwise 1. */
  function MaskScale(ops: Ops, o: SignalObfuscator, w: seq<real>): (scale: real)
    requires |w| > 0
    ensures scale >= 1.0
    ensures Renormalises(ops, o, w) <==> scale > 1.0
  {
    var m := MaxAbs(Add(w, Noise(ops, o, |w|)));
    if m > 1.0 then m else 1.0
  }

  /**
   * The removal that does invert the masking: multiply back by the factor
   * `apply_noise` divided by, then subtract the keyed noise.
   */
  function RestoreNoise(ops: Ops, o: SignalObfuscator, x: seq<real>, scale: real): (r: seq<real>)
    ensures |r| == |x|
    ensures forall i :: 0 <= i < |x| ==> r[i] == scale * x[i] - Noise(ops, o, |x|)[i]
  {
    Sub(Times(scale, x), Noise(ops, o, |x|))
  }

  /** With the factor 1 the corrected removal is `remove_noise` itself. */
  lemma RestoreUnscaled(ops: Ops, o: SignalObfuscator, x: seq<real>)
    ensures RestoreNoise(ops, o, x, 1.0) == RemoveNoise(ops, o, x)
  {
    var r, q := RestoreNoise(ops, o, x, 1.0), RemoveNoise(ops, o, x);
    assert forall i :: 0 <= i < |x| ==> r[i] == q[i];
  }

  /** The corrected round trip: every nonempty waveform is recovered, renormalised or not. */
  lemma RestoreApplyNoise(ops: Ops, o: SignalObfuscator, w: seq<real>)
    requires |w| > 0
    ensures RestoreNoise(ops, o, ApplyNoise(ops, o, w).value.0, MaskScale(ops, o, w)) == w
  {
    var n := Noise(ops, o, |w|);
    var s := Add(w, n);
    var scale := MaskScale(ops, o, w);
    var x := ApplyNoise(ops, o, w).value.0;
    if Renormalises(ops, o, w) {
      assert x == Divide(s, scale);
      Rescaled(s, scale);
    } else {
      assert x == s && scale == 1.0;
      Rescaled(s, 1.0);
    }
    assert Times(scale, x) == s;
    SubAdd(w, n);
  }

  /** Multiplying back by a nonzero factor undoes the division by it. */
  lemma Rescaled(s: seq<real>, scale: real)
    requires scale != 0.0
    ensures Times(scale, Divide(s, scale)) == s
    ensures scale == 1.0 ==> Divide(s, scale) == s
  {
    var t := Times(scale, Divide(s, scale));
    forall i | 0 <= i < |s|
      ensures t[i] == s[i]
    {
      var q := s[i] / scale;
      assert q * scale == s[i];
    }
  }
}
