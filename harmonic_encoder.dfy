/**
 * The harmonic signature extractor (HarmonicEncoder.py): a Hann-windowed
 * magnitude spectrum, restricted to positive frequencies; the fundamental is
 * the strongest bin below 1000 Hz, and for each target multiple 3, 6, 9 the
 * amplitude of the bin nearest to fundamental * multiple is reported.
 */
module Encoding {
  import opened Errors
  import opened Signals
  import opened Primitives
  import opened Spectra
  import opened Encryption

  /** The argument `encode` receives: a numpy array, or anything else. */
  datatype PyValue = NdArray(samples: seq<real>) | NotArray

  /** `HarmonicEncoder(sample_rate)` */
  datatype HarmonicEncoder = HarmonicEncoder(sampleRate: real)

  /** The default `HarmonicEncoder()`: 44100 Hz. */
  const DefaultEncoder := HarmonicEncoder(44100.0)

  /** `target_harmonics` */
  const Targets: seq<int> := [3, 6, 9]

  /** The band `_estimate_fundamental` searches: below 1000 Hz. */
  const LowBandLimit: real := 1000.0

  /** `freqs > 0` */
  function PositiveMask(freqs: seq<real>): (m: seq<bool>)
    ensures |m| == |freqs| && forall k :: 0 <= k < |freqs| ==> (m[k] <==> freqs[k] > 0.0)
  {
    seq(|freqs|, k requires 0 <= k < |freqs| => freqs[k] > 0.0)
  }

  /** `freqs < 1000` */
  function LowMask(freqs: seq<real>): (m: seq<bool>)
    ensures |m| == |freqs| && forall k :: 0 <= k < |freqs| ==> (m[k] <==> freqs[k] < LowBandLimit)
  {
    seq(|freqs|, k requires 0 <= k < |freqs| => freqs[k] < LowBandLimit)
  }

  /** Some bin lies below 1000 Hz. */
  predicate HasLowBin(freqs: seq<real>) {
    exists k :: 0 <= k < |freqs| && freqs[k] < LowBandLimit
  }

  /** The bin `_estimate_fundamental` picks: the first bin below 1000 Hz of largest magnitude there. */
  function FundamentalBin(freqs: seq<real>, spectrum: seq<real>): (j: nat)
    requires |freqs| == |spectrum| && HasLowBin(freqs)
    ensures j < |freqs| && freqs[j] < LowBandLimit
    ensures forall k :: 0 <= k < |freqs| && freqs[k] < LowBandLimit ==> spectrum[k] <= spectrum[j]
    ensures forall k :: 0 <= k < j && freqs[k] < LowBandLimit ==> spectrum[k] < spectrum[j]
  {
    var low := Where(LowMask(freqs));
    var k0 :| 0 <= k0 < |freqs| && freqs[k0] < LowBandLimit;
    assert k0 in low;
    var i := ArgMax(Select(spectrum, low));
    var j := low[i];
    assert forall k :: 0 <= k < |freqs| && freqs[k] < LowBandLimit ==> k in low;
    FirstInBand(freqs, spectrum, low, i);
    j
  }

  lemma FirstInBand(freqs: seq<real>, spectrum: seq<real>, low: seq<nat>, i: nat)
    requires |freqs| == |spectrum| && i < |low|
    requires forall t :: 0 <= t < |low| ==> low[t] < |spectrum|
    requires forall a, b :: 0 <= a < b < |low| ==> low[a] < low[b]
    requires forall k :: 0 <= k < |freqs| && freqs[k] < LowBandLimit ==> k in low
    requires forall t :: 0 <= t < i ==> spectrum[low[t]] < spectrum[low[i]]
    ensures forall k :: 0 <= k < low[i] && freqs[k] < LowBandLimit ==> spectrum[k] < spectrum[low[i]]
  {
    forall k | 0 <= k < low[i] && freqs[k] < LowBandLimit
      ensures spectrum[k] < spectrum[low[i]]
    {
      assert k in low;
      var t :| 0 <= t < |low| && low[t] == k;
      assert t < i;
    }
  }

  /** `_estimate_fundamental(freqs, spectrum)`: `np.argmax` of an empty band raises ValueError. */
  function EstimateFundamental(freqs: seq<real>, spectrum: seq<real>): (r: Result<real>)
    requires |freqs| == |spectrum|
    ensures r.Failure? <==> !HasLowBin(freqs)
    ensures r.Failure? ==> r.error == ValueError
    ensures r.Success? ==> r.value < LowBandLimit
  {
    if HasLowBin(freqs) then Success(freqs[FundamentalBin(freqs, spectrum)]) else Failure(ValueError)
  }

  /** The positive-frequency bins and their magnitudes: `freqs[freqs > 0]`, `spectrum[freqs > 0]`. */
  datatype Band = Band(freqs: seq<real>, spectrum: seq<real>)

  /**
   * The analysis before the fundamental: Hann window, magnitude spectrum and
   * bin frequencies kept where positive.  An empty array makes the FFT raise
   * ValueError; a zero sample rate makes `1.0 / sample_rate` raise ZeroDivisionError.
   */
  function PositiveBand(ops: Ops, e: HarmonicEncoder, w: seq<real>): (r: Result<Band>)
    ensures r.Failure? <==> |w| == 0 || e.sampleRate == 0.0
    ensures r.Failure? ==> r.error == (if |w| == 0 then ValueError else ZeroDivisionError)
    ensures r.Success? ==> |r.value.freqs| == |r.value.spectrum|
    ensures r.Success? ==> forall i :: 0 <= i < |r.value.freqs| ==> r.value.freqs[i] > 0.0 && r.value.spectrum[i] >= 0.0
  {
    if |w| == 0 then Failure(ValueError)
    else if e.sampleRate == 0.0 then Failure(ZeroDivisionError)
    else
      var spectrum := Spectrum(ops, Product(w, HannWindow(ops, |w|)));
      var freqs := FftFreqs(|w|, e.sampleRate);
      var pos := Where(PositiveMask(freqs));
      Success(Band(Select(freqs, pos), Select(spectrum, pos)))
  }

  /** The amplitude reported for one multiple: the magnitude of the bin nearest to fundamental * multiple. */
  function Amplitude(band: Band, fundamental: real, multiplier: int): real
    requires 0 < |band.freqs| == |band.spectrum|
  {
    band.spectrum[NearestBin(band.freqs, fundamental * multiplier as real)]
  }

  /** The signature for a band and its fundamental: one (multiple, amplitude) entry per target, in order. */
  function Signature(band: Band, fundamental: real): (v: HarmonicVector)
    requires 0 < |band.freqs| == |band.spectrum|
    ensures |v| == |Targets| && forall i :: 0 <= i < |Targets| ==> v[i].0 == Targets[i]
  {
    seq(|Targets|, i requires 0 <= i < |Targets| => (Targets[i], Amplitude(band, fundamental, Targets[i])))
  }

  lemma SignatureEntry(band: Band, fundamental: real, i: nat)
    requires 0 < |band.freqs| == |band.spectrum| && i < |Targets|
    ensures Signature(band, fundamental)[i] ==
      (Targets[i], band.spectrum[NearestBin(band.freqs, fundamental * Targets[i] as real)])
  {
  }

  /** What `encode` returns. */
  function Encoded(ops: Ops, e: HarmonicEncoder, waveform: PyValue): (r: Result<HarmonicVector>)
    ensures waveform.NotArray? ==> r == Failure(TypeError)
    ensures r.Success? ==> |r.value| == |Targets| && forall i :: 0 <= i < |Targets| ==> r.value[i].0 == Targets[i]
  {
    if waveform.NotArray? then Failure(TypeError)
    else
      var band := PositiveBand(ops, e, waveform.samples);
      if band.Failure? then Failure(band.error)
      else if !HasLowBin(band.value.freqs) then Failure(ValueError)
      else
        var fundamental := EstimateFundamental(band.value.freqs, band.value.spectrum).value;
        Success(Signature(band.value, fundamental))
  }

  /** `encode(waveform)`: the dict filled for each target multiple in turn. */
  method Encode(ops: Ops, e: HarmonicEncoder, waveform: PyValue) returns (r: Result<HarmonicVector>)
    ensures r == Encoded(ops, e, waveform)
  {
    if waveform.NotArray? {
      return Failure(TypeError);
    }
    var band :- PositiveBand(ops, e, waveform.samples);
    var baseFreq :- EstimateFundamental(band.freqs, band.spectrum);
    var harmonicVector := FillSignature(band, baseFreq);
    r := Success(harmonicVector);
  }

  /** The loop of `encode`: for each target multiple, the magnitude of the nearest bin goes into the dict. */
  method FillSignature(band: Band, baseFreq: real) returns (harmonicVector: HarmonicVector)
    requires 0 < |band.freqs| == |band.spectrum|
    ensures harmonicVector == Signature(band, baseFreq)
  {
    ghost var expected := Signature(band, baseFreq);
    harmonicVector := [];
    for i := 0 to |Targets|
      invariant harmonicVector == expected[..i]
    {
      var multiplier := Targets[i];
      var idx := NearestBin(band.freqs, baseFreq * Targets[i] as real);
      AddTarget(band, baseFreq, harmonicVector, i);
      harmonicVector := Put(harmonicVector, Targets[i], band.spectrum[idx]);
    }
    assert expected[..|Targets|] == expected;
  }

  /** Adding target i to the dict built for the targets before it extends the signature by one entry. */
  lemma AddTarget(band: Band, fundamental: real, v: HarmonicVector, i: nat)
    requires 0 < |band.freqs| == |band.spectrum| && i < |Targets|
    requires v == Signature(band, fundamental)[..i]
    ensures Put(v, Targets[i], band.spectrum[NearestBin(band.freqs, fundamental * Targets[i] as real)])
      == Signature(band, fundamental)[..i + 1]
  {
    var expected := Signature(band, fundamental);
    SignatureEntry(band, fundamental, i);
    NewTarget(v, i);
    PutNew(v, Targets[i], band.spectrum[NearestBin(band.freqs, fundamental * Targets[i] as real)]);
    assert expected[..i + 1] == expected[..i] + [expected[i]];
  }

  /** A vector keyed by the targets in order has distinct keys, as a dict must. */
  lemma TargetKeysDistinct(v: HarmonicVector)
    requires |v| == |Targets| && forall i :: 0 <= i < |Targets| ==> v[i].0 == Targets[i]
    ensures DistinctKeys(v)
  {
    assert v[0].0 == 3 && v[1].0 == 6 && v[2].0 == 9;
  }

  /** The targets are distinct, so each one is new to the dict when it is added. */
  lemma NewTarget(v: HarmonicVector, i: nat)
    requires i < |Targets| && |v| == i && forall t :: 0 <= t < i ==> v[t].0 == Targets[t]
    ensures !HasKey(v, Targets[i])
  {
  }

  /**
   * Every reported amplitude is a non-negative magnitude of a positive-frequency
   * bin, the one nearest to fundamental * multiple (the first on ties).
   */
  lemma EncodedAmplitudes(ops: Ops, e: HarmonicEncoder, waveform: PyValue, i: nat)
    requires Encoded(ops, e, waveform).Success? && i < |Targets|
    ensures var band := PositiveBand(ops, e, waveform.samples).value;
      var target := EstimateFundamental(band.freqs, band.spectrum).value * Targets[i] as real;
      var k := NearestBin(band.freqs, target);
      Encoded(ops, e, waveform).value[i].1 == band.spectrum[k] >= 0.0 && band.freqs[k] > 0.0 &&
      forall j :: 0 <= j < |band.freqs| ==> Abs(band.freqs[k] - target) <= Abs(band.freqs[j] - target)
  {
    var band := PositiveBand(ops, e, waveform.samples).value;
    var fundamental := EstimateFundamental(band.freqs, band.spectrum).value;
    assert Encoded(ops, e, waveform).value == Signature(band, fundamental);
    SignatureEntry(band, fundamental, i);
  }
}
