/**
 * The beam modulator (FieldModulator.py): one sinusoid per harmonic entry,
 * at base_freq * h with phase pi * (h % 3), summed over the time axis and
 * divided by the peak when the peak is positive.
 */
module Modulation {
  import opened Errors
  import opened Signals
  import opened Primitives
  import opened Synthesis
  import opened Encryption

  /** `FieldModulator(base_freq, sample_rate, duration)` */
  datatype FieldModulator = FieldModulator(baseFreq: real, sampleRate: real, duration: real)

  /** The defaults `FieldModulator()`: 111 Hz, 44100 Hz, one second. */
  const DefaultModulator := FieldModulator(111.0, 44100.0, 1.0)

  /** `np.pi * (harmonic % 3)`: 0 for multiples of 3, pi for h % 3 == 1 and 2 pi for h % 3 == 2. */
  function PhaseShift(h: int): (p: real)
    ensures h % 3 == 0 <==> p == 0.0
    ensures h % 3 == 1 <==> p == Pi
    ensures h % 3 == 2 <==> p == 2.0 * Pi
  {
    Pi * (h % 3) as real
  }

  /** The sinusoid entry (h, amp) contributes. */
  function EntryTone(m: FieldModulator, entry: (int, real)): (c: Component)
    ensures c.amplitude == entry.1 && c.freq == m.baseFreq * entry.0 as real && c.phase == PhaseShift(entry.0)
  {
    Component(entry.1, m.baseFreq * entry.0 as real, PhaseShift(entry.0))
  }

  /** The vector's sinusoids in its iteration order. */
  function Components(m: FieldModulator, v: HarmonicVector): (cs: seq<Component>)
    ensures |cs| == |v| && forall i :: 0 <= i < |v| ==> cs[i] == EntryTone(m, v[i])
  {
    seq(|v|, i requires 0 <= i < |v| => EntryTone(m, v[i]))
  }

  /**
   * What `modulate` returns.  `np.max` of an empty waveform raises
   * ValueError; a zero peak leaves the waveform undivided.
   */
  function Modulated(ops: Ops, m: FieldModulator, v: HarmonicVector): (r: Result<seq<real>>)
    ensures r.Failure? <==> SampleCount(m.sampleRate, m.duration) <= 0
    ensures r.Failure? ==> r.error == ValueError
    ensures r.Success? ==> |r.value| == SampleCount(m.sampleRate, m.duration)
  {
    var axis := TimeAxis(m.sampleRate, m.duration);
    if axis.Failure? || |axis.value| == 0 then Failure(ValueError)
    else Success(PeakRescaled(Superposition(ops, axis.value, Components(m, v))))
  }

  /** `waveform / max_val` when the peak is positive, the waveform itself otherwise. */
  function PeakRescaled(w: seq<real>): (r: seq<real>)
    requires |w| > 0
    ensures |r| == |w|
  {
    if MaxAbs(w) > 0.0 then Normalized(w) else w
  }

  /** `modulate(harmonic_vector)`: `waveform +=` once per entry, then the rescale. */
  method Modulate(ops: Ops, m: FieldModulator, v: HarmonicVector) returns (r: Result<seq<real>>)
    ensures r == Modulated(ops, m, v)
  {
    var t :- TimeAxis(m.sampleRate, m.duration);
    var waveform := Zeros(|t|);
    ghost var cs := Components(m, v);
    for i := 0 to |v|
      invariant waveform == Superposition(ops, t, cs[..i])
    {
      var (harmonic, amplitude) := v[i];
      var freq := m.baseFreq * harmonic as real;
      var phaseShift := PhaseShift(harmonic);
      assert Component(amplitude, freq, phaseShift) == cs[i];
      SuperpositionSnoc(ops, t, cs[..i], cs[i]);
      assert cs[..i + 1] == cs[..i] + [cs[i]];
      waveform := Add(waveform, Tone(ops, t, Component(amplitude, freq, phaseShift)));
    }
    assert cs[..|v|] == cs;
    if |waveform| == 0 {
      return Failure(ValueError);
    }
    var maxVal := MaxAbs(waveform);
    if maxVal > 0.0 {
      waveform := Divide(waveform, maxVal);
    }
    r := Success(waveform);
  }

  /**
   * The modulated waveform never clips: every sample lies in [-1, 1], and
   * when some sample is nonzero before the rescale the peak is exactly 1.
   */
  lemma ModulatedPeak(ops: Ops, m: FieldModulator, v: HarmonicVector)
    requires Modulated(ops, m, v).Success?
    ensures PeakAtMost(Modulated(ops, m, v).value, 1.0)
    ensures var w := Superposition(ops, TimeAxis(m.sampleRate, m.duration).value, Components(m, v));
      MaxAbs(w) > 0.0 ==> MaxAbs(Modulated(ops, m, v).value) == 1.0
  {
    var w := Superposition(ops, TimeAxis(m.sampleRate, m.duration).value, Components(m, v));
    if MaxAbs(w) > 0.0 {
      NormalizedPeak(w);
    } else {
      PeakBound(w);
    }
  }

  /** With every amplitude zero, or no entry at all, the waveform is all zeros and nothing is divided. */
  lemma SilentModulation(ops: Ops, m: FieldModulator, v: HarmonicVector)
    requires Modulated(ops, m, v).Success?
    requires forall i :: 0 <= i < |v| ==> v[i].1 == 0.0
    ensures Modulated(ops, m, v).value == Zeros(SampleCount(m.sampleRate, m.duration))
  {
    var t := TimeAxis(m.sampleRate, m.duration).value;
    SilentSuperposition(ops, t, Components(m, v));
    assert MaxAbs(Zeros(|t|)) <= 0.0 by {
      var z := Zeros(|t|);
      assert Abs(z[PeakIndex(z)]) == 0.0;
    }
  }
}
