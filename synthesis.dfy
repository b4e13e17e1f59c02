/**
 * Waveform synthesis shared by the field modulator and the Tesla signal
 * encoder: the sample-time axis of `np.linspace(..., endpoint=False)` and a
 * sum of sinusoids `amp * sin(2 pi f t + phase)`.
 */
module Synthesis {
  import opened Errors
  import opened Signals
  import opened Primitives

  /** `int(sample_rate * duration)`: the number of samples of a time axis. */
  function SampleCount(sampleRate: real, duration: real): int {
    Trunc(sampleRate * duration)
  }

  /**
   * `np.linspace(0, duration, int(sample_rate * duration), endpoint=False)`:
   * n = int(sample_rate * duration) points k * (duration / n); numpy raises
   * ValueError for a negative n.
   */
  function TimeAxis(sampleRate: real, duration: real): (r: Result<seq<real>>)
    ensures r.Failure? <==> SampleCount(sampleRate, duration) < 0
    ensures r.Failure? ==> r.error == ValueError
    ensures r.Success? ==> |r.value| == SampleCount(sampleRate, duration)
    ensures r.Success? && |r.value| > 0 ==> r.value[0] == 0.0
  {
    var n := SampleCount(sampleRate, duration);
    if n < 0 then Failure(ValueError)
    else Success(seq(n, k requires 0 <= k < n => k as real * (duration / n as real)))
  }

  /** When sample_rate * duration is a whole number, consecutive points are 1 / sample_rate apart. */
  lemma TimeAxisStep(sampleRate: real, duration: real, k: nat)
    requires sampleRate > 0.0 && (sampleRate * duration).Floor as real == sampleRate * duration
    requires TimeAxis(sampleRate, duration).Success? && k + 1 < |TimeAxis(sampleRate, duration).value|
    ensures var t := TimeAxis(sampleRate, duration).value;
      t[k + 1] - t[k] == 1.0 / sampleRate
  {
    var n := SampleCount(sampleRate, duration);
    var step := duration / n as real;
    var t := TimeAxis(sampleRate, duration).value;
    assert n as real == sampleRate * duration;
    assert t[k + 1] - t[k] == (k + 1) as real * step - k as real * step;
    assert (k + 1) as real * step - k as real * step == step;
    StepIsPeriod(sampleRate, duration, n as real);
  }

  /** The points lie in [0, duration): the axis starts at 0 and stops before the endpoint. */
  lemma TimeAxisExcludesEnd(sampleRate: real, duration: real, k: nat)
    requires duration > 0.0 && TimeAxis(sampleRate, duration).Success? && k < |TimeAxis(sampleRate, duration).value|
    ensures 0.0 <= TimeAxis(sampleRate, duration).value[k] < duration
  {
    var n := |TimeAxis(sampleRate, duration).value|;
    var step := duration / n as real;
    assert step * n as real == duration;
    assert step > 0.0;
    ScaleOrder(k as real, n as real, step);
    assert TimeAxis(sampleRate, duration).value[k] == k as real * step;
  }

  lemma StepIsPeriod(sampleRate: real, duration: real, n: real)
    requires sampleRate > 0.0 && n > 0.0 && n == sampleRate * duration
    ensures duration / n == 1.0 / sampleRate
  {
    assert duration == n / sampleRate;
  }

  /** One sinusoid: amplitude, frequency in Hz and phase in radians. */
  datatype Component = Component(amplitude: real, freq: real, phase: real)

  /** `amplitude * np.sin(2 * np.pi * freq * x + phase)` at one time x. */
  function Sample(ops: Ops, c: Component, x: real): real {
    c.amplitude * ops.sin(2.0 * Pi * c.freq * x + c.phase)
  }

  /** The component's sinusoid over the time axis. */
  function Tone(ops: Ops, t: seq<real>, c: Component): (w: seq<real>)
    ensures |w| == |t|
    ensures forall k :: 0 <= k < |t| ==> w[k] == Sample(ops, c, t[k])
  {
    seq(|t|, k requires 0 <= k < |t| => Sample(ops, c, t[k]))
  }

  /** `np.zeros_like(t)` with each component's tone added in turn. */
  function Superposition(ops: Ops, t: seq<real>, cs: seq<Component>): (w: seq<real>)
    ensures |w| == |t|
  {
    if |cs| == 0 then Zeros(|t|)
    else Add(Superposition(ops, t, cs[..|cs| - 1]), Tone(ops, t, cs[|cs| - 1]))
  }

  /** Adding one more component's tone. */
  lemma SuperpositionSnoc(ops: Ops, t: seq<real>, cs: seq<Component>, c: Component)
    ensures Superposition(ops, t, cs + [c]) == Add(Superposition(ops, t, cs), Tone(ops, t, c))
  {
    assert (cs + [c])[..|cs|] == cs;
  }

  /** Components of amplitude zero leave the waveform at zero. */
  lemma {:induction false} SilentSuperposition(ops: Ops, t: seq<real>, cs: seq<Component>)
    requires forall i :: 0 <= i < |cs| ==> cs[i].amplitude == 0.0
    ensures Superposition(ops, t, cs) == Zeros(|t|)
  {
    if |cs| > 0 {
      var init := cs[..|cs| - 1];
      assert forall i :: 0 <= i < |init| ==> init[i] == cs[i];
      SilentSuperposition(ops, t, init);
      var w := Superposition(ops, t, cs);
      assert forall k :: 0 <= k < |t| ==> w[k] == 0.0;
    }
  }
}
