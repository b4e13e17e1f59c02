/**
 * The layered 3-6-9 signal generator (TeslaSignalEncoder_v2.py): harmonics
 * 3, 6, 9 and 12 of 111 Hz at amplitudes 1/h, all sharing one phase shift,
 * summed over a time axis fixed at construction and divided by the peak;
 * and the Gankyil triple of three such signals at 0, 2 pi / 3 and 4 pi / 3.
 */
module TeslaEncoder {
  import opened Errors
  import opened Signals
  import opened Primitives
  import opened Synthesis

  /** `TeslaSignalEncoderV2(sample_rate, duration)` */
  datatype TeslaSignalEncoderV2 = TeslaSignalEncoderV2(sampleRate: real, duration: real) {
    /** The constructor builds the time axis, and raises ValueError when its length is negative. */
    predicate Constructible() {
      TimeAxis(sampleRate, duration).Success?
    }

    /** `self.time` */
    function Time(): (t: seq<real>)
      requires Constructible()
      ensures |t| == SampleCount(sampleRate, duration)
    {
      TimeAxis(sampleRate, duration).value
    }
  }

  /** The defaults `TeslaSignalEncoderV2()`: 44100 Hz, one second. */
  const DefaultTeslaEncoder := TeslaSignalEncoderV2(44100.0, 1.0)

  /** `self.base_freq` */
  const BaseFreq: real := 111.0

  /** `self.harmonics` */
  const Harmonics: seq<int> := [3, 6, 9, 12]

  /** The layer of harmonic h: amplitude 1 / h, frequency 111 * h, the common phase shift. */
  function Layer(h: int, phaseShift: real): (c: Component)
    requires h > 0
    ensures c.amplitude * h as real == 1.0 && c.freq == BaseFreq * h as real && c.phase == phaseShift
  {
    Component(1.0 / h as real, BaseFreq * h as real, phaseShift)
  }

  /** The four layers in the order the loop adds them. */
  function Layers(phaseShift: real): (cs: seq<Component>)
    ensures |cs| == |Harmonics| && forall i :: 0 <= i < |Harmonics| ==> cs[i] == Layer(Harmonics[i], phaseShift)
  {
    seq(|Harmonics|, i requires 0 <= i < |Harmonics| => Layer(Harmonics[i], phaseShift))
  }

  /**
   * What `generate_signal(phase_shift)` returns.  `np.max` of an empty
   * waveform raises ValueError; a zero peak is divided by anyway, which makes
   * numpy produce nan (NonFinite).
   */
  function GeneratedSignal(ops: Ops, e: TeslaSignalEncoderV2, phaseShift: real): (r: Result<seq<real>>)
    requires e.Constructible()
    ensures r.Failure? ==> r.error == ValueError || r.error == NonFinite
    ensures r.Failure? && r.error == ValueError <==> |e.Time()| == 0
    ensures r.Success? ==> |r.value| == |e.Time()|
  {
    var t := e.Time();
    if |t| == 0 then Failure(ValueError)
    else
      var w := Superposition(ops, t, Layers(phaseShift));
      if MaxAbs(w) == 0.0 then Failure(NonFinite) else Success(Normalized(w))
  }

  /** `generate_signal(phase_shift)`: `waveform +=` once per harmonic, then `waveform /= peak`. */
  method GenerateSignal(ops: Ops, e: TeslaSignalEncoderV2, phaseShift: real) returns (r: Result<seq<real>>)
    requires e.Constructible()
    ensures r == GeneratedSignal(ops, e, phaseShift)
  {
    var t := e.Time();
    var waveform := Zeros(|t|);
    ghost var cs := Layers(phaseShift);
    for i := 0 to |Harmonics|
      invariant waveform == Superposition(ops, t, cs[..i])
    {
      var h := Harmonics[i];
      var harmonicFreq := BaseFreq * h as real;
      var amplitude := 1.0 / h as real;
      assert Component(amplitude, harmonicFreq, phaseShift) == cs[i];
      SuperpositionSnoc(ops, t, cs[..i], cs[i]);
      assert cs[..i + 1] == cs[..i] + [cs[i]];
      waveform := Add(waveform, Tone(ops, t, Component(amplitude, harmonicFreq, phaseShift)));
    }
    assert cs[..|Harmonics|] == cs;
    if |waveform| == 0 {
      return Failure(ValueError);
    }
    var peak := MaxAbs(waveform);
    if peak == 0.0 {
      return Failure(NonFinite);
    }
    r := Success(Divide(waveform, peak));
  }

  /** A generated signal has every sample in [-1, 1] and peak exactly 1. */
  lemma GeneratedPeak(ops: Ops, e: TeslaSignalEncoderV2, phaseShift: real)
    requires e.Constructible() && GeneratedSignal(ops, e, phaseShift).Success?
    ensures PeakAtMost(GeneratedSignal(ops, e, phaseShift).value, 1.0)
    ensures MaxAbs(GeneratedSignal(ops, e, phaseShift).value) == 1.0
  {
    NormalizedPeak(Superposition(ops, e.Time(), Layers(phaseShift)));
  }

  /** The dict `{'X': ..., 'Y': ..., 'Z': ...}` of three signals. */
  datatype GankyilTriple = GankyilTriple(x: seq<real>, y: seq<real>, z: seq<real>)

  /** The three phase shifts of the triple: 0, 2 pi / 3, 4 pi / 3. */
  const ShiftX: real := 0.0
  const ShiftY: real := 2.0 * Pi / 3.0
  const ShiftZ: real := 4.0 * Pi / 3.0

  /**
   * `generate_gankyil_triple()`: the signal at each of the three shifts,
   * built in the order X, Y, Z, so the first failure is the one raised.
   */
  function GankyilTripleOf(ops: Ops, e: TeslaSignalEncoderV2): (r: Result<GankyilTriple>)
    requires e.Constructible()
    ensures r.Success? ==> GeneratedSignal(ops, e, ShiftX) == Success(r.value.x)
    ensures r.Success? ==> GeneratedSignal(ops, e, ShiftY) == Success(r.value.y)
    ensures r.Success? ==> GeneratedSignal(ops, e, ShiftZ) == Success(r.value.z)
    ensures r.Success? ==> |r.value.x| == |r.value.y| == |r.value.z| == SampleCount(e.sampleRate, e.duration)
    ensures r.Failure? ==> (GeneratedSignal(ops, e, ShiftX).Failure? ||
      GeneratedSignal(ops, e, ShiftY).Failure? || GeneratedSignal(ops, e, ShiftZ).Failure?)
  {
    var x :- GeneratedSignal(ops, e, ShiftX);
    var y :- GeneratedSignal(ops, e, ShiftY);
    var z :- GeneratedSignal(ops, e, ShiftZ);
    Success(GankyilTriple(x, y, z))
  }
}
