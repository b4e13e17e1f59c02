/**
 * The triple-phase check (GankyilPhaseValidator.py): the mean unwrapped
 * FFT phase difference of each ordered pair, in degrees and reduced modulo
 * 360, must lie within 10 degrees of 120 for X to Y, for Y to Z, and, read
 * backwards as (360 - offset) % 360, for Z to X.  The phase computation
 * before the `% 360` is the uninterpreted `meanPhaseDiff`.
 */
module PhaseValidator {
  import opened Errors
  import opened Signals
  import opened Primitives

  /** `GankyilPhaseValidator(x_signal, y_signal, z_signal, sample_rate)`, with `self.N` */
  datatype GankyilPhaseValidator = GankyilPhaseValidator(x: seq<real>, y: seq<real>, z: seq<real>, sampleRate: real, n: nat)

  /**
   * The constructor: N is the length of the X signal, and the time axis
   * `np.linspace(0, N / sample_rate, N)` raises ZeroDivisionError for a zero rate.
   */
  function NewValidator(x: seq<real>, y: seq<real>, z: seq<real>, sampleRate: real): (r: Result<GankyilPhaseValidator>)
    ensures r.Failure? <==> sampleRate == 0.0
    ensures r.Failure? ==> r.error == ZeroDivisionError
    ensures r.Success? ==> r.value.n == |x| && r.value.x == x && r.value.y == y && r.value.z == z
  {
    if sampleRate == 0.0 then Failure(ZeroDivisionError)
    else Success(GankyilPhaseValidator(x, y, z, sampleRate, |x|))
  }

  /** The offset the ideal triple has between consecutive signals, in degrees. */
  const TargetOffset: real := 120.0

  /** The tolerance `validate` allows, in degrees, bounds included. */
  const Tolerance: real := 10.0

  /**
   * numpy accepts `angle(fft(b)) - angle(fft(a))` when the two spectra have
   * one length or one of them has a single bin.
   */
  predicate Broadcastable(a: seq<real>, b: seq<real>) {
    |a| == |b| || |a| == 1 || |b| == 1
  }

  /**
   * `_calc_phase_offset(a, b)`: the mean phase difference in degrees, `% 360`.
   * The FFT of an empty signal, or two spectra that do not broadcast, raise ValueError.
   */
  function CalcPhaseOffset(ops: Ops, a: seq<real>, b: seq<real>): (r: Result<real>)
    ensures r.Failure? <==> |a| == 0 || |b| == 0 || !Broadcastable(a, b)
    ensures r.Failure? ==> r.error == ValueError
    ensures r.Success? ==> 0.0 <= r.value < 360.0
    ensures r.Success? ==> var turns := (ops.meanPhaseDiff(a, b) - r.value) / 360.0; turns.Floor as real == turns
  {
    if |a| == 0 || |b| == 0 || !Broadcastable(a, b) then Failure(ValueError)
    else Success(FloorMod(ops.meanPhaseDiff(a, b), 360.0))
  }

  /** `abs(angle - 120) <= 10` */
  predicate WithinTolerance(angle: real) {
    Abs(angle - TargetOffset) <= Tolerance
  }

  /**
   * `validate()`: the three offsets X to Y, Y to Z and Z to X, in that order,
   * then the `all(...)` over [x_y, y_z, (360 - z_x) % 360].  Valid exactly when
   * the first two lie in [110, 130] and the third in [230, 250], bounds included.
   */
  function Validate(ops: Ops, v: GankyilPhaseValidator): (r: Result<bool>)
    ensures r.Failure? <==> (CalcPhaseOffset(ops, v.x, v.y).Failure? ||
      CalcPhaseOffset(ops, v.y, v.z).Failure? || CalcPhaseOffset(ops, v.z, v.x).Failure?)
    ensures r.Success? ==>
      var xy, yz, zx := CalcPhaseOffset(ops, v.x, v.y).value, CalcPhaseOffset(ops, v.y, v.z).value, CalcPhaseOffset(ops, v.z, v.x).value;
      (r.value <==> 110.0 <= xy <= 130.0 && 110.0 <= yz <= 130.0 && 230.0 <= zx <= 250.0)
  {
    var xy :- CalcPhaseOffset(ops, v.x, v.y);
    var yz :- CalcPhaseOffset(ops, v.y, v.z);
    var zx :- CalcPhaseOffset(ops, v.z, v.x);
    ReflectedOffset(zx);
    Success(WithinTolerance(xy) && WithinTolerance(yz) && WithinTolerance(FloorMod(360.0 - zx, 360.0)))
  }

  /** Read backwards, an offset z in [0, 360) is within tolerance of 120 exactly when z lies in [230, 250]. */
  lemma ReflectedOffset(z: real)
    requires 0.0 <= z < 360.0
    ensures WithinTolerance(FloorMod(360.0 - z, 360.0)) <==> 230.0 <= z <= 250.0
  {
    var x := 360.0 - z;
    if z == 0.0 {
      FloorOfBounds(x, 360.0, 1);
      assert FloorMod(x, 360.0) == 0.0;
    } else {
      FloorOfBounds(x, 360.0, 0);
      assert FloorMod(x, 360.0) == x;
    }
  }

  /**
   * A perturbed triple is rejected: when the Z to X offset is more than 10
   * degrees away from 240, no X to Y and Y to Z offsets make it valid.
   */
  lemma PerturbedZRejected(ops: Ops, v: GankyilPhaseValidator)
    requires Validate(ops, v).Success?
    requires Abs(CalcPhaseOffset(ops, v.z, v.x).value - 240.0) > Tolerance
    ensures !Validate(ops, v).value
  {
  }
}
