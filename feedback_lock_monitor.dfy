/**
 * The feedback handshake monitor (FeedbackLockMonitor.py): a one-channel
 * capture of int(sample_rate * duration) samples, its FFT magnitude
 * spectrum, and a lock that holds only if, for every target multiple h, the
 * bin nearest to base_freq * h reaches the threshold.  The capture itself is
 * external: the recording it returns is a parameter.
 */
module LockMonitor {
  import opened Errors
  import opened Signals
  import opened Primitives
  import opened Spectra
  import opened Synthesis

  /** `FeedbackLockMonitor(sample_rate, duration, target_harmonics, lock_threshold)` */
  datatype FeedbackLockMonitor = FeedbackLockMonitor(sampleRate: real, duration: real, targets: seq<int>, threshold: real)

  /** The defaults: 44100 Hz, one second, multiples 3, 6, 9, threshold 0.3. */
  const DefaultMonitor := FeedbackLockMonitor(44100.0, 1.0, [3, 6, 9], 0.3)

  /** What `sd.rec` is asked for: a number of frames, a sample rate and a channel count. */
  datatype CaptureRequest = CaptureRequest(frames: int, sampleRate: real, channels: nat)

  /** The capture `listen_for_feedback` requests: int(sample_rate * duration) frames on one channel. */
  function Capture(m: FeedbackLockMonitor): (req: CaptureRequest)
    ensures req.channels == 1 && req.sampleRate == m.sampleRate
    ensures m.sampleRate * m.duration >= 0.0 ==>
      0 <= req.frames && req.frames as real <= m.sampleRate * m.duration < req.frames as real + 1.0
  {
    CaptureRequest(SampleCount(m.sampleRate, m.duration), m.sampleRate, 1)
  }

  /** The magnitude the monitor inspects for target multiple h: that of the bin nearest to base_freq * h. */
  function AmplitudeAt(spectrum: seq<real>, freqs: seq<real>, baseFreq: real, h: int): real
    requires 0 < |freqs| == |spectrum|
  {
    spectrum[NearestBin(freqs, baseFreq * h as real)]
  }

  /**
   * The lock decision over a spectrum: the flag starts confirmed and each
   * target multiple whose amplitude is below the threshold clears it.
   */
  method LockDecision(spectrum: seq<real>, freqs: seq<real>, baseFreq: real, targets: seq<int>, threshold: real)
    returns (lockConfirmed: bool)
    requires 0 < |freqs| == |spectrum|
    ensures lockConfirmed <==> forall i :: 0 <= i < |targets| ==> AmplitudeAt(spectrum, freqs, baseFreq, targets[i]) >= threshold
  {
    lockConfirmed := true;
    for i := 0 to |targets|
      invariant lockConfirmed <==> forall j :: 0 <= j < i ==> AmplitudeAt(spectrum, freqs, baseFreq, targets[j]) >= threshold
    {
      var targetFreq := baseFreq * targets[i] as real;
      var idx := NearestBin(freqs, targetFreq);
      var amplitude := spectrum[idx];
      assert amplitude == AmplitudeAt(spectrum, freqs, baseFreq, targets[i]);
      if amplitude < threshold {
        lockConfirmed := false;
      }
    }
  }

  /** Every target multiple reaches the threshold in the recording's spectrum. */
  predicate Locked(ops: Ops, m: FeedbackLockMonitor, baseFreq: real, recording: seq<real>)
    requires |recording| > 0
  {
    var spectrum := Spectrum(ops, recording);
    var freqs := FftFreqs(|recording|, m.sampleRate);
    forall i :: 0 <= i < |m.targets| ==> AmplitudeAt(spectrum, freqs, baseFreq, m.targets[i]) >= m.threshold
  }

  /**
   * What `listen_for_feedback(base_freq)` returns for the recording the
   * capture returned: the FFT of no samples raises ValueError, then
   * `1.0 / sample_rate` for a zero rate raises ZeroDivisionError; otherwise
   * the lock decision.  The capture at a zero rate asks for no frames
   * (`CapturedAtZeroRate`), so through `Capture` the ZeroDivisionError
   * branch is reached only by a device that returns samples it was not
   * asked for.
   */
  function Feedback(ops: Ops, m: FeedbackLockMonitor, baseFreq: real, recording: seq<real>): (r: Result<bool>)
    ensures r.Failure? <==> |recording| == 0 || m.sampleRate == 0.0
    ensures r.Failure? ==> r.error == (if |recording| == 0 then ValueError else ZeroDivisionError)
    ensures r.Success? ==> (r.value <==> Locked(ops, m, baseFreq, recording))
  {
    if |recording| == 0 then Failure(ValueError)
    else if m.sampleRate == 0.0 then Failure(ZeroDivisionError)
    else Success(Locked(ops, m, baseFreq, recording))
  }

  /** `listen_for_feedback(base_freq)`: the spectrum, the bin frequencies, then the loop over the targets. */
  method ListenForFeedback(ops: Ops, m: FeedbackLockMonitor, baseFreq: real, recording: seq<real>)
    returns (r: Result<bool>)
    ensures r == Feedback(ops, m, baseFreq, recording)
  {
    if |recording| == 0 {
      return Failure(ValueError);
    }
    if m.sampleRate == 0.0 {
      return Failure(ZeroDivisionError);
    }
    var spectrum := Spectrum(ops, recording);
    var freqs := FftFreqs(|spectrum|, m.sampleRate);
    var lockConfirmed := LockDecision(spectrum, freqs, baseFreq, m.targets, m.threshold);
    r := Success(lockConfirmed);
  }

  /**
   * A recording of exactly the requested length at a zero sample rate is
   * empty, so the feedback fails with ValueError before the division.
   */
  lemma CapturedAtZeroRate(ops: Ops, m: FeedbackLockMonitor, baseFreq: real, recording: seq<real>)
    requires m.sampleRate == 0.0 && |recording| == Capture(m).frames
    ensures Feedback(ops, m, baseFreq, recording) == Failure(ValueError)
  {
    assert m.sampleRate * m.duration == 0.0;
  }

  /** A single target multiple below the threshold denies the lock. */
  lemma WeakHarmonicRejects(ops: Ops, m: FeedbackLockMonitor, baseFreq: real, recording: seq<real>, i: nat)
    requires |recording| > 0 && i < |m.targets|
    requires AmplitudeAt(Spectrum(ops, recording), FftFreqs(|recording|, m.sampleRate), baseFreq, m.targets[i]) < m.threshold
    ensures !Locked(ops, m, baseFreq, recording)
  {
  }

  /** A recording with no energy at all is rejected under any positive threshold. */
  lemma SilenceRejected(ops: Ops, m: FeedbackLockMonitor, baseFreq: real, recording: seq<real>)
    requires |recording| > 0 && |m.targets| > 0 && m.threshold > 0.0
    requires forall k :: 0 <= k < |recording| ==> ops.magnitude(recording, k) == 0.0
    ensures !Locked(ops, m, baseFreq, recording)
  {
    var spectrum := Spectrum(ops, recording);
    var freqs := FftFreqs(|recording|, m.sampleRate);
    var k := NearestBin(freqs, baseFreq * m.targets[0] as real);
    assert spectrum[k] == ops.magnitude(recording, k) == 0.0;
    assert AmplitudeAt(spectrum, freqs, baseFreq, m.targets[0]) < m.threshold;
  }

  /** A lock that holds at some threshold also holds at any lower threshold. */
  lemma LockThresholdMonotone(ops: Ops, m: FeedbackLockMonitor, baseFreq: real, recording: seq<real>, lower: real)
    requires |recording| > 0 && lower <= m.threshold && Locked(ops, m, baseFreq, recording)
    ensures Locked(ops, m.(threshold := lower), baseFreq, recording)
  {
  }
}
