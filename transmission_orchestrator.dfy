/**
 * The transmit pipeline (TransmissionOrchestrator.py): check the sample
 * rate, encode the harmonics, encrypt and at once decrypt them, modulate,
 * optionally mask with noise, optionally wait for the feedback lock, then
 * emit.  The audio devices are a `Peripherals` object that records every
 * capture request and every emission; the waveform file's contents and what
 * the microphone picks up are given.
 */
module Orchestration {
  import opened Errors
  import opened Primitives
  import opened Encryption
  import opened Encoding
  import opened Modulation
  import opened NoiseMask
  import opened LockMonitor

  /** `TransmissionOrchestrator(base_freq, encryption_key, noise_key, sample_rate)`: its collaborators. */
  datatype TransmissionOrchestrator = TransmissionOrchestrator(
    baseFreq: real,
    sampleRate: real,
    encoder: HarmonicEncoder,
    encryptor: HarmonicEncryptor,
    modulator: FieldModulator,
    obfuscator: SignalObfuscator,
    lockMonitor: FeedbackLockMonitor)

  /** The constructor: every collaborator with its defaults, except the keys, the base frequency and the sample rate. */
  function NewOrchestrator(baseFreq: real, encryptionKey: string, noiseKey: string, sampleRate: real): (o: TransmissionOrchestrator)
    ensures o.baseFreq == o.modulator.baseFreq == baseFreq
    ensures o.sampleRate == o.encoder.sampleRate == o.modulator.sampleRate == o.lockMonitor.sampleRate == sampleRate
    ensures o.encryptor.key == encryptionKey && o.obfuscator.key == noiseKey
  {
    TransmissionOrchestrator(
      baseFreq,
      sampleRate,
      HarmonicEncoder(sampleRate),
      DefaultEncryptor.(key := encryptionKey),
      DefaultModulator.(baseFreq := baseFreq, sampleRate := sampleRate),
      DefaultObfuscator.(key := noiseKey),
      DefaultMonitor.(sampleRate := sampleRate))
  }

  /** The defaults `TransmissionOrchestrator()`: 111 Hz, keys "IX369" and "OBF-369", 44100 Hz. */
  const DefaultOrchestrator := NewOrchestrator(111.0, "IX369", "OBF-369", 44100.0)

  /** What the devices were asked to do, in order. */
  datatype Event =
    | Listened(request: CaptureRequest)
    | Emitted(waveform: seq<real>, sampleRate: real)

  /** The audio devices: the microphone returns `recording`; every request and emission is logged. */
  class Peripherals {
    const recording: seq<real>
    var events: seq<Event>

    constructor (recording: seq<real>)
      ensures this.recording == recording && events == []
    {
      this.recording := recording;
      events := [];
    }

    /** `sd.rec(...)` and `sd.wait()` */
    method Capture(request: CaptureRequest) returns (samples: seq<real>)
      modifies this`events
      ensures samples == recording
      ensures events == old(events) + [Listened(request)]
    {
      samples := recording;
      events := events + [Listened(request)];
    }

    /** `emit_waveform(waveform)` on the emitter, which plays at the orchestrator's sample rate. */
    method Emit(waveform: seq<real>, sampleRate: real)
      modifies this`events
      ensures events == old(events) + [Emitted(waveform, sampleRate)]
    {
      events := events + [Emitted(waveform, sampleRate)];
    }
  }

  /** Whether an event is an emission. */
  predicate IsEmission(e: Event) {
    e.Emitted?
  }

  /**
   * The waveform `transmit` would emit: encoded, encrypted, decrypted again,
   * modulated and, when `secure`, masked with the keyed noise.
   */
  function Prepared(ops: Ops, o: TransmissionOrchestrator, waveform: seq<real>, secure: bool): Result<seq<real>>
  {
    var harmonicVector :- Encoded(ops, o.encoder, NdArray(waveform));
    var encrypted := Encrypted(ops, o.encryptor, harmonicVector, o.baseFreq);
    var decrypted :- Decrypted(ops, o.encryptor, encrypted, o.baseFreq);
    var modulated :- Modulated(ops, o.modulator, decrypted);
    // a modulated waveform is never empty, so `apply_noise` cannot raise here
    if secure then Success(ApplyNoise(ops, o.obfuscator, modulated).value.0)
    else Success(modulated)
  }

  /** The stages of `transmit` before the lock check, each call as the source makes it. */
  method Prepare(ops: Ops, o: TransmissionOrchestrator, waveform: seq<real>, secure: bool) returns (r: Result<seq<real>>)
    ensures r == Prepared(ops, o, waveform, secure)
  {
    var harmonicVector :- Encode(ops, o.encoder, NdArray(waveform));
    var encrypted := Encrypt(ops, o.encryptor, harmonicVector, o.baseFreq);
    var encryptedDict :- Decrypt(ops, o.encryptor, encrypted, o.baseFreq);
    var modulated :- Modulate(ops, o.modulator, encryptedDict);
    var obfuscated := modulated;
    if secure {
      var masked := ApplyNoise(ops, o.obfuscator, modulated).value;
      obfuscated := masked.0;
    }
    r := Success(obfuscated);
  }

  /** The two ways `transmit` returns normally: after emitting, or aborted for want of a lock. */
  datatype Outcome = Completed | Aborted

  /**
   * `transmit(wav_path, secure, require_lock)`, given the samples and the
   * sample rate read from the file.  A rate mismatch fails the `assert`
   * before any work; an exception in a stage propagates; with `require_lock`
   * the feedback is captured after the waveform is prepared and a denied
   * lock returns without emitting; otherwise exactly one emission ends the call.
   */
  method Transmit(ops: Ops, o: TransmissionOrchestrator, devices: Peripherals,
                  waveform: seq<real>, sr: real, secure: bool, requireLock: bool)
    returns (r: Result<Outcome>)
    modifies devices`events
    ensures sr != o.sampleRate ==> r == Failure(AssertionError) && devices.events == old(devices.events)
    ensures sr == o.sampleRate && Prepared(ops, o, waveform, secure).Failure? ==>
      r == Failure(Prepared(ops, o, waveform, secure).error) && devices.events == old(devices.events)
    ensures sr == o.sampleRate && Prepared(ops, o, waveform, secure).Success? && !requireLock ==>
      r == Success(Completed) &&
      devices.events == old(devices.events) + [Emitted(Prepared(ops, o, waveform, secure).value, o.sampleRate)]
    ensures sr == o.sampleRate && Prepared(ops, o, waveform, secure).Success? && requireLock ==>
      var lock := Feedback(ops, o.lockMonitor, o.baseFreq, devices.recording);
      r == (if lock.Failure? then Failure(lock.error) else if lock.value then Success(Completed) else Success(Aborted)) &&
      devices.events == old(devices.events) + [Listened(Capture(o.lockMonitor))] +
        (if lock == Success(true) then [Emitted(Prepared(ops, o, waveform, secure).value, o.sampleRate)] else [])
    ensures r == Success(Completed) ==> (devices.events[|old(devices.events)|..] ==
      (if requireLock then [Listened(Capture(o.lockMonitor))] else []) + [Emitted(Prepared(ops, o, waveform, secure).value, o.sampleRate)])
    ensures r != Success(Completed) ==> forall i :: |old(devices.events)| <= i < |devices.events| ==> !IsEmission(devices.events[i])
    ensures !requireLock ==> forall i :: |old(devices.events)| <= i < |devices.events| ==> IsEmission(devices.events[i])
  {
    if sr != o.sampleRate {
      return Failure(AssertionError);
    }
    var obfuscated :- Prepare(ops, o, waveform, secure);
    if requireLock {
      var recording := devices.Capture(Capture(o.lockMonitor));
      var locked :- ListenForFeedback(ops, o.lockMonitor, o.baseFreq, recording);
      if !locked {
        return Success(Aborted);
      }
    }
    devices.Emit(obfuscated, o.sampleRate);
    r := Success(Completed);
  }

  /**
   * The modulator receives the decryption of the encryption, which is the
   * encoded vector itself: without masking, the prepared waveform is the
   * modulation of the plain harmonic signature.
   */
  lemma PreparedModulatesSignature(ops: Ops, o: TransmissionOrchestrator, waveform: seq<real>)
    requires o.baseFreq != 0.0 && Encoded(ops, o.encoder, NdArray(waveform)).Success?
    ensures Prepared(ops, o, waveform, false) == Modulated(ops, o.modulator, Encoded(ops, o.encoder, NdArray(waveform)).value)
  {
    var v := Encoded(ops, o.encoder, NdArray(waveform)).value;
    TargetKeysDistinct(v);
    DecryptEncrypt(ops, o.encryptor, v, o.baseFreq);
  }

  /**
   * With masking, `remove_noise` with the noise key gives back the unmasked
   * waveform only when the masking did not renormalise; the two lemmas after
   * this one cover the renormalised case.
   */
  lemma PreparedMaskedRecoverable(ops: Ops, o: TransmissionOrchestrator, waveform: seq<real>)
    requires Prepared(ops, o, waveform, false).Success?
    requires !Renormalises(ops, o.obfuscator, Prepared(ops, o, waveform, false).value)
    ensures Prepared(ops, o, waveform, true).Success?
    ensures RemoveNoise(ops, o.obfuscator, Prepared(ops, o, waveform, true).value) == Prepared(ops, o, waveform, false).value
  {
    var plain := Prepared(ops, o, waveform, false).value;
    assert Prepared(ops, o, waveform, true) == Success(ApplyNoise(ops, o.obfuscator, plain).value.0);
    RemoveApplyNoise(ops, o.obfuscator, plain);
  }

  /**
   * When the masking renormalises (a modulated waveform has peak 1, so any
   * noise of the same sign at the peak sample makes it), `remove_noise`
   * does not give back the unmasked waveform.
   */
  lemma PreparedMaskedNotRecovered(ops: Ops, o: TransmissionOrchestrator, waveform: seq<real>)
    requires Prepared(ops, o, waveform, false).Success?
    requires Renormalises(ops, o.obfuscator, Prepared(ops, o, waveform, false).value)
    ensures Prepared(ops, o, waveform, true).Success?
    ensures RemoveNoise(ops, o.obfuscator, Prepared(ops, o, waveform, true).value) != Prepared(ops, o, waveform, false).value
  {
    var plain := Prepared(ops, o, waveform, false).value;
    assert Prepared(ops, o, waveform, true) == Success(ApplyNoise(ops, o.obfuscator, plain).value.0);
    RenormalisedNotRecovered(ops, o.obfuscator, plain);
  }

  /**
   * A receiver that multiplies back by the masking's scale before
   * subtracting the noise recovers the unmasked waveform in every case.
   */
  lemma PreparedMaskedRestored(ops: Ops, o: TransmissionOrchestrator, waveform: seq<real>)
    requires Prepared(ops, o, waveform, false).Success?
    ensures Prepared(ops, o, waveform, true).Success?
    ensures var plain := Prepared(ops, o, waveform, false).value;
      RestoreNoise(ops, o.obfuscator, Prepared(ops, o, waveform, true).value, MaskScale(ops, o.obfuscator, plain)) == plain
  {
    var plain := Prepared(ops, o, waveform, false).value;
    assert Prepared(ops, o, waveform, true) == Success(ApplyNoise(ops, o.obfuscator, plain).value.0);
    RestoreApplyNoise(ops, o.obfuscator, plain);
  }
}
