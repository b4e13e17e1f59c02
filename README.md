# IX-Futakuchi-onna, modelled in Dafny

IX-Futakuchi-onna is a chain of signal transforms for a "harmonic" transmission system:

- an encoder extracts a 3-6-9 harmonic signature from a waveform;
- a keyed cipher shifts the harmonic frequencies;
- a modulator turns a harmonic vector back into a waveform;
- keyed noise and block phase scrambling mask the waveform, and a decoder undoes the masking;
- a time-window key generator, a feedback lock monitor, a Gankyil triple-phase validator and a GPIO/ADC sensor decoder decide whether transmission may go ahead;
- an orchestrator chains the stages into `transmit`.

This project models the discrete and arithmetic skeleton of those transforms over unbounded reals and sequences. The numerical and cryptographic routines they call are uninterpreted deterministic functions, all fields of the record `Primitives.Ops` that every operation takes as a parameter:

- sine and cosine;
- the FFT-based array operations;
- SHA-256;
- numpy's generator algorithm.

A numpy generator (`np.random.RandomState`, and the global `np.random` state) is modelled by its seed and the kinds of draws made since seeding (`Rng`). The value of a draw is a function of those two. This makes the pairing of draws in an encrypt/decrypt, apply/remove or obfuscate/decode pair an explicit fact, not an accident of call order.

Python dicts are sequences of (key, value) pairs in insertion order, with Python's overwrite semantics (`Encryption.Put`). Python exceptions, and numpy's inf/nan results, are an `Errors.Result`.

Files and modules:

| file | module | source |
|---|---|---|
| errors.dfy | Errors | exceptions as results |
| primitives.dfy | Primitives | the uninterpreted routines, the key-derived seed |
| rng.dfy | Rng | numpy's seeded generator |
| text.dfy | Text | big-endian bytes, hex digests, decimal rendering |
| signals.dfy | Signals | element-wise array arithmetic, peak normalisation, float `%` |
| spectra.dfy | Spectra | `fftfreq`, Hann window, masks, argmax/argmin |
| synthesis.dfy | Synthesis | `linspace` time axis, sums of sinusoids |
| blocks.dfy | Blocks | the block loop shared by scrambling and descrambling |
| harmonic_encryptor.dfy | Encryption | src/HarmonicEncryptor.py |
| signal_obfuscator.dfy | NoiseMask | src/SignalObfuscator.py |
| field_lock_key_generator.dfy | LockKey | src/FieldLockKeyGenerator.py |
| signal_obfuscator_v2.dfy | Scrambler | src/SignalObfuscator_v2.py |
| field_unlock_decoder.dfy | Unlock | src/FieldUnlockDecoder.py |
| harmonic_encoder.dfy | Encoding | src/HarmonicEncoder.py |
| feedback_lock_monitor.dfy | LockMonitor | src/FeedbackLockMonitor.py |
| field_modulator.dfy | Modulation | src/FieldModulator.py |
| tesla_signal_encoder_v2.dfy | TeslaEncoder | src/TeslaSignalEncoder_v2.py |
| gankyil_phase_validator.dfy | PhaseValidator | src/GankyilPhaseValidator.py |
| transmission_orchestrator.dfy | Orchestration | src/TransmissionOrchestrator.py |
| field_resonance_decoder.dfy | Resonance | src/FieldResonanceDecoder.py |

Where the code and its comments or tests disagree, the model follows the code:

- `modulate` uses phase `pi * (h % 3)`, which is 2 pi (not pi, as its comment says) for `h % 3 == 2` (`Modulation.PhaseShift`).
- `read_gpio_lock` without hardware returns True, although a disruption test expects False (`Resonance.ReadGpioLock`).
- The `linspace` step is `duration / int(sample_rate * duration)`. It equals `1 / sample_rate` only when that product is a whole number (`Synthesis.TimeAxisStep`).
- `generate_signal` and `decode` divide by the peak without a zero guard. A zero peak is reported as `NonFinite`, where numpy produces nan.

## Model

| member | source | states |
|---|---|---|
| Primitives.KeySeed | src/HarmonicEncryptor.py:23-28 | the seed is the big-endian integer of the first four SHA-256 digest bytes of the key, so 0 <= seed < 2^32 |
| Text.BigEndian | src/HarmonicEncryptor.py:28 | `int.from_bytes(b, 'big')` of k bytes is below 256^k |
| Text.BigEndianFour | src/HarmonicEncryptor.py:28 | four bytes read big-endian are b0*2^24 + b1*2^16 + b2*2^8 + b3 |
| Rng.RandomState.constructor | src/HarmonicEncryptor.py:41 | a freshly seeded generator has made no draws |
| Rng.RandomState.Reseed | src/SignalObfuscator_v2.py:20-22 | `np.random.seed(s)` restarts the stream: seed s, empty history |
| Rng.RandomState.Uniform | src/HarmonicEncryptor.py:46 | `uniform(lo, hi)` returns the value the generator defines for its seed and history, and records one uniform draw |
| Rng.RandomState.NormalArray | src/SignalObfuscator.py:32 | `normal(loc, scale, size=n)` returns n consecutive normal draws and records exactly n normal draws |
| Rng.Uniforms | src/SignalObfuscator_v2.py:45 | n consecutive uniform draws: draw i is the one made after i earlier uniform draws |
| Rng.Normals | src/SignalObfuscator.py:32 | n consecutive normal draws: draw i is the one made after i earlier normal draws |
| Rng.UniformInRange | src/HarmonicEncryptor.py:46 | a uniform draw from [lo, hi) lies in [lo, hi], and below hi when lo < hi |
| Encryption.Put | src/HarmonicEncryptor.py:66 | `d[k] = x`: looking k up gives x and every other key's lookup is unchanged |
| Encryption.PutKeys | src/HarmonicEncryptor.py:66 | assignment adds only k to the keys and keeps the keys distinct |
| Encryption.PutNew | src/HarmonicEncryptor.py:66 | assigning an absent key appends the pair at the end (insertion order) |
| Encryption.RoundHalfEven | src/HarmonicEncryptor.py:65 | Python's `round`: within 1/2 of the argument, ties going to the even integer |
| Encryption.RoundIntegral | src/HarmonicEncryptor.py:65 | rounding an integer-valued real gives that integer |
| Encryption.Encrypted | src/HarmonicEncryptor.py:42-50 | one pair per vector entry, in the vector's order, amplitude unchanged |
| Encryption.Encrypt | src/HarmonicEncryptor.py:30-50 | the loop draws one offset per entry from a fresh generator and returns exactly `Encrypted`, a function of key, vector and base frequency alone |
| Encryption.EncryptWithinOffset | src/HarmonicEncryptor.py:45-47 | every encrypted frequency lies within max_offset of base_freq * h |
| Encryption.Decrypted | src/HarmonicEncryptor.py:52-68 | decryption fails exactly when the base frequency is zero and there is an entry to divide, with ZeroDivisionError |
| Encryption.Decrypt | src/HarmonicEncryptor.py:52-68 | the loop re-draws offsets from a fresh generator, fills the dict entry by entry, and returns exactly `Decrypted` |
| Encryption.DecryptRecoversFrequency | src/HarmonicEncryptor.py:41-64 | the i-th offset decrypt subtracts is the one encrypt added, so the true frequency base_freq * h is recovered |
| Encryption.DecryptRecoversHarmonic | src/HarmonicEncryptor.py:64-65 | the multiplier h survives the division and rounding |
| Encryption.DecryptPrefixOfEncrypted | src/HarmonicEncryptor.py:62-66 | after n iterations the decrypted dict is the first n entries of the original vector |
| Encryption.DecryptEncrypt | src/HarmonicEncryptor.py:30-68 | decrypt(encrypt(v, f), f) == v, entries and order, for distinct integer multipliers and f != 0 |
| Encryption.DecryptLastWins | src/HarmonicEncryptor.py:65-66 | when several entries round to one multiplier, the dict holds the amplitude of the last of them |
| NoiseMask.Noise | src/SignalObfuscator.py:31-33 | the noise is noise_strength times the i-th standard normal draw of a fresh generator seeded from the key |
| NoiseMask.ApplyNoise | src/SignalObfuscator.py:30-40 | returns (obfuscated, noise), both of the waveform's length; obfuscated is w + noise when the sum's peak is at most 1, and (w + noise) divided by that peak otherwise; an empty waveform raises ValueError |
| NoiseMask.RemoveNoise | src/SignalObfuscator.py:42-48 | each sample minus the same keyed noise sample, length preserved |
| NoiseMask.ApplyNoisePeak | src/SignalObfuscator.py:35-38 | every obfuscated sample lies in [-1, 1], and the peak is exactly 1 when renormalisation fires |
| NoiseMask.RemoveNoiseSameNoise | src/SignalObfuscator.py:42-48 | remove_noise subtracts exactly the noise array apply_noise returned for that length |
| NoiseMask.RemoveApplyNoise | src/SignalObfuscator.py:30-48 | remove_noise(apply_noise(w)[0]) == w whenever the sum did not exceed 1 in magnitude |
| NoiseMask.QuotientMoves | src/SignalObfuscator.py:37-38 | dividing a nonzero sample by a peak above 1 changes it |
| NoiseMask.RenormalisedNotRecovered | src/SignalObfuscator.py:30-48 | when apply_noise renormalises, remove_noise does not give back the waveform: the peak sample differs |
| NoiseMask.RemoveApplyNoiseIff | src/SignalObfuscator.py:30-48 | remove_noise(apply_noise(w)[0]) == w exactly when apply_noise did not renormalise |
| NoiseMask.PeakOneRenormalises | src/SignalObfuscator.py:35-38 | a waveform of peak 1 whose noise at the peak sample has the same sign is renormalised |
| NoiseMask.MaskScale | src/SignalObfuscator.py:36-38 | the factor apply_noise divides by is at least 1, and above 1 exactly when it renormalises |
| NoiseMask.RestoreNoise | src/SignalObfuscator.py:42-48 | each sample times the scale, minus the same keyed noise sample |
| NoiseMask.RestoreUnscaled | src/SignalObfuscator.py:42-48 | at scale 1 the corrected removal is remove_noise itself |
| NoiseMask.RestoreApplyNoise | src/SignalObfuscator.py:30-48 | the corrected removal, given apply_noise's scale, recovers every nonempty waveform |
| LockKey.AlignedTime | src/FieldLockKeyGenerator.py:39-40 | the aligned time is a whole number of windows, with aligned <= now < aligned + window for a positive window |
| LockKey.HarmonicSeed | src/FieldLockKeyGenerator.py:24-29 | the harmonic seed lies in [0, 9998] |
| LockKey.HashInput | src/FieldLockKeyGenerator.py:35 | the hashed string is the decimal seed, a dash, then the salt |
| LockKey.HashKey | src/FieldLockKeyGenerator.py:31-36 | the key is 64 lowercase hex digits |
| LockKey.GenerateKey | src/FieldLockKeyGenerator.py:38-42 | a zero window raises ZeroDivisionError; otherwise the key is a 64-digit lowercase hex digest |
| LockKey.VerifyKey | src/FieldLockKeyGenerator.py:44-45 | verify_key(k) holds exactly when k equals the key of the current window |
| LockKey.AlignedConstantInWindow | src/FieldLockKeyGenerator.py:40 | every reading in the window starting at the aligned time aligns to that start |
| LockKey.KeyConstantInWindow | src/FieldLockKeyGenerator.py:38-45 | two readings in one window give the same key, which verifies throughout the window |
| LockKey.LaterWindow | src/FieldLockKeyGenerator.py:40 | a reading at least one window later aligns strictly later |
| LockKey.HashInputInjective | src/FieldLockKeyGenerator.py:35 | equal hash inputs come from equal seeds |
| LockKey.EqualKeysEqualSeeds | src/FieldLockKeyGenerator.py:28-42 | keys of two windows are equal only if their harmonic seeds are, provided SHA-256 does not collide |
| Text.Hex | src/FieldLockKeyGenerator.py:36 | `hexdigest()`: two lowercase hex digits per byte |
| Text.HexInjective | src/FieldLockKeyGenerator.py:36 | distinct digests have distinct hex renderings |
| Text.Decimal | src/FieldLockKeyGenerator.py:35 | `f"{n}"`: nonempty decimal digits without a leading zero |
| Text.DecimalRoundTrip | src/FieldLockKeyGenerator.py:35 | reading the decimal rendering back gives n |
| Text.DecimalInjective | src/FieldLockKeyGenerator.py:35 | distinct seeds render as distinct decimal strings |
| Blocks.NumBlocks | src/SignalObfuscator_v2.py:40 | `len // block_size` with floor division: the full blocks fit in the signal, and there are none for a negative size |
| Blocks.WriteBlock | src/SignalObfuscator_v2.py:44-46 | the slice assignment for block i writes that block's samples combined with its factor, and nothing else |
| Blocks.AllBlocksSample | src/SignalObfuscator_v2.py:44-46 | sample j of full block i of the buffer is the input sample combined with block i's factor |
| Blocks.AllBlocksTail | src/SignalObfuscator_v2.py:41 | every sample past the last full block stays zero |
| Scrambler.SmearFactors | src/SignalObfuscator_v2.py:32 | one smear factor per FFT bin |
| Scrambler.PhaseFactors | src/SignalObfuscator_v2.py:45-46 | one factor cos(uniform(-pi, pi)) per full block, in block order, each in [-1, 1] |
| Scrambler.SmearSpectrum | src/SignalObfuscator_v2.py:24-34 | an empty signal raises ValueError with no draw; otherwise exactly one normal draw per bin and the smeared round trip |
| Scrambler.Scrambled | src/SignalObfuscator_v2.py:41-47 | the scrambled signal has the input's length |
| Scrambler.ScrambledBlock | src/SignalObfuscator_v2.py:43-46 | each full-block sample is the input sample times its block's cosine factor |
| Scrambler.ScrambledTail | src/SignalObfuscator_v2.py:41-46 | samples past the last full block are zero |
| Scrambler.ScrambledBounded | src/SignalObfuscator_v2.py:46 | no scrambled sample exceeds the smeared one in magnitude, since the factors are cosines |
| Scrambler.ScramblePhase | src/SignalObfuscator_v2.py:36-47 | a zero block size raises ZeroDivisionError; otherwise exactly num_blocks uniform draws in block order and the result `Scrambled` |
| Scrambler.Obfuscated | src/SignalObfuscator_v2.py:49-52 | obfuscation fails exactly for an empty signal and otherwise preserves length |
| Scrambler.Obfuscate | src/SignalObfuscator_v2.py:49-52 | obfuscate is scramble_phase(smear_spectrum(signal)): one normal draw per bin, then one uniform per block |
| Scrambler.ObfuscatedBounded | src/SignalObfuscator_v2.py:46-52 | every obfuscated sample is at most the smeared sample in magnitude |
| Unlock.Descrambled | src/FieldUnlockDecoder.py:41-48 | the descrambled signal has the input's length |
| Unlock.DescrambledBlock | src/FieldUnlockDecoder.py:44-47 | each full-block sample is the input sample divided by its block's nonzero factor |
| Unlock.DescrambledTail | src/FieldUnlockDecoder.py:42-47 | samples past the last full block are zero |
| Unlock.DescrambleScramble | src/FieldUnlockDecoder.py:41-48 | with the same nonzero factors, descramble(scramble(s)) restores every full-block sample and zeroes the tail |
| Unlock.DescrambleResult | src/FieldUnlockDecoder.py:47 | dividing by a zero cosine factor gives a non-finite result, and only then |
| Unlock.DesmearSpectrum | src/FieldUnlockDecoder.py:25-35 | an empty signal raises ValueError with no draw; otherwise one normal draw per bin, as the smearing makes |
| Unlock.DescramblePhase | src/FieldUnlockDecoder.py:37-48 | a zero block size raises ZeroDivisionError; otherwise num_blocks uniform draws in block order, whatever factors come out |
| Unlock.Decoded | src/FieldUnlockDecoder.py:50-54 | decoding fails with ValueError exactly for an empty signal, otherwise only with NonFinite; length preserved |
| Unlock.Decode | src/FieldUnlockDecoder.py:50-54 | de-smear, then de-scramble, then peak division, with the same draw pattern as obfuscate |
| Unlock.DecodedPeak | src/FieldUnlockDecoder.py:53 | a decoded signal lies in [-1, 1] with peak exactly 1 |
| Spectra.FftFreqs | src/HarmonicEncoder.py:36 | `np.fft.fftfreq(n, 1 / sample_rate)`, bin by bin |
| Spectra.PositiveBins | src/HarmonicEncoder.py:39 | for a positive rate, exactly bins 1 .. (n - 1) / 2 have a positive frequency |
| Spectra.HannWindow | src/HarmonicEncoder.py:33 | the symmetric Hann window has the requested length and values in [0, 1] |
| Spectra.ArgMax | src/HarmonicEncoder.py:60 | `np.argmax`: a largest element, the first of them |
| Spectra.ArgMin | src/HarmonicEncoder.py:48 | `np.argmin`: a smallest element, the first of them |
| Spectra.NearestBin | src/HarmonicEncoder.py:48 | the bin minimising the distance to the target frequency, the first on ties |
| Spectra.Where | src/HarmonicEncoder.py:39-41 | the indices a mask keeps, all of them, in increasing order |
| Spectra.Select | src/HarmonicEncoder.py:40-41 | `xs[mask]`: the elements at the kept indices |
| Encoding.PositiveMask | src/HarmonicEncoder.py:39 | the mask is true exactly at positive frequencies |
| Encoding.LowMask | src/HarmonicEncoder.py:57 | the mask is true exactly below 1000 Hz |
| Encoding.FundamentalBin | src/HarmonicEncoder.py:57-61 | the fundamental bin is below 1000 Hz, of largest magnitude there, the first such bin |
| Encoding.EstimateFundamental | src/HarmonicEncoder.py:53-61 | an empty low band raises ValueError; otherwise the fundamental is below 1000 Hz |
| Encoding.PositiveBand | src/HarmonicEncoder.py:33-41 | an empty array raises ValueError, a zero rate ZeroDivisionError; otherwise only positive-frequency bins with non-negative magnitudes |
| Encoding.Signature | src/HarmonicEncoder.py:46-49 | the keys are the targets 3, 6, 9 in order |
| Encoding.SignatureEntry | src/HarmonicEncoder.py:47-49 | entry i is the magnitude at the bin nearest to fundamental * target i |
| Encoding.Encoded | src/HarmonicEncoder.py:22-51 | a non-array raises TypeError; a result has the keys 3, 6, 9 in order |
| Encoding.Encode | src/HarmonicEncoder.py:22-51 | encode returns exactly `Encoded` |
| Encoding.FillSignature | src/HarmonicEncoder.py:46-49 | the loop builds the signature entry by entry |
| Encoding.AddTarget | src/HarmonicEncoder.py:49 | adding target i to the dict so far extends the signature by one entry |
| Encoding.NewTarget | src/HarmonicEncoder.py:46-49 | each target is new to the dict when it is added |
| Encoding.TargetKeysDistinct | src/HarmonicEncoder.py:20 | a vector keyed by the targets has distinct keys |
| Encoding.EncodedAmplitudes | src/HarmonicEncoder.py:35-49 | every amplitude is a non-negative magnitude of a positive-frequency bin nearest to fundamental * multiple |
| Synthesis.TimeAxis | src/FieldModulator.py:30 | `linspace(0, duration, n, endpoint=False)`: n = int(sample_rate * duration) points starting at 0; a negative n raises ValueError |
| Synthesis.TimeAxisStep | src/TeslaSignalEncoder_v2.py:19 | consecutive points are 1 / sample_rate apart when sample_rate * duration is whole |
| Synthesis.TimeAxisExcludesEnd | src/TeslaSignalEncoder_v2.py:19 | every point lies in [0, duration): the endpoint is excluded |
| Synthesis.Tone | src/FieldModulator.py:36 | sample k is amp * sin(2 pi f t_k + phase) |
| Synthesis.Superposition | src/FieldModulator.py:31-36 | the accumulated waveform has the time axis's length |
| Synthesis.SuperpositionSnoc | src/FieldModulator.py:36 | one more `waveform +=` adds that component's tone |
| Synthesis.SilentSuperposition | src/FieldModulator.py:31-36 | components of amplitude zero leave the waveform at zero |
| Signals.FloorMod | src/GankyilPhaseValidator.py:31 | Python's float `%` by a positive modulus: in [0, m), differing from x by whole multiples of m |
| Signals.MaxAbs | src/FieldModulator.py:39 | `np.max(np.abs(w))` is attained by a sample and bounds all of them |
| Signals.Normalized | src/FieldModulator.py:41 | division by the peak preserves length |
| Signals.NormalizedPeak | src/FieldModulator.py:39-41 | after division by a positive peak every sample lies in [-1, 1] and the peak is exactly 1 |
| Signals.PeakBound | src/SignalObfuscator.py:37-38 | an undivided waveform whose peak is at most 1 lies in [-1, 1] |
| Signals.SubAdd | src/SignalObfuscator.py:35-47 | (w + n) - n == w sample by sample |
| Modulation.PhaseShift | src/FieldModulator.py:35 | the phase is 0 exactly for multiples of 3, pi for h % 3 == 1 and 2 pi for h % 3 == 2 |
| Modulation.EntryTone | src/FieldModulator.py:33-36 | entry (h, amp) contributes amplitude amp at base_freq * h with phase pi * (h % 3) |
| Modulation.Components | src/FieldModulator.py:33 | one sinusoid per entry, in the vector's order |
| Modulation.Modulated | src/FieldModulator.py:21-43 | the output has int(sample_rate * duration) samples; an empty axis raises ValueError in `np.max` |
| Modulation.PeakRescaled | src/FieldModulator.py:39-41 | the rescale preserves length |
| Modulation.Modulate | src/FieldModulator.py:21-43 | the loop accumulates one tone per entry, then rescales, returning exactly `Modulated` |
| Modulation.ModulatedPeak | src/FieldModulator.py:39-41 | every output sample lies in [-1, 1]; with a positive peak the output peak is exactly 1 |
| Modulation.SilentModulation | src/FieldModulator.py:31-41 | an empty or all-zero-amplitude vector yields all zeros, with no division |
| TeslaEncoder.TeslaSignalEncoderV2.Time | src/TeslaSignalEncoder_v2.py:19 | the time axis has int(sample_rate * duration) points |
| TeslaEncoder.Layer | src/TeslaSignalEncoder_v2.py:31-33 | harmonic h contributes amplitude 1/h at 111 * h Hz with the common phase shift |
| TeslaEncoder.Layers | src/TeslaSignalEncoder_v2.py:23-30 | one layer per harmonic 3, 6, 9, 12, in order |
| TeslaEncoder.GeneratedSignal | src/TeslaSignalEncoder_v2.py:25-37 | an empty axis raises ValueError; a zero peak gives a non-finite result; otherwise the axis's length |
| TeslaEncoder.GenerateSignal | src/TeslaSignalEncoder_v2.py:25-37 | the loop adds one layer per harmonic, then divides by the peak, returning exactly `GeneratedSignal` |
| TeslaEncoder.GeneratedPeak | src/TeslaSignalEncoder_v2.py:36 | a generated signal lies in [-1, 1] with peak exactly 1 |
| TeslaEncoder.GankyilTripleOf | src/TeslaSignalEncoder_v2.py:39-47 | X, Y and Z are the signals at shifts 0, 2 pi / 3 and 4 pi / 3, all of the time axis's length |
| PhaseValidator.NewValidator | src/GankyilPhaseValidator.py:16-22 | N is the length of the X signal; a zero rate raises ZeroDivisionError |
| PhaseValidator.CalcPhaseOffset | src/GankyilPhaseValidator.py:24-32 | the offset lies in [0, 360) and differs from the mean phase difference by whole turns; empty or non-broadcastable inputs raise ValueError |
| PhaseValidator.Validate | src/GankyilPhaseValidator.py:34-49 | valid exactly when X to Y and Y to Z lie in [110, 130] and Z to X in [230, 250], bounds included; any failing offset fails validation |
| PhaseValidator.ReflectedOffset | src/GankyilPhaseValidator.py:45 | (360 - z) % 360 is within 10 of 120 exactly when z lies in [230, 250] |
| PhaseValidator.PerturbedZRejected | src/GankyilPhaseValidator.py:44-46 | a Z to X offset more than 10 degrees from 240 makes the triple invalid |
| LockMonitor.Capture | src/FeedbackLockMonitor.py:34-37 | the capture asks for int(sample_rate * duration) frames on one channel at the monitor's rate |
| LockMonitor.LockDecision | src/FeedbackLockMonitor.py:43-50 | the flag loop ends confirmed exactly when every target's nearest-bin amplitude reaches the threshold |
| LockMonitor.Feedback | src/FeedbackLockMonitor.py:26-50 | an empty recording raises ValueError, a zero rate ZeroDivisionError; otherwise true exactly when the recording is locked |
| LockMonitor.CapturedAtZeroRate | src/FeedbackLockMonitor.py:34-41 | at a zero rate a recording of the requested length is empty, so ValueError is raised before the division by the rate |
| LockMonitor.ListenForFeedback | src/FeedbackLockMonitor.py:40-50 | spectrum, bin frequencies and the flag loop return exactly `Feedback` |
| LockMonitor.WeakHarmonicRejects | src/FeedbackLockMonitor.py:50 | a single target below the threshold denies the lock |
| LockMonitor.SilenceRejected | src/FeedbackLockMonitor.py:43-50 | a recording with no spectral energy is rejected under any positive threshold |
| LockMonitor.LockThresholdMonotone | src/FeedbackLockMonitor.py:24-50 | a lock at some threshold also holds at any lower one |
| Orchestration.NewOrchestrator | src/TransmissionOrchestrator.py:28-40 | collaborators share the base frequency, the sample rate and the two keys |
| Orchestration.Peripherals.constructor | src/TransmissionOrchestrator.py:44 | devices start with no recorded events |
| Orchestration.Peripherals.Capture | src/FeedbackLockMonitor.py:34-38 | a capture returns the recording and logs the request |
| Orchestration.Peripherals.Emit | src/TransmissionOrchestrator.py:72 | an emission is logged with the waveform and the sample rate |
| Orchestration.Prepare | src/TransmissionOrchestrator.py:47-61 | encode, encrypt, decrypt, modulate, and mask iff `secure`, returning exactly `Prepared` |
| Orchestration.Transmit | src/TransmissionOrchestrator.py:42-73 | a rate mismatch stops before any event; a stage failure propagates with no event; without the lock no listen happens and exactly one emission follows; with it the capture comes first and a denied lock emits nothing |
| Orchestration.PreparedModulatesSignature | src/TransmissionOrchestrator.py:51-55 | the modulator receives decrypt(encrypt(v)), which is the encoded vector itself |
| Orchestration.PreparedMaskedRecoverable | src/TransmissionOrchestrator.py:57-61 | remove_noise with the noise key gives back the unmasked waveform when masking did not renormalise |
| Orchestration.PreparedMaskedNotRecovered | src/TransmissionOrchestrator.py:57-61 | when masking renormalised, remove_noise does not give back the unmasked waveform |
| Orchestration.PreparedMaskedRestored | src/TransmissionOrchestrator.py:57-61 | multiplying back by the masking's scale before removing the noise gives back the unmasked waveform in every case |
| Resonance.ReadGpioLock | src/FieldResonanceDecoder.py:38-48 | without hardware the lock is granted; with it, exactly when the pin reads HIGH |
| Resonance.BitAnd | src/FieldResonanceDecoder.py:58 | `a & b` is at most each operand |
| Resonance.MaskThree | src/FieldResonanceDecoder.py:58 | `b & 3` is b mod 4 |
| Resonance.RequestFrame | src/FieldResonanceDecoder.py:57 | the frame is [1, (8 + ch) << 4, 0]: start bit, then mode and channel in the high nibble |
| Resonance.AdcValue | src/FieldResonanceDecoder.py:58 | the decoded value lies in [0, 1023]: the two low bits of byte 1 above byte 2 |
| Resonance.AdcValueOnto | src/FieldResonanceDecoder.py:58 | every 10-bit value is decoded from some pair of bytes |
| Resonance.Voltage | src/FieldResonanceDecoder.py:59 | the voltage lies in [0, vref] for vref >= 0 and is vref at full scale |
| Resonance.ReadAdcVoltage | src/FieldResonanceDecoder.py:50-61 | 0.0 without hardware or without a channel; a short SPI response raises IndexError; otherwise a voltage in [0, vref] |

## Left out

- Floating point: every quantity is an unbounded real. Rounding, overflow, inf and nan are not modelled, except that a division by zero that numpy turns into inf or nan is reported as `NonFinite`.
- FFT, inverse FFT, `np.angle`, `np.unwrap`, sine, cosine, SHA-256 and MT19937 are uninterpreted. Their algorithms are not part of this model; only the array shapes and the draw patterns around them are.
- The global `np.random` state behind `SignalObfuscator_v2` and `FieldUnlockDecoder` is an explicit `Rng.RandomState` passed to each call. Seeding it in the constructor is `Rng.RandomState.Reseed`.
- Audio I/O (`sounddevice`, `soundfile`) is left out. The samples and rate read from the WAV file and the recording the microphone returns are parameters. Emissions and capture requests are recorded in `Orchestration.Peripherals`.
- src/BeamEmitterController.py is not part of this model. `emit_waveform` is the logged event `Orchestration.Peripherals.Emit`.
- GPIO and SPI setup, the transfer itself, and `cleanup` (src/FieldResonanceDecoder.py:29-36, 63-65) are left out. Whether the libraries imported is the flag `hasHardware`; the pin level and the SPI response bytes are parameters.
- Console output, plotting and the `__main__` demos are left out. The demo in src/HarmonicEncoder.py:64-80 is truncated.
- test/sim_FieldDisturbanceNoiseInjection.py calls `validate_with_signal`, which the decoder does not define. It is not modelled.
- src/FeedbackLockMonitor.py ends inside the loop at line 50. The `except` handler and the `return` that follow it are not in the file. `LockMonitor.Feedback` therefore lets a failing capture or FFT raise, and returns the lock flag as `listen_for_feedback` evidently would.
- `smear_spectrum` and `_desmear_spectrum` are modelled by their draw count and result length. Their values are the uninterpreted smear round trip.
- LockKey.HarmonicSeed: the seed is `int(abs(h * 1000)) % 9999` over the uninterpreted sine and cosine; beyond its range, its value is not constrained.
- PhaseValidator.CalcPhaseOffset: the mean unwrapped phase difference before `% 360` is uninterpreted. The model also makes no claim that the ideal Gankyil triple passes validation.
- LockKey.EqualKeysEqualSeeds: assumes, as a precondition, that SHA-256 does not collide on the two hash inputs.
- Encryption.DecryptEncrypt: the round trip is exact in real arithmetic. With floats it also needs rounding to land on h, which this model does not capture.
- NoiseMask.RemoveApplyNoise: the round trip holds only when `apply_noise` did not renormalise. That is the most the code as written allows; see Findings.
- Orchestration.Transmit: `sf.read` returning a multi-channel array, and the encoder's `isinstance` check on it, are modelled by always passing a one-dimensional array.

## Findings

| source | as written | input that shows it | evidently intended | confidence | as-written member | corrected member |
|---|---|---|---|---|---|---|
| src/SignalObfuscator.py:42-48 | `remove_noise` subtracts the keyed noise but does not undo the division by the peak at lines 37-38 | any waveform whose sum with the noise has a sample beyond 1 in magnitude, such as a peak-1 modulated waveform whose noise at the peak sample has the same sign (`NoiseMask.PeakOneRenormalises`) | the module's docstring (lines 3 and 10) promises the masking is fully reversible with the key | high, not executed | NoiseMask.RenormalisedNotRecovered | NoiseMask.RestoreApplyNoise |
