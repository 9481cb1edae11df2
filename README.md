# GhostType speech preprocessing, native host and pipeline routing in Dafny

This project models four parts of GhostType.

- **The enhancement engine** (`EnhancementEngine.process`) is a fixed chain of stages over a mono waveform:
  - clip to [-1, 1];
  - DC removal;
  - a one-pole high-pass filter;
  - noise suppression, either a pass-through plugin or the WebRTC audio-processing module fed 10 ms frames of 16-bit PCM;
  - loudness normalisation (RMS target, LUFS with three fallbacks, or a dynaudnorm-like frame-gain normaliser with Gaussian smoothing);
  - an upward compressor, optionally chained into a limiter;
  - a final peak limiter;
  - the output metrics.

  Every stage returns its signal and a diagnostics map, and `process` merges the maps.
- **The strict WAV loader** checks its header guards in a fixed order (channels, then width, then rate) and decodes little-endian int16 PCM to `v / 32768`.
- **The Chromium native-messaging host**:
  - frames messages with a 4-byte little-endian length;
  - takes the tab's domain and the browser's bundle id from each message;
  - writes a hint to the inbox;
  - answers every message with one framed reply until the input ends, or until `urlparse` raises a ValueError on a malformed domain or URL field, which ends the host with nothing written for that message.
- **The inference pipeline's routing**:
  - the decision table that picks a waveform or a path for the recogniser;
  - the language argument;
  - the PATH prepend and restore around ffmpeg decoding;
  - the prompt-prefix strip of the refinement;
  - the fallback to the raw transcript in `main`.

Samples are reals. The exponential, logarithm, power, square root and percentile are fields of a `Numerics.Math` value passed to every stage. The predicates `ExpLaws`, `Exp10Laws`, `Log10Laws` and `StatLaws` state the few facts about them the proofs use, such as positivity, monotonicity at 0 and 1, and a percentile lying between the minimum and the maximum. The following collaborators are parameters:

- optional plugins;
- the WebRTC module;
- the loudness meter;
- `json.loads`/`json.dumps`;
- `urlparse(...).hostname`;
- the inbox write;
- the recogniser's results;
- the language model's output;
- ffmpeg discovery.

Modules, one per file:

| module | models |
|---|---|
| `Wrappers` | Option and Result |
| `Numerics` | `_clamp`, `np.clip`, `round`/`np.round` (half to even), block arithmetic |
| `Signals` | numpy helpers and the three `_estimate_*` metrics |
| `Bytes`, `Pcm16` | bytes, the `<i2` codec, `_float_to_pcm16` |
| `Smoother` | `_smooth_curve` |
| `EngineConfig` | the configuration records, the diagnostics `Value`, `_map_ns_level`, `_map_agc_params` |
| `Filters` | `_apply_dc_removal`, `_apply_high_pass_filter` |
| `NoiseSuppression` | `_apply_noise_suppression` |
| `Loudness` | `_apply_loudness_stage` and its three strategies |
| `Dynamics` | `_apply_upward_compressor`, `_apply_limiter`, `_apply_dynamics_stage` |
| `Engine` | `process` |
| `AudioIo` | `audio_io.py` |
| `Text` | `str.strip`, `str.lower`, `str.split`, `startswith`, `in`, `PurePath.suffix` |
| `NativeHost` | `chromium_native_host.py` |
| `InferencePipeline` | the routing and text logic of `inference_pipeline.py` |

The source's loops stay loops: the high-pass filter, the noise-suppression frame loop over a `processed` array, the dynaudnorm frame-gain and frame-scaling loops with the masked restore, the compressor and limiter sample loops, the host's `while True` loop over a `Host` object's streams, and the PATH mutation of a `ProcessEnvironment` object. Each is proved against a function that specifies it, and the listed properties are proved about those functions.

Behaviour of the code worth noting:

- A non-empty silent signal measures -140 dBFS on all three estimators, since 20 · log10(1e-7) = -140. The -120 dB sentinel is reported only for an empty signal (`Signals.SilenceLevels`).
- The engine's output is within [-1, 1] only when the final limiter is enabled or the dynamics chain ends in its own limiter (`Engine.Process`, `Engine.OutputLimited`). A disabled limiter with `dynamics = "upward_comp"` can emit boosted samples beyond full scale.
- An empty input gets the four requested-settings keys as well as `v2_empty_input`, not that flag alone.
- A `dynamics` value other than `off` and `upward_comp` behaves as `comp_limiter`.
- A frame whose JSON is valid but not an object ends the host's loop, just as the end of input does (`NativeHost.NonObjectEndsSession`).
- A ValueError from `urlparse` while the domain is extracted is not caught: only the inbox write is inside `try`. Such a message gets no reply and the host exits (`NativeHost.ParseErrorEndsSession`).
- After decoding with ffmpeg, a PATH that was unset is restored as the empty string, not removed (`InferencePipeline.ProcessEnvironment.WithDecodeEnvironment`).

## Model

| member | source | states |
|---|---|---|
| Numerics.Clamp | python/enhancement_engine.py:44-45 | never below `lower`; within [lower, upper] for a non-empty range; the value itself when in range; the bound it crosses otherwise; `lower` for an empty range |
| Numerics.Clip | python/enhancement_engine.py:121 | the clipped sample lies in [-1, 1] and equals any sample already in range |
| Numerics.RoundHalfEven | python/enhancement_engine.py:538 | the result is within one half of x, and even on a tie |
| Numerics.RoundHalfEvenUnique | python/enhancement_engine.py:538 | those two properties determine the rounding: any integer having them is `RoundHalfEven(x)` |
| Numerics.CeilDivIsDivision | python/enhancement_engine.py:241 | the number of frames `range(0, n, fs)` visits is `(n + fs - 1) / fs` |
| Signals.ClipAll | python/enhancement_engine.py:121 | `np.clip(signal, -1, 1)`: same length, each sample clipped, all in [-1, 1] |
| Signals.MaxAbs | python/enhancement_engine.py:526 | `np.max(np.abs(s))` is non-negative and bounds every magnitude |
| Signals.DbfsAtLeastFloor | python/enhancement_engine.py:521 | `20 * log10(max(level, 1e-7))` is never below -140 dB |
| Signals.LevelsBounded | python/enhancement_engine.py:517-534 | the levels `RmsDbfs`, `PeakDbfs` and `NoiseFloorDb` (the three `_estimate_*` metrics) are at least -140 dB, and all three are the -120 dB sentinel on an empty signal |
| Signals.SilenceLevels | python/enhancement_engine.py:517-534 | a non-empty all-zero signal measures exactly -140 dB on `RmsDbfs`, `PeakDbfs` and `NoiseFloorDb` |
| Signals.MeanBounds | python/enhancement_engine.py:447 | a mean of values in [lo, hi] lies in [lo, hi] |
| Pcm16.Int16FromLE | python/audio_io.py:40 | two little-endian bytes give an int16, non-negative exactly when the high byte is below 128 |
| Pcm16.Int16ToLE | python/enhancement_engine.py:247 | the two bytes written for an int16 decode back to it |
| Pcm16.Int16BytesRoundTrip | python/enhancement_engine.py:247-251 | every byte pair is the encoding of the int16 it decodes to |
| Pcm16.DecodeInt16LE | python/audio_io.py:40 | `np.frombuffer(raw, "<i2")`: half as many values as bytes, all int16 |
| Pcm16.DecodeInt16LEAt | python/audio_io.py:40 | value k comes from bytes 2k and 2k + 1 |
| Pcm16.EncodeInt16LE | python/enhancement_engine.py:247 | `tobytes()` of int16 values gives two bytes per value |
| Pcm16.Int16SeqRoundTrip | python/enhancement_engine.py:247-251 | decoding the bytes of an int16 array gives the array back |
| Pcm16.Int16BytesSeqRoundTrip | python/enhancement_engine.py:247-251 | encoding the decoded values of an even-length buffer gives the buffer back |
| Pcm16.Int16ToFloat | python/enhancement_engine.py:251 | `v / 32768` of an int16 lies in [-1, 32767/32768] |
| Pcm16.SampleToPcm16 | python/enhancement_engine.py:536-538 | a code in [-32767, 32767], within half a step of the clipped sample times 32767 |
| Pcm16.FloatToPcm16 | python/enhancement_engine.py:536-538 | one int16 code per sample, each the `SampleToPcm16` of it |
| Pcm16.FloatToPcm16Pointwise | python/enhancement_engine.py:536-538 | the code of a sample depends on its value only, not its position |
| Pcm16.PcmRoundTripScale | python/enhancement_engine.py:247-251 | a sample encoded with 32767 and decoded with 32768 returns scaled by 32767/32768, up to half a code |
| Pcm16.FullScaleRoundTrip | python/enhancement_engine.py:247-251 | full scale 1.0 returns as 32767/32768 |
| Smoother.KernelLength | python/enhancement_engine.py:543 | `max(3, window \| 1)` is odd, at least 3, at least the window, and the least such number |
| Smoother.Sigma | python/enhancement_engine.py:544 | sigma is at least 1 |
| Smoother.GaussWeights | python/enhancement_engine.py:545-547 | one weight per kernel position, weight j taken at x = j - len / 2 |
| Smoother.GaussEven | python/enhancement_engine.py:547 | the Gaussian takes the same value at x and -x |
| Smoother.DivideAll | python/enhancement_engine.py:548 | `kernel / sum` divides every weight |
| Smoother.Kernel | python/enhancement_engine.py:547-548 | the normalised kernel has the requested length |
| Smoother.KernelNormalised | python/enhancement_engine.py:543-548 | the kernel for any window has odd length of at least 3, positive weights, and weights summing to exactly 1 |
| Smoother.KernelSymmetric | python/enhancement_engine.py:545-548 | the kernel equals its reversal, so convolving with it is correlating with it |
| Smoother.EdgePad | python/enhancement_engine.py:549 | edge padding adds `half` samples at each end |
| Smoother.EdgePadWindowBounded | python/enhancement_engine.py:549 | every padded value is an input value, so padding keeps bounds |
| Smoother.ConvolveValid | python/enhancement_engine.py:550 | "valid" convolution has `len(a) - len(v) + 1` outputs |
| Smoother.ConvolveBounded | python/enhancement_engine.py:550 | convolving values in [lo, hi] with a non-negative kernel summing to 1 stays in [lo, hi] |
| Smoother.SmoothCurve | python/enhancement_engine.py:540-550 | returns inputs of size at most 1 as they are; otherwise keeps the length |
| Smoother.SmoothCurveBounded | python/enhancement_engine.py:540-550 | smoothing a curve with values in [lo, hi] gives values in [lo, hi] |
| Smoother.SmoothCurveConstant | python/enhancement_engine.py:540-550 | smoothing a constant curve gives it back unchanged |
| Filters.DcRemoval | python/enhancement_engine.py:153-156 | same length; the report has exactly one key, `dc_offset_removed` |
| Filters.DcRemovalCentres | python/enhancement_engine.py:153-156 | the centred signal has mean exactly 0, and every sample moved by the reported offset |
| Filters.HpfAlpha | python/enhancement_engine.py:167-169 | alpha = rc / (rc + dt) lies strictly between 0 and 1 |
| Filters.OnePoleHighPassUnique | python/enhancement_engine.py:171-174 | the recurrence `y[0] = x[0]`, `y[i] = alpha (y[i-1] + x[i] - x[i-1])` determines the output |
| Filters.HighPassBlocksDc | python/enhancement_engine.py:171-174 | on a constant input the output decays geometrically by alpha and never exceeds the input's magnitude |
| Filters.HpfStepOnConstant | python/enhancement_engine.py:174 | on a constant input one filter step is `alpha * previous output` |
| Filters.OnePoleResponse | python/enhancement_engine.py:171-174 | the filling loop produces the one-pole response |
| Filters.HighPassFilter | python/enhancement_engine.py:158-181 | the method computes `HighPassed`: fewer than 2 samples or cutoff <= 0 pass through with `hpf_enabled = False`; otherwise the one-pole response with the three-key report |
| EngineConfig.MapNsLevel | python/enhancement_engine.py:503-510 | a level in 0..3; 1 for any unknown name |
| EngineConfig.NsLevelTable | python/enhancement_engine.py:503-510 | low, moderate, high, veryhigh map to 0, 1, 2, 3 |
| EngineConfig.MapAgcParams | python/enhancement_engine.py:512-515 | (18, 68) exactly in high_quality mode, (20, 58) otherwise |
| NoiseSuppression.ResolveNsRoute | python/enhancement_engine.py:188-216 | each route holds exactly when its condition does: off for "off" and unknown names; `<name>_passthrough` for a present plugin; WebRTC for "webrtc" or a missing plugin when the module imported; unavailable when it did not |
| NoiseSuppression.MissingPluginFallsBack | python/enhancement_engine.py:193-210 | asking for a plugin that did not import is asking for WebRTC |
| NoiseSuppression.FrameSize | python/enhancement_engine.py:218 | the frame size is at least 1 and, from 100 Hz on, within one half of `sample_rate / 100` |
| NoiseSuppression.PadTo | python/enhancement_engine.py:244-245 | `np.pad` to `len`: the samples, then zeros |
| NoiseSuppression.InputFrame | python/enhancement_engine.py:242-245 | the frame at `start` has `fs` samples: the input from `start`, zeros past the end |
| NoiseSuppression.FrameBytesEncode | python/enhancement_engine.py:247 | the sample-by-sample payload is `tobytes()` of the quantised frame |
| NoiseSuppression.PayloadEncode | python/enhancement_engine.py:247 | the payload of a frame is `_float_to_pcm16(frame).tobytes()`, `2 * fs` bytes |
| NoiseSuppression.ToFloats | python/enhancement_engine.py:251 | each int16 divided by 32768 |
| NoiseSuppression.DecodeResponse | python/enhancement_engine.py:246-255 | a frame succeeds exactly when the module answers with an even number of bytes, and then has at least `fs` samples |
| NoiseSuppression.DecodeFrame | python/enhancement_engine.py:251-253 | decoding from sample j on gives `max(fs, len / 2) - j` samples |
| NoiseSuppression.DecodeFrameAt | python/enhancement_engine.py:251-253 | sample i is the int16 of bytes 2i, 2i + 1 over 32768, or padding zero |
| NoiseSuppression.DecodeFrameIsPadded | python/enhancement_engine.py:251-253 | the decoded answer is `np.frombuffer(...) / 32768` padded to `fs` |
| NoiseSuppression.LoopLength | python/enhancement_engine.py:239-258 | a successful frame loop fills exactly one sample per input sample |
| NoiseSuppression.LoopAdvances | python/enhancement_engine.py:241-258 | a frame that succeeds contributes its first `end - start` samples and the loop continues at `start + fs` |
| NoiseSuppression.SpliceFrame | python/enhancement_engine.py:257 | writing a frame's slice extends the filled prefix by exactly that slice |
| NoiseSuppression.ProcessFrame | python/enhancement_engine.py:242-255 | one iteration sends the frame's payload, decodes the answer, and takes one step of the loop specification |
| NoiseSuppression.WriteFrame | python/enhancement_engine.py:257 | `processed[start:end] = out_frame[:end - start]` on a filled prefix |
| NoiseSuppression.ProcessFrames | python/enhancement_engine.py:239-258 | the frame loop computes `WebRtcRun`, the loop specification; on success, one sample per input sample and `ceil(n / fs)` frames |
| NoiseSuppression.NoiseSuppressionStage | python/enhancement_engine.py:183-266 | the method computes `Denoised`, whose WebRTC route is `WebRtcRun`: it returns the untouched input with its tag on every route except a successful WebRTC run: off, pass-through, unavailable, too short (0 frames), an init or a per-frame error (with `ns_error`); a successful run returns the frame outputs and `ceil(n / fs)` frames |
| NoiseSuppression.PayloadDecodes | python/enhancement_engine.py:247-251 | decoding a payload gives back its quantised padded frame |
| NoiseSuppression.QuantisedFrame | python/enhancement_engine.py:243-257 | the covered part of a quantised frame is the quantised input slice |
| NoiseSuppression.EchoFrame | python/enhancement_engine.py:246-253 | a module that echoes its input returns each frame quantised |
| NoiseSuppression.EchoLoop | python/enhancement_engine.py:241-258 | with an echoing module, the loop fills the rest of the input quantised |
| NoiseSuppression.LoopDone | python/enhancement_engine.py:241 | past the end of the input the loop returns what it has filled |
| NoiseSuppression.EchoApmQuantises | python/enhancement_engine.py:239-258 | with an echoing module the run never fails and yields the input quantised to 16 bits |
| Loudness.DbToLinearBounds | python/enhancement_engine.py:393 | `10 ** (dB / 20)` is positive, at least 1 from 0 dB on, and exactly 1 at 0 dB |
| Loudness.ScaleNeverAttenuates | python/enhancement_engine.py:394 | a gain of at least 1 never makes a sample quieter |
| Loudness.RmsTargetDb | python/enhancement_engine.py:385-390 | -22 dBFS exactly in high_quality mode, -24 dBFS for every other mode |
| Loudness.RmsTarget | python/enhancement_engine.py:384-399 | same length, the three report keys, tagged `rms_target` |
| Loudness.RmsTargetNeverAttenuates | python/enhancement_engine.py:384-399 | the reported gain, `RmsGainDb`, lies in [0, maxGainDb] (in [0, 0] when the cap is negative), and no sample gets quieter |
| Loudness.RmsTargetLoudPassesThrough | python/enhancement_engine.py:391-394 | a signal already at or above the target passes unchanged |
| Loudness.MeasureRegion | python/enhancement_engine.py:296-298 | the speech samples when a mask of matching length marks any, else the whole signal |
| Loudness.ShortInputLimit | python/enhancement_engine.py:299 | `max(256, sample_rate // 10)` |
| Loudness.LufsNormalization | python/enhancement_engine.py:284-320 | same length, always tagged with a `lufs_backend` |
| Loudness.LufsRoutes | python/enhancement_engine.py:284-320 | `fallback_rms`, `fallback_rms_short_input`, `fallback_rms_error` and `pyloudnorm` each hold exactly under their conditions; a fallback is the RMS strategy; a measurement gives gain `LufsGainDb` in [-12, maxGainDb] |
| Loudness.LufsUniformGain | python/enhancement_engine.py:284-320 | every route applies one positive gain to the whole signal |
| Loudness.DynFrameMs | python/enhancement_engine.py:328-334 | 500 ms exactly in high_quality mode, 250 ms otherwise |
| Loudness.DynSmoothWindow | python/enhancement_engine.py:328-334 | 31 frames exactly in high_quality mode, 13 otherwise |
| Loudness.DynFrameLen | python/enhancement_engine.py:335 | at least 1 sample, within one half of the exact length when that is at least 1 |
| Loudness.DynMaxGainDb | python/enhancement_engine.py:336 | `min(maxGainDb, 10)` |
| Loudness.FrameAt | python/enhancement_engine.py:346 | frame k is `x[k * len : min(n, k * len + len)]`, empty past the end |
| Loudness.DesiredGain | python/enhancement_engine.py:347-353 | exactly 1 below the gate; otherwise in [1, maxLinear] (in [1, max(1, maxLinear)] always) |
| Loudness.FrameMap | python/enhancement_engine.py:344-354 | one value per frame, `ceil(n / len)` of them, each that frame's value |
| Loudness.GainCurve | python/enhancement_engine.py:344-354 | one desired gain per frame |
| Loudness.GainCurveBounded | python/enhancement_engine.py:349-354 | every frame gain lies in [1, max(1, maxLinear)] |
| Loudness.FrameGains | python/enhancement_engine.py:344-354 | the appending loop yields the per-frame values in frame order |
| Loudness.FrameOfIsDivision | python/enhancement_engine.py:365-367 | the frame of sample i is `i // len` |
| Loudness.FrameOfSample | python/enhancement_engine.py:365-367 | the samples of frame k are those whose frame is k |
| Loudness.FrameOfStart | python/enhancement_engine.py:365-367 | a sample lies within the frame it is assigned to |
| Loudness.FrameOfBounded | python/enhancement_engine.py:365-367 | every sample falls within one of the `ceil(n / len)` frames |
| Loudness.FrameScaled | python/enhancement_engine.py:364-367 | each sample scaled by its frame's gain; same length |
| Loudness.ApplyFrameGains | python/enhancement_engine.py:364-367 | the slice-writing loop produces the frame-scaled signal in a fresh array |
| Loudness.Restored | python/enhancement_engine.py:370-371 | the masked merge keeps the length |
| Loudness.RestoreNonSpeech | python/enhancement_engine.py:370-371 | `out[~mask] = signal[~mask]` gives exactly that merge of the old array |
| Loudness.DynaudnormSignal | python/enhancement_engine.py:363-371 | the dynaudnorm output has the input's length |
| Loudness.DynaudnormSignalPointwise | python/enhancement_engine.py:363-371 | a non-speech sample keeps its input value when the mask has the signal's length; any other is `x[i] * smoothed[i // len]` |
| Loudness.ScaleFramesRestoringNonSpeech | python/enhancement_engine.py:363-371 | the two array passes compute the dynaudnorm output |
| Loudness.Dynaudnorm | python/enhancement_engine.py:322-382 | an empty signal comes back with the base report; otherwise output = dynaudnorm signal of the smoothed gain curve; always tagged `dynaudnorm_like` |
| Loudness.DynaudnormNormalization | python/enhancement_engine.py:322-382 | the dynaudnorm result is the input with the base report for an empty signal, and the dynaudnorm signal of the smoothed gain curve otherwise; always tagged `dynaudnorm_like` |
| Loudness.DynaudnormGainsBounded | python/enhancement_engine.py:336-363 | the smoothed gains lie in [1, max(1, 10^(min(maxGainDb, 10) / 20))] |
| Loudness.LoudnessStage | python/enhancement_engine.py:268-282 | the method computes `LoudnessNormalization`: "lufs" gives exactly the LUFS result; "dynaudnorm" gives the input with the base report when empty, and otherwise the dynaudnorm signal of the smoothed gain curve, tagged `dynaudnorm_like`; any other name gives exactly the RMS-target result |
| Dynamics.Coefficient | python/enhancement_engine.py:427-428 | the smoothing coefficient lies strictly between 0 and 1 |
| Dynamics.EnvStepBounded | python/enhancement_engine.py:437-438 | one envelope step, `EnvStep`, stays within [0, b] when the envelope and the level do |
| Dynamics.EnvelopeBounded | python/enhancement_engine.py:435-438 | after n samples the envelope, `Envelope`, lies in [0, b] for any b bounding those samples' magnitudes |
| Dynamics.CompMaxLinear | python/enhancement_engine.py:433 | the boost cap is positive, and at least 1 for a non-negative `max_gain_db` |
| Dynamics.CompGain | python/enhancement_engine.py:439-443 | the gain lies in [1, max(1, maxLinear)] and is 1 from the threshold on |
| Dynamics.GainTrace | python/enhancement_engine.py:435-445 | sample i gets the gain of the envelope after sample i |
| Dynamics.CompressLoop | python/enhancement_engine.py:435-445 | the loop's gain trace is `GainTrace` and its output the products with the samples |
| Dynamics.UpwardCompressor | python/enhancement_engine.py:420-456 | the method computes `Compression`: the samples times the gain trace and the four-key report |
| Dynamics.CompressionBoosts | python/enhancement_engine.py:439-444 | each output of `Compression` (the upward compressor) is its sample times a gain in [1, max(1, 10^(min(maxGainDb, 18) / 20))]; no magnitude shrinks |
| Dynamics.CompTraceBounded | python/enhancement_engine.py:439-445 | every traced gain lies in [1, max(1, CompMaxLinear)] |
| Dynamics.CompressionPassesLoud | python/enhancement_engine.py:439-444 | a sample whose envelope has reached the threshold passes unchanged |
| Dynamics.CompressionEnvelopeBounded | python/enhancement_engine.py:435-438 | the compressor's envelope never exceeds the running maximum magnitude |
| Dynamics.CompressionStatsNonNegative | python/enhancement_engine.py:447-453 | the reported average and peak gains are at least 0 dB |
| Dynamics.TargetGain | python/enhancement_engine.py:487 | the target lies in (0, 1] and is 1 exactly up to the threshold |
| Dynamics.LimiterStepBounded | python/enhancement_engine.py:488-489 | one gain step stays in (0, 1] |
| Dynamics.LimiterGainBounded | python/enhancement_engine.py:481-490 | the running gain stays in (0, 1] |
| Dynamics.LimiterGainUnity | python/enhancement_engine.py:485-490 | while every sample is within the threshold, the gain is exactly 1 |
| Dynamics.LimiterGains | python/enhancement_engine.py:485-490 | sample i gets the gain after sample i |
| Dynamics.LimitLoop | python/enhancement_engine.py:481-491 | the loop fills `gains` with the gain sequence and `out` with the products, in fresh arrays |
| Dynamics.LimiterGainNext | python/enhancement_engine.py:488-490 | one loop step yields the next gain of the specification |
| Dynamics.ProductStep | python/enhancement_engine.py:491 | `out[i] = sample * gain` agrees with the product specification |
| Dynamics.LimiterThreshold | python/enhancement_engine.py:469-473 | the threshold, override first, lies in [0.6, 0.999] |
| Dynamics.LimiterAttackMs | python/enhancement_engine.py:474 | the attack is at least 0.1 ms and is the configured one from 0.1 ms on |
| Dynamics.LimiterReleaseMs | python/enhancement_engine.py:475 | the release is at least 1 ms and is the configured one from 1 ms on |
| Dynamics.Limiting | python/enhancement_engine.py:458-501 | disabled: the input and `limiter_reduction_db = 0`; enabled: every output sample in [-1, 1] |
| Dynamics.Limiter | python/enhancement_engine.py:458-501 | the method computes `Limiting` |
| Dynamics.LimiterAttenuates | python/enhancement_engine.py:485-493 | an enabled limiter never makes a sample louder |
| Dynamics.LimiterTraceBounded | python/enhancement_engine.py:485-490 | every limiter gain lies in (0, 1] |
| Dynamics.LimiterTransparent | python/enhancement_engine.py:485-493 | a signal within the threshold passes an enabled limiter unchanged |
| Dynamics.LimiterReductionNonNegative | python/enhancement_engine.py:494 | the reported reduction is at least 0 dB |
| Dynamics.Prefixed | python/enhancement_engine.py:416 | every key appears under `dyn_` with its value, and nothing else does |
| Dynamics.PrefixInjective | python/enhancement_engine.py:416 | distinct keys stay distinct under the prefix |
| Dynamics.PrefixAvoidsBackend | python/enhancement_engine.py:416-417 | no prefixed key is `dynamics_backend` |
| Dynamics.DynamicsStage | python/enhancement_engine.py:401-418 | the method computes `DynamicsProcessing`: "off" passes through; "upward_comp" compresses; any other setting compresses, then runs the limiter forced on with threshold `min(threshold, 0.99)`, reporting its keys under `dyn_`; the backend is always reported |
| Dynamics.ChainBounded | python/enhancement_engine.py:410-418 | under the chain every output lies in [-1, 1] and is no louder than the compressed sample |
| Engine.SelectNonEmpty | python/enhancement_engine.py:133-134 | a mask that marks a sample selects a non-empty region |
| Engine.NoiseEstimateMeasured | python/enhancement_engine.py:132-137 | the noise region is non-empty and the estimate `NoiseEstimateDb` is at least -140 dB |
| Engine.ClippingRatio | python/enhancement_engine.py:150 | the ratio lies in [0, 1] and is 0 exactly when no sample reaches 0.999 |
| Engine.CountAtLeastExtremes | python/enhancement_engine.py:150 | no sample counts when all are below the level; all count when all reach it |
| Engine.CleanupAndLoudness | python/enhancement_engine.py:123-140 | the output is loudness normalisation of noise suppression of the high-pass filter of DC removal of the input; the report is those stages' reports and the noise estimate merged in that order |
| Engine.DynamicsAndLimiter | python/enhancement_engine.py:142-146 | the output is the final limiter applied to the dynamics stage's output, with their reports merged in that order; it lies in [-1, 1] whenever a limiter has the last word |
| Engine.Process | python/enhancement_engine.py:104-151 | empty input comes back with the requested settings and `v2_empty_input`; otherwise the output is the end of the stage chain `Chain` on the clipped input, the report `MergedReport` merges the requested settings and every stage's report in stage order, and the three metrics are those of the output, which lies in [-1, 1] whenever a limiter has the last word |
| Engine.MergedReportKeys | python/enhancement_engine.py:110-150 | in `MergedReport`, no key of any stage's report is lost in the merged report, and the three output metrics are in it |
| Engine.ChainReports | python/enhancement_engine.py:110-150 | the merged report `MergedReport` of the stage chain `Chain` always names the DC offset, the high-pass state, the noise-suppression backend, the noise estimate, the dynamics backend and the limiter state; the chain's output is in [-1, 1] whenever a limiter has the last word |
| AudioIo.ReadWavBytes | python/audio_io.py:51-71 | the header always; the frame bytes only when asked for |
| AudioIo.ReadWavMetadata | python/audio_io.py:44-48 | the same header a full load reads |
| AudioIo.CheckHeader | python/audio_io.py:27-38 | passes exactly for (1, 2, 16000); otherwise reports channels first, then width, then rate |
| AudioIo.DecodePcm16 | python/audio_io.py:40-41 | succeeds exactly on an even length, with half as many samples; otherwise a buffer-size error |
| AudioIo.LoadWavPcm16Mono | python/audio_io.py:22-41 | the first failing guard's error, else the decode of the frames |
| AudioIo.DecodePcm16At | python/audio_io.py:40-41 | sample k is the int16 of bytes 2k, 2k + 1 over 32768, in [-1, 32767/32768], so the clip is a no-op |
| AudioIo.LoadSucceeds | python/audio_io.py:22-41 | loads exactly a mono 16-bit 16 kHz file with whole samples, giving len/2 samples in [-1, 1] |
| AudioIo.LoadEncoded | python/audio_io.py:22-41 | the bytes of int16 samples in a conforming file load as those samples over 32768 |
| Text.LeadingSpace | python/inference_pipeline.py:197 | the length of the leading whitespace run |
| Text.TrailingSpace | python/inference_pipeline.py:197 | the length of the trailing whitespace run |
| Text.Strip | python/inference_pipeline.py:197 | no longer than the input, stripped, and empty exactly for a blank string |
| Text.StripSurround | python/inference_pipeline.py:197 | the input is whitespace, its strip, whitespace |
| Text.StripStripped | python/inference_pipeline.py:197 | a stripped string is its own strip |
| Text.StripIdempotent | python/inference_pipeline.py:197 | stripping twice is stripping once |
| Text.LowerChar | scripts/chromium_native_host.py:64 | lowering keeps whitespace and leaves no capital |
| Text.Lower | scripts/chromium_native_host.py:64 | lowering character by character |
| Text.LowerLaws | scripts/chromium_native_host.py:64 | lowering leaves no capital, changes nothing in a lower-case string, and keeps a stripped string stripped |
| Text.Split | python/inference_pipeline.py:178 | at least one piece, none holding the separator |
| Text.SplitWhole | python/inference_pipeline.py:178 | a string without the separator is one piece |
| Text.SplitHead | python/inference_pipeline.py:178 | a separator-free head then a separator splits off as the first piece |
| Text.NonEmpty | python/inference_pipeline.py:178 | the non-empty pieces, and only those |
| Text.BaseName | python/inference_pipeline.py:122 | the name has no '/' |
| Text.LastDot | python/inference_pipeline.py:124 | the last '.' of the name, or none at all |
| Text.Suffix | python/inference_pipeline.py:124 | empty, or a '.' followed by at least one character with no further '.' and no '/' |
| NativeHost.EncodeU32LE | scripts/chromium_native_host.py:54 | four bytes |
| NativeHost.DecodeU32LE | scripts/chromium_native_host.py:39 | a value below 2^32 |
| NativeHost.U32RoundTrip | scripts/chromium_native_host.py:39-54 | unpacking a packed length gives the length |
| NativeHost.U32BytesRoundTrip | scripts/chromium_native_host.py:39-54 | packing an unpacked prefix gives the four bytes |
| NativeHost.Frame | scripts/chromium_native_host.py:52-56 | framed exactly when shorter than 2^32 bytes: four length bytes then the data |
| NativeHost.Take | scripts/chromium_native_host.py:34-40 | `read(n)` gives at most n bytes, fewer only at the end of the stream |
| NativeHost.ReadFrame | scripts/chromium_native_host.py:33-42 | none at the end, after fewer than 4 length bytes, or on a short payload; a payload read is the declared bytes after its prefix |
| NativeHost.FrameRoundTrip | scripts/chromium_native_host.py:33-56 | reading a written frame yields the data and consumes exactly 4 + len bytes, whatever surrounds it |
| NativeHost.FrameReadsBack | scripts/chromium_native_host.py:33-56 | a lone frame reads back and is consumed entirely |
| NativeHost.ReadMessage | scripts/chromium_native_host.py:33-49 | a message exactly when a frame was read and parsed to a JSON object |
| NativeHost.HostOf | scripts/chromium_native_host.py:63-64 | a host exactly when `urlparse` does not raise, and then stripped and lower-case; otherwise the parse's error |
| NativeHost.ExtractDomain | scripts/chromium_native_host.py:59-72 | None for blank input; the error of the direct parse when it raises; the stripped, lower-cased host of the direct parse when it has one; otherwise, exactly when the value has no "://", the host of the `https://` retry, its error, or None; otherwise None. A domain found is non-empty, stripped and lower-case |
| NativeHost.DecidingFlags | scripts/chromium_native_host.py:77-84 | which fields are strings that give a domain or whose parse raises |
| NativeHost.FirstTrue | scripts/chromium_native_host.py:77-84 | the first deciding index, with none before it |
| NativeHost.FirstDomain | scripts/chromium_native_host.py:76-86 | the outcome (domain or parse error) of the first deciding field, no field before it deciding; neither exactly when no field decides |
| NativeHost.ExplicitBundle | scripts/chromium_native_host.py:88-93 | the stripped value of the first key's field when that is a non-blank string; "" exactly when no key's field is one |
| NativeHost.ExplicitBundleFirst | scripts/chromium_native_host.py:88-93 | a non-empty explicit bundle id is the stripped value of the first non-blank string field among the keys, no earlier key qualifying |
| NativeHost.BrowserBundle | scripts/chromium_native_host.py:95-98 | a known browser's bundle id or "" |
| NativeHost.BundleId | scripts/chromium_native_host.py:88-101 | never empty: the explicit id when there is one, else the browser's table entry when it is known, else `com.google.Chrome` |
| NativeHost.NormalizePayload | scripts/chromium_native_host.py:75-103 | the parse error exactly when the first deciding field raises; None exactly when no field decides; otherwise the bundle id and the first domain, both non-empty |
| NativeHost.Reply | scripts/chromium_native_host.py:125-143 | no reply, only the error, when extracting the domain raises; the missing-domain error with nothing written; the write's error with nothing written; or the ok reply with the hint written |
| NativeHost.Serve | scripts/chromium_native_host.py:119-143 | the session only appends to stdout and ends within the input |
| NativeHost.ServeAtEnd | scripts/chromium_native_host.py:120-123 | at the end of the input the loop returns 0 at once with nothing written |
| NativeHost.ServeStep | scripts/chromium_native_host.py:120-143 | a message is answered with its framed reply before the loop goes on |
| NativeHost.ServeOneMessage | scripts/chromium_native_host.py:119-143 | one framed object message gets exactly one framed reply, then the session ends |
| NativeHost.NonObjectEndsSession | scripts/chromium_native_host.py:119-123 | a frame that is not a JSON object ends the session with nothing more written |
| NativeHost.DomainFieldRaises | scripts/chromium_native_host.py:59-78 | a non-blank string `domain` field whose parse raises makes `_normalize_payload` raise that error, whatever the other fields hold |
| NativeHost.ReadFramedObject | scripts/chromium_native_host.py:33-49 | a framed JSON object at the head of the input is read back as that object, consuming its frame |
| NativeHost.ServeRaises | scripts/chromium_native_host.py:119-126 | a message with no reply ends the session with its error, stdout and inbox untouched |
| NativeHost.ParseErrorEndsSession | scripts/chromium_native_host.py:119-126 | a framed message whose domain extraction raises ends the session with that error, nothing written for it and the inbox untouched, even when more messages follow |
| NativeHost.Host.Read | scripts/chromium_native_host.py:34-40 | `read(n)` advances the stream by the bytes it returns |
| NativeHost.Host.ReadMessageFrom | scripts/chromium_native_host.py:33-49 | the stream method computes `ReadMessage` |
| NativeHost.Host.SendMessage | scripts/chromium_native_host.py:52-56 | writes the frame of the printed message, or nothing when it cannot be framed |
| NativeHost.Host.Run | scripts/chromium_native_host.py:119-143 | the loop leaves stdout, inbox, exit and stream position as `Serve` describes |
| InferencePipeline.LanguageValue | python/inference_pipeline.py:101-104 | None exactly for "auto" in any case; otherwise the language unchanged |
| InferencePipeline.PrepareTranscribeInput | python/inference_pipeline.py:121-148 | the path with ffmpeg only when ffmpeg was found; the waveform only for a loadable WAV and an array-capable recogniser; a RuntimeError only without ffmpeg; a missing file or a container `wave.open` rejects passes its error through; non-WAV input goes to ffmpeg or fails |
| InferencePipeline.WavRouting | python/inference_pipeline.py:126-143 | a loadable WAV goes to an array-capable recogniser as its waveform, and otherwise to ffmpeg or fails with the ndarray message; one failing a header guard goes to ffmpeg or fails with the WAV message; frame bytes that are not whole samples raise the decode error; a container `wave.open` rejects fails with its own error, ffmpeg or not |
| InferencePipeline.PathEntries | python/inference_pipeline.py:178 | the non-empty `os.pathsep` pieces of PATH |
| InferencePipeline.PrependedPath | python/inference_pipeline.py:183 | the new PATH begins with the ffmpeg directory |
| InferencePipeline.PrependedEntries | python/inference_pipeline.py:183 | the directory becomes the first entry and the old entries follow in order |
| InferencePipeline.ProcessEnvironment.WithDecodeEnvironment | python/inference_pipeline.py:167-187 | raises exactly when ffmpeg is required and missing; PATH untouched when not required or already holding the directory; otherwise prepended during the body and restored after |
| InferencePipeline.RawText | python/inference_pipeline.py:197 | the transcript is stripped, and "" without text |
| InferencePipeline.RunLlm | python/inference_pipeline.py:221-251 | "" for an empty transcript; otherwise stripped |
| InferencePipeline.PromptRemovedOnce | python/inference_pipeline.py:245-249 | a leading prompt is removed once only; other text is only stripped |
| InferencePipeline.RefinedText | python/inference_pipeline.py:303-309 | the raw text when skipped; otherwise the raw text or the non-empty refinement |
| InferencePipeline.RefinedEmptyIffRawEmpty | python/inference_pipeline.py:303-309 | the refined text is empty exactly when the transcript is |
| InferencePipeline.PipelineMain | python/inference_pipeline.py:283-334 | exit 2 exactly without audio; a recogniser error fails the pipeline; skipping gives raw = refined and no model; when the model is consulted, its error fails the pipeline and otherwise the refined text is the `run_llm` result with the fallback to the raw text; refined is empty exactly when raw is |

## Left out

- Floating point: samples and gains are reals. The float32 casts, float64 accumulation and NaN of `np.mean([])` are not modelled, and neither is the `round(x, 2)`/`round(x, 6)` applied to reported values (reported numbers are exact).
- Transcendental functions (`exp`, `log10`, `10 **`, `**`, `sqrt`, `np.percentile`, the Gaussian weights) are parameters with sign and range laws only. No concrete dB value is computed.
- Optional plugins, the WebRTC module's internals, pyloudnorm's meter, `probe_enhancement_plugins` and `shutil.which` are parameters. The WebRTC module is a function from the frames sent so far and the new payload to an answer or an error; an answer given as `str` and re-encoded as latin-1 is taken to be bytes already.
- Engine.Process and Engine.CleanupAndLoudness: `sampleRate > 0` is required, because the high-pass filter divides by it; the requirement holds even when the configuration disables the filter. Filters.HighPassFilter and Filters.HighPassed require it only on the filtering path, where the division happens. A non-positive rate is not modelled.
- Dynamics: both sample loops use the fixed 16 kHz rate for their time constants, as the code does.
- Dynamics.CompressLoop builds its outputs as sequences rather than filling preallocated arrays.
- The `wave` module's parsing, the file-exists check and path resolution of `_read_wav_bytes` are not modelled. A file is given by the header fields and bytes `wave.open` reports; in the routing of `_prepare_transcribe_input`, a container it rejects (`wave.Error`, `EOFError`) enters as the message of that error.
- Text.Lower: ASCII letters only. Python's full Unicode case mapping is not modelled; the Unicode whitespace set of `str.strip` is.
- Text.BaseName: a trailing '/' yields an empty name here, while `PurePath` drops trailing slashes first.
- JSON parsing and printing, `urlparse(...).hostname` (its result or the message of its ValueError) and `_write_inbox` (its directory creation, temp file, atomic replace and timestamp) are parameters. JSON objects are maps, so key order is not kept.
- NativeHost.Host.Run: reads come from a fixed input sequence; blocking reads and flushing are not modelled.
- `apply_background_scheduling`, `_resolve_ffmpeg_path`'s file system checks, `inspect.signature` probing, `mlx_whisper.transcribe`, `mlx_lm.load`/`generate` with their `TypeError` retries, argparse, timing and the printed JSON/text output are not modelled. Their results enter as parameters.
- InferencePipeline.PipelineMain: `run_asr` is given by its result, so the transcribe and environment steps it runs are covered by the members above, not composed into it.
