/** `_apply_loudness_stage` and its three strategies: `_apply_rms_target`,
    `_apply_lufs_normalization` (with its three fallbacks to the RMS target) and the
    frame-gain normaliser `_apply_dynaudnorm_like`. */
module Loudness {
  import opened Wrappers
  import opened Numerics
  import opened Signals
  import opened EngineConfig
  import opened Smoother

  /** `10 ** (db / 20)`. */
  function DbToLinear(m: Math, db: real): real {
    m.exp10(db / 20.0)
  }

  /** A gain of at least 0 dB is a linear factor of at least 1, and 0 dB is exactly 1. */
  lemma DbToLinearBounds(m: Math, db: real)
    requires Exp10Laws(m)
    ensures DbToLinear(m, db) > 0.0
    ensures db >= 0.0 ==> DbToLinear(m, db) >= 1.0
    ensures db == 0.0 ==> DbToLinear(m, db) == 1.0
  {
  }

  /** A factor of at least 1 never makes a sample quieter. */
  lemma ScaleNeverAttenuates(x: seq<real>, g: real, i: nat)
    requires g >= 1.0 && i < |x|
    ensures Abs(Scale(x, g)[i]) >= Abs(x[i])
  {
    if x[i] >= 0.0 {
      assert x[i] * (g - 1.0) >= 0.0;
    } else {
      assert (-x[i]) * (g - 1.0) >= 0.0;
    }
  }

  // ---------------------------------------------------------------- RMS target

  /** `target_map.get(mode, -24.0)`: -22 dBFS in high_quality mode, -24 dBFS otherwise
      (fast_dsp, custom and any unknown mode). */
  function RmsTargetDb(mode: string): (t: real)
    ensures mode == "high_quality" <==> t == -22.0
    ensures mode != "high_quality" <==> t == -24.0
  {
    if mode == "high_quality" then -22.0
    else if mode == "fast_dsp" || mode == "custom" then -24.0
    else -24.0
  }

  /** The RMS strategy's gain in dB: the distance to the target, clamped to [0, maxGainDb]. */
  function RmsGainDb(m: Math, cfg: Config, x: seq<real>): real {
    Clamp(RmsTargetDb(cfg.mode) - RmsDbfs(m, x), 0.0, cfg.targets.maxGainDb)
  }

  /** `_apply_rms_target`: one gain for the whole signal. */
  function RmsTarget(m: Math, cfg: Config, x: seq<real>): (r: StageResult)
    ensures |r.signal| == |x|
    ensures r.stats.Keys == {"loudness_backend", "applied_gain_db", "target_rms_dbfs"}
    ensures r.stats["loudness_backend"] == Tag("rms_target")
  {
    var gainDb := RmsGainDb(m, cfg, x);
    StageResult(Scale(x, DbToLinear(m, gainDb)),
                map["loudness_backend" := Tag("rms_target"), "applied_gain_db" := Num(gainDb),
                    "target_rms_dbfs" := Num(RmsTargetDb(cfg.mode))])
  }

  /** The RMS gain lies in [0, maxGainDb] (in [0, 0] when maxGainDb < 0), so the strategy
      never attenuates: every output sample is at least as loud as its input sample. */
  lemma RmsTargetNeverAttenuates(m: Math, cfg: Config, x: seq<real>)
    requires Exp10Laws(m)
    ensures var r := RmsTarget(m, cfg, x);
      && r.stats["applied_gain_db"] == Num(RmsGainDb(m, cfg, x))
      && 0.0 <= RmsGainDb(m, cfg, x) <= Max2(0.0, cfg.targets.maxGainDb)
      && (cfg.targets.maxGainDb >= 0.0 ==> RmsGainDb(m, cfg, x) <= cfg.targets.maxGainDb)
      && forall i :: 0 <= i < |x| ==> Abs(r.signal[i]) >= Abs(x[i])
  {
    var g := DbToLinear(m, RmsGainDb(m, cfg, x));
    DbToLinearBounds(m, RmsGainDb(m, cfg, x));
    forall i | 0 <= i < |x| ensures Abs(Scale(x, g)[i]) >= Abs(x[i]) {
      ScaleNeverAttenuates(x, g, i);
    }
  }

  /** A signal already at or above the target level passes through unchanged. */
  lemma RmsTargetLoudPassesThrough(m: Math, cfg: Config, x: seq<real>)
    requires Exp10Laws(m)
    requires RmsDbfs(m, x) >= RmsTargetDb(cfg.mode)
    ensures RmsTarget(m, cfg, x).signal == x
  {
    assert RmsGainDb(m, cfg, x) == 0.0;
    DbToLinearBounds(m, 0.0);
    assert Scale(x, 1.0) == x;
  }

  // ---------------------------------------------------------------- LUFS

  /** pyloudnorm's `Meter(sample_rate).integrated_loudness(samples)`; `None` when it raises. */
  type Meter = (int, seq<real>) -> Option<real>

  /** The samples the meter measures: the speech samples when a mask of the signal's length
      marks at least one, otherwise the whole signal. */
  function MeasureRegion(x: seq<real>, mask: Option<seq<bool>>): (r: seq<real>)
    ensures mask.Some? && |mask.value| == |x| && true in mask.value ==> r == Select(x, mask.value, true)
    ensures !(mask.Some? && |mask.value| == |x| && true in mask.value) ==> r == x
  {
    if mask.Some? && |mask.value| == |x| && true in mask.value then Select(x, mask.value, true) else x
  }

  /** `max(256, sample_rate // 10)`: the fewest samples the meter is trusted with. */
  function ShortInputLimit(sampleRate: int): (n: int)
    ensures n >= 256 && n >= sampleRate / 10
    ensures n == 256 || n == sampleRate / 10
  {
    if 256 >= sampleRate / 10 then 256 else sampleRate / 10
  }

  /** The RMS stage with an extra `lufs_backend` tag saying why the meter was not used. */
  function RmsFallback(m: Math, cfg: Config, x: seq<real>, why: string): StageResult {
    var rms := RmsTarget(m, cfg, x);
    StageResult(rms.signal, rms.stats["lufs_backend" := Tag(why)])
  }

  /** The LUFS strategy's gain in dB: the distance from the measured loudness to the
      target, clamped to [-12, maxGainDb]. */
  function LufsGainDb(cfg: Config, measured: real): real {
    Clamp(cfg.targets.lufsTarget - measured, -12.0, cfg.targets.maxGainDb)
  }

  /** `_apply_lufs_normalization`. `pyln` says whether pyloudnorm imported. */
  function LufsNormalization(m: Math, cfg: Config, pyln: bool, meter: Meter, x: seq<real>,
                             sampleRate: int, mask: Option<seq<bool>>): (r: StageResult)
    ensures |r.signal| == |x|
    ensures "lufs_backend" in r.stats
  {
    if !pyln then RmsFallback(m, cfg, x, "fallback_rms")
    else
      var measure := MeasureRegion(x, mask);
      if |measure| < ShortInputLimit(sampleRate) then RmsFallback(m, cfg, x, "fallback_rms_short_input")
      else match meter(sampleRate, measure)
        case None => RmsFallback(m, cfg, x, "fallback_rms_error")
        case Some(measured) =>
          var gainDb := LufsGainDb(cfg, measured);
          StageResult(Scale(x, DbToLinear(m, gainDb)),
                      map["lufs_backend" := Tag("pyloudnorm"), "speech_lufs" := Num(measured),
                          "target_lufs" := Num(cfg.targets.lufsTarget), "applied_gain_db" := Num(gainDb)])
  }

  /** Which way the LUFS strategy goes: one backend tag per case, each case exactly when
      its condition holds. A measurement is used only when pyloudnorm is present, the
      measured region is long enough and the meter did not raise, and its gain then lies
      in [-12, maxGainDb]. */
  lemma LufsRoutes(m: Math, cfg: Config, pyln: bool, meter: Meter, x: seq<real>,
                   sampleRate: int, mask: Option<seq<bool>>)
    ensures var r := LufsNormalization(m, cfg, pyln, meter, x, sampleRate, mask);
      var measure := MeasureRegion(x, mask);
      var long := |measure| >= ShortInputLimit(sampleRate);
      && (r.stats["lufs_backend"] == Tag("fallback_rms") <==> !pyln)
      && (r.stats["lufs_backend"] == Tag("fallback_rms_short_input") <==> pyln && !long)
      && (r.stats["lufs_backend"] == Tag("fallback_rms_error") <==>
            pyln && long && meter(sampleRate, measure).None?)
      && (r.stats["lufs_backend"] == Tag("pyloudnorm") <==>
            pyln && long && meter(sampleRate, measure).Some?)
      && (r.stats["lufs_backend"] != Tag("pyloudnorm") ==>
            r.signal == RmsTarget(m, cfg, x).signal
            && r.stats["applied_gain_db"] == Num(RmsGainDb(m, cfg, x)))
      && (r.stats["lufs_backend"] == Tag("pyloudnorm") ==>
            var g := LufsGainDb(cfg, meter(sampleRate, measure).value);
            && r.signal == Scale(x, DbToLinear(m, g))
            && r.stats["applied_gain_db"] == Num(g)
            && -12.0 <= g <= Max2(-12.0, cfg.targets.maxGainDb)
            && (cfg.targets.maxGainDb >= -12.0 ==> g <= cfg.targets.maxGainDb))
  {
  }

  /** Whatever the route, the LUFS strategy applies one positive gain to the whole signal. */
  lemma LufsUniformGain(m: Math, cfg: Config, pyln: bool, meter: Meter, x: seq<real>,
                        sampleRate: int, mask: Option<seq<bool>>)
    requires Exp10Laws(m)
    ensures exists g :: g > 0.0 && LufsNormalization(m, cfg, pyln, meter, x, sampleRate, mask).signal == Scale(x, g)
  {
    LufsRoutes(m, cfg, pyln, meter, x, sampleRate, mask);
    var r := LufsNormalization(m, cfg, pyln, meter, x, sampleRate, mask);
    if r.stats["lufs_backend"] == Tag("pyloudnorm") {
      var g := LufsGainDb(cfg, meter(sampleRate, MeasureRegion(x, mask)).value);
      DbToLinearBounds(m, g);
      assert r.signal == Scale(x, DbToLinear(m, g));
    } else {
      DbToLinearBounds(m, RmsGainDb(m, cfg, x));
      assert r.signal == Scale(x, DbToLinear(m, RmsGainDb(m, cfg, x)));
    }
  }

  // ---------------------------------------------------------------- dynaudnorm

  /** Analysis frames of 500 ms in high_quality mode and 250 ms otherwise. */
  function DynFrameMs(mode: string): (ms: int)
    ensures mode == "high_quality" <==> ms == 500
    ensures mode != "high_quality" <==> ms == 250
  {
    if mode == "high_quality" then 500 else 250
  }

  /** The smoothing window: 31 frames in high_quality mode and 13 otherwise. */
  function DynSmoothWindow(mode: string): (w: int)
    ensures mode == "high_quality" <==> w == 31
    ensures mode != "high_quality" <==> w == 13
  {
    if mode == "high_quality" then 31 else 13
  }

  /** `max(1, int(round(sample_rate * ms / 1000)))`. */
  function DynFrameLen(sampleRate: int, ms: int): (len: nat)
    ensures len >= 1
    ensures var exact := sampleRate as real * (ms as real / 1000.0);
      exact >= 1.0 ==> exact - 0.5 <= len as real <= exact + 0.5
  {
    var n := RoundHalfEven(sampleRate as real * (ms as real / 1000.0));
    if n < 1 then 1 else n
  }

  /** `min(max_gain_db, 10)`: the strategy never plans more than 10 dB. */
  function DynMaxGainDb(cfg: Config): (g: real)
    ensures g <= 10.0 && g <= cfg.targets.maxGainDb
    ensures g == 10.0 || g == cfg.targets.maxGainDb
  {
    Min2(cfg.targets.maxGainDb, 10.0)
  }

  const PeakTarget: real := 0.95

  /** Frame `k` of a signal cut into frames of `len` samples: from `k * len` (written
      `BlockStart(k, len)`) to the end of the frame or of the signal; empty past the end. */
  function FrameAt(x: seq<real>, len: nat, k: nat): (f: seq<real>)
    ensures BlockStart(k, len) < |x| ==> f == x[BlockStart(k, len)..Min(BlockStart(k, len) + len, |x|)]
    ensures BlockStart(k, len) >= |x| ==> f == []
  {
    var start := BlockStart(k, len);
    if start >= |x| then [] else x[start..Min(start + len, |x|)]
  }

  function Min(a: int, b: int): int { if a <= b then a else b }

  /** The gain desired for one frame: 1 when the frame is quieter than the gate, otherwise
      the gain that would bring its peak to 0.95 (peaks below 10^-5 count as 10^-5),
      clamped to [1, maxLinear]. */
  function DesiredGain(m: Math, frame: seq<real>, gateDb: real, maxLinear: real): (g: real)
    ensures RmsDbfs(m, frame) < gateDb ==> g == 1.0
    ensures g >= 1.0 && g <= Max2(1.0, maxLinear)
    ensures RmsDbfs(m, frame) >= gateDb && maxLinear >= 1.0 ==> 1.0 <= g <= maxLinear
  {
    if RmsDbfs(m, frame) < gateDb then 1.0
    else
      var peak := if |frame| > 0 then MaxAbs(frame) else 0.0;
      Clamp(PeakTarget / Max2(peak, 0.00001), 1.0, maxLinear)
  }

  /** `DesiredGain` with the signal-wide parameters fixed, as a function of the frame. */
  function DesiredGainOf(m: Math, gateDb: real, maxLinear: real): seq<real> -> real {
    frame => DesiredGain(m, frame, gateDb, maxLinear)
  }

  /** One value per frame of `x`, `ceil(|x| / len)` of them, frame `k` mapped by `g`. */
  function FrameMap(x: seq<real>, len: nat, g: seq<real> -> real): (r: seq<real>)
    requires len > 0
    ensures |r| == CeilDiv(|x|, len)
    ensures forall k :: 0 <= k < |r| ==> r[k] == g(FrameAt(x, len, k))
  {
    seq(CeilDiv(|x|, len), k requires 0 <= k => g(FrameAt(x, len, k)))
  }

  /** The per-frame gains: one per frame, `ceil(n / len)` of them. */
  function GainCurve(m: Math, x: seq<real>, len: nat, gateDb: real, maxLinear: real): (g: seq<real>)
    requires len > 0
    ensures |g| == CeilDiv(|x|, len)
    ensures forall k :: 0 <= k < |g| ==> g[k] == DesiredGain(m, FrameAt(x, len, k), gateDb, maxLinear)
  {
    FrameMap(x, len, DesiredGainOf(m, gateDb, maxLinear))
  }

  /** Every planned frame gain lies in [1, max(1, maxLinear)]. */
  lemma GainCurveBounded(m: Math, x: seq<real>, len: nat, gateDb: real, maxLinear: real)
    requires len > 0
    ensures var g := GainCurve(m, x, len, gateDb, maxLinear);
      forall k :: 0 <= k < |g| ==> 1.0 <= g[k] <= Max2(1.0, maxLinear)
  {
  }

  /** The first loop of `_apply_dynaudnorm_like`: the frames taken in order, each mapped to
      its desired gain by `g`. */
  method FrameGains(x: seq<real>, len: nat, g: seq<real> -> real) returns (gains: seq<real>)
    requires len > 0
    ensures gains == FrameMap(x, len, g)
  {
    gains := [];
    var start := 0;
    while start < |x|
      invariant start == BlockStart(|gains|, len) && start < |x| + len
      invariant forall k :: 0 <= k < |gains| ==> gains[k] == g(FrameAt(x, len, k))
      decreases |x| - start
    {
      var frame := x[start..Min(|x|, start + len)];
      assert frame == FrameAt(x, len, |gains|);
      gains := gains + [g(frame)];
      start := start + len;
    }
    BlockCount(|x|, len, |gains|);
  }

  /** The frame that sample `i` lies in, `i // len`, counted by repeated subtraction. */
  function FrameOf(i: nat, len: nat): nat
    requires len > 0
  {
    if i < len then 0 else FrameOf(i - len, len) + 1
  }

  /** `FrameOf` is integer division. */
  lemma {:induction false} FrameOfIsDivision(i: nat, len: nat)
    requires len > 0
    ensures FrameOf(i, len) == i / len
  {
    if i < len {
      DivUnique(i, len, 0);
    } else {
      FrameOfIsDivision(i - len, len);
      DivUnique(i, len, (i - len) / len + 1);
    }
  }

  /** The samples of frame `k` are the ones whose frame is `k`. */
  lemma {:induction false} FrameOfSample(i: nat, len: nat, k: nat)
    requires len > 0 && BlockStart(k, len) <= i < BlockStart(k, len) + len
    ensures FrameOf(i, len) == k
  {
    if k > 0 {
      FrameOfSample(i - len, len, k - 1);
    }
  }

  /** Frame `FrameOf(i, len)` starts at or before sample `i` and ends after it. */
  lemma {:induction false} FrameOfStart(i: nat, len: nat)
    requires len > 0
    ensures BlockStart(FrameOf(i, len), len) <= i < BlockStart(FrameOf(i, len), len) + len
  {
    if i >= len {
      FrameOfStart(i - len, len);
    }
  }

  /** Every sample of a signal of `n` samples lies in one of its `CeilDiv(n, len)` frames. */
  lemma FrameOfBounded(i: nat, len: nat, n: nat)
    requires len > 0 && i < n
    ensures FrameOf(i, len) < CeilDiv(n, len)
  {
    FrameOfStart(i, len);
    BlockBeforeEnd(n, len, FrameOf(i, len));
  }

  /** Each sample scaled by the gain of its frame. */
  function FrameScaled(x: seq<real>, len: nat, gains: seq<real>): (y: seq<real>)
    requires len > 0 && |gains| == CeilDiv(|x|, len)
    ensures |y| == |x|
  {
    seq(|x|, i requires 0 <= i < |x| => FrameOfBounded(i, len, |x|); x[i] * gains[FrameOf(i, len)])
  }

  /** The second loop: every sample of frame `idx` scaled by `gains[idx]`. */
  method ApplyFrameGains(x: seq<real>, len: nat, gains: seq<real>) returns (out: array<real>)
    requires len > 0 && |gains| == CeilDiv(|x|, len)
    ensures fresh(out) && out[..] == FrameScaled(x, len, gains)
  {
    out := new real[|x|];
    ghost var spec := FrameScaled(x, len, gains);
    var idx := 0;
    var start := 0;
    while start < |x|
      invariant start == BlockStart(idx, len) && start < |x| + len
      invariant forall i :: 0 <= i < start && i < |x| ==> out[i] == spec[i]
      decreases |x| - start
    {
      var end := Min(|x|, start + len);
      BlockBeforeEnd(|x|, len, idx);
      forall t | start <= t < end {
        out[t] := x[t] * gains[idx];
      }
      forall t | start <= t < end ensures out[t] == spec[t] {
        FrameOfSample(t, len, idx);
      }
      idx := idx + 1;
      start := start + len;
    }
    assert out[..] == spec;
  }

  /** The speech samples of `y` with the non-speech samples of `x` put back. */
  function Restored(y: seq<real>, x: seq<real>, mask: seq<bool>): (r: seq<real>)
    requires |y| == |x| == |mask|
    ensures |r| == |x|
  {
    seq(|x|, i requires 0 <= i < |x| => if mask[i] then y[i] else x[i])
  }

  /** `out[~speech_mask] = signal[~speech_mask]`. */
  method RestoreNonSpeech(out: array<real>, x: seq<real>, mask: seq<bool>)
    requires out.Length == |x| == |mask|
    modifies out
    ensures out[..] == Restored(old(out[..]), x, mask)
  {
    forall i | 0 <= i < |x| && !mask[i] {
      out[i] := x[i];
    }
  }

  /** The signal dynaudnorm produces: frames scaled by their smoothed gains, non-speech
      samples restored when a mask of the signal's length is given. */
  function DynaudnormSignal(x: seq<real>, len: nat, smoothed: seq<real>, mask: Option<seq<bool>>): (y: seq<real>)
    requires len > 0 && |smoothed| == CeilDiv(|x|, len)
    ensures |y| == |x|
  {
    var scaled := FrameScaled(x, len, smoothed);
    if mask.Some? && |mask.value| == |x| then Restored(scaled, x, mask.value) else scaled
  }

  /** Sample by sample: a non-speech sample keeps its input value, every other sample is
      its input value times the smoothed gain of its frame. */
  lemma {:induction false} DynaudnormSignalPointwise(x: seq<real>, len: nat, smoothed: seq<real>, mask: Option<seq<bool>>, i: nat)
    requires len > 0 && |smoothed| == CeilDiv(|x|, len) && i < |x|
    ensures FrameOf(i, len) < |smoothed|
    ensures DynaudnormSignal(x, len, smoothed, mask)[i] ==
      if mask.Some? && |mask.value| == |x| && !mask.value[i] then x[i] else x[i] * smoothed[FrameOf(i, len)]
  {
    FrameOfBounded(i, len, |x|);
  }

  /** The second half of `_apply_dynaudnorm_like`: the output array filled frame by frame,
      then the non-speech samples put back. */
  method ScaleFramesRestoringNonSpeech(x: seq<real>, len: nat, smoothed: seq<real>, mask: Option<seq<bool>>)
    returns (y: seq<real>)
    requires len > 0 && |smoothed| == CeilDiv(|x|, len)
    ensures y == DynaudnormSignal(x, len, smoothed, mask)
  {
    var out := ApplyFrameGains(x, len, smoothed);
    if mask.Some? && |mask.value| == out.Length {
      RestoreNonSpeech(out, x, mask.value);
    }
    y := out[..];
  }

  function DynaudnormBaseStats(gateDb: real): Stats {
    map["loudness_backend" := Tag("dynaudnorm_like"), "applied_gain_db" := Num(0.0),
        "noise_gate_db" := Num(gateDb)]
  }

  /** The full dynaudnorm-like report: the base keys with the applied gain, then the peak
      target, the gain ceiling, the frame length and the smoothing window. */
  function DynaudnormStats(appliedDb: real, gateDb: real, maxGainDb: real, frameMs: int, window: int): Stats {
    map["loudness_backend" := Tag("dynaudnorm_like"), "applied_gain_db" := Num(appliedDb),
        "noise_gate_db" := Num(gateDb), "dyn_peak_target" := Num(PeakTarget),
        "dyn_max_gain_db" := Num(maxGainDb), "dyn_frame_len_ms" := Int(frameMs),
        "dyn_gauss_window" := Int(window)]
  }

  /** The non-empty case of the dynaudnorm-like strategy: the frame gains, smoothed, scale
      the speech samples, and the report carries every parameter of the run. */
  function SmoothedGainsApplied(m: Math, x: seq<real>, len: nat, gains: seq<real>, window: int,
                                mask: Option<seq<bool>>, gateDb: real, maxGainDb: real,
                                frameMs: int): (r: StageResult)
    requires ExpLaws(m) && len > 0 && |gains| == CeilDiv(|x|, len) > 0
    ensures |r.signal| == |x|
    ensures "loudness_backend" in r.stats && r.stats["loudness_backend"] == Tag("dynaudnorm_like")
  {
    var smoothed := SmoothCurve(m, gains, window);
    StageResult(DynaudnormSignal(x, len, smoothed, mask),
                DynaudnormStats(Dbfs(m, Mean(smoothed)), gateDb, maxGainDb, frameMs, window))
  }

  /** The dynaudnorm-like result once the frame gains are known: without frames the input
      and the base report, otherwise the smoothed gains applied. */
  function DynaudnormOfGains(m: Math, x: seq<real>, len: nat, gains: seq<real>, window: int,
                             mask: Option<seq<bool>>, gateDb: real, maxGainDb: real,
                             frameMs: int): (r: StageResult)
    requires ExpLaws(m) && len > 0 && |gains| == CeilDiv(|x|, len)
    ensures |r.signal| == |x|
    ensures "loudness_backend" in r.stats && r.stats["loudness_backend"] == Tag("dynaudnorm_like")
    ensures |gains| > 0 ==> r.signal == DynaudnormSignal(x, len, SmoothCurve(m, gains, window), mask)
  {
    if |gains| == 0 then StageResult(x, DynaudnormBaseStats(gateDb))
    else SmoothedGainsApplied(m, x, len, gains, window, mask, gateDb, maxGainDb, frameMs)
  }

  /** `_apply_dynaudnorm_like` as a value: without frames the input and the base report,
      otherwise the dynaudnorm signal of the smoothed frame gains and the full report. */
  function DynaudnormNormalization(m: Math, cfg: Config, x: seq<real>, sampleRate: int,
                                   mask: Option<seq<bool>>): (r: StageResult)
    requires ExpLaws(m)
    ensures |r.signal| == |x|
    ensures "loudness_backend" in r.stats && r.stats["loudness_backend"] == Tag("dynaudnorm_like")
    ensures |x| == 0 ==> r == StageResult(x, DynaudnormBaseStats(NoiseFloorDb(m, x) + 8.0))
    ensures var len := DynFrameLen(sampleRate, DynFrameMs(cfg.mode));
      var maxLinear := DbToLinear(m, DynMaxGainDb(cfg));
      var smoothed := SmoothCurve(m, GainCurve(m, x, len, NoiseFloorDb(m, x) + 8.0, maxLinear),
                                  DynSmoothWindow(cfg.mode));
      |x| > 0 ==> r.signal == DynaudnormSignal(x, len, smoothed, mask)
  {
    var frameMs := DynFrameMs(cfg.mode);
    var window := DynSmoothWindow(cfg.mode);
    var len := DynFrameLen(sampleRate, frameMs);
    var maxGain := DynMaxGainDb(cfg);
    var gate := NoiseFloorDb(m, x) + 8.0;
    DynaudnormOfGains(m, x, len, GainCurve(m, x, len, gate, DbToLinear(m, maxGain)), window, mask,
                      gate, maxGain, frameMs)
  }

  /** `_apply_dynaudnorm_like`. An empty signal comes back unchanged. Otherwise the frame
      gains, smoothed, scale each sample by the gain of its frame `i // len`, except that
      non-speech samples keep their input value when a mask of the signal's length is
      given. */
  method Dynaudnorm(m: Math, cfg: Config, x: seq<real>, sampleRate: int, mask: Option<seq<bool>>)
    returns (r: StageResult)
    requires ExpLaws(m)
    ensures r == DynaudnormNormalization(m, cfg, x, sampleRate, mask)
    ensures |r.signal| == |x|
    ensures var gate := NoiseFloorDb(m, x) + 8.0;
      |x| == 0 ==> r == StageResult(x, DynaudnormBaseStats(gate))
    ensures var len := DynFrameLen(sampleRate, DynFrameMs(cfg.mode));
      var gate := NoiseFloorDb(m, x) + 8.0;
      var maxLinear := DbToLinear(m, DynMaxGainDb(cfg));
      var smoothed := SmoothCurve(m, GainCurve(m, x, len, gate, maxLinear), DynSmoothWindow(cfg.mode));
      |x| > 0 ==> r.signal == DynaudnormSignal(x, len, smoothed, mask)
    ensures "loudness_backend" in r.stats && r.stats["loudness_backend"] == Tag("dynaudnorm_like")
  {
    var frameMs := DynFrameMs(cfg.mode);
    var window := DynSmoothWindow(cfg.mode);
    var len := DynFrameLen(sampleRate, frameMs);
    var maxGain := DynMaxGainDb(cfg);
    var maxLinear := DbToLinear(m, maxGain);
    var gate := NoiseFloorDb(m, x) + 8.0;
    var gains := FrameGains(x, len, DesiredGainOf(m, gate, maxLinear));
    if |gains| == 0 {
      r := StageResult(x, DynaudnormBaseStats(gate));
    } else {
      r := ApplySmoothedGains(m, x, len, gains, window, mask, gate, maxGain, frameMs);
    }
    assert r == DynaudnormOfGains(m, x, len, gains, window, mask, gate, maxGain, frameMs);
  }

  /** Smooths the frame gains and applies them, restoring the non-speech samples. */
  method ApplySmoothedGains(m: Math, x: seq<real>, len: nat, gains: seq<real>, window: int,
                            mask: Option<seq<bool>>, gateDb: real, maxGainDb: real, frameMs: int)
    returns (r: StageResult)
    requires ExpLaws(m) && len > 0 && |gains| == CeilDiv(|x|, len) > 0
    ensures r == SmoothedGainsApplied(m, x, len, gains, window, mask, gateDb, maxGainDb, frameMs)
  {
    var smoothed := SmoothCurve(m, gains, window);
    var out := ScaleFramesRestoringNonSpeech(x, len, smoothed, mask);
    r := StageResult(out, DynaudnormStats(Dbfs(m, Mean(smoothed)), gateDb, maxGainDb, frameMs, window));
  }

  /** The smoothed gains that scale the speech samples lie in [1, max(1, maxLinear)] like
      the frame gains they come from; with a non-negative gain cap they are at least 1
      and at most `10^(min(maxGainDb, 10) / 20)`. */
  lemma DynaudnormGainsBounded(m: Math, cfg: Config, x: seq<real>, sampleRate: int)
    requires ExpLaws(m)
    ensures var len := DynFrameLen(sampleRate, DynFrameMs(cfg.mode));
      var maxLinear := DbToLinear(m, DynMaxGainDb(cfg));
      var smoothed := SmoothCurve(m, GainCurve(m, x, len, NoiseFloorDb(m, x) + 8.0, maxLinear),
                                  DynSmoothWindow(cfg.mode));
      forall k :: 0 <= k < |smoothed| ==> 1.0 <= smoothed[k] <= Max2(1.0, maxLinear)
  {
    var len := DynFrameLen(sampleRate, DynFrameMs(cfg.mode));
    var maxLinear := DbToLinear(m, DynMaxGainDb(cfg));
    var g := GainCurve(m, x, len, NoiseFloorDb(m, x) + 8.0, maxLinear);
    GainCurveBounded(m, x, len, NoiseFloorDb(m, x) + 8.0, maxLinear);
    SmoothCurveBounded(m, g, DynSmoothWindow(cfg.mode), 1.0, Max2(1.0, maxLinear));
  }

  // ---------------------------------------------------------------- dispatch

  /** `_apply_loudness_stage` as a value: the strategy its name selects. */
  function LoudnessNormalization(m: Math, cfg: Config, pyln: bool, meter: Meter, x: seq<real>,
                                 sampleRate: int, mask: Option<seq<bool>>): (r: StageResult)
    requires ExpLaws(m)
    ensures |r.signal| == |x|
  {
    if cfg.loudnessStrategy == "lufs" then LufsNormalization(m, cfg, pyln, meter, x, sampleRate, mask)
    else if cfg.loudnessStrategy == "dynaudnorm" then DynaudnormNormalization(m, cfg, x, sampleRate, mask)
    else RmsTarget(m, cfg, x)
  }

  /** `_apply_loudness_stage`: "lufs" and "dynaudnorm" pick their strategy; any other
      name uses the RMS target. */
  method LoudnessStage(m: Math, cfg: Config, pyln: bool, meter: Meter, x: seq<real>,
                       sampleRate: int, mask: Option<seq<bool>>) returns (r: StageResult)
    requires ExpLaws(m)
    ensures |r.signal| == |x|
    ensures cfg.loudnessStrategy == "lufs" ==> r == LufsNormalization(m, cfg, pyln, meter, x, sampleRate, mask)
    ensures cfg.loudnessStrategy !in {"lufs", "dynaudnorm"} ==> r == RmsTarget(m, cfg, x)
    ensures cfg.loudnessStrategy == "dynaudnorm" ==>
      "loudness_backend" in r.stats && r.stats["loudness_backend"] == Tag("dynaudnorm_like")
    ensures cfg.loudnessStrategy == "dynaudnorm" ==> r == DynaudnormNormalization(m, cfg, x, sampleRate, mask)
    ensures cfg.loudnessStrategy == "dynaudnorm" && |x| == 0 ==>
      r == StageResult(x, DynaudnormBaseStats(NoiseFloorDb(m, x) + 8.0))
    ensures var len := DynFrameLen(sampleRate, DynFrameMs(cfg.mode));
      var maxLinear := DbToLinear(m, DynMaxGainDb(cfg));
      var smoothed := SmoothCurve(m, GainCurve(m, x, len, NoiseFloorDb(m, x) + 8.0, maxLinear),
                                  DynSmoothWindow(cfg.mode));
      cfg.loudnessStrategy == "dynaudnorm" && |x| > 0 ==> r.signal == DynaudnormSignal(x, len, smoothed, mask)
    ensures r == LoudnessNormalization(m, cfg, pyln, meter, x, sampleRate, mask)
  {
    if cfg.loudnessStrategy == "lufs" {
      r := LufsNormalization(m, cfg, pyln, meter, x, sampleRate, mask);
    } else if cfg.loudnessStrategy == "dynaudnorm" {
      r := Dynaudnorm(m, cfg, x, sampleRate, mask);
    } else {
      r := RmsTarget(m, cfg, x);
    }
  }
}
