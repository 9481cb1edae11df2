/** The dynamics stages of the engine: `_apply_upward_compressor`, `_apply_limiter` and
    `_apply_dynamics_stage`. Both sample loops take their time constants at a fixed
    16 kHz, whatever the signal's own sample rate. */
module Dynamics {
  import opened Wrappers
  import opened Numerics
  import opened Signals
  import opened EngineConfig

  /** The rate both loops assume for their time constants. */
  const LoopRateHz: real := 16000.0

  /** `math.exp(-1.0 / max(1.0, (ms / 1000.0) * 16000.0))`: the one-pole smoothing
      coefficient of a time constant of `ms` milliseconds. */
  function Coefficient(m: Math, ms: real): (c: real)
    ensures ExpLaws(m) ==> 0.0 < c < 1.0
  {
    var steps := Max2(1.0, (ms / 1000.0) * LoopRateHz);
    assert -1.0 / steps < 0.0;
    m.exp(-1.0 / steps)
  }

  /** A step `c * a + (1 - c) * b` with `c` in [0, 1] stays within a range holding `a`
      and `b`. */
  lemma Convex(c: real, a: real, b: real, lo: real, hi: real)
    requires 0.0 <= c <= 1.0 && lo <= a <= hi && lo <= b <= hi
    ensures lo <= c * a + (1.0 - c) * b <= hi
  {
    MulNonNegative(c, a - lo);
    MulNonNegative(1.0 - c, b - lo);
    MulNonNegative(c, hi - a);
    MulNonNegative(1.0 - c, hi - b);
    assert c * a + (1.0 - c) * b - lo == c * (a - lo) + (1.0 - c) * (b - lo);
    assert hi - (c * a + (1.0 - c) * b) == c * (hi - a) + (1.0 - c) * (hi - b);
  }

  lemma MulNonNegative(p: real, q: real)
    requires p >= 0.0 && q >= 0.0
    ensures p * q >= 0.0
  {
  }

  /** Scaling by a gain of at least 1 never shrinks a magnitude, and scaling by a gain in
      [0, 1] never grows one. */
  lemma AbsScaled(x: real, g: real)
    requires g >= 0.0
    ensures Abs(x * g) == Abs(x) * g
    ensures g >= 1.0 ==> Abs(x * g) >= Abs(x)
    ensures g <= 1.0 ==> Abs(x * g) <= Abs(x)
  {
    if g >= 1.0 {
      MulNonNegative(Abs(x), g - 1.0);
      assert Abs(x) * g == Abs(x) + Abs(x) * (g - 1.0);
    }
    if g <= 1.0 {
      MulNonNegative(Abs(x), 1.0 - g);
      assert Abs(x) * g == Abs(x) - Abs(x) * (1.0 - g);
    }
  }

  /** Sample `i` of `x * t` against sample `i` of `x`, for a gain that boosts or one that
      attenuates. */
  lemma ScaledAt(x: seq<real>, t: seq<real>, i: nat)
    requires i < |x| == |t| && t[i] >= 0.0
    ensures Products(x, t)[i] == x[i] * t[i]
    ensures t[i] >= 1.0 ==> Abs(Products(x, t)[i]) >= Abs(x[i])
    ensures t[i] <= 1.0 ==> Abs(Products(x, t)[i]) <= Abs(x[i])
  {
    AbsScaled(x[i], t[i]);
  }

  // ---------------------------------------------------------------------------------
  // Upward compressor

  const CompThreshold: real := 0.125
  const CompRatio: real := 2.0
  const CompAttackMs: real := 20.0
  const CompReleaseMs: real := 250.0

  /** One envelope step: the attack coefficient when the level rises above the envelope,
      the release coefficient otherwise. */
  function EnvStep(attack: real, release: real, env: real, level: real): real {
    var coef := if level > env then attack else release;
    coef * env + (1.0 - coef) * level
  }

  lemma EnvStepBounded(attack: real, release: real, env: real, level: real, b: real)
    requires 0.0 <= attack <= 1.0 && 0.0 <= release <= 1.0
    requires 0.0 <= env <= b && 0.0 <= level <= b
    ensures 0.0 <= EnvStep(attack, release, env, level) <= b
  {
    Convex(if level > env then attack else release, env, level, 0.0, b);
  }

  /** The envelope after the first `n` samples of `x`, starting from 0. */
  function Envelope(attack: real, release: real, x: seq<real>, n: nat): real
    requires n <= |x|
  {
    if n == 0 then 0.0 else EnvStep(attack, release, Envelope(attack, release, x, n - 1), Abs(x[n - 1]))
  }

  /** The envelope after `n` samples lies in [0, b] for any `b` bounding the magnitudes of
      those `n` samples (their running maximum): each step mixes the previous envelope with
      the current level. */
  lemma {:induction false} EnvelopeBounded(attack: real, release: real, x: seq<real>, n: nat, b: real)
    requires 0.0 <= attack <= 1.0 && 0.0 <= release <= 1.0 && n <= |x| && b >= 0.0
    requires forall i :: 0 <= i < n ==> Abs(x[i]) <= b
    ensures 0.0 <= Envelope(attack, release, x, n) <= b
  {
    if n > 0 {
      EnvelopeBounded(attack, release, x, n - 1, b);
      EnvStepBounded(attack, release, Envelope(attack, release, x, n - 1), Abs(x[n - 1]), b);
    }
  }

  /** `10 ** (min(max_gain_db, 18) / 20)`: the largest boost, as a factor. */
  function CompMaxLinear(m: Math, cfg: Config): (g: real)
    ensures Exp10Laws(m) ==> g > 0.0
    ensures Exp10Laws(m) && cfg.targets.maxGainDb >= 0.0 ==> g >= 1.0
  {
    m.exp10(Min2(cfg.targets.maxGainDb, 18.0) / 20.0)
  }

  /** The gain for an envelope value: `(threshold / max(env, 1e-5)) ** (1 - 1/ratio)`
      below the threshold, 1 from the threshold on, clamped to [1, maxLinear]. */
  function CompGain(m: Math, env: real, maxLinear: real): (g: real)
    ensures 1.0 <= g <= Max2(1.0, maxLinear)
    ensures env >= CompThreshold ==> g == 1.0
  {
    var raw := if env < CompThreshold then m.pow(CompThreshold / Max2(env, 0.00001), 1.0 - 1.0 / CompRatio)
               else 1.0;
    Clamp(raw, 1.0, maxLinear)
  }

  /** `CompGain` with the boost limit fixed, as a function of the envelope. */
  function CompGainOf(m: Math, maxLinear: real): real -> real {
    env => CompGain(m, env, maxLinear)
  }

  /** The gain trace: sample `i` gets the gain of the envelope once it has seen sample `i`. */
  function GainTrace(x: seq<real>, attack: real, release: real, gainOf: real -> real): (t: seq<real>)
    ensures |t| == |x|
    ensures forall i :: 0 <= i < |x| ==> t[i] == gainOf(Envelope(attack, release, x, i + 1))
  {
    seq(|x|, i requires 0 <= i < |x| => gainOf(Envelope(attack, release, x, i + 1)))
  }

  /** The sample loop of `_apply_upward_compressor`: the envelope follows the magnitude,
      `out[i] = sample * gain` and `gain_trace[i] = gain`, index by index. The gain rule is
      passed in. */
  method CompressLoop(x: seq<real>, attack: real, release: real, gainOf: real -> real)
    returns (out: seq<real>, trace: seq<real>)
    ensures trace == GainTrace(x, attack, release, gainOf)
    ensures out == Products(x, trace)
  {
    out := [];
    trace := [];
    ghost var gains := GainTrace(x, attack, release, gainOf);
    ghost var product := Products(x, gains);
    var env := 0.0;
    var i := 0;
    while i < |x|
      invariant 0 <= i <= |x|
      invariant env == Envelope(attack, release, x, i)
      invariant trace == gains[..i] && out == product[..i]
    {
      env := EnvStep(attack, release, env, Abs(x[i]));
      var gain := gainOf(env);
      assert gain == gains[i];
      assert x[i] * gain == product[i];
      out := out + [x[i] * gain];
      trace := trace + [gain];
      i := i + 1;
    }
  }

  /** The compressor's report: average and peak gain in dB, threshold and ratio. */
  function CompStats(m: Math, trace: seq<real>): Stats
    requires |trace| > 0
  {
    map["upward_comp_avg_gain_db" := Num(Dbfs(m, Mean(trace))),
        "upward_comp_peak_gain_db" := Num(Dbfs(m, Max(trace))),
        "upward_comp_threshold" := Num(CompThreshold),
        "upward_comp_ratio" := Num(CompRatio)]
  }

  /** The gain trace of the compressor on `x`. */
  function CompTrace(m: Math, cfg: Config, x: seq<real>): (t: seq<real>)
    ensures |t| == |x|
  {
    GainTrace(x, Coefficient(m, CompAttackMs), Coefficient(m, CompReleaseMs),
              CompGainOf(m, CompMaxLinear(m, cfg)))
  }

  /** What `_apply_upward_compressor` returns for a non-empty signal. */
  function Compression(m: Math, cfg: Config, x: seq<real>): (r: StageResult)
    requires |x| > 0
    ensures |r.signal| == |x|
  {
    var trace := CompTrace(m, cfg, x);
    StageResult(Products(x, trace), CompStats(m, trace))
  }

  /** `_apply_upward_compressor`. `np.max` of the gain trace of an empty signal raises,
      so the signal is not empty. */
  method UpwardCompressor(m: Math, cfg: Config, x: seq<real>) returns (r: StageResult)
    requires |x| > 0
    ensures r == Compression(m, cfg, x)
  {
    var attack := Coefficient(m, CompAttackMs);
    var release := Coefficient(m, CompReleaseMs);
    var maxGain := CompMaxLinear(m, cfg);
    var out, trace := CompressLoop(x, attack, release, CompGainOf(m, maxGain));
    r := StageResult(out, CompStats(m, trace));
  }

  /** The compressor only boosts: each sample is its input times a gain in
      [1, max(1, 10^(min(max_gain_db, 18) / 20))], so no magnitude shrinks. */
  lemma CompressionBoosts(m: Math, cfg: Config, x: seq<real>, i: nat)
    requires 0 <= i < |x|
    ensures var g := CompTrace(m, cfg, x)[i];
      && Compression(m, cfg, x).signal[i] == x[i] * g
      && 1.0 <= g <= Max2(1.0, CompMaxLinear(m, cfg))
      && Abs(Compression(m, cfg, x).signal[i]) >= Abs(x[i])
  {
    var t := CompTrace(m, cfg, x);
    CompTraceBounded(m, cfg, x, i);
    ScaledAt(x, t, i);
  }

  lemma CompTraceBounded(m: Math, cfg: Config, x: seq<real>, i: nat)
    requires 0 <= i < |x|
    ensures 1.0 <= CompTrace(m, cfg, x)[i] <= Max2(1.0, CompMaxLinear(m, cfg))
  {
  }

  /** A sample at which the envelope has reached the threshold passes unchanged. */
  lemma CompressionPassesLoud(m: Math, cfg: Config, x: seq<real>, i: nat)
    requires 0 <= i < |x|
    requires Envelope(Coefficient(m, CompAttackMs), Coefficient(m, CompReleaseMs), x, i + 1) >= CompThreshold
    ensures Compression(m, cfg, x).signal[i] == x[i]
  {
    assert CompTrace(m, cfg, x)[i] == 1.0;
  }

  /** The compressor's envelope after `i` samples never exceeds the largest magnitude among
      them, so on a signal quieter than the threshold it never reaches the threshold. */
  lemma CompressionEnvelopeBounded(m: Math, x: seq<real>, b: real, i: nat)
    requires ExpLaws(m) && b >= 0.0 && i <= |x|
    requires forall j :: 0 <= j < i ==> Abs(x[j]) <= b
    ensures 0.0 <= Envelope(Coefficient(m, CompAttackMs), Coefficient(m, CompReleaseMs), x, i) <= b
  {
    EnvelopeBounded(Coefficient(m, CompAttackMs), Coefficient(m, CompReleaseMs), x, i, b);
  }

  /** Both reported gains are boosts: the average and the peak gain are at least 0 dB. */
  lemma CompressionStatsNonNegative(m: Math, cfg: Config, x: seq<real>)
    requires Log10Laws(m) && |x| > 0
    ensures var s := Compression(m, cfg, x).stats;
      && s["upward_comp_avg_gain_db"].r >= 0.0
      && s["upward_comp_peak_gain_db"].r >= 0.0
  {
    var t := CompTrace(m, cfg, x);
    var hi := Max2(1.0, CompMaxLinear(m, cfg));
    forall i | 0 <= i < |t| ensures 1.0 <= t[i] <= hi {
      CompTraceBounded(m, cfg, x, i);
    }
    MeanBounds(t, 1.0, hi);
    assert Max(t) >= t[0];
  }

  // ---------------------------------------------------------------------------------
  // Limiter

  /** The gain a sample asks for: 1 up to the threshold, `threshold / max(|x|, 1e-6)`
      above it. */
  function TargetGain(threshold: real, level: real): (g: real)
    requires threshold > 0.0
    ensures 0.0 < g <= 1.0
    ensures level <= threshold <==> g == 1.0
  {
    if level <= threshold then 1.0
    else
      var d := Max2(level, 0.000001);
      assert threshold / d < 1.0 by {
        assert threshold < d;
        assert (threshold / d) * d == threshold;
      }
      assert threshold / d > 0.0;
      threshold / d
  }

  /** One gain step: the attack coefficient when the target is below the current gain,
      the release coefficient otherwise. */
  function LimiterStep(attack: real, release: real, gain: real, target: real): real {
    var coef := if target < gain then attack else release;
    coef * gain + (1.0 - coef) * target
  }

  lemma LimiterStepBounded(attack: real, release: real, gain: real, target: real)
    requires 0.0 <= attack <= 1.0 && 0.0 <= release <= 1.0
    requires 0.0 < gain <= 1.0 && 0.0 < target <= 1.0
    ensures 0.0 < LimiterStep(attack, release, gain, target) <= 1.0
  {
    var lo := Min2(gain, target);
    var coef := if target < gain then attack else release;
    Convex(coef, gain, target, lo, 1.0);
    assert LimiterStep(attack, release, gain, target) == coef * gain + (1.0 - coef) * target;
  }

  /** The limiter gain after the first `n` samples of `x`, starting from 1. */
  function LimiterGain(attack: real, release: real, threshold: real, x: seq<real>, n: nat): real
    requires threshold > 0.0 && n <= |x|
  {
    if n == 0 then 1.0
    else LimiterStep(attack, release, LimiterGain(attack, release, threshold, x, n - 1),
                     TargetGain(threshold, Abs(x[n - 1])))
  }

  /** The limiter gain stays in (0, 1]: it starts at 1 and moves towards targets in (0, 1]. */
  lemma {:induction false} LimiterGainBounded(attack: real, release: real, threshold: real, x: seq<real>, n: nat)
    requires 0.0 <= attack <= 1.0 && 0.0 <= release <= 1.0 && threshold > 0.0 && n <= |x|
    ensures 0.0 < LimiterGain(attack, release, threshold, x, n) <= 1.0
  {
    if n > 0 {
      LimiterGainBounded(attack, release, threshold, x, n - 1);
      LimiterStepBounded(attack, release, LimiterGain(attack, release, threshold, x, n - 1),
                         TargetGain(threshold, Abs(x[n - 1])));
    }
  }

  /** While every sample so far is within the threshold the gain is exactly 1. */
  lemma {:induction false} LimiterGainUnity(attack: real, release: real, threshold: real, x: seq<real>, n: nat)
    requires threshold > 0.0 && n <= |x|
    requires forall i :: 0 <= i < n ==> Abs(x[i]) <= threshold
    ensures LimiterGain(attack, release, threshold, x, n) == 1.0
  {
    if n > 0 {
      LimiterGainUnity(attack, release, threshold, x, n - 1);
    }
  }

  /** Sample `i` gets the gain once the limiter has seen it. */
  function LimiterGains(attack: real, release: real, threshold: real, x: seq<real>): (g: seq<real>)
    requires threshold > 0.0
    ensures |g| == |x|
    ensures forall i :: 0 <= i < |x| ==> g[i] == LimiterGain(attack, release, threshold, x, i + 1)
  {
    seq(|x|, i requires 0 <= i < |x| => LimiterGain(attack, release, threshold, x, i + 1))
  }

  /** The sample loop of `_apply_limiter`: `gains[i] = gain` and `out[i] = sample * gain`. */
  method LimitLoop(x: seq<real>, attack: real, release: real, threshold: real)
    returns (out: array<real>, gains: array<real>)
    requires threshold > 0.0
    ensures fresh(out) && fresh(gains)
    ensures gains[..] == LimiterGains(attack, release, threshold, x)
    ensures out[..] == Products(x, gains[..])
  {
    out := new real[|x|];
    gains := new real[|x|];
    ghost var spec := LimiterGains(attack, release, threshold, x);
    ghost var product := Products(x, spec);
    var gain := 1.0;
    var i := 0;
    while i < |x|
      invariant 0 <= i <= |x|
      invariant gain == LimiterGain(attack, release, threshold, x, i)
      invariant forall j :: 0 <= j < i ==> gains[j] == spec[j] && out[j] == product[j]
    {
      gain := LimiterStep(attack, release, gain, TargetGain(threshold, Abs(x[i])));
      LimiterGainNext(attack, release, threshold, x, i, gain);
      ProductStep(x, spec, i, gain);
      gains[i] := gain;
      out[i] := x[i] * gain;
      i := i + 1;
    }
    assert gains[..] == spec;
    assert out[..] == product;
  }

  /** The gain after one more sample is the one the specification gives that sample. */
  lemma LimiterGainNext(attack: real, release: real, threshold: real, x: seq<real>, i: nat, gain: real)
    requires threshold > 0.0 && i < |x|
    requires gain == LimiterStep(attack, release, LimiterGain(attack, release, threshold, x, i),
                                 TargetGain(threshold, Abs(x[i])))
    ensures gain == LimiterGain(attack, release, threshold, x, i + 1)
    ensures gain == LimiterGains(attack, release, threshold, x)[i]
  {
  }

  /** The step the limiter loop takes at sample `i` agrees with its specification. */
  lemma ProductStep(x: seq<real>, spec: seq<real>, i: nat, gain: real)
    requires i < |x| == |spec| && gain == spec[i]
    ensures x[i] * gain == Products(x, spec)[i]
  {
  }

  /** `force_enable or limiter.enabled`. */
  predicate LimiterEnabled(cfg: Config, force: bool) {
    force || cfg.limiter.enabled
  }

  /** The threshold, the override when given, clamped to [0.6, 0.999]. */
  function LimiterThreshold(cfg: Config, thresholdOverride: Option<real>): (t: real)
    ensures 0.6 <= t <= 0.999
  {
    Clamp(if thresholdOverride.Some? then thresholdOverride.value else cfg.limiter.threshold, 0.6, 0.999)
  }

  /** `max(0.1, attack_ms)`: the configured attack, never below 0.1 ms. */
  function LimiterAttackMs(cfg: Config): (ms: real)
    ensures ms >= 0.1 && ms >= cfg.limiter.attackMs
    ensures cfg.limiter.attackMs >= 0.1 ==> ms == cfg.limiter.attackMs
  {
    Max2(0.1, cfg.limiter.attackMs)
  }

  /** `max(1.0, release_ms)`: the configured release, never below 1 ms. */
  function LimiterReleaseMs(cfg: Config): (ms: real)
    ensures ms >= 1.0 && ms >= cfg.limiter.releaseMs
    ensures cfg.limiter.releaseMs >= 1.0 ==> ms == cfg.limiter.releaseMs
  {
    Max2(1.0, cfg.limiter.releaseMs)
  }

  /** The limiter gains on `x` under `cfg`. */
  function LimiterTrace(m: Math, cfg: Config, thresholdOverride: Option<real>, x: seq<real>): (g: seq<real>)
    ensures |g| == |x|
  {
    LimiterGains(Coefficient(m, LimiterAttackMs(cfg)), Coefficient(m, LimiterReleaseMs(cfg)),
                 LimiterThreshold(cfg, thresholdOverride), x)
  }

  /** The limiter's report when it runs. */
  function LimiterStats(m: Math, cfg: Config, thresholdOverride: Option<real>, gains: seq<real>): Stats
    requires |gains| > 0
  {
    map["limiter_enabled" := Flag(true),
        "limiter_threshold" := Num(LimiterThreshold(cfg, thresholdOverride)),
        "limiter_reduction_db" := Num(-Dbfs(m, Min(gains))),
        "limiter_attack_ms" := Num(LimiterAttackMs(cfg)),
        "limiter_release_ms" := Num(LimiterReleaseMs(cfg))]
  }

  /** What `_apply_limiter` returns. Disabled, it hands the signal back with a zero
      reduction; enabled, every output sample is within [-1, 1]. */
  function Limiting(m: Math, cfg: Config, force: bool, thresholdOverride: Option<real>, x: seq<real>)
    : (r: StageResult)
    requires |x| > 0 || !LimiterEnabled(cfg, force)
    ensures |r.signal| == |x|
    ensures !LimiterEnabled(cfg, force) ==>
      r.signal == x && r.stats == map["limiter_enabled" := Flag(false), "limiter_reduction_db" := Num(0.0)]
    ensures LimiterEnabled(cfg, force) ==> forall i :: 0 <= i < |x| ==> -1.0 <= r.signal[i] <= 1.0
    ensures "limiter_enabled" in r.stats && r.stats["limiter_enabled"] == Flag(LimiterEnabled(cfg, force))
    ensures "limiter_reduction_db" in r.stats
  {
    if !LimiterEnabled(cfg, force) then
      StageResult(x, map["limiter_enabled" := Flag(false), "limiter_reduction_db" := Num(0.0)])
    else
      var gains := LimiterTrace(m, cfg, thresholdOverride, x);
      StageResult(ClipAll(Products(x, gains)), LimiterStats(m, cfg, thresholdOverride, gains))
  }

  /** `_apply_limiter`. An enabled limiter takes `np.min` of its gains, which raises on an
      empty signal, so an enabled limiter is given a non-empty one. */
  method Limiter(m: Math, cfg: Config, force: bool, thresholdOverride: Option<real>, x: seq<real>)
    returns (r: StageResult)
    requires |x| > 0 || !LimiterEnabled(cfg, force)
    ensures r == Limiting(m, cfg, force, thresholdOverride, x)
  {
    if !LimiterEnabled(cfg, force) {
      return StageResult(x, map["limiter_enabled" := Flag(false), "limiter_reduction_db" := Num(0.0)]);
    }
    var threshold := LimiterThreshold(cfg, thresholdOverride);
    var attack := Coefficient(m, LimiterAttackMs(cfg));
    var release := Coefficient(m, LimiterReleaseMs(cfg));
    var out, gains := LimitLoop(x, attack, release, threshold);
    r := StageResult(ClipAll(out[..]), LimiterStats(m, cfg, thresholdOverride, gains[..]));
  }

  /** An enabled limiter never amplifies: each output magnitude is at most the input's. */
  lemma LimiterAttenuates(m: Math, cfg: Config, force: bool, thresholdOverride: Option<real>, x: seq<real>, i: nat)
    requires ExpLaws(m) && LimiterEnabled(cfg, force) && i < |x|
    ensures Abs(Limiting(m, cfg, force, thresholdOverride, x).signal[i]) <= Abs(x[i])
  {
    var t := LimiterTrace(m, cfg, thresholdOverride, x);
    LimiterTraceBounded(m, cfg, thresholdOverride, x, i);
    ScaledAt(x, t, i);
  }

  lemma LimiterTraceBounded(m: Math, cfg: Config, thresholdOverride: Option<real>, x: seq<real>, i: nat)
    requires ExpLaws(m) && i < |x|
    ensures 0.0 < LimiterTrace(m, cfg, thresholdOverride, x)[i] <= 1.0
  {
    LimiterGainBounded(Coefficient(m, LimiterAttackMs(cfg)), Coefficient(m, LimiterReleaseMs(cfg)),
                       LimiterThreshold(cfg, thresholdOverride), x, i + 1);
  }

  /** A signal that never exceeds the threshold passes an enabled limiter unchanged. */
  lemma LimiterTransparent(m: Math, cfg: Config, force: bool, thresholdOverride: Option<real>, x: seq<real>)
    requires LimiterEnabled(cfg, force) && |x| > 0
    requires forall i :: 0 <= i < |x| ==> Abs(x[i]) <= LimiterThreshold(cfg, thresholdOverride)
    ensures Limiting(m, cfg, force, thresholdOverride, x).signal == x
  {
    var gains := LimiterTrace(m, cfg, thresholdOverride, x);
    forall i | 0 <= i < |x| ensures gains[i] == 1.0 {
      LimiterGainUnity(Coefficient(m, LimiterAttackMs(cfg)), Coefficient(m, LimiterReleaseMs(cfg)),
                       LimiterThreshold(cfg, thresholdOverride), x, i + 1);
    }
    var y := ClipAll(Products(x, gains));
    assert forall i :: 0 <= i < |x| ==> y[i] == x[i];
  }

  /** The reported gain reduction of an enabled limiter is never negative. */
  lemma LimiterReductionNonNegative(m: Math, cfg: Config, force: bool, thresholdOverride: Option<real>,
                                    x: seq<real>)
    requires ExpLaws(m) && Log10Laws(m) && LimiterEnabled(cfg, force) && |x| > 0
    ensures Limiting(m, cfg, force, thresholdOverride, x).stats["limiter_reduction_db"].r >= 0.0
  {
    var gains := LimiterTrace(m, cfg, thresholdOverride, x);
    LimiterGainBounded(Coefficient(m, LimiterAttackMs(cfg)), Coefficient(m, LimiterReleaseMs(cfg)),
                       LimiterThreshold(cfg, thresholdOverride), x, 1);
    assert Min(gains) <= gains[0];
  }

  // ---------------------------------------------------------------------------------
  // Dynamics stage

  /** `{f"dyn_{key}": value for key, value in stats.items()}`. */
  function Prefixed(stats: Stats): (r: Stats)
    ensures forall k :: k in stats ==> "dyn_" + k in r && r["dyn_" + k] == stats[k]
    ensures forall k :: k in r ==> exists k0 :: k0 in stats && k == "dyn_" + k0
  {
    PrefixInjective("dyn_");
    map k | k in stats :: "dyn_" + k := stats[k]
  }

  lemma PrefixInjective(p: string)
    ensures forall a: string, b: string {:trigger p + a, p + b} :: p + a == p + b ==> a == b
  {
    forall a: string, b: string | p + a == p + b ensures a == b {
      assert a == (p + a)[|p|..];
      assert b == (p + b)[|p|..];
    }
  }

  /** No prefixed limiter key is the backend key, so the backend entry overrides none of them. */
  lemma PrefixAvoidsBackend()
    ensures forall k: string :: "dyn_" + k != "dynamics_backend"
  {
    forall k: string ensures "dyn_" + k != "dynamics_backend" {
      assert ("dyn_" + k)[3] == '_';
    }
  }

  /** The backend the dynamics stage reports for a `dynamics` setting. */
  function DynamicsBackend(dynamics: string): string {
    if dynamics == "off" then "off" else if dynamics == "upward_comp" then "upward_comp" else "comp_limiter"
  }

  /** The limiter threshold of the compressor-limiter chain: the configured one, at most 0.99. */
  function ChainThreshold(cfg: Config): Option<real> {
    Some(Min2(cfg.limiter.threshold, 0.99))
  }

  /** `_apply_dynamics_stage` as a value. */
  function DynamicsProcessing(m: Math, cfg: Config, x: seq<real>): (r: StageResult)
    requires |x| > 0 || cfg.dynamics == "off"
    ensures |r.signal| == |x|
  {
    if cfg.dynamics == "off" then StageResult(x, map["dynamics_backend" := Tag("off")])
    else
      var compressed := Compression(m, cfg, x);
      if cfg.dynamics == "upward_comp" then
        StageResult(compressed.signal, compressed.stats["dynamics_backend" := Tag("upward_comp")])
      else
        var limited := Limiting(m, cfg, true, ChainThreshold(cfg), compressed.signal);
        StageResult(limited.signal, (compressed.stats + Prefixed(limited.stats))["dynamics_backend" := Tag("comp_limiter")])
  }

  /** `_apply_dynamics_stage`. "off" hands the signal back; "upward_comp" compresses;
      every other setting compresses and then limits (forced on, threshold at most
      0.99), reporting the compressor's keys, the limiter's keys under "dyn_", and the
      backend. The compressor raises on an empty signal, so one is passed only with
      "off". */
  method DynamicsStage(m: Math, cfg: Config, x: seq<real>) returns (r: StageResult)
    requires |x| > 0 || cfg.dynamics == "off"
    ensures r == DynamicsProcessing(m, cfg, x)
    ensures |r.signal| == |x|
    ensures "dynamics_backend" in r.stats && r.stats["dynamics_backend"] == Tag(DynamicsBackend(cfg.dynamics))
    ensures cfg.dynamics == "off" ==> r == StageResult(x, map["dynamics_backend" := Tag("off")])
    ensures cfg.dynamics == "upward_comp" ==> r.signal == Compression(m, cfg, x).signal
    ensures cfg.dynamics != "off" && cfg.dynamics != "upward_comp" ==>
      var limited := Limiting(m, cfg, true, ChainThreshold(cfg), Compression(m, cfg, x).signal);
      && r.signal == limited.signal
      && (forall k :: k in limited.stats ==> "dyn_" + k in r.stats && r.stats["dyn_" + k] == limited.stats[k])
  {
    if cfg.dynamics == "off" {
      return StageResult(x, map["dynamics_backend" := Tag("off")]);
    }
    var compressed := UpwardCompressor(m, cfg, x);
    if cfg.dynamics == "upward_comp" {
      return StageResult(compressed.signal, compressed.stats["dynamics_backend" := Tag("upward_comp")]);
    }
    var limited := Limiter(m, cfg, true, ChainThreshold(cfg), compressed.signal);
    PrefixAvoidsBackend();
    var merged := compressed.stats + Prefixed(limited.stats);
    r := StageResult(limited.signal, merged["dynamics_backend" := Tag("comp_limiter")]);
  }

  /** Under the compressor-limiter chain every output sample is within [-1, 1] and no
      louder than the compressed sample. */
  lemma ChainBounded(m: Math, cfg: Config, x: seq<real>, i: nat)
    requires ExpLaws(m) && |x| > 0 && i < |x|
    ensures var c := Compression(m, cfg, x).signal;
      var y := Limiting(m, cfg, true, ChainThreshold(cfg), c).signal;
      -1.0 <= y[i] <= 1.0 && Abs(y[i]) <= Abs(c[i])
  {
    LimiterAttenuates(m, cfg, true, ChainThreshold(cfg), Compression(m, cfg, x).signal, i);
  }
}
