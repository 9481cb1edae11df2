/** `EnhancementV2Engine.process`: the stages in order (clip, DC removal, high-pass
    filter, noise suppression, noise estimate, loudness, dynamics, limiter) and the
    output metrics, each stage's report merged into one diagnostics map. */
module Engine {
  import opened Wrappers
  import opened Numerics
  import opened Signals
  import opened EngineConfig
  import opened Filters
  import opened NoiseSuppression
  import opened Loudness
  import opened Dynamics

  /** The settings echoed at the start of every report. */
  function RequestedStats(cfg: Config): Stats {
    map["v2_mode" := Tag(cfg.mode), "ns_engine_requested" := Tag(cfg.nsEngine),
        "loudness_strategy_requested" := Tag(cfg.loudnessStrategy),
        "dynamics_requested" := Tag(cfg.dynamics)]
  }

  /** Whether a speech mask gives a noise region: it has the signal's length and marks at
      least one sample as non-speech. */
  predicate HasNoiseRegion(mask: Option<seq<bool>>, n: nat) {
    mask.Some? && |mask.value| == n && exists i :: 0 <= i < n && !mask.value[i]
  }

  /** The noise estimate: the RMS level of the non-speech samples when the mask gives a
      noise region, otherwise the noise floor of the whole signal. */
  function NoiseEstimateDb(m: Math, work: seq<real>, mask: Option<seq<bool>>): real {
    if HasNoiseRegion(mask, |work|) then RmsDbfs(m, Select(work, mask.value, false))
    else NoiseFloorDb(m, work)
  }

  /** The samples a mask marks `keep` are there when it marks one. */
  lemma {:induction false} SelectNonEmpty(s: seq<real>, mask: seq<bool>, keep: bool, i: nat)
    requires |mask| == |s| && i < |s| && mask[i] == keep
    ensures |Select(s, mask, keep)| > 0
  {
    if i > 0 && mask[0] != keep {
      SelectNonEmpty(s[1..], mask[1..], keep, i - 1);
    }
  }

  /** The noise region is never empty, so the estimate of a non-empty signal is always a
      measured level (the non-speech RMS or the 20th-percentile floor), never the
      empty-signal sentinel, and at least -140 dBFS. */
  lemma NoiseEstimateMeasured(m: Math, work: seq<real>, mask: Option<seq<bool>>)
    requires Lawful(m) && |work| > 0
    ensures NoiseEstimateDb(m, work, mask) >= FloorDb
    ensures HasNoiseRegion(mask, |work|) ==> |Select(work, mask.value, false)| > 0
  {
    if HasNoiseRegion(mask, |work|) {
      var i :| 0 <= i < |work| && !mask.value[i];
      SelectNonEmpty(work, mask.value, false, i);
      LevelsBounded(m, Select(work, mask.value, false));
    } else {
      LevelsBounded(m, work);
    }
  }

  /** The magnitude from which a sample counts as clipped. */
  const ClipLevel: real := 0.999

  /** `np.mean(np.abs(work) >= 0.999)`: the fraction of clipped samples. */
  function ClippingRatio(s: seq<real>): (r: real)
    requires |s| > 0
    ensures 0.0 <= r <= 1.0
    ensures r == 0.0 <==> CountAtLeast(s, ClipLevel) == 0
  {
    CountAtLeast(s, ClipLevel) as real / |s| as real
  }

  /** No sample counts as clipped when every magnitude is below 0.999, and every one does
      when every magnitude is at 0.999 or more. */
  lemma {:induction false} CountAtLeastExtremes(s: seq<real>, t: real)
    ensures (forall i :: 0 <= i < |s| ==> Abs(s[i]) < t) ==> CountAtLeast(s, t) == 0
    ensures (forall i :: 0 <= i < |s| ==> Abs(s[i]) >= t) ==> CountAtLeast(s, t) == |s|
  {
    if |s| > 0 {
      CountAtLeastExtremes(s[1..], t);
      assert forall i :: 0 <= i < |s| - 1 ==> s[1..][i] == s[i + 1];
    }
  }

  /** The engine's result: the enhanced signal and the merged report. */
  datatype EnhancementResult = EnhancementResult(signal: seq<real>, stats: Stats)

  /** Whether the last word on the output is an enabled limiter: the final limiter when it
      is enabled, or the limiter of the compressor-limiter chain. */
  predicate OutputLimited(cfg: Config) {
    cfg.limiter.enabled || DynamicsBackend(cfg.dynamics) == "comp_limiter"
  }

  /** What every stage of `process` produces on a non-empty signal: the clipped input,
      then each stage's result, each stage fed the signal of the one before it. */
  datatype StageChain = StageChain(clipped: seq<real>, dc: StageResult, hpf: StageResult, ns: StageResult,
                                   noiseDb: real, loudness: StageResult, dynamics: StageResult,
                                   limiter: StageResult)

  /** The fixed chain of `process`: clip, DC removal, high-pass filter, noise suppression
      (followed by the noise estimate on its output), loudness, dynamics, final limiter. */
  function Chain(m: Math, cfg: Config, plugins: Plugins, apm: Apm, pyln: bool, meter: Meter,
                 x: seq<real>, sampleRate: int, mask: Option<seq<bool>>): (c: StageChain)
    requires |x| > 0 && sampleRate > 0 && ExpLaws(m)
    ensures |c.clipped| == |c.dc.signal| == |c.hpf.signal| == |c.ns.signal| == |x|
    ensures |c.loudness.signal| == |c.dynamics.signal| == |c.limiter.signal| == |x|
  {
    var clipped := ClipAll(x);
    var dc := DcRemoval(clipped);
    var hpf := HighPassed(dc.signal, cfg.hpfCutoffHz, sampleRate);
    var ns := Denoised(cfg, plugins, apm, hpf.signal, sampleRate);
    var loud := LoudnessNormalization(m, cfg, pyln, meter, ns.signal, sampleRate, mask);
    var dyn := DynamicsProcessing(m, cfg, loud.signal);
    var lim := Limiting(m, cfg, false, None, dyn.signal);
    StageChain(clipped, dc, hpf, ns, NoiseEstimateDb(m, ns.signal, mask), loud, dyn, lim)
  }

  /** The report of `process`: the requested settings, each stage's report merged in stage
      order (a later report's value wins for a shared key, as `dict.update` does), then
      the three output metrics of the final signal. */
  function MergedReport(m: Math, cfg: Config, c: StageChain): Stats
    requires |c.limiter.signal| > 0
  {
    var merged := RequestedStats(cfg) + c.dc.stats + c.hpf.stats + c.ns.stats
                  + map["noise_estimate_db" := Num(c.noiseDb)] + c.loudness.stats + c.dynamics.stats
                  + c.limiter.stats;
    merged["output_rms_dbfs" := Num(RmsDbfs(m, c.limiter.signal))]
          ["output_peak_dbfs" := Num(PeakDbfs(m, c.limiter.signal))]
          ["clipping_sample_ratio" := Num(ClippingRatio(c.limiter.signal))]
  }

  /** Merging the two halves' reports is merging every stage's report in order. */
  lemma MergeInOrder(req: Stats, dc: Stats, hpf: Stats, ns: Stats, noise: Stats, loud: Stats, dyn: Stats,
                     lim: Stats)
    ensures req + (dc + hpf + ns + noise + loud) + (dyn + lim) == req + dc + hpf + ns + noise + loud + dyn + lim
  {
    MergeAssoc(req, dc + hpf + ns + noise, loud);
    MergeAssoc(req, dc + hpf + ns, noise);
    MergeAssoc(req, dc + hpf, ns);
    MergeAssoc(req, dc, hpf);
    MergeAssoc(req + dc + hpf + ns + noise + loud, dyn, lim);
  }

  lemma MergeAssoc(a: Stats, b: Stats, c: Stats)
    ensures a + (b + c) == a + b + c
  {
  }

  /** No key of any stage's report is lost in the merge. */
  lemma MergedReportKeys(m: Math, cfg: Config, c: StageChain)
    requires |c.limiter.signal| > 0
    ensures var r := MergedReport(m, cfg, c);
      && RequestedStats(cfg).Keys <= r.Keys
      && c.dc.stats.Keys <= r.Keys && c.hpf.stats.Keys <= r.Keys && c.ns.stats.Keys <= r.Keys
      && "noise_estimate_db" in r
      && c.loudness.stats.Keys <= r.Keys && c.dynamics.stats.Keys <= r.Keys && c.limiter.stats.Keys <= r.Keys
      && {"output_rms_dbfs", "output_peak_dbfs", "clipping_sample_ratio"} <= r.Keys
  {
  }

  /** The chain always reports the DC offset, whether the high-pass filter ran, the noise
      suppression backend, the noise estimate, the dynamics backend and the limiter's
      state, and its output lies in [-1, 1] whenever a limiter has the last word. */
  lemma ChainReports(m: Math, cfg: Config, plugins: Plugins, apm: Apm, pyln: bool, meter: Meter,
                     x: seq<real>, sampleRate: int, mask: Option<seq<bool>>)
    requires |x| > 0 && sampleRate > 0 && ExpLaws(m)
    ensures var c := Chain(m, cfg, plugins, apm, pyln, meter, x, sampleRate, mask);
      var r := MergedReport(m, cfg, c);
      && {"dc_offset_removed", "hpf_enabled", "ns_backend", "noise_estimate_db", "dynamics_backend",
          "limiter_enabled"} <= r.Keys
      && (OutputLimited(cfg) ==> forall i :: 0 <= i < |x| ==> -1.0 <= c.limiter.signal[i] <= 1.0)
  {
    var c := Chain(m, cfg, plugins, apm, pyln, meter, x, sampleRate, mask);
    MergedReportKeys(m, cfg, c);
    assert "dynamics_backend" in c.dynamics.stats by {
      if cfg.dynamics != "off" && cfg.dynamics != "upward_comp" {
        assert c.dynamics.stats == (Compression(m, cfg, c.loudness.signal).stats
          + Prefixed(Limiting(m, cfg, true, ChainThreshold(cfg), Compression(m, cfg, c.loudness.signal).signal).stats))
          ["dynamics_backend" := Tag("comp_limiter")];
      }
    }
    if OutputLimited(cfg) && !cfg.limiter.enabled {
      assert c.limiter.signal == c.dynamics.signal;
      forall i | 0 <= i < |x| ensures -1.0 <= c.limiter.signal[i] <= 1.0 {
        ChainBounded(m, cfg, c.loudness.signal, i);
      }
    }
  }

  /** DC removal, the high-pass filter, noise suppression, the noise estimate and the
      loudness stage on the clipped signal, their reports merged in that order. */
  method CleanupAndLoudness(m: Math, cfg: Config, plugins: Plugins, apm: Apm, pyln: bool, meter: Meter,
                            x: seq<real>, sampleRate: int, mask: Option<seq<bool>>)
    returns (r: StageResult)
    requires |x| > 0 && sampleRate > 0 && ExpLaws(m)
    ensures |r.signal| == |x|
    ensures var dc := DcRemoval(x);
      var hpf := HighPassed(dc.signal, cfg.hpfCutoffHz, sampleRate);
      var ns := Denoised(cfg, plugins, apm, hpf.signal, sampleRate);
      var loud := LoudnessNormalization(m, cfg, pyln, meter, ns.signal, sampleRate, mask);
      r == StageResult(loud.signal, dc.stats + hpf.stats + ns.stats
                                    + map["noise_estimate_db" := Num(NoiseEstimateDb(m, ns.signal, mask))]
                                    + loud.stats)
  {
    var dc := DcRemoval(x);
    var hpf := HighPassFilter(dc.signal, cfg.hpfCutoffHz, sampleRate);
    var ns := NoiseSuppressionStage(cfg, plugins, apm, hpf.signal, sampleRate);
    var noise := map["noise_estimate_db" := Num(NoiseEstimateDb(m, ns.signal, mask))];
    var loud := LoudnessStage(m, cfg, pyln, meter, ns.signal, sampleRate, mask);
    r := StageResult(loud.signal, dc.stats + hpf.stats + ns.stats + noise + loud.stats);
  }

  /** The dynamics stage followed by the final limiter, their reports merged: one sample
      out per sample in, each within [-1, 1] whenever a limiter has the last word. */
  method DynamicsAndLimiter(m: Math, cfg: Config, x: seq<real>) returns (r: StageResult)
    requires |x| > 0 && ExpLaws(m)
    ensures |r.signal| == |x|
    ensures var dyn := DynamicsProcessing(m, cfg, x);
      var lim := Limiting(m, cfg, false, None, dyn.signal);
      r == StageResult(lim.signal, dyn.stats + lim.stats)
    ensures OutputLimited(cfg) ==> forall i :: 0 <= i < |r.signal| ==> -1.0 <= r.signal[i] <= 1.0
  {
    var dyn := DynamicsStage(m, cfg, x);
    var lim := Limiter(m, cfg, false, None, dyn.signal);
    r := StageResult(lim.signal, dyn.stats + lim.stats);
    if !cfg.limiter.enabled && OutputLimited(cfg) {
      assert lim.signal == dyn.signal;
    }
  }

  /** `process`. An empty signal comes back unchanged with the requested settings and an
      empty-input flag. Otherwise the output has one sample per input sample, its
      reported levels and clipping ratio are those of the output itself, and it lies
      within [-1, 1] whenever a limiter has the last word on it. */
  method Process(m: Math, cfg: Config, plugins: Plugins, apm: Apm, pyln: bool, meter: Meter,
                 x: seq<real>, sampleRate: int, mask: Option<seq<bool>>)
    returns (r: EnhancementResult)
    requires sampleRate > 0 && ExpLaws(m)
    ensures |r.signal| == |x|
    ensures |x| == 0 ==> r == EnhancementResult(x, RequestedStats(cfg)["v2_empty_input" := Flag(true)])
    ensures |x| > 0 ==>
      var c := Chain(m, cfg, plugins, apm, pyln, meter, x, sampleRate, mask);
      r == EnhancementResult(c.limiter.signal, MergedReport(m, cfg, c))
    ensures |x| > 0 ==>
      && "output_rms_dbfs" in r.stats && r.stats["output_rms_dbfs"] == Num(RmsDbfs(m, r.signal))
      && "output_peak_dbfs" in r.stats && r.stats["output_peak_dbfs"] == Num(PeakDbfs(m, r.signal))
      && "clipping_sample_ratio" in r.stats && r.stats["clipping_sample_ratio"] == Num(ClippingRatio(r.signal))
    ensures |x| > 0 && OutputLimited(cfg) ==> forall i :: 0 <= i < |r.signal| ==> -1.0 <= r.signal[i] <= 1.0
  {
    var stats := RequestedStats(cfg);
    if |x| == 0 {
      return EnhancementResult(x, stats["v2_empty_input" := Flag(true)]);
    }
    var front := CleanupAndLoudness(m, cfg, plugins, apm, pyln, meter, ClipAll(x), sampleRate, mask);
    var tail := DynamicsAndLimiter(m, cfg, front.signal);
    var work := tail.signal;
    ghost var c := Chain(m, cfg, plugins, apm, pyln, meter, x, sampleRate, mask);
    assert front.signal == c.loudness.signal;
    assert work == c.limiter.signal;
    MergeInOrder(stats, c.dc.stats, c.hpf.stats, c.ns.stats, map["noise_estimate_db" := Num(c.noiseDb)],
                 c.loudness.stats, c.dynamics.stats, c.limiter.stats);
    stats := stats + front.stats + tail.stats;
    stats := stats["output_rms_dbfs" := Num(RmsDbfs(m, work))];
    stats := stats["output_peak_dbfs" := Num(PeakDbfs(m, work))];
    stats := stats["clipping_sample_ratio" := Num(ClippingRatio(work))];
    r := EnhancementResult(work, stats);
  }
}
