/** The engine's configuration records (`EnhancementV2Config`, `LimiterConfig`,
    `TargetsConfig`), the diagnostics report, and the fixed lookup tables for the
    noise-suppression level and the automatic gain control. */
module EngineConfig {

  datatype LimiterConfig = LimiterConfig(enabled: bool, threshold: real, attackMs: real, releaseMs: real)

  datatype TargetsConfig = TargetsConfig(lufsTarget: real, maxGainDb: real)

  /** Mode, backend and strategy names are the strings the source compares against
      ("fast_dsp", "webrtc", "dynaudnorm", ...); any other string is accepted too. */
  datatype Config = Config(
    mode: string,
    nsEngine: string,
    nsLevel: string,
    loudnessStrategy: string,
    dynamics: string,
    limiter: LimiterConfig,
    targets: TargetsConfig,
    hpfCutoffHz: real)

  /** The dataclass defaults. */
  function DefaultConfig(): Config {
    Config("fast_dsp", "webrtc", "moderate", "dynaudnorm", "upward_comp",
           LimiterConfig(true, 0.98, 5.0, 50.0), TargetsConfig(-18.0, 18.0), 80.0)
  }

  /** A diagnostics value: a flag, a number, an integer count or a tag. */
  datatype Value = Flag(b: bool) | Num(r: real) | Int(i: int) | Tag(s: string)

  type Stats = map<string, Value>

  /** What every stage returns: the transformed signal and its diagnostics. */
  datatype StageResult = StageResult(signal: seq<real>, stats: Stats)

  /** `_map_ns_level`: low, moderate, high, veryhigh are 0 to 3; any other level is 1. */
  function MapNsLevel(level: string): (r: int)
    ensures 0 <= r <= 3
    ensures level !in {"low", "moderate", "high", "veryhigh"} ==> r == 1
  {
    if level == "low" then 0
    else if level == "moderate" then 1
    else if level == "high" then 2
    else if level == "veryhigh" then 3
    else 1
  }

  /** The level names in order of aggressiveness. */
  const NsLevelNames: seq<string> := ["low", "moderate", "high", "veryhigh"]

  /** The table is the inverse of the list of level names: name number k maps to k. */
  lemma NsLevelTable(k: nat)
    requires k < |NsLevelNames|
    ensures MapNsLevel(NsLevelNames[k]) == k
  {
  }

  /** `_map_agc_params`: (target, level) = (18, 68) in high_quality mode, else (20, 58). */
  function MapAgcParams(mode: string): (r: (int, int))
    ensures mode == "high_quality" <==> r == (18, 68)
    ensures mode != "high_quality" <==> r == (20, 58)
  {
    if mode == "high_quality" then (18, 68) else (20, 58)
  }
}
