/** The first two stages of the pipeline: `_apply_dc_removal` and the one-pole
    `_apply_high_pass_filter`. */
module Filters {
  import opened Numerics
  import opened Signals
  import opened EngineConfig

  /** `signal - c` for a scalar c. */
  function Shift(s: seq<real>, c: real): (r: seq<real>)
    ensures |r| == |s|
    ensures forall i :: 0 <= i < |s| ==> r[i] == s[i] - c
  {
    seq(|s|, i requires 0 <= i < |s| => s[i] - c)
  }

  lemma {:induction false} SumShift(s: seq<real>, c: real)
    ensures Sum(Shift(s, c)) == Sum(s) - |s| as real * c
  {
    if |s| > 0 {
      assert Shift(s, c)[1..] == Shift(s[1..], c);
      SumShift(s[1..], c);
      assert |s| as real * c == (|s| - 1) as real * c + c;
    }
  }

  /** `_apply_dc_removal`: subtract the mean and report it as the removed offset. The
      engine calls it on non-empty signals only (numpy's mean of nothing is NaN). */
  function DcRemoval(x: seq<real>): (r: StageResult)
    requires |x| > 0
    ensures |r.signal| == |x|
    ensures r.stats.Keys == {"dc_offset_removed"}
  {
    var dc := Mean(x);
    StageResult(Shift(x, dc), map["dc_offset_removed" := Num(dc)])
  }

  /** The centred signal has mean exactly 0, every sample moved by the same offset, and
      that offset is what the diagnostics report. */
  lemma DcRemovalCentres(x: seq<real>)
    requires |x| > 0
    ensures var r := DcRemoval(x);
      && Mean(r.signal) == 0.0
      && r.stats["dc_offset_removed"].Num?
      && forall i :: 0 <= i < |x| ==> x[i] - r.signal[i] == r.stats["dc_offset_removed"].r
  {
    SumShift(x, Mean(x));
  }

  /** The double nearest to pi, as `math.pi`. */
  const Pi: real := 3.141592653589793

  /** `alpha = rc / (rc + dt)` with `rc = 1 / (2 pi cutoff)` and `dt = 1 / sampleRate`. */
  function HpfAlpha(cutoffHz: real, sampleRate: int): (alpha: real)
    requires cutoffHz > 0.0 && sampleRate > 0
    ensures 0.0 < alpha < 1.0
  {
    var dt := 1.0 / sampleRate as real;
    var rc := 1.0 / (2.0 * Pi * cutoffHz);
    rc / (rc + dt)
  }

  /** `y` is the one-pole high-pass response to `x`: same length, `y[0] = x[0]` and
      `y[i] = alpha * (y[i - 1] + x[i] - x[i - 1])`. */
  ghost predicate OnePoleHighPass(x: seq<real>, y: seq<real>, alpha: real) {
    && |y| == |x|
    && (|x| > 0 ==> y[0] == x[0])
    && forall i :: 1 <= i < |x| ==> y[i] == HpfStep(alpha, y[i - 1], x[i], x[i - 1])
  }

  /** One step of the recurrence: `alpha * (previous output + input - previous input)`. */
  function HpfStep(alpha: real, previousOut: real, input: real, previousIn: real): real {
    alpha * (previousOut + input - previousIn)
  }

  /** The response is determined by the input: two responses to the same input agree. */
  lemma OnePoleHighPassUnique(x: seq<real>, y: seq<real>, z: seq<real>, alpha: real)
    requires OnePoleHighPass(x, y, alpha) && OnePoleHighPass(x, z, alpha)
    ensures y == z
  {
    var i := 0;
    while i < |x|
      invariant 0 <= i <= |x|
      invariant y[..i] == z[..i]
    {
      assert i > 0 ==> y[i - 1] == z[i - 1] by {
        if i > 0 { assert y[..i][i - 1] == z[..i][i - 1]; }
      }
      assert y[i] == z[i];
      assert y[..i + 1] == y[..i] + [y[i]] && z[..i + 1] == z[..i] + [z[i]];
      i := i + 1;
    }
    assert y == y[..|x|] && z == z[..|x|];
  }

  /** The filter blocks DC: the response to a constant input decays geometrically,
      `y[i] = alpha * y[i - 1]`, and never exceeds the input's magnitude. */
  lemma HighPassBlocksDc(x: seq<real>, y: seq<real>, alpha: real, c: real)
    requires 0.0 < alpha < 1.0
    requires OnePoleHighPass(x, y, alpha)
    requires forall i :: 0 <= i < |x| ==> x[i] == c
    ensures forall i :: 1 <= i < |y| ==> y[i] == alpha * y[i - 1]
    ensures forall i :: 0 <= i < |y| ==> Abs(y[i]) <= Abs(c)
  {
    forall i | 1 <= i < |y|
      ensures y[i] == alpha * y[i - 1]
    {
      assert y[i] == HpfStep(alpha, y[i - 1], x[i], x[i - 1]);
      HpfStepOnConstant(alpha, y[i - 1], c);
    }
    GeometricBounded(y, alpha, Abs(c));
  }

  /** A sequence that starts within [-bound, bound] and shrinks by a factor in (0, 1)
      at each step stays within [-bound, bound]. */
  lemma GeometricBounded(y: seq<real>, alpha: real, bound: real)
    requires 0.0 < alpha < 1.0
    requires |y| > 0 ==> Abs(y[0]) <= bound
    requires forall i :: 1 <= i < |y| ==> y[i] == alpha * y[i - 1]
    ensures forall i :: 0 <= i < |y| ==> Abs(y[i]) <= bound
  {
    var i := 0;
    while i < |y|
      invariant 0 <= i <= |y|
      invariant forall k :: 0 <= k < i ==> Abs(y[k]) <= bound
    {
      if i > 0 {
        ScaleDown(alpha, y[i - 1]);
      }
      i := i + 1;
    }
  }

  lemma HpfStepOnConstant(alpha: real, previousOut: real, c: real)
    ensures HpfStep(alpha, previousOut, c, c) == alpha * previousOut
  {
    assert previousOut + c - c == previousOut;
  }

  lemma ScaleDown(alpha: real, v: real)
    requires 0.0 < alpha < 1.0
    ensures Abs(alpha * v) <= Abs(v)
  {
    var w := Abs(v);
    assert alpha * w <= w;
    assert alpha * w >= 0.0;
    assert Abs(alpha * v) == alpha * w;
  }

  /** The one-pole response computed sample by sample: each output extends the response of
      the input's prefix by one step of the recurrence. */
  function OnePole(x: seq<real>, alpha: real): (y: seq<real>)
    ensures OnePoleHighPass(x, y, alpha)
    decreases |x|
  {
    if |x| <= 1 then x
    else
      var p := OnePole(x[..|x| - 1], alpha);
      assert forall i :: 0 <= i < |x| - 1 ==> x[..|x| - 1][i] == x[i];
      p + [HpfStep(alpha, p[|p| - 1], x[|x| - 1], x[|x| - 2])]
  }

  /** `_apply_high_pass_filter` as a value: the pass-through below two samples or at a
      cutoff of 0 Hz or less, otherwise the one-pole response and its three-key report. */
  function HighPassed(x: seq<real>, cutoffHz: real, sampleRate: int): (r: StageResult)
    requires |x| >= 2 && cutoffHz > 0.0 ==> sampleRate > 0
    ensures |r.signal| == |x|
    ensures "hpf_enabled" in r.stats
  {
    if |x| < 2 || cutoffHz <= 0.0 then StageResult(x, map["hpf_enabled" := Flag(false)])
    else
      var alpha := HpfAlpha(cutoffHz, sampleRate);
      StageResult(OnePole(x, alpha), map["hpf_enabled" := Flag(true), "hpf_cutoff_hz" := Num(cutoffHz),
                                         "hpf_alpha" := Num(alpha)])
  }

  /** The filtering loop of `_apply_high_pass_filter`, on an output array. */
  method OnePoleResponse(x: seq<real>, alpha: real) returns (y: seq<real>)
    requires |x| > 0
    ensures OnePoleHighPass(x, y, alpha)
    ensures y == OnePole(x, alpha)
  {
    var output := new real[|x|];
    output[0] := x[0];
    for i := 1 to |x|
      invariant output[0] == x[0]
      invariant forall k :: 1 <= k < i ==> output[k] == HpfStep(alpha, output[k - 1], x[k], x[k - 1])
    {
      output[i] := HpfStep(alpha, output[i - 1], x[i], x[i - 1]);
    }
    y := output[..];
    OnePoleHighPassUnique(x, y, OnePole(x, alpha), alpha);
  }

  /** `_apply_high_pass_filter`. Fewer than two samples or a cutoff at or below 0 Hz pass
      the signal through with `hpf_enabled = False`; otherwise the output is the one-pole
      response with alpha from the cutoff and the sample rate. */
  method HighPassFilter(x: seq<real>, cutoffHz: real, sampleRate: int) returns (r: StageResult)
    requires |x| >= 2 && cutoffHz > 0.0 ==> sampleRate > 0
    ensures r == HighPassed(x, cutoffHz, sampleRate)
    ensures |x| < 2 || cutoffHz <= 0.0 ==> r == StageResult(x, map["hpf_enabled" := Flag(false)])
    ensures |x| >= 2 && cutoffHz > 0.0 ==>
      && OnePoleHighPass(x, r.signal, HpfAlpha(cutoffHz, sampleRate))
      && r.stats == map["hpf_enabled" := Flag(true), "hpf_cutoff_hz" := Num(cutoffHz),
                        "hpf_alpha" := Num(HpfAlpha(cutoffHz, sampleRate))]
  {
    if |x| < 2 || cutoffHz <= 0.0 {
      return StageResult(x, map["hpf_enabled" := Flag(false)]);
    }
    var alpha := HpfAlpha(cutoffHz, sampleRate);
    var y := OnePoleResponse(x, alpha);
    r := StageResult(y, map["hpf_enabled" := Flag(true), "hpf_cutoff_hz" := Num(cutoffHz),
                            "hpf_alpha" := Num(alpha)]);
  }
}
