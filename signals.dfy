/** Whole-signal helpers (numpy's vectorised operations) and the three level
    estimators of the engine: `_estimate_rms_dbfs`, `_estimate_peak_dbfs` and
    `_estimate_noise_floor_db`. Samples are reals. */
module Signals {
  import opened Numerics

  function Abs(x: real): (r: real)
    ensures r >= 0.0 && (r == x || r == -x)
  {
    if x < 0.0 then -x else x
  }

  function Sum(s: seq<real>): real {
    if |s| == 0 then 0.0 else s[0] + Sum(s[1..])
  }

  /** `np.mean`; numpy gives NaN for an empty array, which has no real counterpart. */
  function Mean(s: seq<real>): real
    requires |s| > 0
  {
    Sum(s) / |s| as real
  }

  /** `np.clip(signal, -1.0, 1.0)`. */
  function ClipAll(s: seq<real>): (r: seq<real>)
    ensures |r| == |s|
    ensures forall i :: 0 <= i < |s| ==> r[i] == Clip(s[i])
    ensures forall i :: 0 <= i < |s| ==> -1.0 <= r[i] <= 1.0
  {
    seq(|s|, i requires 0 <= i < |s| => Clip(s[i]))
  }

  /** `signal * gain`. */
  function Scale(s: seq<real>, g: real): (r: seq<real>)
    ensures |r| == |s|
    ensures forall i :: 0 <= i < |s| ==> r[i] == s[i] * g
  {
    seq(|s|, i requires 0 <= i < |s| => s[i] * g)
  }

  /** The elementwise products a[j] * v[j], `a * v` on two arrays of one length. */
  function Products(a: seq<real>, v: seq<real>): (p: seq<real>)
    requires |a| == |v|
    ensures |p| == |a|
    ensures forall j :: 0 <= j < |a| ==> p[j] == a[j] * v[j]
  {
    seq(|a|, j requires 0 <= j < |a| => a[j] * v[j])
  }

  /** `np.abs(signal)`. */
  function AbsAll(s: seq<real>): (r: seq<real>)
    ensures |r| == |s|
    ensures forall i :: 0 <= i < |s| ==> r[i] == Abs(s[i])
  {
    seq(|s|, i requires 0 <= i < |s| => Abs(s[i]))
  }

  /** `np.square(signal)`. */
  function Squares(s: seq<real>): (r: seq<real>)
    ensures |r| == |s|
    ensures forall i :: 0 <= i < |s| ==> r[i] == s[i] * s[i]
  {
    seq(|s|, i requires 0 <= i < |s| => s[i] * s[i])
  }

  /** `np.max(np.abs(signal))`. */
  function MaxAbs(s: seq<real>): (r: real)
    requires |s| > 0
    ensures r >= 0.0
    ensures forall i :: 0 <= i < |s| ==> Abs(s[i]) <= r
  {
    var a := AbsAll(s);
    assert Abs(s[0]) == a[0];
    Max(a)
  }

  /** `signal[mask]` (keep = true) or `signal[~mask]` (keep = false): the samples whose
      mask entry equals `keep`, in order. */
  function Select(s: seq<real>, mask: seq<bool>, keep: bool): (r: seq<real>)
    requires |mask| == |s|
    ensures |r| <= |s|
  {
    if |s| == 0 then []
    else (if mask[0] == keep then [s[0]] else []) + Select(s[1..], mask[1..], keep)
  }

  /** The number of samples whose magnitude is at least `t`, i.e. `np.sum(np.abs(s) >= t)`. */
  function CountAtLeast(s: seq<real>, t: real): (r: nat)
    ensures r <= |s|
  {
    if |s| == 0 then 0 else (if Abs(s[0]) >= t then 1 else 0) + CountAtLeast(s[1..], t)
  }

  /** The least level the estimators report for a non-empty signal: 20 * log10(1e-7). */
  const FloorDb: real := -140.0
  /** What the estimators report for an empty signal. */
  const EmptyDb: real := -120.0

  /** `20 * log10(max(level, 1e-7))`. */
  function Dbfs(m: Math, level: real): real {
    20.0 * m.log10(Max2(level, 0.0000001))
  }

  /** RMS level in dBFS; -120 for an empty signal. */
  function RmsDbfs(m: Math, s: seq<real>): real {
    if |s| == 0 then EmptyDb else Dbfs(m, m.sqrt(Mean(Squares(s))))
  }

  /** Peak level in dBFS; -120 for an empty signal. */
  function PeakDbfs(m: Math, s: seq<real>): real {
    if |s| == 0 then EmptyDb else Dbfs(m, MaxAbs(s))
  }

  /** Noise floor: the dBFS of the 20th percentile of the magnitudes; -120 for an empty signal. */
  function NoiseFloorDb(m: Math, s: seq<real>): real {
    if |s| == 0 then EmptyDb else Dbfs(m, m.percentile(AbsAll(s), 20.0))
  }

  /** No reported level is below -140 dBFS, and the empty-signal sentinel is -120. */
  lemma DbfsAtLeastFloor(m: Math, level: real)
    requires Log10Laws(m)
    ensures Dbfs(m, level) >= FloorDb
  {
  }

  lemma LevelsBounded(m: Math, s: seq<real>)
    requires Lawful(m)
    ensures RmsDbfs(m, s) >= FloorDb && PeakDbfs(m, s) >= FloorDb && NoiseFloorDb(m, s) >= FloorDb
    ensures |s| == 0 ==> RmsDbfs(m, s) == EmptyDb && PeakDbfs(m, s) == EmptyDb && NoiseFloorDb(m, s) == EmptyDb
  {
    if |s| > 0 {
      DbfsAtLeastFloor(m, m.sqrt(Mean(Squares(s))));
      DbfsAtLeastFloor(m, MaxAbs(s));
      DbfsAtLeastFloor(m, m.percentile(AbsAll(s), 20.0));
    }
  }

  lemma {:induction false} SumOfZeros(s: seq<real>)
    requires forall i :: 0 <= i < |s| ==> s[i] == 0.0
    ensures Sum(s) == 0.0
  {
    if |s| > 0 {
      SumOfZeros(s[1..]);
    }
  }

  /** A non-empty silent signal measures exactly -140 dBFS on all three estimators (the
      clamp floor of 1e-7), not the -120 dB empty-input sentinel. */
  lemma SilenceLevels(m: Math, s: seq<real>)
    requires Lawful(m) && |s| > 0
    requires forall i :: 0 <= i < |s| ==> s[i] == 0.0
    ensures RmsDbfs(m, s) == FloorDb && PeakDbfs(m, s) == FloorDb && NoiseFloorDb(m, s) == FloorDb
  {
    var sq := Squares(s);
    SumOfZeros(sq);
    assert Mean(sq) == 0.0;
    var a := AbsAll(s);
    assert Max(a) == 0.0 by {
      var k :| 0 <= k < |a| && Max(a) == a[k];
    }
    assert Min(a) == 0.0 by {
      var k :| 0 <= k < |a| && Min(a) == a[k];
    }
    assert m.percentile(a, 20.0) == 0.0;
  }

  /** A mean of values within [lo, hi] lies within [lo, hi]. */
  lemma MeanBounds(s: seq<real>, lo: real, hi: real)
    requires |s| > 0
    requires forall i :: 0 <= i < |s| ==> lo <= s[i] <= hi
    ensures lo <= Mean(s) <= hi
  {
    SumBounds(s, lo, hi);
    var n := |s| as real;
    assert Sum(s) / n >= lo by {
      assert lo * n <= Sum(s);
      assert (Sum(s) / n) * n == Sum(s);
    }
    assert Sum(s) / n <= hi by {
      assert Sum(s) <= hi * n;
      assert (Sum(s) / n) * n == Sum(s);
    }
  }

  lemma {:induction false} SumBounds(s: seq<real>, lo: real, hi: real)
    requires forall i :: 0 <= i < |s| ==> lo <= s[i] <= hi
    ensures lo * |s| as real <= Sum(s) <= hi * |s| as real
  {
    if |s| > 0 {
      SumBounds(s[1..], lo, hi);
      assert lo * |s| as real == lo + lo * (|s| - 1) as real;
      assert hi * |s| as real == hi + hi * (|s| - 1) as real;
    }
  }
}
