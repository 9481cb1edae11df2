/** Scalar helpers of the enhancement engine (`_clamp`, Python's `round`) and the
    transcendental primitives it calls, which the model takes as parameters. */
module Numerics {

  /** `math.exp`, `math.log10`, `10.0 ** x`, `np.sqrt`, `x ** y` and `np.percentile`.
      They are not defined here: every stage receives them in a `Math` value, and
      `Lawful` states the only facts about them that the proofs use. */
  datatype Math = Math(
    exp: real -> real,
    log10: real -> real,
    exp10: real -> real,
    sqrt: real -> real,
    pow: (real, real) -> real,
    percentile: (seq<real>, real) -> real)

  /** Facts true of the real functions, grouped by primitive so that each proof carries
      only the ones it uses. exp is positive and below 1 for negative arguments. */
  ghost predicate ExpLaws(m: Math) {
    && (forall x :: m.exp(x) > 0.0)
    && (forall x :: x < 0.0 ==> m.exp(x) < 1.0)
  }

  /** 10^x is positive, at least 1 for x >= 0, and 10^0 = 1. */
  ghost predicate Exp10Laws(m: Math) {
    && (forall x :: m.exp10(x) > 0.0)
    && (forall x :: x >= 0.0 ==> m.exp10(x) >= 1.0)
    && m.exp10(0.0) == 1.0
  }

  /** log10 is non-negative from 1 on, non-positive on (0, 1], at least -7 from 10^-7 on,
      and log10(10^-7) = -7. */
  ghost predicate Log10Laws(m: Math) {
    && (forall x :: x >= 1.0 ==> m.log10(x) >= 0.0)
    && (forall x :: 0.0 < x <= 1.0 ==> m.log10(x) <= 0.0)
    && (forall x :: x >= 0.0000001 ==> m.log10(x) >= -7.0)
    && m.log10(0.0000001) == -7.0
  }

  /** Square roots of non-negative numbers are non-negative, sqrt(0) = 0, and a
      percentile of a non-empty sequence lies between its least and largest value. */
  ghost predicate StatLaws(m: Math) {
    && (forall x :: x >= 0.0 ==> m.sqrt(x) >= 0.0)
    && m.sqrt(0.0) == 0.0
    && (forall s, q :: |s| > 0 ==> Min(s) <= m.percentile(s, q) <= Max(s))
  }

  ghost predicate Lawful(m: Math) {
    ExpLaws(m) && Exp10Laws(m) && Log10Laws(m) && StatLaws(m)
  }

  function Max2(a: real, b: real): real { if a >= b then a else b }
  function Min2(a: real, b: real): real { if a <= b then a else b }

  /** `_clamp(value, lower, upper) = max(lower, min(upper, value))`. The result is never
      below `lower`; it is within [lower, upper] when that range is not empty, it is
      `value` itself when `value` is in range, and it is `lower` when the range is empty. */
  function Clamp(value: real, lower: real, upper: real): (r: real)
    ensures lower <= r <= Max2(lower, upper)
    ensures lower <= upper ==> r <= upper
    ensures lower <= value <= upper ==> r == value
    ensures value < lower ==> r == lower
    ensures lower <= upper < value ==> r == upper
    ensures upper < lower ==> r == lower
  {
    Max2(lower, Min2(upper, value))
  }

  /** `np.clip(x, -1.0, 1.0)` on one sample. */
  function Clip(x: real): (r: real)
    ensures -1.0 <= r <= 1.0
    ensures -1.0 <= x <= 1.0 ==> r == x
  {
    Clamp(x, -1.0, 1.0)
  }

  /** Least element of a non-empty sequence. */
  function Min(s: seq<real>): (r: real)
    requires |s| > 0
    ensures forall i :: 0 <= i < |s| ==> r <= s[i]
    ensures exists i :: 0 <= i < |s| && r == s[i]
  {
    if |s| == 1 then s[0] else Min2(s[0], Min(s[1..]))
  }

  /** Largest element of a non-empty sequence. */
  function Max(s: seq<real>): (r: real)
    requires |s| > 0
    ensures forall i :: 0 <= i < |s| ==> s[i] <= r
    ensures exists i :: 0 <= i < |s| && r == s[i]
  {
    if |s| == 1 then s[0] else Max2(s[0], Max(s[1..]))
  }

  /** Python's `round(x)` and numpy's `np.round(x)` on a real: the nearest integer,
      ties going to the even neighbour. */
  function RoundHalfEven(x: real): (r: int)
    ensures x - 0.5 <= r as real <= x + 0.5
    ensures (r as real == x - 0.5 || r as real == x + 0.5) ==> r % 2 == 0
  {
    var f := x.Floor;
    var frac := x - f as real;
    if frac < 0.5 then f
    else if frac > 0.5 then f + 1
    else if f % 2 == 0 then f
    else f + 1
  }

  /** The two properties of `RoundHalfEven` pin its result down: no other integer is
      within one half of x and even on a tie. */
  lemma RoundHalfEvenUnique(x: real, n: int)
    requires x - 0.5 <= n as real <= x + 0.5
    requires (n as real == x - 0.5 || n as real == x + 0.5) ==> n % 2 == 0
    ensures n == RoundHalfEven(x)
  {
    var r := RoundHalfEven(x);
    assert -1 <= n - r <= 1;
    assert n - r == 1 ==> n as real == x + 0.5 && r as real == x - 0.5;
    assert n - r == -1 ==> n as real == x - 0.5 && r as real == x + 0.5;
  }

  /** `ceil(n / d)` for `d > 0`: the number of blocks of size `d` needed to cover `n`,
      counted by repeated subtraction (`CeilDivIsDivision` relates it to integer division). */
  function CeilDiv(n: nat, d: nat): nat
    requires d > 0
    decreases n
  {
    if n == 0 then 0 else if n <= d then 1 else 1 + CeilDiv(n - d, d)
  }

  lemma {:induction false} CeilDivIsDivision(n: nat, d: nat)
    requires d > 0
    ensures CeilDiv(n, d) == (n + d - 1) / d
  {
    if n == 0 {
      DivUnique(d - 1, d, 0);
    } else if n <= d {
      DivUnique(n + d - 1, d, 1);
    } else {
      CeilDivIsDivision(n - d, d);
      var q := (n - 1) / d;
      var r := (n - 1) % d;
      assert n - 1 == q * d + r && 0 <= r < d;
      assert (q + 1) * d == q * d + d;
      DivUnique(n + d - 1, d, q + 1);
    }
  }

  /** Euclidean division: `a / d` is the `k` with `k * d <= a < k * d + d`. */
  lemma DivUnique(a: int, d: int, k: int)
    requires d > 0 && k * d <= a < k * d + d
    ensures a / d == k
  {
    var q := a / d;
    var r := a % d;
    assert a == q * d + r && 0 <= r < d;
    assert (q - k) * d == q * d - k * d;
    SmallMultiple(q - k, d);
  }

  /** The start of block `k` when blocks of size `d` follow each other from 0: `k * d`,
      written as repeated addition. */
  function BlockStart(k: nat, d: nat): nat {
    if k == 0 then 0 else BlockStart(k - 1, d) + d
  }

  lemma {:induction false} BlockStartIsProduct(k: nat, d: nat)
    ensures BlockStart(k, d) == k * d
  {
    if k > 0 {
      BlockStartIsProduct(k - 1, d);
      assert k * d == (k - 1) * d + d;
    }
  }

  /** A block count whose last block starts before `n` and ends at or after it is
      `CeilDiv(n, d)`. */
  lemma {:induction false} BlockCount(n: nat, d: nat, k: nat)
    requires d > 0 && n <= BlockStart(k, d) < n + d
    ensures k == CeilDiv(n, d)
  {
    if k > 0 {
      if n > d {
        BlockCount(n - d, d, k - 1);
      }
    }
  }

  /** A block that starts before `n` is one of the `CeilDiv(n, d)` blocks covering `n`. */
  lemma {:induction false} BlockBeforeEnd(n: nat, d: nat, k: nat)
    requires d > 0 && BlockStart(k, d) < n
    ensures k < CeilDiv(n, d)
  {
    if k > 0 {
      BlockBeforeEnd(n - d, d, k - 1);
    }
  }

  lemma MulMonotoneStrict(a: int, b: int, d: int)
    requires d > 0
    ensures a < b ==> a * d < b * d
    ensures a * d < b * d ==> a < b
  {
    assert b * d - a * d == (b - a) * d;
  }

  /** An integer multiple of `d` strictly between `-d` and `d` is zero. */
  lemma SmallMultiple(m: int, d: int)
    requires d > 0 && -d < m * d < d
    ensures m == 0
  {
    MulMonotoneStrict(0, m, d);
    MulMonotoneStrict(m, 0, d);
    assert m * d - d == (m - 1) * d;
    assert m * d + d == (m + 1) * d;
    MulMonotoneStrict(0, m - 1, d);
    MulMonotoneStrict(m + 1, 0, d);
  }
}
