// Python's numeric built-ins over `real`: `abs`, `int(x)` on a float (which
// truncates toward zero), float `%` (which takes the sign of its divisor),
// `round(x, d)`, and `min`/`max`.
module Numbers {

  function Abs(x: real): real { if x < 0.0 then -x else x }

  /** `int(x)` for a float: truncation toward zero. */
  function Trunc(x: real): (n: int)
    ensures x >= 0.0 ==> n as real <= x < n as real + 1.0
    ensures x < 0.0 ==> n as real - 1.0 < x <= n as real
  {
    if x >= 0.0 then x.Floor else -((-x).Floor)
  }

  /** Python's float `%`: the result takes the sign of the divisor. */
  function FloatMod(x: real, y: real): (r: real)
    requires y != 0.0
    ensures y > 0.0 ==> 0.0 <= r < y
    ensures y < 0.0 ==> y < r <= 0.0
  {
    var t := x / y;
    var q := t.Floor;
    var f := t - q as real;
    assert x - y * q as real == y * f by {
      assert y * t == x;
    }
    FractionScaled(y, f);
    var r := x - y * q as real;
    assert y < 0.0 ==> y < r <= 0.0;
    r
  }

  /** A fraction in [0, 1) of `y` lies between 0 and `y`. */
  lemma FractionScaled(y: real, f: real)
    requires 0.0 <= f < 1.0
    ensures y > 0.0 ==> 0.0 <= y * f < y
    ensures y < 0.0 ==> y < y * f <= 0.0
  {
    if y > 0.0 {
      assert y - y * f == y * (1.0 - f);
    } else if y < 0.0 {
      assert y * f - y == -y * (1.0 - f);
    }
  }

  /** `round(x, d)` with `scale` = 10^d, rounding halves up. */
  function RoundTo(x: real, scale: nat): real
    requires scale > 0
  {
    (x * scale as real + 0.5).Floor as real / scale as real
  }

  /** Rounding to thousandths never goes below a whole number of thousandths under the value. */
  lemma RoundThousandthsAtLeast(x: real, thousandths: int)
    requires thousandths as real / 1000.0 <= x
    ensures thousandths as real / 1000.0 <= RoundTo(x, 1000)
  {
    assert thousandths as real <= x * 1000.0;
    assert thousandths <= (x * 1000.0 + 0.5).Floor;
  }

  /** Rounding a non-negative value to thousandths keeps it non-negative. */
  lemma RoundNonNegative(x: real)
    requires 0.0 <= x
    ensures 0.0 <= RoundTo(x, 1000)
  {
    RoundThousandthsAtLeast(x, 0);
  }

  function MinOf(s: seq<real>): (m: real)
    requires |s| > 0
    ensures m in s && forall k :: 0 <= k < |s| ==> m <= s[k]
  {
    if |s| == 1 then s[0]
    else
      var m := MinOf(s[..|s| - 1]);
      assert forall k :: 0 <= k < |s| - 1 ==> s[..|s| - 1][k] == s[k];
      if s[|s| - 1] < m then s[|s| - 1] else m
  }

  function MaxOf(s: seq<real>): (m: real)
    requires |s| > 0
    ensures m in s && forall k :: 0 <= k < |s| ==> s[k] <= m
  {
    if |s| == 1 then s[0]
    else
      var m := MaxOf(s[..|s| - 1]);
      assert forall k :: 0 <= k < |s| - 1 ==> s[..|s| - 1][k] == s[k];
      if s[|s| - 1] > m then s[|s| - 1] else m
  }

  function MinInt(a: int, b: int): int { if a < b then a else b }
  function MaxInt(a: int, b: int): int { if a > b then a else b }

  /** A share of a positive whole lies between 0 and 1. */
  lemma RatioAtMostOne(part: real, whole: real)
    requires 0.0 <= part <= whole && 0.0 < whole
    ensures 0.0 <= part / whole <= 1.0
  {
    var q := part / whole;
    assert q * whole == part;
  }
}
