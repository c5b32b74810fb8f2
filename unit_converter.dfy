/**
 * The small numeric operators the browser views are written with: JavaScript's `x || 0` on an
 * optional number, `Math.min`/`Math.max`/`Math.abs`, `Math.round`, integer `%`, and the
 * two-segment gauge both wind doughnuts draw. Numbers are `real`: IEEE rounding and NaN are not
 * part of the model.
 */
module UnitConverter {
  import opened Wrappers

  /** JavaScript `x || 0` where `x` is an optional-chained field: a missing field reads as 0. */
  function OrZero(x: Option<real>): real {
    x.GetOr(0.0)
  }

  function Min(a: real, b: real): real { if a <= b then a else b }

  function Max(a: real, b: real): real { if a >= b then a else b }

  function Abs(a: real): real { if a < 0.0 then -a else a }

  /** `Math.round`: the nearest integer, with halves rounded up (towards +infinity). */
  function Round(x: real): (n: int)
    ensures n as real - 0.5 <= x < n as real + 0.5
  {
    (x + 0.5).Floor
  }

  /** `Math.round` is the only integer within half a unit below and under half a unit above `x`. */
  lemma RoundIsUnique(x: real, m: int)
    requires m as real - 0.5 <= x < m as real + 0.5
    ensures Round(x) == m
  {
  }

  /** Halves round towards +infinity, for negative halves too (unlike Python's `round`). */
  lemma RoundHalfUp(k: int)
    ensures Round(k as real + 0.5) == k + 1
    ensures Round(-(k as real) - 0.5) == -k
  {
    RoundIsUnique(k as real + 0.5, k + 1);
    RoundIsUnique(-(k as real) - 0.5, -k);
  }

  /** JavaScript `%` on integers: truncates towards zero, so the sign follows the dividend. */
  function Rem(a: int, n: int): (r: int)
    requires n > 0
    ensures a >= 0 ==> r == a % n
    ensures a < 0 ==> -n < r <= 0
    ensures a < 0 ==> r == (if a % n == 0 then 0 else a % n - n)
  {
    if a >= 0 then a % n
    else
      var b := -a;
      if b % n == 0 then
        ModUnique(a, n, -(b / n), 0);
        0
      else
        ModUnique(a, n, -(b / n) - 1, n - b % n);
        -(b % n)
  }

  /** Euclidean division is unique: a quotient and remainder in [0, n) are `/` and `%`. */
  lemma ModUnique(x: int, n: int, q: int, r: int)
    requires n > 0 && 0 <= r < n && x == q * n + r
    ensures x % n == r && x / n == q
  {
    var d := q - x / n;
    assert d * n == x % n - r;
  }

  /**
   * The data of a gauge doughnut: the filled part `Math.min(speed, max)` and the remainder
   * `Math.max(0, max - speed)`.
   */
  function GaugeSegments(speed: real, max: real): (seg: seq<real>)
    requires max > 0.0
    ensures |seg| == 2 && seg[0] <= max && 0.0 <= seg[1] <= max - seg[0] + Max(0.0, -speed)
    ensures 0.0 <= speed ==> 0.0 <= seg[0] && seg[0] + seg[1] == max
    ensures speed >= max ==> seg == [max, 0.0]
    ensures 0.0 <= speed <= max ==> seg == [speed, max - speed]
  {
    [Min(speed, max), Max(0.0, max - speed)]
  }
}
