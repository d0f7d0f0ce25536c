/** Integer arithmetic shared by the dashboards: JavaScript's Math.round on a
    non-negative quotient, Math.max with a floor of 1, and the 0..100 clamp
    used by every progress bar. */
module Arith {

  function Max(a: int, b: int): (r: int)
    ensures r >= a && r >= b && (r == a || r == b)
  {
    if a >= b then a else b
  }

  function Min(a: int, b: int): (r: int)
    ensures r <= a && r <= b && (r == a || r == b)
  {
    if a <= b then a else b
  }

  /** Math.round(a / b) for a >= 0 and b > 0: the nearest integer to a/b,
      halves rounded up. */
  function RoundDiv(a: nat, b: nat): (r: nat)
    requires b > 0
    ensures 2 * b * r <= 2 * a + b < 2 * b * r + 2 * b
  {
    (2 * a + b) / (2 * b)
  }

  /** The two bounds of RoundDiv pin the result down: a/b lies in
      [r - 1/2, r + 1/2), so no other integer satisfies them. */
  lemma RoundDivUnique(a: nat, b: nat, r: int)
    requires b > 0
    requires 2 * b * r <= 2 * a + b < 2 * b * r + 2 * b
    ensures r == RoundDiv(a, b)
  {
    var q := RoundDiv(a, b);
    MulCancel(2 * b, r, q + 1);
    MulCancel(2 * b, q, r + 1);
  }

  lemma MulCancel(k: nat, x: int, y: int)
    requires k > 0 && k * x < k * y
    ensures x < y
  {
  }

  /** Math.round(x / 60) for a count of seconds: half a minute or more
      counts as a whole minute. */
  function RoundMinutes(seconds: nat): (m: nat)
    ensures 60 * m <= seconds + 30 < 60 * m + 60
  {
    RoundDiv(seconds, 60)
  }

  /** Math.min(100, Math.max(0, v)) — the width of a percentage bar. */
  function ClampPercent(v: int): (r: int)
    ensures 0 <= r <= 100
    ensures 0 <= v <= 100 ==> r == v
    ensures v < 0 ==> r == 0
    ensures v > 100 ==> r == 100
  {
    Min(100, Max(0, v))
  }

  /** A rounded average stays between the bounds of what was averaged. */
  lemma RoundDivBetween(sum: nat, n: nat, lo: nat, hi: nat)
    requires n > 0 && lo * n <= sum <= hi * n
    ensures lo <= RoundDiv(sum, n) <= hi
  {
    var r := RoundDiv(sum, n);
    assert 2 * n * r <= 2 * sum + n < 2 * n * hi + 2 * n;
    assert 2 * n * hi + 2 * n == 2 * n * (hi + 1);
    MulCancel(2 * n, r, hi + 1);
    assert 2 * n * lo <= 2 * sum < 2 * n * r + n;
    assert 2 * n * r + 2 * n == 2 * n * (r + 1);
    MulCancel(2 * n, lo, r + 1);
  }

  /** A quotient of at least lo rounds to at least lo. */
  lemma RoundDivAtLeast(sum: nat, n: nat, lo: nat)
    requires n > 0 && lo * n <= sum
    ensures lo <= RoundDiv(sum, n)
  {
    var r := RoundDiv(sum, n);
    assert 2 * n * lo <= 2 * sum < 2 * n * r + n;
    assert 2 * n * r + 2 * n == 2 * n * (r + 1);
    MulCancel(2 * n, lo, r + 1);
  }
}
