/** Exact arithmetic shared by the models: real rounding as torch.round performs it, and
    integer division as C performs it. */
module Numbers {
  function Abs(x: real): real {
    if x < 0.0 then -x else x
  }

  function Max(x: real, y: real): real {
    if x < y then y else x
  }

  function MinInt(x: int, y: int): int {
    if x < y then x else y
  }

  function MaxInt(x: int, y: int): int {
    if x < y then y else x
  }

  /** Round to the nearest integer, ties to even. */
  function Round(x: real): (r: int)
    ensures Abs(r as real - x) <= 0.5
  {
    var f := x.Floor;
    var d := x - f as real;
    if d < 0.5 then f
    else if 0.5 < d then f + 1
    else if f % 2 == 0 then f else f + 1
  }

  /** Rounding cannot leave an integer interval that holds its argument. */
  lemma RoundWithin(x: real, lo: int, hi: int)
    requires lo as real <= x <= hi as real
    ensures lo <= Round(x) <= hi
  {
    var r := Round(x);
    assert r < lo ==> r as real <= lo as real - 1.0;
    assert hi < r ==> hi as real + 1.0 <= r as real;
  }

  /** C's integer division: the quotient is truncated toward zero. */
  function TruncDiv(a: int, b: int): (q: int)
    requires 0 < b
    ensures 0 <= a ==> b * q <= a < b * q + b
    ensures a < 0 ==> b * q - b < a <= b * q
  {
    if 0 <= a then a / b else -((-a) / b)
  }

  lemma OneTimes(b: int, q: int)
    requires 0 < b
    ensures 0 < q ==> b <= b * q
  {
    if 0 < q {
      var r := q - 1;
      assert b * q == b * r + b;
    }
  }

  /** cute::ceil_div, which is C's (a + b - 1) / b also for a negative numerator. */
  function CeilDiv(a: int, b: int): (q: int)
    requires 0 < b
    ensures 0 < a ==> b * q - b < a <= b * q
    ensures a <= 0 ==> q <= 0
    ensures a <= b * q
  {
    var q := TruncDiv(a + b - 1, b);
    OneTimes(b, q);
    q
  }

  // ---- products

  lemma TimesNonNegative(i: int, n: int)
    requires 0 <= i && 0 <= n
    ensures 0 <= i * n
  {
  }

  lemma TimesZero(i: int, n: int)
    ensures n == 0 ==> i * n == 0
  {
  }

  lemma TimesMonotone(i: int, j: int, n: int)
    requires 0 <= n
    ensures i <= j ==> i * n <= j * n
  {
    if i <= j {
      TimesNonNegative(j - i, n);
      assert j * n == i * n + (j - i) * n;
    }
  }

  lemma SameMultiple(x: int, n: int, i: int, j: int)
    requires 0 <= n && i * n <= x < (i + 1) * n && j * n <= x < (j + 1) * n
    ensures i == j
  {
    TimesMonotone(i + 1, j, n);
    TimesMonotone(j + 1, i, n);
  }

  lemma QuotientIs(x: int, n: int, q: int)
    requires 0 < n && q * n <= x < q * n + n
    ensures x / n == q
  {
    var d := x / n;
    assert x == n * d + x % n;
    assert (q + 1) * n == q * n + n && (d + 1) * n == d * n + n;
    SameMultiple(x, n, q, d);
  }

  lemma TimesAssociative(a: int, b: int, c: int)
    ensures (a * b) * c == a * (b * c)
  {
  }

  lemma TimesMinus(a: int, b: int, c: int)
    ensures a * (b - c) == a * b - a * c
  {
  }

  lemma TimesPlus(a: int, b: int, c: int)
    ensures a * (b + c) == a * b + a * c
  {
  }
}
