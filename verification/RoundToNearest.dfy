/** prepare/quant_schema.py, pack(): symmetric round-to-nearest quantization of a weight
    matrix over groups of GROUP columns, done a chunk of rows at a time. */
module RoundToNearest {
  import opened Numbers

  const GROUP: nat := 128

  type Row = seq<real>

  function QMax(bits: nat): (q: int)
    requires 2 <= bits
    ensures 1 <= q
  {
    Pow2(bits - 1) - 1
  }

  function Pow2(n: nat): (p: int)
    ensures n + 1 <= p
  {
    if n == 0 then 1 else 2 * Pow2(n - 1)
  }

  /** The largest magnitude in a row. */
  function AMax(xs: Row): (m: real)
    ensures 0.0 <= m
    ensures forall k :: 0 <= k < |xs| ==> Abs(xs[k]) <= m
  {
    if xs == [] then 0.0 else Max(Abs(xs[0]), AMax(xs[1..]))
  }

  /** With the quotient as a number of its own. */
  lemma TimesCovers(d: real, q: real, s: real)
    requires 0.0 < q && d <= s
    ensures d * q <= s * q
  {
  }

  lemma QuotientCovers(a: real, q: real, s: real)
    requires 0.0 < q && a / q <= s
    ensures a <= s * q
  {
    TimesCovers(a / q, q, s);
    assert a / q * q == a;
  }

  function Scale(g: Row, qmax: int, floor: real): (s: real)
    requires 1 <= qmax && 0.0 < floor
    ensures floor <= s
  {
    Max(AMax(g) / qmax as real, floor)
  }

  /** x is within reach of the largest code. */
  predicate Covers(x: real, s: real, qmax: int) {
    Abs(x) <= s * qmax as real
  }

  lemma CoversLess(x: real, m: real, s: real, qmax: int)
    requires Abs(x) <= m && Covers(m, s, qmax)
    ensures Covers(x, s, qmax)
  {
  }

  /** The scale reaches the largest magnitude. */
  lemma ScaleReaches(g: Row, qmax: int, floor: real)
    requires 1 <= qmax && 0.0 < floor
    ensures Covers(AMax(g), Scale(g, qmax, floor), qmax)
  {
    QuotientCovers(AMax(g), qmax as real, Scale(g, qmax, floor));
  }

  function Clamp(n: int, lo: int, hi: int): int {
    if n < lo then lo else if hi < n then hi else n
  }

  function Code(x: real, s: real, qmax: int): int
    requires 0.0 < s
  {
    Clamp(Round(x / s), -qmax - 1, qmax)
  }

  lemma ScaledError(d: real, s: real)
    requires Abs(d) <= 0.5 && 0.0 < s
    ensures Abs(d * s) <= s / 2.0
  {
    assert d * s <= 0.5 * s;
    assert -0.5 * s <= d * s;
  }

  /** What pack() promises of one element: its code is the nearest integer multiple of its
      group's scale, reached without the clamp, so the element moves by at most half a scale. */
  predicate Nearest(x: real, s: real, q: int, qmax: int)
    requires 0.0 < s
  {
    q == Round(x / s) && -qmax <= q <= qmax && Abs(q as real * s - x) <= s / 2.0
  }

  lemma CodeIsNearest(x: real, s: real, qmax: int)
    requires 0.0 < s && 1 <= qmax && Covers(x, s, qmax)
    ensures Nearest(x, s, Code(x, s, qmax), qmax)
  {
    var y := x / s;
    assert y * s == x;
    assert qmax as real < y ==> qmax as real * s < y * s;
    assert y < -(qmax as real) ==> y * s < -(qmax as real) * s;
    RoundWithin(y, -qmax, qmax);
    var n := Round(y);
    ScaledError(n as real - y, s);
    assert n as real * s - x == (n as real - y) * s;
  }

  // ---- one row: a scale per group of 128, a code per element

  predicate Grouped(x: Row) {
    |x| % GROUP == 0
  }

  function GroupOf(x: Row, k: nat): (g: Row)
    requires Grouped(x) && k < |x| / GROUP
    ensures |g| == GROUP
  {
    x[k * GROUP..k * GROUP + GROUP]
  }

  function ScaleAt(x: Row, k: nat, qmax: int, floor: real): (s: real)
    requires Grouped(x) && k < |x| / GROUP && 1 <= qmax && 0.0 < floor
    ensures 0.0 < s
  {
    Scale(GroupOf(x, k), qmax, floor)
  }

  function CodeAt(x: Row, j: nat, qmax: int, floor: real): int
    requires Grouped(x) && j < |x| && 1 <= qmax && 0.0 < floor
  {
    Code(x[j], ScaleAt(x, j / GROUP, qmax, floor), qmax)
  }

  function RowScales(x: Row, qmax: int, floor: real): (s: Row)
    requires Grouped(x) && 1 <= qmax && 0.0 < floor
    ensures |s| == |x| / GROUP
  {
    seq(|x| / GROUP, k requires 0 <= k < |x| / GROUP => ScaleAt(x, k, qmax, floor))
  }

  function RowCodes(x: Row, qmax: int, floor: real): (q: seq<int>)
    requires Grouped(x) && 1 <= qmax && 0.0 < floor
    ensures |q| == |x|
  {
    seq(|x|, j requires 0 <= j < |x| => CodeAt(x, j, qmax, floor))
  }

  lemma InItsGroup(x: Row, j: nat)
    requires Grouped(x) && j < |x|
    ensures Abs(x[j]) <= AMax(GroupOf(x, j / GROUP))
  {
    assert GroupOf(x, j / GROUP)[j % GROUP] == x[j];
  }

  lemma ScaleCovers(x: Row, qmax: int, floor: real, j: nat)
    requires Grouped(x) && 1 <= qmax && 0.0 < floor && j < |x|
    ensures Covers(x[j], ScaleAt(x, j / GROUP, qmax, floor), qmax)
  {
    InItsGroup(x, j);
    ScaleReaches(GroupOf(x, j / GROUP), qmax, floor);
    CoversLess(x[j], AMax(GroupOf(x, j / GROUP)), ScaleAt(x, j / GROUP, qmax, floor), qmax);
  }

  lemma IsNearest(x: Row, qmax: int, floor: real, j: nat)
    requires Grouped(x) && 1 <= qmax && 0.0 < floor && j < |x|
    ensures Nearest(x[j], ScaleAt(x, j / GROUP, qmax, floor), CodeAt(x, j, qmax, floor), qmax)
  {
    ScaleCovers(x, qmax, floor, j);
    CodeIsNearest(x[j], ScaleAt(x, j / GROUP, qmax, floor), qmax);
  }

  lemma RowIsNearest(x: Row, qmax: int, floor: real, j: nat)
    requires Grouped(x) && 1 <= qmax && 0.0 < floor && j < |x|
    ensures 0.0 < RowScales(x, qmax, floor)[j / GROUP]
    ensures Nearest(x[j], RowScales(x, qmax, floor)[j / GROUP], RowCodes(x, qmax, floor)[j], qmax)
  {
    IsNearest(x, qmax, floor, j);
  }

  // ---- the whole matrix

  predicate Matrix(w: seq<Row>) {
    forall i :: 0 <= i < |w| ==> Grouped(w[i])
  }

  function MatrixScales(w: seq<Row>, qmax: int, floor: real): (s: seq<Row>)
    requires Matrix(w) && 1 <= qmax && 0.0 < floor
  {
    seq(|w|, i requires 0 <= i < |w| => RowScales(w[i], qmax, floor))
  }

  function MatrixCodes(w: seq<Row>, qmax: int, floor: real): (q: seq<seq<int>>)
    requires Matrix(w) && 1 <= qmax && 0.0 < floor
  {
    seq(|w|, i requires 0 <= i < |w| => RowCodes(w[i], qmax, floor))
  }

  function RowSquare(x: Row): (n: real)
    ensures 0.0 <= n
  {
    if x == [] then 0.0 else x[0] * x[0] + RowSquare(x[1..])
  }

  function SquareNorm(w: seq<Row>): (n: real)
    ensures 0.0 <= n
  {
    if w == [] then 0.0 else SquareNorm(w[..|w| - 1]) + RowSquare(w[|w| - 1])
  }

  function ResidualAt(x: Row, j: nat, qmax: int, floor: real): real
    requires Grouped(x) && j < |x| && 1 <= qmax && 0.0 < floor
  {
    CodeAt(x, j, qmax, floor) as real * ScaleAt(x, j / GROUP, qmax, floor) - x[j]
  }

  /** The round-trip residual of one row. */
  function RowResidual(x: Row, qmax: int, floor: real): (e: Row)
    requires Grouped(x) && 1 <= qmax && 0.0 < floor
  {
    seq(|x|, j requires 0 <= j < |x| => ResidualAt(x, j, qmax, floor))
  }

  function Residual(w: seq<Row>, qmax: int, floor: real): (e: seq<Row>)
    requires Matrix(w) && 1 <= qmax && 0.0 < floor
  {
    seq(|w|, i requires 0 <= i < |w| => RowResidual(w[i], qmax, floor))
  }

  function SquareError(w: seq<Row>, qmax: int, floor: real): (e: real)
    requires Matrix(w) && 1 <= qmax && 0.0 < floor
  {
    SquareNorm(Residual(w, qmax, floor))
  }

  lemma {:induction false} SquareNormAppend(a: seq<Row>, b: seq<Row>)
    ensures SquareNorm(a + b) == SquareNorm(a) + SquareNorm(b)
  {
    if b == [] {
      assert a + b == a;
    } else {
      var b' := b[..|b| - 1];
      assert (a + b)[..|a + b| - 1] == a + b';
      SquareNormAppend(a, b');
    }
  }

  /** The scales are clamped from below at 1e-10 (pack) or 1e-8 (drafter/gptq_utils.py). */
  const PACK_FLOOR: real := 0.0000000001

  /** The relative round-trip error err of pack() satisfies err < 0.01. When den is zero the
      source computes NaN, for which the comparison is false. */
  predicate Accurate(num: real, den: real) {
    den != 0.0 && num / den < 0.0001
  }
}
