/** What a quantized matrix promises of its codes, its scales and its error, apart from how they are
    computed: prepare/quant_schema.py, pack(). */
module NearestCodes {
  import opened Numbers
  import opened RoundToNearest
  import opened Sums

  // ---- the nearest code

  function Distance(n: int, y: real): real {
    Abs(n as real - y)
  }

  /** n is nearer to y than m, or as near and even. */
  predicate Nearer(n: int, m: int, y: real) {
    Distance(n, y) < Distance(m, y) || (Distance(n, y) == Distance(m, y) && (n == m || n % 2 == 0))
  }

  /** n is the integer from -qmax - 1 to qmax that is nearest to y, the even one of two. */
  ghost predicate NearestInRange(y: real, n: int, qmax: int) {
    IsCode(n, qmax) && forall m :: IsCode(m, qmax) ==> Nearer(n, m, y)
  }

  predicate IsCode(n: int, qmax: int) {
    -qmax - 1 <= n <= qmax
  }

  /** torch.round: nearest, ties to even. */
  lemma RoundIsNearest(y: real, m: int)
    ensures Nearer(Round(y), m, y)
  {
    var n := Round(y);
    if m < n {
      assert m as real <= n as real - 1.0;
    } else if n < m {
      assert n as real + 1.0 <= m as real;
    }
  }

  lemma ClampedIsNearest(y: real, qmax: int, m: int)
    requires 0 <= qmax && IsCode(m, qmax)
    ensures Nearer(Clamp(Round(y), -qmax - 1, qmax), m, y)
  {
    var n, lo := Round(y), -qmax - 1;
    RoundIsNearest(y, m);
    if n < lo && m != lo {
      assert n as real + 1.0 <= lo as real && lo as real + 1.0 <= m as real;
    } else if qmax < n && m != qmax {
      assert qmax as real + 1.0 <= n as real && m as real + 1.0 <= qmax as real;
    }
  }

  lemma CodeIsNearestInRange(x: real, s: real, qmax: int)
    requires 0.0 < s && 0 <= qmax
    ensures NearestInRange(x / s, Code(x, s, qmax), qmax)
  {
    var y := x / s;
    forall m | IsCode(m, qmax) ensures Nearer(Clamp(Round(y), -qmax - 1, qmax), m, y) {
      ClampedIsNearest(y, qmax, m);
    }
  }

  // ---- the scale of a group

  /** Some element has this magnitude and none exceeds it. */
  ghost predicate IsMagnitude(x: Row, a: real) {
    && (forall k :: 0 <= k < |x| ==> -a <= x[k] <= a)
    && if x == [] then a == 0.0 else exists k :: 0 <= k < |x| && (x[k] == a || x[k] == -a)
  }

  lemma {:induction false} AMaxIsMagnitude(x: Row)
    ensures IsMagnitude(x, AMax(x))
  {
    if x != [] {
      AMaxIsMagnitude(x[1..]);
      if AMax(x) == Abs(x[0]) {
        assert x[0] == AMax(x) || x[0] == -AMax(x);
      } else {
        var k :| 0 <= k < |x[1..]| && (x[1..][k] == AMax(x) || x[1..][k] == -AMax(x));
        assert x[k + 1] == x[1..][k];
      }
      forall k | 0 <= k < |x| ensures -AMax(x) <= x[k] <= AMax(x) {
        assert Abs(x[k]) <= AMax(x);
      }
    }
  }

  lemma {:induction false} MagnitudeIsAMax(x: Row, a: real)
    requires IsMagnitude(x, a)
    ensures a == AMax(x)
  {
    AMaxIsMagnitude(x);
  }

  /** The scale takes the largest magnitude to the largest code, unless that makes it less than the floor. */
  ghost predicate ReachesExactly(x: Row, s: real, qmax: int, floor: real) {
    forall a :: IsMagnitude(x, a) ==> if Floored(a, qmax, floor) then s == floor else Product(s, qmax) == a
  }

  predicate Floored(a: real, qmax: int, floor: real) {
    a <= Product(floor, qmax)
  }

  function Product(s: real, n: int): real {
    n as real * s
  }

  lemma QuotientTimes(a: real, q: int)
    requires 1 <= q
    ensures Product(a / q as real, q) == a
  {
    var d := a / q as real;
    assert d * q as real == a;
  }

  lemma ProductOrder(s: real, s': real, q: int)
    requires 1 <= q
    ensures s <= s' <==> Product(s, q) <= Product(s', q)
  {
    if s <= s' {
      assert (s' - s) * q as real >= 0.0;
      assert Product(s', q) - Product(s, q) == (s' - s) * q as real;
    } else {
      assert (s - s') * q as real > 0.0;
      assert Product(s, q) - Product(s', q) == (s - s') * q as real;
    }
  }

  lemma ScaleReachesExactly(x: Row, qmax: int, floor: real)
    requires 1 <= qmax && 0.0 < floor
    ensures ReachesExactly(x, Scale(x, qmax, floor), qmax, floor)
  {
    forall a | IsMagnitude(x, a)
      ensures if Floored(a, qmax, floor) then Scale(x, qmax, floor) == floor
              else Product(Scale(x, qmax, floor), qmax) == a
    {
      MagnitudeIsAMax(x, a);
      QuotientTimes(a, qmax);
      ProductOrder(a / qmax as real, floor, qmax);
    }
  }

  // ---- a packed matrix

  /** The two's complement range of a code of that many bits. */
  predicate Fits(code: int, bits: nat)
    requires 2 <= bits
  {
    -Pow2(bits - 1) <= code < Pow2(bits - 1)
  }

  /** What pack() promises of a row: codes that fit, each the nearest multiple of its group's scale, which
      takes the group's largest magnitude to the largest code. */
  ghost predicate PackedRow(x: Row, bits: nat, codes: seq<int>, scales: Row)
    requires 2 <= bits && Grouped(x)
  {
    && |codes| == |x| && |scales| == |x| / GROUP
    && (forall k :: 0 <= k < |scales| ==>
          0.0 < scales[k] && ReachesExactly(GroupOf(x, k), scales[k], Pow2(bits - 1) - 1, 0.0000000001))
    && (forall j :: 0 <= j < |x| ==>
          Fits(codes[j], bits) && NearestInRange(x[j] / scales[j / GROUP], codes[j], Pow2(bits - 1) - 1))
  }

  ghost predicate PackedMatrix(w: seq<Row>, bits: nat, codes: seq<seq<int>>, scales: seq<Row>)
    requires 2 <= bits && Matrix(w)
  {
    |codes| == |scales| == |w| && forall i :: 0 <= i < |w| ==> PackedRow(w[i], bits, codes[i], scales[i])
  }

  lemma RowIsPacked(x: Row, bits: nat)
    requires 2 <= bits && Grouped(x)
    ensures PackedRow(x, bits, RowCodes(x, QMax(bits), PACK_FLOOR), RowScales(x, QMax(bits), PACK_FLOOR))
  {
    var qmax := QMax(bits);
    var codes, scales := RowCodes(x, qmax, PACK_FLOOR), RowScales(x, qmax, PACK_FLOOR);
    forall k | 0 <= k < |scales|
      ensures 0.0 < scales[k] && ReachesExactly(GroupOf(x, k), scales[k], Pow2(bits - 1) - 1, 0.0000000001)
    {
      ScaleReachesExactly(GroupOf(x, k), qmax, PACK_FLOOR);
    }
    forall j | 0 <= j < |x|
      ensures Fits(codes[j], bits) && NearestInRange(x[j] / scales[j / GROUP], codes[j], Pow2(bits - 1) - 1)
    {
      CodeIsNearestInRange(x[j], ScaleAt(x, j / GROUP, qmax, PACK_FLOOR), qmax);
    }
  }

  lemma MatrixIsPacked(w: seq<Row>, bits: nat)
    requires 2 <= bits && Matrix(w)
    ensures PackedMatrix(w, bits, MatrixCodes(w, QMax(bits), PACK_FLOOR), MatrixScales(w, QMax(bits), PACK_FLOOR))
  {
    forall i | 0 <= i < |w|
      ensures PackedRow(w[i], bits, MatrixCodes(w, QMax(bits), PACK_FLOOR)[i],
                        MatrixScales(w, QMax(bits), PACK_FLOOR)[i])
    {
      RowIsPacked(w[i], bits);
    }
  }

  /** The two widths the scripts use. */
  lemma WidthsOfUse(code: int)
    ensures Fits(code, 8) <==> -128 <= code <= 127
    ensures Fits(code, 4) <==> -8 <= code <= 7
  {
    assert Pow2(3) == 8;
    assert Pow2(7) == 16 * Pow2(3);
  }

  // ---- the error

  function Squared(x: real): real {
    x * x
  }

  /** The square of what rounding moved an element by, 0 outside the row. */
  function Moved(x: Row, codes: seq<int>, scales: Row): int -> real {
    (j: int) => if 0 <= j < |x| && j < |codes| && j / GROUP < |scales|
                then Squared(Product(scales[j / GROUP], codes[j]) - x[j]) else 0.0
  }

  function Squares(x: Row): int -> real {
    (j: int) => if 0 <= j < |x| then Squared(x[j]) else 0.0
  }

  /** The squared error and the squared norm of a matrix, element by element. */
  function MovedInRow(w: seq<Row>, codes: seq<seq<int>>, scales: seq<Row>): int -> real {
    (i: int) => if 0 <= i < |w| && i < |codes| && i < |scales|
                then Sum(Moved(w[i], codes[i], scales[i]), 0, |w[i]|) else 0.0
  }

  function SquaresInRow(w: seq<Row>): int -> real {
    (i: int) => if 0 <= i < |w| then Sum(Squares(w[i]), 0, |w[i]|) else 0.0
  }

  lemma {:induction false} RowSquareSnoc(x: Row)
    requires x != []
    ensures RowSquare(x) == RowSquare(x[..|x| - 1]) + Squared(x[|x| - 1])
  {
    if |x| > 1 {
      RowSquareSnoc(x[1..]);
      assert x[1..][..|x| - 2] == x[..|x| - 1][1..];
      assert RowSquare(x[..|x| - 1]) == Squared(x[0]) + RowSquare(x[..|x| - 1][1..]);
      assert RowSquare(x) == Squared(x[0]) + RowSquare(x[1..]);
    }
  }

  lemma {:induction false} RowSquareIsSum(x: Row, f: int -> real)
    requires forall j :: 0 <= j < |x| ==> f(j) == Squared(x[j])
    ensures RowSquare(x) == Sum(f, 0, |x|)
  {
    if x != [] {
      RowSquareSnoc(x);
      RowSquareIsSum(x[..|x| - 1], f);
    }
  }

  lemma {:induction false} SquareNormIsSum(w: seq<Row>, f: int -> real)
    requires forall i :: 0 <= i < |w| ==> f(i) == RowSquare(w[i])
    ensures SquareNorm(w) == Sum(f, 0, |w|)
  {
    if w != [] {
      SquareNormIsSum(w[..|w| - 1], f);
    }
  }

  /** num and den of pack() in terms of what it returns. */
  lemma ErrorsAre(w: seq<Row>, qmax: int, floor: real)
    requires Matrix(w) && 1 <= qmax && 0.0 < floor
    ensures SquareError(w, qmax, floor)
         == Sum(MovedInRow(w, MatrixCodes(w, qmax, floor), MatrixScales(w, qmax, floor)), 0, |w|)
    ensures SquareNorm(w) == Sum(SquaresInRow(w), 0, |w|)
  {
    var codes, scales := MatrixCodes(w, qmax, floor), MatrixScales(w, qmax, floor);
    forall i | 0 <= i < |w| ensures SquaresInRow(w)(i) == RowSquare(w[i]) {
      RowSquareIsSum(w[i], Squares(w[i]));
    }
    SquareNormIsSum(w, SquaresInRow(w));
    forall i | 0 <= i < |w| ensures MovedInRow(w, codes, scales)(i) == RowSquare(Residual(w, qmax, floor)[i]) {
      ResidualIsMoved(w[i], qmax, floor);
    }
    SquareNormIsSum(Residual(w, qmax, floor), MovedInRow(w, codes, scales));
  }

  lemma ElementMoved(x: Row, j: nat, qmax: int, floor: real)
    requires Grouped(x) && 1 <= qmax && 0.0 < floor && j < |x|
    ensures Moved(x, RowCodes(x, qmax, floor), RowScales(x, qmax, floor))(j)
         == Squared(RowResidual(x, qmax, floor)[j])
  {
    var q, s := CodeAt(x, j, qmax, floor), ScaleAt(x, j / GROUP, qmax, floor);
    assert RowCodes(x, qmax, floor)[j] == q && RowScales(x, qmax, floor)[j / GROUP] == s;
    assert ResidualAt(x, j, qmax, floor) == Product(s, q) - x[j];
  }

  lemma ResidualIsMoved(x: Row, qmax: int, floor: real)
    requires Grouped(x) && 1 <= qmax && 0.0 < floor
    ensures RowSquare(RowResidual(x, qmax, floor))
         == Sum(Moved(x, RowCodes(x, qmax, floor), RowScales(x, qmax, floor)), 0, |x|)
  {
    var codes, scales := RowCodes(x, qmax, floor), RowScales(x, qmax, floor);
    forall j | 0 <= j < |x| ensures Moved(x, codes, scales)(j) == Squared(RowResidual(x, qmax, floor)[j]) {
      ElementMoved(x, j, qmax, floor);
    }
    RowSquareIsSum(RowResidual(x, qmax, floor), Moved(x, codes, scales));
  }

  // ---- pack()

  /** pack(): quantize `rows` rows at a time, accumulating the squared error and norm. The
      result is the one-pass quantization of the whole matrix, whatever `rows` is: codes that fit, each the
      nearest to its element, and scales that take a group's largest magnitude to the largest code. */
  method Pack(w: seq<Row>, bits: nat, rows: nat)
      returns (codes: seq<seq<int>>, scales: seq<Row>, num: real, den: real)
    requires Matrix(w) && 2 <= bits && 0 < rows
    ensures codes == MatrixCodes(w, QMax(bits), PACK_FLOOR)
    ensures scales == MatrixScales(w, QMax(bits), PACK_FLOOR)
    ensures num == SquareError(w, QMax(bits), PACK_FLOOR)
    ensures den == SquareNorm(w)
    ensures PackedMatrix(w, bits, codes, scales)
    ensures num == Sum(MovedInRow(w, codes, scales), 0, |w|) && den == Sum(SquaresInRow(w), 0, |w|)
  {
    var qmax := QMax(bits);
    codes, scales, num, den := [], [], 0.0, 0.0;
    var lo := 0;
    while lo < |w|
      invariant 0 <= lo <= |w|
      invariant codes == MatrixCodes(w[..lo], qmax, PACK_FLOOR)
      invariant scales == MatrixScales(w[..lo], qmax, PACK_FLOOR)
      invariant num == SquareError(w[..lo], qmax, PACK_FLOOR)
      invariant den == SquareNorm(w[..lo])
    {
      var hi := MinInt(lo + rows, |w|);
      var x := w[lo..hi];
      codes := codes + MatrixCodes(x, qmax, PACK_FLOOR);
      scales := scales + MatrixScales(x, qmax, PACK_FLOOR);
      num := num + SquareError(x, qmax, PACK_FLOOR);
      den := den + SquareNorm(x);
      ChunksConcatenate(w[..lo], x, qmax, PACK_FLOOR);
      ErrorsAdd(w[..lo], x, qmax, PACK_FLOOR);
      assert w[..hi] == w[..lo] + x;
      lo := hi;
    }
    assert w[..lo] == w;
    MatrixIsPacked(w, bits);
    ErrorsAre(w, qmax, PACK_FLOOR);
  }

  /** Rows are independent: quantizing two chunks and concatenating is quantizing the whole. */
  lemma ChunksConcatenate(a: seq<Row>, b: seq<Row>, qmax: int, floor: real)
    requires Matrix(a) && Matrix(b) && 1 <= qmax && 0.0 < floor
    ensures Matrix(a + b)
    ensures MatrixCodes(a + b, qmax, floor) == MatrixCodes(a, qmax, floor) + MatrixCodes(b, qmax, floor)
    ensures MatrixScales(a + b, qmax, floor) == MatrixScales(a, qmax, floor) + MatrixScales(b, qmax, floor)
  {
  }

  lemma ErrorsAdd(a: seq<Row>, b: seq<Row>, qmax: int, floor: real)
    requires Matrix(a) && Matrix(b) && 1 <= qmax && 0.0 < floor
    ensures Matrix(a + b)
    ensures SquareError(a + b, qmax, floor) == SquareError(a, qmax, floor) + SquareError(b, qmax, floor)
    ensures SquareNorm(a + b) == SquareNorm(a) + SquareNorm(b)
  {
    SquareNormAppend(a, b);
    assert Residual(a + b, qmax, floor) == Residual(a, qmax, floor) + Residual(b, qmax, floor);
    SquareNormAppend(Residual(a, qmax, floor), Residual(b, qmax, floor));
  }
}
