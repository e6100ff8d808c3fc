/** The running Hessian of drafter/gptq_utils.py (accumulate_hessian), its use over slices of rows in
    drafter/capture_dflash2.py (reduce_wide), and the blend of two of them in
    drafter/quant_dflash2.py. */
module Hessian {
  import opened Numbers
  import opened Sums

  type Row = seq<real>

  ghost predicate Width(x: seq<Row>, k: nat) {
    forall r :: 0 <= r < |x| ==> |x[r]| == k
  }

  /** Entry (a, b) of the outer product of a row with itself. */
  function Cell(x: Row, a: nat, b: nat): real
    requires a < |x| && b < |x|
  {
    x[a] * x[b]
  }

  function Cells(x: seq<Row>, a: nat, b: nat): (r: seq<real>)
    requires forall r :: 0 <= r < |x| ==> a < |x[r]| && b < |x[r]|
    ensures |r| == |x| && forall i :: 0 <= i < |x| ==> r[i] == Cell(x[i], a, b)
  {
    seq(|x|, i requires 0 <= i < |x| => Cell(x[i], a, b))
  }

  /** Entry (a, b) of the sum of row outer products X^T X. */
  function Outer(x: seq<Row>, a: nat, b: nat): real
    requires forall r :: 0 <= r < |x| ==> a < |x[r]| && b < |x[r]|
  {
    Total(Cells(x, a, b))
  }

  /** h is entry (a, b) of (2 / n) X^T X, written so that it says nothing of no rows. */
  ghost predicate Entry(h: real, x: seq<Row>, a: nat, b: nat)
    requires forall r :: 0 <= r < |x| ==> a < |x[r]| && b < |x[r]|
  {
    h * |x| as real == 2.0 * Outer(x, a, b)
  }

  /** H is the Hessian of the rows x. */
  ghost predicate HessianOf(h: array2<real>, x: seq<Row>)
    reads h
  {
    && h.Length0 == h.Length1 && Width(x, h.Length0)
    && forall a: nat, b: nat :: a < h.Length0 && b < h.Length1 ==> Entry(h[a, b], x, a, b)
  }

  /** The product of columns a and b in row r. */
  function Products(x: seq<Row>, a: nat, b: nat): int -> real {
    (r: int) => if 0 <= r < |x| && a < |x[r]| && b < |x[r]| then x[r][a] * x[r][b] else 0.0
  }

  /** The Hessian, entry by entry: 2 / n times the sum over the rows of the product of two columns. */
  lemma EntryIs(h: real, x: seq<Row>, a: nat, b: nat)
    requires x != [] && forall r :: 0 <= r < |x| ==> a < |x[r]| && b < |x[r]|
    ensures Entry(h, x, a, b) <==> h == 2.0 / |x| as real * Sum(Products(x, a, b), 0, |x|)
  {
    OuterIsSum(x, Products(x, a, b), a, b);
    Divided(h, |x| as real, Outer(x, a, b));
  }

  lemma Divided(h: real, n: real, s: real)
    requires 0.0 < n
    ensures h * n == 2.0 * s <==> h == 2.0 / n * s
  {
    var f := 2.0 / n;
    assert f * n == 2.0;
    assert f * s * n == (f * n) * s;
    if h * n == 2.0 * s {
      assert (h - f * s) * n == 0.0;
    }
  }

  lemma {:induction false} OuterIsSum(x: seq<Row>, f: int -> real, a: nat, b: nat)
    requires forall r :: 0 <= r < |x| ==> a < |x[r]| && b < |x[r]|
    requires forall r :: 0 <= r < |x| ==> f(r) == x[r][a] * x[r][b]
    ensures Outer(x, a, b) == Sum(f, 0, |x|)
  {
    if x != [] {
      var k := |x| - 1;
      OuterIsSum(x[..k], f, a, b);
      assert Cells(x, a, b)[..k] == Cells(x[..k], a, b);
    }
  }

  lemma OuterAppend(x: seq<Row>, y: seq<Row>, a: nat, b: nat)
    requires forall r :: 0 <= r < |x| ==> a < |x[r]| && b < |x[r]|
    requires forall r :: 0 <= r < |y| ==> a < |y[r]| && b < |y[r]|
    ensures Outer(x + y, a, b) == Outer(x, a, b) + Outer(y, a, b)
  {
    assert Cells(x + y, a, b) == Cells(x, a, b) + Cells(y, a, b);
    TotalAppend(Cells(x, a, b), Cells(y, a, b));
  }

  // ---- accumulation

  /** The rows scaled by c, as the source scales X before the product. */
  function ScaledCell(x: Row, c: real, a: nat, b: nat): real
    requires a < |x| && b < |x|
  {
    (c * x[a]) * (c * x[b])
  }

  function ScaledCells(x: seq<Row>, c: real, a: nat, b: nat): (r: seq<real>)
    requires forall r :: 0 <= r < |x| ==> a < |x[r]| && b < |x[r]|
    ensures |r| == |x| && forall i :: 0 <= i < |x| ==> r[i] == ScaledCell(x[i], c, a, b)
  {
    seq(|x|, i requires 0 <= i < |x| => ScaledCell(x[i], c, a, b))
  }

  function ScaledOuter(x: seq<Row>, c: real, a: nat, b: nat): real
    requires forall r :: 0 <= r < |x| ==> a < |x[r]| && b < |x[r]|
  {
    Total(ScaledCells(x, c, a, b))
  }

  lemma CellScales(x: Row, c: real, a: nat, b: nat)
    requires a < |x| && b < |x|
    ensures Scaled(Cell(x, a, b), ScaledCell(x, c, a, b), c * c)
  {
    var p, q := x[a], x[b];
    assert (c * p) * (c * q) == (p * q) * (c * c);
  }

  lemma ScaledOuterIs(x: seq<Row>, c: real, a: nat, b: nat)
    requires forall r :: 0 <= r < |x| ==> a < |x[r]| && b < |x[r]|
    ensures ScaledOuter(x, c, a, b) == Outer(x, a, b) * (c * c)
  {
    forall i | 0 <= i < |x| ensures Scaled(Cells(x, a, b)[i], ScaledCells(x, c, a, b)[i], c * c) {
      CellScales(x[i], c, a, b);
    }
    TotalScales(Cells(x, a, b), ScaledCells(x, c, a, b), c * c);
  }

  /** Rescaling by m / (m + n) and adding the new rows times 2 / (m + n). */
  lemma Rescale(h: real, m: real, n: real, c2: real, outer: real, added: real, scaled: real, size: real)
    requires 0.0 < m + n && c2 == 2.0 / (m + n) && h * m == 2.0 * outer && scaled == added * c2 && size == m + n
    ensures (h * (m / (m + n)) + scaled) * size == 2.0 * (outer + added)
  {
    var t := m + n;
    var f := m / t;
    assert f * t == m && c2 * t == 2.0;
    assert (h * f) * t == h * (f * t);
    assert (added * c2) * t == added * (c2 * t);
  }

  lemma EntryGrows(h: real, x: seq<Row>, y: seq<Row>, c: real, a: nat, b: nat)
    requires forall r :: 0 <= r < |x| ==> a < |x[r]| && b < |x[r]|
    requires forall r :: 0 <= r < |y| ==> a < |y[r]| && b < |y[r]|
    requires Entry(h, x, a, b) && 0 < |x| + |y| && c * c == 2.0 / (|x| as real + |y| as real)
    ensures Entry(h * (|x| as real / (|x| as real + |y| as real)) + ScaledOuter(y, c, a, b), x + y, a, b)
  {
    var m, n := |x| as real, |y| as real;
    ScaledOuterIs(y, c, a, b);
    OuterAppend(x, y, a, b);
    Rescale(h, m, n, c * c, Outer(x, a, b), Outer(y, a, b), ScaledOuter(y, c, a, b), |x + y| as real);
  }

  /** accumulate_hessian. `c` is the square root of 2 / n_seen after the update. A batch may be empty
      once rows have been seen; on the very first call the source divides by the batch size. */
  method Accumulate(h: array2<real>, x: seq<Row>, seen: nat, c: real, ghost before: seq<Row>) returns (seen': nat)
    requires HessianOf(h, before) && seen == |before| && Width(x, h.Length0)
    requires 0 < seen + |x| && c * c == 2.0 / (seen as real + |x| as real)
    modifies h
    ensures seen' == seen + |x| && HessianOf(h, before + x)
  {
    var f := seen as real / (seen as real + |x| as real);
    ScaleBy(h, f);
    AddProduct(h, x, c);
    seen' := seen + |x|;
    forall a: nat, b: nat | a < h.Length0 && b < h.Length1 ensures Entry(h[a, b], before + x, a, b) {
      EntryGrows(old(h[a, b]), before, x, c, a, b);
    }
  }

  /** H *= f */
  method ScaleBy(h: array2<real>, f: real)
    modifies h
    ensures forall i, j :: 0 <= i < h.Length0 && 0 <= j < h.Length1 ==> h[i, j] == old(h[i, j]) * f
  {
    for a := 0 to h.Length0
      invariant forall i, j :: 0 <= i < h.Length0 && 0 <= j < h.Length1 ==>
        h[i, j] == if i < a then old(h[i, j]) * f else old(h[i, j])
    {
      for b := 0 to h.Length1
        invariant forall i, j :: 0 <= i < h.Length0 && 0 <= j < h.Length1 ==>
          h[i, j] == if i < a || (i == a && j < b) then old(h[i, j]) * f else old(h[i, j])
      {
        h[a, b] := h[a, b] * f;
      }
    }
  }

  /** H += X^T X for the scaled rows. */
  method AddProduct(h: array2<real>, x: seq<Row>, c: real)
    requires h.Length0 == h.Length1 && Width(x, h.Length0)
    modifies h
    ensures forall a: nat, b: nat :: a < h.Length0 && b < h.Length1 ==>
      h[a, b] == old(h[a, b]) + ScaledOuter(x, c, a, b)
  {
    for r := 0 to |x|
      invariant forall a: nat, b: nat :: a < h.Length0 && b < h.Length1 ==>
        h[a, b] == old(h[a, b]) + Total(ScaledCells(x, c, a, b)[..r])
    {
      forall a: nat, b: nat | a < h.Length0 && b < h.Length1
        ensures Total(ScaledCells(x, c, a, b)[..r + 1])
             == Total(ScaledCells(x, c, a, b)[..r]) + ScaledCell(x[r], c, a, b)
      {
        var cells := ScaledCells(x, c, a, b);
        assert cells[..r + 1][..r] == cells[..r];
      }
      forall a, b | 0 <= a < h.Length0 && 0 <= b < h.Length1 {
        h[a, b] := h[a, b] + ScaledCell(x[r], c, a, b);
      }
    }
    forall a: nat, b: nat | a < h.Length0 && b < h.Length1
      ensures ScaledCells(x, c, a, b)[..|x|] == ScaledCells(x, c, a, b)
    {
    }
  }

  /** reduce_wide: the rows in slices. The result is the Hessian of all of them, whatever the slice
      size. `root` gives the square roots the source takes. */
  method ReduceWide(x: seq<Row>, k: nat, slice: nat, root: nat -> real) returns (h: array2<real>, seen: nat)
    requires Width(x, k) && 0 < slice
    requires forall n: nat :: 0 < n ==> root(n) * root(n) == 2.0 / n as real
    ensures fresh(h) && h.Length0 == k && seen == |x| && HessianOf(h, x)
  {
    h := new real[k, k]((a, b) => 0.0);
    seen := 0;
    var lo := 0;
    while lo < |x|
      invariant 0 <= lo <= |x| && seen == lo && fresh(h) && h.Length0 == k && HessianOf(h, x[..lo])
    {
      var hi := MinInt(lo + slice, |x|);
      seen := Accumulate(h, x[lo..hi], seen, root(hi), x[..lo]);
      assert x[..lo] + x[lo..hi] == x[..hi];
      lo := hi;
    }
    assert x[..lo] == x;
  }

  // ---- what the Hessian depends on

  lemma OuterRemove(x: seq<Row>, i: nat, a: nat, b: nat)
    requires i < |x| && forall r :: 0 <= r < |x| ==> a < |x[r]| && b < |x[r]|
    ensures Outer(x, a, b) == Outer(x[..i] + x[i + 1..], a, b) + Cell(x[i], a, b)
  {
    TotalRemove(Cells(x, a, b), i);
    assert Cells(x, a, b)[..i] + Cells(x, a, b)[i + 1..] == Cells(x[..i] + x[i + 1..], a, b);
  }

  lemma CancelOne(a: multiset<Row>, b: multiset<Row>, c: multiset<Row>, x: Row)
    requires a + multiset{x} == b + multiset{x} + c
    ensures a == b + c
  {
    assert a == (a + multiset{x}) - multiset{x};
    assert b + c == (b + multiset{x} + c) - multiset{x};
  }

  /** The row of y that matches the last row of x, and what is left without the two. */
  lemma Matching(x: seq<Row>, y: seq<Row>) returns (i: nat)
    requires multiset(x) == multiset(y) && x != []
    ensures i < |y| && y[i] == x[|x| - 1]
    ensures multiset(x[..|x| - 1]) == multiset(y[..i] + y[i + 1..])
  {
    var k := |x| - 1;
    var last := x[k];
    assert x == x[..k] + [last];
    assert multiset(x) == multiset(x[..k]) + multiset{last};
    assert last in multiset(y);
    i :| 0 <= i < |y| && y[i] == last;
    assert y == y[..i] + [last] + y[i + 1..];
    assert multiset(y) == multiset(y[..i]) + multiset{last} + multiset(y[i + 1..]);
    CancelOne(multiset(x[..k]), multiset(y[..i]), multiset(y[i + 1..]), last);
  }

  /** The order of the rows does not matter. */
  lemma {:induction false} OuterPermuted(x: seq<Row>, y: seq<Row>, a: nat, b: nat)
    requires multiset(x) == multiset(y)
    requires forall r :: 0 <= r < |x| ==> a < |x[r]| && b < |x[r]|
    requires forall r :: 0 <= r < |y| ==> a < |y[r]| && b < |y[r]|
    ensures Outer(x, a, b) == Outer(y, a, b)
    decreases |x|
  {
    if x == [] {
      assert |multiset(x)| == |multiset(y)|;
    } else {
      var i := Matching(x, y);
      OuterRemove(x, |x| - 1, a, b);
      OuterRemove(y, i, a, b);
      assert x[..|x| - 1] + x[|x|..] == x[..|x| - 1];
      OuterPermuted(x[..|x| - 1], y[..i] + y[i + 1..], a, b);
    }
  }

  lemma SameQuotient(h: real, h': real, n: real, v: real)
    requires 0.0 < n && h * n == v && h' * n == v
    ensures h == h'
  {
    assert (h - h') * n == 0.0;
  }

  lemma SameEntry(h: real, h': real, x: seq<Row>, y: seq<Row>, a: nat, b: nat)
    requires forall r :: 0 <= r < |x| ==> a < |x[r]| && b < |x[r]|
    requires forall r :: 0 <= r < |y| ==> a < |y[r]| && b < |y[r]|
    requires Entry(h, x, a, b) && Entry(h', y, a, b) && multiset(x) == multiset(y) && |x| == |y| && x != []
    ensures h == h'
  {
    var n := |x| as real;
    var v := 2.0 * Outer(x, a, b);
    OuterPermuted(x, y, a, b);
    SameQuotient(h, h', n, v);
  }

  /** The Hessian is a function of the rows as a multiset: two runs over the same rows, in any order
      and any batches, agree on every entry. */
  lemma HessianIsDetermined(h: array2<real>, h': array2<real>, x: seq<Row>, y: seq<Row>, a: nat, b: nat)
    requires HessianOf(h, x) && HessianOf(h', y) && multiset(x) == multiset(y) && x != []
    requires h.Length0 == h'.Length0 && a < h.Length0 && b < h.Length0
    ensures h[a, b] == h'[a, b]
  {
    assert |multiset(x)| == |multiset(y)|;
    assert Entry(h[a, b], x, a, b) && Entry(h'[a, b], y, a, b);
    SameEntry(h[a, b], h'[a, b], x, y, a, b);
  }

  lemma BlendedEntry(h: real, h': real, x: seq<Row>, y: seq<Row>, a: nat, b: nat)
    requires forall r :: 0 <= r < |x| ==> a < |x[r]| && b < |x[r]|
    requires forall r :: 0 <= r < |y| ==> a < |y[r]| && b < |y[r]|
    requires Entry(h, x, a, b) && Entry(h', y, a, b) && 0 < |x| + |y|
    ensures Entry((|x| as real * h + |y| as real * h') / (|x| as real + |y| as real), x + y, a, b)
  {
    OuterAppend(x, y, a, b);
    var t := |x| as real + |y| as real;
    var v := |x| as real * h + |y| as real * h';
    assert (v / t) * t == v;
    assert |x + y| as real == t;
  }

  /** H = (nq * H + nc * Hc) / (nq + nc): the Hessian of both row streams together. */
  method Blend(h: array2<real>, nq: nat, hc: array2<real>, nc: nat, ghost x: seq<Row>, ghost y: seq<Row>)
      returns (m: array2<real>)
    requires HessianOf(h, x) && HessianOf(hc, y) && h.Length0 == hc.Length0 && nq == |x| && nc == |y| && 0 < nq + nc
    ensures fresh(m) && m.Length0 == h.Length0 && HessianOf(m, x + y)
  {
    var k := h.Length0;
    m := new real[k, k];
    forall a, b | 0 <= a < k && 0 <= b < k {
      m[a, b] := (nq as real * h[a, b] + nc as real * hc[a, b]) / (nq as real + nc as real);
    }
    forall a: nat, b: nat | a < k && b < k ensures Entry(m[a, b], x + y, a, b) {
      BlendedEntry(h[a, b], hc[a, b], x, y, a, b);
    }
  }
}
