/** drafter/gptq_utils.py, gptq_quantize, as it runs: matrices updated in place, a block of columns
    at a time, all rows together. Its result is the reference of module Gptq for every row. */
module GptqBlocks {
  import opened Numbers
  import opened RoundToNearest
  import opened Gptq
  import opened GptqFeedback

  type Matrix2 = array2<real>

  function RowOf(a: Matrix2, r: nat): (x: Row)
    requires r < a.Length0
    reads a
    ensures |x| == a.Length1 && forall c :: 0 <= c < |x| ==> x[c] == a[r, c]
  {
    seq(a.Length1, c requires 0 <= c < a.Length1 reads a => a[r, c])
  }

  function RowsOf(a: Matrix2): (x: seq<Row>)
    reads a
    ensures |x| == a.Length0 && forall r :: 0 <= r < |x| ==> x[r] == RowOf(a, r)
  {
    seq(a.Length0, r requires 0 <= r < a.Length0 reads a => RowOf(a, r))
  }

  predicate Shaped(a: Matrix2, rows: nat, columns: nat) {
    a.Length0 == rows && a.Length1 == columns
  }

  twostate predicate OthersKept(a: Matrix2, r: nat)
    reads a
  {
    forall r': nat :: r' < a.Length0 && r' != r ==> RowOf(a, r') == old(RowOf(a, r'))
  }

  /** W1[r, from:] -= err * row[from:] */
  method SubtractInRow(a: Matrix2, r: nat, err: real, row: Row, from: nat)
    requires r < a.Length0 && |row| == a.Length1 && from <= a.Length1
    modifies a
    ensures RowOf(a, r) == Minus(old(RowOf(a, r)), err, row, from)
    ensures OthersKept(a, r)
  {
    for c := from to a.Length1
      invariant forall k :: 0 <= k < a.Length1 ==>
        a[r, k] == if from <= k < c then old(a[r, k]) - err * row[k] else old(a[r, k])
      invariant forall r', k :: 0 <= r' < a.Length0 && r' != r && 0 <= k < a.Length1 ==> a[r', k] == old(a[r', k])
    {
      a[r, c] := a[r, c] - err * row[c];
    }
    ghost var x, y := RowOf(a, r), Minus(old(RowOf(a, r)), err, row, from);
    assert forall c :: 0 <= c < a.Length1 ==> x[c] == y[c];
  }

  method SetInRow(a: Matrix2, r: nat, c: nat, x: real)
    requires r < a.Length0 && c < a.Length1
    modifies a
    ensures RowOf(a, r) == old(RowOf(a, r))[c := x]
    ensures OthersKept(a, r)
  {
    a[r, c] := x;
  }

  /** The arrays of one block: the weights W1, the errors Err1 and the quantized values Q1. */
  ghost predicate Arrays(w1: Matrix2, err1: Matrix2, q1: Matrix2, rows: nat, g: nat) {
    && w1 != err1 && w1 != q1 && err1 != q1
    && w1.Length0 == err1.Length0 == q1.Length0 == rows
    && w1.Length1 == err1.Length1 == q1.Length1 == g
  }

  /** Row r of the block after n of its columns. */
  ghost predicate RowDone(w1: Matrix2, err1: Matrix2, q1: Matrix2, r: nat, st: State, s: real, h: seq<Row>, n: nat,
                          qmax: int)
    requires r < w1.Length0 && r < err1.Length0 && r < q1.Length0 && Factor(h, |st.w|) && 0.0 < s
    reads w1, err1, q1
  {
    && |st.codes| + n <= |st.w|
    && InBlock(st, Columns(st, s, h, |st.codes|, n, qmax), s, h, w1.Length1, n,
               RowOf(w1, r), RowOf(err1, r), RowOf(q1, r))
  }

  /** The states and scales of all rows at the start of a block at column j. */
  ghost predicate Rows(st: seq<State>, s: seq<real>, h: seq<Row>, j: nat) {
    |st| == |s| && forall r :: 0 <= r < |st| ==> Factor(h, |st[r].w|) && 0.0 < s[r] && |st[r].codes| == j
  }

  /** One entry: round it, and push its error along the rest of its block row. */
  method QuantizeEntry(w1: Matrix2, err1: Matrix2, q1: Matrix2, r: nat, n: nat, s: real, row: Row, d: real, qmax: int)
      returns (ghost err: real)
    requires r < w1.Length0 && n < w1.Length1 && Arrays(w1, err1, q1, w1.Length0, w1.Length1)
    requires 0.0 < s && |row| == w1.Length1 && d != 0.0
    modifies w1, err1, q1
    ensures err == ErrorOf(old(w1[r, n]), s, d, qmax)
    ensures RowOf(w1, r) == Minus(old(RowOf(w1, r)), err, row, n)
    ensures RowOf(err1, r) == old(RowOf(err1, r))[n := err]
    ensures RowOf(q1, r) == old(RowOf(q1, r))[n := Rounded(old(w1[r, n]), s, qmax)]
    ensures OthersKept(w1, r) && OthersKept(err1, r) && OthersKept(q1, r)
  {
    var x := w1[r, n];
    var q := Rounded(x, s, qmax);
    var e := (x - q) / d;
    SetInRow(q1, r, n, q);
    SubtractInRow(w1, r, e, row, n);
    SetInRow(err1, r, n, e);
    err := e;
  }

  /** An entry advances its row of the block and leaves the other rows alone. */
  method AdvanceRow(w1: Matrix2, err1: Matrix2, q1: Matrix2, r: nat, n: nat, s: real, h: seq<Row>, qmax: int,
                    ghost st: State, j: nat)
    requires r < w1.Length0 && n < w1.Length1 && Arrays(w1, err1, q1, w1.Length0, w1.Length1)
    requires Factor(h, |st.w|) && 0.0 < s && j == |st.codes| && j + w1.Length1 <= |st.w|
    requires RowDone(w1, err1, q1, r, st, s, h, n, qmax)
    modifies w1, err1, q1
    ensures RowDone(w1, err1, q1, r, st, s, h, n + 1, qmax)
    ensures OthersKept(w1, r) && OthersKept(err1, r) && OthersKept(q1, r)
  {
    ghost var x, e, q := RowOf(w1, r), RowOf(err1, r), RowOf(q1, r);
    ghost var err := QuantizeEntry(w1, err1, q1, r, n, s, h[j + n][j..j + w1.Length1], h[j + n][j + n], qmax);
    BlockStep(st, Columns(st, s, h, j, n, qmax), s, h, w1.Length1, n, qmax, x, e, q, err);
  }

  /** Every row of the block, from row r on after n columns and before it after n + 1. */
  ghost predicate Between(w1: Matrix2, err1: Matrix2, q1: Matrix2, s: seq<real>, h: seq<Row>, qmax: int,
                          st: seq<State>, j: nat, n: nat, r: nat)
    requires Arrays(w1, err1, q1, |s|, w1.Length1) && Rows(st, s, h, j)
    reads w1, err1, q1
  {
    forall r' :: 0 <= r' < |s| ==> RowDone(w1, err1, q1, r', st[r'], s[r'], h, if r' < r then n + 1 else n, qmax)
  }

  /** One column, for all rows. */
  method QuantizeColumn(w1: Matrix2, err1: Matrix2, q1: Matrix2, s: seq<real>, h: seq<Row>, qmax: int,
                        ghost st: seq<State>, j: nat, n: nat)
    requires Arrays(w1, err1, q1, |s|, w1.Length1) && Rows(st, s, h, j) && n < w1.Length1 && j + w1.Length1 <= |h|
    requires Between(w1, err1, q1, s, h, qmax, st, j, n, 0)
    modifies w1, err1, q1
    ensures Between(w1, err1, q1, s, h, qmax, st, j, n + 1, 0)
  {
    for r := 0 to |s|
      invariant Between(w1, err1, q1, s, h, qmax, st, j, n, r)
    {
      AdvanceRow(w1, err1, q1, r, n, s[r], h, qmax, st[r], j);
    }
  }

  /** The columns of a block, one after the other. */
  method QuantizeColumns(w1: Matrix2, err1: Matrix2, q1: Matrix2, s: seq<real>, h: seq<Row>, qmax: int,
                         ghost st: seq<State>, j: nat)
    requires Arrays(w1, err1, q1, |s|, w1.Length1) && Rows(st, s, h, j) && j + w1.Length1 <= |h|
    requires Between(w1, err1, q1, s, h, qmax, st, j, 0, 0)
    modifies w1, err1, q1
    ensures Between(w1, err1, q1, s, h, qmax, st, j, w1.Length1, 0)
  {
    for n := 0 to w1.Length1
      invariant Between(w1, err1, q1, s, h, qmax, st, j, n, 0)
    {
      QuantizeColumn(w1, err1, q1, s, h, qmax, st, j, n);
    }
  }

  // ---- a block and what surrounds it

  /** W[:, j:j+g].clone() */
  method CopyBlock(w: Matrix2, j: nat, g: nat) returns (w1: Matrix2)
    requires j + g <= w.Length1
    ensures fresh(w1) && w1.Length0 == w.Length0 && w1.Length1 == g
    ensures forall r: nat :: r < w.Length0 ==> RowOf(w1, r) == RowOf(w, r)[j..j + g]
  {
    w1 := new real[w.Length0, g]((r, c)
      reads w
      requires 0 <= r < w.Length0 && 0 <= c < g && j + g <= w.Length1 => w[r, j + c]);
  }

  /** The scale of the group for every row, from its current weights. */
  method GroupScales(w1: Matrix2, p: Params) returns (s: seq<real>)
    requires ValidParams(p)
    ensures |s| == w1.Length0 && forall r :: 0 <= r < |s| ==> s[r] == GroupScale(RowOf(w1, r), p)
  {
    s := [];
    for r := 0 to w1.Length0
      invariant |s| == r && forall k :: 0 <= k < r ==> s[k] == GroupScale(RowOf(w1, k), p)
    {
      var x: real;
      if p.mseClip {
        x := SearchScale(RowOf(w1, r), p.qmax);
      } else {
        x := Scale(RowOf(w1, r), p.qmax, SCALE_FLOOR);
      }
      s := s + [x];
    }
  }

  /** Q[:, j:j+g] = Q1 */
  method StoreBlock(q: Matrix2, q1: Matrix2, j: nat)
    requires q != q1 && q1.Length0 == q.Length0 && j + q1.Length1 <= q.Length1
    modifies q
    ensures AllStored(old(RowsOf(q)), RowsOf(q), RowsOf(q1), j, q1.Length1)
  {
    forall r, c | 0 <= r < q.Length0 && 0 <= c < q1.Length1 {
      q[r, j + c] := q1[r, c];
    }
    assert forall r: nat :: r < q.Length0 ==> RowOf(q, r)[..j] == old(RowOf(q, r))[..j];
    assert forall r: nat :: r < q.Length0 ==> RowOf(q, r)[j..j + q1.Length1] == RowOf(q1, r);
  }

  /** Err1 @ Hinv[j:j+g, c] for one row and column. */
  method ErrorDot(err1: Matrix2, r: nat, h: seq<Row>, j: nat, c: nat) returns (sum: real)
    requires r < err1.Length0 && j + err1.Length1 <= |h| && forall i :: 0 <= i < |h| ==> c < |h[i]|
    ensures sum == Dot(RowOf(err1, r), h, j, c, err1.Length1)
  {
    sum := 0.0;
    for k := 0 to err1.Length1
      invariant sum == Dot(RowOf(err1, r), h, j, c, k)
    {
      sum := sum + err1[r, k] * h[j + k][c];
    }
  }

  /** W[:, j+g:] -= Err1 @ Hinv[j:j+g, j+g:] */
  method UpdateTrailing(w: Matrix2, err1: Matrix2, h: seq<Row>, j: nat)
    requires w != err1 && err1.Length0 == w.Length0 && Factor(h, w.Length1) && j + err1.Length1 <= w.Length1
    modifies w
    ensures AllLag(old(RowsOf(w)), RowsOf(w), RowsOf(err1), h, j, err1.Length1)
  {
    var from := j + err1.Length1;
    for r := 0 to w.Length0
      invariant forall r': nat :: r' < r ==>
        Lags(old(RowOf(w, r')), RowOf(w, r'), RowOf(err1, r'), h, j, err1.Length1, from)
      invariant forall r': nat :: r <= r' < w.Length0 ==> RowOf(w, r') == old(RowOf(w, r'))
    {
      UpdateTrailingRow(w, r, err1, h, j);
    }
  }

  method UpdateTrailingRow(w: Matrix2, r: nat, err1: Matrix2, h: seq<Row>, j: nat)
    requires r < w.Length0 && w != err1 && err1.Length0 == w.Length0 && Factor(h, w.Length1)
    requires j + err1.Length1 <= w.Length1
    modifies w
    ensures Lags(old(RowOf(w, r)), RowOf(w, r), RowOf(err1, r), h, j, err1.Length1, j + err1.Length1)
    ensures OthersKept(w, r)
  {
    var from := j + err1.Length1;
    for c := from to w.Length1
      invariant forall k :: from <= k < c ==> w[r, k] == old(w[r, k]) - Dot(RowOf(err1, r), h, j, k, err1.Length1)
      invariant forall k :: c <= k < w.Length1 ==> w[r, k] == old(w[r, k])
      invariant OthersKept(w, r)
    {
      var d := ErrorDot(err1, r, h, j, c);
      w[r, c] := w[r, c] - d;
    }
  }

  // ---- the whole matrix

  lemma SameSlice(x: Row, y: Row, j: nat, g: nat)
    requires |x| == |y| && j + g <= |x| && x[j..] == y[j..]
    ensures x[j..j + g] == y[j..j + g]
  {
    assert x[j..j + g] == x[j..][..g] && y[j..j + g] == y[j..][..g];
  }

  /** The block copy, zeroed errors and values, and the scales. */
  method StartBlock(w: Matrix2, h: seq<Row>, p: Params, j: nat, ghost st: seq<State>)
      returns (w1: Matrix2, err1: Matrix2, q1: Matrix2, s: seq<real>)
    requires ValidParams(p) && Factor(h, |h|) && w.Length1 == |h| && j + p.group <= |h| && |st| == w.Length0
    requires forall r :: 0 <= r < |st| ==> |st[r].codes| == j && |st[r].w| == |h| && RowOf(w, r)[j..] == st[r].w[j..]
    ensures fresh(w1) && fresh(err1) && fresh(q1) && Arrays(w1, err1, q1, |st|, p.group) && |s| == |st|
    ensures forall r :: 0 <= r < |s| ==> 0.0 < s[r] && s[r] == GroupScale(st[r].w[j..j + p.group], p)
    ensures forall r :: 0 <= r < |s| ==> RowDone(w1, err1, q1, r, Scaled(st[r], s[r]), s[r], h, 0, p.qmax)
  {
    var g := p.group;
    w1 := CopyBlock(w, j, g);
    err1, q1 := new real[w.Length0, g]((r, c) => 0.0), new real[w.Length0, g]((r, c) => 0.0);
    s := GroupScales(w1, p);
    forall r | 0 <= r < |s|
      ensures RowDone(w1, err1, q1, r, Scaled(st[r], s[r]), s[r], h, 0, p.qmax)
      ensures s[r] == GroupScale(st[r].w[j..j + g], p)
    {
      SameSlice(RowOf(w, r), st[r].w, j, g);
      BlockStarts(Scaled(st[r], s[r]), s[r], h, g, RowOf(w1, r), RowOf(err1, r), RowOf(q1, r));
    }
  }

  /** A block and all of its columns. */
  method RunBlock(w: Matrix2, h: seq<Row>, p: Params, j: nat, ghost st: seq<State>)
      returns (err1: Matrix2, q1: Matrix2, s: seq<real>, ghost done: seq<Row>)
    requires ValidParams(p) && Factor(h, |h|) && w.Length1 == |h| && j + p.group <= |h| && |st| == w.Length0
    requires forall r :: 0 <= r < |st| ==> |st[r].codes| == j && |st[r].w| == |h| && RowOf(w, r)[j..] == st[r].w[j..]
    ensures fresh(err1) && fresh(q1) && Shaped(err1, w.Length0, p.group) && Shaped(q1, w.Length0, p.group)
    ensures AllDone(st, s, h, p, done, RowsOf(err1), RowsOf(q1))
  {
    var w1;
    w1, err1, q1, s := StartBlock(w, h, p, j, st);
    ghost var scaled := ScaledAll(st, s);
    QuantizeColumns(w1, err1, q1, s, h, p.qmax, scaled, j);
    done := RowsOf(w1);
    forall r | 0 <= r < |s| ensures BlockDone(st[r], s[r], h, p, done[r], RowOf(err1, r), RowOf(q1, r)) {
      assert RowDone(w1, err1, q1, r, scaled[r], s[r], h, p.group, p.qmax);
    }
  }

  ghost function ScaledAll(st: seq<State>, s: seq<real>): (x: seq<State>)
    requires |st| == |s|
    ensures |x| == |s| && forall r :: 0 <= r < |s| ==> x[r] == Scaled(st[r], s[r])
  {
    seq(|s|, r requires 0 <= r < |s| => Scaled(st[r], s[r]))
  }

  /** One iteration of the outer loop. */
  method QuantizeBlock(w: Matrix2, q: Matrix2, scales: seq<Row>, ghost st: seq<State>, ghost w0: seq<Row>, h: seq<Row>,
                       p: Params, j: nat)
    returns (scales': seq<Row>, ghost st': seq<State>)
    requires ValidParams(p) && Factor(h, |h|) && j + p.group <= |h| && w != q && Shaped(w, |st|, |h|)
    requires Shaped(q, |st|, |h|)
    requires AllAtBoundary(RowsOf(w), RowsOf(q), scales, st, w0, h, p, j)
    modifies w, q
    ensures AllAtBoundary(RowsOf(w), RowsOf(q), scales', st', w0, h, p, j + p.group)
  {
    ghost var ws, qs := RowsOf(w), RowsOf(q);
    var err1, q1, s;
    ghost var done;
    err1, q1, s, done := RunBlock(w, h, p, j, st);
    StoreBlock(q, q1, j);
    UpdateTrailing(w, err1, h, j);
    scales' := AddScales(scales, s);
    st' := NextGroups(st, h, p);
    AllGroupsDone(ws, qs, scales, st, w0, h, p, j, s, done, RowsOf(err1), RowsOf(q1), RowsOf(w), RowsOf(q));
  }

  lemma OneBlockLess(left: int, g: nat)
    ensures left * g == (left - 1) * g + g
    ensures left < 0 ==> left * g <= 0
  {
  }

  /** round(Q / scales.repeat_interleave(group)) of one row: the integers chosen in the loop. */
  method Integers(q: Matrix2, r: nat, scales: Row, g: nat, qmax: int, ghost st: State) returns (codes: seq<int>)
    requires r < q.Length0 && Stored(RowOf(q, r), st, g) && st.scales == scales && InRange(st.codes, qmax)
    requires |st.codes| == q.Length1
    ensures codes == st.codes
  {
    var s := Repeat(scales, g);
    codes := [];
    for c := 0 to q.Length1
      invariant codes == st.codes[..c]
    {
      assert IsCoded(RowOf(q, r)[c], st.codes[c], s[c]);
      DivisionRecovers(st.codes[c], s[c], q[r, c], qmax);
      codes := codes + [Clamp(Round(q[r, c] / s[c]), -qmax - 1, qmax)];
    }
  }

  /** The clone of W, and Q of zeros. */
  method Start(w0: seq<Row>, h: seq<Row>, p: Params)
      returns (w: Matrix2, q: Matrix2, scales: seq<Row>, ghost st: seq<State>)
    requires ValidParams(p) && Factor(h, |h|) && forall r :: 0 <= r < |w0| ==> |w0[r]| == |h|
    ensures fresh(w) && fresh(q) && w != q && Shaped(w, |w0|, |h|) && Shaped(q, |w0|, |h|)
    ensures AllAtBoundary(RowsOf(w), RowsOf(q), scales, st, w0, h, p, 0)
  {
    w := new real[|w0|, |h|]((r, c) requires 0 <= r < |w0| && 0 <= c < |h| && |w0[r]| == |h| => w0[r][c]);
    q := new real[|w0|, |h|]((r, c) => 0.0);
    scales := seq(|w0|, _ => []);
    st := seq(|w0|, r requires 0 <= r < |w0| => State(w0[r], [], []));
    forall r | 0 <= r < |w0| ensures AtBoundary(RowOf(w, r), RowOf(q, r), scales[r], st[r], w0[r], h, p) {
      assert RowOf(w, r) == w0[r];
    }
  }

  /** The outer loop. */
  method QuantizeBlocks(w0: seq<Row>, h: seq<Row>, p: Params) returns (q: Matrix2, scales: seq<Row>)
    requires ValidParams(p) && Factor(h, |h|) && |h| % p.group == 0 && forall r :: 0 <= r < |w0| ==> |w0[r]| == |h|
    ensures fresh(q) && Shaped(q, |w0|, |h|) && Complete(RowsOf(q), scales, w0, h, p)
  {
    var w;
    ghost var st;
    w, q, scales, st := Start(w0, h, p);
    var j := 0;
    ghost var left := |h| / p.group;
    while j < |h|
      invariant 0 <= j <= |h| && |h| - j == left * p.group && |st| == |w0|
      invariant fresh(w) && fresh(q) && w != q && Shaped(w, |w0|, |h|) && Shaped(q, |w0|, |h|)
      invariant AllAtBoundary(RowsOf(w), RowsOf(q), scales, st, w0, h, p, j)
      decreases |h| - j
    {
      OneBlockLess(left, p.group);
      OneBlockLess(left - 1, p.group);
      scales, st := QuantizeBlock(w, q, scales, st, w0, h, p, j);
      j, left := j + p.group, left - 1;
    }
    BoundaryEnds(RowsOf(w), RowsOf(q), scales, st, w0, h, p);
  }

  /** gptq_quantize: for every row, the codes and scales are those of the reference that updates all
      remaining columns after each column; each code is the nearest to its column once the errors of the
      columns before it are fed into it, and each scale is chosen from its group as fed by the groups before. */
  method Quantize(w0: seq<Row>, h: seq<Row>, p: Params) returns (codes: seq<seq<int>>, scales: seq<Row>)
    requires ValidParams(p) && Factor(h, |h|) && |h| % p.group == 0
    requires forall r :: 0 <= r < |w0| ==> |w0[r]| == |h|
    ensures |codes| == |scales| == |w0|
    ensures forall r :: 0 <= r < |w0| ==>
      codes[r] == Quantized(w0[r], h, p).codes && scales[r] == Quantized(w0[r], h, p).scales
    ensures forall r :: 0 <= r < |w0| ==> |codes[r]| == |h| && InRange(codes[r], p.qmax)
    ensures forall r :: 0 <= r < |w0| ==> Explained(w0[r], h, p, codes[r], scales[r])
  {
    var q;
    q, scales := QuantizeBlocks(w0, h, p);
    codes := [];
    for r := 0 to |w0|
      invariant |codes| == r && Complete(RowsOf(q), scales, w0, h, p)
      invariant forall k :: 0 <= k < r ==> RowIs(codes[k], scales[k], w0[k], h, p)
    {
      assert RowComplete(RowsOf(q)[r], scales[r], Quantized(w0[r], h, p), p);
      var row := Integers(q, r, scales[r], p.group, p.qmax, Quantized(w0[r], h, p));
      codes := codes + [row];
    }
    forall r | 0 <= r < |w0| ensures Explained(w0[r], h, p, codes[r], scales[r]) {
      assert RowIs(codes[r], scales[r], w0[r], h, p);
      var _ := QuantizedIsExplained(w0[r], h, p);
    }
  }

  ghost predicate RowIs(codes: seq<int>, scales: Row, w0: Row, h: seq<Row>, p: Params)
    requires ValidParams(p) && Factor(h, |h|) && |w0| == |h|
  {
    var x := Quantized(w0, h, p);
    codes == x.codes && scales == x.scales && |codes| == |h| && InRange(codes, p.qmax)
  }

  /** drafter/gptq_lm_head.py quantizes `rows` rows at a time: the result is the same. */
  method QuantizeInChunks(w0: seq<Row>, h: seq<Row>, p: Params, rows: nat)
      returns (codes: seq<seq<int>>, scales: seq<Row>)
    requires ValidParams(p) && Factor(h, |h|) && |h| % p.group == 0 && 0 < rows
    requires forall r :: 0 <= r < |w0| ==> |w0[r]| == |h|
    ensures |codes| == |scales| == |w0|
    ensures forall r :: 0 <= r < |w0| ==>
      codes[r] == Quantized(w0[r], h, p).codes && scales[r] == Quantized(w0[r], h, p).scales
  {
    codes, scales := [], [];
    var lo := 0;
    while lo < |w0|
      invariant 0 <= lo <= |w0| && |codes| == |scales| == lo
      invariant forall r :: 0 <= r < lo ==>
        codes[r] == Quantized(w0[r], h, p).codes && scales[r] == Quantized(w0[r], h, p).scales
    {
      var hi := MinInt(lo + rows, |w0|);
      var q, s := Quantize(w0[lo..hi], h, p);
      codes, scales := codes + q, scales + s;
      lo := hi;
    }
  }
}
