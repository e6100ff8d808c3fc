/** drafter/gptq_utils.py, gptq_quantize: GPTQ over exact reals from the point where the inverse
    Hessian factor is known. Weights are updated a block of columns at a time; the reference updates
    every remaining column after each column. */
module Gptq {
  import opened Numbers
  import opened RoundToNearest

  /** The group width (which is also the block width), the largest code and the scale search. */
  datatype Params = Params(group: nat, qmax: int, mseClip: bool)

  predicate ValidParams(p: Params) {
    0 < p.group && 1 <= p.qmax
  }

  const SCALE_FLOOR: real := 0.00000001

  // ---- the scale of a group

  /** Scale k of the search: the maximum magnitude clipped to 0.75, 0.775, ..., 1. */
  function Candidate(x: Row, k: nat, qmax: int): (s: real)
    requires 1 <= qmax
    ensures SCALE_FLOOR <= s
  {
    Max(AMax(x) * (0.75 + 0.025 * k as real) / qmax as real, SCALE_FLOOR)
  }

  /** The multiple of the scale a weight is rounded to. */
  function Rounded(x: real, s: real, qmax: int): real
    requires 0.0 < s
  {
    Code(x, s, qmax) as real * s
  }

  /** The squared error of rounding x to multiples of s. */
  function RoundingError(x: Row, s: real, qmax: int): real
    requires 0.0 < s
  {
    if x == [] then 0.0
    else
      var d := Rounded(x[0], s, qmax) - x[0];
      d * d + RoundingError(x[1..], s, qmax)
  }

  /** The first of the first n candidates with the least error. */
  function Best(x: Row, n: nat, qmax: int): (s: real)
    requires 1 <= qmax && 0 < n
    ensures SCALE_FLOOR <= s
  {
    if n == 1 then Candidate(x, 0, qmax)
    else
      var s, c := Best(x, n - 1, qmax), Candidate(x, n - 1, qmax);
      if RoundingError(x, c, qmax) < RoundingError(x, s, qmax) then c else s
  }

  function GroupScale(x: Row, p: Params): (s: real)
    requires ValidParams(p)
    ensures SCALE_FLOOR <= s
  {
    if p.mseClip then Best(x, 11, p.qmax) else Scale(x, p.qmax, SCALE_FLOOR)
  }

  lemma {:induction false} BestIsLeast(x: Row, n: nat, qmax: int, k: nat)
    requires 1 <= qmax && k < n
    ensures RoundingError(x, Best(x, n, qmax), qmax) <= RoundingError(x, Candidate(x, k, qmax), qmax)
  {
    if k < n - 1 {
      BestIsLeast(x, n - 1, qmax, k);
    }
  }

  /** The searched scale rounds a group no worse than the unclipped one. */
  lemma ClippingNeverHurts(x: Row, qmax: int)
    requires 1 <= qmax
    ensures RoundingError(x, Best(x, 11, qmax), qmax) <= RoundingError(x, Scale(x, qmax, SCALE_FLOOR), qmax)
  {
    BestIsLeast(x, 11, qmax, 10);
    assert AMax(x) * (0.75 + 0.025 * 10.0) == AMax(x);
  }

  /** The search as the source runs it. */
  method SearchScale(x: Row, qmax: int) returns (best: real)
    requires 1 <= qmax
    ensures best == Best(x, 11, qmax)
  {
    best := Candidate(x, 0, qmax);
    var bestErr := RoundingError(x, best, qmax);
    for k := 1 to 11
      invariant best == Best(x, k, qmax) && bestErr == RoundingError(x, best, qmax)
    {
      var s := Candidate(x, k, qmax);
      var e := RoundingError(x, s, qmax);
      if e < bestErr {
        best, bestErr := s, e;
      }
    }
  }

  // ---- the reference: one column at a time

  /** A row after some columns: the compensated weights, the codes so far, the group scales so far. */
  datatype State = State(w: Row, codes: seq<int>, scales: Row)

  ghost predicate Factor(h: seq<Row>, width: nat) {
    |h| == width && forall i :: 0 <= i < width ==> |h[i]| == width && h[i][i] != 0.0
  }

  /** x[c] - err * row[c] from column `from` on. */
  function Minus(x: Row, err: real, row: Row, from: nat): (y: Row)
    requires |row| == |x|
    ensures |y| == |x|
  {
    seq(|x|, c requires 0 <= c < |x| => if c < from then x[c] else x[c] - err * row[c])
  }

  function ErrorOf(x: real, s: real, d: real, qmax: int): real
    requires 0.0 < s && d != 0.0
  {
    (x - Rounded(x, s, qmax)) / d
  }

  /** Quantize column j and push its error into every remaining column. */
  function Column(st: State, s: real, h: seq<Row>, j: nat, qmax: int): (st': State)
    requires Factor(h, |st.w|) && j < |st.w| && 0.0 < s
    ensures |st'.w| == |st.w| && |st'.codes| == |st.codes| + 1
  {
    State(Minus(st.w, ErrorOf(st.w[j], s, h[j][j], qmax), h[j], j), st.codes + [Code(st.w[j], s, qmax)], st.scales)
  }

  function Columns(st: State, s: real, h: seq<Row>, j: nat, n: nat, qmax: int): (st': State)
    requires Factor(h, |st.w|) && j + n <= |st.w| && 0.0 < s
    ensures |st'.w| == |st.w| && |st'.codes| == |st.codes| + n
  {
    if n == 0 then st else Column(Columns(st, s, h, j, n - 1, qmax), s, h, j + n - 1, qmax)
  }

  /** The next group: its scale comes from the weights compensated so far. */
  function Group(st: State, h: seq<Row>, p: Params): (st': State)
    requires ValidParams(p) && Factor(h, |st.w|) && |st.codes| + p.group <= |st.w|
    ensures |st'.w| == |st.w| && |st'.codes| == |st.codes| + p.group
  {
    var j := |st.codes|;
    var s := GroupScale(st.w[j..j + p.group], p);
    Columns(State(st.w, st.codes, st.scales + [s]), s, h, j, p.group, p.qmax)
  }

  function Groups(st: State, h: seq<Row>, p: Params): State
    requires ValidParams(p) && Factor(h, |st.w|)
    decreases |st.w| - |st.codes|
  {
    if |st.codes| + p.group > |st.w| then st else Groups(Group(st, h, p), h, p)
  }

  /** One row, quantized a column at a time. */
  function Quantized(w: Row, h: seq<Row>, p: Params): State
    requires ValidParams(p) && Factor(h, |w|)
  {
    Groups(State(w, [], []), h, p)
  }

  // ---- a block against the reference

  /** Row r of a matrix product Err1 @ Hinv[j.., c], over the first n columns of the block. */
  function Dot(err: Row, h: seq<Row>, j: nat, c: nat, n: nat): real
    requires n <= |err| && j + n <= |h| && forall i :: 0 <= i < |h| ==> c < |h[i]|
  {
    if n == 0 then 0.0 else Dot(err, h, j, c, n - 1) + err[n - 1] * h[j + n - 1][c]
  }

  lemma {:induction false} DotAgrees(err: Row, err': Row, h: seq<Row>, j: nat, c: nat, n: nat)
    requires n <= |err| && n <= |err'| && j + n <= |h| && forall i :: 0 <= i < |h| ==> c < |h[i]|
    requires forall k :: 0 <= k < n ==> err[k] == err'[k]
    ensures Dot(err, h, j, c, n) == Dot(err', h, j, c, n)
  {
    if n > 0 {
      DotAgrees(err, err', h, j, c, n - 1);
    }
  }

  /** Columns right of the block lag behind by the errors not yet applied. */
  ghost predicate Lags(w: Row, cur: Row, err: Row, h: seq<Row>, j: nat, n: nat, from: nat)
    requires Factor(h, |w|) && |cur| == |w| && n <= |err| && j + n <= |w|
  {
    forall c :: from <= c < |w| ==> cur[c] == w[c] - Dot(err, h, j, c, n)
  }

  /** The first n values of a block are its codes times the scale. */
  ghost predicate Dequantizes(q: Row, codes: seq<int>, s: real, j: nat, n: nat) {
    n <= |q| && j + n <= |codes| && forall k :: 0 <= k < n ==> q[k] == codes[j + k] as real * s
  }

  lemma DequantizeStep(q: Row, codes: seq<int>, s: real, j: nat, n: nat, code: int)
    requires n < |q| && |codes| == j + n && Dequantizes(q, codes, s, j, n)
    ensures Dequantizes(q[n := code as real * s], codes + [code], s, j, n + 1)
  {
  }

  /** A block copy w1, its errors and its values after n of its columns, against the reference
      state `cur` after the same columns; `st` is the state at the start of the block. */
  ghost predicate InBlock(st: State, cur: State, s: real, h: seq<Row>, g: nat, n: nat, w1: Row, err: Row, q: Row)
    requires Factor(h, |st.w|)
  {
    var j := |st.codes|;
    && n <= g == |w1| == |err| == |q|
    && j + g <= |st.w| == |cur.w|
    && w1 == cur.w[j..j + g]
    && Dequantizes(q, cur.codes, s, j, n)
    && Lags(st.w, cur.w, err, h, j, n, j + g)
  }

  lemma BlockStarts(st: State, s: real, h: seq<Row>, g: nat, w1: Row, err: Row, q: Row)
    requires Factor(h, |st.w|) && |st.codes| + g <= |st.w| && |err| == |q| == g
    requires w1 == st.w[|st.codes|..|st.codes| + g]
    ensures InBlock(st, st, s, h, g, 0, w1, err, q)
  {
  }

  lemma MinusSlice(x: Row, e: real, row: Row, j: nat, g: nat, n: nat)
    requires |row| == |x| && j + g <= |x|
    ensures Minus(x, e, row, j + n)[j..j + g] == Minus(x[j..j + g], e, row[j..j + g], n)
  {
    var a, b := Minus(x, e, row, j + n)[j..j + g], Minus(x[j..j + g], e, row[j..j + g], n);
    forall c | 0 <= c < g ensures a[c] == b[c] {
      assert x[j..j + g][c] == x[j + c] && row[j..j + g][c] == row[j + c];
    }
  }

  /** One more column of the block. */
  lemma BlockStep(st: State, cur: State, s: real, h: seq<Row>, g: nat, n: nat, qmax: int, w1: Row, err: Row, q: Row,
                  e: real)
    requires Factor(h, |st.w|) && 0.0 < s && n < g && InBlock(st, cur, s, h, g, n, w1, err, q)
    requires |cur.codes| == |st.codes| + n
    requires e == ErrorOf(w1[n], s, h[|st.codes| + n][|st.codes| + n], qmax)
    ensures var j := |st.codes|;
            InBlock(st, Column(cur, s, h, j + n, qmax), s, h, g, n + 1,
                    Minus(w1, e, h[j + n][j..j + g], n), err[n := e], q[n := Rounded(w1[n], s, qmax)])
  {
    var j := |st.codes|;
    MinusSlice(cur.w, e, h[j + n], j, g, n);
    DequantizeStep(q, cur.codes, s, j, n, Code(w1[n], s, qmax));
    LagStep(st.w, cur.w, err, h, j, n, j + g, e);
  }

  lemma LagStep(w: Row, cur: Row, err: Row, h: seq<Row>, j: nat, n: nat, from: nat, e: real)
    requires Factor(h, |w|) && |cur| == |w| && n < |err| && j + n < from <= |w| && Lags(w, cur, err, h, j, n, from)
    ensures Lags(w, Minus(cur, e, h[j + n], j + n), err[n := e], h, j, n + 1, from)
  {
    forall c | from <= c < |w| ensures Minus(cur, e, h[j + n], j + n)[c] == w[c] - Dot(err[n := e], h, j, c, n + 1) {
      DotAgrees(err, err[n := e], h, j, c, n);
    }
  }

  // ---- codes back from the quantized values

  ghost predicate InRange(codes: seq<int>, qmax: int) {
    forall c :: 0 <= c < |codes| ==> -qmax - 1 <= codes[c] <= qmax
  }

  lemma {:induction false} ColumnsInRange(st: State, s: real, h: seq<Row>, j: nat, n: nat, qmax: int)
    requires Factor(h, |st.w|) && j + n <= |st.w| && 0.0 < s && 1 <= qmax && InRange(st.codes, qmax)
    ensures InRange(Columns(st, s, h, j, n, qmax).codes, qmax)
    ensures Columns(st, s, h, j, n, qmax).scales == st.scales
    ensures Columns(st, s, h, j, n, qmax).codes[..|st.codes|] == st.codes
  {
    if n > 0 {
      ColumnsInRange(st, s, h, j, n - 1, qmax);
    }
  }

  /** scales.repeat_interleave(group) */
  function Repeat(scales: Row, g: nat): (x: Row) {
    if scales == [] then [] else Repeat(scales[..|scales| - 1], g) + seq(g, _ => scales[|scales| - 1])
  }

  lemma RepeatAppend(scales: Row, g: nat, s: real)
    ensures Repeat(scales + [s], g) == Repeat(scales, g) + seq(g, _ => s)
  {
    assert (scales + [s])[..|scales|] == scales;
  }

  /** The values stored for a row are its codes times the scales of their groups. */
  ghost predicate Stored(q: Row, st: State, g: nat) {
    var s := Repeat(st.scales, g);
    && |s| == |st.codes| <= |q|
    && forall c :: 0 <= c < |s| ==> IsCoded(q[c], st.codes[c], s[c])
  }

  predicate IsCoded(x: real, code: int, s: real) {
    0.0 < s && x == code as real * s
  }

  lemma CodedAt(q: Row, codes: seq<int>, s: real, j: nat, n: nat, k: nat)
    requires Dequantizes(q, codes, s, j, n) && k < n && 0.0 < s
    ensures IsCoded(q[k], codes[j + k], s)
  {
  }

  /** Storing the values of one more group. */
  lemma GroupStored(q: Row, q1: Row, q': Row, st: State, cur: State, g: nat, s: real)
    requires Stored(q, st, g) && 0.0 < s && |q1| == g && |st.codes| + g <= |q|
    requires |cur.codes| == |st.codes| + g && cur.codes[..|st.codes|] == st.codes && cur.scales == st.scales + [s]
    requires Dequantizes(q1, cur.codes, s, |st.codes|, g)
    requires |q'| == |q| && q'[..|st.codes|] == q[..|st.codes|] && q'[|st.codes|..|st.codes| + g] == q1
    ensures Stored(q', cur, g)
  {
    var j := |st.codes|;
    RepeatAppend(st.scales, g, s);
    var rep := Repeat(cur.scales, g);
    forall c | 0 <= c < |rep| ensures IsCoded(q'[c], cur.codes[c], rep[c]) {
      if c < j {
        assert q'[..j][c] == q[..j][c] && cur.codes[..j][c] == st.codes[c];
        assert IsCoded(q[c], st.codes[c], Repeat(st.scales, g)[c]);
      } else {
        assert q'[j..j + g][c - j] == q1[c - j];
        CodedAt(q1, cur.codes, s, j, g, c - j);
      }
    }
  }

  /** Dividing a stored value by its scale gives back the integer that was chosen. */
  lemma DivisionRecovers(n: int, s: real, x: real, qmax: int)
    requires 0.0 < s && x == n as real * s && -qmax - 1 <= n <= qmax
    ensures Code(x, s, qmax) == n
  {
    assert x / s == n as real;
  }

  // ---- a whole group of a row

  /** The state the columns of a group start from: its scale is already chosen. */
  function Scaled(st: State, s: real): State {
    State(st.w, st.codes, st.scales + [s])
  }

  /** What the matrices hold for a row at a block boundary: the weights still to quantize, and the
      values and scales of the codes so far. */
  ghost predicate AtBoundary(w: Row, q: Row, scales: Row, st: State, w0: Row, h: seq<Row>, p: Params) {
    && ValidParams(p) && |w0| == |st.w| == |w| == |q| && Factor(h, |w|) && |st.codes| <= |w|
    && w[|st.codes|..] == st.w[|st.codes|..]
    && Stored(q, st, p.group)
    && scales == st.scales
    && InRange(st.codes, p.qmax)
    && Groups(st, h, p) == Quantized(w0, h, p)
  }

  /** A block of a row once its columns are quantized: its scale, errors and values. */
  ghost predicate BlockDone(st: State, s: real, h: seq<Row>, p: Params, w1: Row, err: Row, q1: Row)
    requires ValidParams(p) && Factor(h, |st.w|) && |st.codes| + p.group <= |st.w|
  {
    && s == GroupScale(st.w[|st.codes|..|st.codes| + p.group], p)
    && InBlock(Scaled(st, s), Columns(Scaled(st, s), s, h, |st.codes|, p.group, p.qmax), s, h, p.group, p.group,
               w1, err, q1)
  }

  /** A block of columns and the update of the columns right of it are one group of the reference. */
  lemma GroupDone(w: Row, q: Row, scales: Row, st: State, w0: Row, h: seq<Row>, p: Params, s: real, w1: Row, err: Row,
                  q1: Row, w': Row, q': Row)
    requires AtBoundary(w, q, scales, st, w0, h, p) && |st.codes| + p.group <= |w|
    requires BlockDone(st, s, h, p, w1, err, q1)
    requires |w'| == |w| && Lags(w, w', err, h, |st.codes|, p.group, |st.codes| + p.group)
    requires |q'| == |q| && q'[..|st.codes|] == q[..|st.codes|] && q'[|st.codes|..|st.codes| + p.group] == q1
    ensures AtBoundary(w', q', scales + [s], Group(st, h, p), w0, h, p)
  {
    var j := |st.codes|;
    var cur := Group(st, h, p);
    ColumnsInRange(Scaled(st, s), s, h, j, p.group, p.qmax);
    GroupStored(q, q1, q', st, cur, p.group, s);
    forall c | j + p.group <= c < |w| ensures w'[c] == cur.w[c] {
      assert w[j..][c - j] == st.w[j..][c - j];
    }
  }

  // ---- all rows

  type Rows = seq<Row>

  ghost predicate AllAtBoundary(w: Rows, q: Rows, scales: Rows, st: seq<State>, w0: Rows, h: seq<Row>, p: Params,
                                j: nat) {
    && |w| == |q| == |scales| == |st| == |w0|
    && forall r :: 0 <= r < |w| ==>
         |st[r].codes| == j && |w[r]| == |h| && AtBoundary(w[r], q[r], scales[r], st[r], w0[r], h, p)
  }

  ghost predicate AllDone(st: seq<State>, s: seq<real>, h: seq<Row>, p: Params, w1: Rows, err: Rows, q1: Rows) {
    && ValidParams(p) && |st| == |s| == |w1| == |err| == |q1|
    && forall r :: 0 <= r < |st| ==>
      && Factor(h, |st[r].w|) && |st[r].codes| + p.group <= |st[r].w|
      && BlockDone(st[r], s[r], h, p, w1[r], err[r], q1[r])
  }

  ghost predicate AllLag(w: Rows, w': Rows, err: Rows, h: seq<Row>, j: nat, g: nat) {
    && |w| == |w'| == |err|
    && forall r :: 0 <= r < |w| ==>
      && Factor(h, |w[r]|) && |w'[r]| == |w[r]| && |err[r]| == g && j + g <= |w[r]|
      && Lags(w[r], w'[r], err[r], h, j, g, j + g)
  }

  ghost predicate AllStored(q: Rows, q': Rows, q1: Rows, j: nat, g: nat) {
    && |q| == |q'| == |q1|
    && forall r :: 0 <= r < |q| ==>
         |q'[r]| == |q[r]| && j + g <= |q[r]| && q'[r][..j] == q[r][..j] && q'[r][j..j + g] == q1[r]
  }

  function AddScales(scales: Rows, s: seq<real>): (r: Rows)
    requires |s| == |scales|
    ensures |r| == |s| && forall k :: 0 <= k < |s| ==> r[k] == scales[k] + [s[k]]
  {
    seq(|s|, k requires 0 <= k < |s| => scales[k] + [s[k]])
  }

  ghost function NextGroups(st: seq<State>, h: seq<Row>, p: Params): (st': seq<State>)
    requires ValidParams(p) && forall r :: 0 <= r < |st| ==>
      Factor(h, |st[r].w|) && |st[r].codes| + p.group <= |st[r].w|
    ensures |st'| == |st| && forall r :: 0 <= r < |st| ==> st'[r] == Group(st[r], h, p)
  {
    seq(|st|, r requires 0 <= r < |st| => Group(st[r], h, p))
  }

  lemma AllGroupsDone(w: Rows, q: Rows, scales: Rows, st: seq<State>, w0: Rows, h: seq<Row>, p: Params, j: nat,
                      s: seq<real>, w1: Rows, err: Rows, q1: Rows, w': Rows, q': Rows)
    requires AllAtBoundary(w, q, scales, st, w0, h, p, j) && AllDone(st, s, h, p, w1, err, q1)
    requires AllLag(w, w', err, h, j, p.group) && AllStored(q, q', q1, j, p.group)
    ensures AllAtBoundary(w', q', AddScales(scales, s), NextGroups(st, h, p), w0, h, p, j + p.group)
  {
    forall r | 0 <= r < |w| ensures AtBoundary(w'[r], q'[r], scales[r] + [s[r]], Group(st[r], h, p), w0[r], h, p) {
      GroupDone(w[r], q[r], scales[r], st[r], w0[r], h, p, s[r], w1[r], err[r], q1[r], w'[r], q'[r]);
    }
  }

  /** The values and scales of all rows at the end, with the reference's result for each. */
  ghost predicate Complete(q: Rows, scales: Rows, w0: Rows, h: seq<Row>, p: Params) {
    && ValidParams(p) && |q| == |scales| == |w0|
    && forall r :: 0 <= r < |q| ==>
      && |w0[r]| == |q[r]| == |h| && Factor(h, |w0[r]|)
      && RowComplete(q[r], scales[r], Quantized(w0[r], h, p), p)
  }

  ghost predicate RowComplete(q: Row, scales: Row, st: State, p: Params) {
    Stored(q, st, p.group) && scales == st.scales && |st.codes| == |q| && InRange(st.codes, p.qmax)
  }

  /** Group by group, the codes fill the rows. */
  lemma BoundaryEnds(w: Rows, q: Rows, scales: Rows, st: seq<State>, w0: Rows, h: seq<Row>, p: Params)
    requires AllAtBoundary(w, q, scales, st, w0, h, p, |h|) && ValidParams(p)
    ensures Complete(q, scales, w0, h, p)
  {
    forall r | 0 <= r < |q|
      ensures |w0[r]| == |q[r]| == |h| && Factor(h, |w0[r]|) && RowComplete(q[r], scales[r], Quantized(w0[r], h, p), p)
    {
      assert AtBoundary(w[r], q[r], scales[r], st[r], w0[r], h, p);
    }
  }
}
