/** drafter/gptq_utils.py: gptq_quantize against rtn_quantize. Without correlation between columns there
    is no error to feed forward, and the two agree. */
module GptqRounding {
  import opened Numbers
  import opened RoundToNearest
  import opened Gptq

  /** No column's error reaches a later column. */
  ghost predicate Uncorrelated(h: seq<Row>) {
    forall i, c :: 0 <= i < c < |h| && |h[i]| == |h| ==> h[i][c] == 0.0
  }

  lemma NothingSubtracted(x: real, err: real, z: real)
    requires z == 0.0
    ensures x - err * z == x
  {
  }

  /** Columns after the ones done are as they were, and each code is the plain rounding. */
  lemma {:induction false} ColumnsRound(st: State, s: real, h: seq<Row>, j: nat, n: nat, qmax: int)
    requires Factor(h, |st.w|) && Uncorrelated(h) && j + n <= |st.w| && 0.0 < s
    ensures var cur := Columns(st, s, h, j, n, qmax);
            && (forall c :: j + n <= c < |st.w| ==> cur.w[c] == st.w[c])
            && cur.codes == st.codes + seq(n, k requires 0 <= k < n => Code(st.w[j + k], s, qmax))
            && cur.scales == st.scales
  {
    if n > 0 {
      ColumnsRound(st, s, h, j, n - 1, qmax);
      var before, k := Columns(st, s, h, j, n - 1, qmax), j + n - 1;
      var err := ErrorOf(before.w[k], s, h[k][k], qmax);
      forall c | j + n <= c < |st.w| ensures Minus(before.w, err, h[k], k)[c] == st.w[c] {
        NothingSubtracted(before.w[c], err, h[k][c]);
      }
    }
  }

  /** The groups so far are quantized as round-to-nearest does, and the rest of the row is untouched. */
  ghost predicate RoundedSoFar(st: State, w: Row, qmax: int)
    requires Grouped(w) && 1 <= qmax
  {
    && |st.w| == |w| && |st.codes| == GROUP * |st.scales| <= |w|
    && (forall c :: |st.codes| <= c < |w| ==> st.w[c] == w[c])
    && st.codes == RowCodes(w, qmax, SCALE_FLOOR)[..|st.codes|]
    && st.scales == RowScales(w, qmax, SCALE_FLOOR)[..|st.scales|]
  }

  function GroupCodes(w: Row, j: nat, s: real, qmax: int): (q: seq<int>)
    requires j + GROUP <= |w| && 0.0 < s
    ensures |q| == GROUP && forall k :: 0 <= k < GROUP ==> q[k] == Code(w[j + k], s, qmax)
  {
    seq(GROUP, k requires 0 <= k < GROUP => Code(w[j + k], s, qmax))
  }

  lemma RowCodesOfGroup(w: Row, b: nat, j: nat, qmax: int)
    requires Grouped(w) && 1 <= qmax && j == b * GROUP && j + GROUP <= |w|
    ensures RowCodes(w, qmax, SCALE_FLOOR)[..j + GROUP]
         == RowCodes(w, qmax, SCALE_FLOOR)[..j] + GroupCodes(w, j, ScaleAt(w, b, qmax, SCALE_FLOOR), qmax)
  {
    var all, mine := RowCodes(w, qmax, SCALE_FLOOR), GroupCodes(w, j, ScaleAt(w, b, qmax, SCALE_FLOOR), qmax);
    forall c | j <= c < j + GROUP ensures all[c] == mine[c - j] {
      assert c / GROUP == b;
    }
  }

  /** One group of a row whose remaining weights are still the original ones. */
  lemma GroupCodesAre(st: State, w: Row, h: seq<Row>, p: Params, s: real)
    requires ValidParams(p) && !p.mseClip && p.group == GROUP && Factor(h, |w|) && Uncorrelated(h)
    requires |st.w| == |w| && |st.codes| + GROUP <= |w| && forall c :: |st.codes| <= c < |w| ==> st.w[c] == w[c]
    requires s == Scale(w[|st.codes|..|st.codes| + GROUP], p.qmax, SCALE_FLOOR)
    ensures var next := Group(st, h, p);
            && next.codes == st.codes + GroupCodes(w, |st.codes|, s, p.qmax) && next.scales == st.scales + [s]
            && forall c :: |st.codes| + GROUP <= c < |w| ==> next.w[c] == w[c]
  {
    var j := |st.codes|;
    assert st.w[j..j + GROUP] == w[j..j + GROUP];
    ColumnsRound(Scaled(st, s), s, h, j, GROUP, p.qmax);
  }

  lemma GroupRounds(st: State, w: Row, h: seq<Row>, p: Params)
    requires ValidParams(p) && !p.mseClip && p.group == GROUP && Grouped(w)
    requires RoundedSoFar(st, w, p.qmax) && Factor(h, |w|) && Uncorrelated(h) && |st.codes| + GROUP <= |w|
    ensures RoundedSoFar(Group(st, h, p), w, p.qmax)
  {
    var j, b := |st.codes|, |st.scales|;
    var s := ScaleAt(w, b, p.qmax, SCALE_FLOOR);
    assert w[j..j + GROUP] == GroupOf(w, b);
    GroupCodesAre(st, w, h, p, s);
    RowCodesOfGroup(w, b, j, p.qmax);
    var scales := RowScales(w, p.qmax, SCALE_FLOOR);
    assert scales[..b + 1] == scales[..b] + [s];
  }

  lemma {:induction false} GroupsRound(st: State, w: Row, h: seq<Row>, p: Params)
    requires ValidParams(p) && !p.mseClip && p.group == GROUP && Grouped(w)
    requires RoundedSoFar(st, w, p.qmax) && Factor(h, |w|) && Uncorrelated(h)
    ensures Groups(st, h, p).codes == RowCodes(w, p.qmax, SCALE_FLOOR)
    ensures Groups(st, h, p).scales == RowScales(w, p.qmax, SCALE_FLOOR)
    decreases |w| - |st.codes|
  {
    if |st.codes| + GROUP <= |w| {
      GroupRounds(st, w, h, p);
      GroupsRound(Group(st, h, p), w, h, p);
    } else {
      assert |st.codes| == |w|;
    }
  }

  /** With an uncorrelated Hessian factor GPTQ is round-to-nearest: same codes, same scales. */
  lemma UncorrelatedIsRoundToNearest(w: Row, h: seq<Row>, p: Params)
    requires ValidParams(p) && !p.mseClip && p.group == GROUP && Grouped(w) && Factor(h, |w|) && Uncorrelated(h)
    ensures Quantized(w, h, p).codes == RowCodes(w, p.qmax, SCALE_FLOOR)
    ensures Quantized(w, h, p).scales == RowScales(w, p.qmax, SCALE_FLOOR)
  {
    GroupsRound(State(w, [], []), w, h, p);
  }
}
