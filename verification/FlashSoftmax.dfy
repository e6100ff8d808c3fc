/** fa2/headers/softmax.h as flash_fwd_kernel.h uses it: one query row against blocks of keys,
    with a running maximum, exactly over the reals. Scores carry the softmax scale already. */
module FlashSoftmax {
  import opened ExpLog
  import opened Sums

  datatype Ext = NegInf | Fin(x: real) | PosInf

  /** One query row and one output column: the scaled score of every key, the key's value, and
      whether the row sees the key. */
  datatype Row = Row(score: int -> real, value: int -> real, seen: int -> bool)

  /** The weight of a key relative to m: 0 when the row does not see it. */
  function Weight(e: Exp, r: Row, m: real, k: int): real {
    if r.seen(k) then e.exp(r.score(k) - m) else 0.0
  }

  /** The weighted value of a key. */
  function Term(e: Exp, r: Row, m: real, k: int): real {
    Weight(e, r, m, k) * r.value(k)
  }

  function Weights(e: Exp, r: Row, m: real): int -> real {
    k => Weight(e, r, m, k)
  }

  function Terms(e: Exp, r: Row, m: real): int -> real {
    k => Term(e, r, m, k)
  }

  /** The softmax denominator and numerator over keys [lo, hi), relative to m. */
  function Den(e: Exp, r: Row, m: real, lo: int, hi: int): real {
    Sum(Weights(e, r, m), lo, hi)
  }

  function Num(e: Exp, r: Row, m: real, lo: int, hi: int): real {
    Sum(Terms(e, r, m), lo, hi)
  }

  ghost predicate Blind(r: Row, lo: int, hi: int) {
    forall k :: lo <= k < hi ==> !r.seen(k)
  }

  /** Softmax attention over [lo, hi): the weighted mean of the visible values and the log-sum-exp
      of the visible scores. A row that sees nothing gets output 0. */
  ghost function Attention(e: Exp, r: Row, lo: int, hi: int, none: Ext): (real, Ext) {
    if Blind(r, lo, hi) then (0.0, none)
    else
      var d := Den(e, r, 0.0, lo, hi);
      if d == 0.0 then (0.0, none) else (Num(e, r, 0.0, lo, hi) / d, Fin(e.ln(d)))
  }

  /** exp of the visible scores, and that times the values. */
  function SeenExps(e: Exp, r: Row): int -> real {
    k => if r.seen(k) then e.exp(r.score(k)) else 0.0
  }

  function WeightedValues(e: Exp, r: Row): int -> real {
    k => if r.seen(k) then e.exp(r.score(k)) * r.value(k) else 0.0
  }

  /** The textbook form: sum of exp(score) times value over sum of exp(score), and ln of the latter. */
  lemma AttentionIsSoftmax(e: Exp, r: Row, lo: int, hi: int, none: Ext)
    requires Laws(e)
    ensures var d, n := Sum(SeenExps(e, r), lo, hi), Sum(WeightedValues(e, r), lo, hi);
            && (Blind(r, lo, hi) ==> Attention(e, r, lo, hi, none) == (0.0, none))
            && (!Blind(r, lo, hi) ==> 0.0 < d && Attention(e, r, lo, hi, none) == (n / d, Fin(e.ln(d))))
  {
    forall k | lo <= k < hi
      ensures Weights(e, r, 0.0)(k) == SeenExps(e, r)(k) && Terms(e, r, 0.0)(k) == WeightedValues(e, r)(k)
    {
      TermAtZero(e, r, k);
    }
    SumAgrees(Weights(e, r, 0.0), SeenExps(e, r), lo, hi);
    SumAgrees(Terms(e, r, 0.0), WeightedValues(e, r), lo, hi);
    DenPositive(e, r, 0.0, lo, hi);
  }

  lemma TermAtZero(e: Exp, r: Row, k: int)
    ensures Weight(e, r, 0.0, k) == SeenExps(e, r)(k) && Term(e, r, 0.0, k) == WeightedValues(e, r)(k)
  {
    assert r.score(k) - 0.0 == r.score(k);
  }

  // ---- sums

  lemma DenSplits(e: Exp, r: Row, m: real, lo: int, mid: int, hi: int)
    requires lo <= mid <= hi
    ensures Den(e, r, m, lo, hi) == Den(e, r, m, lo, mid) + Den(e, r, m, mid, hi)
    ensures Num(e, r, m, lo, hi) == Num(e, r, m, lo, mid) + Num(e, r, m, mid, hi)
  {
    SumSplits(Weights(e, r, m), lo, mid, hi);
    SumSplits(Terms(e, r, m), lo, mid, hi);
  }

  lemma UnseenTerm(e: Exp, r: Row, m: real, k: int)
    requires !r.seen(k)
    ensures Weight(e, r, m, k) == 0.0 && Term(e, r, m, k) == 0.0
  {
  }

  lemma DenBlind(e: Exp, r: Row, m: real, lo: int, hi: int)
    requires Blind(r, lo, hi)
    ensures Den(e, r, m, lo, hi) == 0.0 && Num(e, r, m, lo, hi) == 0.0
  {
    forall k | lo <= k < hi ensures Weights(e, r, m)(k) == 0.0 && Terms(e, r, m)(k) == 0.0 {
      UnseenTerm(e, r, m, k);
    }
    SumIsZero(Weights(e, r, m), lo, hi);
    SumIsZero(Terms(e, r, m), lo, hi);
  }

  lemma DenPositive(e: Exp, r: Row, m: real, lo: int, hi: int)
    requires Laws(e)
    ensures 0.0 <= Den(e, r, m, lo, hi)
    ensures !Blind(r, lo, hi) ==> 0.0 < Den(e, r, m, lo, hi)
  {
    SumIsPositive(Weights(e, r, m), lo, hi);
    if !Blind(r, lo, hi) {
      var k :| lo <= k < hi && r.seen(k);
      assert 0.0 < Weights(e, r, m)(k);
    }
  }

  lemma TermRebase(e: Exp, r: Row, m: real, m': real, k: int, f: real)
    requires Laws(e) && f == e.exp(m - m')
    ensures Scaled(Weight(e, r, m, k), Weight(e, r, m', k), f)
    ensures Scaled(Term(e, r, m, k), Term(e, r, m', k), f)
  {
    Rebase(e, r.score(k), m, m');
    var w, v := Weight(e, r, m, k), r.value(k);
    assert Weight(e, r, m', k) == w * f;
    assert (w * f) * v == (w * v) * f;
  }

  /** Changing the reference point rescales both sums. */
  lemma DenRebase(e: Exp, r: Row, m: real, m': real, lo: int, hi: int)
    requires Laws(e)
    ensures Den(e, r, m', lo, hi) == Den(e, r, m, lo, hi) * e.exp(m - m')
    ensures Num(e, r, m', lo, hi) == Num(e, r, m, lo, hi) * e.exp(m - m')
  {
    var f := e.exp(m - m');
    forall k | lo <= k < hi
      ensures Scaled(Weights(e, r, m)(k), Weights(e, r, m')(k), f) && Scaled(Terms(e, r, m)(k), Terms(e, r, m')(k), f)
    {
      TermRebase(e, r, m, m', k, f);
    }
    SumScales(Weights(e, r, m), Weights(e, r, m'), f, lo, hi);
    SumScales(Terms(e, r, m), Terms(e, r, m'), f, lo, hi);
  }

  /** Two rows agree on a key. */
  ghost predicate SameKey(r: Row, r': Row, k: int) {
    r.seen(k) == r'.seen(k) && r.score(k) == r'.score(k) && r.value(k) == r'.value(k)
  }

  /** Two rows that agree on the keys of a range have the same sums. */
  lemma DenAgrees(e: Exp, r: Row, r': Row, m: real, lo: int, hi: int)
    requires forall k :: lo <= k < hi ==> SameKey(r, r', k)
    ensures Den(e, r, m, lo, hi) == Den(e, r', m, lo, hi)
    ensures Num(e, r, m, lo, hi) == Num(e, r', m, lo, hi)
  {
    forall k | lo <= k < hi
      ensures Weights(e, r, m)(k) == Weights(e, r', m)(k) && Terms(e, r, m)(k) == Terms(e, r', m)(k)
    {
      assert SameKey(r, r', k);
    }
    SumAgrees(Weights(e, r, m), Weights(e, r', m), lo, hi);
    SumAgrees(Terms(e, r, m), Terms(e, r', m), lo, hi);
  }

  lemma {:induction false} BlockMaxAgrees(r: Row, r': Row, lo: int, hi: int)
    requires forall k :: lo <= k < hi ==> SameKey(r, r', k)
    ensures BlockMax(r, lo, hi) == BlockMax(r', lo, hi)
    decreases hi - lo
  {
    if lo < hi {
      BlockMaxAgrees(r, r', lo, hi - 1);
      assert SameKey(r, r', hi - 1);
    }
  }

  // ---- the running maximum

  function MaxExt(a: Ext, b: Ext): (m: Ext)
    ensures a != PosInf && b != PosInf ==> m != PosInf
    ensures a.Fin? && m.Fin? ==> a.x <= m.x
    ensures b.Fin? && m.Fin? ==> b.x <= m.x
  {
    if a == NegInf || b == PosInf then b
    else if b == NegInf || a == PosInf then a
    else if a.x < b.x then b else a
  }

  /** No visible score exceeds m: exponentials relative to m are at most 1. */
  ghost predicate Above(r: Row, m: Ext, lo: int, hi: int) {
    m != PosInf && forall k :: lo <= k < hi && r.seen(k) ==> m.Fin? && r.score(k) <= m.x
  }

  /** reduce_max over the masked scores of a block. */
  function BlockMax(r: Row, lo: int, hi: int): (m: Ext)
    ensures Above(r, m, lo, hi)
    decreases hi - lo
  {
    if hi <= lo then NegInf
    else MaxExt(BlockMax(r, lo, hi - 1), if r.seen(hi - 1) then Fin(r.score(hi - 1)) else NegInf)
  }

  /** The number subtracted before exponentiating: 0 when the maximum is -inf. */
  function Reference(m: Ext): real {
    if m.Fin? then m.x else 0.0
  }

  /** row_max, row_sum and acc_o of one row. */
  datatype State = State(max: Ext, sum: real, acc: real)

  /** The state after the keys [lo, hi). */
  ghost predicate Holds(e: Exp, r: Row, st: State, lo: int, hi: int) {
    && Above(r, st.max, lo, hi)
    && st.sum == Den(e, r, Reference(st.max), lo, hi)
    && st.acc == Num(e, r, Reference(st.max), lo, hi)
  }

  /** softmax_rescale_o with Is_first: `mask` is what apply_mask left visible. */
  function FirstBlockState(e: Exp, r: Row, lo: int, hi: int): State {
    var m := BlockMax(r, lo, hi);
    State(m, Den(e, r, Reference(m), lo, hi), Num(e, r, Reference(m), lo, hi))
  }

  datatype MaybeNaN<T> = Number(value: T) | NaN

  /** exp2f((scores_max_prev - scores_max_cur) * scale). Without Check_inf two maxima of -inf are
      subtracted from each other, which is NaN. */
  function RescaleFactor(e: Exp, prev: Ext, cur: Ext, checkInf: bool): MaybeNaN<real> {
    if prev.Fin? then Number(e.exp(prev.x - Reference(cur)))
    else if checkInf || cur.Fin? then Number(0.0)
    else NaN
  }

  /** The sums so far times the factor, plus those of the block. */
  function Rescaled(st: State, m: Ext, f: real, d: real, n: real): State {
    State(m, st.sum * f + d, st.acc * f + n)
  }

  /** softmax_rescale_o for a further block [lo, hi). */
  function NextBlockState(e: Exp, r: Row, st: State, lo: int, hi: int, checkInf: bool): MaybeNaN<State> {
    var m := MaxExt(st.max, BlockMax(r, lo, hi));
    match RescaleFactor(e, st.max, m, checkInf)
    case NaN => NaN
    case Number(f) =>
      Number(Rescaled(st, m, f, Den(e, r, Reference(m), lo, hi), Num(e, r, Reference(m), lo, hi)))
  }

  lemma FirstHolds(e: Exp, r: Row, lo: int, hi: int)
    ensures Holds(e, r, FirstBlockState(e, r, lo, hi), lo, hi)
  {
  }

  /** What the rescale factor does to the sums kept so far. */
  lemma RescaledSums(e: Exp, r: Row, st: State, c: real, f: real, mid: int, hi: int)
    requires Laws(e) && Holds(e, r, st, mid, hi)
    requires f == if st.max.Fin? then e.exp(st.max.x - c) else 0.0
    ensures st.sum * f == Den(e, r, c, mid, hi) && st.acc * f == Num(e, r, c, mid, hi)
  {
    if st.max.Fin? {
      DenRebase(e, r, st.max.x, c, mid, hi);
    } else {
      DenBlind(e, r, c, mid, hi);
    }
  }

  lemma MaxAbove(r: Row, a: Ext, b: Ext, lo: int, mid: int, hi: int)
    requires lo <= mid <= hi && Above(r, a, mid, hi) && Above(r, b, lo, mid)
    ensures Above(r, MaxExt(a, b), lo, hi)
  {
  }

  lemma NextSums(e: Exp, r: Row, st: State, m: Ext, c: real, f: real, lo: int, mid: int, hi: int)
    requires Laws(e) && lo <= mid <= hi && Holds(e, r, st, mid, hi)
    requires f == if st.max.Fin? then e.exp(st.max.x - c) else 0.0
    ensures Rescaled(st, m, f, Den(e, r, c, lo, mid), Num(e, r, c, lo, mid))
         == State(m, Den(e, r, c, lo, hi), Num(e, r, c, lo, hi))
  {
    DenSplits(e, r, c, lo, mid, hi);
    var sum, acc := Den(e, r, c, mid, hi), Num(e, r, c, mid, hi);
    assert st.sum * f == sum && st.acc * f == acc by {
      RescaledSums(e, r, st, c, f, mid, hi);
    }
  }

  lemma FactorIs(e: Exp, prev: Ext, cur: Ext, checkInf: bool)
    requires prev != PosInf && (checkInf || cur.Fin?)
    ensures RescaleFactor(e, prev, cur, checkInf) == Number(if prev.Fin? then e.exp(prev.x - Reference(cur)) else 0.0)
  {
  }

  lemma NextIs(e: Exp, r: Row, st: State, lo: int, mid: int, checkInf: bool, m: Ext, f: real, after: State)
    requires m == MaxExt(st.max, BlockMax(r, lo, mid)) && RescaleFactor(e, st.max, m, checkInf) == Number(f)
    requires Rescaled(st, m, f, Den(e, r, Reference(m), lo, mid), Num(e, r, Reference(m), lo, mid)) == after
    ensures NextBlockState(e, r, st, lo, mid, checkInf) == Number(after)
  {
  }

  /** The blocks come in descending order: [lo, mid) after [mid, hi). The step is a number when
      infinities are checked, or when the row sees some key of the block. */
  lemma NextHolds(e: Exp, r: Row, st: State, lo: int, mid: int, hi: int, checkInf: bool)
    requires Laws(e) && lo <= mid <= hi && Holds(e, r, st, mid, hi)
    requires checkInf || !Blind(r, lo, mid)
    ensures NextBlockState(e, r, st, lo, mid, checkInf).Number?
    ensures Holds(e, r, NextBlockState(e, r, st, lo, mid, checkInf).value, lo, hi)
  {
    var m := MaxExt(st.max, BlockMax(r, lo, mid));
    var c := Reference(m);
    MaxAbove(r, st.max, BlockMax(r, lo, mid), lo, mid, hi);
    FactorIs(e, st.max, m, checkInf);
    var f := if st.max.Fin? then e.exp(st.max.x - c) else 0.0;
    NextSums(e, r, st, m, c, f, lo, mid, hi);
    NextIs(e, r, st, lo, mid, checkInf, m, f, State(m, Den(e, r, c, lo, hi), Num(e, r, c, lo, hi)));
  }

  /** normalize_softmax_lse */
  function Normalize(e: Exp, st: State, none: Ext): (real, Ext) {
    if st.sum == 0.0 then (st.acc, none)
    else (st.acc / st.sum, Fin(Reference(st.max) + e.ln(st.sum)))
  }

  lemma AttentionFrom(e: Exp, r: Row, m: real, lo: int, hi: int, d: real, n: real, none: Ext)
    requires Laws(e) && !Blind(r, lo, hi) && d == Den(e, r, m, lo, hi) && n == Num(e, r, m, lo, hi)
    ensures 0.0 < d && Attention(e, r, lo, hi, none) == (n / d, Fin(m + e.ln(d)))
  {
    DenPositive(e, r, m, lo, hi);
    DenRebase(e, r, m, 0.0, lo, hi);
    var f := e.exp(m);
    assert m - 0.0 == m;
    var d0, n0 := Den(e, r, 0.0, lo, hi), Num(e, r, 0.0, lo, hi);
    assert d0 == d * f && n0 == n * f;
    LnRebase(e, m, d, d0);
    RatioRebase(n, d, f);
    assert n0 / d0 == n / d;
  }

  lemma NormalizeHolds(e: Exp, r: Row, st: State, lo: int, hi: int, none: Ext)
    requires Laws(e) && Holds(e, r, st, lo, hi)
    ensures Normalize(e, st, none) == Attention(e, r, lo, hi, none)
  {
    var m := Reference(st.max);
    if Blind(r, lo, hi) {
      DenBlind(e, r, m, lo, hi);
    } else {
      AttentionFrom(e, r, m, lo, hi, st.sum, st.acc, none);
    }
  }

  lemma RatioRebase(n: real, d: real, f: real)
    requires 0.0 < d && 0.0 < f
    ensures 0.0 < d * f && (n * f) / (d * f) == n / d
  {
    var q := n / d;
    assert q * d == n;
    assert q * (d * f) == n * f;
  }
}
