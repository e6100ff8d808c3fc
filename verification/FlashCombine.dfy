/** fa2/headers/flash_fwd_kernel.h, combine_attn_seqk_parallel: merging the partial results of the
    splits of one row by their log-sum-exps. */
module FlashCombine {
  import opened ExpLog
  import opened FlashSoftmax
  import opened Sums

  /** What one split wrote for one row and column. */
  datatype Split = Split(o: real, lse: Ext)

  /** Its results stand for a softmax denominator d and numerator n. */
  ghost predicate StandsFor(e: Exp, s: Split, d: real, n: real) {
    && 0.0 <= d
    && (if d == 0.0 then s.lse == NegInf && s.o == 0.0 && n == 0.0 else s.lse == Fin(e.ln(d)) && s.o * d == n)
  }

  /** expf(a - m) with expf(-inf) == 0. */
  function ExpDiff(e: Exp, a: Ext, m: Ext): real {
    if a.Fin? && m.Fin? then e.exp(a.x - m.x) else 0.0
  }

  /** The exponentials of the log-sum-exps relative to m. */
  function Exps(e: Exp, s: seq<Split>, m: real): (x: seq<real>)
    ensures |x| == |s| && forall i :: 0 <= i < |s| ==> x[i] == ExpDiff(e, s[i].lse, Fin(m))
  {
    seq(|s|, i requires 0 <= i < |s| => ExpDiff(e, s[i].lse, Fin(m)))
  }

  function LseSum(e: Exp, s: seq<Split>, m: real): real {
    Total(Exps(e, s, m))
  }

  /** What a split contributes to the output. */
  function Share(e: Exp, s: Split, lse: Ext): real {
    ExpDiff(e, s.lse, lse) * s.o
  }

  function Shares(e: Exp, s: seq<Split>, lse: Ext): (x: seq<real>)
    ensures |x| == |s| && forall i :: 0 <= i < |s| ==> x[i] == Share(e, s[i], lse)
  {
    seq(|s|, i requires 0 <= i < |s| => Share(e, s[i], lse))
  }

  function Weighted(e: Exp, s: seq<Split>, lse: Ext): real {
    Total(Shares(e, s, lse))
  }

  ghost predicate AllStandFor(e: Exp, s: seq<Split>, d: seq<real>, n: seq<real>) {
    && |s| == |d| == |n|
    && forall i {:trigger StandsFor(e, s[i], d[i], n[i])} :: 0 <= i < |s| ==> StandsFor(e, s[i], d[i], n[i])
  }

  lemma AllButLast(e: Exp, s: seq<Split>, d: seq<real>, n: seq<real>)
    requires AllStandFor(e, s, d, n) && s != []
    ensures AllStandFor(e, s[..|s| - 1], d[..|d| - 1], n[..|n| - 1])
  {
  }

  lemma NeverInfinite(e: Exp, s: seq<Split>, d: seq<real>, n: seq<real>)
    requires AllStandFor(e, s, d, n)
    ensures forall i :: 0 <= i < |s| ==> s[i].lse != PosInf
  {
    forall i | 0 <= i < |s| ensures s[i].lse != PosInf {
      assert StandsFor(e, s[i], d[i], n[i]);
    }
  }

  lemma {:induction false} TotalNonNegative(e: Exp, s: seq<Split>, d: seq<real>, n: seq<real>)
    requires AllStandFor(e, s, d, n)
    ensures 0.0 <= Total(d)
    ensures Total(d) == 0.0 ==> Total(n) == 0.0
  {
    if s != [] {
      AllButLast(e, s, d, n);
      TotalNonNegative(e, s[..|s| - 1], d[..|d| - 1], n[..|n| - 1]);
      assert StandsFor(e, s[|s| - 1], d[|s| - 1], n[|s| - 1]);
    }
  }

  lemma ScaleOf(e: Exp, s: Split, d: real, n: real, m: real)
    requires Laws(e) && StandsFor(e, s, d, n)
    ensures ExpDiff(e, s.lse, Fin(m)) == d * e.exp(0.0 - m)
  {
    if 0.0 < d {
      ExpSum(e, e.ln(d), 0.0 - m, e.ln(d) - m);
    }
  }

  lemma ExpsScaled(e: Exp, s: seq<Split>, d: seq<real>, n: seq<real>, m: real)
    requires Laws(e) && AllStandFor(e, s, d, n)
    ensures AllScaled(d, Exps(e, s, m), e.exp(0.0 - m))
  {
    forall i | 0 <= i < |s| ensures Scaled(d[i], Exps(e, s, m)[i], e.exp(0.0 - m)) {
      assert StandsFor(e, s[i], d[i], n[i]);
      ScaleOf(e, s[i], d[i], n[i], m);
    }
  }

  lemma LseSumIs(e: Exp, s: seq<Split>, d: seq<real>, n: seq<real>, m: real)
    requires Laws(e) && AllStandFor(e, s, d, n)
    ensures LseSum(e, s, m) == Total(d) * e.exp(0.0 - m)
  {
    ExpsScaled(e, s, d, n, m);
    TotalScales(d, Exps(e, s, m), e.exp(0.0 - m));
  }

  lemma WeightOf(e: Exp, s: Split, d: real, n: real, l: real)
    requires Laws(e) && StandsFor(e, s, d, n)
    ensures Share(e, s, Fin(l)) == n * e.exp(0.0 - l)
  {
    ScaleOf(e, s, d, n, l);
    if 0.0 < d {
      Regroup(d, e.exp(0.0 - l), s.o);
    }
  }

  lemma Regroup(a: real, b: real, c: real)
    ensures (a * b) * c == (c * a) * b
  {
  }

  lemma SharesScaled(e: Exp, s: seq<Split>, d: seq<real>, n: seq<real>, l: real)
    requires Laws(e) && AllStandFor(e, s, d, n)
    ensures AllScaled(n, Shares(e, s, Fin(l)), e.exp(0.0 - l))
  {
    forall i | 0 <= i < |s| ensures Scaled(n[i], Shares(e, s, Fin(l))[i], e.exp(0.0 - l)) {
      assert StandsFor(e, s[i], d[i], n[i]);
      WeightOf(e, s[i], d[i], n[i], l);
    }
  }

  lemma WeightedIs(e: Exp, s: seq<Split>, d: seq<real>, n: seq<real>, l: real)
    requires Laws(e) && AllStandFor(e, s, d, n)
    ensures Weighted(e, s, Fin(l)) == Total(n) * e.exp(0.0 - l)
  {
    SharesScaled(e, s, d, n, l);
    TotalScales(n, Shares(e, s, Fin(l)), e.exp(0.0 - l));
  }

  lemma WeightedByInfinity(e: Exp, s: seq<Split>)
    ensures Weighted(e, s, PosInf) == 0.0
  {
    var x := Shares(e, s, PosInf);
    assert AllScaled(x, x, 0.0);
    TotalScales(x, x, 0.0);
  }

  lemma ExpInverse(e: Exp, x: real)
    requires Laws(e)
    ensures e.exp(x) * e.exp(0.0 - x) == 1.0
  {
    ExpSum(e, x, 0.0 - x, 0.0);
    ExpZero(e);
  }

  /** ln(sum) + max, whatever the maximum: it only moves the reference point. */
  lemma LogSumIs(e: Exp, sum: real, d: real, m: real)
    requires Laws(e) && 0.0 < d && sum == d * e.exp(0.0 - m)
    ensures 0.0 < sum && e.ln(sum) + m == e.ln(d)
  {
    PositiveProduct(d, e.exp(0.0 - m));
    ExpInverse(e, m);
    var a, b := e.exp(m), e.exp(0.0 - m);
    assert (d * b) * a == d * (a * b);
    LnRebase(e, m, sum, d);
  }

  lemma PositiveProduct(a: real, b: real)
    requires 0.0 < a && 0.0 < b
    ensures 0.0 < a * b
  {
  }

  lemma MergedOutput(e: Exp, o: real, n: real, d: real)
    requires Laws(e) && 0.0 < d && o == n * e.exp(0.0 - e.ln(d))
    ensures o == n / d
  {
    ExpInverse(e, e.ln(d));
    var x := e.exp(0.0 - e.ln(d));
    assert d * x == 1.0;
    assert o * d == n * (d * x);
    assert o * d == n;
  }

  /** The result of a split stands for the sums over its keys. */
  lemma AttentionStandsFor(e: Exp, r: Row, lo: int, hi: int, d: real, n: real)
    requires Laws(e) && d == Den(e, r, 0.0, lo, hi) && n == Num(e, r, 0.0, lo, hi)
    ensures var a := Attention(e, r, lo, hi, NegInf); StandsFor(e, Split(a.0, a.1), d, n)
  {
    DenPositive(e, r, 0.0, lo, hi);
    if Blind(r, lo, hi) {
      DenBlind(e, r, 0.0, lo, hi);
    }
  }

  /** lse_max, or 0 when every split is empty. */
  method LseMax(s: seq<Split>) returns (m: real)
    requires forall i :: 0 <= i < |s| ==> s[i].lse != PosInf
    ensures forall i :: 0 <= i < |s| && s[i].lse.Fin? ==> s[i].lse.x <= m
  {
    var max := NegInf;
    for i := 0 to |s|
      invariant max != PosInf
      invariant forall j :: 0 <= j < i && s[j].lse.Fin? ==> max.Fin? && s[j].lse.x <= max.x
    {
      max := MaxExt(max, s[i].lse);
    }
    m := if max.Fin? then max.x else 0.0;
  }

  method SumOfExps(e: Exp, s: seq<Split>, m: real) returns (sum: real)
    ensures sum == LseSum(e, s, m)
  {
    sum := 0.0;
    ghost var x := Exps(e, s, m);
    for i := 0 to |s|
      invariant sum == Total(x[..i])
    {
      assert x[..i + 1][..i] == x[..i];
      sum := sum + ExpDiff(e, s[i].lse, Fin(m));
    }
    assert x[..|s|] == x;
  }

  /** The outputs scaled by exp(lse_i - lse) and accumulated. */
  method ScaledSum(e: Exp, s: seq<Split>, lse: Ext) returns (o: real)
    ensures o == Weighted(e, s, lse)
  {
    o := 0.0;
    ghost var x := Shares(e, s, lse);
    for i := 0 to |s|
      invariant o == Total(x[..i])
    {
      assert x[..i + 1][..i] == x[..i];
      o := o + Share(e, s[i], lse);
    }
    assert x[..|s|] == x;
  }

  /** The merge is the softmax of the denominators and numerators of the splits taken together:
      output 0 and +inf when none of them saw a key. The reference point subtracted from the
      log-sum-exps is at least each of them, so that no exponential exceeds 1. */
  method Combine(e: Exp, s: seq<Split>, ghost d: seq<real>, ghost n: seq<real>)
      returns (o: real, lse: Ext, reference: real)
    requires Laws(e) && AllStandFor(e, s, d, n)
    ensures Total(d) == 0.0 ==> o == 0.0 && lse == PosInf
    ensures Total(d) != 0.0 ==> o == Total(n) / Total(d) && lse == Fin(e.ln(Total(d)))
    ensures forall i :: 0 <= i < |s| && s[i].lse.Fin? ==> s[i].lse.x <= reference
  {
    NeverInfinite(e, s, d, n);
    reference := LseMax(s);
    var sum := SumOfExps(e, s, reference);
    lse := if sum == 0.0 then PosInf else Fin(e.ln(sum) + reference);
    o := ScaledSum(e, s, lse);
    SumIsZero(e, s, d, n, reference);
    if Total(d) == 0.0 {
      WeightedByInfinity(e, s);
    } else {
      MergedIs(e, s, d, n, reference);
    }
  }

  lemma SumIsZero(e: Exp, s: seq<Split>, d: seq<real>, n: seq<real>, m: real)
    requires Laws(e) && AllStandFor(e, s, d, n)
    ensures 0.0 <= Total(d)
    ensures LseSum(e, s, m) == 0.0 <==> Total(d) == 0.0
  {
    TotalNonNegative(e, s, d, n);
    LseSumIs(e, s, d, n, m);
    if Total(d) != 0.0 {
      PositiveProduct(Total(d), e.exp(0.0 - m));
    }
  }

  lemma MergedIs(e: Exp, s: seq<Split>, d: seq<real>, n: seq<real>, m: real)
    requires Laws(e) && AllStandFor(e, s, d, n) && 0.0 < Total(d)
    ensures e.ln(LseSum(e, s, m)) + m == e.ln(Total(d))
    ensures Weighted(e, s, Fin(e.ln(Total(d)))) == Total(n) / Total(d)
  {
    MergedLse(e, s, d, n, m, Total(d));
    MergedValue(e, s, d, n, Total(d), Total(n), e.ln(Total(d)));
  }

  lemma MergedLse(e: Exp, s: seq<Split>, d: seq<real>, n: seq<real>, m: real, total: real)
    requires Laws(e) && AllStandFor(e, s, d, n) && 0.0 < total == Total(d)
    ensures e.ln(LseSum(e, s, m)) + m == e.ln(total)
  {
    LseSumIs(e, s, d, n, m);
    LogSumIs(e, LseSum(e, s, m), total, m);
  }

  lemma MergedValue(e: Exp, s: seq<Split>, d: seq<real>, n: seq<real>, td: real, tn: real, l: real)
    requires Laws(e) && AllStandFor(e, s, d, n) && 0.0 < td && tn == Total(n) && l == e.ln(td)
    ensures Weighted(e, s, Fin(l)) == tn / td
  {
    WeightedIs(e, s, d, n, l);
    MergedOutput(e, Weighted(e, s, Fin(l)), tn, td);
  }
}
