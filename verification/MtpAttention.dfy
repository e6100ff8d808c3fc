/** drafter/train_mtp.py, MTP._attn and MTP.depth_mask: from depth 2 on, a row's causal attention over
    the depth-1 keys is merged with its chain of single keys instead of attending a dense mask. */
module MtpAttention {
  import opened ExpLog
  import opened FlashCombine
  import opened FlashSoftmax
  import opened Numbers
  import opened Sums

  /** A key as row t sees it: its scaled score and its value in one output column. */
  datatype Key = Key(score: real, value: real)

  /** keys[i][j] is column j of depth i + 1. */
  ghost predicate Shaped(keys: seq<seq<Key>>, len: nat, t: nat) {
    keys != [] && t < len && forall i :: 0 <= i < |keys| ==> |keys[i]| == len
  }

  /** Row t of depth_mask(len, depth). */
  function MaskRow(len: nat, depth: nat, t: nat): (row: seq<bool>)
    requires 0 < depth
    ensures |row| == depth * len
  {
    if depth == 1 then seq(len, j => j <= t)
    else
      var row := MaskRow(len, depth - 1, t);
      assert depth * len == (depth - 1) * len + len;
      row + seq(len, j => j == t)
  }

  /** The keys of all depths, concatenated. */
  function Flat(keys: seq<seq<Key>>): seq<Key> {
    if keys == [] then [] else Flat(keys[..|keys| - 1]) + keys[|keys| - 1]
  }

  /** Row t over the concatenated keys under the dense mask. */
  function DenseRow(keys: seq<Key>, mask: seq<bool>): Row {
    Row(k => if 0 <= k < |keys| then keys[k].score else 0.0,
        k => if 0 <= k < |keys| then keys[k].value else 0.0,
        k => 0 <= k < |mask| && mask[k])
  }

  // ---- indexing

  lemma Stride(i: nat, n: nat, len: nat)
    ensures i < n ==> i * len + len <= n * len
  {
    if i < n {
      assert n * len == i * len + len + (n - i - 1) * len;
      TimesNonNegative(n - i - 1, len);
    }
  }

  lemma {:induction false} FlatAt(keys: seq<seq<Key>>, len: nat, i: nat, j: nat)
    requires i < |keys| && j < len && forall i :: 0 <= i < |keys| ==> |keys[i]| == len
    ensures |Flat(keys)| == |keys| * len
    ensures i * len + j < |keys| * len && Flat(keys)[i * len + j] == keys[i][j]
  {
    var n := |keys| - 1;
    FlatLength(keys[..n], len);
    assert |keys| * len == n * len + len;
    Stride(i, n, len);
    if i < n {
      FlatAt(keys[..n], len, i, j);
    }
  }

  lemma {:induction false} FlatLength(keys: seq<seq<Key>>, len: nat)
    requires forall i :: 0 <= i < |keys| ==> |keys[i]| == len
    ensures |Flat(keys)| == |keys| * len
  {
    if keys != [] {
      var n := |keys| - 1;
      FlatLength(keys[..n], len);
      assert |keys| * len == n * len + len;
    }
  }

  /** The mask: depth-1 columns up to t, and column t of every later depth. */
  lemma {:induction false} MaskAt(len: nat, depth: nat, t: nat, i: nat, j: nat)
    requires i < depth && j < len
    ensures i * len + j < depth * len
    ensures MaskRow(len, depth, t)[i * len + j] == if i == 0 then j <= t else j == t
  {
    Stride(i, depth, len);
    if depth > 1 {
      assert depth * len == (depth - 1) * len + len;
      Stride(i, depth - 1, len);
      if i < depth - 1 {
        MaskAt(len, depth - 1, t, i, j);
      }
    }
  }

  // ---- the chain of single keys

  /** The dense row: what it sees in the columns of depth i + 1. */
  ghost predicate Chained(r: Row, keys: seq<seq<Key>>, len: nat, t: nat, i: nat, j: nat)
    requires i < |keys| && j < |keys[i]|
  {
    && r.score(i * len + j) == keys[i][j].score
    && r.value(i * len + j) == keys[i][j].value
    && r.seen(i * len + j) == if i == 0 then j <= t else j == t
  }

  lemma DenseIsChained(keys: seq<seq<Key>>, len: nat, t: nat, i: nat, j: nat)
    requires Shaped(keys, len, t) && i < |keys| && j < len
    ensures Chained(DenseRow(Flat(keys), MaskRow(len, |keys|, t)), keys, len, t, i, j)
  {
    FlatAt(keys, len, i, j);
    MaskAt(len, |keys|, t, i, j);
  }

  /** A range with one visible key. */
  lemma OneSeen(e: Exp, r: Row, lo: int, hi: int, k: int)
    requires lo <= k < hi && forall x :: lo <= x < hi ==> (r.seen(x) <==> x == k)
    ensures Den(e, r, 0.0, lo, hi) == Weight(e, r, 0.0, k) && Num(e, r, 0.0, lo, hi) == Term(e, r, 0.0, k)
  {
    DenSplits(e, r, 0.0, lo, k, hi);
    DenSplits(e, r, 0.0, k, k + 1, hi);
    DenBlind(e, r, 0.0, lo, k);
    DenBlind(e, r, 0.0, k + 1, hi);
    OneTerm(Weights(e, r, 0.0), k);
    OneTerm(Terms(e, r, 0.0), k);
  }

  lemma OneTerm(f: int -> real, k: int)
    ensures Sum(f, k, k + 1) == f(k)
  {
  }

  /** The chain terms of depths 2 .. n, as partial results of one key each. */
  function Chain(keys: seq<seq<Key>>, t: nat, n: nat): (s: seq<Split>)
    requires 1 <= n <= |keys| && forall i :: 0 <= i < |keys| ==> t < |keys[i]|
    ensures |s| == n - 1
    ensures forall i :: 0 <= i < |s| ==> s[i] == Split(keys[i + 1][t].value, Fin(keys[i + 1][t].score))
  {
    seq(n - 1, i requires 0 <= i < n - 1 => Split(keys[i + 1][t].value, Fin(keys[i + 1][t].score)))
  }

  lemma ChainStandsFor(e: Exp, r: Row, keys: seq<seq<Key>>, len: nat, t: nat, i: nat) returns (d: real, n: real)
    requires Laws(e) && Shaped(keys, len, t) && 1 <= i < |keys|
    requires forall j :: 0 <= j < len ==> Chained(r, keys, len, t, i, j)
    ensures StandsFor(e, Split(keys[i][t].value, Fin(keys[i][t].score)), d, n)
    ensures d == Den(e, r, 0.0, i * len, i * len + len) && n == Num(e, r, 0.0, i * len, i * len + len)
  {
    var k := i * len + t;
    forall x | i * len <= x < i * len + len ensures r.seen(x) <==> x == k {
      assert Chained(r, keys, len, t, i, x - i * len);
    }
    OneSeen(e, r, i * len, i * len + len, k);
    assert Chained(r, keys, len, t, i, t);
    d, n := Weight(e, r, 0.0, k), Term(e, r, 0.0, k);
    var s := keys[i][t].score;
    assert s - 0.0 == s;
    assert d == e.exp(s) && n == d * keys[i][t].value;
  }

  lemma AppendStandsFor(e: Exp, s: seq<Split>, ds: seq<real>, ns: seq<real>, x: Split, d: real, n: real)
    requires AllStandFor(e, s, ds, ns) && StandsFor(e, x, d, n)
    ensures AllStandFor(e, s + [x], ds + [d], ns + [n])
    ensures Total(ds + [d]) == Total(ds) + d && Total(ns + [n]) == Total(ns) + n
  {
    assert (ds + [d])[..|ds|] == ds && (ns + [n])[..|ns|] == ns;
  }

  /** The causal result followed by the chain stands for the dense sums, depth by depth. */
  lemma {:induction false} ChainSums(e: Exp, r: Row, keys: seq<seq<Key>>, len: nat, t: nat, first: Split, n: nat)
    returns (ds: seq<real>, ns: seq<real>)
    requires Laws(e) && Shaped(keys, len, t) && 1 <= n <= |keys|
    requires forall i, j :: 0 <= i < |keys| && 0 <= j < len ==> Chained(r, keys, len, t, i, j)
    requires StandsFor(e, first, Den(e, r, 0.0, 0, len), Num(e, r, 0.0, 0, len))
    ensures AllStandFor(e, [first] + Chain(keys, t, n), ds, ns)
    ensures Total(ds) == Den(e, r, 0.0, 0, n * len) && Total(ns) == Num(e, r, 0.0, 0, n * len)
  {
    if n == 1 {
      ds, ns := [Den(e, r, 0.0, 0, len)], [Num(e, r, 0.0, 0, len)];
      assert ds[..0] == [] && ns[..0] == [];
    } else {
      ds, ns := ChainSums(e, r, keys, len, t, first, n - 1);
      var d, m := ChainStandsFor(e, r, keys, len, t, n - 1);
      assert n * len == (n - 1) * len + len;
      TimesNonNegative(n - 1, len);
      DenSplits(e, r, 0.0, 0, (n - 1) * len, n * len);
      var s, x := [first] + Chain(keys, t, n - 1), Chain(keys, t, n)[n - 2];
      assert [first] + Chain(keys, t, n) == s + [x];
      AppendStandsFor(e, s, ds, ns, x, d, m);
      ds, ns := ds + [d], ns + [m];
    }
  }

  // ---- the merge

  /** m: the running maximum of the log-sum-exps, at least each of them. */
  method RunningMax(lse1: real, terms: seq<Split>) returns (m: real)
    requires forall i :: 0 <= i < |terms| ==> terms[i].lse.Fin?
    ensures lse1 <= m && forall i :: 0 <= i < |terms| ==> terms[i].lse.x <= m
  {
    m := lse1;
    for i := 0 to |terms|
      invariant lse1 <= m && forall j :: 0 <= j < i ==> terms[j].lse.x <= m
    {
      m := Max(m, terms[i].lse.x);
    }
  }

  /** num and den relative to m. */
  method Accumulate(e: Exp, first: Split, terms: seq<Split>, m: real) returns (num: real, den: real)
    ensures num == Weighted(e, [first] + terms, Fin(m)) && den == LseSum(e, [first] + terms, m)
  {
    ghost var x, y := Shares(e, [first] + terms, Fin(m)), Exps(e, [first] + terms, m);
    var w := ExpDiff(e, first.lse, Fin(m));
    num, den := Share(e, first, Fin(m)), w;
    assert x[..1][..0] == [] && y[..1][..0] == [];
    for i := 0 to |terms|
      invariant num == Total(x[..i + 1]) && den == Total(y[..i + 1])
    {
      assert x[..i + 2][..i + 1] == x[..i + 1] && y[..i + 2][..i + 1] == y[..i + 1];
      num := num + Share(e, terms[i], Fin(m));
      den := den + ExpDiff(e, terms[i].lse, Fin(m));
    }
    assert x[..|x|] == x && y[..|y|] == y;
  }

  lemma FirstStandsFor(e: Exp, keys: seq<seq<Key>>, len: nat, t: nat, first: Split, r: Row)
    requires Laws(e) && Shaped(keys, len, t)
    requires (first.o, first.lse) == Attention(e, DenseRow(keys[0], MaskRow(len, 1, t)), 0, len, NegInf)
    requires forall j :: 0 <= j < len ==> Chained(r, keys, len, t, 0, j)
    ensures StandsFor(e, first, Den(e, r, 0.0, 0, len), Num(e, r, 0.0, 0, len))
  {
    var causal := DenseRow(keys[0], MaskRow(len, 1, t));
    forall j | 0 <= j < len ensures SameKey(causal, r, j) {
      assert Chained(r, keys, len, t, 0, j);
    }
    DenAgrees(e, causal, r, 0.0, 0, len);
    AttentionStandsFor(e, causal, 0, len, Den(e, causal, 0.0, 0, len), Num(e, causal, 0.0, 0, len));
  }

  /** den is the exponential of the merged log-sum-exp relative to m. */
  lemma DenominatorIs(e: Exp, s: seq<Split>, ds: seq<real>, ns: seq<real>, m: real, d: real)
    requires Laws(e) && AllStandFor(e, s, ds, ns) && 0.0 < d == Total(ds)
    ensures LseSum(e, s, m) == e.exp(e.ln(d) - m)
  {
    LseSumIs(e, s, ds, ns, m);
    ExpSum(e, e.ln(d), 0.0 - m, e.ln(d) - m);
  }

  lemma ShareRebase(e: Exp, s: Split, l: real, m: real)
    requires Laws(e) && s.lse != PosInf
    ensures Scaled(Share(e, s, Fin(l)), Share(e, s, Fin(m)), e.exp(l - m))
  {
    if s.lse.Fin? {
      Rebase(e, s.lse.x, l, m);
      var a, f := e.exp(s.lse.x - l), e.exp(l - m);
      assert (a * f) * s.o == (a * s.o) * f;
    }
  }

  lemma WeightedRebase(e: Exp, s: seq<Split>, l: real, m: real)
    requires Laws(e) && forall i :: 0 <= i < |s| ==> s[i].lse != PosInf
    ensures Weighted(e, s, Fin(m)) == Weighted(e, s, Fin(l)) * e.exp(l - m)
  {
    var x, y := Shares(e, s, Fin(l)), Shares(e, s, Fin(m));
    forall i | 0 <= i < |s| ensures Scaled(x[i], y[i], e.exp(l - m)) {
      ShareRebase(e, s[i], l, m);
    }
    TotalScales(x, y, e.exp(l - m));
  }

  lemma Cancel(num: real, w: real, den: real)
    requires 0.0 < den && num == w * den
    ensures num / den == w
  {
  }

  lemma QuotientFrom(e: Exp, s: seq<Split>, l: real, m: real, q: real)
    requires Laws(e) && (forall i :: 0 <= i < |s| ==> s[i].lse != PosInf)
    requires LseSum(e, s, m) == e.exp(l - m) && Weighted(e, s, Fin(l)) == q
    ensures LseSum(e, s, m) != 0.0 && Weighted(e, s, Fin(m)) / LseSum(e, s, m) == q
  {
    WeightedRebase(e, s, l, m);
    Cancel(Weighted(e, s, Fin(m)), q, e.exp(l - m));
  }

  lemma QuotientIs(e: Exp, s: seq<Split>, ds: seq<real>, ns: seq<real>, m: real, d: real, n: real)
    requires Laws(e) && AllStandFor(e, s, ds, ns) && 0.0 < d == Total(ds) && n == Total(ns)
    ensures LseSum(e, s, m) != 0.0 && Weighted(e, s, Fin(m)) / LseSum(e, s, m) == n / d
  {
    var l := e.ln(d);
    MergedValue(e, s, ds, ns, d, n, l);
    DenominatorIs(e, s, ds, ns, m, d);
    NeverInfinite(e, s, ds, ns);
    QuotientFrom(e, s, l, m, n / d);
  }

  lemma MergeIsDense(e: Exp, keys: seq<seq<Key>>, len: nat, t: nat, first: Split, m: real)
    requires Laws(e) && Shaped(keys, len, t)
    requires (first.o, first.lse) == Attention(e, DenseRow(keys[0], MaskRow(len, 1, t)), 0, len, NegInf)
    ensures var s := [first] + Chain(keys, t, |keys|);
            && LseSum(e, s, m) != 0.0
            && Weighted(e, s, Fin(m)) / LseSum(e, s, m)
               == Attention(e, DenseRow(Flat(keys), MaskRow(len, |keys|, t)), 0, |keys| * len, NegInf).0
  {
    var r := DenseRow(Flat(keys), MaskRow(len, |keys|, t));
    forall i, j | 0 <= i < |keys| && 0 <= j < len ensures Chained(r, keys, len, t, i, j) {
      DenseIsChained(keys, len, t, i, j);
    }
    FirstStandsFor(e, keys, len, t, first, r);
    var ds, ns := ChainSums(e, r, keys, len, t, first, |keys|);
    Stride(0, |keys|, len);
    assert Chained(r, keys, len, t, 0, 0);
    assert r.seen(0);
    DenPositive(e, r, 0.0, 0, |keys| * len);
    var s := [first] + Chain(keys, t, |keys|);
    QuotientIs(e, s, ds, ns, m, Total(ds), Total(ns));
  }

  /** The attention of row t at depth |keys| >= 2, given the causal attention over the depth-1 keys
      and its log-sum-exp: it is one dense softmax over the keys of every depth under depth_mask. */
  method MergedAttention(e: Exp, keys: seq<seq<Key>>, len: nat, t: nat, o1: real, lse1: real) returns (o: real)
    requires Laws(e) && Shaped(keys, len, t) && 2 <= |keys|
    requires (o1, Fin(lse1)) == Attention(e, DenseRow(keys[0], MaskRow(len, 1, t)), 0, len, NegInf)
    ensures o == Attention(e, DenseRow(Flat(keys), MaskRow(len, |keys|, t)), 0, |keys| * len, NegInf).0
  {
    var terms := Chain(keys, t, |keys|);
    var m := RunningMax(lse1, terms);
    var num, den := Accumulate(e, Split(o1, Fin(lse1)), terms, m);
    MergeIsDense(e, keys, len, t, Split(o1, Fin(lse1)), m);
    o := num / den;
  }
}
