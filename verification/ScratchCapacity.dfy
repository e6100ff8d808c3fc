/** bench/mq3d_capacity_property.py: the scratch capacity derived from the limits of the int4 3D
    policy, against every batch the policy lets through. */
module ScratchCapacity {
  import opened Numbers

  /** The limits, which a configuration gives as positive numbers. */
  datatype Limits = Limits(tokens: int, seqs: int, seqThreshold: int, queryLen: int)

  predicate Positive(c: Limits) {
    0 < c.tokens && 0 < c.seqs && 0 < c.seqThreshold && 0 < c.queryLen
  }

  function DerivedCapacity(c: Limits): int {
    MinInt(c.tokens, MinInt(c.seqs, c.seqThreshold) * c.queryLen)
  }

  function Longest(q: seq<int>): int
    requires q != []
  {
    if |q| == 1 then q[0] else MaxInt(q[0], Longest(q[1..]))
  }

  function Sum(q: seq<int>): int {
    if q == [] then 0 else q[0] + Sum(q[1..])
  }

  predicate PolicyEligible(q: seq<int>, c: Limits) {
    && 1 <= |q|
    && |q| <= c.seqThreshold
    && |q| <= c.seqs
    && Longest(q) <= c.queryLen
    && Sum(q) <= c.tokens
  }

  /** The policy, element by element. */
  lemma {:induction false} EligibleIff(q: seq<int>, c: Limits)
    ensures PolicyEligible(q, c)
       <==> 1 <= |q| <= c.seqThreshold && |q| <= c.seqs && Sum(q) <= c.tokens
            && forall i :: 0 <= i < |q| ==> q[i] <= c.queryLen
  {
    if q != [] {
      LongestIff(q, c.queryLen);
    }
  }

  lemma {:induction false} LongestIff(q: seq<int>, n: int)
    requires q != []
    ensures Longest(q) <= n <==> forall i :: 0 <= i < |q| ==> q[i] <= n
  {
    if |q| > 1 {
      LongestIff(q[1..], n);
      assert q == [q[0]] + q[1..];
      assert forall i :: 0 <= i < |q[1..]| ==> q[1..][i] == q[i + 1];
      assert forall i :: 1 <= i < |q| ==> q[i] == q[1..][i - 1];
    }
  }

  lemma {:induction false} SumBounded(q: seq<int>)
    requires q != []
    ensures Sum(q) <= |q| * Longest(q)
  {
    if |q| > 1 {
      SumBounded(q[1..]);
      TimesMonotone(Longest(q[1..]), Longest(q), |q| - 1);
      assert |q| * Longest(q) == (|q| - 1) * Longest(q) + Longest(q);
    }
  }

  lemma EligibleFits(q: seq<int>, c: Limits)
    requires Positive(c) && PolicyEligible(q, c)
    ensures Sum(q) <= DerivedCapacity(c)
  {
    SumBounded(q);
    TimesMonotone(Longest(q), c.queryLen, |q|);
    TimesMonotone(|q|, MinInt(c.seqs, c.seqThreshold), c.queryLen);
  }

  /** total tokens as full queries of length len and one last query of at most len. */
  lemma {:induction false} Fill(total: int, len: int, n: nat) returns (q: seq<int>)
    requires 0 < total && 0 < len && total <= n * len
    ensures 1 <= |q| <= n && Sum(q) == total && Longest(q) <= len
    ensures forall i :: 0 <= i < |q| ==> 0 < q[i]
    decreases n
  {
    if total <= len {
      q := [total];
      assert q[1..] == [];
      OneOrMore(n, len, total);
    } else {
      assert n * len == (n - 1) * len + len;
      OneOrMore(n, len, total);
      q := Fill(total - len, len, n - 1);
      var rest := q;
      q := [len] + rest;
      assert q[1..] == rest;
    }
  }

  lemma OneOrMore(n: nat, len: int, total: int)
    requires 0 < total <= n * len
    ensures 1 <= n
  {
  }

  /** The derived capacity is the largest number of query tokens of any eligible batch: every one
      fits, and some batch of positive query lengths needs all of it. */
  lemma CapacityIsExact(c: Limits)
    requires Positive(c)
    ensures forall q :: PolicyEligible(q, c) ==> Sum(q) <= DerivedCapacity(c)
    ensures exists q :: PolicyEligible(q, c) && Sum(q) == DerivedCapacity(c) && forall i :: 0 <= i < |q| ==> 0 < q[i]
  {
    forall q | PolicyEligible(q, c) ensures Sum(q) <= DerivedCapacity(c) {
      EligibleFits(q, c);
    }
    var n := MinInt(c.seqs, c.seqThreshold);
    TimesMonotone(1, c.queryLen, n);
    var q := Fill(DerivedCapacity(c), c.queryLen, n);
    assert PolicyEligible(q, c);
  }
}
