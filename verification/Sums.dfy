/** Finite sums of reals, over integer ranges and over sequences. */
module Sums {
  /** f(lo) + ... + f(hi - 1) */
  function Sum(f: int -> real, lo: int, hi: int): real
    decreases hi - lo
  {
    if hi <= lo then 0.0 else Sum(f, lo, hi - 1) + f(hi - 1)
  }

  function Total(x: seq<real>): real {
    if x == [] then 0.0 else Total(x[..|x| - 1]) + x[|x| - 1]
  }

  lemma Distribute(a: real, b: real, c: real)
    ensures (a + b) * c == a * c + b * c
  {
  }

  ghost predicate Scaled(x: real, y: real, c: real) {
    y == x * c
  }

  lemma {:induction false} TotalAppend(x: seq<real>, y: seq<real>)
    ensures Total(x + y) == Total(x) + Total(y)
  {
    if y == [] {
      assert x + y == x;
    } else {
      assert (x + y)[..|x + y| - 1] == x + y[..|y| - 1];
      TotalAppend(x, y[..|y| - 1]);
    }
  }

  lemma TotalInsert(a: seq<real>, v: real, b: seq<real>)
    ensures Total(a + ([v] + b)) == Total(a + b) + v
  {
    TotalAppend(a, [v] + b);
    TotalAppend([v], b);
    TotalAppend(a, b);
    assert [v][..0] == [];
  }

  lemma TotalRemove(x: seq<real>, i: nat)
    requires i < |x|
    ensures Total(x) == Total(x[..i] + x[i + 1..]) + x[i]
  {
    assert x == x[..i] + ([x[i]] + x[i + 1..]);
    TotalInsert(x[..i], x[i], x[i + 1..]);
  }

  lemma {:induction false} SumSplits(f: int -> real, lo: int, mid: int, hi: int)
    requires lo <= mid <= hi
    ensures Sum(f, lo, hi) == Sum(f, lo, mid) + Sum(f, mid, hi)
    decreases hi - mid
  {
    if mid < hi {
      SumSplits(f, lo, mid, hi - 1);
    }
  }

  lemma {:induction false} SumAgrees(f: int -> real, g: int -> real, lo: int, hi: int)
    requires forall k :: lo <= k < hi ==> f(k) == g(k)
    ensures Sum(f, lo, hi) == Sum(g, lo, hi)
    decreases hi - lo
  {
    if lo < hi {
      SumAgrees(f, g, lo, hi - 1);
    }
  }

  lemma {:induction false} SumIsZero(f: int -> real, lo: int, hi: int)
    requires forall k :: lo <= k < hi ==> f(k) == 0.0
    ensures Sum(f, lo, hi) == 0.0
    decreases hi - lo
  {
    if lo < hi {
      SumIsZero(f, lo, hi - 1);
    }
  }

  lemma {:induction false} SumIsPositive(f: int -> real, lo: int, hi: int)
    requires forall k :: lo <= k < hi ==> 0.0 <= f(k)
    ensures 0.0 <= Sum(f, lo, hi)
    ensures (exists k :: lo <= k < hi && 0.0 < f(k)) ==> 0.0 < Sum(f, lo, hi)
    decreases hi - lo
  {
    if lo < hi {
      SumIsPositive(f, lo, hi - 1);
    }
  }

  ghost predicate ScaledOver(f: int -> real, g: int -> real, c: real, lo: int, hi: int) {
    forall k {:trigger Scaled(f(k), g(k), c)} :: lo <= k < hi ==> Scaled(f(k), g(k), c)
  }

  lemma {:induction false} SumScales(f: int -> real, g: int -> real, c: real, lo: int, hi: int)
    requires ScaledOver(f, g, c, lo, hi)
    ensures Sum(g, lo, hi) == Sum(f, lo, hi) * c
    decreases hi - lo
  {
    if lo < hi {
      SumScales(f, g, c, lo, hi - 1);
      assert Scaled(f(hi - 1), g(hi - 1), c);
      ScaledSum(Sum(f, lo, hi - 1), Sum(g, lo, hi - 1), f(hi - 1), g(hi - 1), c);
    }
  }

  ghost predicate AllScaled(x: seq<real>, y: seq<real>, c: real) {
    |x| == |y| && forall i {:trigger Scaled(x[i], y[i], c)} :: 0 <= i < |x| ==> Scaled(x[i], y[i], c)
  }

  lemma ScaledSum(a: real, b: real, x: real, y: real, c: real)
    requires Scaled(a, b, c) && Scaled(x, y, c)
    ensures Scaled(a + x, b + y, c)
  {
    Distribute(a, x, c);
  }

  lemma {:induction false} TotalScales(x: seq<real>, y: seq<real>, c: real)
    requires AllScaled(x, y, c)
    ensures Total(y) == Total(x) * c
  {
    if x != [] {
      var k := |x| - 1;
      TotalScales(x[..k], y[..k], c);
      assert Scaled(x[k], y[k], c);
      ScaledSum(Total(x[..k]), Total(y[..k]), x[k], y[k], c);
    }
  }
}
