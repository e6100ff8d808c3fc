/** exp and ln over the reals, given by their laws. */
module ExpLog {
  datatype Exp = Exp(exp: real -> real, ln: real -> real)

  ghost predicate Adds(e: Exp, a: real, b: real) {
    e.exp(a + b) == e.exp(a) * e.exp(b)
  }

  ghost predicate Laws(e: Exp) {
    && (forall a, b :: Adds(e, a, b))
    && (forall a :: 0.0 < e.exp(a))
    && (forall a :: e.ln(e.exp(a)) == a)
    && (forall y :: 0.0 < y ==> e.exp(e.ln(y)) == y)
  }

  lemma ExpSum(e: Exp, a: real, b: real, c: real)
    requires Laws(e) && a + b == c
    ensures e.exp(c) == e.exp(a) * e.exp(b)
  {
    assert Adds(e, a, b);
  }

  lemma ExpZero(e: Exp)
    requires Laws(e)
    ensures e.exp(0.0) == 1.0
  {
    ExpSum(e, 0.0, 0.0, 0.0);
    var x := e.exp(0.0);
    assert 0.0 < x && x == x * x;
    assert x * (x - 1.0) == x * x - x;
  }

  /** Moving the reference point of an exponential. */
  lemma Rebase(e: Exp, s: real, m: real, m': real)
    requires Laws(e)
    ensures e.exp(s - m') == e.exp(s - m) * e.exp(m - m')
  {
    assert Adds(e, s - m, m - m');
    assert (s - m) + (m - m') == s - m';
  }

  /** ln of a rescaled sum. */
  lemma LnRebase(e: Exp, m: real, d: real, y: real)
    requires Laws(e) && 0.0 < d && y == d * e.exp(m)
    ensures 0.0 < y && e.ln(y) == m + e.ln(d)
  {
    ExpSum(e, e.ln(d), m, m + e.ln(d));
    assert e.exp(m + e.ln(d)) == y;
  }
}
