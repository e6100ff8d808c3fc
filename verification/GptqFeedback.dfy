/** drafter/gptq_utils.py, gptq_quantize: what GPTQ promises of the codes and scales of a row, apart from how
    they are computed. Each column is rounded after the errors of all columns before it have been fed into it. */
module GptqFeedback {
  import opened Numbers
  import opened RoundToNearest
  import opened NearestCodes
  import opened Sums
  import opened Gptq

  /** What the error of column k takes from column c. */
  function Fed(err: Row, h: seq<Row>, c: nat): int -> real {
    (k: int) => if 0 <= k < |err| && k < |h| && c < |h[k]| then Pushed(err[k], h[k][c]) else 0.0
  }

  function Pushed(e: real, x: real): real {
    e * x
  }

  /** Column c once the errors of the first n columns are fed into it. */
  function Compensated(w0: Row, h: seq<Row>, err: Row, c: nat, n: nat): real
    requires c < |w0|
  {
    w0[c] - Sum(Fed(err, h, c), 0, n)
  }

  /** Column c is rounded to the nearest multiple of its scale that has a code, and its error is what that
      moves it by, in units of the factor's diagonal. */
  ghost predicate FedBack(w0: Row, h: seq<Row>, err: Row, c: nat, code: int, s: real, qmax: int)
    requires c < |w0| && c < |err| && c < |h| && c < |h[c]|
  {
    var x := Compensated(w0, h, err, c, c);
    0.0 < s && NearestInRange(x / s, code, qmax) && err[c] * h[c][c] == x - Product(s, code)
  }

  // ---- the scale of a group

  /** The scale for the fraction f of the largest magnitude. */
  ghost predicate IsClipped(y: Row, f: real, qmax: int, s: real) {
    1 <= qmax && exists a :: IsMagnitude(y, a) && s == ClippedScale(a, f, qmax)
  }

  function ClippedScale(a: real, f: real, qmax: int): real
    requires 1 <= qmax
  {
    Max(a * f / qmax as real, 0.00000001)
  }

  /** The squared error of rounding y to multiples of s: over the nearest codes. */
  ghost predicate HasError(y: Row, s: real, qmax: int, e: real) {
    exists q: seq<int> :: RoundsTo(y, s, qmax, q) && e == Sum(Misses(y, s, q), 0, |y|)
  }

  ghost predicate RoundsTo(y: Row, s: real, qmax: int, q: seq<int>) {
    |q| == |y| && 0.0 < s && forall k :: 0 <= k < |y| ==> NearestInRange(y[k] / s, q[k], qmax)
  }

  function Misses(y: Row, s: real, q: seq<int>): int -> real {
    (k: int) => if 0 <= k < |y| && k < |q| then Squared(Product(s, q[k]) - y[k]) else 0.0
  }

  /** Candidate k of the search is the scale for the fraction 0.75 + 0.025 k, with its error. */
  ghost predicate IsCandidate(y: Row, qmax: int, k: nat, s: real, e: real) {
    IsClipped(y, 0.75 + 0.025 * k as real, qmax, s) && HasError(y, s, qmax, e)
  }

  /** The scale chosen for a group: the one that reaches its largest magnitude or, when clipping is searched,
      the first of the eleven candidates with the least error. */
  ghost predicate IsChosen(y: Row, p: Params, s: real) {
    if !p.mseClip then IsClipped(y, 1.0, p.qmax, s)
    else exists k: nat, e :: k < 11 && IsCandidate(y, p.qmax, k, s, e) && LeastAt(y, p.qmax, k, e)
  }

  ghost predicate LeastAt(y: Row, qmax: int, k: nat, e: real) {
    forall k': nat, s', e' :: k' < 11 && IsCandidate(y, qmax, k', s', e') ==> if k' < k then e < e' else e <= e'
  }

  // ---- the whole row

  /** The columns of group b as they are when its scale is chosen: fed by the groups before it. */
  function GroupAt(w0: Row, h: seq<Row>, err: Row, start: nat, g: nat): (y: Row)
    requires start + g <= |w0|
    ensures |y| == g
  {
    seq(g, k requires 0 <= k < g => Compensated(w0, h, err, start + k, start))
  }

  ghost predicate ColumnFedBack(w0: Row, h: seq<Row>, p: Params, err: Row, codes: seq<int>, scales: Row, c: nat)
    requires 0 < p.group
  {
    && c < |w0| && c < |err| && c < |codes| && c < |h| && c < |h[c]| && c / p.group < |scales|
    && FedBack(w0, h, err, c, codes[c], scales[c / p.group], p.qmax)
  }

  ghost predicate GroupChosen(w0: Row, h: seq<Row>, p: Params, err: Row, scales: Row, b: nat) {
    && b < |scales| && b * p.group + p.group <= |w0|
    && IsChosen(GroupAt(w0, h, err, b * p.group, p.group), p, scales[b])
  }

  /** The errors explain the codes and the scales of the row. */
  ghost predicate Explains(w0: Row, h: seq<Row>, p: Params, codes: seq<int>, scales: Row, err: Row)
    requires 0 < p.group
  {
    && |err| == |codes| == |w0| && |scales| * p.group == |w0|
    && (forall c: nat :: c < |w0| ==> ColumnFedBack(w0, h, p, err, codes, scales, c))
    && (forall b: nat :: b < |scales| ==> GroupChosen(w0, h, p, err, scales, b))
  }

  ghost predicate Explained(w0: Row, h: seq<Row>, p: Params, codes: seq<int>, scales: Row)
    requires 0 < p.group
  {
    exists err :: Explains(w0, h, p, codes, scales, err)
  }

  // ---- the reference does that

  lemma FedAgrees(err: Row, err': Row, h: seq<Row>, c: nat, n: nat)
    requires n <= |err| && n <= |err'| && forall k :: 0 <= k < n ==> err[k] == err'[k]
    ensures Sum(Fed(err, h, c), 0, n) == Sum(Fed(err', h, c), 0, n)
  {
    SumAgrees(Fed(err, h, c), Fed(err', h, c), 0, n);
  }

  lemma CompensatedStays(w0: Row, h: seq<Row>, err: Row, err': Row, c: nat, n: nat)
    requires c < |w0| && n <= |err| <= |err'| && err'[..|err|] == err
    ensures Compensated(w0, h, err, c, n) == Compensated(w0, h, err', c, n)
  {
    assert forall k :: 0 <= k < |err| ==> err[k] == err'[..|err|][k];
    FedAgrees(err, err', h, c, n);
  }

  lemma FedBackStays(w0: Row, h: seq<Row>, err: Row, err': Row, c: nat, code: int, s: real, qmax: int)
    requires c < |w0| && c < |err| <= |err'| && c < |h| && c < |h[c]| && err'[..|err|] == err
    requires FedBack(w0, h, err, c, code, s, qmax)
    ensures FedBack(w0, h, err', c, code, s, qmax)
  {
    assert err'[..|err|][c] == err[c];
    CompensatedStays(w0, h, err, err', c, c);
  }

  lemma GroupAtStays(w0: Row, h: seq<Row>, err: Row, err': Row, start: nat, g: nat)
    requires start + g <= |w0| && start <= |err| <= |err'| && err'[..|err|] == err
    ensures GroupAt(w0, h, err, start, g) == GroupAt(w0, h, err', start, g)
  {
    forall k: nat | k < g ensures GroupAt(w0, h, err, start, g)[k] == GroupAt(w0, h, err', start, g)[k] {
      CompensatedStays(w0, h, err, err', start + k, start);
    }
  }

  /** The remaining weights are the original ones with the errors so far fed into them. */
  ghost predicate Remaining(w0: Row, h: seq<Row>, st: State, err: Row) {
    && |st.w| == |w0| && |err| == |st.codes| <= |w0|
    && forall c: nat :: |err| <= c < |w0| ==> st.w[c] == Compensated(w0, h, err, c, |err|)
  }

  lemma FeedOne(err: Row, e: real, h: seq<Row>, c: nat)
    requires |err| < |h| && c < |h[|err|]|
    ensures Sum(Fed(err + [e], h, c), 0, |err| + 1) == Sum(Fed(err, h, c), 0, |err|) + Pushed(e, h[|err|][c])
  {
    FedAgrees(err, err + [e], h, c, |err|);
  }

  lemma ErrorTimes(x: real, q: real, d: real)
    requires d != 0.0
    ensures (x - q) / d * d == x - q
  {
  }

  /** One column. */
  lemma ColumnFeeds(w0: Row, h: seq<Row>, st: State, err: Row, s: real, qmax: int) returns (e: real)
    requires Factor(h, |w0|) && Remaining(w0, h, st, err) && |err| < |w0| && 0.0 < s && 1 <= qmax
    ensures var st' := Column(st, s, h, |err|, qmax);
            && Remaining(w0, h, st', err + [e])
            && st'.codes[..|err|] == st.codes && st'.scales == st.scales
            && FedBack(w0, h, err + [e], |err|, st'.codes[|err|], s, qmax)
  {
    var j := |err|;
    var x := st.w[j];
    e := ErrorOf(x, s, h[j][j], qmax);
    forall c: nat | j + 1 <= c < |w0|
      ensures Minus(st.w, e, h[j], j)[c] == Compensated(w0, h, err + [e], c, j + 1)
    {
      FeedOne(err, e, h, c);
    }
    FedAgrees(err, err + [e], h, j, j);
    CodeIsNearestInRange(x, s, qmax);
    ErrorTimes(x, Rounded(x, s, qmax), h[j][j]);
    assert Rounded(x, s, qmax) == Product(s, Code(x, s, qmax));
  }

  /** The columns of a group that are done are explained, with its scale. */
  ghost predicate ColumnsFed(w0: Row, h: seq<Row>, err: Row, codes: seq<int>, s: real, qmax: int, j: nat, n: nat) {
    forall c: nat :: j <= c < j + n ==>
      c < |w0| && c < |err| && c < |codes| && c < |h| && c < |h[c]| && FedBack(w0, h, err, c, codes[c], s, qmax)
  }

  /** From st, n columns later. */
  ghost predicate Later(w0: Row, h: seq<Row>, st: State, err: Row, cur: State, err': Row, s: real, n: nat, qmax: int) {
    && |err| == |st.codes| && |err'| == |err| + n && err'[..|err|] == err
    && Remaining(w0, h, cur, err') && cur.codes[..|err|] == st.codes && cur.scales == st.scales
    && ColumnsFed(w0, h, err', cur.codes, s, qmax, |err|, n)
  }

  lemma NextColumn(w0: Row, h: seq<Row>, st: State, err: Row, cur: State, err1: Row, s: real, n: nat, qmax: int,
                   j: nat, after: State) returns (err': Row)
    requires Factor(h, |w0|) && Later(w0, h, st, err, cur, err1, s, n, qmax) && j == |err| + n
    requires j < |w0| && 0.0 < s && 1 <= qmax && after == Column(cur, s, h, j, qmax)
    ensures Later(w0, h, st, err, after, err', s, n + 1, qmax)
  {
    var e := ColumnFeeds(w0, h, cur, err1, s, qmax);
    err' := err1 + [e];
    OneMoreFed(w0, h, err1, e, cur.codes, after.codes, s, qmax, |err|, n);
    assert err'[..|err|] == err1[..|err|];
    assert after.codes[..|err|] == cur.codes[..|err|];
  }

  lemma LaterAtOnce(w0: Row, h: seq<Row>, st: State, err: Row, s: real, qmax: int)
    requires Remaining(w0, h, st, err)
    ensures Later(w0, h, st, err, st, err, s, 0, qmax)
  {
    assert err[..|err|] == err && st.codes[..|err|] == st.codes;
  }

  lemma {:induction false} ColumnsFeed(w0: Row, h: seq<Row>, st: State, err: Row, s: real, n: nat, qmax: int)
      returns (cur: State, err': Row)
    requires Factor(h, |w0|) && Remaining(w0, h, st, err) && |err| + n <= |w0| && 0.0 < s && 1 <= qmax
    ensures |st.w| == |w0| && cur == Columns(st, s, h, |err|, n, qmax)
    ensures Later(w0, h, st, err, cur, err', s, n, qmax)
    decreases n
  {
    if n == 0 {
      cur, err' := st, err;
      LaterAtOnce(w0, h, st, err, s, qmax);
    } else {
      var before, err1 := ColumnsFeed(w0, h, st, err, s, n - 1, qmax);
      cur := Columns(st, s, h, |err|, n, qmax);
      err' := FeedStep(w0, h, st, err, before, err1, cur, s, n, qmax);
    }
  }

  lemma FeedStep(w0: Row, h: seq<Row>, st: State, err: Row, before: State, err1: Row, cur: State, s: real, n: nat,
                 qmax: int) returns (err': Row)
    requires |st.w| == |w0| && Factor(h, |w0|) && 0 < n && |err| + n <= |w0| && 0.0 < s && 1 <= qmax
    requires before == Columns(st, s, h, |err|, n - 1, qmax) && cur == Columns(st, s, h, |err|, n, qmax)
    requires Later(w0, h, st, err, before, err1, s, n - 1, qmax)
    ensures Later(w0, h, st, err, cur, err', s, n, qmax)
  {
    NextOfColumns(st, s, h, |err|, n, qmax, before, cur);
    err' := NextColumn(w0, h, st, err, before, err1, s, n - 1, qmax, |err| + n - 1, cur);
  }

  lemma NextOfColumns(st: State, s: real, h: seq<Row>, j: nat, n: nat, qmax: int, before: State, cur: State)
    requires Factor(h, |st.w|) && j + n <= |st.w| && 0.0 < s && 0 < n
    requires before == Columns(st, s, h, j, n - 1, qmax) && cur == Columns(st, s, h, j, n, qmax)
    ensures |before.w| == |st.w| && cur == Column(before, s, h, j + n - 1, qmax)
  {
  }

  lemma OneMoreFed(w0: Row, h: seq<Row>, err: Row, e: real, codes: seq<int>, codes': seq<int>, s: real, qmax: int,
                   j: nat, n: nat)
    requires ColumnsFed(w0, h, err, codes, s, qmax, j, n) && j + n == |err| == |codes| && |codes'| == |codes| + 1
    requires |err| < |w0| && |err| < |h| && |err| < |h[|err|]| && codes'[..|codes|] == codes
    requires FedBack(w0, h, err + [e], |err|, codes'[|err|], s, qmax)
    ensures ColumnsFed(w0, h, err + [e], codes', s, qmax, j, n + 1)
  {
    forall c: nat | j <= c < j + n ensures FedBack(w0, h, err + [e], c, codes'[c], s, qmax) {
      assert codes'[..|codes|][c] == codes[c];
      FedBackStays(w0, h, err, err + [e], c, codes[c], s, qmax);
    }
  }

  // ---- the scale search

  lemma {:induction false} ErrorIs(y: Row, s: real, qmax: int) returns (q: seq<int>)
    requires 0.0 < s && 1 <= qmax
    ensures RoundsTo(y, s, qmax, q) && RoundingError(y, s, qmax) == RowSquare(Moves(y, s, q))
  {
    if y == [] {
      q := [];
    } else {
      var rest := ErrorIs(y[1..], s, qmax);
      q := [Code(y[0], s, qmax)] + rest;
      CodeIsNearestInRange(y[0], s, qmax);
      forall k | 0 <= k < |y| ensures NearestInRange(y[k] / s, q[k], qmax) {
        assert k > 0 ==> y[k] == y[1..][k - 1] && q[k] == rest[k - 1];
      }
      MovesCons(y, s, q, qmax);
    }
  }

  lemma RowSquareCons(x: Row)
    requires x != []
    ensures RowSquare(x) == Squared(x[0]) + RowSquare(x[1..])
  {
  }

  lemma RoundingErrorCons(y: Row, s: real, qmax: int)
    requires 0.0 < s && y != []
    ensures RoundingError(y, s, qmax) == Squared(Rounded(y[0], s, qmax) - y[0]) + RoundingError(y[1..], s, qmax)
  {
  }

  lemma MovesFirst(y: Row, s: real, q: seq<int>, qmax: int)
    requires 0.0 < s && y != [] && |q| == |y| && q[0] == Code(y[0], s, qmax)
    ensures Moves(y, s, q)[0] == Rounded(y[0], s, qmax) - y[0] && Moves(y, s, q)[1..] == Moves(y[1..], s, q[1..])
  {
  }

  lemma MovesCons(y: Row, s: real, q: seq<int>, qmax: int)
    requires 0.0 < s && y != [] && |q| == |y| && q[0] == Code(y[0], s, qmax)
    requires RoundingError(y[1..], s, qmax) == RowSquare(Moves(y[1..], s, q[1..]))
    ensures RoundingError(y, s, qmax) == RowSquare(Moves(y, s, q))
  {
    RowSquareCons(Moves(y, s, q));
    RoundingErrorCons(y, s, qmax);
    MovesFirst(y, s, q, qmax);
  }

  function Moves(y: Row, s: real, q: seq<int>): (d: Row)
    requires |q| == |y|
    ensures |d| == |y| && forall k :: 0 <= k < |y| ==> d[k] == Product(s, q[k]) - y[k]
  {
    seq(|y|, k requires 0 <= k < |y| => Product(s, q[k]) - y[k])
  }

  /** The nearest codes are unique, so there is one error. */
  lemma NearestIsUnique(y: real, n: int, m: int, qmax: int)
    requires NearestInRange(y, n, qmax) && NearestInRange(y, m, qmax)
    ensures n == m
  {
    assert Nearer(n, m, y) && Nearer(m, n, y);
    if n != m {
      NoTie(n, m, y, qmax);
    }
  }

  /** Halfway between two even integers there is a nearer one. */
  lemma NoTie(n: int, m: int, y: real, qmax: int)
    requires NearestInRange(y, n, qmax) && IsCode(m, qmax) && n != m && n % 2 == 0 && m % 2 == 0
    ensures Distance(n, y) != Distance(m, y)
  {
    var z := (n + m) / 2;
    assert IsCode(z, qmax) && Nearer(n, z, y);
    assert z + z == n + m;
    assert n as real + m as real == z as real + z as real;
  }

  lemma ErrorIsUnique(y: Row, s: real, qmax: int, e: real)
    requires 0.0 < s && 1 <= qmax
    ensures HasError(y, s, qmax, e) <==> e == RoundingError(y, s, qmax)
  {
    var q := ErrorIs(y, s, qmax);
    MissesSum(y, s, q);
    if HasError(y, s, qmax, e) {
      var q': seq<int> :| RoundsTo(y, s, qmax, q') && e == Sum(Misses(y, s, q'), 0, |y|);
      forall k | 0 <= k < |y| ensures q[k] == q'[k] {
        NearestIsUnique(y[k] / s, q[k], q'[k], qmax);
      }
      assert q == q';
    }
  }

  lemma MissAt(y: Row, s: real, q: seq<int>, k: int)
    requires |q| == |y| && 0 <= k < |y|
    ensures Misses(y, s, q)(k) == Squared(Moves(y, s, q)[k])
  {
    var d := Product(s, q[k]) - y[k];
    assert Moves(y, s, q)[k] == d;
  }

  lemma MissesSum(y: Row, s: real, q: seq<int>)
    requires |q| == |y|
    ensures RowSquare(Moves(y, s, q)) == Sum(Misses(y, s, q), 0, |y|)
  {
    forall k | 0 <= k < |y| ensures Misses(y, s, q)(k) == Squared(Moves(y, s, q)[k]) {
      MissAt(y, s, q, k);
    }
    RowSquareIsSum(Moves(y, s, q), Misses(y, s, q));
  }

  lemma ClippedIs(y: Row, f: real, qmax: int, s: real)
    requires 1 <= qmax
    ensures IsClipped(y, f, qmax, s) <==> s == ClippedScale(AMax(y), f, qmax)
  {
    AMaxIsMagnitude(y);
    if IsClipped(y, f, qmax, s) {
      var a :| IsMagnitude(y, a) && s == ClippedScale(a, f, qmax);
      MagnitudeIsAMax(y, a);
    }
  }

  lemma CandidateIs(y: Row, qmax: int, k: nat, s: real, e: real)
    requires 1 <= qmax
    ensures IsCandidate(y, qmax, k, s, e) <==> s == Candidate(y, k, qmax) && e == RoundingError(y, s, qmax)
  {
    ClippedIs(y, 0.75 + 0.025 * k as real, qmax, s);
    CandidateClips(y, qmax, k);
    if 0.0 < s {
      ErrorIsUnique(y, s, qmax, e);
    }
  }

  lemma CandidateClips(y: Row, qmax: int, k: nat)
    requires 1 <= qmax
    ensures Candidate(y, k, qmax) == ClippedScale(AMax(y), 0.75 + 0.025 * k as real, qmax)
    ensures Scale(y, qmax, SCALE_FLOOR) == ClippedScale(AMax(y), 1.0, qmax)
  {
    assert AMax(y) * 1.0 == AMax(y);
  }

  lemma {:induction false} BestIsFirst(y: Row, n: nat, qmax: int) returns (k: nat)
    requires 1 <= qmax && 0 < n
    ensures k < n && Best(y, n, qmax) == Candidate(y, k, qmax)
    ensures forall k' :: 0 <= k' < n ==>
      var e, e' := RoundingError(y, Best(y, n, qmax), qmax), RoundingError(y, Candidate(y, k', qmax), qmax);
      if k' < k then e < e' else e <= e'
  {
    k := 0;
    if n > 1 {
      k := BestIsFirst(y, n - 1, qmax);
      if Best(y, n, qmax) != Best(y, n - 1, qmax) {
        k := n - 1;
      }
    }
  }

  lemma GroupScaleIsChosen(y: Row, p: Params)
    requires ValidParams(p)
    ensures IsChosen(y, p, GroupScale(y, p))
  {
    if p.mseClip {
      var k := BestIsFirst(y, 11, p.qmax);
      var s := Best(y, 11, p.qmax);
      var e := RoundingError(y, s, p.qmax);
      CandidateIs(y, p.qmax, k, s, e);
      forall k': nat, s', e' | k' < 11 && IsCandidate(y, p.qmax, k', s', e')
        ensures if k' < k then e < e' else e <= e'
      {
        CandidateIs(y, p.qmax, k', s', e');
      }
      assert LeastAt(y, p.qmax, k, e);
    } else {
      ClippedIs(y, 1.0, p.qmax, Scale(y, p.qmax, SCALE_FLOOR));
      CandidateClips(y, p.qmax, 0);
    }
  }

  // ---- group by group

  /** The columns and the groups so far are explained, and the rest is fed by their errors. */
  ghost predicate SoFar(w0: Row, h: seq<Row>, p: Params, st: State, err: Row)
    requires 0 < p.group
  {
    && Remaining(w0, h, st, err) && |st.scales| * p.group == |err|
    && (forall c: nat :: c < |err| ==> ColumnFedBack(w0, h, p, err, st.codes, st.scales, c))
    && (forall b: nat :: b < |st.scales| ==> GroupChosen(w0, h, p, err, st.scales, b))
  }

  lemma InGroup(b: nat, g: nat, c: nat)
    requires 0 < g && b * g <= c < b * g + g
    ensures c / g == b
  {
    SameMultiple(c, g, c / g, b);
  }

  lemma BeforeGroup(b: nat, n: nat, g: nat, c: nat)
    requires 0 < g && b < n
    ensures b * g + g <= n * g
  {
    TimesMonotone(b + 1, n, g);
    assert (b + 1) * g == b * g + g;
  }

  lemma OldColumns(w0: Row, h: seq<Row>, p: Params, st: State, err: Row, st': State, err': Row, c: nat)
    requires 0 < p.group && c < |err| <= |err'| && err'[..|err|] == err && |err| == |st.codes| <= |st'.codes|
    requires st'.codes[..|st.codes|] == st.codes && |st.scales| <= |st'.scales|
    requires st'.scales[..|st.scales|] == st.scales && ColumnFedBack(w0, h, p, err, st.codes, st.scales, c)
    ensures ColumnFedBack(w0, h, p, err', st'.codes, st'.scales, c)
  {
    assert st'.codes[..|st.codes|][c] == st.codes[c];
    assert st'.scales[..|st.scales|][c / p.group] == st.scales[c / p.group];
    FedBackStays(w0, h, err, err', c, st.codes[c], st.scales[c / p.group], p.qmax);
  }

  lemma OldGroup(w0: Row, h: seq<Row>, p: Params, scales: Row, s: real, err: Row, err': Row, b: nat)
    requires 0 < p.group && |scales| * p.group == |err| <= |err'| && err'[..|err|] == err
    requires b < |scales| && GroupChosen(w0, h, p, err, scales, b)
    ensures GroupChosen(w0, h, p, err', scales + [s], b)
  {
    BeforeGroup(b, |scales|, p.group, 0);
    GroupAtStays(w0, h, err, err', b * p.group, p.group);
  }

  /** The group that starts at the columns done so far, with its errors. */
  ghost predicate NextGroup(w0: Row, h: seq<Row>, p: Params, st: State, err: Row, s: real, st': State, err': Row)
    requires 0 < p.group
  {
    && SoFar(w0, h, p, st, err) && |err| + p.group <= |w0|
    && Later(w0, h, Gptq.Scaled(st, s), err, st', err', s, p.group, p.qmax)
  }

  lemma AllColumns(w0: Row, h: seq<Row>, p: Params, st: State, err: Row, s: real, st': State, err': Row, c: nat)
    requires 0 < p.group && NextGroup(w0, h, p, st, err, s, st', err') && c < |err'|
    ensures ColumnFedBack(w0, h, p, err', st'.codes, st'.scales, c)
  {
    if c < |err| {
      assert ColumnFedBack(w0, h, p, err, st.codes, st.scales, c);
      OldColumns(w0, h, p, st, err, st', err', c);
    } else {
      InGroup(|st.scales|, p.group, c);
      assert st'.scales[c / p.group] == s && FedBack(w0, h, err', c, st'.codes[c], s, p.qmax);
    }
  }

  lemma AllGroups(w0: Row, h: seq<Row>, p: Params, st: State, err: Row, s: real, st': State, err': Row, b: nat)
    requires 0 < p.group && NextGroup(w0, h, p, st, err, s, st', err') && b < |st'.scales|
    requires IsChosen(GroupAt(w0, h, err, |err|, p.group), p, s)
    ensures GroupChosen(w0, h, p, err', st'.scales, b)
  {
    if b < |st.scales| {
      assert GroupChosen(w0, h, p, err, st.scales, b);
      OldGroup(w0, h, p, st.scales, s, err, err', b);
    } else {
      GroupAtStays(w0, h, err, err', |err|, p.group);
    }
  }

  lemma RemainingGroup(w0: Row, h: seq<Row>, st: State, err: Row, g: nat)
    requires Remaining(w0, h, st, err) && |err| + g <= |w0|
    ensures st.w[|err|..|err| + g] == GroupAt(w0, h, err, |err|, g)
  {
  }

  /** One group. */
  lemma GroupExplained(w0: Row, h: seq<Row>, p: Params, st: State, err: Row) returns (err': Row)
    requires ValidParams(p) && Factor(h, |w0|) && SoFar(w0, h, p, st, err) && |err| + p.group <= |w0|
    ensures SoFar(w0, h, p, Group(st, h, p), err')
  {
    var y := st.w[|err|..|err| + p.group];
    var s, st' := GroupScale(y, p), Group(st, h, p);
    var cur;
    cur, err' := ColumnsFeed(w0, h, Gptq.Scaled(st, s), err, s, p.group, p.qmax);
    RemainingGroup(w0, h, st, err, p.group);
    GroupScaleIsChosen(y, p);
    assert cur == st';
    NextSoFar(w0, h, p, st, err, s, st', err');
  }

  lemma NextSoFar(w0: Row, h: seq<Row>, p: Params, st: State, err: Row, s: real, st': State, err': Row)
    requires 0 < p.group && NextGroup(w0, h, p, st, err, s, st', err')
    requires IsChosen(GroupAt(w0, h, err, |err|, p.group), p, s)
    ensures SoFar(w0, h, p, st', err')
  {
    forall c: nat | c < |err'| ensures ColumnFedBack(w0, h, p, err', st'.codes, st'.scales, c) {
      AllColumns(w0, h, p, st, err, s, st', err', c);
    }
    forall b: nat | b < |st'.scales| ensures GroupChosen(w0, h, p, err', st'.scales, b) {
      AllGroups(w0, h, p, st, err, s, st', err', b);
    }
    OneGroupMore(|st.scales|, p.group);
  }

  lemma OneGroupMore(b: nat, g: nat)
    ensures (b + 1) * g == b * g + g
  {
  }

  lemma {:induction false} GroupsExplained(w0: Row, h: seq<Row>, p: Params, st: State, err: Row) returns (err': Row)
    requires ValidParams(p) && Factor(h, |w0|) && SoFar(w0, h, p, st, err)
    ensures SoFar(w0, h, p, Groups(st, h, p), err') && |err'| + p.group > |w0|
    decreases |w0| - |err|
  {
    if |st.codes| + p.group > |w0| {
      err' := err;
    } else {
      var err1 := GroupExplained(w0, h, p, st, err);
      err' := GroupsExplained(w0, h, p, Group(st, h, p), err1);
    }
  }

  lemma WholeGroups(n: nat, g: nat, width: nat)
    requires 0 < g && width % g == 0 && n * g <= width < n * g + g
    ensures n * g == width
  {
    SameMultiple(width, g, n, width / g);
  }

  /** For every row there are errors that explain the reference's codes and scales. */
  lemma QuantizedIsExplained(w0: Row, h: seq<Row>, p: Params) returns (err: Row)
    requires ValidParams(p) && Factor(h, |w0|) && |w0| % p.group == 0
    ensures Explains(w0, h, p, Quantized(w0, h, p).codes, Quantized(w0, h, p).scales, err)
  {
    var st := State(w0, [], []);
    assert 0 * p.group == 0;
    err := GroupsExplained(w0, h, p, st, []);
    WholeGroups(|Quantized(w0, h, p).scales|, p.group, |w0|);
  }
}
