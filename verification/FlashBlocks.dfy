/** fa2/headers/flash_fwd_kernel.h: which key blocks a tile of queries visits, in what order and
    with which masking, for query_group_size 1. */
module FlashBlocks {
  import opened Numbers

  datatype Mode = Full | Causal | Local

  /** One tile of kBlockM queries of one sequence. Window sizes may be any integers. */
  datatype Tile = Tile(mode: Mode, even: bool, kM: int, kN: int, m: int, sq: int, sk: int, wl: int, wr: int)

  /** A tile the kernel does not return from at once: its first row is a query. */
  predicate ValidTile(t: Tile) {
    0 < t.kM && 0 < t.kN && 0 <= t.m && 0 <= t.sk && t.m * t.kM < t.sq
  }

  /** Is_even_MN of the launch template: no ragged lengths, and each a multiple of its block.
      The kernel is never instantiated both even and local. */
  predicate Even(t: Tile)
    requires 0 < t.kM && 0 < t.kN
  {
    t.even ==> t.sq % t.kM == 0 && t.sk % t.kN == 0 && !t.mode.Local?
  }

  function Shift(t: Tile): int {
    t.sk - t.sq
  }

  /** mask.h: the keys a query row sees. */
  predicate Visible(t: Tile, row: int, key: int) {
    && 0 <= key < t.sk
    && (!t.mode.Full? ==> key < row + 1 + Shift(t) + t.wr)
    && (t.mode.Local? ==> row + Shift(t) - t.wl <= key)
  }

  /** A query and a key as far from the end of theirs are at the same position. The query sees the keys at most
      wr positions after its own and, with a window, at most wl before it. */
  lemma VisibleByDistance(t: Tile, row: int, key: int)
    requires 0 <= key < t.sk
    ensures var ahead := (t.sq - 1 - row) - (t.sk - 1 - key);
            Visible(t, row, key) <==> (t.mode.Full? || ahead <= t.wr) && (t.mode.Local? ==> -ahead <= t.wl)
  {
  }

  /** The query rows of the tile. */
  predicate IsRow(t: Tile, row: int) {
    t.m * t.kM <= row < t.m * t.kM + t.kM && row < t.sq
  }

  function FirstBlock(t: Tile): (b: int)
    requires 0 < t.kN
    ensures 0 <= b
  {
    if t.mode.Local? then MaxInt(0, TruncDiv(t.m * t.kM + Shift(t) - t.wl, t.kN)) else 0
  }

  function LastBlock(t: Tile): int
    requires 0 < t.kN
  {
    if t.mode.Full? then CeilDiv(t.sk, t.kN)
    else MinInt(CeilDiv(t.sk, t.kN), CeilDiv((t.m + 1) * t.kM + Shift(t) + t.wr, t.kN))
  }

  // ---- splits

  function PerSplit(t: Tile, splits: int): (n: int)
    requires 0 < t.kN && 0 < splits
    ensures 0 <= n
    ensures LastBlock(t) <= FirstBlock(t) + splits * n
  {
    var n := CeilDiv(MaxInt(0, LastBlock(t) - FirstBlock(t)), splits);
    n
  }

  /** n_block_min and n_block_max of one split. */
  function SplitMin(t: Tile, splits: int, i: int): int
    requires 0 < t.kN && 0 < splits
  {
    FirstBlock(t) + i * PerSplit(t, splits)
  }

  function SplitMax(t: Tile, splits: int, i: int): int
    requires 0 < t.kN && 0 < splits
  {
    MinInt(LastBlock(t), FirstBlock(t) + (i + 1) * PerSplit(t, splits))
  }

  predicate InSplit(t: Tile, splits: int, i: int, b: int)
    requires 0 < t.kN && 0 < splits
  {
    SplitMin(t, splits, i) <= b < SplitMax(t, splits, i)
  }

  /** The splits partition the visible range: every block in exactly one of them, and no block
      outside the range in any. */
  lemma SplitsPartition(t: Tile, splits: int, b: int)
    requires 0 < t.kN && 0 < splits
    ensures FirstBlock(t) <= b < LastBlock(t) ==> exists i :: 0 <= i < splits && InSplit(t, splits, i, b)
    ensures forall i, j ::
      0 <= i < splits && 0 <= j < splits && InSplit(t, splits, i, b) && InSplit(t, splits, j, b) ==> i == j
    ensures forall i :: 0 <= i < splits && InSplit(t, splits, i, b) ==> FirstBlock(t) <= b < LastBlock(t)
  {
    var n, f := PerSplit(t, splits), FirstBlock(t);
    if f <= b < LastBlock(t) {
      var i := SplitOf(b - f, n, splits);
      assert InSplit(t, splits, i, b);
    }
    forall i, j | 0 <= i < splits && 0 <= j < splits && InSplit(t, splits, i, b) && InSplit(t, splits, j, b)
      ensures i == j
    {
      SameMultiple(b - f, n, i, j);
    }
    forall i | 0 <= i < splits && InSplit(t, splits, i, b) ensures f <= b {
      TimesNonNegative(i, n);
    }
  }

  lemma SplitOf(x: int, n: int, splits: int) returns (i: int)
    requires 0 <= x < splits * n && 0 < splits && 0 <= n
    ensures 0 <= i < splits && i * n <= x < (i + 1) * n
  {
    i := 0;
    while (i + 1) * n <= x
      invariant 0 <= i < splits && i * n <= x
      decreases splits - i
    {
      TimesMonotone(splits, i + 1, n);
      i := i + 1;
    }
  }

  // ---- the two phases

  /** n_masking_steps */
  function MaskingSteps(t: Tile): (n: int)
    requires 0 < t.kM && 0 < t.kN
    ensures 1 <= n
  {
    if t.mode.Full? then 1
    else if t.even && t.mode.Causal? then CeilDiv(t.kM, t.kN)
    else CeilDiv(t.kM, t.kN) + 1
  }

  /** hi - 1, hi - 2, ..., lo */
  function Descending(lo: int, hi: int): (s: seq<int>)
    requires lo <= hi
    ensures |s| == hi - lo
    ensures forall k :: 0 <= k < |s| ==> s[k] == hi - 1 - k
    decreases hi - lo
  {
    if lo == hi then [] else [hi - 1] + Descending(lo, hi - 1)
  }

  /** The masking loop and the loop after it: together they visit each block of the range exactly
      once, in descending order, and only the first MaskingSteps of them are masked. */
  method Visit(t: Tile, nMin: int, nMax: int) returns (masked: seq<int>, unmasked: seq<int>)
    requires 0 < t.kM && 0 < t.kN && nMin < nMax
    ensures masked + unmasked == Descending(nMin, nMax)
    ensures |masked| == MinInt(MaskingSteps(t), nMax - nMin)
  {
    var steps := MaskingSteps(t);
    masked, unmasked := [], [];
    var nBlock := nMax - 1;
    var step := 0;
    while step < steps
      invariant 0 <= step <= steps && step <= nMax - nMin
      invariant nBlock == nMax - 1 - step && |masked| == step
      invariant step == nMax - nMin ==> steps == 1
      invariant forall k :: 0 <= k < step ==> masked[k] == nMax - 1 - k
      decreases steps - step
    {
      masked := masked + [nBlock];
      if steps > 1 && nBlock <= nMin {
        nBlock := nBlock - 1;
        break;
      }
      step, nBlock := step + 1, nBlock - 1;
    }
    ghost var first := |masked|;
    while nBlock >= nMin
      invariant nMin - 1 <= nBlock && |unmasked| == nMax - 1 - first - nBlock
      invariant forall k :: 0 <= k < |unmasked| ==> unmasked[k] == nMax - 1 - first - k
      decreases nBlock - nMin
    {
      unmasked := unmasked + [nBlock];
      nBlock := nBlock - 1;
    }
  }

  /** Block b is visible in full to every row of the tile. */
  ghost predicate SeenInFull(t: Tile, b: int) {
    forall row, key :: IsRow(t, row) && b * t.kN <= key < b * t.kN + t.kN ==> Visible(t, row, key)
  }

  /** No block the unmasked loop may reach needs a mask, whatever the split. */
  ghost predicate UnmaskedIsSafe(t: Tile)
    requires 0 < t.kM && 0 < t.kN
  {
    forall b :: 0 <= b < LastBlock(t) - MaskingSteps(t) ==> SeenInFull(t, b)
  }

  /** What the unmasked loop needs of block arithmetic. */
  lemma SeenWhenBelow(t: Tile, b: int)
    requires ValidTile(t) && !t.mode.Local? && 0 <= b
    requires b * t.kN + t.kN <= t.sk
    requires t.mode.Causal? ==> b * t.kN + t.kN <= t.m * t.kM + 1 + Shift(t) + t.wr
    ensures SeenInFull(t, b)
  {
    TimesNonNegative(b, t.kN);
  }

  lemma BlockBound(t: Tile, b: int)
    requires ValidTile(t) && 0 <= b < LastBlock(t) - 1
    ensures b * t.kN + t.kN <= t.sk - 1
    ensures !t.mode.Full? ==> LastBlock(t) * t.kN < (t.m + 1) * t.kM + Shift(t) + t.wr + t.kN
  {
    var c := CeilDiv(t.sk, t.kN);
    assert t.kN * c - t.kN < t.sk;
    TimesMonotone(b + 2, c, t.kN);
    assert (b + 2) * t.kN == b * t.kN + 2 * t.kN;
    if !t.mode.Full? {
      var x := (t.m + 1) * t.kM + Shift(t) + t.wr;
      assert 0 < x;
      TimesMonotone(LastBlock(t), CeilDiv(x, t.kN), t.kN);
    }
  }

  lemma StepsBelow(kM: int, kN: int, b: int, s: int, last: int, m: int, y: int)
    requires 0 < kN && kM <= kN * s && b + 1 + s + 1 <= last && last * kN < (m + 1) * kM + y + kN
    ensures b * kN + kN <= m * kM + 1 + y
  {
    TimesMonotone(b + 1 + s + 1, last, kN);
    assert (b + 1 + s + 1) * kN == b * kN + kN + kN * s + kN;
    assert (m + 1) * kM == m * kM + kM;
  }

  lemma RaggedCausalBlock(t: Tile, b: int)
    requires ValidTile(t) && t.mode.Causal? && !t.even && 0 <= b < LastBlock(t) - MaskingSteps(t)
    ensures b * t.kN + t.kN <= t.m * t.kM + 1 + Shift(t) + t.wr
  {
    BlockBound(t, b);
    StepsBelow(t.kM, t.kN, b, CeilDiv(t.kM, t.kN), LastBlock(t), t.m, Shift(t) + t.wr);
  }

  /** Away from the even causal case the masked iterations always suffice. */
  lemma RaggedIsSafe(t: Tile)
    requires ValidTile(t) && !t.mode.Local? && !(t.even && t.mode.Causal?)
    ensures UnmaskedIsSafe(t)
  {
    forall b | 0 <= b < LastBlock(t) - MaskingSteps(t) ensures SeenInFull(t, b) {
      BlockBound(t, b);
      if t.mode.Causal? {
        RaggedCausalBlock(t, b);
      }
      SeenWhenBelow(t, b);
    }
  }

  // ---- the even causal case

  /** CeilDiv(kM, kN) masked iterations are enough for these block sizes. */
  predicate BlocksFit(kM: int, kN: int)
    requires 0 < kM && 0 < kN
  {
    kM % kN == 0 || kN % (kM % kN) == 0
  }

  predicate EvenCausal(t: Tile, kM: int, kN: int)
    requires 0 < kM && 0 < kN
  {
    ValidTile(t) && t.kM == kM && t.kN == kN && t.mode.Causal? && t.even && t.wr == 0 && Even(t)
  }

  lemma Quotient(a: int, b: int) returns (q: int)
    requires 0 < b && a % b == 0
    ensures a == b * q
  {
    q := a / b;
  }

  /** A multiple of r in [0, n), where r divides n, is at most n - r. */
  lemma LastMultiple(e: int, c: int, r: int, k: int)
    requires 0 < r && e == r * k && e < r * c
    ensures e <= r * c - r
  {
    TimesMonotone(c, k, r);
    TimesMonotone(k, c - 1, r);
    assert (c - 1) * r == c * r - r;
  }

  /** kN divided into blocks of r rows: with X a multiple of r, the last block reaches at most
      kN - r past X. */
  lemma RoundUpMultiple(x: int, n: int, kN: int, r: int, c: int, k: int)
    requires 0 < r && 0 < kN && kN == r * c && x == r * k && x <= kN * n < x + kN
    ensures kN * n <= x + kN - r
  {
    assert kN * n - x == r * (c * n - k) by {
      assert kN * n == r * (c * n) by { TimesAssociative(r, c, n); }
      TimesMinus(r, c * n, k);
    }
    LastMultiple(kN * n - x, c, r, c * n - k);
  }

  function Overhang(kM: int, kN: int): (r: int)
    requires 0 < kM && 0 < kN
    ensures 0 < r <= kN
  {
    if kM % kN == 0 then kN else kM % kN
  }

  /** The masked blocks cover the tile's rows and kN - r more. */
  lemma StepsCover(kM: int, kN: int) returns (q: int)
    requires 0 < kM && 0 < kN
    ensures kN * CeilDiv(kM, kN) == kM + kN - Overhang(kM, kN)
    ensures kM == kN * q + Overhang(kM, kN) && 0 <= q && CeilDiv(kM, kN) == q + 1
  {
    var d := kM / kN;
    assert kM == kN * d + kM % kN;
    TimesNonNegative(d, kN);
    q := if kM % kN == 0 then d - 1 else d;
    assert kN * (d - 1) == kN * d - kN;
    assert kN * (q + 1) == kN * q + kN;
    SameCeil(kM, kN, q + 1);
    assert 0 <= q by {
      TimesMonotone(q + 1, 0, kN);
      assert 0 * kN == 0;
    }
  }

  lemma SameCeil(x: int, n: int, c: int)
    requires 0 < n && 0 < x && n * c - n < x <= n * c
    ensures CeilDiv(x, n) == c
  {
    var d := CeilDiv(x, n);
    TimesMonotone(d + 1, c, n);
    TimesMonotone(c + 1, d, n);
    assert (d + 1) * n == d * n + n && (c + 1) * n == c * n + n;
  }

  lemma EndIsMultiple(t: Tile, kM: int, kN: int, x: int) returns (v: int, k: int)
    requires 0 < kM && 0 < kN && BlocksFit(kM, kN) && EvenCausal(t, kM, kN) && x == (t.m + 1) * kM + Shift(t)
    ensures kN == Overhang(kM, kN) * v && x == Overhang(kM, kN) * k
  {
    var q := StepsCover(kM, kN);
    assert kN % Overhang(kM, kN) == 0;
    v := Quotient(kN, Overhang(kM, kN));
    k := RowsAreMultiple(t, kM, kN, Overhang(kM, kN), q, v);
  }

  /** Rounding the end of a tile up to whole key blocks adds at most kN less the overhang. */
  lemma EvenRoundUp(t: Tile, kM: int, kN: int, x: int)
    requires 0 < kM && 0 < kN && BlocksFit(kM, kN) && EvenCausal(t, kM, kN) && x == (t.m + 1) * kM + Shift(t) && 0 < x
    ensures kN * CeilDiv(x, kN) <= x + kN - Overhang(kM, kN)
  {
    var v, k := EndIsMultiple(t, kM, kN, x);
    var n := CeilDiv(x, kN);
    RoundUpMultiple(x, n, kN, Overhang(kM, kN), v, k);
  }

  lemma EvenBlockBelow(t: Tile, kM: int, kN: int, b: int)
    requires 0 < kM && 0 < kN && BlocksFit(kM, kN) && EvenCausal(t, kM, kN) && 0 <= b < LastBlock(t) - CeilDiv(kM, kN)
    ensures b * kN + kN <= t.m * kM + Shift(t)
  {
    var x := (t.m + 1) * kM + Shift(t);
    NextTile(t.m, kM);
    EvenEnd(t, kM, kN);
    EvenRoundUp(t, kM, kN, x);
    var q := StepsCover(kM, kN);
    BelowTile(kN, b, CeilDiv(kM, kN), LastBlock(t), CeilDiv(x, kN), x, kM, Overhang(kM, kN));
  }

  lemma NextTile(m: int, kM: int)
    ensures (m + 1) * kM == m * kM + kM
  {
  }

  /** The tile's last row sees a key if any block is visited. */
  lemma EvenEnd(t: Tile, kM: int, kN: int)
    requires 0 < kM && 0 < kN && EvenCausal(t, kM, kN)
    ensures 0 < LastBlock(t) ==> 0 < (t.m + 1) * kM + Shift(t)
  {
  }

  lemma EvenIsSafe(t: Tile, kM: int, kN: int)
    requires 0 < kM && 0 < kN && BlocksFit(kM, kN) && EvenCausal(t, kM, kN)
    ensures UnmaskedIsSafe(t)
  {
    forall b | 0 <= b < LastBlock(t) - MaskingSteps(t) ensures SeenInFull(t, b) {
      BlockBound(t, b);
      EvenBlockBelow(t, kM, kN, b);
      SeenWhenBelow(t, b);
    }
  }

  lemma BelowTile(kN: int, b: int, s: int, last: int, n: int, x: int, kM: int, r: int)
    requires 0 < kN && b + 1 + s <= last <= n && kN * n <= x + kN - r && kN * s == kM + kN - r
    ensures b * kN + kN <= x - kM
  {
    TimesMonotone(b + 1 + s, n, kN);
    assert (b + 1 + s) * kN == b * kN + kN + kN * s;
  }

  /** With whole blocks of queries and of keys, the end of a tile is a multiple of r. */
  lemma RowsAreMultiple(t: Tile, kM: int, kN: int, r: int, q: int, v: int) returns (k: int)
    requires 0 < kM && 0 < kN && 0 < r && EvenCausal(t, kM, kN) && kN == r * v && kM == kN * q + r
    ensures (t.m + 1) * kM + Shift(t) == r * k
  {
    var a := Quotient(t.sq, kM);
    var c := Quotient(t.sk, kN);
    var u := v * q + 1;
    assert kM == r * u by {
      TimesAssociative(r, v, q);
      assert r * (v * q + 1) == r * (v * q) + r;
    }
    k := u * (t.m + 1 - a) + v * c;
    assert (t.m + 1) * kM - t.sq == kM * (t.m + 1 - a);
    TimesAssociative(r, u, t.m + 1 - a);
    TimesAssociative(r, v, c);
    TimesPlus(r, u * (t.m + 1 - a), v * c);
  }

  /** Otherwise a tile exists whose first row does not see the last key of an unmasked block. */
  lemma EvenCanFail(kM: int, kN: int) returns (t: Tile)
    requires 0 < kM && 0 < kN && kM % 2 == 0 && kN % 2 == 0 && !BlocksFit(kM, kN)
    ensures EvenCausal(t, kM, kN) && !UnmaskedIsSafe(t)
  {
    var r := Overhang(kM, kN);
    var q := StepsCover(kM, kN);
    var j, rest := kN / r, kN % r;
    assert kN == r * j + rest;
    var s := q + 1;
    var c := j * q + s + 1;
    TimesMonotone(j, 0, r);
    assert 1 <= j;
    TimesNonNegative(j, q);
    t := Tile(Causal, true, kM, kN, 0, (j + 1) * kM, c * kN, 0, 0);
    MultipleIsZero(j + 1, kM);
    MultipleIsZero(c, kN);
    TimesNonNegative(c, kN);
    TimesMonotone(1, j + 1, kM);
    var x := kM + Shift(t);
    assert x == kN * s + rest by {
      FailingEnd(kM, kN, r, q, j, rest, c);
    }
    assert kN * s == kM + kN - r;
    assert CeilDiv(x, kN) == s + 1 by {
      assert kN * (s + 1) == kN * s + kN;
      TimesNonNegative(s, kN);
      SameCeil(x, kN, s + 1);
    }
    assert CeilDiv(t.sk, kN) == c by {
      assert kN * c == t.sk;
      TimesMonotone(1, c, kN);
      SameCeil(t.sk, kN, c);
    }
    assert LastBlock(t) == s + 1 && MaskingSteps(t) == s;
    EvenParts(kM, kN, r, rest, q, j);
    assert rest <= r - 2;
    assert IsRow(t, 0) && !Visible(t, 0, kN - 1);
    assert !SeenInFull(t, 0);
  }

  lemma MultipleIsZero(a: int, b: int)
    requires 0 < b
    ensures (a * b) % b == 0
  {
    var q := (a * b) / b;
    assert a * b == b * q + (a * b) % b;
    TimesMonotone(a + 1, q, b);
    TimesMonotone(q + 1, a, b);
    assert (a + 1) * b == a * b + b && (q + 1) * b == q * b + b;
  }

  lemma FailingEnd(kM: int, kN: int, r: int, q: int, j: int, rest: int, c: int)
    requires kM == kN * q + r && kN == r * j + rest && c == j * q + q + 2
    ensures kM + c * kN - (j + 1) * kM == kN * (q + 1) + rest
  {
    assert (j + 1) * kM == j * kM + kM;
    assert j * kM == kN * (j * q) + j * r by {
      TimesPlus(j, kN * q, r);
      assert j * (kN * q) == kN * (j * q) by {
        TimesAssociative(j, kN, q);
        TimesAssociative(kN, j, q);
      }
    }
    assert c * kN == kN * (j * q) + kN * (q + 2) by { TimesPlus(kN, j * q, q + 2); }
    assert kN * (q + 2) == kN * (q + 1) + kN;
  }

  lemma EvenParts(kM: int, kN: int, r: int, rest: int, q: int, j: int)
    requires kM % 2 == 0 && kN % 2 == 0 && 0 < r && 0 <= rest < r
    requires kM == kN * q + r && kN == r * j + rest
    ensures rest <= r - 2
  {
    var m, n := kM / 2, kN / 2;
    assert kM == 2 * m && kN == 2 * n;
    assert r == 2 * (m - n * q) by { TimesAssociative(2, n, q); }
    var h := m - n * q;
    assert rest == 2 * (n - h * j) by { TimesAssociative(2, h, j); }
  }

  /** The even causal kernel is right to skip the extra masked block exactly when the part of a
      query block that overhangs whole key blocks divides a key block. Block sizes are even: they
      are multiples of the 16-row tensor-core tile. */
  lemma EvenStepsExact(kM: int, kN: int)
    requires 0 < kM && 0 < kN && kM % 2 == 0 && kN % 2 == 0
    ensures (forall t :: EvenCausal(t, kM, kN) ==> UnmaskedIsSafe(t)) <==> BlocksFit(kM, kN)
  {
    if BlocksFit(kM, kN) {
      forall t | EvenCausal(t, kM, kN) ensures UnmaskedIsSafe(t) {
        EvenIsSafe(t, kM, kN);
      }
    } else {
      var t := EvenCanFail(kM, kN);
    }
  }

  /** In particular when one block size divides the other. */
  lemma DividingBlocksFit(kM: int, kN: int)
    requires 0 < kM && 0 < kN && (kM % kN == 0 || kN % kM == 0)
    ensures BlocksFit(kM, kN)
  {
    if kN % kM == 0 && kM % kN != 0 {
      assert kM % kN == kM by {
        var d := kM / kN;
        assert kM == kN * d + kM % kN;
        var q := Quotient(kN, kM);
        TimesMonotone(1, q, kM);
        TimesMonotone(q, 0, kM);
        TimesMonotone(1, d, kN);
        TimesMonotone(d, 0, kN);
        TimesMonotone(d + 1, 0, kN);
        assert (d + 1) * kN == d * kN + kN;
      }
    }
  }

  // ---- sliding windows

  /** clear_window_values: the V rows cleared in shared memory before they are multiplied. */
  predicate Cleared(t: Tile, key: int) {
    t.mode.Local? &&
    var firstQuery := t.m * t.kM;
    var lastQuery := MinInt((t.m + 1) * t.kM, t.sq) - 1;
    key < firstQuery + Shift(t) - t.wl || lastQuery + Shift(t) + t.wr < key
  }

  /** The block of a key. */
  function BlockOf(t: Tile, key: int): (b: int)
    requires 0 < t.kN && 0 <= key
    ensures b * t.kN <= key < b * t.kN + t.kN && 0 <= b
  {
    var b := key / t.kN;
    assert key == t.kN * b + key % t.kN;
    TimesMonotone(b + 1, 0, t.kN);
    assert (b + 1) * t.kN == b * t.kN + t.kN;
    b
  }

  /** A cleared row is masked for every query of the tile. */
  lemma ClearedIsMasked(t: Tile, row: int, key: int)
    requires ValidTile(t) && IsRow(t, row) && Cleared(t, key)
    ensures !Visible(t, row, key)
  {
    assert (t.m + 1) * t.kM == t.m * t.kM + t.kM;
  }

  /** A key some query of the tile sees is in a visited block, and its row is not cleared. */
  lemma SeenIsVisited(t: Tile, row: int, key: int)
    requires ValidTile(t) && IsRow(t, row) && Visible(t, row, key)
    ensures FirstBlock(t) <= BlockOf(t, key) < LastBlock(t)
    ensures !Cleared(t, key)
  {
    var b := BlockOf(t, key);
    assert (t.m + 1) * t.kM == t.m * t.kM + t.kM;
    BlockBelow(key, b, t.sk, t.kN);
    if !t.mode.Full? {
      BlockBelow(key, b, (t.m + 1) * t.kM + Shift(t) + t.wr, t.kN);
    }
    BlockAbove(t.m * t.kM + Shift(t) - t.wl, key, b, t.kN);
  }

  /** Also for a negative start, which C's division rounds toward zero. */
  lemma BlockAbove(start: int, key: int, b: int, n: int)
    requires 0 < n && 0 <= b && key < b * n + n
    ensures start <= key ==> TruncDiv(start, n) <= b
  {
    var f := TruncDiv(start, n);
    TimesMonotone(b + 1, f, n);
    assert (b + 1) * n == b * n + n;
    TimesMonotone(1, f, n);
  }

  lemma BlockBelow(key: int, b: int, end: int, n: int)
    requires 0 < n && 0 <= b && b * n <= key < end
    ensures b < CeilDiv(end, n)
  {
    TimesNonNegative(b, n);
    TimesMonotone(CeilDiv(end, n), b, n);
  }
}
