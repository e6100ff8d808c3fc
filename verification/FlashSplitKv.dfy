/** fa2/headers/flash_fwd_kernel.h, compute_attn_1rowblock_splitkv: one row of one tile, attended
    block by block over a range of key blocks, in any number of splits that are merged afterwards. */
module FlashSplitKv {
  import opened ExpLog
  import opened FlashBlocks
  import opened FlashCombine
  import opened FlashSoftmax
  import opened FlashWindow
  import opened Numbers
  import opened Sums

  /** A tile the kernel is launched for. An even causal kernel is built for block sizes that fit. */
  predicate Launched(t: Tile) {
    && ValidTile(t)
    && Even(t)
    && (t.even && t.mode.Causal? ==> t.wr == 0 && BlocksFit(t.kM, t.kN))
  }

  /** The inputs of one output column of one query row: the scaled score of every key position, and
      its row of V, which may be NaN. */
  datatype Inputs = Inputs(t: Tile, row: int, score: int -> real, value: int -> MaybeNaN<real>)

  /** The key is in a block that is loaded, and its row of V is used as it is. */
  predicate Used(t: Tile, key: int)
    requires 0 < t.kN
  {
    FirstBlock(t) * t.kN <= key < LastBlock(t) * t.kN && key < t.sk && !Cleared(t, key)
  }

  /** The rows of V that are used hold numbers; the other rows can hold anything. */
  ghost predicate ValidInputs(x: Inputs) {
    Launched(x.t) && IsRow(x.t, x.row) && forall key :: Used(x.t, key) ==> x.value(key).Number?
  }

  /** A window that holds some key asks no more of V than that the rows seen by the tile are numbers. */
  lemma UsedIsSeen(t: Tile, key: int)
    requires ValidTile(t) && t.mode.Local? && 0 <= t.wl + t.wr && Used(t, key)
    ensures SeenByTile(t, key)
  {
    TimesNonNegative(FirstBlock(t), t.kN);
    UnclearedIsSeen(t, key);
  }

  function Plain(v: MaybeNaN<real>): real {
    if v.Number? then v.value else 0.0
  }

  /** The row under the mask the attention is specified with. */
  function Seen(x: Inputs): Row {
    Row(x.score, key => Plain(x.value(key)), key => Visible(x.t, x.row, key))
  }

  /** The row as apply_mask leaves it: a causal kernel masks rows in the masked phase only, a
      windowed one in both, and the end of the keys is masked unless the lengths are even. */
  function Masked(x: Inputs, masked: bool): Row {
    Row(x.score, key => Plain(x.value(key)), key =>
      if x.t.mode.Local? || (masked && x.t.mode.Causal?) then Visible(x.t, x.row, key)
      else if masked && !x.t.even then key < x.t.sk
      else true)
  }

  /** Check_inf of softmax_rescale_o in the two phases. */
  predicate ChecksInfinity(t: Tile, masked: bool) {
    t.mode.Local? || (masked && (t.mode.Causal? || !t.even))
  }

  lemma UnmaskedBlockSeen(x: Inputs, b: int)
    requires ValidInputs(x) && !x.t.mode.Local? && 0 <= b < LastBlock(x.t) - MaskingSteps(x.t)
    ensures SeenInFull(x.t, b)
  {
    if x.t.even && x.t.mode.Causal? {
      EvenIsSafe(x.t, x.t.kM, x.t.kN);
    } else {
      RaggedIsSafe(x.t);
    }
  }

  lemma EvenBlockIsWhole(t: Tile, b: int)
    requires 0 < t.kN && 0 <= t.sk && t.sk % t.kN == 0 && b < CeilDiv(t.sk, t.kN)
    ensures b * t.kN + t.kN <= t.sk
  {
    var q := Quotient(t.sk, t.kN);
    TimesMonotone(q + 1, CeilDiv(t.sk, t.kN), t.kN);
    assert (q + 1) * t.kN == q * t.kN + t.kN;
    TimesMonotone(b + 1, q, t.kN);
    assert (b + 1) * t.kN == b * t.kN + t.kN;
  }

  /** On the blocks of its phase, the mask the kernel applies is the attention's own mask. */
  lemma MaskAgrees(x: Inputs, b: int, masked: bool, key: int)
    requires ValidInputs(x) && 0 <= b < LastBlock(x.t) && b * x.t.kN <= key < b * x.t.kN + x.t.kN
    requires !masked ==> b < LastBlock(x.t) - MaskingSteps(x.t)
    ensures Masked(x, masked).seen(key) == Seen(x).seen(key)
    ensures !masked && !x.t.mode.Local? ==> Seen(x).seen(key)
  {
    TimesNonNegative(b, x.t.kN);
    if !masked && !x.t.mode.Local? {
      UnmaskedBlockSeen(x, b);
    } else if x.t.mode.Full? && x.t.even {
      EvenBlockIsWhole(x.t, b);
    }
  }

  ghost predicate Processed(e: Exp, x: Inputs, st: State, from: int, to: int) {
    Holds(e, Seen(x), st, from * x.t.kN, to * x.t.kN)
  }

  lemma FirstAgrees(e: Exp, r: Row, r': Row, lo: int, hi: int)
    requires forall k :: lo <= k < hi ==> SameKey(r, r', k)
    ensures FirstBlockState(e, r, lo, hi) == FirstBlockState(e, r', lo, hi)
  {
    BlockMaxAgrees(r, r', lo, hi);
    DenAgrees(e, r, r', Reference(BlockMax(r, lo, hi)), lo, hi);
  }

  lemma BlockEnd(b: int, n: int)
    ensures (b + 1) * n == b * n + n
  {
  }

  lemma MaskedIsSeen(x: Inputs, b: int, lo: int, hi: int)
    requires ValidInputs(x) && 0 <= b < LastBlock(x.t) && lo == b * x.t.kN && hi == lo + x.t.kN
    ensures forall key :: lo <= key < hi ==> SameKey(Masked(x, true), Seen(x), key)
  {
    forall key | lo <= key < hi ensures SameKey(Masked(x, true), Seen(x), key) {
      MaskAgrees(x, b, true, key);
    }
  }

  /** The first block, which is always masked. */
  lemma FirstProcessed(e: Exp, x: Inputs, b: int, lo: int, hi: int)
    requires ValidInputs(x) && 0 <= b < LastBlock(x.t) && lo == b * x.t.kN && hi == lo + x.t.kN
    ensures Processed(e, x, FirstBlockState(e, Masked(x, true), lo, hi), b, b + 1)
  {
    MaskedIsSeen(x, b, lo, hi);
    FirstAgrees(e, Masked(x, true), Seen(x), lo, hi);
    FirstHolds(e, Seen(x), lo, hi);
    BlockEnd(b, x.t.kN);
  }

  lemma NextAgrees(e: Exp, r: Row, r': Row, st: State, lo: int, hi: int, checkInf: bool)
    requires forall k :: lo <= k < hi ==> SameKey(r, r', k)
    ensures NextBlockState(e, r, st, lo, hi, checkInf) == NextBlockState(e, r', st, lo, hi, checkInf)
  {
    BlockMaxAgrees(r, r', lo, hi);
    DenAgrees(e, r, r', Reference(MaxExt(st.max, BlockMax(r, lo, hi))), lo, hi);
  }

  /** A further block never gives NaN: either infinities are checked or the row sees the block. */
  lemma NextProcessed(e: Exp, x: Inputs, st: State, b: int, to: int, lo: int, hi: int, masked: bool)
    requires Laws(e) && ValidInputs(x) && 0 <= b < to <= LastBlock(x.t) && lo == b * x.t.kN && hi == lo + x.t.kN
    requires Processed(e, x, st, b + 1, to)
    requires if masked then 1 < MaskingSteps(x.t) else b < LastBlock(x.t) - MaskingSteps(x.t)
    ensures var next := NextBlockState(e, Masked(x, masked), st, lo, hi, ChecksInfinity(x.t, masked));
            next.Number? && Processed(e, x, next.value, b, to)
  {
    forall key | lo <= key < hi
      ensures SameKey(Masked(x, masked), Seen(x), key)
      ensures !ChecksInfinity(x.t, masked) ==> Seen(x).seen(key)
    {
      MaskAgrees(x, b, masked, key);
    }
    assert (b + 1) * x.t.kN == hi;
    TimesMonotone(b + 1, to, x.t.kN);
    NextAgrees(e, Masked(x, masked), Seen(x), st, lo, hi, ChecksInfinity(x.t, masked));
    assert !ChecksInfinity(x.t, masked) ==> Seen(x).seen(lo);
    NextHolds(e, Seen(x), st, lo, hi, to * x.t.kN, ChecksInfinity(x.t, masked));
  }

  /** Only the first block of a range can hold positions past the keys, so only its copy needs to fill. */
  lemma OnlyFirstPassesEnd(t: Tile, b: int, to: int)
    requires Launched(t) && 0 <= b < to <= LastBlock(t)
    ensures b + 1 < to || t.even ==> b * t.kN + t.kN <= t.sk
  {
    if b + 1 < to {
      BlockBound(t, b);
    } else if t.even {
      EvenBlockIsWhole(t, b);
    }
  }

  /** The loaded block holds what the row needs, whatever V holds at the cleared and the filled rows. */
  lemma BlockIsRead(x: Inputs, b: int, to: int, masked: bool, first: bool, key: int)
    requires ValidInputs(x) && FirstBlock(x.t) <= b < to <= LastBlock(x.t) && (first <==> b + 1 == to)
    requires !masked ==> b < LastBlock(x.t) - MaskingSteps(x.t)
    requires b * x.t.kN <= key < b * x.t.kN + x.t.kN
    ensures KeyRead(Masked(x, masked), Loaded(x.t, x.value, Fills(x.t, first)), key)
  {
    OnlyFirstPassesEnd(x.t, b, to);
    TimesNonNegative(b, x.t.kN);
    MaskAgrees(x, b, masked, key);
    KeyBetween(key, b, x.t.kN, FirstBlock(x.t), LastBlock(x.t));
    if Visible(x.t, x.row, key) && Cleared(x.t, key) {
      ClearedIsMasked(x.t, x.row, key);
    }
  }

  /** One iteration of either loop: scores, mask, softmax_rescale_o and the product with V as it was
      loaded; Is_first, and the filling copy, for the first. */
  method Step(e: Exp, x: Inputs, st: State, b: int, ghost to: int, first: bool, masked: bool) returns (st': State)
    requires Laws(e) && ValidInputs(x) && FirstBlock(x.t) <= b < to <= LastBlock(x.t) && (first <==> to == b + 1)
    requires first || Processed(e, x, st, b + 1, to)
    requires if masked then first || 1 < MaskingSteps(x.t) else !first && b < LastBlock(x.t) - MaskingSteps(x.t)
    ensures Processed(e, x, st', b, to)
  {
    var lo := b * x.t.kN;
    var hi := lo + x.t.kN;
    var r, v, checked := Masked(x, masked), Loaded(x.t, x.value, Fills(x.t, first)), ChecksInfinity(x.t, masked);
    forall key | lo <= key < hi ensures KeyRead(r, v, key) {
      BlockIsRead(x, b, to, masked, first, key);
    }
    LoadedIsRead(e, r, v, st, lo, hi, checked);
    if first {
      FirstProcessed(e, x, b, lo, hi);
      st' := FirstLoaded(e, r, v, lo, hi).value;
    } else {
      NextProcessed(e, x, st, b, to, lo, hi, masked);
      st' := NextLoaded(e, r, v, st, lo, hi, checked).value;
    }
  }

  /** One split of the row: the masking loop, the loop after it and the normalisation. An empty
      range writes output 0 and the log-sum-exp `none`. */
  method AttendSplit(e: Exp, x: Inputs, nMin: int, nMax: int, none: Ext) returns (o: real, lse: Ext)
    requires Laws(e) && ValidInputs(x) && FirstBlock(x.t) <= nMin && nMax <= LastBlock(x.t)
    ensures (o, lse) == Attention(e, Seen(x), nMin * x.t.kN, MaxInt(nMin, nMax) * x.t.kN, none)
  {
    if nMin >= nMax {
      return 0.0, none;
    }
    var steps := MaskingSteps(x.t);
    var st := State(NegInf, 0.0, 0.0);
    var nBlock := nMax - 1;
    var step := 0;
    while step < steps
      invariant 0 <= step <= steps && nBlock == nMax - 1 - step
      invariant nMin - 1 <= nBlock && (nBlock == nMin - 1 ==> steps == 1)
      invariant 0 < step ==> Processed(e, x, st, nBlock + 1, nMax)
      decreases steps - step
    {
      st := Step(e, x, st, nBlock, nMax, step == 0, true);
      if steps > 1 && nBlock <= nMin {
        nBlock := nBlock - 1;
        break;
      }
      step, nBlock := step + 1, nBlock - 1;
    }
    while nBlock >= nMin
      invariant nMin - 1 <= nBlock < nMax
      invariant nMin <= nBlock ==> nBlock < nMax - steps
      invariant Processed(e, x, st, nBlock + 1, nMax)
      decreases nBlock - nMin
    {
      st := Step(e, x, st, nBlock, nMax, false, false);
      nBlock := nBlock - 1;
    }
    NormalizeHolds(e, Seen(x), st, nMin * x.t.kN, nMax * x.t.kN, none);
    var result := Normalize(e, st, none);
    o, lse := result.0, result.1;
  }

  // ---- all splits of a row

  /** Where split i of the block range begins: the ranges of the splits are consecutive. */
  function Cut(t: Tile, splits: int, i: int): int
    requires 0 < t.kN && 0 < splits
  {
    MinInt(MaxInt(FirstBlock(t), LastBlock(t)), FirstBlock(t) + i * PerSplit(t, splits))
  }

  lemma CutsAreSplits(t: Tile, splits: int, i: int)
    requires 0 < t.kN && 0 < splits && 0 <= i
    ensures FirstBlock(t) <= Cut(t, splits, i) <= Cut(t, splits, i + 1)
    ensures Cut(t, splits, 0) == FirstBlock(t)
    ensures Cut(t, splits, splits) == MaxInt(FirstBlock(t), LastBlock(t))
    ensures SplitMin(t, splits, i) < SplitMax(t, splits, i) ==>
      Cut(t, splits, i) == SplitMin(t, splits, i) && Cut(t, splits, i + 1) == SplitMax(t, splits, i)
    ensures SplitMin(t, splits, i) >= SplitMax(t, splits, i) ==> Cut(t, splits, i) == Cut(t, splits, i + 1)
    ensures FirstBlock(t) <= SplitMin(t, splits, i)
  {
    var n := PerSplit(t, splits);
    TimesNonNegative(i, n);
    assert (i + 1) * n == i * n + n;
    TimesZero(i, n);
  }

  lemma KeyBetween(key: int, b: int, n: int, first: int, last: int)
    requires 0 < n && b * n <= key < b * n + n && first <= b < last
    ensures first * n <= key < last * n
  {
    TimesMonotone(first, b, n);
    TimesMonotone(b + 1, last, n);
    assert (b + 1) * n == b * n + n;
  }

  lemma SeenKeyInside(x: Inputs, key: int, lo: int, hi: int)
    requires ValidInputs(x) && Visible(x.t, x.row, key)
    requires lo == FirstBlock(x.t) * x.t.kN && hi == MaxInt(FirstBlock(x.t), LastBlock(x.t)) * x.t.kN
    ensures lo <= key < hi
  {
    SeenIsVisited(x.t, x.row, key);
    KeyBetween(key, BlockOf(x.t, key), x.t.kN, FirstBlock(x.t), MaxInt(FirstBlock(x.t), LastBlock(x.t)));
  }

  /** Blocks before the first and after the last hold no visible key, nor do positions past sk. */
  lemma OutsideIsBlind(x: Inputs, lo: int, hi: int)
    requires ValidInputs(x)
    requires lo == FirstBlock(x.t) * x.t.kN && hi == MaxInt(FirstBlock(x.t), LastBlock(x.t)) * x.t.kN
    ensures 0 <= lo <= hi
    ensures Blind(Seen(x), 0, lo)
    ensures Blind(Seen(x), hi, MaxInt(hi, x.t.sk))
    ensures Blind(Seen(x), x.t.sk, MaxInt(hi, x.t.sk))
  {
    TimesNonNegative(FirstBlock(x.t), x.t.kN);
    TimesMonotone(FirstBlock(x.t), MaxInt(FirstBlock(x.t), LastBlock(x.t)), x.t.kN);
    forall key | Seen(x).seen(key) ensures lo <= key < hi {
      SeenKeyInside(x, key, lo, hi);
    }
  }

  /** The sums over the visited blocks are the sums over all keys. */
  lemma VisitedSums(e: Exp, x: Inputs, lo: int, hi: int)
    requires ValidInputs(x)
    requires lo == FirstBlock(x.t) * x.t.kN && hi == MaxInt(FirstBlock(x.t), LastBlock(x.t)) * x.t.kN
    ensures Den(e, Seen(x), 0.0, lo, hi) == Den(e, Seen(x), 0.0, 0, x.t.sk)
    ensures Num(e, Seen(x), 0.0, lo, hi) == Num(e, Seen(x), 0.0, 0, x.t.sk)
    ensures Blind(Seen(x), lo, hi) <==> Blind(Seen(x), 0, x.t.sk)
  {
    var r, end := Seen(x), MaxInt(hi, x.t.sk);
    OutsideIsBlind(x, lo, hi);
    DenSplits(e, r, 0.0, 0, x.t.sk, end);
    DenSplits(e, r, 0.0, 0, lo, end);
    DenSplits(e, r, 0.0, lo, hi, end);
    DenBlind(e, r, 0.0, 0, lo);
    DenBlind(e, r, 0.0, hi, end);
    DenBlind(e, r, 0.0, x.t.sk, end);
    BlindOutside(r, lo, hi, x.t.sk);
  }

  lemma BlindOutside(r: Row, lo: int, hi: int, sk: int)
    requires 0 <= lo <= hi && 0 <= sk
    requires Blind(r, 0, lo) && Blind(r, hi, MaxInt(hi, sk)) && Blind(r, sk, MaxInt(hi, sk))
    ensures Blind(r, lo, hi) <==> Blind(r, 0, sk)
  {
  }

  lemma AttentionFromTotals(e: Exp, r: Row, lo: int, hi: int, d: real, n: real, o: real, lse: Ext)
    requires Laws(e) && d == Den(e, r, 0.0, lo, hi) && n == Num(e, r, 0.0, lo, hi)
    requires d == 0.0 ==> o == 0.0 && lse == PosInf
    requires d != 0.0 ==> o == n / d && lse == Fin(e.ln(d))
    ensures (o, lse) == Attention(e, r, lo, hi, PosInf)
  {
    DenPositive(e, r, 0.0, lo, hi);
    if Blind(r, lo, hi) {
      DenBlind(e, r, 0.0, lo, hi);
    }
  }

  /** The row over all its splits. For every number of splits the result is softmax attention over
      every visible key of the row and its log-sum-exp; a row without one gets 0 and +inf. */
  method SplitKv(e: Exp, x: Inputs, splits: int) returns (o: real, lse: Ext)
    requires Laws(e) && ValidInputs(x) && 0 < splits
    ensures (o, lse) == Attention(e, Seen(x), 0, x.t.sk, PosInf)
  {
    ghost var first, end := FirstBlock(x.t), MaxInt(FirstBlock(x.t), LastBlock(x.t));
    VisitedSums(e, x, first * x.t.kN, end * x.t.kN);
    if splits == 1 {
      CutsAreSplits(x.t, 1, 0);
      o, lse := AttendSplit(e, x, SplitMin(x.t, 1, 0), SplitMax(x.t, 1, 0), PosInf);
    } else {
      ghost var d, n;
      var s;
      s, d, n := EachSplit(e, x, splits);
      var reference;
      o, lse, reference := Combine(e, s, d, n);
      AttentionFromTotals(e, Seen(x), first * x.t.kN, end * x.t.kN, Total(d), Total(n), o, lse);
    }
  }

  /** Every split on its own, as the CTAs of one row write them. */
  method EachSplit(e: Exp, x: Inputs, splits: int) returns (s: seq<Split>, ghost d: seq<real>, ghost n: seq<real>)
    requires Laws(e) && ValidInputs(x) && 0 < splits
    ensures |s| == splits && AllStandFor(e, s, d, n)
    ensures Total(d) == Den(e, Seen(x), 0.0, FirstBlock(x.t) * x.t.kN, MaxInt(FirstBlock(x.t), LastBlock(x.t)) * x.t.kN)
    ensures Total(n) == Num(e, Seen(x), 0.0, FirstBlock(x.t) * x.t.kN, MaxInt(FirstBlock(x.t), LastBlock(x.t)) * x.t.kN)
  {
    s, d, n := [], [], [];
    ghost var lo := FirstBlock(x.t) * x.t.kN;
    CutsAreSplits(x.t, splits, 0);
    var i := 0;
    while i < splits
      invariant 0 <= i <= splits && |s| == i && AllStandFor(e, s, d, n)
      invariant FirstBlock(x.t) <= Cut(x.t, splits, i)
      invariant Total(d) == Den(e, Seen(x), 0.0, lo, Cut(x.t, splits, i) * x.t.kN)
      invariant Total(n) == Num(e, Seen(x), 0.0, lo, Cut(x.t, splits, i) * x.t.kN)
    {
      var split := OneSplit(e, x, splits, i);
      ghost var di, ni := SplitStands(e, x, splits, i, split);
      s := s + [split];
      ghost var d', n' := d + [di], n + [ni];
      assert d'[..i] == d && n'[..i] == n;
      d, n := d', n';
      i := i + 1;
    }
    CutsAreSplits(x.t, splits, splits);
  }

  /** Attention over the keys between two cuts. */
  ghost function AttentionOfSplit(e: Exp, x: Inputs, splits: int, i: int): (real, Ext)
    requires 0 < x.t.kN && 0 < splits
  {
    Attention(e, Seen(x), Cut(x.t, splits, i) * x.t.kN, Cut(x.t, splits, i + 1) * x.t.kN, NegInf)
  }

  /** Split i, which attends its own stretch of the keys. */
  method OneSplit(e: Exp, x: Inputs, splits: int, i: int) returns (s: Split)
    requires Laws(e) && ValidInputs(x) && 0 <= i < splits
    ensures (s.o, s.lse) == AttentionOfSplit(e, x, splits, i)
  {
    CutsAreSplits(x.t, splits, i);
    var o, lse := AttendSplit(e, x, SplitMin(x.t, splits, i), SplitMax(x.t, splits, i), NegInf);
    s := Split(o, lse);
  }

  /** Its result stands for the sums over that stretch, which continues the ones before it. */
  lemma SplitStands(e: Exp, x: Inputs, splits: int, i: int, s: Split) returns (d: real, n: real)
    requires Laws(e) && ValidInputs(x) && 0 <= i < splits
    requires (s.o, s.lse) == AttentionOfSplit(e, x, splits, i)
    ensures FirstBlock(x.t) <= Cut(x.t, splits, i + 1)
    ensures StandsFor(e, s, d, n)
    ensures var lo, mid, hi := FirstBlock(x.t) * x.t.kN, Cut(x.t, splits, i) * x.t.kN, Cut(x.t, splits, i + 1) * x.t.kN;
            && Den(e, Seen(x), 0.0, lo, hi) == Den(e, Seen(x), 0.0, lo, mid) + d
            && Num(e, Seen(x), 0.0, lo, hi) == Num(e, Seen(x), 0.0, lo, mid) + n
  {
    CutsAreSplits(x.t, splits, i);
    var r, from, to := Seen(x), Cut(x.t, splits, i) * x.t.kN, Cut(x.t, splits, i + 1) * x.t.kN;
    d, n := Den(e, r, 0.0, from, to), Num(e, r, 0.0, from, to);
    TimesMonotone(FirstBlock(x.t), Cut(x.t, splits, i), x.t.kN);
    TimesMonotone(Cut(x.t, splits, i), Cut(x.t, splits, i + 1), x.t.kN);
    DenSplits(e, r, 0.0, FirstBlock(x.t) * x.t.kN, from, to);
    AttentionStandsFor(e, r, from, to, d, n);
  }
}
