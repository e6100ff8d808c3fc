/** fa2/headers/flash_fwd_kernel.h, clear_window_values: a boundary tile of a sliding window may load
    V rows of evicted pages, which can hold anything, NaN included. */
module FlashWindow {
  import opened ExpLog
  import opened FlashBlocks
  import opened FlashSoftmax
  import opened Numbers
  import opened Sums

  function Times(p: real, v: MaybeNaN<real>): MaybeNaN<real> {
    match v
    case NaN => NaN
    case Number(x) => Number(p * x)
  }

  function Plus(a: MaybeNaN<real>, b: MaybeNaN<real>): MaybeNaN<real> {
    if a.NaN? || b.NaN? then NaN else Number(a.value + b.value)
  }

  /** P * V for one row and column over the keys [lo, hi), with NaN. */
  function Product(p: int -> real, v: int -> MaybeNaN<real>, lo: int, hi: int): MaybeNaN<real>
    decreases hi - lo
  {
    if hi <= lo then Number(0.0) else Plus(Product(p, v, lo, hi - 1), Times(p(hi - 1), v(hi - 1)))
  }

  /** V in shared memory, for a block whose copy fills the rows past the keys with zeros or not:
      clear_window_values clears the rows outside the window of the tile. */
  function Loaded(t: Tile, v: int -> MaybeNaN<real>, fills: bool): int -> MaybeNaN<real> {
    key => if (fills && t.sk <= key) || Cleared(t, key) then Number(0.0) else v(key)
  }

  /** The copy of the first block of a range fills, unless the kernel is built for even lengths. */
  predicate Fills(t: Tile, first: bool) {
    first && !t.even
  }

  ghost predicate SeenByTile(t: Tile, key: int) {
    exists row :: IsRow(t, row) && Visible(t, row, key)
  }

  /** The rows left uncleared are exactly those some query of the tile sees. */
  lemma UnclearedIsSeen(t: Tile, key: int)
    requires ValidTile(t) && t.mode.Local? && 0 <= t.wl + t.wr && 0 <= key < t.sk
    ensures !Cleared(t, key) <==> SeenByTile(t, key)
  {
    assert (t.m + 1) * t.kM == t.m * t.kM + t.kM;
    if Cleared(t, key) {
      forall row | IsRow(t, row) ensures !Visible(t, row, key) {
        ClearedIsMasked(t, row, key);
      }
    } else {
      var row := MaxInt(t.m * t.kM, key - Shift(t) - t.wr);
      assert IsRow(t, row) && Visible(t, row, key);
    }
  }

  lemma WeightedRow(p: real, a: MaybeNaN<real>, x: real)
    requires a.Number? && (p != 0.0 ==> a.value == x)
    ensures Times(p, a) == Number(p * x)
  {
    var y := a.value;
    if p == 0.0 {
      ZeroTimes(p, y);
      ZeroTimes(p, x);
    }
    assert p * y == p * x;
  }

  lemma ZeroTimes(p: real, x: real)
    ensures p == 0.0 ==> p * x == 0.0
  {
  }

  /** The row of a key holds a number, and the right one if the query row sees the key. */
  predicate KeyRead(r: Row, v: int -> MaybeNaN<real>, key: int) {
    v(key).Number? && (r.seen(key) ==> v(key).value == r.value(key))
  }

  ghost predicate TermIs(e: Exp, r: Row, m: real, v: int -> MaybeNaN<real>, key: int) {
    Times(Weight(e, r, m, key), v(key)) == Number(Term(e, r, m, key))
  }

  lemma ReadTerm(e: Exp, r: Row, m: real, v: int -> MaybeNaN<real>, key: int)
    requires KeyRead(r, v, key)
    ensures TermIs(e, r, m, v, key)
  {
    var p, a, x := Weight(e, r, m, key), v(key), r.value(key);
    WeightedRow(p, a, x);
    assert p * x == Term(e, r, m, key);
  }

  lemma {:induction false} ProductIsNum(e: Exp, r: Row, m: real, v: int -> MaybeNaN<real>, lo: int, hi: int)
    requires forall key :: lo <= key < hi ==> TermIs(e, r, m, v, key)
    ensures Product(Weights(e, r, m), v, lo, hi) == Number(Num(e, r, m, lo, hi))
    decreases hi - lo
  {
    if lo < hi {
      ProductIsNum(e, r, m, v, lo, hi - 1);
      assert TermIs(e, r, m, v, hi - 1);
    }
  }

  lemma ReadProduct(e: Exp, r: Row, m: real, v: int -> MaybeNaN<real>, lo: int, hi: int)
    requires forall key :: lo <= key < hi ==> KeyRead(r, v, key)
    ensures Product(Weights(e, r, m), v, lo, hi) == Number(Num(e, r, m, lo, hi))
  {
    forall key | lo <= key < hi ensures TermIs(e, r, m, v, key) {
      ReadTerm(e, r, m, v, key);
    }
    ProductIsNum(e, r, m, v, lo, hi);
  }

  /** The values agree with V where the tile looks, and the row's mask is the tile's. */
  ghost predicate Agrees(t: Tile, row: int, r: Row, v: int -> MaybeNaN<real>, key: int) {
    && r.seen(key) == Visible(t, row, key)
    && (SeenByTile(t, key) ==> v(key) == Number(r.value(key)))
  }

  /** Whatever V holds at keys no query of the tile sees, the product is the softmax numerator over
      the values at the keys it does see: the other rows have no influence, NaN or not. */
  lemma WindowedProduct(e: Exp, t: Tile, row: int, r: Row, v: int -> MaybeNaN<real>, m: real, lo: int, hi: int,
                        fills: bool)
    requires ValidTile(t) && t.mode.Local? && 0 <= t.wl + t.wr && IsRow(t, row) && 0 <= lo
    requires fills || hi <= t.sk
    requires forall key :: lo <= key < hi ==> Agrees(t, row, r, v, key)
    ensures Product(Weights(e, r, m), Loaded(t, v, fills), lo, hi) == Number(Num(e, r, m, lo, hi))
  {
    forall key | lo <= key < hi ensures KeyRead(r, Loaded(t, v, fills), key) {
      assert Agrees(t, row, r, v, key);
      if key < t.sk {
        UnclearedIsSeen(t, key);
      }
    }
    ReadProduct(e, r, m, Loaded(t, v, fills), lo, hi);
  }

  /** Masking the scores alone would not do: a zero weight times NaN is NaN. */
  lemma {:induction false} NaNSpreads(p: int -> real, v: int -> MaybeNaN<real>, lo: int, hi: int, key: int)
    requires lo <= key < hi && v(key).NaN?
    ensures Product(p, v, lo, hi).NaN?
    decreases hi - lo
  {
    if key < hi - 1 {
      NaNSpreads(p, v, lo, hi - 1, key);
    }
  }

  // ---- softmax_rescale_o and the product with the loaded block

  /** The first block of a range. */
  function FirstLoaded(e: Exp, r: Row, v: int -> MaybeNaN<real>, lo: int, hi: int): MaybeNaN<State> {
    var m := BlockMax(r, lo, hi);
    match Product(Weights(e, r, Reference(m)), v, lo, hi)
    case NaN => NaN
    case Number(n) => Number(State(m, Den(e, r, Reference(m), lo, hi), n))
  }

  /** A further block. */
  function NextLoaded(e: Exp, r: Row, v: int -> MaybeNaN<real>, st: State, lo: int, hi: int, checkInf: bool):
      MaybeNaN<State>
  {
    var m := MaxExt(st.max, BlockMax(r, lo, hi));
    match RescaleFactor(e, st.max, m, checkInf)
    case NaN => NaN
    case Number(f) =>
      match Product(Weights(e, r, Reference(m)), v, lo, hi)
      case NaN => NaN
      case Number(n) => Number(Rescaled(st, m, f, Den(e, r, Reference(m), lo, hi), n))
  }

  lemma LoadedIsRead(e: Exp, r: Row, v: int -> MaybeNaN<real>, st: State, lo: int, hi: int, checkInf: bool)
    requires forall key :: lo <= key < hi ==> KeyRead(r, v, key)
    ensures FirstLoaded(e, r, v, lo, hi) == Number(FirstBlockState(e, r, lo, hi))
    ensures NextLoaded(e, r, v, st, lo, hi, checkInf) == NextBlockState(e, r, st, lo, hi, checkInf)
  {
    ReadProduct(e, r, Reference(BlockMax(r, lo, hi)), v, lo, hi);
    ReadProduct(e, r, Reference(MaxExt(st.max, BlockMax(r, lo, hi))), v, lo, hi);
  }
}
