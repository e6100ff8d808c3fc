/** fa2/headers/block_info.h and the addresses of fa2/headers/flash_fwd_kernel.h: where a batch of ragged
    sequences keeps its queries, keys, log-sum-exps and outputs. */
module VarlenLayout {
  import opened Contents
  import opened Numbers

  /** The launch parameters the addresses depend on. Without cumulative lengths every sequence has
      seqlenQ queries and seqlenK keys. */
  datatype Params = Params(
    batches: int, heads: int, seqlenQ: int, seqlenK: int, totalQ: int,
    cuQ: Option<seq<int>>, cuK: Option<seq<int>>, cumulativeK: bool,
    leftpad: Option<seq<int>>, usedK: Option<seq<int>>, seqlenNew: Option<int>)

  // ---- BlockInfo, for the Varlen instances

  /** Each array has an entry for every sequence, and cumulative ones one more. */
  predicate InBatches(p: Params) {
    && (p.cuQ.Some? ==> |p.cuQ.value| == p.batches + 1)
    && (p.cuK.Some? ==> |p.cuK.value| == if p.cumulativeK then p.batches + 1 else p.batches)
    && (p.leftpad.Some? ==> |p.leftpad.value| == p.batches)
    && (p.usedK.Some? ==> |p.usedK.value| == p.batches)
  }

  predicate InBatch(p: Params, b: int) {
    InBatches(p) && 0 <= b < p.batches
  }

  function SumQ(p: Params, b: int): int
    requires InBatch(p, b)
  {
    if p.cuQ.None? then -1 else p.cuQ.value[b]
  }

  function SumK(p: Params, b: int): int
    requires InBatch(p, b)
  {
    if p.cuK.None? || !p.cumulativeK then -1 else p.cuK.value[b]
  }

  function SeqlenQ(p: Params, b: int): int
    requires InBatch(p, b)
  {
    if p.cuQ.None? then p.seqlenQ else p.cuQ.value[b + 1] - SumQ(p, b)
  }

  function Leftpad(p: Params, b: int): int
    requires InBatch(p, b)
  {
    if p.leftpad.None? then 0 else p.leftpad.value[b]
  }

  function CachedK(p: Params, b: int): int
    requires InBatch(p, b)
  {
    (if p.cuK.None? then p.seqlenK
     else if p.cumulativeK then p.cuK.value[b + 1] - SumK(p, b)
     else p.cuK.value[b]) - Leftpad(p, b)
  }

  function SeqlenK(p: Params, b: int): int
    requires InBatch(p, b)
  {
    if p.usedK.Some? then p.usedK.value[b] - Leftpad(p, b)
    else CachedK(p, b) + (if p.seqlenNew.None? then 0 else p.seqlenNew.value)
  }

  function QOffset(p: Params, batchStride: int, rowStride: int, b: int): int
    requires InBatch(p, b)
  {
    if SumQ(p, b) == -1 then b * batchStride else SumQ(p, b) * rowStride
  }

  function KOffset(p: Params, batchStride: int, rowStride: int, b: int): int
    requires InBatch(p, b)
  {
    if SumK(p, b) == -1 then b * batchStride + Leftpad(p, b) * rowStride else (SumK(p, b) + Leftpad(p, b)) * rowStride
  }

  // ---- packed keys

  /** Packed sequences of keys: non-decreasing cumulative lengths, and no sequence uses more than
      it has. */
  ghost predicate PackedKeys(p: Params) {
    && InBatches(p) && 0 <= p.batches && p.cuK.Some? && p.cumulativeK && p.seqlenNew.None? && 0 <= p.cuK.value[0]
    && forall b {:trigger Leftpad(p, b)} :: 0 <= b < p.batches ==>
         0 <= Leftpad(p, b) && 0 <= UsedRoom(p, b) <= p.cuK.value[b + 1] - p.cuK.value[b]
  }

  /** The rows a sequence uses, its left padding included. */
  function UsedRoom(p: Params, b: int): int
    requires InBatch(p, b)
  {
    SeqlenK(p, b) + Leftpad(p, b)
  }

  /** The row of key j of a sequence in the packed buffer. */
  function KeyRow(p: Params, b: int, j: int): int
    requires InBatch(p, b) && p.cuK.Some?
  {
    p.cuK.value[b] + Leftpad(p, b) + j
  }

  lemma {:induction false} KeysGrow(p: Params, a: int, b: int)
    requires PackedKeys(p) && 0 <= a <= b <= p.batches
    ensures 0 <= p.cuK.value[a] <= p.cuK.value[b]
    decreases b
  {
    if 0 < b {
      assert 0 <= Leftpad(p, b - 1);
      KeysGrow(p, if a < b then a else a - 1, b - 1);
    }
  }

  /** k_offset leads to the sequence's own rows, after its padding. */
  lemma KeysStayInTheirSequence(p: Params, b: int, j: int, batchStride: int, rowStride: int)
    requires PackedKeys(p) && 0 <= b < p.batches && 0 <= j < SeqlenK(p, b)
    ensures p.cuK.value[b] <= KeyRow(p, b, j) < p.cuK.value[b + 1]
    ensures KOffset(p, batchStride, rowStride, b) + j * rowStride == KeyRow(p, b, j) * rowStride
  {
    KeysGrow(p, 0, b);
    assert 0 <= Leftpad(p, b);
    TimesPlus(rowStride, p.cuK.value[b] + Leftpad(p, b), j);
  }

  /** No two attended keys of the batch are the same row. */
  lemma KeysApart(p: Params, b: int, j: int, b': int, j': int)
    requires PackedKeys(p) && 0 <= b < p.batches && 0 <= b' < p.batches
    requires 0 <= j < SeqlenK(p, b) && 0 <= j' < SeqlenK(p, b') && KeyRow(p, b, j) == KeyRow(p, b', j')
    ensures b == b' && j == j'
  {
    KeysStayInTheirSequence(p, b, j, 0, 0);
    KeysStayInTheirSequence(p, b', j', 0, 0);
    if b < b' {
      KeysGrow(p, b + 1, b');
    } else if b' < b {
      KeysGrow(p, b' + 1, b);
    }
  }

  /** How many rows of the cache a sequence uses, its padding included: what the launch says, or what the
      sequence has and the new keys. */
  lemma UsedRoomIs(p: Params, b: int)
    requires InBatch(p, b)
    ensures p.usedK.Some? ==> UsedRoom(p, b) == p.usedK.value[b]
    ensures p.usedK.None? && p.seqlenNew.None? && p.cuK.None? ==> UsedRoom(p, b) == p.seqlenK
    ensures p.usedK.None? && p.seqlenNew.None? && p.cuK.Some? && !p.cumulativeK ==>
      UsedRoom(p, b) == p.cuK.value[b]
    ensures p.usedK.None? && p.seqlenNew.None? && p.cuK.Some? && p.cumulativeK ==>
      UsedRoom(p, b) == p.cuK.value[b + 1] - p.cuK.value[b]
    ensures p.usedK.None? && p.seqlenNew.Some? ==>
      UsedRoom(p, b) == UsedRoom(p.(seqlenNew := None), b) + p.seqlenNew.value
  {
  }

  /** Without cumulative lengths every sequence has a slab of `room` rows, and its attended keys are rows of
      its own slab, after the padding. */
  lemma FixedKeysStay(p: Params, b: int, j: int, room: int, rowStride: int)
    requires InBatch(p, b) && (p.cuK.None? || !p.cumulativeK) && 0 < rowStride
    requires 0 <= Leftpad(p, b) && UsedRoom(p, b) <= room && 0 <= j < SeqlenK(p, b)
    ensures KOffset(p, room * rowStride, rowStride, b) + j * rowStride == (b * room + (Leftpad(p, b) + j)) * rowStride
    ensures b * room <= b * room + (Leftpad(p, b) + j) < (b + 1) * room
  {
    TimesAssociative(b, room, rowStride);
    var i := Leftpad(p, b) + j;
    assert (b * room + i) * rowStride == b * room * rowStride + i * rowStride;
    assert i * rowStride == Leftpad(p, b) * rowStride + j * rowStride;
    assert (b + 1) * room == b * room + room;
  }

  // ---- ragged queries

  /** Cumulative query lengths of non-negative differences, none above the padded length. */
  ghost predicate Ragged(p: Params) {
    && 0 <= p.batches && 0 < p.heads && 0 < p.seqlenQ && InBatches(p)
    && p.cuQ.Some? && p.cuQ.value[0] == 0 && p.cuQ.value[p.batches] == p.totalQ
    && forall b :: 0 <= b < p.batches ==> 0 <= SeqlenQ(p, b) <= p.seqlenQ
  }

  lemma {:induction false} CumulativeGrows(p: Params, a: int, b: int)
    requires Ragged(p) && 0 <= a <= b <= p.batches
    ensures p.cuQ.value[a] <= p.cuQ.value[b]
    decreases b - a
  {
    if a < b {
      CumulativeGrows(p, a, b - 1);
      assert 0 <= SeqlenQ(p, b - 1);
    }
  }

  /** q_offset leads to the sequence's own rows, packed or in slabs of seqlenQ rows. */
  lemma QueriesStay(p: Params, b: int, r: int, rowStride: int)
    requires InBatch(p, b) && 0 <= r < SeqlenQ(p, b) && (p.cuQ.Some? ==> 0 <= p.cuQ.value[b])
    ensures p.cuQ.Some? ==>
      QOffset(p, p.seqlenQ * rowStride, rowStride, b) + r * rowStride == (p.cuQ.value[b] + r) * rowStride
      && p.cuQ.value[b] <= p.cuQ.value[b] + r < p.cuQ.value[b + 1]
    ensures p.cuQ.None? ==>
      QOffset(p, p.seqlenQ * rowStride, rowStride, b) + r * rowStride == (b * p.seqlenQ + r) * rowStride
      && b * p.seqlenQ <= b * p.seqlenQ + r < (b + 1) * p.seqlenQ
  {
    if p.cuQ.Some? {
      TimesPlus(rowStride, p.cuQ.value[b], r);
    } else {
      TimesAssociative(b, p.seqlenQ, rowStride);
      TimesPlus(rowStride, b * p.seqlenQ, r);
      assert (b + 1) * p.seqlenQ == b * p.seqlenQ + p.seqlenQ;
    }
  }

  /** A query row of a sequence, by position in the padded (batch, head, row) order. */
  function Padded(p: Params, b: int, h: int, r: int): int {
    (b * p.heads + h) * p.seqlenQ + r
  }

  function LseSize(p: Params): int {
    p.batches * p.heads * p.seqlenQ
  }

  predicate InBox(p: Params, b: int, h: int, r: int) {
    0 <= b < p.batches && 0 <= h < p.heads && 0 <= r < p.seqlenQ
  }

  datatype Place = Place(b: int, h: int, r: int)

  /** b_i, h_i and r_i as the combine kernel computes them. */
  function Decode(p: Params, idx: int): Place
    requires 0 < p.heads && 0 < p.seqlenQ && 0 <= idx
  {
    PositiveProduct(p.heads, p.seqlenQ);
    var b := idx / (p.heads * p.seqlenQ);
    var h := (idx - b * p.heads * p.seqlenQ) / p.seqlenQ;
    Place(b, h, idx - (b * p.heads + h) * p.seqlenQ)
  }

  lemma PositiveProduct(a: int, b: int)
    requires 0 < a && 0 < b
    ensures 0 < a * b
  {
  }

  lemma QuotientBounds(x: int, n: int)
    requires 0 < n && 0 <= x
    ensures 0 <= x / n && (x / n) * n <= x < (x / n) * n + n
  {
    assert x == n * (x / n) + x % n;
  }

  lemma QuotientBelow(x: int, n: int, m: int)
    requires 0 < n && 0 <= x < m * n
    ensures x / n < m
  {
    QuotientBounds(x, n);
    TimesMonotone(m, x / n, n);
  }

  /** Decoding a position gives a place of the box, and encoding the place gives it back. */
  lemma DecodeIsInverse(p: Params, idx: int)
    requires 0 < p.heads && 0 < p.seqlenQ && 0 <= idx < LseSize(p)
    ensures var x := Decode(p, idx); InBox(p, x.b, x.h, x.r) && Padded(p, x.b, x.h, x.r) == idx
  {
    PositiveProduct(p.heads, p.seqlenQ);
    var n := p.heads * p.seqlenQ;
    TimesAssociative(p.batches, p.heads, p.seqlenQ);
    QuotientBounds(idx, n);
    QuotientBelow(idx, n, p.batches);
    var b := idx / n;
    TimesAssociative(b, p.heads, p.seqlenQ);
    var rest := idx - b * p.heads * p.seqlenQ;
    QuotientBounds(rest, p.seqlenQ);
    QuotientBelow(rest, p.seqlenQ, p.heads);
    assert (b * p.heads + rest / p.seqlenQ) * p.seqlenQ == b * p.heads * p.seqlenQ + (rest / p.seqlenQ) * p.seqlenQ;
  }

  /** And the other way round: every place has a position, which decodes to it. */
  lemma PaddedDecodes(p: Params, b: int, h: int, r: int)
    requires 0 < p.heads && 0 < p.seqlenQ && InBox(p, b, h, r)
    ensures 0 <= Padded(p, b, h, r) < LseSize(p) && Decode(p, Padded(p, b, h, r)) == Place(b, h, r)
  {
    var n, idx := p.heads * p.seqlenQ, Padded(p, b, h, r);
    PositiveProduct(p.heads, p.seqlenQ);
    assert idx == b * p.heads * p.seqlenQ + h * p.seqlenQ + r;
    TimesAssociative(b, p.heads, p.seqlenQ);
    TimesNonNegative(b, n);
    TimesNonNegative(h, p.seqlenQ);
    TimesMonotone(h + 1, p.heads, p.seqlenQ);
    assert (h + 1) * p.seqlenQ == h * p.seqlenQ + p.seqlenQ;
    QuotientIs(idx, n, b);
    QuotientIs(h * p.seqlenQ + r, p.seqlenQ, h);
    TimesMonotone(b + 1, p.batches, n);
    assert (b + 1) * n == b * n + n;
    TimesAssociative(p.batches, p.heads, p.seqlenQ);
  }

  // ---- the packed buffers

  /** A row its sequence really has: the rest of the padded rows is padding. */
  predicate IsReal(p: Params, b: int, h: int, r: int)
    requires InBatches(p) && p.cuQ.Some?
  {
    0 <= b < p.batches && 0 <= h < p.heads && 0 <= r < SeqlenQ(p, b)
  }

  /** The packed log-sum-exp buffer is (heads, totalQ). */
  function PackedLse(p: Params, b: int, h: int, r: int): int
    requires InBatch(p, b) && p.cuQ.Some?
  {
    h * p.totalQ + p.cuQ.value[b] + r
  }

  lemma TokenInRange(p: Params, b: int, h: int, r: int)
    requires Ragged(p) && IsReal(p, b, h, r)
    ensures 0 <= p.cuQ.value[b] + r < p.totalQ
  {
    CumulativeGrows(p, 0, b);
    CumulativeGrows(p, b + 1, p.batches);
  }

  lemma PackedInBounds(p: Params, b: int, h: int, r: int)
    requires Ragged(p) && IsReal(p, b, h, r)
    ensures 0 <= PackedLse(p, b, h, r) < p.heads * p.totalQ
  {
    TokenInRange(p, b, h, r);
    TimesNonNegative(h, p.totalQ);
    TimesMonotone(h + 1, p.heads, p.totalQ);
    assert (h + 1) * p.totalQ == h * p.totalQ + p.totalQ;
  }

  /** Two sequences own different tokens. */
  lemma TokensApart(p: Params, b: int, r: int, b': int, r': int)
    requires Ragged(p) && 0 <= b < p.batches && 0 <= b' < p.batches && 0 <= r < SeqlenQ(p, b)
    requires 0 <= r' < SeqlenQ(p, b')
    requires p.cuQ.value[b] + r == p.cuQ.value[b'] + r'
    ensures b == b' && r == r'
  {
    if b < b' {
      CumulativeGrows(p, b + 1, b');
    } else if b' < b {
      CumulativeGrows(p, b' + 1, b);
    }
  }

  /** No two real rows share a packed address. */
  lemma PackedIsInjective(p: Params, b: int, h: int, r: int, b': int, h': int, r': int)
    requires Ragged(p) && IsReal(p, b, h, r) && IsReal(p, b', h', r')
    requires PackedLse(p, b, h, r) == PackedLse(p, b', h', r')
    ensures b == b' && h == h' && r == r'
  {
    TokenInRange(p, b, h, r);
    TokenInRange(p, b', h', r');
    assert (h + 1) * p.totalQ == h * p.totalQ + p.totalQ && (h' + 1) * p.totalQ == h' * p.totalQ + p.totalQ;
    SameMultiple(PackedLse(p, b, h, r), p.totalQ, h, h');
    TokensApart(p, b, r, b', r');
  }

  /** The sequence a token belongs to. */
  lemma OwnerOf(p: Params, token: int) returns (b: int)
    requires Ragged(p) && 0 <= token < p.totalQ
    ensures 0 <= b < p.batches && p.cuQ.value[b] <= token < p.cuQ.value[b + 1]
  {
    b := 0;
    while p.cuQ.value[b + 1] <= token
      invariant 0 <= b < p.batches && p.cuQ.value[b] <= token
      decreases p.batches - b
    {
      b := b + 1;
    }
  }

  /** Every address of the packed buffer belongs to a real row. */
  lemma PackedIsOnto(p: Params, a: int) returns (b: int, h: int, r: int)
    requires Ragged(p) && 0 <= a < p.heads * p.totalQ
    ensures IsReal(p, b, h, r) && PackedLse(p, b, h, r) == a
  {
    assert 0 < p.totalQ by {
      CumulativeGrows(p, 0, p.batches);
      TimesZero(p.heads, p.totalQ);
    }
    h := a / p.totalQ;
    QuotientBounds(a, p.totalQ);
    QuotientBelow(a, p.totalQ, p.heads);
    b := OwnerOf(p, a - h * p.totalQ);
    r := a - h * p.totalQ - p.cuQ.value[b];
  }

  // ---- the same places by the other paths

  /** row_offset_lseaccum of compute_attn_1rowblock_splitkv, at row `row` of tile m. */
  function RowBlockLse(p: Params, split: bool, splitIdx: int, b: int, h: int, m: int, kM: int, row: int): int
    requires InBatch(p, b)
  {
    (if split then ((splitIdx * p.batches + b) * p.heads + h) * p.seqlenQ
     else h * p.totalQ + QOffset(p, p.seqlenQ, 1, b)) + m * kM + row
  }

  /** Unsplit, a tile writes its rows where the combine kernel would: at the packed address. */
  lemma UnsplitIsPacked(p: Params, b: int, h: int, m: int, kM: int, row: int)
    requires Ragged(p) && 0 <= b < p.batches
    ensures RowBlockLse(p, false, 0, b, h, m, kM, row) == PackedLse(p, b, h, m * kM + row)
  {
    CumulativeGrows(p, 0, b);
  }

  /** get_lse_tile of the unsplit kernel gives the same address: a batch offset, then strides
      (heads * totalQ, totalQ, 1) at (0, h, m * kM + row). */
  lemma LseTileIsPacked(p: Params, b: int, h: int, m: int, kM: int, row: int)
    requires Ragged(p) && 0 <= b < p.batches
    ensures QOffset(p, p.seqlenQ, 1, b) + (0 * (p.heads * p.totalQ) + h * p.totalQ + (m * kM + row))
         == PackedLse(p, b, h, m * kM + row)
  {
    CumulativeGrows(p, 0, b);
  }

  /** Split, a tile leaves its partial results where the combine kernel looks for split s of the
      row's position. */
  lemma SplitIsCombined(p: Params, s: int, b: int, h: int, m: int, kM: int, row: int)
    requires InBatch(p, b)
    ensures RowBlockLse(p, true, s, b, h, m, kM, row) == s * LseSize(p) + Padded(p, b, h, m * kM + row)
  {
    SplitStride(s, p.batches, p.heads, p.seqlenQ, b, h);
  }

  lemma SplitStride(s: int, n: int, heads: int, len: int, b: int, h: int)
    ensures ((s * n + b) * heads + h) * len == s * (n * heads * len) + (b * heads + h) * len
  {
    assert (s * n + b) * heads == s * n * heads + b * heads;
    assert (s * n * heads + (b * heads + h)) * len == s * n * heads * len + (b * heads + h) * len;
    assert s * n * heads * len == s * (n * heads * len) by {
      TimesAssociative(s, n, heads);
      TimesAssociative(s, n * heads, len);
    }
  }

  /** The output row of token t and head h, and the same row by the unsplit path. */
  function OutputRow(t: int, h: int, rowStride: int, headStride: int): int {
    t * rowStride + h * headStride
  }

  lemma UnsplitOutputIsCombined(p: Params, b: int, h: int, m: int, kM: int, row: int, batchStride: int, rowStride: int,
                                headStride: int)
    requires Ragged(p) && 0 <= b < p.batches
    ensures QOffset(p, batchStride, rowStride, b) + m * kM * rowStride + h * headStride + row * rowStride
         == OutputRow(p.cuQ.value[b] + (m * kM + row), h, rowStride, headStride)
  {
    CumulativeGrows(p, 0, b);
    TimesPlus(rowStride, m * kM, row);
    TimesPlus(rowStride, p.cuQ.value[b], m * kM + row);
  }

  /** With heads packed inside a row, different rows write different elements. */
  lemma OutputRowsApart(t: int, h: int, t': int, h': int, heads: int, rowStride: int, headStride: int, d: int, i: int,
                        i': int)
    requires 0 <= h < heads && 0 <= h' < heads && 0 <= i < d && 0 <= i' < d
    requires d <= headStride && heads * headStride <= rowStride
    requires OutputRow(t, h, rowStride, headStride) + i == OutputRow(t', h', rowStride, headStride) + i'
    ensures t == t' && h == h' && i == i'
  {
    var x, x' := h * headStride + i, h' * headStride + i';
    TimesNonNegative(h, headStride);
    TimesNonNegative(h', headStride);
    TimesMonotone(h + 1, heads, headStride);
    TimesMonotone(h' + 1, heads, headStride);
    assert (h + 1) * headStride == h * headStride + headStride && (h' + 1) * headStride == h' * headStride + headStride;
    assert (t + 1) * rowStride == t * rowStride + rowStride && (t' + 1) * rowStride == t' * rowStride + rowStride;
    SameMultiple(t * rowStride + x, rowStride, t, t');
    SameMultiple(x, headStride, h, h');
  }
}
