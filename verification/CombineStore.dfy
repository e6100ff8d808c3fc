/** fa2/headers/flash_fwd_kernel.h, combine_attn_seqk_parallel: what the combine kernel stores for a batch
    of ragged sequences, over all of its thread blocks. */
module CombineStore {
  import opened Numbers
  import opened VarlenLayout

  /** What the kernel combines for each padded position: a log-sum-exp and an output row. */
  datatype Merged = Merged(lse: real, row: seq<real>)

  /** A position that is a real row of its sequence. */
  predicate RealAt(p: Params, idx: int)
    requires InBatches(p) && p.cuQ.Some? && 0 < p.heads && 0 < p.seqlenQ && 0 <= idx < LseSize(p)
  {
    DecodeIsInverse(p, idx);
    var x := Decode(p, idx);
    IsReal(p, x.b, x.h, x.r)
  }

  function AddressAt(p: Params, idx: int): int
    requires InBatches(p) && p.cuQ.Some? && 0 < p.heads && 0 < p.seqlenQ && 0 <= idx < LseSize(p)
  {
    DecodeIsInverse(p, idx);
    var x := Decode(p, idx);
    PackedLse(p, x.b, x.h, x.r)
  }

  function TokenAt(p: Params, idx: int): int
    requires InBatches(p) && p.cuQ.Some? && 0 < p.heads && 0 < p.seqlenQ && 0 <= idx < LseSize(p)
  {
    DecodeIsInverse(p, idx);
    var x := Decode(p, idx);
    p.cuQ.value[x.b] + x.r
  }

  /** Real positions have their own address in the buffer, and their own output row. */
  lemma AddressesApart(p: Params, i: int, j: int)
    requires Ragged(p) && 0 <= i < LseSize(p) && 0 <= j < LseSize(p) && RealAt(p, i) && RealAt(p, j)
    ensures 0 <= AddressAt(p, i) < p.heads * p.totalQ && 0 <= TokenAt(p, i) < p.totalQ
    ensures AddressAt(p, i) == AddressAt(p, j) ==> i == j
    ensures TokenAt(p, i) == TokenAt(p, j) && Decode(p, i).h == Decode(p, j).h ==> i == j
  {
    DecodeIsInverse(p, i);
    DecodeIsInverse(p, j);
    var x, y := Decode(p, i), Decode(p, j);
    PackedInBounds(p, x.b, x.h, x.r);
    TokenInRange(p, x.b, x.h, x.r);
    if AddressAt(p, i) == AddressAt(p, j) {
      PackedIsInjective(p, x.b, x.h, x.r, y.b, y.h, y.r);
    }
    if TokenAt(p, i) == TokenAt(p, j) {
      TokensApart(p, x.b, x.r, y.b, y.r);
    }
  }

  /** The buffers have room for exactly the real rows. */
  predicate Sized(p: Params, lse: array<real>, o: array2<seq<real>>) {
    lse.Length == p.heads * p.totalQ && o.Length0 == p.totalQ && o.Length1 == p.heads
  }

  ghost predicate Holds(p: Params, v: int -> Merged, lse: array<real>, o: array2<seq<real>>, i: int)
    requires Ragged(p) && 0 <= i < LseSize(p) && RealAt(p, i)
    requires Sized(p, lse, o)
    reads lse, o
  {
    AddressesApart(p, i, i);
    DecodeIsInverse(p, i);
    lse[AddressAt(p, i)] == v(i).lse && o[TokenAt(p, i), Decode(p, i).h] == v(i).row
  }

  /** The real rows before position n are stored. */
  ghost predicate Stored(p: Params, v: int -> Merged, n: int, lse: array<real>, o: array2<seq<real>>)
    requires Ragged(p) && n <= LseSize(p) && Sized(p, lse, o)
    reads lse, o
  {
    forall i :: 0 <= i < n && RealAt(p, i) ==> Holds(p, v, lse, o, i)
  }

  /** What one thread writes for its row: an element of the log-sum-exp buffer and a cell of the output. */
  datatype Write = Write(address: int, token: int, head: int)

  function WriteAt(p: Params, idx: int): Write
    requires InBatches(p) && p.cuQ.Some? && 0 < p.heads && 0 < p.seqlenQ && 0 <= idx < LseSize(p)
  {
    Write(AddressAt(p, idx), TokenAt(p, idx), Decode(p, idx).h)
  }

  /** Two writes meet neither in the log-sum-exp buffer nor in the output. */
  predicate Disjoint(w: Write, w': Write) {
    w.address != w'.address && (w.token != w'.token || w.head != w'.head)
  }

  ghost predicate WriteOfRow(p: Params, n: int, w: Write)
    requires Ragged(p) && n <= LseSize(p)
  {
    exists i :: 0 <= i < n && RealAt(p, i) && w == WriteAt(p, i)
  }

  /** The writes so far are those of the real rows before position n, and no place is written twice. */
  ghost predicate WroteOnce(p: Params, n: int, writes: seq<Write>)
    requires Ragged(p) && n <= LseSize(p)
  {
    && (forall k :: 0 <= k < |writes| ==> WriteOfRow(p, n, writes[k]))
    && (forall i :: 0 <= i < n && RealAt(p, i) ==> WriteAt(p, i) in writes)
    && (forall k, k' :: 0 <= k < k' < |writes| ==> Disjoint(writes[k], writes[k']))
  }

  lemma OneWriteMore(p: Params, n: int, writes: seq<Write>)
    requires Ragged(p) && 0 <= n < LseSize(p) && WroteOnce(p, n, writes)
    ensures WroteOnce(p, n + 1, if RealAt(p, n) then writes + [WriteAt(p, n)] else writes)
  {
    var after := if RealAt(p, n) then writes + [WriteAt(p, n)] else writes;
    forall k | 0 <= k < |after| ensures WriteOfRow(p, n + 1, after[k]) {
      if k < |writes| {
        assert WriteOfRow(p, n, writes[k]);
      }
    }
    forall i | 0 <= i < n + 1 && RealAt(p, i) ensures WriteAt(p, i) in after {
      assert i == n ==> after[|writes|] == WriteAt(p, n);
    }
    forall k | 0 <= k < |writes| && RealAt(p, n) ensures Disjoint(writes[k], WriteAt(p, n)) {
      assert WriteOfRow(p, n, writes[k]);
      var i :| 0 <= i < n && RealAt(p, i) && writes[k] == WriteAt(p, i);
      AddressesApart(p, i, n);
    }
  }

  /** A position that is a real row goes to its packed places; the other rows stay. */
  method StoreRow(p: Params, v: int -> Merged, idx: int, lse: array<real>, o: array2<seq<real>>)
      returns (ghost w: Write)
    requires Ragged(p) && Sized(p, lse, o) && 0 <= idx < LseSize(p) && RealAt(p, idx) && Stored(p, v, idx, lse, o)
    modifies lse, o
    ensures Stored(p, v, idx + 1, lse, o) && w == WriteAt(p, idx)
  {
    DecodeIsInverse(p, idx);
    AddressesApart(p, idx, idx);
    var x := Decode(p, idx);
    w := Write(x.h * p.totalQ + p.cuQ.value[x.b] + x.r, p.cuQ.value[x.b] + x.r, x.h);
    lse[x.h * p.totalQ + p.cuQ.value[x.b] + x.r] := v(idx).lse;
    o[p.cuQ.value[x.b] + x.r, x.h] := v(idx).row;
    forall i | 0 <= i < idx && RealAt(p, i) ensures Holds(p, v, lse, o, i) {
      AddressesApart(p, i, idx);
      assert old(Holds(p, v, lse, o, i));
    }
  }

  /** One thread's position: padding rows are skipped. */
  method StoreAt(p: Params, v: int -> Merged, idx: int, lse: array<real>, o: array2<seq<real>>,
                 ghost writes: seq<Write>) returns (ghost writes': seq<Write>)
    requires Ragged(p) && Sized(p, lse, o) && 0 <= idx < LseSize(p)
    requires Stored(p, v, idx, lse, o) && WroteOnce(p, idx, writes)
    modifies lse, o
    ensures Stored(p, v, idx + 1, lse, o) && WroteOnce(p, idx + 1, writes')
  {
    DecodeIsInverse(p, idx);
    OneWriteMore(p, idx, writes);
    var x := Decode(p, idx);
    writes' := writes;
    if x.r < p.cuQ.value[x.b + 1] - p.cuQ.value[x.b] {
      ghost var w := StoreRow(p, v, idx, lse, o);
      writes' := writes + [w];
    }
  }

  /** An element of the log-sum-exp buffer, and a cell of the output, is written. */
  predicate WritesLse(writes: seq<Write>, a: int) {
    exists k :: 0 <= k < |writes| && writes[k].address == a
  }

  predicate WritesCell(writes: seq<Write>, token: int, head: int) {
    exists k :: 0 <= k < |writes| && writes[k].token == token && writes[k].head == head
  }

  /** All thread blocks of the combine kernel, kM positions each. Every real row's log-sum-exp and
      output row is stored at its packed place; every element of the log-sum-exp buffer and every cell of
      the output is written, none is written twice, and nothing else is. */
  method StoreAll(p: Params, v: int -> Merged, kM: int, lse: array<real>, o: array2<seq<real>>)
      returns (ghost writes: seq<Write>)
    requires Ragged(p) && 0 < kM && Sized(p, lse, o)
    modifies lse, o
    ensures forall b, h, r :: IsReal(p, b, h, r) ==> RowStored(p, v, lse, o, b, h, r)
    ensures forall k, k' :: 0 <= k < k' < |writes| ==> Disjoint(writes[k], writes[k'])
    ensures forall a :: WritesLse(writes, a) <==> 0 <= a < lse.Length
    ensures forall t, h :: WritesCell(writes, t, h) <==> 0 <= t < o.Length0 && 0 <= h < o.Length1
  {
    var size := LseSize(p);
    SizeIsNatural(p);
    writes := [];
    var first := 0;
    while first < size
      invariant 0 <= first && Stored(p, v, MinInt(first, size), lse, o) && WroteOnce(p, MinInt(first, size), writes)
      decreases size - first
    {
      for col := 0 to kM
        invariant Stored(p, v, MinInt(first + col, size), lse, o)
        invariant WroteOnce(p, MinInt(first + col, size), writes)
      {
        if first + col < size {
          writes := StoreAt(p, v, first + col, lse, o, writes);
        }
      }
      first := first + kM;
    }
    AllStored(p, v, lse, o);
    AllWritten(p, writes);
  }

  lemma SizeIsNatural(p: Params)
    requires Ragged(p)
    ensures 0 <= LseSize(p)
  {
    TimesNonNegative(p.batches, p.heads);
    TimesNonNegative(p.batches * p.heads, p.seqlenQ);
  }

  ghost predicate RowStored(p: Params, v: int -> Merged, lse: array<real>, o: array2<seq<real>>, b: int, h: int, r: int)
    requires Ragged(p) && IsReal(p, b, h, r)
    requires Sized(p, lse, o)
    reads lse, o
  {
    PackedInBounds(p, b, h, r);
    TokenInRange(p, b, h, r);
    lse[PackedLse(p, b, h, r)] == v(Padded(p, b, h, r)).lse && o[p.cuQ.value[b] + r, h] == v(Padded(p, b, h, r)).row
  }

  lemma AllStored(p: Params, v: int -> Merged, lse: array<real>, o: array2<seq<real>>)
    requires Ragged(p) && Sized(p, lse, o) && Stored(p, v, LseSize(p), lse, o)
    ensures forall b, h, r :: IsReal(p, b, h, r) ==> RowStored(p, v, lse, o, b, h, r)
  {
    forall b, h, r | IsReal(p, b, h, r) ensures RowStored(p, v, lse, o, b, h, r) {
      PaddedDecodes(p, b, h, r);
      assert Holds(p, v, lse, o, Padded(p, b, h, r));
    }
  }

  /** The writes are at the places the buffers have, and at all of them. */
  lemma AllWritten(p: Params, writes: seq<Write>)
    requires Ragged(p) && WroteOnce(p, LseSize(p), writes)
    ensures forall a :: WritesLse(writes, a) <==> 0 <= a < p.heads * p.totalQ
    ensures forall t, h :: WritesCell(writes, t, h) <==> 0 <= t < p.totalQ && 0 <= h < p.heads
  {
    forall k | 0 <= k < |writes|
      ensures 0 <= writes[k].address < p.heads * p.totalQ
      ensures 0 <= writes[k].token < p.totalQ && 0 <= writes[k].head < p.heads
    {
      assert WriteOfRow(p, LseSize(p), writes[k]);
      var i :| 0 <= i < LseSize(p) && RealAt(p, i) && writes[k] == WriteAt(p, i);
      AddressesApart(p, i, i);
      DecodeIsInverse(p, i);
    }
    forall a | 0 <= a < p.heads * p.totalQ ensures WritesLse(writes, a) {
      var b, h, r := PackedIsOnto(p, a);
      RowIsWritten(p, writes, b, h, r);
    }
    forall t, h | 0 <= t < p.totalQ && 0 <= h < p.heads ensures WritesCell(writes, t, h) {
      var b := OwnerOf(p, t);
      RowIsWritten(p, writes, b, h, t - p.cuQ.value[b]);
    }
  }

  lemma RowIsWritten(p: Params, writes: seq<Write>, b: int, h: int, r: int)
    requires Ragged(p) && WroteOnce(p, LseSize(p), writes) && IsReal(p, b, h, r)
    ensures WritesLse(writes, PackedLse(p, b, h, r)) && WritesCell(writes, p.cuQ.value[b] + r, h)
  {
    PaddedDecodes(p, b, h, r);
    var w := WriteAt(p, Padded(p, b, h, r));
    assert w in writes;
    assert w == Write(PackedLse(p, b, h, r), p.cuQ.value[b] + r, h);
  }
}
