/** What a reader finds in the output of prepare/quant_heads_stream.py, stream_rewrite. */
module RewriteRoundTrip {
  import opened ByteStrings
  import opened Contents
  import opened Safetensors
  import opened StreamRewrite

  // ---- the kept tensors are the source's, less the dropped ones

  lemma {:induction false} FindIn(t: seq<Named>, name: string, e: Entry)
    requires DistinctNames(t)
    ensures Find(t, name) == Some(e) <==> Named(name, e) in t
  {
    if t != [] {
      var k := |t| - 1;
      FindIn(t[..k], name, e);
      assert t == t[..k] + [t[k]];
      assert forall y :: y in t[..k] ==> y.name != t[k].name;
    }
  }

  lemma {:induction false} WithoutMembers(t: seq<Named>, drop: set<string>)
    ensures forall y :: y in Without(t, drop) <==> y in t && y.name !in drop
    ensures DistinctNames(t) ==> DistinctNames(Without(t, drop))
  {
    if t != [] {
      var k := |t| - 1;
      WithoutMembers(t[..k], drop);
      assert t == t[..k] + [t[k]];
      if DistinctNames(t) {
        assert forall y :: y in t[..k] ==> y.name != t[k].name;
        DistinctAppend(Without(t[..k], drop), t[k]);
      }
    }
  }

  lemma DistinctAppend(t: seq<Named>, x: Named)
    requires DistinctNames(t) && forall y <- t :: y.name != x.name
    ensures DistinctNames(t + [x])
  {
  }

  lemma {:induction false} InsertMembers(t: seq<Named>, x: Named)
    ensures forall y :: y in Insert(t, x) <==> y in t || y == x
    ensures DistinctNames(t) && (forall y <- t :: y.name != x.name) ==> DistinctNames(Insert(t, x))
  {
    if t == [] || t[|t| - 1].entry.begin <= x.entry.begin {
      if DistinctNames(t) && forall y <- t :: y.name != x.name {
        DistinctAppend(t, x);
      }
    } else {
      var k := |t| - 1;
      InsertMembers(t[..k], x);
      assert t == t[..k] + [t[k]];
      if DistinctNames(t) && forall y <- t :: y.name != x.name {
        assert forall y :: y in t[..k] ==> y.name != t[k].name;
        DistinctAppend(Insert(t[..k], x), t[k]);
      }
    }
  }

  lemma {:induction false} SortedMembers(t: seq<Named>)
    ensures forall y :: y in SortedByBegin(t) <==> y in t
    ensures DistinctNames(t) ==> DistinctNames(SortedByBegin(t))
  {
    if t != [] {
      var k := |t| - 1;
      SortedMembers(t[..k]);
      InsertMembers(SortedByBegin(t[..k]), t[k]);
      assert t == t[..k] + [t[k]];
      assert DistinctNames(t) ==> forall y :: y in t[..k] ==> y.name != t[k].name;
    }
  }

  ghost predicate InOrder(t: seq<Named>) {
    forall i, j :: 0 <= i < j < |t| ==> t[i].entry.begin <= t[j].entry.begin
  }

  lemma LastInOrder(t: seq<Named>, x: Named)
    requires InOrder(t) && forall y <- t :: y.entry.begin <= x.entry.begin
    ensures InOrder(t + [x])
  {
  }

  lemma {:induction false} InsertInOrder(t: seq<Named>, x: Named)
    requires InOrder(t)
    ensures InOrder(Insert(t, x))
  {
    if t == [] || t[|t| - 1].entry.begin <= x.entry.begin {
      LastInOrder(t, x);
    } else {
      var k := |t| - 1;
      InsertInOrder(t[..k], x);
      InsertMembers(t[..k], x);
      LastInOrder(Insert(t[..k], x), t[k]);
    }
  }

  /** The kept tensors are copied in the order of their data in the source. */
  lemma {:induction false} SortedInOrder(t: seq<Named>)
    ensures InOrder(SortedByBegin(t))
  {
    if t != [] {
      SortedInOrder(t[..|t| - 1]);
      InsertInOrder(SortedByBegin(t[..|t| - 1]), t[|t| - 1]);
    }
  }

  lemma KeepMembers(h: Header, drop: set<string>)
    ensures forall y :: y in Keep(h, drop) <==> y in h.tensors && y.name !in drop
    ensures DistinctNames(h.tensors) ==> DistinctNames(Keep(h, drop))
  {
    WithoutMembers(h.tensors, drop);
    SortedMembers(Without(h.tensors, drop));
  }

  lemma KeepFinds(h: Header, drop: set<string>, name: string)
    requires DistinctNames(h.tensors)
    ensures Find(Keep(h, drop), name) == if name in drop then None else Find(h.tensors, name)
  {
    KeepMembers(h, drop);
    var a, b := Find(Keep(h, drop), name), Find(h.tensors, name);
    if a.Some? {
      FindIn(Keep(h, drop), name, a.value);
      FindIn(h.tensors, name, a.value);
    }
    if b.Some? {
      FindIn(h.tensors, name, b.value);
      FindIn(Keep(h, drop), name, b.value);
    }
  }

  // ---- what is written under a name

  lemma {:induction false} LookupAppend(a: seq<Item>, b: seq<Item>, name: string)
    ensures Lookup(a + b, name) == if Lookup(b, name).Some? then Lookup(b, name) else Lookup(a, name)
  {
    if b == [] {
      assert a + b == a;
    } else {
      var k := |b| - 1;
      assert (a + b)[..|a + b| - 1] == a + b[..k];
      LookupAppend(a, b[..k], name);
    }
  }

  lemma {:induction false} LookupKept(src: Bytes, start: nat, keep: seq<Named>, name: string)
    requires Ordered(keep)
    ensures Find(keep, name).None? ==> Lookup(KeptItems(src, start, keep), name).None?
    ensures Find(keep, name).Some? ==> Find(keep, name).value.begin <= Find(keep, name).value.end
    ensures Find(keep, name).Some? ==>
      Lookup(KeptItems(src, start, keep), name) == Some(ItemOf(src, start, Named(name, Find(keep, name).value)))
  {
    if keep != [] {
      var k := |keep| - 1;
      LookupKept(src, start, keep[..k], name);
      assert KeptItems(src, start, keep)[..k] == KeptItems(src, start, keep[..k]);
    }
  }

  lemma KeepIsInside(c: Codec, src: Bytes, drop: set<string>)
    requires WellFormed(c, src)
    ensures var (h, start) := ReadHeader(c, src).value; Ordered(Keep(h, drop)) && !AnyMissing(src, start, Keep(h, drop))
  {
    var (h, start) := ReadHeader(c, src).value;
    KeepMembers(h, drop);
    forall i | 0 <= i < |Keep(h, drop)|
      ensures Keep(h, drop)[i].entry.begin <= Keep(h, drop)[i].entry.end && !Missing(src, start, Keep(h, drop)[i])
    {
      assert Keep(h, drop)[i] in Keep(h, drop);
    }
  }

  /** The items a rewrite writes. */
  function Written(c: Codec, src: Bytes, drop: set<string>, add: seq<Item>): seq<Item>
    requires ReadHeader(c, src).Some? && Ordered(Keep(ReadHeader(c, src).value.0, drop))
  {
    KeptItems(src, ReadHeader(c, src).value.1, Keep(ReadHeader(c, src).value.0, drop)) + add
  }

  lemma SourceTensor(c: Codec, src: Bytes, name: string, e: Entry)
    requires WellFormed(c, src) && Find(ReadHeader(c, src).value.0.tensors, name) == Some(e)
    ensures e.begin <= e.end && TensorAt(c, src, name) == Some(ItemOf(src, ReadHeader(c, src).value.1, Named(name, e)))
  {
    FindIn(ReadHeader(c, src).value.0.tensors, name, e);
  }

  lemma KeptUnder(c: Codec, src: Bytes, h: Header, start: nat, drop: set<string>, name: string)
    requires WellFormed(c, src) && ReadHeader(c, src) == Some((h, start)) && Ordered(Keep(h, drop))
    ensures Lookup(KeptItems(src, start, Keep(h, drop)), name) == if name in drop then None else TensorAt(c, src, name)
  {
    LookupKept(src, start, Keep(h, drop), name);
    KeepFinds(h, drop, name);
    var e := Find(h.tensors, name);
    if e.Some? {
      SourceTensor(c, src, name, e.value);
    }
  }

  /** Of every name, the rewritten file holds what was added under it, else nothing if it was
      dropped, else exactly what the source holds. */
  lemma WrittenUnder(c: Codec, src: Bytes, drop: set<string>, add: seq<Item>, name: string)
    requires WellFormed(c, src) && Ordered(Keep(ReadHeader(c, src).value.0, drop))
    ensures Lookup(Written(c, src, drop, add), name) ==
      if Lookup(add, name).Some? then Lookup(add, name) else if name in drop then None else TensorAt(c, src, name)
  {
    var (h, start) := ReadHeader(c, src).value;
    LookupAppend(KeptItems(src, start, Keep(h, drop)), add, name);
    KeptUnder(c, src, h, start, drop, name);
  }

  lemma OutputIs(c: Codec, src: Bytes, h: Header, start: nat, drop: set<string>, add: seq<Item>)
    requires WellFormed(c, src) && ReadHeader(c, src) == Some((h, start)) && Ordered(Keep(h, drop))
    ensures var items := Written(c, src, drop, add);
            Output(c, src, h, start, drop, add) == Rewritten(FileOf(c, h.meta, items), |Payload(items)|)
  {
    KeepIsInside(c, src, drop);
  }

  predicate Names(t: seq<Named>, name: string) {
    exists y :: y in t && y.name == name
  }

  predicate Adds(items: seq<Item>, name: string) {
    exists x :: x in items && x.name == name
  }

  lemma {:induction false} LookupIff(items: seq<Item>, name: string)
    ensures Lookup(items, name).Some? <==> Adds(items, name)
  {
    if items != [] {
      var k := |items| - 1;
      assert items == items[..k] + [items[k]];
      if items[k].name != name {
        LookupIff(items[..k], name);
        assert Adds(items, name) <==> Adds(items[..k], name);
      }
    }
  }

  lemma {:induction false} FindIff(t: seq<Named>, name: string)
    ensures Find(t, name).Some? <==> Names(t, name)
  {
    if t != [] {
      var k := |t| - 1;
      assert t == t[..k] + [t[k]];
      if t[k].name != name {
        FindIff(t[..k], name);
        assert Names(t, name) <==> Names(t[..k], name);
      }
    }
  }

  /** The names in the header are the kept ones and the added ones. */
  lemma NamesAre(c: Codec, src: Bytes, h: Header, start: nat, drop: set<string>, add: seq<Item>, name: string)
    requires WellFormed(c, src) && ReadHeader(c, src) == Some((h, start)) && Ordered(Keep(h, drop))
    ensures Names(PutAll(Layout(Written(c, src, drop, add))), name)
       <==> Adds(add, name) || (Names(h.tensors, name) && name !in drop)
  {
    var items := Written(c, src, drop, add);
    FindIff(PutAll(Layout(items)), name);
    FindLayout(items, name);
    LookupAppend(KeptItems(src, start, Keep(h, drop)), add, name);
    LookupKept(src, start, Keep(h, drop), name);
    KeepFinds(h, drop, name);
    LookupIff(add, name);
    FindIff(h.tensors, name);
  }

  lemma HeaderFileIs(c: Codec, src: Bytes, h: Header, start: nat, drop: set<string>, add: seq<Item>)
    requires Lawful(c) && WellFormed(c, src) && ReadHeader(c, src) == Some((h, start)) && Ordered(Keep(h, drop))
    requires |Blob(c, HeaderOf(h.meta, Written(c, src, drop, add)))| < Pow256(8)
    ensures var r := Output(c, src, h, start, drop, add);
            && r.Rewritten?
            && ReadHeader(c, r.file) == Some((HeaderOf(h.meta, Written(c, src, drop, add)), |r.file| - r.off))
            && (|r.file| - r.off) % 8 == 0
  {
    OutputIs(c, src, h, start, drop, add);
    HeaderReadsBack(c, h.meta, Written(c, src, drop, add));
  }

  /** The rewrite stops on a short read exactly when a kept tensor has bytes past the end of the file. */
  lemma ShortReadIff(c: Codec, src: Bytes, h: Header, start: nat, drop: set<string>, add: seq<Item>)
    requires Ordered(Keep(h, drop))
    ensures Output(c, src, h, start, drop, add) == ShortRead
       <==> exists y :: y in h.tensors && y.name !in drop && y.entry.begin < y.entry.end && |src| < start + y.entry.end
  {
    var keep := Keep(h, drop);
    KeepMembers(h, drop);
    if y :| y in h.tensors && y.name !in drop && y.entry.begin < y.entry.end && |src| < start + y.entry.end {
      assert y in keep;
      var i :| 0 <= i < |keep| && keep[i] == y;
      assert Missing(src, start, keep[i]);
    }
    if AnyMissing(src, start, keep) {
      var i :| 0 <= i < |keep| && Missing(src, start, keep[i]);
      assert keep[i] in keep;
    }
  }

  /** The header that reads back has the source's metadata, names each kept and each added tensor once and
      nothing else, and is followed by the payload, whose size is the number returned and which starts at a
      multiple of 8. */
  lemma HeaderIsRewritten(c: Codec, src: Bytes, h: Header, start: nat, drop: set<string>, add: seq<Item>)
    requires Lawful(c) && WellFormed(c, src) && ReadHeader(c, src) == Some((h, start)) && Ordered(Keep(h, drop))
    requires |Blob(c, HeaderOf(h.meta, Written(c, src, drop, add)))| < Pow256(8)
    ensures var r := Output(c, src, h, start, drop, add);
            && r.Rewritten? && ReadHeader(c, r.file).Some?
            && var (h', start') := ReadHeader(c, r.file).value;
               && h'.meta == h.meta && DistinctNames(h'.tensors)
               && (forall name :: Names(h'.tensors, name)
                             <==> Adds(add, name) || (Names(h.tensors, name) && name !in drop))
               && start' == |r.file| - r.off && start' % 8 == 0
  {
    HeaderFileIs(c, src, h, start, drop, add);
    var t := PutAll(Layout(Written(c, src, drop, add)));
    PutAllIsDistinct(Layout(Written(c, src, drop, add)));
    forall name ensures Names(t, name) <==> Adds(add, name) || (Names(h.tensors, name) && name !in drop) {
      NamesAre(c, src, h, start, drop, add, name);
    }
  }

  /** And every name reads back as it should: what was added under it, nothing if it was dropped, or
      exactly what the source holds. */
  lemma TensorsAreRewritten(c: Codec, src: Bytes, h: Header, start: nat, drop: set<string>, add: seq<Item>,
                            name: string)
    requires Lawful(c) && WellFormed(c, src) && ReadHeader(c, src) == Some((h, start)) && Ordered(Keep(h, drop))
    requires |Blob(c, HeaderOf(h.meta, Written(c, src, drop, add)))| < Pow256(8)
    ensures var r := Output(c, src, h, start, drop, add);
            && r.Rewritten?
            && TensorAt(c, r.file, name)
               == if Lookup(add, name).Some? then Lookup(add, name)
                  else if name in drop then None else TensorAt(c, src, name)
  {
    OutputIs(c, src, h, start, drop, add);
    TensorReadsBack(c, h.meta, Written(c, src, drop, add), name);
    WrittenUnder(c, src, drop, add, name);
  }

  // ---- whether the ranges tile the payload

  ghost predicate CoversByte(t: seq<Named>, i: nat, x: nat)
    requires i < |t|
  {
    t[i].entry.begin <= x < t[i].entry.end
  }

  ghost predicate Covered(t: seq<Named>, x: nat) {
    exists i: nat :: i < |t| && CoversByte(t, i, x)
  }

  /** Every byte of the payload belongs to exactly one tensor, and no range leaves the payload. */
  ghost predicate Tiles(t: seq<Named>, off: nat) {
    && (forall y <- t :: y.entry.begin <= y.entry.end <= off)
    && (forall x: nat :: x < off ==> Covered(t, x))
    && (forall x: nat, i: nat, j: nat :: i < |t| && j < |t| && CoversByte(t, i, x) && CoversByte(t, j, x) ==> i == j)
  }

  lemma {:induction false} SegmentOf(items: seq<Item>, x: nat) returns (i: nat)
    requires x < |Payload(items)|
    ensures i < |items| && |Payload(items[..i])| <= x < |Payload(items[..i])| + |items[i].bytes|
  {
    var k := |items| - 1;
    if |Payload(items[..k])| <= x {
      i := k;
    } else {
      i := SegmentOf(items[..k], x);
      assert items[..k][..i] == items[..i];
    }
  }

  lemma SegmentIsUnique(items: seq<Item>, i: nat, j: nat, x: nat)
    requires i < |items| && j < |items|
    requires |Payload(items[..i])| <= x < |Payload(items[..i])| + |items[i].bytes|
    requires |Payload(items[..j])| <= x < |Payload(items[..j])| + |items[j].bytes|
    ensures i == j
  {
    if i < j {
      assert items[..j][..i] == items[..i];
      PayloadAt(items[..j], i);
    } else if j < i {
      assert items[..i][..j] == items[..j];
      PayloadAt(items[..i], j);
    }
  }

  lemma {:induction false} PutMembers(t: seq<Named>, x: Named)
    requires DistinctNames(t)
    ensures DistinctNames(Put(t, x))
    ensures forall y :: y in Put(t, x) ==> y in t || y == x
  {
    if t != [] {
      var k := |t| - 1;
      assert t == t[..k] + [t[k]];
      assert forall y :: y in t[..k] ==> y.name != t[k].name;
      if t[k].name == x.name {
        DistinctAppend(t[..k], x);
      } else {
        PutMembers(t[..k], x);
        DistinctAppend(Put(t[..k], x), t[k]);
      }
    }
  }

  lemma {:induction false} PutAllIsDistinct(t: seq<Named>)
    ensures DistinctNames(PutAll(t))
  {
    if t != [] {
      PutAllIsDistinct(t[..|t| - 1]);
      PutMembers(PutAll(t[..|t| - 1]), t[|t| - 1]);
    }
  }

  /** An entry of the header is the last segment written under its name, and conversely. */
  lemma HeaderEntry(items: seq<Item>, y: Named)
    ensures y in PutAll(Layout(items))
       <==> (var i := Last(items, y.name); i < |items| && y == Placed(items[i], |Payload(items[..i])|))
  {
    PutAllIsDistinct(Layout(items));
    FindIn(PutAll(Layout(items)), y.name, y.entry);
    FindLayout(items, y.name);
  }

  /** A tensor written and not the last of its name. */
  ghost predicate Overridden(items: seq<Item>, i: nat)
    requires i < |items|
  {
    Last(items, items[i].name) != i
  }

  lemma CoveredBySegment(items: seq<Item>, k: nat, x: nat) returns (i: nat)
    requires k < |PutAll(Layout(items))| && CoversByte(PutAll(Layout(items)), k, x)
    ensures i < |items| && !Overridden(items, i) && PutAll(Layout(items))[k] == Placed(items[i], |Payload(items[..i])|)
    ensures |Payload(items[..i])| <= x < |Payload(items[..i])| + |items[i].bytes|
  {
    var y := PutAll(Layout(items))[k];
    HeaderEntry(items, y);
    i := Last(items, y.name);
  }

  lemma SegmentInHeader(items: seq<Item>, i: nat, x: nat)
    requires i < |items| && !Overridden(items, i)
    requires |Payload(items[..i])| <= x < |Payload(items[..i])| + |items[i].bytes|
    ensures Covered(PutAll(Layout(items)), x)
  {
    var y := Placed(items[i], |Payload(items[..i])|);
    HeaderEntry(items, y);
    var k :| 0 <= k < |PutAll(Layout(items))| && PutAll(Layout(items))[k] == y;
    assert CoversByte(PutAll(Layout(items)), k, x);
  }

  lemma NoOverlap(items: seq<Item>, x: nat, k: nat, k': nat)
    requires k < |PutAll(Layout(items))| && k' < |PutAll(Layout(items))|
    requires CoversByte(PutAll(Layout(items)), k, x) && CoversByte(PutAll(Layout(items)), k', x)
    ensures k == k'
  {
    var i := CoveredBySegment(items, k, x);
    var j := CoveredBySegment(items, k', x);
    SegmentIsUnique(items, i, j, x);
    PutAllIsDistinct(Layout(items));
  }

  lemma HeaderInPayload(items: seq<Item>, y: Named)
    requires y in PutAll(Layout(items))
    ensures y.entry.begin <= y.entry.end <= |Payload(items)|
  {
    HeaderEntry(items, y);
    PayloadAt(items, Last(items, y.name));
  }

  ghost predicate OnlyEmptyOverridden(items: seq<Item>) {
    forall i: nat :: i < |items| && Overridden(items, i) ==> items[i].bytes == []
  }

  lemma TilesIfOnlyEmpty(items: seq<Item>)
    requires OnlyEmptyOverridden(items)
    ensures Tiles(PutAll(Layout(items)), |Payload(items)|)
  {
    var t, off := PutAll(Layout(items)), |Payload(items)|;
    forall x: nat | x < off ensures Covered(t, x) {
      var i := SegmentOf(items, x);
      SegmentInHeader(items, i, x);
    }
    forall y | y in t ensures y.entry.begin <= y.entry.end <= off {
      HeaderInPayload(items, y);
    }
    forall x: nat, k: nat, k': nat | k < |t| && k' < |t| && CoversByte(t, k, x) && CoversByte(t, k', x)
      ensures k == k'
    {
      NoOverlap(items, x, k, k');
    }
  }

  /** The first byte of an overridden tensor belongs to no entry. */
  lemma GapOf(items: seq<Item>, i: nat)
    requires i < |items| && Overridden(items, i) && items[i].bytes != []
    ensures |Payload(items[..i])| < |Payload(items)| && !Covered(PutAll(Layout(items)), |Payload(items[..i])|)
  {
    var x := |Payload(items[..i])|;
    PayloadAt(items, i);
    if Covered(PutAll(Layout(items)), x) {
      var k: nat :| k < |PutAll(Layout(items))| && CoversByte(PutAll(Layout(items)), k, x);
      var j := CoveredBySegment(items, k, x);
      SegmentIsUnique(items, i, j, x);
    }
  }

  /** The header's ranges tile the payload exactly when no tensor with bytes is written under a name
      that is written again: the first copy's bytes would belong to no tensor. */
  lemma TilesIff(items: seq<Item>)
    ensures Tiles(PutAll(Layout(items)), |Payload(items)|) <==> OnlyEmptyOverridden(items)
  {
    if OnlyEmptyOverridden(items) {
      TilesIfOnlyEmpty(items);
    } else {
      var i: nat :| i < |items| && Overridden(items, i) && items[i].bytes != [];
      GapOf(items, i);
    }
  }

  ghost predicate DistinctItems(items: seq<Item>) {
    forall i, j :: 0 <= i < j < |items| ==> items[i].name != items[j].name
  }

  lemma {:induction false} LastOfDistinct(items: seq<Item>, i: nat)
    requires DistinctItems(items) && i < |items|
    ensures Last(items, items[i].name) == i
  {
    if i < |items| - 1 {
      LastOfDistinct(items[..|items| - 1], i);
    }
  }

  lemma {:induction false} LastAppend(a: seq<Item>, b: seq<Item>, name: string)
    ensures Last(a + b, name)
         == if Last(b, name) < |b| then |a| + Last(b, name)
            else if Last(a, name) < |a| then Last(a, name) else |a| + |b|
  {
    if b == [] {
      assert a + b == a;
    } else {
      assert (a + b)[..|a + b| - 1] == a + b[..|b| - 1];
      LastAppend(a, b[..|b| - 1], name);
    }
  }

  lemma OverriddenIff(kept: seq<Item>, add: seq<Item>, i: nat)
    requires DistinctItems(kept) && DistinctItems(add) && i < |kept + add|
    ensures Overridden(kept + add, i) <==> i < |kept| && Lookup(add, (kept + add)[i].name).Some?
  {
    LastAppend(kept, add, (kept + add)[i].name);
    if i < |kept| {
      LastOfDistinct(kept, i);
    } else {
      LastOfDistinct(add, i - |kept|);
    }
  }

  /** No kept tensor with bytes is also added. */
  ghost predicate NoneReplaced(kept: seq<Item>, add: seq<Item>) {
    forall k <- kept :: k.bytes != [] ==> Lookup(add, k.name).None?
  }

  lemma ReplacedIsOverridden(kept: seq<Item>, add: seq<Item>)
    requires DistinctItems(kept) && DistinctItems(add)
    ensures OnlyEmptyOverridden(kept + add) <==> NoneReplaced(kept, add)
  {
    var items := kept + add;
    if NoneReplaced(kept, add) {
      forall i: nat | i < |items| && Overridden(items, i) ensures items[i].bytes == [] {
        OverriddenIff(kept, add, i);
        assert items[i] in kept;
      }
    } else {
      var k :| k in kept && k.bytes != [] && Lookup(add, k.name).Some?;
      var i: nat :| i < |kept| && kept[i] == k;
      OverriddenIff(kept, add, i);
    }
  }

  /** In a rewrite: the ranges tile the payload exactly when no kept tensor that is not empty is also
      added. Kept names and added names are distinct among themselves. */
  lemma RewriteTilesIff(kept: seq<Item>, add: seq<Item>)
    requires DistinctItems(kept) && DistinctItems(add)
    ensures Tiles(PutAll(Layout(kept + add)), |Payload(kept + add)|) <==> NoneReplaced(kept, add)
  {
    TilesIff(kept + add);
    ReplacedIsOverridden(kept, add);
  }

  /** No tensor of the source that has bytes is both kept and added. */
  ghost predicate NoneKeptAndAdded(h: Header, drop: set<string>, add: seq<Item>) {
    forall y <- h.tensors :: y.name !in drop && y.entry.begin < y.entry.end ==> Lookup(add, y.name).None?
  }

  lemma KeptItemsDistinct(src: Bytes, start: nat, keep: seq<Named>)
    requires Ordered(keep) && DistinctNames(keep)
    ensures DistinctItems(KeptItems(src, start, keep))
  {
    var items := KeptItems(src, start, keep);
    forall i, j | 0 <= i < j < |items| ensures items[i].name != items[j].name {
      assert items[i].name == keep[i].name && items[j].name == keep[j].name;
    }
  }

  lemma ReplacedIff(src: Bytes, h: Header, start: nat, drop: set<string>, add: seq<Item>)
    requires Ordered(Keep(h, drop))
    ensures NoneReplaced(KeptItems(src, start, Keep(h, drop)), add) <==> NoneKeptAndAdded(h, drop, add)
  {
    var keep := Keep(h, drop);
    var items := KeptItems(src, start, keep);
    KeepMembers(h, drop);
    if NoneReplaced(items, add) {
      forall y | y in h.tensors && y.name !in drop && y.entry.begin < y.entry.end
        ensures Lookup(add, y.name).None?
      {
        assert y in keep;
        var i: nat :| i < |keep| && keep[i] == y;
        assert items[i] == ItemOf(src, start, y) && |items[i].bytes| == y.entry.end - y.entry.begin;
        assert items[i] in items;
      }
    }
    if NoneKeptAndAdded(h, drop, add) {
      forall k | k in items && k.bytes != [] ensures Lookup(add, k.name).None? {
        var i: nat :| i < |items| && items[i] == k;
        assert items[i] == ItemOf(src, start, keep[i]) && keep[i] in keep;
        assert |k.bytes| == keep[i].entry.end - keep[i].entry.begin;
      }
    }
  }

  /** In the file that is written, the ranges of the header tile the payload, whose size is the number
      returned, exactly when no tensor that has bytes is both kept and added. */
  lemma OutputTilesIff(c: Codec, src: Bytes, h: Header, start: nat, drop: set<string>, add: seq<Item>)
    requires Lawful(c) && WellFormed(c, src) && ReadHeader(c, src) == Some((h, start)) && Ordered(Keep(h, drop))
    requires |Blob(c, HeaderOf(h.meta, Written(c, src, drop, add)))| < Pow256(8) && DistinctItems(add)
    ensures var r := Output(c, src, h, start, drop, add);
            && r.Rewritten? && ReadHeader(c, r.file).Some?
            && (Tiles(ReadHeader(c, r.file).value.0.tensors, r.off) <==> NoneKeptAndAdded(h, drop, add))
  {
    var kept := KeptItems(src, start, Keep(h, drop));
    OutputIs(c, src, h, start, drop, add);
    HeaderFileIs(c, src, h, start, drop, add);
    KeepMembers(h, drop);
    KeptItemsDistinct(src, start, Keep(h, drop));
    RewriteTilesIff(kept, add);
    ReplacedIff(src, h, start, drop, add);
    assert Written(c, src, drop, add) == kept + add;
  }
}
