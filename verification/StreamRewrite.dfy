/** prepare/quant_heads_stream.py, stream_rewrite: drop some tensors, keep the others byte for byte, and
    append new ones. */
module StreamRewrite {
  import opened ByteStrings
  import opened Contents
  import opened Safetensors

  // ---- the kept tensors

  function Without(t: seq<Named>, drop: set<string>): seq<Named> {
    if t == [] then []
    else Without(t[..|t| - 1], drop) + (if t[|t| - 1].name in drop then [] else [t[|t| - 1]])
  }

  /** Stable insertion by the start of the data. */
  function Insert(t: seq<Named>, x: Named): seq<Named> {
    if t == [] || t[|t| - 1].entry.begin <= x.entry.begin then t + [x]
    else Insert(t[..|t| - 1], x) + [t[|t| - 1]]
  }

  function SortedByBegin(t: seq<Named>): seq<Named> {
    if t == [] then [] else Insert(SortedByBegin(t[..|t| - 1]), t[|t| - 1])
  }

  /** The tensors copied from a file whose payload begins at start. */
  function Keep(h: Header, drop: set<string>): seq<Named> {
    SortedByBegin(Without(h.tensors, drop))
  }

  /** The size bytes at a position; where the file ends before them, stand-ins for what is missing. */
  function BytesAt(file: Bytes, a: nat, size: nat): (b: Bytes)
    ensures |b| == size
  {
    if a + size <= |file| then file[a..a + size] else seq(size, _ => 0)
  }

  function ItemOf(file: Bytes, start: nat, x: Named): Item
    requires x.entry.begin <= x.entry.end
  {
    Item(x.name, x.entry.dtype, x.entry.shape, BytesAt(file, start + x.entry.begin, x.entry.end - x.entry.begin))
  }

  ghost predicate Ordered(t: seq<Named>) {
    forall i :: 0 <= i < |t| ==> t[i].entry.begin <= t[i].entry.end
  }

  function KeptItems(file: Bytes, start: nat, t: seq<Named>): (r: seq<Item>)
    requires Ordered(t)
    ensures |r| == |t| && forall i :: 0 <= i < |r| ==> r[i] == ItemOf(file, start, t[i])
  {
    seq(|t|, i requires 0 <= i < |t| => ItemOf(file, start, t[i]))
  }

  // ---- the rewrite

  datatype Result = Rewritten(file: Bytes, off: nat) | ShortRead | Unreadable

  const CHUNK: nat := 67108864

  /** Copying a range in chunks of at most CHUNK bytes: exactly the range, or a short read. */
  method CopyRange(src: Bytes, a: nat, size: nat) returns (ok: bool, out: Bytes)
    ensures ok <==> size == 0 || a + size <= |src|
    ensures ok ==> |out| == size && (size != 0 ==> out == src[a..a + size])
  {
    out := [];
    var left := size;
    while left != 0
      invariant 0 <= left <= size && |out| == size - left
      invariant out != [] ==> a + |out| <= |src| && out == src[a..a + |out|]
      decreases left
    {
      var n := if left < CHUNK then left else CHUNK;
      var pos := a + size - left;
      var chunk := if |src| <= pos then [] else if |src| < pos + n then src[pos..] else src[pos..pos + n];
      if chunk == [] {
        return false, out;
      }
      assert src[a..pos + |chunk|] == src[a..pos] + chunk;
      out := out + chunk;
      left := left - |chunk|;
    }
    ok := true;
  }

  datatype Step = Copy(pos: nat, size: nat) | Write(bytes: Bytes)

  predicate Readable(src: Bytes, step: Step) {
    step.Copy? ==> step.size == 0 || step.pos + step.size <= |src|
  }

  function StepBytes(src: Bytes, step: Step): Bytes {
    match step
    case Copy(pos, size) => BytesAt(src, pos, size)
    case Write(bytes) => bytes
  }

  function PlanBytes(src: Bytes, plan: seq<Step>): Bytes {
    if plan == [] then [] else PlanBytes(src, plan[..|plan| - 1]) + StepBytes(src, plan[|plan| - 1])
  }

  /** The second loop of stream_rewrite. */
  method WritePlan(src: Bytes, plan: seq<Step>) returns (ok: bool, out: Bytes)
    ensures ok <==> forall k :: 0 <= k < |plan| ==> Readable(src, plan[k])
    ensures ok ==> out == PlanBytes(src, plan)
  {
    out := [];
    for i := 0 to |plan|
      invariant out == PlanBytes(src, plan[..i]) && forall k :: 0 <= k < i ==> Readable(src, plan[k])
    {
      assert plan[..i + 1][..i] == plan[..i];
      match plan[i] {
        case Copy(pos, size) =>
          var copied, bytes := CopyRange(src, pos, size);
          if !copied {
            return false, out;
          }
          out := out + bytes;
        case Write(bytes) =>
          out := out + bytes;
      }
    }
    assert plan[..|plan|] == plan;
    ok := true;
  }

  /** The steps of the kept tensors and of the added ones. */
  function Copies(start: nat, keep: seq<Named>): (r: seq<Step>)
    requires Ordered(keep)
    ensures |r| == |keep| && forall k :: 0 <= k < |r| ==>
      r[k] == Copy(start + keep[k].entry.begin, keep[k].entry.end - keep[k].entry.begin)
  {
    seq(|keep|, k requires 0 <= k < |keep| =>
          Copy(start + keep[k].entry.begin, keep[k].entry.end - keep[k].entry.begin))
  }

  function Writes(add: seq<Item>): (r: seq<Step>)
    ensures |r| == |add| && forall k :: 0 <= k < |r| ==> r[k] == Write(add[k].bytes)
  {
    seq(|add|, k requires 0 <= k < |add| => Write(add[k].bytes))
  }

  lemma {:induction false} StepsYield(src: Bytes, plan: seq<Step>, items: seq<Item>)
    requires |plan| == |items| && forall k :: 0 <= k < |plan| ==> StepBytes(src, plan[k]) == items[k].bytes
    ensures PlanBytes(src, plan) == Payload(items)
  {
    if plan != [] {
      StepsYield(src, plan[..|plan| - 1], items[..|items| - 1]);
    }
  }

  /** The header entries and the offset after each of the items. */
  ghost predicate Stages(items: seq<Item>, t: seq<seq<Named>>, off: seq<nat>) {
    && |t| == |off| == |items| + 1 && t[0] == [] && off[0] == 0
    && forall i {:trigger items[i]} :: 0 <= i < |items| ==>
         t[i + 1] == Put(t[i], Placed(items[i], off[i])) && off[i + 1] == off[i] + |items[i].bytes|
  }

  lemma OneStageMore(items: seq<Item>, t: seq<seq<Named>>, off: seq<nat>, x: Item)
    requires Stages(items, t, off)
    ensures Stages(items + [x], t + [Put(t[|items|], Placed(x, off[|items|]))], off + [off[|items|] + |x.bytes|])
  {
    var items' := items + [x];
    var t', off' := t + [Put(t[|items|], Placed(x, off[|items|]))], off + [off[|items|] + |x.bytes|];
    forall i | 0 <= i < |items'|
      ensures t'[i + 1] == Put(t'[i], Placed(items'[i], off'[i])) && off'[i + 1] == off'[i] + |items'[i].bytes|
    {
      assert i < |items| ==> items'[i] == items[i];
    }
  }

  lemma LaidOneMore(items: seq<Item>, x: Item)
    ensures PutAll(Layout(items + [x])) == Put(PutAll(Layout(items)), Placed(x, |Payload(items)|))
    ensures |Payload(items + [x])| == |Payload(items)| + |x.bytes|
  {
    var all := items + [x];
    assert all[..|all| - 1] == items;
    var placed := Layout(all);
    assert placed[..|placed| - 1] == Layout(items);
  }

  lemma {:induction false} StagesOf(items: seq<Item>) returns (t: seq<seq<Named>>, off: seq<nat>)
    ensures Stages(items, t, off) && t[|items|] == PutAll(Layout(items)) && off[|items|] == |Payload(items)|
  {
    if items == [] {
      t, off := [[]], [0];
    } else {
      var init, x := items[..|items| - 1], items[|items| - 1];
      t, off := StagesOf(init);
      assert items == init + [x];
      t, off := NextStage(init, t, off, x);
    }
  }

  lemma NextStage(init: seq<Item>, t: seq<seq<Named>>, off: seq<nat>, x: Item)
      returns (t': seq<seq<Named>>, off': seq<nat>)
    requires Stages(init, t, off) && t[|init|] == PutAll(Layout(init)) && off[|init|] == |Payload(init)|
    ensures Stages(init + [x], t', off') && t'[|init| + 1] == PutAll(Layout(init + [x]))
    ensures off'[|init| + 1] == |Payload(init + [x])|
  {
    OneStageMore(init, t, off, x);
    LaidOneMore(init, x);
    t', off' := t + [Put(t[|init|], Placed(x, off[|init|]))], off + [off[|init|] + |x.bytes|];
  }

  /** An item with the entry of a kept tensor. */
  ghost predicate Describes(x: Item, t: Named) {
    x.name == t.name && x.dtype == t.entry.dtype && x.shape == t.entry.shape && t.entry.begin + |x.bytes| == t.entry.end
  }

  ghost predicate AllDescribe(items: seq<Item>, keep: seq<Named>) {
    && |keep| <= |items|
    && forall i {:trigger Describes(items[i], keep[i])} :: 0 <= i < |keep| ==> Describes(items[i], keep[i])
  }

  /** The first loop: the kept tensors, one after the other from offset 0. */
  method PlanKept(start: nat, keep: seq<Named>, ghost items: seq<Item>, ghost t: seq<seq<Named>>, ghost o: seq<nat>)
      returns (tensors: seq<Named>, plan: seq<Step>, off: nat)
    requires Ordered(keep) && AllDescribe(items, keep) && Stages(items, t, o)
    ensures tensors == t[|keep|] && off == o[|keep|] && plan == Copies(start, keep)
  {
    tensors, plan, off := [], [], 0;
    for i := 0 to |keep|
      invariant tensors == t[i] && off == o[i] && plan == Copies(start, keep)[..i]
    {
      assert Describes(items[i], keep[i]);
      var v := keep[i].entry;
      var size := v.end - v.begin;
      tensors := Put(tensors, Named(keep[i].name, Entry(v.dtype, v.shape, off, off + size)));
      plan := plan + [Copy(start + v.begin, size)];
      off := off + size;
    }
  }

  /** The loop over add, which continues where the kept tensors end. */
  method PlanAdded(add: seq<Item>, tensors0: seq<Named>, plan0: seq<Step>, off0: nat, ghost items: seq<Item>,
                   ghost t: seq<seq<Named>>, ghost o: seq<nat>)
    returns (tensors: seq<Named>, plan: seq<Step>, off: nat)
    requires Stages(items, t, o) && |add| <= |items| && items[|items| - |add|..] == add
    requires tensors0 == t[|items| - |add|] && off0 == o[|items| - |add|]
    ensures tensors == t[|items|] && off == o[|items|] && plan == plan0 + Writes(add)
  {
    tensors, plan, off := tensors0, plan0, off0;
    ghost var n := |items| - |add|;
    for i := 0 to |add|
      invariant n == |items| - |add| + i && tensors == t[n] && off == o[n] && plan == plan0 + Writes(add)[..i]
    {
      assert items[n] == items[|items| - |add|..][i];
      tensors := Put(tensors, Named(add[i].name, Entry(add[i].dtype, add[i].shape, off, off + |add[i].bytes|)));
      plan := plan + [Write(add[i].bytes)];
      off := off + |add[i].bytes|;
      n := n + 1;
    }
  }

  /** A range with bytes past the end of the file. */
  predicate Missing(src: Bytes, start: nat, t: Named) {
    t.entry.begin < t.entry.end && |src| < start + t.entry.end
  }

  ghost predicate AnyMissing(src: Bytes, start: nat, t: seq<Named>) {
    exists i :: 0 <= i < |t| && Missing(src, start, t[i])
  }

  /** What stream_rewrite writes: the kept tensors in the order of their data, then the added ones. */
  ghost function Output(c: Codec, src: Bytes, h: Header, start: nat, drop: set<string>, add: seq<Item>): Result
    requires Ordered(Keep(h, drop))
  {
    if AnyMissing(src, start, Keep(h, drop)) then ShortRead
    else
      var items := KeptItems(src, start, Keep(h, drop)) + add;
      Rewritten(FileOf(c, h.meta, items), |Payload(items)|)
  }

  /** stream_rewrite, for a source whose header gives no range backwards. */
  method Rewrite(c: Codec, src: Bytes, drop: set<string>, add: seq<Item>) returns (r: Result)
    requires ReadHeader(c, src).Some? ==> Ordered(Keep(ReadHeader(c, src).value.0, drop))
    ensures r == match ReadHeader(c, src)
                 case None => Unreadable
                 case Some((h, start)) => Output(c, src, h, start, drop, add)
  {
    var header := ReadHeader(c, src);
    if header.None? {
      return Unreadable;
    }
    var h, start := header.value.0, header.value.1;
    var keep := Keep(h, drop);
    ghost var items, t, o := Itemized(src, start, keep, add);
    var tensors, plan, off := PlanKept(start, keep, items, t, o);
    tensors, plan, off := PlanAdded(add, tensors, plan, off, items, t, o);
    var blob := Blob(c, Header(h.meta, tensors));
    var ok, payload := WritePlan(src, plan);
    PlanReadable(src, start, keep, add);
    if !ok {
      return ShortRead;
    }
    PlanYields(src, start, keep, add);
    r := Rewritten(LittleEndian(|blob|, 8) + blob + payload, off);
  }

  /** The items of a rewrite, with what the plan for them comes to. */
  lemma Itemized(src: Bytes, start: nat, keep: seq<Named>, add: seq<Item>)
      returns (items: seq<Item>, t: seq<seq<Named>>, off: seq<nat>)
    requires Ordered(keep)
    ensures items == KeptItems(src, start, keep) + add && items[|items| - |add|..] == add
    ensures Stages(items, t, off) && t[|items|] == PutAll(Layout(items)) && off[|items|] == |Payload(items)|
    ensures AllDescribe(items, keep)
  {
    items := KeptItems(src, start, keep) + add;
    t, off := StagesOf(items);
    forall i | 0 <= i < |keep| ensures Describes(items[i], keep[i]) {
    }
  }

  lemma PlanYields(src: Bytes, start: nat, keep: seq<Named>, add: seq<Item>)
    requires Ordered(keep)
    ensures PlanBytes(src, Copies(start, keep) + Writes(add)) == Payload(KeptItems(src, start, keep) + add)
  {
    StepsYield(src, Copies(start, keep) + Writes(add), KeptItems(src, start, keep) + add);
  }

  lemma PlanReadable(src: Bytes, start: nat, keep: seq<Named>, add: seq<Item>)
    requires Ordered(keep)
    ensures var plan := Copies(start, keep) + Writes(add);
            AnyMissing(src, start, keep) <==> !forall k :: 0 <= k < |plan| ==> Readable(src, plan[k])
  {
    var plan := Copies(start, keep) + Writes(add);
    forall k | 0 <= k < |plan| ensures Readable(src, plan[k]) <==> !(k < |keep| && Missing(src, start, keep[k])) {
    }
    if AnyMissing(src, start, keep) {
      var i :| 0 <= i < |keep| && Missing(src, start, keep[i]);
      assert !Readable(src, plan[i]);
    }
  }
}
