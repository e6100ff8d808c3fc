/** prepare/quant_heads_stream.py, read_header and stream_rewrite: a safetensors file rewritten without
    holding it in memory. The JSON of the header is a given codec; its bytes, offsets and the payload
    are exact. */
module Safetensors {
  import opened ByteStrings
  import opened Contents

  datatype Entry = Entry(dtype: string, shape: seq<nat>, begin: nat, end: nat)

  datatype Named = Named(name: string, entry: Entry)

  /** __metadata__, and the tensors in the order of the JSON object. */
  datatype Header = Header(meta: Option<string>, tensors: seq<Named>)

  datatype Codec = Codec(dumps: Header -> Bytes, loads: Bytes -> Option<Header>)

  function Spaces(n: nat): Bytes {
    seq(n, _ => SPACE)
  }

  /** JSON allows spaces after the object. */
  ghost predicate Lawful(c: Codec) {
    forall h, n: nat :: c.loads(c.dumps(h) + Spaces(n)) == Some(h)
  }

  ghost predicate DistinctNames(t: seq<Named>) {
    forall i, j :: 0 <= i < j < |t| ==> t[i].name != t[j].name
  }

  // ---- reading

  /** read_header: the header and where the payload starts. */
  function ReadHeader(c: Codec, file: Bytes): Option<(Header, nat)> {
    if |file| < 8 then None
    else
      var n := FromLittleEndian(file[..8]);
      match c.loads(if 8 + n <= |file| then file[8..8 + n] else file[8..])
      case None => None
      case Some(h) => Some((h, 8 + n))
  }

  function Find(t: seq<Named>, name: string): Option<Entry> {
    if t == [] then None
    else if t[|t| - 1].name == name then Some(t[|t| - 1].entry)
    else Find(t[..|t| - 1], name)
  }

  /** A tensor as a reader sees it. */
  datatype Item = Item(name: string, dtype: string, shape: seq<nat>, bytes: Bytes)

  function TensorAt(c: Codec, file: Bytes, name: string): Option<Item> {
    match ReadHeader(c, file)
    case None => None
    case Some((h, start)) =>
      match Find(h.tensors, name)
      case None => None
      case Some(e) =>
        if e.begin <= e.end && start + e.end <= |file|
        then Some(Item(name, e.dtype, e.shape, file[start + e.begin..start + e.end]))
        else None
  }

  /** A file the rewrite accepts: readable, names distinct, every range inside the payload. */
  ghost predicate WellFormed(c: Codec, file: Bytes) {
    var r := ReadHeader(c, file);
    && r.Some?
    && DistinctNames(r.value.0.tensors)
    && forall t <- r.value.0.tensors :: t.entry.begin <= t.entry.end && r.value.1 + t.entry.end <= |file|
  }

  // ---- writing

  /** dict assignment: an existing key keeps its place. */
  function Put(t: seq<Named>, x: Named): seq<Named> {
    if t == [] then [x]
    else if t[|t| - 1].name == x.name then t[..|t| - 1] + [x]
    else Put(t[..|t| - 1], x) + [t[|t| - 1]]
  }

  function PutAll(t: seq<Named>): seq<Named> {
    if t == [] then [] else Put(PutAll(t[..|t| - 1]), t[|t| - 1])
  }

  /** The payload of a list of tensors, and their entries one after the other. */
  function Payload(items: seq<Item>): Bytes {
    if items == [] then [] else Payload(items[..|items| - 1]) + items[|items| - 1].bytes
  }

  function Placed(x: Item, off: nat): Named {
    Named(x.name, Entry(x.dtype, x.shape, off, off + |x.bytes|))
  }

  function Layout(items: seq<Item>): (r: seq<Named>)
    ensures |r| == |items|
  {
    if items == [] then []
    else Layout(items[..|items| - 1]) + [Placed(items[|items| - 1], |Payload(items[..|items| - 1])|)]
  }

  /** The header blob, padded with spaces to a multiple of 8. */
  function Blob(c: Codec, h: Header): (b: Bytes)
    ensures |b| % 8 == 0
  {
    var d := c.dumps(h);
    d + Spaces((8 - |d| % 8) % 8)
  }

  function HeaderOf(meta: Option<string>, items: seq<Item>): Header {
    Header(meta, PutAll(Layout(items)))
  }

  function FileOf(c: Codec, meta: Option<string>, items: seq<Item>): Bytes {
    var blob := Blob(c, HeaderOf(meta, items));
    LittleEndian(|blob|, 8) + blob + Payload(items)
  }

  // ---- what a reader finds in a written file

  lemma {:induction false} FindPut(t: seq<Named>, x: Named, name: string)
    ensures Find(Put(t, x), name) == if name == x.name then Some(x.entry) else Find(t, name)
  {
    if t != [] && t[|t| - 1].name != x.name {
      var init := t[..|t| - 1];
      FindPut(init, x, name);
      var r := Put(init, x) + [t[|t| - 1]];
      assert r[..|r| - 1] == Put(init, x);
    } else if t != [] {
      var r := t[..|t| - 1] + [x];
      assert r[..|r| - 1] == t[..|t| - 1];
    }
  }

  /** The last tensor of that name, |items| if there is none. */
  function Last(items: seq<Item>, name: string): (i: nat)
    ensures i <= |items| && (i < |items| ==> items[i].name == name)
  {
    if items == [] then 0
    else if items[|items| - 1].name == name then |items| - 1
    else
      var i := Last(items[..|items| - 1], name);
      if i == |items| - 1 then |items| else i
  }

  function Lookup(items: seq<Item>, name: string): Option<Item> {
    var i := Last(items, name);
    if i < |items| then Some(items[i]) else None
  }

  lemma {:induction false} FindLayout(items: seq<Item>, name: string)
    ensures var i := Last(items, name);
            Find(PutAll(Layout(items)), name)
            == if i < |items| then Some(Placed(items[i], |Payload(items[..i])|).entry) else None
  {
    if items != [] {
      var k := |items| - 1;
      FindLayout(items[..k], name);
      var placed := Layout(items);
      assert placed[..|placed| - 1] == Layout(items[..k]);
      FindPut(PutAll(Layout(items[..k])), placed[k], name);
      var i := Last(items[..k], name);
      assert items[..k][..i] == items[..i];
    }
  }

  lemma {:induction false} PayloadAt(items: seq<Item>, i: nat)
    requires i < |items|
    ensures |Payload(items[..i])| + |items[i].bytes| <= |Payload(items)|
    ensures Payload(items)[|Payload(items[..i])|..|Payload(items[..i])| + |items[i].bytes|] == items[i].bytes
  {
    var k := |items| - 1;
    if i < k {
      PayloadAt(items[..k], i);
      assert items[..k][..i] == items[..i];
      var a, b := |Payload(items[..i])|, |Payload(items[..i])| + |items[i].bytes|;
      assert Payload(items)[a..b] == Payload(items[..k])[a..b];
    }
  }

  lemma ThreeParts(a: Bytes, b: Bytes, p: Bytes)
    ensures (a + b + p)[..|a|] == a
    ensures (a + b + p)[|a|..|a| + |b|] == b
    ensures (a + b + p)[|a| + |b|..] == p
  {
  }

  lemma HeaderRoundTrips(c: Codec, h: Header, blob: Bytes, payload: Bytes)
    requires Lawful(c) && blob == Blob(c, h) && |blob| < Pow256(8)
    ensures ReadHeader(c, LittleEndian(|blob|, 8) + blob + payload) == Some((h, 8 + |blob|))
  {
    LittleEndianRoundTrips(|blob|, 8);
    ThreeParts(LittleEndian(|blob|, 8), blob, payload);
    assert c.loads(blob) == Some(h);
  }

  lemma PayloadIsAligned(c: Codec, h: Header)
    ensures (8 + |Blob(c, h)|) % 8 == 0
  {
  }

  /** The payload starts at a multiple of 8, and the header reads back. */
  lemma HeaderReadsBack(c: Codec, meta: Option<string>, items: seq<Item>)
    requires Lawful(c) && |Blob(c, HeaderOf(meta, items))| < Pow256(8)
    ensures var file, start := FileOf(c, meta, items), 8 + |Blob(c, HeaderOf(meta, items))|;
            && ReadHeader(c, file) == Some((HeaderOf(meta, items), start))
            && start % 8 == 0 && start <= |file| && file[start..] == Payload(items)
  {
    var h := HeaderOf(meta, items);
    var blob := Blob(c, h);
    HeaderRoundTrips(c, h, blob, Payload(items));
    ThreeParts(LittleEndian(|blob|, 8), blob, Payload(items));
    PayloadIsAligned(c, h);
  }

  lemma SliceOfTail(file: Bytes, start: nat, payload: Bytes, a: nat, b: nat)
    requires start <= |file| && file[start..] == payload && a <= b <= |payload|
    ensures file[start + a..start + b] == payload[a..b]
  {
    forall i | 0 <= i < b - a ensures file[start + a..start + b][i] == payload[a..b][i] {
      assert file[start + a..start + b][i] == file[start..][a + i];
    }
  }

  lemma ItemReadsBack(c: Codec, file: Bytes, h: Header, start: nat, items: seq<Item>, i: nat)
    requires i < |items| && ReadHeader(c, file) == Some((h, start)) && start <= |file|
    requires file[start..] == Payload(items)
    requires Find(h.tensors, items[i].name) == Some(Placed(items[i], |Payload(items[..i])|).entry)
    ensures TensorAt(c, file, items[i].name) == Some(items[i])
  {
    PayloadAt(items, i);
    var a := |Payload(items[..i])|;
    SliceOfTail(file, start, Payload(items), a, a + |items[i].bytes|);
  }

  /** Of every name, a reader finds the last tensor written under it, with its bytes. */
  lemma TensorReadsBack(c: Codec, meta: Option<string>, items: seq<Item>, name: string)
    requires Lawful(c) && |Blob(c, HeaderOf(meta, items))| < Pow256(8)
    ensures TensorAt(c, FileOf(c, meta, items), name) == Lookup(items, name)
  {
    HeaderReadsBack(c, meta, items);
    FindLayout(items, name);
    var i := Last(items, name);
    if i < |items| {
      ItemReadsBack(c, FileOf(c, meta, items), HeaderOf(meta, items), 8 + |Blob(c, HeaderOf(meta, items))|, items, i);
    }
  }
}
