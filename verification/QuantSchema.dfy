/** prepare/quant_schema.py: the tensors, index entries and config groups that every in-place
    quantization script writes, and the tests that let a killed run be completed. */
module QuantSchema {
  import opened Contents
  import opened RoundToNearest
  import opened NearestCodes
  import opened Sums

  const MTP_LINEARS: seq<string> := [
    "mtp.fc", "mtp.layers.0.mlp.down_proj", "mtp.layers.0.mlp.gate_proj",
    "mtp.layers.0.mlp.up_proj", "mtp.layers.0.self_attn.q_proj",
    "mtp.layers.0.self_attn.k_proj", "mtp.layers.0.self_attn.v_proj",
    "mtp.layers.0.self_attn.o_proj"]

  /** LINEARS of quant_mtp.py: --keep-fc leaves mtp.fc in bf16. */
  function Linears(keepFc: bool): seq<string> {
    if keepFc then MTP_LINEARS[1..] else MTP_LINEARS
  }

  lemma LinearsDistinct(keepFc: bool)
    ensures "lm_head" !in Linears(keepFc)
    ensures Linears(keepFc) != []
  {
    assert forall k :: 0 <= k < |MTP_LINEARS| ==> |MTP_LINEARS[k]| != |"lm_head"|;
  }

  /** GROUPS: the config group each script adds. */
  datatype Covers = LmHead | Embed | Mtp | MtpKeepFc

  function GroupName(part: Covers): string {
    match part
    case LmHead => "group_1"
    case Embed => "group_2"
    case Mtp => "group_3"
    case MtpKeepFc => "group_3"
  }

  function GroupTargets(part: Covers): seq<string> {
    match part
    case LmHead => ["re:.*lm_head$"]
    case Embed => ["re:.*embed_tokens$"]
    case Mtp => ["re:^mtp\\..*"]
    case MtpKeepFc => ["re:^mtp\\.layers\\..*"]
  }

  function WeightName(base: string): TensorName {
    TensorName(base, Weight)
  }

  /** SUFFIXES: the three entries of a packed weight. */
  function PackedNames(base: string): set<TensorName> {
    {TensorName(base, WeightPacked), TensorName(base, WeightScale), TensorName(base, WeightShape)}
  }

  // ---- load_config

  /** load_config() accepts only the schema the scripts extend. */
  function LoadConfig(c: Content): (r: Option<Quantization>)
    ensures r.Some? <==> c.ConfigFile? && c.quant.Some? && Extendable(c.quant.value)
    ensures r.Some? ==> r.value == c.quant.value
  {
    match c
    case ConfigFile(Some(q), _) =>
      if q.quantMethod.Some? && q.quantMethod.value != "compressed-tensors" then None
      else if q.ignore.None? then None
      else if "group_0" !in q.groups then None
      else Some(q)
    case _ => None
  }

  predicate Extendable(q: Quantization) {
    && (q.quantMethod.None? || q.quantMethod.value == "compressed-tensors")
    && q.ignore.Some?
    && "group_0" in q.groups
  }

  // ---- pack, packed_already

  /** The matrices pack() accepts: at least one row, all of one width divisible by GROUP. */
  predicate Packable(rows: seq<Row>) {
    rows != [] && Matrix(rows) && forall i :: 0 <= i < |rows| ==> |rows[i]| == |rows[0]|
  }

  function PackedEntries(base: string, rows: seq<Row>, bits: nat): (t: Tensors)
    requires Packable(rows) && 2 <= bits
    ensures t.Keys == PackedNames(base)
  {
    map[TensorName(base, WeightPacked) := Codes(MatrixCodes(rows, QMax(bits), PACK_FLOOR)),
        TensorName(base, WeightScale) := Scales(MatrixScales(rows, QMax(bits), PACK_FLOOR)),
        TensorName(base, WeightShape) := Shape(|rows|, |rows[0]|)]
  }

  /** quant_lm_head.py and quant_embed.py abort when the round trip is off by 1% or more;
      quant_mtp.py only prints the error. */
  predicate Accepted(rows: seq<Row>, bits: nat, checked: bool)
    requires Packable(rows) && 2 <= bits
  {
    checked ==> Accurate(SquareError(rows, QMax(bits), PACK_FLOOR), SquareNorm(rows))
  }

  /** packed_already(): None when the shard holds neither form. */
  function PackedAlready(ts: Tensors, base: string): (r: Option<bool>)
    ensures r == Some(false) <==> WeightName(base) in ts
    ensures r == Some(true) <==> WeightName(base) !in ts && PackedNames(base) <= ts.Keys
  {
    if WeightName(base) in ts then Some(false)
    else if forall n :: n in PackedNames(base) ==> n in ts then Some(true)
    else None
  }

  /** One tensor of the shard: popped and replaced by its packed entries, or already packed. */
  function PackOne(ts: Tensors, base: string, bits: nat, checked: bool): (r: Option<Tensors>)
    requires 2 <= bits
  {
    match PackedAlready(ts, base)
    case None => None
    case Some(true) => Some(ts)
    case Some(false) =>
      if ts[WeightName(base)].Dense? && Packable(ts[WeightName(base)].rows)
         && Accepted(ts[WeightName(base)].rows, bits, checked)
      then Some((ts - {WeightName(base)}) + PackedEntries(base, ts[WeightName(base)].rows, bits))
      else None
  }

  function PackAll(ts: Tensors, bases: seq<string>, bits: nat, checked: bool): (r: Option<Tensors>)
    requires 2 <= bits
    decreases |bases|
  {
    if bases == [] then Some(ts) else
    match PackOne(ts, bases[0], bits, checked)
    case None => None
    case Some(ts') => PackAll(ts', bases[1..], bits, checked)
  }

  predicate HoldsPacked(ts: Tensors, base: string) {
    WeightName(base) !in ts && PackedNames(base) <= ts.Keys
  }

  predicate AllPacked(ts: Tensors, bases: seq<string>) {
    forall b :: b in bases ==> HoldsPacked(ts, b)
  }

  /** What packing may change: the bf16 weights go, packed entries come, the rest stays. */
  ghost predicate PacksOnly(ts: Tensors, ts': Tensors, bases: seq<string>) {
    forall n: TensorName :: n.base !in bases ==> (n in ts <==> n in ts') && (n in ts ==> ts[n] == ts'[n])
  }

  lemma PackOneHolds(ts: Tensors, base: string, bits: nat, checked: bool)
    requires 2 <= bits && PackOne(ts, base, bits, checked).Some?
    ensures HoldsPacked(PackOne(ts, base, bits, checked).value, base)
    ensures PacksOnly(ts, PackOne(ts, base, bits, checked).value, [base])
    ensures forall b :: HoldsPacked(ts, b) ==> HoldsPacked(PackOne(ts, base, bits, checked).value, b)
  {
    assert forall n: TensorName :: n.base !in [base] ==> n != WeightName(base) && n !in PackedNames(base);
  }

  lemma {:induction false} PackAllHolds(ts: Tensors, bases: seq<string>, bits: nat, checked: bool)
    requires 2 <= bits && PackAll(ts, bases, bits, checked).Some?
    ensures AllPacked(PackAll(ts, bases, bits, checked).value, bases)
    ensures PacksOnly(ts, PackAll(ts, bases, bits, checked).value, bases)
    ensures forall b :: HoldsPacked(ts, b) ==> HoldsPacked(PackAll(ts, bases, bits, checked).value, b)
    decreases |bases|
  {
    if bases != [] {
      PackOneHolds(ts, bases[0], bits, checked);
      var ts' := PackOne(ts, bases[0], bits, checked).value;
      PackAllHolds(ts', bases[1..], bits, checked);
      assert HoldsPacked(PackAll(ts', bases[1..], bits, checked).value, bases[0]);
      assert bases == [bases[0]] + bases[1..];
    }
  }

  /** What packing a weight leaves of it: the codes and scales of its rows if it was in bf16, otherwise the
      packed entries as they were; and its entries of any other spelling. */
  ghost predicate PackedFrom(ts: Tensors, ts': Tensors, base: string, bits: nat)
    requires 2 <= bits
  {
    && (if WeightName(base) in ts
        then ts[WeightName(base)].Dense? && Packable(ts[WeightName(base)].rows)
             && HoldsCodesOf(ts', base, ts[WeightName(base)].rows, bits)
        else SameEntries(ts, ts', PackedNames(base)))
    && (TensorName(base, Bare) in ts ==> SameEntries(ts, ts', {TensorName(base, Bare)}))
    && (TensorName(base, Bare) in ts' ==> TensorName(base, Bare) in ts)
  }

  /** The three entries that stand for a matrix: its codes, its scales and its shape. */
  ghost predicate HoldsCodesOf(ts: Tensors, base: string, rows: seq<Row>, bits: nat)
    requires Packable(rows) && 2 <= bits
  {
    && PackedNames(base) <= ts.Keys
    && ts[TensorName(base, WeightPacked)].Codes? && ts[TensorName(base, WeightScale)].Scales?
    && ts[TensorName(base, WeightShape)] == Shape(|rows|, |rows[0]|)
    && PackedMatrix(rows, bits, ts[TensorName(base, WeightPacked)].codes, ts[TensorName(base, WeightScale)].scales)
  }

  predicate SameEntries(ts: Tensors, ts': Tensors, names: set<TensorName>) {
    forall n :: n in names ==> n in ts && n in ts' && ts'[n] == ts[n]
  }

  lemma PackOneWrites(ts: Tensors, base: string, bits: nat, checked: bool)
    requires 2 <= bits && PackOne(ts, base, bits, checked).Some?
    ensures PackedFrom(ts, PackOne(ts, base, bits, checked).value, base, bits)
  {
    if WeightName(base) in ts {
      MatrixIsPacked(ts[WeightName(base)].rows, bits);
    }
  }

  /** The relative round-trip error is below 1%, and defined. */
  predicate RoundTripsWell(w: seq<Row>, codes: seq<seq<int>>, scales: seq<Row>) {
    var num, den := Sum(MovedInRow(w, codes, scales), 0, |w|), Sum(SquaresInRow(w), 0, |w|);
    den != 0.0 && num / den < 0.01 * 0.01
  }

  /** Which tensors are accepted: a weight packed already, or one in bf16 that can be packed and, where the
      script checks it, comes back from its codes with an error below 1%. */
  lemma PackOneAccepts(ts: Tensors, base: string, bits: nat, checked: bool)
    requires 2 <= bits
    ensures PackOne(ts, base, bits, checked).Some?
       <==> if WeightName(base) in ts
            then ts[WeightName(base)].Dense? && Packable(ts[WeightName(base)].rows)
                 && var w := ts[WeightName(base)].rows;
                    checked ==> RoundTripsWell(w, MatrixCodes(w, QMax(bits), PACK_FLOOR),
                                               MatrixScales(w, QMax(bits), PACK_FLOOR))
            else PackedNames(base) <= ts.Keys
  {
    if WeightName(base) in ts && ts[WeightName(base)].Dense? && Packable(ts[WeightName(base)].rows) {
      ErrorsAre(ts[WeightName(base)].rows, QMax(bits), PACK_FLOOR);
    }
  }

  lemma PackedFromApart(ts: Tensors, us: Tensors, ts': Tensors, base: string, bits: nat)
    requires 2 <= bits && PackedFrom(us, ts', base, bits) && AgreeOn(ts, us, [base])
    ensures PackedFrom(ts, ts', base, bits)
  {
    assert forall n: TensorName :: n.base == base ==> n.base in [base];
    assert forall n :: n in PackedNames(base) ==> n.base == base;
  }

  lemma PackedFromThen(ts: Tensors, us: Tensors, ts': Tensors, base: string, bits: nat)
    requires 2 <= bits && PackedFrom(ts, us, base, bits)
    requires PackedFrom(us, ts', base, bits) && WeightName(base) !in us
    ensures PackedFrom(ts, ts', base, bits)
  {
  }

  lemma PackedFromKept(ts: Tensors, us: Tensors, ts': Tensors, base: string, bits: nat)
    requires 2 <= bits && PackedFrom(ts, us, base, bits) && AgreeOn(us, ts', [base])
    ensures PackedFrom(ts, ts', base, bits)
  {
    assert forall n: TensorName :: n.base == base ==> n.base in [base];
    assert forall n :: n in PackedNames(base) ==> n.base == base;
  }

  /** Every weight of a pass is packed from what it was, whatever else the pass packs. */
  lemma {:induction false} PackAllWrites(ts: Tensors, bases: seq<string>, bits: nat, checked: bool)
    requires 2 <= bits && PackAll(ts, bases, bits, checked).Some?
    ensures forall b :: b in bases ==> PackedFrom(ts, PackAll(ts, bases, bits, checked).value, b, bits)
    decreases |bases|
  {
    if bases != [] {
      var us, ts' := PackOne(ts, bases[0], bits, checked).value, PackAll(ts, bases, bits, checked).value;
      PackOneHolds(ts, bases[0], bits, checked);
      PackAllHolds(us, bases[1..], bits, checked);
      PackOneWrites(ts, bases[0], bits, checked);
      PackAllWrites(us, bases[1..], bits, checked);
      forall b | b in bases ensures PackedFrom(ts, ts', b, bits) {
        if b != bases[0] {
          assert AgreeOn(ts, us, [b]);
          PackedFromApart(ts, us, ts', b, bits);
        } else if b in bases[1..] {
          PackedFromThen(ts, us, ts', b, bits);
        } else {
          assert AgreeOn(us, ts', [b]);
          PackedFromKept(ts, us, ts', b, bits);
        }
      }
    }
  }

  lemma {:induction false} PackedStays(ts: Tensors, bases: seq<string>, bits: nat, checked: bool)
    requires 2 <= bits && AllPacked(ts, bases)
    ensures PackAll(ts, bases, bits, checked) == Some(ts)
    decreases |bases|
  {
    if bases != [] {
      assert HoldsPacked(ts, bases[0]);
      PackedStays(ts, bases[1..], bits, checked);
    }
  }

  /** Packing looks only at the entries of the bases it packs. */
  ghost predicate AgreeOn(ts: Tensors, us: Tensors, bases: seq<string>) {
    forall n: TensorName :: n.base in bases ==> (n in ts <==> n in us) && (n in ts ==> ts[n] == us[n])
  }

  lemma {:induction false} PackAllAgrees(ts: Tensors, us: Tensors, bases: seq<string>, bits: nat, checked: bool)
    requires 2 <= bits && AgreeOn(ts, us, bases) && PackAll(ts, bases, bits, checked).Some?
    ensures PackAll(us, bases, bits, checked).Some?
    decreases |bases|
  {
    if bases != [] {
      PackOneAgrees(ts, us, bases, bits, checked);
      PackAllAgrees(PackOne(ts, bases[0], bits, checked).value, PackOne(us, bases[0], bits, checked).value,
                    bases[1..], bits, checked);
    }
  }

  lemma PackOneAgrees(ts: Tensors, us: Tensors, bases: seq<string>, bits: nat, checked: bool)
    requires 2 <= bits && bases != [] && AgreeOn(ts, us, bases) && PackOne(ts, bases[0], bits, checked).Some?
    ensures PackOne(us, bases[0], bits, checked).Some?
    ensures AgreeOn(PackOne(ts, bases[0], bits, checked).value, PackOne(us, bases[0], bits, checked).value, bases)
  {
    assert bases[0] in bases;
    assert forall n :: n in PackedNames(bases[0]) ==> n.base == bases[0];
    assert PackedAlready(ts, bases[0]) == PackedAlready(us, bases[0]);
  }

  // ---- index_packed

  function IndexOne(wm: WeightMap, base: string, shard: string): (wm': WeightMap)
    ensures WeightName(base) !in wm'
    ensures forall n :: n in PackedNames(base) ==> n in wm' && wm'[n] == shard
    ensures forall n: TensorName :: n.base != base ==> (n in wm <==> n in wm') && (n in wm ==> wm[n] == wm'[n])
  {
    (wm - {WeightName(base)})[TensorName(base, WeightPacked) := shard]
    [TensorName(base, WeightScale) := shard][TensorName(base, WeightShape) := shard]
  }

  function IndexAll(wm: WeightMap, bases: seq<string>, shard: string): WeightMap
    decreases |bases|
  {
    if bases == [] then wm else IndexAll(IndexOne(wm, bases[0], shard), bases[1..], shard)
  }

  predicate Indexed(wm: WeightMap, bases: seq<string>, shard: string) {
    forall b :: b in bases ==>
      WeightName(b) !in wm && forall n :: n in PackedNames(b) ==> n in wm && wm[n] == shard
  }

  lemma {:induction false} IndexAllHolds(wm: WeightMap, bases: seq<string>, shard: string)
    ensures Indexed(IndexAll(wm, bases, shard), bases, shard)
    ensures forall n: TensorName :: n.base !in bases ==>
      (n in wm <==> n in IndexAll(wm, bases, shard)) && (n in wm ==> wm[n] == IndexAll(wm, bases, shard)[n])
    ensures forall b :: Indexed(wm, [b], shard) ==> Indexed(IndexAll(wm, bases, shard), [b], shard)
    decreases |bases|
  {
    if bases != [] {
      var wm' := IndexOne(wm, bases[0], shard);
      IndexAllHolds(wm', bases[1..], shard);
      assert Indexed(wm', [bases[0]], shard);
      assert Indexed(IndexAll(wm, bases, shard), [bases[0]], shard);
      assert bases == [bases[0]] + bases[1..];
      forall b | Indexed(wm, [b], shard) ensures Indexed(IndexAll(wm, bases, shard), [b], shard) {
        assert b in [b];
        assert Indexed(wm', [b], shard);
      }
      forall b | b in bases
        ensures WeightName(b) !in IndexAll(wm, bases, shard)
        ensures forall n :: n in PackedNames(b) ==>
          n in IndexAll(wm, bases, shard) && IndexAll(wm, bases, shard)[n] == shard
      {
        if b == bases[0] { assert b in [bases[0]]; } else { assert b in bases[1..]; }
      }
    }
  }

  lemma {:induction false} IndexedStays(wm: WeightMap, bases: seq<string>, shard: string)
    requires Indexed(wm, bases, shard)
    ensures IndexAll(wm, bases, shard) == wm
    decreases |bases|
  {
    if bases != [] {
      assert bases[0] in bases;
      assert IndexOne(wm, bases[0], shard) == wm by {
        assert TensorName(bases[0], WeightPacked) in PackedNames(bases[0]);
        assert TensorName(bases[0], WeightScale) in PackedNames(bases[0]);
        assert TensorName(bases[0], WeightShape) in PackedNames(bases[0]);
      }
      IndexedStays(wm, bases[1..], shard);
    }
  }

  // ---- clone_group and the ignore list

  /** A clone of group_0 with its own targets, declaring symmetric int groups of GROUP with no
      zero point whatever group_0 says. */
  function CloneGroup(q: Quantization, part: Covers, bits: nat): (q': Quantization)
    requires "group_0" in q.groups
    ensures q'.groups.Keys == q.groups.Keys + {GroupName(part)}
    ensures q'.groups["group_0"] == q.groups["group_0"]
    ensures q'.ignore == q.ignore && q'.quantMethod == q.quantMethod
    ensures Declares(q', part, bits)
    ensures forall g :: g in q.groups && g != GroupName(part) ==> q'.groups[g] == q.groups[g]
  {
    q.(groups := q.groups[GroupName(part) := Cloned(q.groups["group_0"], part, bits)])
  }

  function Cloned(g0: Group, part: Covers, bits: nat): Group {
    g0.(targets := GroupTargets(part),
        weights := g0.weights.(numBits := bits, symmetric := true, zpDtype := None,
                               groupSize := GROUP, strategy := "group", kind := "int"))
  }

  /** A group that is there already is not added again. */
  lemma AddedAlready(q: Quantization, part: Covers, bits: nat)
    requires "group_0" in q.groups && GroupName(part) in q.groups
    requires q.groups[GroupName(part)] == Cloned(q.groups["group_0"], part, bits)
    ensures CloneGroup(q, part, bits) == q
  {
    assert q.groups[GroupName(part) := q.groups[GroupName(part)]] == q.groups;
  }

  predicate Declares(q: Quantization, part: Covers, bits: nat) {
    GroupName(part) in q.groups &&
    var g := q.groups[GroupName(part)];
    && g.targets == GroupTargets(part) && g.weights.numBits == bits && g.weights.symmetric
    && g.weights.zpDtype == None && g.weights.groupSize == GROUP
    && g.weights.strategy == "group" && g.weights.kind == "int"
  }

  lemma CloneTwice(q: Quantization, part: Covers, bits: nat)
    requires "group_0" in q.groups
    ensures CloneGroup(CloneGroup(q, part, bits), part, bits) == CloneGroup(q, part, bits)
  {
    assert CloneGroup(CloneGroup(q, part, bits), part, bits).groups == CloneGroup(q, part, bits).groups;
  }

  /** [i for i in xs if i not in drop] */
  function Without(xs: seq<string>, drop: seq<string>): (r: seq<string>)
    ensures forall x :: x in r <==> x in xs && x !in drop
  {
    if xs == [] then [] else
    if xs[0] in drop then Without(xs[1..], drop) else [xs[0]] + Without(xs[1..], drop)
  }

  lemma {:induction false} WithoutNothing(xs: seq<string>, drop: seq<string>)
    requires forall x :: x in xs ==> x !in drop
    ensures Without(xs, drop) == xs
  {
    if xs != [] {
      assert xs[0] in xs;
      WithoutNothing(xs[1..], drop);
    }
  }

  lemma {:induction false} WithoutEverything(xs: seq<string>, drop: seq<string>)
    requires forall x :: x in xs ==> x in drop
    ensures Without(xs, drop) == []
  {
    if xs != [] {
      assert xs[0] in xs;
      WithoutEverything(xs[1..], drop);
    }
  }

  /** quant_lm_head.py: drop lm_head, then add the MTP linears that are missing. */
  function LmHeadIgnore(xs: seq<string>): seq<string> {
    Without(xs, ["lm_head"]) + Without(MTP_LINEARS, Without(xs, ["lm_head"]))
  }

  lemma LmHeadIgnoreTwice(xs: seq<string>)
    ensures LmHeadIgnore(LmHeadIgnore(xs)) == LmHeadIgnore(xs)
  {
    var ys := LmHeadIgnore(xs);
    LinearsDistinct(false);
    WithoutNothing(ys, ["lm_head"]);
    WithoutEverything(MTP_LINEARS, ys);
  }

  lemma WithoutTwice(xs: seq<string>, drop: seq<string>)
    ensures Without(Without(xs, drop), drop) == Without(xs, drop)
  {
    WithoutNothing(Without(xs, drop), drop);
  }

  /** `meta or {"format": "pt"}` */
  function OrPt(meta: Metadata): Metadata {
    if meta == map[] then map["format" := "pt"] else meta
  }
}
