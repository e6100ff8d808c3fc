/** What a completed run of prepare/build_draft_vocab.py leaves in each file, apart from how it edits them. */
module DraftResults {
  import opened Contents
  import opened QuantSchema
  import opened AtomicPublish
  import opened Resume
  import opened PrepareSteps
  import opened PrepareResults
  import D = DraftHead

  /** The packed lm_head that the index names. */
  function HeadTensors(live: Live): (ts: Tensors)
    requires INDEX in live && live[INDEX].IndexFile?
    requires TensorName("lm_head", WeightPacked) in live[INDEX].weightMap
  {
    var n := ShardName(live[INDEX].weightMap[TensorName("lm_head", WeightPacked)]);
    if n in live && live[n].ShardFile? then live[n].tensors else map[]
  }

  /** Row i of the draft head is row ids[i] of lm_head, codes and scales; its shape says so. */
  ghost predicate IsRowsOf(ids: seq<int>, head: Tensors, ts: Tensors) {
    var packed, scale, shape := WeightPacked, WeightScale, WeightShape;
    && (forall p :: p in {packed, scale, shape} ==>
          TensorName("lm_head", p) in head && TensorName("mtp.draft_lm_head", p) in ts)
    && SameRows(ids, head[TensorName("lm_head", packed)], ts[TensorName("mtp.draft_lm_head", packed)])
    && SameScales(ids, head[TensorName("lm_head", scale)], ts[TensorName("mtp.draft_lm_head", scale)])
    && head[TensorName("lm_head", shape)].Shape?
    && ts[TensorName("mtp.draft_lm_head", shape)] == Shape(|ids|, head[TensorName("lm_head", shape)].inF)
  }

  predicate SameRows(ids: seq<int>, t: Tensor, t': Tensor) {
    && t.Codes? && t'.Codes? && |t'.codes| == |ids|
    && forall i :: 0 <= i < |ids| ==> 0 <= ids[i] < |t.codes| && t'.codes[i] == t.codes[ids[i]]
  }

  predicate SameScales(ids: seq<int>, t: Tensor, t': Tensor) {
    && t.Scales? && t'.Scales? && |t'.scales| == |ids|
    && forall i :: 0 <= i < |ids| ==> 0 <= ids[i] < |t.scales| && t'.scales[i] == t.scales[ids[i]]
  }

  /** The extras file: the draft head, and every other tensor and the metadata as they were. */
  ghost predicate ExtraAfter(live: Live, l: Live) {
    && D.EXTRA in l && l[D.EXTRA].ShardFile?
    && if D.EXTRA in live
       then live[D.EXTRA].ShardFile?
            && (forall n: TensorName :: n.base != "mtp.draft_lm_head" ==>
                  SameEntry(live[D.EXTRA].tensors, l[D.EXTRA].tensors, n))
            && (live[D.EXTRA].meta != map[] ==> l[D.EXTRA].meta == live[D.EXTRA].meta)
       else (forall n: TensorName :: n.base != "mtp.draft_lm_head" ==> n !in l[D.EXTRA].tensors)
            && l[D.EXTRA].meta == map["format" := "pt"]
  }

  ghost predicate DraftIndexAfter(c: Content, c': Content)
    requires c.IndexFile?
  {
    && c'.IndexFile? && c'.rest == c.rest && WeightName("mtp.draft_lm_head") !in c'.weightMap
    && (forall n :: n in PackedNames("mtp.draft_lm_head") ==>
          n in c'.weightMap && c'.weightMap[n] == "model_extra_tensors.safetensors")
    && forall n: TensorName :: n.base != "mtp.draft_lm_head" ==> SameEntry(c.weightMap, c'.weightMap, n)
  }

  /** A file that is there gets a backup of what it held, unless it has one. */
  predicate BackedUpOnce(live: Live, l: Live, n: Name, bk: Name) {
    if bk in live then bk in l && l[bk] == live[bk]
    else if n in live then bk in l && l[bk] == live[n] else bk !in l
  }

  ghost predicate DraftAchieved(ids: seq<int>, live: Live, l: Live) {
    && INDEX in live && live[INDEX].IndexFile? && INDEX in l && DraftIndexAfter(live[INDEX], l[INDEX])
    && TensorName("lm_head", WeightPacked) in live[INDEX].weightMap
    && ExtraAfter(live, l) && IsRowsOf(ids, HeadTensors(live), l[D.EXTRA].tensors)
    && D.IDS in l && l[D.IDS] == IdsFile(ids)
    && BackedUpOnce(live, l, D.EXTRA, Backup(Base, "model_extra_tensors.safetensors", ".bak-draft"))
    && forall n: Name :: n.File? && n != D.EXTRA && n != D.IDS && n != INDEX ==>
         if n in live then n in l && l[n] == live[n] else n !in l
  }

  lemma SliceIsRows(ids: seq<int>, live: Live)
    requires D.Opening(ids, live).Some?
    ensures IsRowsOf(ids, HeadTensors(live), D.Opening(ids, live).value)
  {
  }

  lemma RowsStay(ids: seq<int>, head: Tensors, rows: Tensors, ts: Tensors)
    requires IsRowsOf(ids, head, rows) && rows.Keys == PackedNames("mtp.draft_lm_head")
    ensures IsRowsOf(ids, head, ts + rows)
    ensures forall n: TensorName :: n.base != "mtp.draft_lm_head" ==> SameEntry(ts, ts + rows, n)
  {
  }

  /** The whole effect of a completed run. */
  lemma DraftAchieves(ids: seq<int>, live: Live)
    requires D.Opening(ids, live).Some? && D.Typed(live)
    ensures D.DraftScript(ids, live).Some?
    ensures DraftAchieved(ids, live, Apply(live, D.DraftScript(ids, live).value))
  {
    var rows := D.Opening(ids, live).value;
    D.DraftPlan(ids, live);
    ApplyAppend(live, D.ExtraActions(rows, live), D.Rest(ids, live));
    D.ApplyExtra(rows, live);
    D.OpeningWithExtra(ids, live);
    var mid := D.WithExtra(rows, live);
    D.ApplyRest(ids, mid);
    SliceIsRows(ids, live);
    RowsStay(ids, HeadTensors(live), rows, if D.EXTRA in live then live[D.EXTRA].tensors else map[]);
    DraftIs(ids, live, rows, D.WithRest(ids, mid));
  }

  lemma DraftIs(ids: seq<int>, live: Live, rows: Tensors, l: Live)
    requires D.Opening(ids, live) == Some(rows) && D.Typed(live) && INDEX in D.WithExtra(rows, live)
    requires D.WithExtra(rows, live)[INDEX] == live[INDEX] && l == D.WithRest(ids, D.WithExtra(rows, live))
    requires var ts := if D.EXTRA in live then live[D.EXTRA].tensors else map[];
             && IsRowsOf(ids, HeadTensors(live), ts + rows)
             && forall n: TensorName :: n.base != "mtp.draft_lm_head" ==> SameEntry(ts, ts + rows, n)
    ensures DraftAchieved(ids, live, l)
  {
    var ts: Tensors := if D.EXTRA in live then live[D.EXTRA].tensors else map[];
    FilesAre(ids, live, rows, l);
    assert l[D.EXTRA].tensors == ts + rows;
    IndexAfterIs(live[INDEX]);
  }

  lemma IndexAfterIs(c: Content)
    requires c.IndexFile?
    ensures DraftIndexAfter(c, IndexFile(IndexOne(c.weightMap, D.DRAFT, D.EXTRA_SHARD), c.rest))
  {
  }

  /** Each file after the run, by name. */
  lemma FilesAre(ids: seq<int>, live: Live, rows: Tensors, l: Live)
    requires D.Typed(live) && INDEX in live && live[INDEX].IndexFile?
    requires INDEX in D.WithExtra(rows, live) && D.WithExtra(rows, live)[INDEX] == live[INDEX]
    requires l == D.WithRest(ids, D.WithExtra(rows, live))
    ensures D.EXTRA in l && l[D.EXTRA] == D.ExtraContent(rows, live) && D.IDS in l && l[D.IDS] == IdsFile(ids)
    ensures INDEX in l
    ensures l[INDEX] == IndexFile(IndexOne(live[INDEX].weightMap, D.DRAFT, D.EXTRA_SHARD), live[INDEX].rest)
    ensures BackedUpOnce(live, l, D.EXTRA, D.EXTRA_BACKUP)
    ensures forall n: Name :: n.File? && n != D.EXTRA && n != D.IDS && n != INDEX ==>
      if n in live then n in l && l[n] == live[n] else n !in l
  {
    assert D.EXTRA != INDEX && D.EXTRA != D.IDS && D.IDS != INDEX;
  }
}
