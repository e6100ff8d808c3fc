/** prepare/build_draft_vocab.py, from the row slice of lm_head to the index: extras shard, id
    list, index, under kills and re-runs. */
module DraftHead {
  import opened Contents
  import opened QuantSchema
  import opened AtomicPublish
  import opened Resume
  import opened PrepareSteps

  const EXTRA_SHARD: string := "model_extra_tensors.safetensors"
  const EXTRA: Name := File(Base, EXTRA_SHARD)
  const EXTRA_BACKUP: Name := Backup(Base, EXTRA_SHARD, ".bak-draft")
  const IDS: Name := File(Base, "mtp_draft_vocab_ids.pt")
  const DRAFT: string := "mtp.draft_lm_head"

  /** The packed lm_head the rows are taken from. */
  datatype Head = Head(codes: seq<seq<int>>, scales: seq<seq<real>>, inF: int)

  function ReadHead(ts: Tensors): Option<Head> {
    var p, s := TensorName("lm_head", WeightPacked), TensorName("lm_head", WeightScale);
    var z := TensorName("lm_head", WeightShape);
    if p in ts && s in ts && z in ts && ts[p].Codes? && ts[s].Scales? && ts[z].Shape?
    then Some(Head(ts[p].codes, ts[s].scales, ts[z].inF))
    else None
  }

  predicate InRange(ids: seq<int>, h: Head) {
    forall i :: 0 <= i < |ids| ==> 0 <= ids[i] < |h.codes| && ids[i] < |h.scales|
  }

  /** index_select of the packed rows and of their scales. */
  function Slice(h: Head, ids: seq<int>): (t: Tensors)
    requires InRange(ids, h)
    ensures t.Keys == PackedNames(DRAFT)
  {
    map[TensorName(DRAFT, WeightPacked) := Codes(seq(|ids|, i requires 0 <= i < |ids| => h.codes[ids[i]])),
        TensorName(DRAFT, WeightScale) := Scales(seq(|ids|, i requires 0 <= i < |ids| => h.scales[ids[i]])),
        TensorName(DRAFT, WeightShape) := Shape(|ids|, h.inF)]
  }

  /** What is read before the first write: the rows to publish, or a failure. */
  function Opening(ids: seq<int>, live: Live): (r: Option<Tensors>)
    ensures r.Some? ==> INDEX in live && live[INDEX].IndexFile?
    ensures r.Some? ==> r.value.Keys == PackedNames(DRAFT)
  {
    if INDEX !in live || !live[INDEX].IndexFile? then None
    else if TensorName("lm_head", WeightPacked) !in live[INDEX].weightMap then None
    else
      var n := ShardName(live[INDEX].weightMap[TensorName("lm_head", WeightPacked)]);
      if n !in live || !live[n].ShardFile? then None
      else if ReadHead(live[n].tensors).None? || !InRange(ids, ReadHead(live[n].tensors).value) then None
      else Some(Slice(ReadHead(live[n].tensors).value, ids))
  }

  function ExtraEdit(rows: Tensors): Content -> Edit {
    (c: Content) => if c.ShardFile? then Put(ShardFile(c.tensors + rows, OrPt(c.meta))) else Refuse
  }

  /** The extras file is backed up and extended when it exists, created when it does not. */
  function ExtraPart(rows: Tensors): Plan {
    (live: Live) =>
      if EXTRA in live then Editing(EXTRA, Copy(".bak-draft"), ExtraEdit(rows))(live)
      else Some([Publish(EXTRA, ShardFile(rows, OrPt(map[])))])
  }

  function Always(n: Name, c: Content): Plan {
    (live: Live) => Some([Publish(n, c)])
  }

  function DraftIndexEdit(): Content -> Edit {
    (c: Content) =>
      if c.IndexFile? then Put(IndexFile(IndexOne(c.weightMap, DRAFT, EXTRA_SHARD), c.rest)) else Refuse
  }

  function DraftIndexPart(): Plan {
    Editing(INDEX, NoBackup, DraftIndexEdit())
  }

  function DraftParts(rows: Tensors, ids: seq<int>): Plan {
    Then(ExtraPart(rows), Then(Always(IDS, IdsFile(ids)), DraftIndexPart()))
  }

  function DraftScript(ids: seq<int>, live: Live): Option<seq<Action>> {
    match Opening(ids, live)
    case None => None
    case Some(rows) => DraftParts(rows, ids)(live)
  }

  /** state(): pending until the index names the draft head and the id list is there. */
  predicate DraftPending(live: Live) {
    INDEX in live && live[INDEX].IndexFile?
    && (TensorName(DRAFT, WeightPacked) !in live[INDEX].weightMap || IDS !in live)
  }

  function DraftStep(ids: seq<int>): Plan {
    (live: Live) => if DraftPending(live) then DraftScript(ids, live) else Some([])
  }

  /** A first activation: the index does not name the draft head, and the run will not refuse. */
  predicate FirstActivation(ids: seq<int>, live: Live) {
    && Unnamed(live) && Opening(ids, live).Some?
    && Typed(live)
  }

  /** The extras file and the id list, when there, are what their names say. */
  predicate Typed(live: Live) {
    && (EXTRA in live ==> live[EXTRA].ShardFile?)
    && (IDS in live ==> live[IDS].IdsFile?)
  }

  predicate Unnamed(live: Live) {
    INDEX in live && live[INDEX].IndexFile? && TensorName(DRAFT, WeightPacked) !in live[INDEX].weightMap
  }

  // ---- the plan, spelled out

  function ExtraContent(rows: Tensors, live: Live): Content
    requires EXTRA in live ==> live[EXTRA].ShardFile?
  {
    if EXTRA in live then ShardFile(live[EXTRA].tensors + rows, OrPt(live[EXTRA].meta))
    else ShardFile(rows, OrPt(map[]))
  }

  function ExtraActions(rows: Tensors, live: Live): seq<Action>
    requires EXTRA in live ==> live[EXTRA].ShardFile?
  {
    (if EXTRA in live && EXTRA_BACKUP !in live then [Publish(EXTRA_BACKUP, live[EXTRA])] else [])
    + [Publish(EXTRA, ExtraContent(rows, live))]
  }

  function Rest(ids: seq<int>, live: Live): seq<Action>
    requires INDEX in live && live[INDEX].IndexFile?
  {
    [Publish(IDS, IdsFile(ids)),
     Publish(INDEX, IndexFile(IndexOne(live[INDEX].weightMap, DRAFT, EXTRA_SHARD), live[INDEX].rest))]
  }

  lemma ExtraPlan(rows: Tensors, live: Live)
    requires EXTRA in live ==> live[EXTRA].ShardFile?
    ensures ExtraPart(rows)(live) == Some(ExtraActions(rows, live))
  {
    if EXTRA in live {
      assert KeepFirst(live, EXTRA, Copy(".bak-draft")) == BackupOnce(live, EXTRA, ".bak-draft");
      assert Editing(EXTRA, Copy(".bak-draft"), ExtraEdit(rows))(live)
          == Some(BackupOnce(live, EXTRA, ".bak-draft") + [Publish(EXTRA, ExtraContent(rows, live))]);
    } else {
      assert ExtraActions(rows, live) == [Publish(EXTRA, ShardFile(rows, OrPt(map[])))];
    }
  }

  lemma RestPlan(ids: seq<int>, live: Live)
    requires INDEX in live && live[INDEX].IndexFile?
    ensures Then(Always(IDS, IdsFile(ids)), DraftIndexPart())(live) == Some(Rest(ids, live))
  {
    var first := [Publish(IDS, IdsFile(ids))];
    ApplySingle(live, first[0]);
    var l := Apply(live, first);
    assert IDS != INDEX && l[INDEX] == live[INDEX];
    var c := IndexFile(IndexOne(live[INDEX].weightMap, DRAFT, EXTRA_SHARD), live[INDEX].rest);
    assert DraftIndexEdit()(l[INDEX]) == Put(c);
    assert KeepFirst(l, INDEX, NoBackup) + [Publish(INDEX, c)] == [Publish(INDEX, c)];
    assert DraftIndexPart()(l) == Some([Publish(INDEX, c)]);
    assert first + [Publish(INDEX, c)] == Rest(ids, live);
  }

  lemma DraftPlan(ids: seq<int>, live: Live)
    requires Opening(ids, live).Some? && (EXTRA in live ==> live[EXTRA].ShardFile?)
    ensures ExtraPart(Opening(ids, live).value)(live) == Some(ExtraActions(Opening(ids, live).value, live))
    ensures DraftScript(ids, live) == Some(ExtraActions(Opening(ids, live).value, live) + Rest(ids, live))
  {
    var rows := Opening(ids, live).value;
    ExtraPlan(rows, live);
    var a := ExtraActions(rows, live);
    ApplyKeeps(live, a, INDEX);
    RestPlan(ids, Apply(live, a));
  }

  // ---- the index names the draft head only when it is there

  /** When the index names the draft head, the id list is on disk and row i of the head, codes
      and scale, is row ids[i] of lm_head. */
  ghost predicate DraftSound(live: Live) {
    && INDEX in live && live[INDEX].IndexFile?
    && (TensorName(DRAFT, WeightPacked) in live[INDEX].weightMap ==>
        (IDS in live && live[IDS].IdsFile? && RowsMatch(live[IDS].ids, live)))
  }

  ghost predicate RowsMatch(ids: seq<int>, live: Live)
    requires INDEX in live && live[INDEX].IndexFile?
  {
    && Opening(ids, live).Some?
    && (forall n :: n in PackedNames(DRAFT) ==>
          n in live[INDEX].weightMap && live[INDEX].weightMap[n] == EXTRA_SHARD)
    && EXTRA in live && live[EXTRA].ShardFile?
    && (forall n :: n in PackedNames(DRAFT) ==>
          n in live[EXTRA].tensors && live[EXTRA].tensors[n] == Opening(ids, live).value[n])
  }

  /** Writing the draft head moves nothing the lm_head rows are read from. */
  lemma OpeningStays(ids: seq<int>, live: Live, l: Live)
    requires Opening(ids, live).Some?
    requires INDEX in l && l[INDEX].IndexFile?
    requires forall n: TensorName :: n.base == "lm_head" ==>
      (n in live[INDEX].weightMap <==> n in l[INDEX].weightMap)
      && (n in live[INDEX].weightMap ==> l[INDEX].weightMap[n] == live[INDEX].weightMap[n])
    requires var s := ShardName(live[INDEX].weightMap[TensorName("lm_head", WeightPacked)]);
             s in l && (l[s] == live[s] || (l[s].ShardFile? && forall n: TensorName :: n.base == "lm_head" ==>
               (n in live[s].tensors <==> n in l[s].tensors)
               && (n in l[s].tensors ==> l[s].tensors[n] == live[s].tensors[n])))
    ensures Opening(ids, l) == Opening(ids, live)
  {
    assert TensorName("lm_head", WeightPacked).base == "lm_head";
  }

  /** What the extras part leaves: the file, and its backup when it was there to back up. */
  function WithExtra(rows: Tensors, live: Live): Live
    requires EXTRA in live ==> live[EXTRA].ShardFile?
  {
    (if EXTRA in live && EXTRA_BACKUP !in live then live[EXTRA_BACKUP := live[EXTRA]] else live)
    [EXTRA := ExtraContent(rows, live)]
  }

  function WithRest(ids: seq<int>, live: Live): Live
    requires INDEX in live && live[INDEX].IndexFile?
  {
    live[IDS := IdsFile(ids)]
    [INDEX := IndexFile(IndexOne(live[INDEX].weightMap, DRAFT, EXTRA_SHARD), live[INDEX].rest)]
  }

  lemma ApplyExtra(rows: Tensors, live: Live)
    requires EXTRA in live ==> live[EXTRA].ShardFile?
    ensures Apply(live, ExtraActions(rows, live)) == WithExtra(rows, live)
  {
    var a := ExtraActions(rows, live);
    var last := Publish(EXTRA, ExtraContent(rows, live));
    if EXTRA in live && EXTRA_BACKUP !in live {
      var first := Publish(EXTRA_BACKUP, live[EXTRA]);
      assert a == [first] + [last];
      ApplyAppend(live, [first], [last]);
      ApplySingle(live, first);
      ApplySingle(ApplyOne(live, first), last);
    } else {
      assert a == [last];
      ApplySingle(live, last);
    }
  }

  lemma ApplyRest(ids: seq<int>, live: Live)
    requires INDEX in live && live[INDEX].IndexFile?
    ensures Apply(live, Rest(ids, live)) == WithRest(ids, live)
  {
    var r := Rest(ids, live);
    assert r == [r[0]] + [r[1]];
    ApplyAppend(live, [r[0]], [r[1]]);
    ApplySingle(live, r[0]);
    ApplySingle(ApplyOne(live, r[0]), r[1]);
  }

  lemma OpeningWithExtra(ids: seq<int>, live: Live)
    requires Opening(ids, live).Some? && Typed(live)
    ensures var l := WithExtra(Opening(ids, live).value, live);
            Opening(ids, l) == Opening(ids, live) && Typed(l) && INDEX in l && l[INDEX] == live[INDEX]
  {
    var rows := Opening(ids, live).value;
    var l := WithExtra(rows, live);
    var s := ShardName(live[INDEX].weightMap[TensorName("lm_head", WeightPacked)]);
    assert forall n: TensorName :: n.base == "lm_head" ==> n !in rows;
    OpeningStays(ids, live, l);
  }

  lemma OpeningWithIds(ids: seq<int>, live: Live)
    requires Opening(ids, live).Some? && Typed(live)
    ensures var l := live[IDS := IdsFile(ids)];
            Opening(ids, l) == Opening(ids, live) && Typed(l) && l[INDEX] == live[INDEX]
  {
    OpeningStays(ids, live, live[IDS := IdsFile(ids)]);
  }

  lemma OpeningWithRest(ids: seq<int>, live: Live)
    requires Opening(ids, live).Some? && Typed(live)
    ensures Opening(ids, WithRest(ids, live)) == Opening(ids, live) && Typed(WithRest(ids, live))
  {
    var wm := IndexOne(live[INDEX].weightMap, DRAFT, EXTRA_SHARD);
    assert DRAFT != "lm_head";
    OpeningStays(ids, live, WithRest(ids, live));
  }

  /** A completed run makes the index true. */
  lemma CompleteIsSound(ids: seq<int>, live: Live)
    requires Opening(ids, live).Some? && Typed(live)
    ensures DraftScript(ids, live).Some?
    ensures var l := Apply(live, DraftScript(ids, live).value);
            DraftSound(l) && Typed(l) && TensorName(DRAFT, WeightPacked) in l[INDEX].weightMap
            && IDS in l && l[IDS] == IdsFile(ids)
  {
    var rows := Opening(ids, live).value;
    DraftPlan(ids, live);
    ApplyAppend(live, ExtraActions(rows, live), Rest(ids, live));
    ApplyExtra(rows, live);
    OpeningWithExtra(ids, live);
    var mid := WithExtra(rows, live);
    ApplyRest(ids, mid);
    OpeningWithRest(ids, mid);
    assert mid[EXTRA].ShardFile? && forall n :: n in PackedNames(DRAFT) ==> mid[EXTRA].tensors[n] == rows[n];
    assert EXTRA != IDS && EXTRA != INDEX;
    assert RowsMatch(ids, WithRest(ids, mid));
  }

  /** Runs that may each be given another id list, each killed after some operations. */
  function DraftRuns(d: Dir, runs: seq<(seq<int>, nat)>): Dir
    decreases |runs|
  {
    if runs == [] then d else DraftRuns(Run(DraftStep(runs[0].0), d, runs[0].1), runs[1..])
  }

  ghost predicate Truthful(live: Live) {
    Typed(live) && DraftSound(live)
  }

  lemma RunIsTruthful(ids: seq<int>, d: Dir, budget: nat)
    requires Truthful(d.live)
    ensures Truthful(Run(DraftStep(ids), d, budget).live)
  {
    if DraftPending(d.live) && Opening(ids, d.live).Some? {
      DraftPlan(ids, d.live);
      var acts := DraftScript(ids, d.live).value;
      if |Ops(acts)| <= budget {
        ExecAll(d, acts);
        CompleteIsSound(ids, d.live);
      } else {
        var i := ExecCut(d, acts, budget);
        CutIsUnnamed(ids, d.live, i);
      }
    }
  }

  /** Until the last action lands the index does not name the draft head. */
  lemma CutIsUnnamed(ids: seq<int>, live: Live, i: nat)
    requires Opening(ids, live).Some? && Typed(live)
    requires DraftScript(ids, live).Some? && i < |DraftScript(ids, live).value|
    ensures var l := Apply(live, DraftScript(ids, live).value[..i]);
            INDEX in l && l[INDEX] == live[INDEX] && Typed(l)
  {
    DraftPlan(ids, live);
    var acts := DraftScript(ids, live).value;
    assert forall a :: a in acts[..i] ==> !Touches(a, INDEX) && KeepsTypes(a);
    ApplyKeeps(live, acts[..i], INDEX);
    TypesStay(live, acts[..i]);
  }

  predicate KeepsTypes(a: Action) {
    && (Touches(a, EXTRA) ==> a.Publish? && a.content.ShardFile?)
    && (Touches(a, IDS) ==> a.Publish? && a.content.IdsFile?)
  }

  lemma {:induction false} TypesStay(live: Live, acts: seq<Action>)
    requires Typed(live) && forall a :: a in acts ==> KeepsTypes(a)
    ensures Typed(Apply(live, acts))
    decreases |acts|
  {
    if acts != [] {
      assert KeepsTypes(acts[0]);
      TypesStay(ApplyOne(live, acts[0]), acts[1..]);
    }
  }

  /** From a model without a draft head, any runs with any id lists, killed anywhere: if the
      index names the draft head, the id list is on disk and the head is its rows of lm_head. */
  lemma {:induction false} ReachableDraftIsSound(d: Dir, runs: seq<(seq<int>, nat)>)
    requires Typed(d.live) && DraftSound(d.live)
    ensures DraftSound(DraftRuns(d, runs).live)
    decreases |runs|
  {
    if runs != [] {
      RunIsTruthful(runs[0].0, d, runs[0].1);
      ReachableDraftIsSound(Run(DraftStep(runs[0].0), d, runs[0].1), runs[1..]);
    }
  }

  /** DraftSound, row by row. */
  lemma HeadRows(live: Live, i: nat)
    requires DraftSound(live) && TensorName(DRAFT, WeightPacked) in live[INDEX].weightMap
    requires i < |live[IDS].ids|
    ensures var wm := live[INDEX].weightMap;
            var draft := live[EXTRA].tensors;
            var head := live[ShardName(wm[TensorName("lm_head", WeightPacked)])].tensors;
            var id := live[IDS].ids[i];
            && 0 <= id < |head[TensorName("lm_head", WeightPacked)].codes|
            && draft[TensorName(DRAFT, WeightPacked)].codes[i] == head[TensorName("lm_head", WeightPacked)].codes[id]
            && draft[TensorName(DRAFT, WeightScale)].scales[i] == head[TensorName("lm_head", WeightScale)].scales[id]
  {
    assert RowsMatch(live[IDS].ids, live);
    assert TensorName(DRAFT, WeightPacked) in PackedNames(DRAFT);
    assert TensorName(DRAFT, WeightScale) in PackedNames(DRAFT);
  }

  // ---- when a killed build equals a clean one

  /** build_draft_vocab.py backs the extras file up when it finds one. Without one, a run killed
      after creating it makes the next run back up a file that already holds the draft head. */
  predicate BackupIsSafe(live: Live) {
    EXTRA in live || EXTRA_BACKUP in live
  }

  lemma ExtraContentTwice(rows: Tensors, live: Live)
    requires EXTRA in live ==> live[EXTRA].ShardFile?
    ensures ExtraContent(rows, WithExtra(rows, live)) == ExtraContent(rows, live)
  {
    var c := ExtraContent(rows, live);
    assert c.tensors + rows == c.tensors;
  }

  lemma ExtraDone(rows: Tensors, live: Live, l: Live)
    requires EXTRA in live ==> live[EXTRA].ShardFile?
    requires BackupIsSafe(live)
    requires EXTRA in l && EXTRA_BACKUP in l && l[EXTRA] == ExtraContent(rows, live)
    ensures ExtraPart(rows)(l) == Some([Publish(EXTRA, ExtraContent(rows, live))])
    ensures DoneAt(ExtraPart(rows), l)
  {
    ExtraContentTwice(rows, live);
    ExtraPlan(rows, l);
    assert ExtraActions(rows, l) == [Publish(EXTRA, ExtraContent(rows, live))];
  }

  lemma ExtraResumable(rows: Tensors, live: Live)
    requires EXTRA in live ==> live[EXTRA].ShardFile?
    requires BackupIsSafe(live)
    ensures Resumable(ExtraPart(rows), live)
  {
    ExtraPlan(rows, live);
    var full := ExtraActions(rows, live);
    var last := Publish(EXTRA, ExtraContent(rows, live));
    forall i | 0 <= i <= |full| ensures Resumes(ExtraPart(rows), live, full, i) {
      var l := Stage(live, full, i);
      if i == |full| {
        assert full[..i] == full && full[i..] == [];
        ApplyExtra(rows, live);
        ExtraDone(rows, live, l);
        assert [last][1..] == [] && [last][..1] == [last];
      } else if i == 0 {
        assert full[..0] == [] && full[0..] == full;
      } else {
        assert full == [full[0]] + [last] && full[..1] == [full[0]] && full[1..] == [last];
        ApplySingle(live, full[0]);
        ExtraPlan(rows, l);
        assert ExtraActions(rows, l) == [last];
        assert [last][0..] == [last] && [last][..0] == [];
      }
    }
  }

  lemma RestDone(ids: seq<int>, live: Live, l: Live)
    requires INDEX in live && live[INDEX].IndexFile?
    requires l == live[IDS := IdsFile(ids)] || l == WithRest(ids, live)
    ensures INDEX in l && l[INDEX].IndexFile?
    ensures Rest(ids, l) == Rest(ids, live)
    ensures Redundant(l, Rest(ids, l)[0])
    ensures l == WithRest(ids, live) ==> Redundant(l, Rest(ids, l)[1])
  {
    var wm := live[INDEX].weightMap;
    assert IndexOne(IndexOne(wm, DRAFT, EXTRA_SHARD), DRAFT, EXTRA_SHARD) == IndexOne(wm, DRAFT, EXTRA_SHARD);
  }

  function RestPart(ids: seq<int>): Plan {
    Then(Always(IDS, IdsFile(ids)), DraftIndexPart())
  }

  lemma RestResumable(ids: seq<int>, live: Live)
    requires INDEX in live && live[INDEX].IndexFile?
    ensures Resumable(RestPart(ids), live)
  {
    RestPlan(ids, live);
    var r := Rest(ids, live);
    forall i | 0 <= i <= |r| ensures Resumes(RestPart(ids), live, r, i) {
      RestStage(ids, live, i);
      var l := Stage(live, r, i);
      RestPlan(ids, l);
      if i > 0 {
        RestDone(ids, live, l);
      }
      assert Rest(ids, l) == r;
      assert r[..i] == if i == 0 then [] else if i == 1 then [r[0]] else [r[0], r[1]];
    }
  }

  lemma RestStage(ids: seq<int>, live: Live, i: nat)
    requires INDEX in live && live[INDEX].IndexFile? && i <= 2
    ensures Stage(live, Rest(ids, live), i)
         == if i == 0 then live else if i == 1 then live[IDS := IdsFile(ids)] else WithRest(ids, live)
    ensures INDEX in Stage(live, Rest(ids, live), i) && Stage(live, Rest(ids, live), i)[INDEX].IndexFile?
  {
    var r := Rest(ids, live);
    if i == 0 {
      assert r[..i] == [];
    } else if i == 1 {
      assert r[..i] == [r[0]];
      ApplySingle(live, r[0]);
    } else {
      assert r[..i] == r;
      ApplyRest(ids, live);
    }
  }

  lemma DraftPartsResumable(ids: seq<int>, live: Live)
    requires Opening(ids, live).Some? && Typed(live) && BackupIsSafe(live)
    ensures Resumable(DraftParts(Opening(ids, live).value, ids), live)
  {
    var rows := Opening(ids, live).value;
    ExtraResumable(rows, live);
    ExtraPlan(rows, live);
    ApplyExtra(rows, live);
    var mid := WithExtra(rows, live);
    RestResumable(ids, mid);
    RestPlan(ids, mid);
    forall j | 0 <= j <= |Rest(ids, mid)| ensures DoneAt(ExtraPart(rows), Stage(mid, Rest(ids, mid), j)) {
      RestStage(ids, mid, j);
      ExtraDone(rows, live, Stage(mid, Rest(ids, mid), j));
    }
    ThenResumable(ExtraPart(rows), RestPart(ids), live);
  }

  /** Before the last action the rows a re-run would publish are the same. */
  ghost predicate OpensAs(ids: seq<int>, live: Live, l: Live)
    requires INDEX in live
  {
    Opening(ids, l) == Opening(ids, live) && INDEX in l && l[INDEX] == live[INDEX]
  }

  lemma OpensInExtra(ids: seq<int>, live: Live, i: nat)
    requires Opening(ids, live).Some? && Typed(live) && i < |ExtraActions(Opening(ids, live).value, live)|
    ensures OpensAs(ids, live, Stage(live, ExtraActions(Opening(ids, live).value, live), i))
  {
    var a := ExtraActions(Opening(ids, live).value, live);
    if i == 0 {
      assert a[..0] == [];
    } else {
      assert a[..i] == [a[0]];
      ApplySingle(live, a[0]);
      OpeningStays(ids, live, ApplyOne(live, a[0]));
    }
  }

  lemma OpensInRest(ids: seq<int>, live: Live, i: nat)
    requires Opening(ids, live).Some? && Typed(live) && i < 2
    ensures var mid := WithExtra(Opening(ids, live).value, live);
            INDEX in mid && mid[INDEX] == live[INDEX] && OpensAs(ids, live, Stage(mid, Rest(ids, live), i))
  {
    var mid := WithExtra(Opening(ids, live).value, live);
    OpeningWithExtra(ids, live);
    assert Rest(ids, mid) == Rest(ids, live);
    RestStage(ids, mid, i);
    OpeningWithIds(ids, mid);
  }

  lemma DraftStageOpens(ids: seq<int>, live: Live, i: nat)
    requires Opening(ids, live).Some? && Typed(live)
    requires DraftScript(ids, live).Some? && i < |DraftScript(ids, live).value|
    ensures OpensAs(ids, live, Stage(live, DraftScript(ids, live).value, i))
  {
    var rows := Opening(ids, live).value;
    DraftPlan(ids, live);
    var a, r := ExtraActions(rows, live), Rest(ids, live);
    if i < |a| {
      StageEarly(live, a, r, i);
      OpensInExtra(ids, live, i);
    } else {
      StageLate(live, a, r, i);
      ApplyExtra(rows, live);
      OpensInRest(ids, live, i - |a|);
    }
  }

  lemma DraftResumable(ids: seq<int>, live: Live)
    requires FirstActivation(ids, live) && BackupIsSafe(live)
    ensures Resumable(DraftStep(ids), live) && DraftStep(ids)(live) == DraftScript(ids, live)
  {
    var p := DraftParts(Opening(ids, live).value, ids);
    DraftPartsResumable(ids, live);
    DraftPlan(ids, live);
    var full := p(live).value;
    forall i | 0 <= i < |full| ensures DraftStep(ids)(Stage(live, full, i)) == p(Stage(live, full, i)) {
      DraftStageOpens(ids, live, i);
    }
    CompleteIsSound(ids, live);
    GatedResumable(DraftStep(ids), p, live);
  }

  /** The three operations that create the extras file, then a kill. */
  lemma KilledAfterExtra(ids: seq<int>, live: Live)
    requires FirstActivation(ids, live) && !BackupIsSafe(live)
    ensures History(DraftStep(ids), Dir(live, map[]), [3]).live == WithExtra(Opening(ids, live).value, live)
    ensures History(DraftStep(ids), Dir(live, map[]), [3]).tmp == map[]
  {
    var p := DraftStep(ids);
    var rows := Opening(ids, live).value;
    var d := Dir(live, map[]);
    DraftPlan(ids, live);
    ApplyExtra(rows, live);
    var a, r := ExtraActions(rows, live), Rest(ids, live);
    assert a == [Publish(EXTRA, ExtraContent(rows, live))];
    OpsAppend(a, r);
    assert Ops(a) == OpsOf(a[0]) by {
      assert a[1..] == [];
    }
    assert Ops(a + r)[..3] == Ops(a);
    assert |Ops(r)| > 0;
    ExecAll(d, a);
    assert History(p, d, [3]) == Run(p, d, 3) by {
      assert [3][1..] == [];
    }
  }

  /** The next run takes the file it finds for the original. */
  lemma BacksUpWrongFile(ids: seq<int>, live: Live)
    requires FirstActivation(ids, live) && !BackupIsSafe(live)
    ensures EXTRA_BACKUP in Complete(DraftStep(ids), Dir(WithExtra(Opening(ids, live).value, live), map[])).live
  {
    var mid := WithExtra(Opening(ids, live).value, live);
    OpeningWithExtra(ids, live);
    DraftPlan(ids, mid);
    ExecAll(Dir(mid, map[]), DraftScript(ids, mid).value);
    assert Publish(EXTRA_BACKUP, mid[EXTRA]) == DraftScript(ids, mid).value[0];
    NewBackup(mid, DraftScript(ids, mid).value);
  }

  /** A clean run makes no backup of a file that was not there. */
  lemma CleanRunBacksUpNothing(ids: seq<int>, live: Live)
    requires FirstActivation(ids, live) && !BackupIsSafe(live)
    ensures EXTRA_BACKUP !in Complete(DraftStep(ids), Dir(live, map[])).live
  {
    var rows := Opening(ids, live).value;
    DraftPlan(ids, live);
    var acts := ExtraActions(rows, live) + Rest(ids, live);
    ExecAll(Dir(live, map[]), acts);
    assert forall x :: x in acts ==> !Touches(x, EXTRA_BACKUP);
    ApplyKeeps(live, acts, EXTRA_BACKUP);
  }

  lemma LostOriginal(ids: seq<int>, live: Live)
    requires FirstActivation(ids, live) && !BackupIsSafe(live)
    ensures var p := DraftStep(ids);
            Complete(p, History(p, Dir(live, map[]), [3])) != Complete(p, Dir(live, map[]))
  {
    KilledAfterExtra(ids, live);
    BacksUpWrongFile(ids, live);
    CleanRunBacksUpNothing(ids, live);
    var d := History(DraftStep(ids), Dir(live, map[]), [3]);
    assert d == Dir(WithExtra(Opening(ids, live).value, live), map[]);
  }

  lemma NewBackup(live: Live, acts: seq<Action>)
    requires acts != [] && acts[0].Publish?
    ensures acts[0].name in Apply(live, acts)
  {
    ApplyGrows(ApplyOne(live, acts[0]), acts[1..]);
  }

  /** Every kill history of the draft-head step ends as one clean run does if and only if the
      model starts with an extras file, or with the backup of one. */
  lemma DraftSurvivesKills(ids: seq<int>, live: Live)
    requires FirstActivation(ids, live)
    ensures var p := DraftStep(ids);
            (forall budgets :: Complete(p, History(p, Dir(live, map[]), budgets)) == Complete(p, Dir(live, map[])))
            <==> BackupIsSafe(live)
  {
    var p := DraftStep(ids);
    if BackupIsSafe(live) {
      DraftResumable(ids, live);
      forall budgets ensures Complete(p, History(p, Dir(live, map[]), budgets)) == Complete(p, Dir(live, map[])) {
        KilledRunsThenOne(p, live, budgets);
      }
    } else {
      LostOriginal(ids, live);
    }
  }
}
