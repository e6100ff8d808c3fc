/** prepare/build_draft_vocab.py as it runs on the disk, and as the last script of a preparation. */
module DraftRun {
  import opened Contents
  import opened QuantSchema
  import opened AtomicPublish
  import opened Resume
  import opened PrepareSteps
  import opened PrepareScripts
  import opened PrepareBackups
  import D = DraftHead

  /** The rows of the draft head, from the packed lm_head the index names. */
  method ReadRows(disk: Disk, ids: seq<int>) returns (r: Option<Tensors>)
    requires disk.Valid()
    ensures r == D.Opening(ids, disk.View().live)
  {
    var idx := disk.Read(INDEX);
    if idx.None? || !idx.value.IndexFile? {
      return None;
    }
    var wm := idx.value.weightMap;
    if TensorName("lm_head", WeightPacked) !in wm {
      return None;
    }
    var shard := disk.Read(ShardName(wm[TensorName("lm_head", WeightPacked)]));
    if shard.None? || !shard.value.ShardFile? {
      return None;
    }
    var head := D.ReadHead(shard.value.tensors);
    if head.None? || !D.InRange(ids, head.value) {
      return None;
    }
    return Some(D.Slice(head.value, ids));
  }

  lemma ExtraRuns(rows: Tensors, live: Live)
    ensures D.ExtraPart(rows)(live).Some? <==> (D.EXTRA in live ==> live[D.EXTRA].ShardFile?)
  {
    if D.EXTRA in live && !live[D.EXTRA].ShardFile? {
      assert Editing(D.EXTRA, Copy(".bak-draft"), D.ExtraEdit(rows))(live).None?;
    } else {
      D.ExtraPlan(rows, live);
    }
  }

  /** The extras file, behind its backup when it was there. */
  method WriteExtra(disk: Disk, rows: Tensors) returns (r: Outcome)
    requires disk.Valid()
    modifies disk
    ensures disk.Valid()
    ensures Follows(D.ExtraPart(rows)(old(disk.View()).live), old(disk.View()), old(disk.budget),
                    disk.View(), disk.budget, r)
  {
    var extra := disk.Read(D.EXTRA);
    ExtraRuns(rows, disk.View().live);
    match extra {
      case None =>
        OpsOfOne(Publish(D.EXTRA, ShardFile(rows, OrPt(map[]))));
        var alive := disk.WriteAndPublish(D.EXTRA, ShardFile(rows, OrPt(map[])));
        return if alive then Finished else Killed;
      case Some(c) =>
        if !c.ShardFile? {
          return Refused;
        }
        r := CarryOut(disk, D.EXTRA, Copy(".bak-draft"), D.ExtraEdit(rows), ShardFile(c.tensors + rows, OrPt(c.meta)));
    }
  }

  /** The id list, then the index. */
  method WriteRest(disk: Disk, ids: seq<int>) returns (alive: bool)
    requires disk.Valid() && INDEX in disk.View().live && disk.View().live[INDEX].IndexFile?
    modifies disk
    ensures disk.Valid()
    ensures Ran(old(disk.View()), old(disk.budget), Ops(D.Rest(ids, old(disk.View()).live)),
                disk.View(), disk.budget, alive)
  {
    ghost var d0, k0 := disk.View(), disk.budget;
    ghost var first, last := D.Rest(ids, d0.live)[0], D.Rest(ids, d0.live)[1];
    assert D.Rest(ids, d0.live) == [first] + [last];
    OpsOfOne(first);
    OpsOfOne(last);
    var idx := disk.Read(INDEX);
    alive := disk.WriteAndPublish(D.IDS, IdsFile(ids));
    ghost var d1, k1 := disk.View(), disk.budget;
    if !alive {
      PartKilled(d0, k0, [first], d1, k1, [last]);
      return;
    }
    var wm := IndexOne(idx.value.weightMap, D.DRAFT, D.EXTRA_SHARD);
    alive := disk.WriteAndPublish(INDEX, IndexFile(wm, idx.value.rest));
    PartRan(d0, k0, [first], d1, k1, [last], disk.View(), disk.budget, alive);
  }

  /** What the extras part leaves for the rest. */
  lemma AfterExtra(rows: Tensors, ids: seq<int>, live: Live) returns (a: seq<Action>)
    requires INDEX in live && live[INDEX].IndexFile? && (D.EXTRA in live ==> live[D.EXTRA].ShardFile?)
    ensures D.ExtraPart(rows)(live) == Some(a)
    ensures INDEX in Apply(live, a) && Apply(live, a)[INDEX] == live[INDEX]
    ensures D.Rest(ids, Apply(live, a)) == D.Rest(ids, live)
  {
    D.ExtraPlan(rows, live);
    a := D.ExtraActions(rows, live);
    ApplyKeeps(live, a, INDEX);
  }

  /** The script from the row slice on. */
  method BuildDraft(disk: Disk, ids: seq<int>) returns (r: Outcome)
    requires disk.Valid()
    modifies disk
    ensures disk.Valid()
    ensures Follows(D.DraftScript(ids, old(disk.View()).live), old(disk.View()), old(disk.budget),
                    disk.View(), disk.budget, r)
  {
    ghost var d0, k0 := disk.View(), disk.budget;
    var rows := ReadRows(disk, ids);
    if rows.None? {
      return Refused;
    }
    r := WriteExtra(disk, rows.value);
    ExtraRuns(rows.value, d0.live);
    if r == Refused {
      return;
    }
    ghost var d1, k1 := disk.View(), disk.budget;
    ghost var a := AfterExtra(rows.value, ids, d0.live);
    D.DraftPlan(ids, d0.live);
    if r == Killed {
      PartKilled(d0, k0, a, d1, k1, D.Rest(ids, d0.live));
      return;
    }
    RanAll(d0, k0, a, d1, k1);
    var alive := WriteRest(disk, ids);
    PartRan(d0, k0, a, d1, k1, D.Rest(ids, d0.live), disk.View(), disk.budget, alive);
    return if alive then Finished else Killed;
  }

  // ---- after the other scripts

  /** A preparation: the quantization scripts, then the draft head. */
  function WithDraft(jobs: seq<Job>, ids: seq<int>): Plan {
    Then(Pass(jobs), D.DraftStep(ids))
  }

  ghost predicate AllMarked(jobs: seq<Job>, live: Live) {
    INDEX in live && live[INDEX].IndexFile? && forall job :: job in jobs ==> Marker(job) in live[INDEX].weightMap
  }

  lemma {:induction false} MarkedPass(jobs: seq<Job>, l: Live)
    requires AllMarked(jobs, l)
    ensures Pass(jobs)(l) == Some([])
    decreases |jobs|
  {
    if jobs != [] {
      var none: seq<Action> := [];
      assert jobs[0] in jobs;
      assert Step(jobs[0])(l) == Some(none) && Apply(l, none) == l && none + none == none;
      MarkedPass(jobs[1..], l);
    }
  }

  lemma {:induction false} PassMarks(jobs: seq<Job>, live: Live)
    requires AllAble(jobs, live) && AllApart(jobs) && INDEX in live && live[INDEX].IndexFile?
    ensures Pass(jobs)(live).Some? && AllMarked(jobs, Apply(live, Pass(jobs)(live).value))
    decreases |jobs|
  {
    if jobs != [] {
      AllAbleStay(jobs, live);
      var mid := StepEnd(jobs[0], live);
      StepAble(jobs[0], live);
      PassMarks(jobs[1..], mid);
      var a, b := Step(jobs[0])(live).value, Pass(jobs[1..])(mid).value;
      PassKeepsMark(Marker(jobs[0]), jobs[1..], mid);
      MarkStays(Marker(jobs[0]), mid, b);
      ApplyAppend(live, a, b);
      assert jobs == [jobs[0]] + jobs[1..];
    }
  }

  /** The draft head's own writes take no mark away. */
  lemma DraftKeepsMark(m: TensorName, ids: seq<int>, live: Live)
    requires D.Opening(ids, live).Some? && D.Typed(live) && m.part == WeightPacked && m in live[INDEX].weightMap
    ensures D.DraftScript(ids, live).Some?
    ensures forall a :: a in D.DraftScript(ids, live).value ==> KeepsMark(m, a)
  {
    D.DraftPlan(ids, live);
    assert m.base == D.DRAFT ==> m in PackedNames(D.DRAFT);
  }

  lemma DraftStagesMarked(jobs: seq<Job>, ids: seq<int>, mid: Live, i: nat)
    requires AllMarked(jobs, mid) && D.Opening(ids, mid).Some? && D.Typed(mid)
    requires D.DraftScript(ids, mid).Some? && i <= |D.DraftScript(ids, mid).value|
    ensures AllMarked(jobs, Stage(mid, D.DraftScript(ids, mid).value, i))
  {
    var acts := D.DraftScript(ids, mid).value;
    assert forall a :: a in acts[..i] ==> a in acts;
    IndexIsRead(ids, mid, acts[..i]);
    forall job | job in jobs ensures Marker(job) in Stage(mid, acts, i)[INDEX].weightMap {
      MarkerBase(job);
      DraftKeepsMark(Marker(job), ids, mid);
      MarkStays(Marker(job), mid, acts[..i]);
    }
  }

  lemma IndexIsRead(ids: seq<int>, mid: Live, acts: seq<Action>)
    requires D.Opening(ids, mid).Some? && D.Typed(mid) && D.DraftScript(ids, mid).Some?
    requires forall a :: a in acts ==> a in D.DraftScript(ids, mid).value
    ensures INDEX in Apply(mid, acts) && Apply(mid, acts)[INDEX].IndexFile?
  {
    var m := TensorName("lm_head", WeightPacked);
    DraftKeepsMark(m, ids, mid);
    MarkStays(m, mid, acts);
  }

  /** Killed anywhere, also between the scripts, the preparation ends as a clean one does. */
  lemma WithDraftResumable(jobs: seq<Job>, ids: seq<int>, live: Live, mid: Live)
    requires AllAble(jobs, live) && AllApart(jobs) && AllMarked(jobs, mid)
    requires Pass(jobs)(live).Some? && mid == Apply(live, Pass(jobs)(live).value)
    requires D.FirstActivation(ids, mid) && D.BackupIsSafe(mid)
    ensures Resumable(WithDraft(jobs, ids), live)
  {
    PassResumable(jobs, live);
    D.DraftResumable(ids, mid);
    var b := D.DraftScript(ids, mid).value;
    forall j | 0 <= j <= |b| ensures DoneAt(Pass(jobs), Stage(mid, b, j)) {
      DraftStagesMarked(jobs, ids, mid, j);
      MarkedPass(jobs, Stage(mid, b, j));
    }
    ThenResumable(Pass(jobs), D.DraftStep(ids), live);
  }

  /** Once the other scripts are done, the preparation is the draft step. */
  lemma OnlyDraftLeft(jobs: seq<Job>, ids: seq<int>, d: Dir)
    requires AllMarked(jobs, d.live)
    ensures Complete(WithDraft(jobs, ids), d) == Complete(D.DraftStep(ids), d)
  {
    MarkedPass(jobs, d.live);
    assert Apply(d.live, []) == d.live;
    var b := D.DraftStep(ids)(d.live);
    if b.Some? {
      assert [] + b.value == b.value;
    }
  }

  lemma RunIs(p: Plan, d: Dir, acts: seq<Action>, k: nat)
    requires p(d.live) == Some(acts)
    ensures History(p, d, [k]) == Run(p, d, k) == Exec(d, Cut(acts, k)) && Complete(p, d) == Exec(d, Ops(acts))
  {
    assert [k][1..] == [];
  }

  lemma CutInSecond(a: seq<Action>, b: seq<Action>, k: nat)
    requires k < |Ops(b)|
    ensures Cut(a + b, |Ops(a)| + k) == Ops(a) + Ops(b)[..k] && Cut(b, k) == Ops(b)[..k]
    ensures Ops(a + b) == Ops(a) + Ops(b)
  {
    OpsAppend(a, b);
    PrefixOfSum(Ops(a), Ops(b), k);
  }

  lemma PrefixOfSum(x: seq<Op>, y: seq<Op>, k: nat)
    requires k <= |y|
    ensures (x + y)[..|x| + k] == x + y[..k]
  {
  }

  lemma AllOfFirst(live: Live, a: seq<Action>)
    ensures Exec(Dir(live, map[]), Ops(a)) == Dir(Apply(live, a), map[])
  {
    ExecAll(Dir(live, map[]), a);
    var none: Live := map[];
    assert none - Targets(a) == none;
  }

  /** A run of two scripts killed k operations into the second, and a complete one. */
  lemma KilledInSecond(p: Plan, q: Plan, live: Live, a: seq<Action>, b: seq<Action>, k: nat)
    requires p(live) == Some(a) && q(Apply(live, a)) == Some(b) && k < |Ops(b)|
    ensures History(Then(p, q), Dir(live, map[]), [|Ops(a)| + k]) == History(q, Dir(Apply(live, a), map[]), [k])
    ensures Complete(Then(p, q), Dir(live, map[])) == Complete(q, Dir(Apply(live, a), map[]))
  {
    var d := Dir(live, map[]);
    RunIs(Then(p, q), d, a + b, |Ops(a)| + k);
    RunIs(q, Dir(Apply(live, a), map[]), b, k);
    CutInSecond(a, b, k);
    AllOfFirst(live, a);
    ExecAppend(d, Ops(a), Ops(b)[..k]);
    ExecAppend(d, Ops(a), Ops(b));
  }

  lemma LongDraft(ids: seq<int>, mid: Live) returns (b: seq<Action>)
    requires D.FirstActivation(ids, mid)
    ensures D.DraftStep(ids)(mid) == Some(b) && 3 < |Ops(b)|
  {
    var rows := D.Opening(ids, mid).value;
    D.DraftPlan(ids, mid);
    b := D.DraftScript(ids, mid).value;
    OpsAppend(D.ExtraActions(rows, mid), D.Rest(ids, mid));
    OpsAppend(BackupOnly(rows, mid), [Publish(D.EXTRA, D.ExtraContent(rows, mid))]);
  }

  function BackupOnly(rows: Tensors, live: Live): seq<Action> {
    if D.EXTRA in live && D.EXTRA_BACKUP !in live then [Publish(D.EXTRA_BACKUP, live[D.EXTRA])] else []
  }

  lemma MarksStay(jobs: seq<Job>, ids: seq<int>, mid: Live)
    requires AllMarked(jobs, mid) && D.FirstActivation(ids, mid) && !D.BackupIsSafe(mid)
    ensures AllMarked(jobs, History(D.DraftStep(ids), Dir(mid, map[]), [3]).live)
  {
    D.KilledAfterExtra(ids, mid);
  }

  lemma LostAfterPass(jobs: seq<Job>, ids: seq<int>, live: Live, a: seq<Action>, mid: Live)
    requires Pass(jobs)(live) == Some(a) && mid == Apply(live, a) && AllMarked(jobs, mid)
    requires D.FirstActivation(ids, mid) && !D.BackupIsSafe(mid)
    ensures var p := WithDraft(jobs, ids);
            Complete(p, History(p, Dir(live, map[]), [|Ops(a)| + 3])) != Complete(p, Dir(live, map[]))
  {
    var b := LongDraft(ids, mid);
    KilledInSecond(Pass(jobs), D.DraftStep(ids), live, a, b, 3);
    MarksStay(jobs, ids, mid);
    D.LostOriginal(ids, mid);
    OnlyDraftLeft(jobs, ids, History(D.DraftStep(ids), Dir(mid, map[]), [3]));
  }

  // ---- what the draft step finds

  lemma StepAddsNoFile(job: Job, live: Live, n: Name)
    requires Able(job, live) && n.File? && n !in live
    ensures Spares(Step(job)(live).value, n)
  {
    if Pending(job, live) {
      var _ := ReadyParts(job, live);
      var shard, a, b, c := PlanParts(job, live);
      var l := Apply(live, a);
      EditingTouches(ShardName(shard), ShardKeep(job), ShardEdit(job), live, n);
      EditingTouches(CONFIG, JsonKeep(job), ConfigEdit(job), l, n);
      EditingTouches(INDEX, JsonKeep(job), IndexEdit(job, shard), Apply(l, b), n);
      assert forall x :: x in a + (b + c) ==> x in a || x in b || x in c;
    }
  }

  /** The other scripts neither create the extras file nor its backup. */
  lemma {:induction false} PassKeepsSafety(jobs: seq<Job>, live: Live)
    requires AllAble(jobs, live) && AllApart(jobs) && Pass(jobs)(live).Some?
    ensures D.BackupIsSafe(Apply(live, Pass(jobs)(live).value)) <==> D.BackupIsSafe(live)
    decreases |jobs|
  {
    if jobs != [] {
      AllAbleStay(jobs, live);
      PassResumable(jobs[1..], StepEnd(jobs[0], live));
      PassKeepsSafety(jobs[1..], StepEnd(jobs[0], live));
      StepKeepsSafety(jobs[0], live);
      ApplyAppend(live, Step(jobs[0])(live).value, Pass(jobs[1..])(StepEnd(jobs[0], live)).value);
    }
  }

  lemma StepKeepsSafety(job: Job, live: Live)
    requires Able(job, live)
    ensures Step(job)(live).Some? && Apply(live, Step(job)(live).value) == StepEnd(job, live)
    ensures D.BackupIsSafe(StepEnd(job, live)) <==> D.BackupIsSafe(live)
  {
    StepAble(job, live);
    var acts := Step(job)(live).value;
    ApplyGrows(live, acts);
    if !D.BackupIsSafe(live) {
      StepAddsNoFile(job, live, D.EXTRA);
      assert ".bak-draft"[4] == '-' && ".bak-draft"[5] == 'd';
      assert D.EXTRA_BACKUP.suffix !in Suffixes(job);
      StepSpares(job, live, D.EXTRA_BACKUP);
      ApplyKeeps(live, acts, D.EXTRA);
      ApplyKeeps(live, acts, D.EXTRA_BACKUP);
    }
  }

  /** The whole preparation, draft head included, when the draft head is built for the first time: all kill
      histories end as one clean run does if and only if the model starts with an extras file or with the
      backup of one. */
  lemma WholePreparationSurvivesKills(jobs: seq<Job>, ids: seq<int>, live: Live)
    requires AllAble(jobs, live) && AllApart(jobs) && INDEX in live && live[INDEX].IndexFile?
    requires D.FirstActivation(ids, Complete(Pass(jobs), Dir(live, map[])).live)
    ensures var p := WithDraft(jobs, ids);
            (forall budgets :: Complete(p, History(p, Dir(live, map[]), budgets)) == Complete(p, Dir(live, map[])))
            <==> D.BackupIsSafe(live)
  {
    var p := WithDraft(jobs, ids);
    PassMarks(jobs, live);
    var a := Pass(jobs)(live).value;
    var mid := Apply(live, a);
    ExecAll(Dir(live, map[]), a);
    PassKeepsSafety(jobs, live);
    if D.BackupIsSafe(live) {
      WithDraftResumable(jobs, ids, live, mid);
      forall budgets ensures Complete(p, History(p, Dir(live, map[]), budgets)) == Complete(p, Dir(live, map[])) {
        KilledRunsThenOne(p, live, budgets);
      }
    } else {
      LostAfterPass(jobs, ids, live, a, mid);
    }
  }
}
