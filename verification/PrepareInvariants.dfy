/** What holds in every state that killed and repeated preparation runs can reach: the index
    never names a packed tensor that is not there. */
module PrepareInvariants {
  import opened Contents
  import opened QuantSchema
  import opened AtomicPublish
  import opened Resume
  import opened PrepareSteps

  // ---- the index tells the truth

  /** If the index names the packed form of a weight, it names all three entries in one shard,
      the shard holds them, and config.json declares the group that covers them. */
  predicate SoundBase(job: Job, base: string, live: Live)
    requires INDEX in live && live[INDEX].IndexFile? && CONFIG in live && LoadConfig(live[CONFIG]).Some?
  {
    var wm := live[INDEX].weightMap;
    TensorName(base, WeightPacked) in wm ==>
      var s := wm[TensorName(base, WeightPacked)];
      && (forall n :: n in PackedNames(base) ==> n in wm && wm[n] == s)
      && ShardName(s) in live && live[ShardName(s)].ShardFile?
      && PackedNames(base) <= live[ShardName(s)].tensors.Keys
      && Declares(live[CONFIG].quant.value, PartOf(job), Bits(job))
  }

  predicate Sound(job: Job, live: Live) {
    && INDEX in live && live[INDEX].IndexFile? && CONFIG in live && LoadConfig(live[CONFIG]).Some?
    && forall b :: b in Bases(job) ==> SoundBase(job, b, live)
  }

  ghost predicate KeepsPacked(ts: Tensors, ts': Tensors) {
    forall b :: PackedNames(b) <= ts.Keys ==> PackedNames(b) <= ts'.Keys
  }

  ghost predicate KeepsGroup(job: Job, q: Quantization, q': Quantization) {
    Declares(q, PartOf(job), Bits(job)) ==> Declares(q', PartOf(job), Bits(job))
  }

  /** A file content that keeps every packed tensor and the declared group of `job`. */
  ghost predicate Grew(job: Job, c: Content, c': Content) {
    && (c.ShardFile? ==> (c'.ShardFile? && KeepsPacked(c.tensors, c'.tensors)))
    && (LoadConfig(c).Some? ==> (LoadConfig(c').Some? && KeepsGroup(job, c.quant.value, c'.quant.value)))
  }

  ghost predicate GrowsFrom(job: Job, live: Live, a: Action) {
    forall n: Name :: n.File? && n in live && Touches(a, n) ==> a.Publish? && Grew(job, live[n], a.content)
  }

  ghost predicate AllGrew(job: Job, live: Live, l: Live) {
    forall n: Name :: n.File? && n in live ==> n in l && Grew(job, live[n], l[n])
  }

  lemma {:induction false} StagesGrow(job: Job, live: Live, l: Live, acts: seq<Action>)
    requires AllGrew(job, live, l)
    requires forall a :: a in acts ==> GrowsFrom(job, live, a)
    ensures AllGrew(job, live, Apply(l, acts))
    decreases |acts|
  {
    if acts != [] {
      assert GrowsFrom(job, live, acts[0]);
      var l1 := ApplyOne(l, acts[0]);
      forall n: Name | n.File? && n in live ensures n in l1 && Grew(job, live[n], l1[n]) {
        assert Grew(job, live[n], l[n]);
      }
      StagesGrow(job, live, l1, acts[1..]);
    }
  }

  ghost predicate GroupsApart(job: Job, job': Job) {
    GroupName(PartOf(job)) != GroupName(PartOf(job'))
  }

  lemma ShardEditGrew(j: Job, job: Job, c: Content)
    requires ShardEdit(job)(c).Put?
    ensures Grew(j, c, ShardEdit(job)(c).content)
  {
    ShardEditTwice(job, c);
    PackingKeepsPacked(c.tensors, ShardEdit(job)(c).content.tensors, Bases(job));
  }

  lemma PackingKeepsPacked(ts: Tensors, ts': Tensors, bases: seq<string>)
    requires AllPacked(ts', bases) && PacksOnly(ts, ts', bases)
    ensures KeepsPacked(ts, ts')
  {
    forall b | PackedNames(b) <= ts.Keys ensures PackedNames(b) <= ts'.Keys {
      if b in bases {
        assert HoldsPacked(ts', b);
      } else {
        forall n | n in PackedNames(b) ensures n in ts' {
          assert n.base == b && n in ts.Keys;
        }
      }
    }
  }

  lemma ConfigEditGrew(j: Job, job: Job, c: Content)
    requires ConfigEdit(job)(c).Put? && (j == job || GroupsApart(j, job))
    ensures Grew(j, c, ConfigEdit(job)(c).content)
    ensures LoadConfig(ConfigEdit(job)(c).content).Some?
    ensures Declares(ConfigEdit(job)(c).content.quant.value, PartOf(job), Bits(job))
  {
    var q := LoadConfig(c).value;
    var q' := Reconfigure(job, q);
    if j != job {
      assert GroupName(PartOf(j)) in q.groups ==> q'.groups[GroupName(PartOf(j))] == q.groups[GroupName(PartOf(j))];
    }
  }

  lemma ActionsGrow(j: Job, job: Job, live: Live)
    requires Ready(job, live) && (j == job || GroupsApart(j, job))
    ensures forall a :: a in ScriptAt(job, live).value && !Touches(a, INDEX) ==> GrowsFrom(j, live, a)
  {
    var shard, a, b, c := PlanParts(job, live);
    ShardActionsGrow(j, job, live, shard);
    ConfigActionsGrow(j, job, live, Apply(live, a));
    IndexActionsElsewhere(j, job, shard, live, Apply(Apply(live, a), b));
    assert forall x :: x in a + (b + c) ==> x in a || x in b || x in c;
  }

  lemma ShardActionsGrow(j: Job, job: Job, live: Live, shard: string)
    requires Ready(job, live) && Opening(job, live) == Some(shard)
    ensures ShardPart(job, shard)(live).Some?
    ensures forall a :: a in ShardPart(job, shard)(live).value ==> GrowsFrom(j, live, a)
  {
    var _ := ReadyParts(job, live);
    if ShardEdit(job)(live[ShardName(shard)]).Put? {
      ShardEditGrew(j, job, live[ShardName(shard)]);
    }
    EditGrows(j, ShardName(shard), ShardKeep(job), ShardEdit(job), live, live);
  }

  lemma ConfigActionsGrow(j: Job, job: Job, live: Live, l: Live)
    requires CONFIG in live && ConfigEdit(job)(live[CONFIG]).Put? && CONFIG in l && l[CONFIG] == live[CONFIG]
    requires j == job || GroupsApart(j, job)
    ensures ConfigPart(job)(l).Some?
    ensures forall a :: a in ConfigPart(job)(l).value ==> GrowsFrom(j, live, a)
  {
    ConfigEditGrew(j, job, live[CONFIG]);
    EditGrows(j, CONFIG, JsonKeep(job), ConfigEdit(job), live, l);
  }

  lemma EditGrows(j: Job, n: Name, keep: Keep, f: Content -> Edit, live: Live, l: Live)
    requires n.File? && n in live && n in l && l[n] == live[n]
    requires f(live[n]).Put? ==> Grew(j, live[n], f(live[n]).content)
    requires f(live[n]) != Refuse
    ensures Editing(n, keep, f)(l).Some?
    ensures forall a :: a in Editing(n, keep, f)(l).value ==> GrowsFrom(j, live, a)
  {
  }

  lemma IndexActionsElsewhere(j: Job, job: Job, shard: string, live: Live, l: Live)
    requires INDEX in l && l[INDEX].IndexFile?
    ensures IndexPart(job, shard)(l).Some?
    ensures forall a :: a in IndexPart(job, shard)(l).value && !Touches(a, INDEX) ==> GrowsFrom(j, live, a)
  {
  }

  /** Growing files and an unchanged index keep the index truthful. */
  lemma SoundStays(j: Job, live: Live, l: Live)
    requires Sound(j, live) && AllGrew(j, live, l) && INDEX in l && l[INDEX] == live[INDEX]
    ensures Sound(j, l)
  {
    assert Grew(j, live[CONFIG], l[CONFIG]);
    forall b | b in Bases(j) ensures SoundBase(j, b, l) {
      assert SoundBase(j, b, live);
      var wm := live[INDEX].weightMap;
      if TensorName(b, WeightPacked) in wm {
        var n := ShardName(wm[TensorName(b, WeightPacked)]);
        assert Grew(j, live[n], l[n]);
      }
    }
  }

  lemma AllGrewSelf(j: Job, live: Live)
    ensures AllGrew(j, live, live)
  {
  }

  /** Before its last action a script changes shards and config.json only, and they grow. */
  lemma BodyGrows(j: Job, job: Job, live: Live, body: seq<Action>, last: Action, i: nat)
    requires Ready(job, live) && (j == job || GroupsApart(j, job))
    requires ScriptAt(job, live) == Some(body + [last]) && i <= |body|
    requires forall x :: x in body ==> !Touches(x, INDEX)
    ensures AllGrew(j, live, Apply(live, body[..i]))
    ensures INDEX in Apply(live, body[..i]) && Apply(live, body[..i])[INDEX] == live[INDEX]
  {
    ActionsGrow(j, job, live);
    assert forall x :: x in body[..i] ==> x in body && x in body + [last];
    AllGrewSelf(j, live);
    StagesGrow(j, live, live, body[..i]);
    ApplyKeeps(live, body[..i], INDEX);
  }

  /** The index after a script: its own weights are packed where it says, under a declared group. */
  lemma OwnBasesSound(job: Job, live: Live)
    requires Ready(job, live)
    ensures Sound(job, After(job, live))
  {
    var shard, body, last := ScriptShape(job, live);
    StepIsDone(job, live, shard, body, last);
    AfterJson(job, live);
    var _ := ReadyParts(job, live);
    var _ := AfterShards(job, live, shard);
    ConfigDeclared(job, live);
    var l := After(job, live);
    forall b | b in Bases(job) ensures SoundBase(job, b, l) {
      assert TensorName(b, WeightPacked) in PackedNames(b);
      assert HoldsPacked(l[ShardName(shard)].tensors, b);
    }
  }

  lemma ConfigDeclared(job: Job, live: Live)
    requires Ready(job, live)
    ensures CONFIG in After(job, live) && LoadConfig(After(job, live)[CONFIG]).Some?
    ensures Declares(After(job, live)[CONFIG].quant.value, PartOf(job), Bits(job))
  {
    var _ := ReadyParts(job, live);
    var shard, a, b, c := PlanParts(job, live);
    var l := Apply(live, a);
    ApplyAppend(live, a, b + c);
    ApplyAppend(l, b, c);
    EditingDone(CONFIG, JsonKeep(job), ConfigEdit(job), l);
    EditingKeeps(INDEX, JsonKeep(job), IndexEdit(job, shard), Apply(l, b), CONFIG);
    ConfigEditGrew(job, job, live[CONFIG]);
  }

  /** New index entries for other weights leave the index truthful. */
  lemma SoundReindexed(j: Job, mid: Live, c: Content)
    requires Sound(j, mid) && c.IndexFile?
    requires forall n: TensorName :: n.base in Bases(j) ==>
      (n in mid[INDEX].weightMap <==> n in c.weightMap)
      && (n in mid[INDEX].weightMap ==> c.weightMap[n] == mid[INDEX].weightMap[n])
    ensures Sound(j, mid[INDEX := c])
  {
    var l := mid[INDEX := c];
    assert CONFIG != INDEX;
    forall b | b in Bases(j) ensures SoundBase(j, b, l) {
      assert SoundBase(j, b, mid);
      assert forall n :: n in PackedNames(b) ==> n.base in Bases(j);
      assert TensorName(b, WeightPacked).base in Bases(j);
      if TensorName(b, WeightPacked) in c.weightMap {
        assert mid[ShardName(c.weightMap[TensorName(b, WeightPacked)])] != mid[INDEX];
      }
    }
  }

  /** The index after a script: what it said of other weights still holds. */
  lemma OtherBasesSound(j: Job, job: Job, live: Live)
    requires Ready(job, live) && Sound(j, live) && GroupsApart(j, job) && Apart(j, job)
    ensures Sound(j, After(job, live))
  {
    var shard, body, last := ScriptShape(job, live);
    BodyGrows(j, job, live, body, last, |body|);
    assert body[..|body|] == body;
    var mid := Apply(live, body);
    SoundStays(j, live, mid);
    ApplyAppend(live, body, [last]);
    ApplySingle(mid, last);
    ReindexKeeps(j, job, live[INDEX].weightMap, shard);
    SoundReindexed(j, mid, last.content);
  }

  lemma ReindexKeeps(j: Job, job: Job, wm: WeightMap, shard: string)
    requires Apart(j, job)
    ensures var wm' := IndexAll(wm, Bases(job), shard);
            forall n: TensorName :: n.base in Bases(j) ==> (n in wm <==> n in wm') && (n in wm ==> wm'[n] == wm[n])
  {
    IndexAllHolds(wm, Bases(job), shard);
  }

  /** Every stage of one script is truthful about every script's weights. */
  lemma StagesSound(j: Job, job: Job, live: Live, i: nat)
    requires Ready(job, live) && Sound(j, live)
    requires j == job || (GroupsApart(j, job) && Apart(j, job))
    requires i <= |ScriptAt(job, live).value|
    ensures Sound(j, Stage(live, ScriptAt(job, live).value, i))
  {
    var full := ScriptAt(job, live).value;
    if i < |full| {
      EarlyStageSound(j, job, live, i);
    } else {
      assert full[..i] == full;
      AfterSound(j, job, live);
    }
  }

  lemma AfterSound(j: Job, job: Job, live: Live)
    requires Ready(job, live) && Sound(j, live)
    requires j == job || (GroupsApart(j, job) && Apart(j, job))
    ensures Sound(j, After(job, live))
  {
    if j == job {
      OwnBasesSound(job, live);
    } else {
      OtherBasesSound(j, job, live);
    }
  }

  lemma EarlyStageSound(j: Job, job: Job, live: Live, i: nat)
    requires Ready(job, live) && Sound(j, live) && (j == job || GroupsApart(j, job))
    requires i < |ScriptAt(job, live).value|
    ensures Sound(j, Stage(live, ScriptAt(job, live).value, i))
  {
    var shard, body, last := ScriptShape(job, live);
    var full := body + [last];
    assert full[..i] == body[..i];
    BodyGrows(j, job, live, body, last, i);
    SoundStays(j, live, Apply(live, body[..i]));
  }

  ghost predicate Compatible(j: Job, jobs: seq<Job>) {
    forall job :: job in jobs ==> j == job || (GroupsApart(j, job) && Apart(j, job))
  }

  lemma StepStagesSound(j: Job, job: Job, live: Live, i: nat)
    requires Able(job, live) && Sound(j, live) && (j == job || (GroupsApart(j, job) && Apart(j, job)))
    requires i <= |Step(job)(live).value|
    ensures Sound(j, Stage(live, Step(job)(live).value, i)) && Sound(j, StepEnd(job, live))
  {
    if Pending(job, live) {
      StagesSound(j, job, live, i);
      AfterSound(j, job, live);
    }
  }

  lemma {:induction false} PassStagesSound(j: Job, jobs: seq<Job>, live: Live, i: nat)
    requires AllAble(jobs, live) && AllApart(jobs) && Compatible(j, jobs) && Sound(j, live)
    requires Pass(jobs)(live).Some? && i <= |Pass(jobs)(live).value|
    ensures Sound(j, Stage(live, Pass(jobs)(live).value, i))
    decreases |jobs|
  {
    if jobs != [] {
      var job, rest := jobs[0], jobs[1..];
      assert job in jobs;
      AllAbleStay(jobs, live);
      var a, b := PassSplits(jobs, live);
      if i <= |a| {
        StepStagesSound(j, job, live, i);
        StageEarly(live, a, b, i);
      } else {
        StepStagesSound(j, job, live, 0);
        PassStagesSound(j, rest, StepEnd(job, live), i - |a|);
        StageLate(live, a, b, i);
      }
    }
  }

  lemma PassSplits(jobs: seq<Job>, live: Live) returns (a: seq<Action>, b: seq<Action>)
    requires jobs != [] && AllAble(jobs, live) && AllApart(jobs)
    ensures Able(jobs[0], live) && Step(jobs[0])(live) == Some(a) && Apply(live, a) == StepEnd(jobs[0], live)
    ensures Pass(jobs[1..])(StepEnd(jobs[0], live)) == Some(b)
    ensures Pass(jobs)(live) == Some(a + b)
  {
    AllAbleStay(jobs, live);
    StepAble(jobs[0], live);
    PassResumable(jobs[1..], StepEnd(jobs[0], live));
    a := Step(jobs[0])(live).value;
    b := Pass(jobs[1..])(StepEnd(jobs[0], live)).value;
  }

  /** Whatever runs were killed, and wherever, the index names a packed weight only when its
      shard holds it and config.json declares it. */
  lemma ReachableIsSound(j: Job, jobs: seq<Job>, live: Live, budgets: seq<nat>)
    requires AllAble(jobs, live) && AllApart(jobs) && Compatible(j, jobs) && Sound(j, live)
    ensures Sound(j, History(Pass(jobs), Dir(live, map[]), budgets).live)
  {
    PassResumable(jobs, live);
    Start(Pass(jobs), live);
    HistoryStays(Pass(jobs), live, Dir(live, map[]), budgets);
    var d := History(Pass(jobs), Dir(live, map[]), budgets);
    var i: int :| ReachedAt(Pass(jobs), live, d, i);
    PassStagesSound(j, jobs, live, i);
  }
}
