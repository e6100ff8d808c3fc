/** Over any killed preparation: which packed weights config.json may tell the reader to ignore. */
module IgnoreLists {
  import opened Contents
  import opened QuantSchema
  import opened AtomicPublish
  import opened Resume
  import opened PrepareSteps
  import opened PrepareInvariants
  import opened PrepareBackups
  import opened PrepareResults

  predicate Listed(live: Live, b: string)
    requires CONFIG in live && LoadConfig(live[CONFIG]).Some?
  {
    b in LoadConfig(live[CONFIG]).value.ignore.value
  }

  /** The lm_head script adds the MTP linears to the list; otherwise a script adds nothing of another's. */
  predicate MayList(j: Job, job: Job) {
    j.MtpJob? && job.LmHeadJob?
  }

  lemma IgnoreKeepsOut(j: Job, job: Job, xs: seq<string>, b: string)
    requires (j.LmHeadJob? || j.MtpJob?) && b in Bases(j) && !MayList(j, job) && (b !in xs || j == job)
    ensures b !in NewIgnore(job, xs)
  {
    IgnoreIs(job, xs);
    var ys := NewIgnore(job, xs);
    assert multiset(ys)[b] == TimesAfter(job, b, multiset(xs)[b]);
    assert b in ys <==> multiset(ys)[b] > 0;
    assert b in xs <==> multiset(xs)[b] > 0;
    if j == job && j.MtpJob? {
      LinearsOnce(b);
    }
  }

  lemma NewConfigKeepsOut(j: Job, job: Job, live: Live, l: Live, b: string)
    requires (j.LmHeadJob? || j.MtpJob?) && b in Bases(j) && !MayList(j, job)
    requires CONFIG in live && LoadConfig(live[CONFIG]).Some? && (!Listed(live, b) || j == job)
    requires CONFIG in l && l[CONFIG] == ConfigEdit(job)(live[CONFIG]).content
    ensures LoadConfig(l[CONFIG]).Some? && !Listed(l, b)
  {
    IgnoreKeepsOut(j, job, LoadConfig(live[CONFIG]).value.ignore.value, b);
  }

  lemma StillUnpacked(j: Job, job: Job, live: Live)
    requires Ready(job, live) && Apart(j, job) && INDEX in live && live[INDEX].IndexFile?
    ensures INDEX in After(job, live) && After(job, live)[INDEX].IndexFile?
    ensures forall b :: b in Bases(j) ==>
      (NamesPacked(After(job, live)[INDEX].weightMap, b) <==> NamesPacked(live[INDEX].weightMap, b))
  {
    AfterJson(job, live);
    assert forall b :: b in Bases(j) ==> TensorName(b, WeightPacked).base !in Bases(job);
  }

  /** Before its last action a script leaves the index, and lists no packed weight of j. */
  lemma EarlyNotIgnored(j: Job, job: Job, live: Live, i: nat)
    requires (j.LmHeadJob? || j.MtpJob?) && Ready(job, live) && NotIgnored(j, live)
    requires MayList(j, job) ==> !AnyPacked(j, live)
    requires i < |ScriptAt(job, live).value|
    ensures NotIgnored(j, Stage(live, ScriptAt(job, live).value, i))
  {
    var l := Stage(live, ScriptAt(job, live).value, i);
    StageJson(job, live, i);
    forall b | b in Bases(j) && NamesPacked(l[INDEX].weightMap, b) ensures !Listed(l, b) {
      assert AnyPacked(j, live) && !Listed(live, b);
      if l[CONFIG] != live[CONFIG] {
        NewConfigKeepsOut(j, job, live, l, b);
      }
    }
  }

  lemma AfterNotIgnored(j: Job, job: Job, live: Live)
    requires (j.LmHeadJob? || j.MtpJob?) && Ready(job, live) && NotIgnored(j, live) && (j == job || Apart(j, job))
    requires MayList(j, job) ==> !AnyPacked(j, live)
    ensures NotIgnored(j, After(job, live))
  {
    var l := After(job, live);
    var shard := Opening(job, live).value;
    AfterFile(job, live, shard, CONFIG);
    AfterFile(job, live, shard, INDEX);
    AfterJson(job, live);
    forall b | b in Bases(j) && NamesPacked(l[INDEX].weightMap, b) ensures !Listed(l, b) {
      if j != job {
        StillUnpacked(j, job, live);
        assert AnyPacked(j, live) && !Listed(live, b);
      }
      NewConfigKeepsOut(j, job, live, l, b);
    }
  }

  lemma StepNotIgnored(j: Job, job: Job, live: Live, i: nat)
    requires (j.LmHeadJob? || j.MtpJob?) && Able(job, live) && NotIgnored(j, live) && (j == job || Apart(j, job))
    requires MayList(j, job) && Pending(job, live) ==> !AnyPacked(j, live)
    requires i <= |Step(job)(live).value|
    ensures NotIgnored(j, Stage(live, Step(job)(live).value, i)) && NotIgnored(j, StepEnd(job, live))
  {
    if Pending(job, live) {
      AfterNotIgnored(j, job, live);
      if i < |ScriptAt(job, live).value| {
        EarlyNotIgnored(j, job, live, i);
      } else {
        assert ScriptAt(job, live).value[..i] == ScriptAt(job, live).value;
      }
    }
  }

  lemma {:induction false} PassNotIgnored(j: Job, jobs: seq<Job>, live: Live, i: nat)
    requires (j.LmHeadJob? || j.MtpJob?) && NotIgnored(j, live)
    requires AllAble(jobs, live) && AllApart(jobs)
    requires forall job :: job in jobs ==> !MayList(j, job) && (j == job || Apart(j, job))
    requires Pass(jobs)(live).Some? && i <= |Pass(jobs)(live).value|
    ensures NotIgnored(j, Stage(live, Pass(jobs)(live).value, i))
    decreases |jobs|
  {
    if jobs != [] {
      assert jobs[0] in jobs;
      AllAbleStay(jobs, live);
      var a, b := PassSplits(jobs, live);
      if i <= |a| {
        StepNotIgnored(j, jobs[0], live, i);
        StageEarly(live, a, b, i);
      } else {
        StepNotIgnored(j, jobs[0], live, 0);
        PassNotIgnored(j, jobs[1..], StepEnd(jobs[0], live), i - |a|);
        StageLate(live, a, b, i);
      }
    }
  }

  /** Whatever runs were killed: an lm_head that the index names packed is not ignored. */
  lemma HeadIsNeverIgnored(jobs: seq<Job>, live: Live, budgets: seq<nat>)
    requires AllAble(jobs, live) && AllApart(jobs) && NotIgnored(LmHeadJob, live)
    requires forall job :: job in jobs ==> job == LmHeadJob || Apart(LmHeadJob, job)
    ensures NotIgnored(LmHeadJob, History(Pass(jobs), Dir(live, map[]), budgets).live)
  {
    var p := Pass(jobs);
    PassResumable(jobs, live);
    Start(p, live);
    HistoryStays(p, live, Dir(live, map[]), budgets);
    var i: int :| ReachedAt(p, live, History(p, Dir(live, map[]), budgets), i);
    PassNotIgnored(LmHeadJob, jobs, live, i);
  }

  // ---- the MTP linears

  /** The lm_head script is still to do although the index names an MTP linear packed: it puts all MTP
      linears on the list, the packed one included. */
  ghost predicate HeadComesLate(mtp: Job, live: Live)
    requires INDEX in live && live[INDEX].IndexFile?
  {
    Pending(LmHeadJob, live) && AnyPacked(mtp, live)
  }

  lemma ScriptsStageNotIgnored(embed: string, mtp: Job, live: Live, i: nat)
    requires mtp.MtpJob? && embed != "lm_head" && embed !in MTP_LINEARS
    requires AllAble([LmHeadJob, EmbedJob(embed), mtp], live) && AllApart([LmHeadJob, EmbedJob(embed), mtp])
    requires NotIgnored(mtp, live) && !HeadComesLate(mtp, live)
    requires Pass([LmHeadJob, EmbedJob(embed), mtp])(live).Some?
    requires i <= |Pass([LmHeadJob, EmbedJob(embed), mtp])(live).value|
    ensures NotIgnored(mtp, Stage(live, Pass([LmHeadJob, EmbedJob(embed), mtp])(live).value, i))
  {
    var jobs := [LmHeadJob, EmbedJob(embed), mtp];
    assert Apart(jobs[0], jobs[2]) && Apart(jobs[1], jobs[2]);
    AllAbleStay(jobs, live);
    var a, b := PassSplits(jobs, live);
    assert jobs[1..] == [EmbedJob(embed), mtp];
    if i <= |a| {
      StepNotIgnored(mtp, LmHeadJob, live, i);
      StageEarly(live, a, b, i);
    } else {
      StepNotIgnored(mtp, LmHeadJob, live, 0);
      PassNotIgnored(mtp, jobs[1..], StepEnd(LmHeadJob, live), i - |a|);
      StageLate(live, a, b, i);
    }
  }

  lemma RunOfFirst(p: Plan, live: Live, a: seq<Action>, b: seq<Action>)
    requires p(live) == Some(a + b)
    ensures History(p, Dir(live, map[]), [|Ops(a)|]).live == Apply(live, a)
  {
    assert [|Ops(a)|][1..] == [];
    OpsAppend(a, b);
    assert Cut(a + b, |Ops(a)|) == Ops(a);
    ExecAll(Dir(live, map[]), a);
  }

  lemma HeadListsLinear(xs: seq<string>, b: string)
    requires b in MTP_LINEARS
    ensures b in LmHeadIgnore(xs)
  {
    LmHeadIgnores(xs, b);
    LinearsDistinct(false);
    assert b in LmHeadIgnore(xs) <==> multiset(LmHeadIgnore(xs))[b] > 0;
  }

  lemma HeadListsIn(live: Live, l: Live, b: string)
    requires CONFIG in live && LoadConfig(live[CONFIG]).Some? && b in MTP_LINEARS
    requires CONFIG in l && l[CONFIG] == ConfigEdit(LmHeadJob)(live[CONFIG]).content
    ensures LoadConfig(l[CONFIG]).Some? && Listed(l, b)
  {
    HeadListsLinear(LoadConfig(live[CONFIG]).value.ignore.value, b);
  }

  lemma ListedIsIgnored(mtp: Job, l: Live, b: string)
    requires b in Bases(mtp) && JsonLoads(l) && NamesPacked(l[INDEX].weightMap, b) && Listed(l, b)
    ensures !NotIgnored(mtp, l)
  {
  }

  /** A run of the lm_head script alone lists every MTP linear. */
  lemma LateHeadLists(mtp: Job, live: Live)
    requires mtp.MtpJob? && Ready(LmHeadJob, live) && AnyPacked(mtp, live) && Apart(mtp, LmHeadJob)
    ensures !NotIgnored(mtp, After(LmHeadJob, live))
  {
    var b :| b in Bases(mtp) && NamesPacked(live[INDEX].weightMap, b);
    LinearIsIgnored(mtp, live, b);
  }

  lemma IsLinear(mtp: Job, b: string)
    requires mtp.MtpJob? && b in Bases(mtp)
    ensures b in MTP_LINEARS
  {
    LinearsOnce(b);
  }

  /** The two files after the lm_head script. */
  lemma HeadLeaves(mtp: Job, live: Live, l: Live, b: string)
    requires mtp.MtpJob? && Ready(LmHeadJob, live) && Apart(mtp, LmHeadJob) && l == After(LmHeadJob, live)
    requires b in Bases(mtp) && NamesPacked(live[INDEX].weightMap, b)
    ensures CONFIG in live && LoadConfig(live[CONFIG]).Some?
    ensures CONFIG in l && l[CONFIG] == ConfigEdit(LmHeadJob)(live[CONFIG]).content
    ensures INDEX in l && l[INDEX].IndexFile? && NamesPacked(l[INDEX].weightMap, b)
  {
    AfterFile(LmHeadJob, live, Opening(LmHeadJob, live).value, CONFIG);
    StillUnpacked(mtp, LmHeadJob, live);
  }

  lemma LinearIsIgnored(mtp: Job, live: Live, b: string)
    requires mtp.MtpJob? && Ready(LmHeadJob, live) && Apart(mtp, LmHeadJob)
    requires b in Bases(mtp) && NamesPacked(live[INDEX].weightMap, b)
    ensures !NotIgnored(mtp, After(LmHeadJob, live))
  {
    var l := After(LmHeadJob, live);
    IsLinear(mtp, b);
    HeadLeaves(mtp, live, l, b);
    HeadListsIn(live, l, b);
    ListedIsIgnored(mtp, l, b);
  }

  /** In every state of a killed preparation no packed MTP linear is ignored, if and only if that holds at the
      start and the lm_head script does not come after a run that packed MTP linears. */
  lemma LinearsNotIgnoredIff(embed: string, fourBits: bool, keepFc: bool, live: Live)
    requires embed != "lm_head" && embed !in MTP_LINEARS && AllAble(Scripts(embed, fourBits, keepFc), live)
    requires JsonLoads(live)
    ensures var mtp := MtpJob(fourBits, keepFc);
            var p := Pass(Scripts(embed, fourBits, keepFc));
            (forall budgets :: NotIgnored(mtp, History(p, Dir(live, map[]), budgets).live))
            <==> NotIgnored(mtp, live) && !HeadComesLate(mtp, live)
  {
    var mtp, jobs := MtpJob(fourBits, keepFc), Scripts(embed, fourBits, keepFc);
    var p := Pass(jobs);
    ScriptsApart(embed, fourBits, keepFc);
    PassResumable(jobs, live);
    if NotIgnored(mtp, live) && !HeadComesLate(mtp, live) {
      forall budgets ensures NotIgnored(mtp, History(p, Dir(live, map[]), budgets).live) {
        Start(p, live);
        HistoryStays(p, live, Dir(live, map[]), budgets);
        var i: int :| ReachedAt(p, live, History(p, Dir(live, map[]), budgets), i);
        ScriptsStageNotIgnored(embed, mtp, live, i);
      }
    } else {
      var _ := LateOrAlready(jobs, mtp, live);
    }
  }

  /** A history in which a packed linear is ignored. */
  lemma LateOrAlready(jobs: seq<Job>, mtp: Job, live: Live) returns (budgets: seq<nat>)
    requires |jobs| == 3 && jobs[0] == LmHeadJob && jobs[2] == mtp && mtp.MtpJob?
    requires AllAble(jobs, live) && AllApart(jobs) && JsonLoads(live)
    requires !NotIgnored(mtp, live) || HeadComesLate(mtp, live)
    ensures !NotIgnored(mtp, History(Pass(jobs), Dir(live, map[]), budgets).live)
  {
    if !NotIgnored(mtp, live) {
      budgets := [];
    } else {
      var a, b := PassSplits(jobs, live);
      budgets := [|Ops(a)|];
      RunOfFirst(Pass(jobs), live, a, b);
      assert Apart(jobs[0], jobs[2]);
      LateHeadLists(mtp, live);
    }
  }
}
