/** The backups of a whole preparation: three scripts, each with suffixes of its own, killed anywhere. */
module PrepareBackups {
  import opened Contents
  import opened QuantSchema
  import opened AtomicPublish
  import opened Resume
  import opened PrepareSteps
  import opened PrepareInvariants
  import opened Originals

  function OwnKeep(job: Job): Keeps {
    (n: Name) => if n == CONFIG || n == INDEX then JsonKeep(job) else ShardKeep(job)
  }

  function Suffixes(job: Job): set<string> {
    {ShardKeep(job).suffix} + (if JsonKeep(job) == NoBackup then {} else {JsonKeep(job).suffix})
  }

  ghost predicate SuffixesApart(jobs: seq<Job>) {
    forall i, j :: 0 <= i < j < |jobs| ==> Suffixes(jobs[i]) !! Suffixes(jobs[j])
  }

  ghost predicate GoodPass(jobs: seq<Job>, live: Live) {
    AllAble(jobs, live) && AllApart(jobs) && SuffixesApart(jobs)
  }

  lemma GoodRest(jobs: seq<Job>, live: Live)
    requires jobs != [] && GoodPass(jobs, live)
    ensures Able(jobs[0], live) && GoodPass(jobs[1..], StepEnd(jobs[0], live))
  {
    AllAbleStay(jobs, live);
  }

  /** What the files hold when script k of the pass first starts. */
  ghost function Before(jobs: seq<Job>, k: nat, live: Live): Live
    requires GoodPass(jobs, live) && k <= |jobs|
    decreases k
  {
    if k == 0 then live else
      GoodRest(jobs, live);
      Before(jobs[1..], k - 1, StepEnd(jobs[0], live))
  }

  lemma {:induction false} BeforeNext(jobs: seq<Job>, k: nat, live: Live)
    requires GoodPass(jobs, live) && k < |jobs|
    ensures Able(jobs[k], Before(jobs, k, live))
    ensures Before(jobs, k + 1, live) == StepEnd(jobs[k], Before(jobs, k, live))
    decreases k
  {
    GoodRest(jobs, live);
    if k > 0 {
      BeforeNext(jobs[1..], k - 1, StepEnd(jobs[0], live));
    }
  }

  /** The pass is at some stage of script k. */
  ghost predicate During(jobs: seq<Job>, k: nat, live: Live, l: Live)
    requires GoodPass(jobs, live) && k < |jobs|
  {
    exists i :: DuringAt(jobs, k, live, l, i)
  }

  ghost predicate DuringAt(jobs: seq<Job>, k: nat, live: Live, l: Live, i: int)
    requires GoodPass(jobs, live) && k < |jobs|
  {
    var start := Before(jobs, k, live);
    Step(jobs[k])(start).Some? && 0 <= i <= |Step(jobs[k])(start).value|
    && l == Stage(start, Step(jobs[k])(start).value, i)
  }

  predicate SameFile(l: Live, m: Live, n: Name) {
    n in l && n in m && l[n] == m[n]
  }

  /** Script j of the pass, which is at script k, has not changed n: it has not started, or n is as it was
      when the script started, or the script ended without a change. */
  ghost predicate NotChangedBy(jobs: seq<Job>, j: nat, k: nat, live: Live, l: Live, n: Name)
    requires GoodPass(jobs, live) && j < |jobs|
  {
    || k < j
    || (k == j && SameFile(Before(jobs, j, live), l, n))
    || (j < k && SameFile(Before(jobs, j, live), Before(jobs, j + 1, live), n))
  }

  /** Script j's backup of n holds what n held when the script first started, unless it is older than the
      pass; without a backup the script has not changed n. */
  ghost predicate BackedUp(jobs: seq<Job>, j: nat, k: nat, live: Live, l: Live, n: Name)
    requires GoodPass(jobs, live) && j < |jobs| && Backed(OwnKeep(jobs[j]), n)
  {
    KeptAs(jobs, j, k, live, l, n, BackupOf(OwnKeep(jobs[j]), n))
  }

  ghost predicate KeptAs(jobs: seq<Job>, j: nat, k: nat, live: Live, l: Live, n: Name, bk: Name)
    requires GoodPass(jobs, live) && j < |jobs|
  {
    if bk in live then SameFile(live, l, bk)
    else if bk in l then n in Before(jobs, j, live) && l[bk] == Before(jobs, j, live)[n]
    else NotChangedBy(jobs, j, k, live, l, n)
  }

  ghost predicate AllBackedUp(jobs: seq<Job>, j: nat, k: nat, live: Live, l: Live)
    requires GoodPass(jobs, live) && j < |jobs|
  {
    forall n: Name :: Backed(OwnKeep(jobs[j]), n) && n in live ==> BackedUp(jobs, j, k, live, l, n)
  }

  /** In a state that the pass is in at script k, the backups of all its scripts are in order. */
  ghost predicate AllInOrder(jobs: seq<Job>, k: nat, live: Live, l: Live)
    requires GoodPass(jobs, live)
  {
    k < |jobs| && During(jobs, k, live, l) && forall j :: 0 <= j < |jobs| ==> AllBackedUp(jobs, j, k, live, l)
  }

  // ---- one script

  lemma PartsKeep(job: Job, shard: string, live: Live)
    requires CONFIG in live && INDEX in live && ShardName(shard) in live
    requires ShardName(shard) != CONFIG && ShardName(shard) != INDEX
    ensures KeepsOriginals(OwnKeep(job), live, Parts(job, shard))
  {
    var own := OwnKeep(job);
    EditKeeps(own, live, ShardName(shard), ShardKeep(job), ShardEdit(job));
    EditKeeps(own, live, CONFIG, JsonKeep(job), ConfigEdit(job));
    EditKeeps(own, live, INDEX, JsonKeep(job), IndexEdit(job, shard));
    ThenKeeps(own, live, ConfigPart(job), IndexPart(job, shard));
    ThenKeeps(own, live, ShardPart(job, shard), Then(ConfigPart(job), IndexPart(job, shard)));
  }

  /** Every stage of a step keeps what the files held when it started. */
  lemma StepKeeps(job: Job, live: Live, i: nat)
    requires Able(job, live) && i <= |Step(job)(live).value|
    ensures OriginalsKept(OwnKeep(job), live, Stage(live, Step(job)(live).value, i))
  {
    var own := OwnKeep(job);
    assert OriginalsKept(own, live, live);
    if Pending(job, live) {
      var shard := ReadyParts(job, live);
      PartsKeep(job, shard, live);
      assert AllStagesKeep(own, live, live, Parts(job, shard)(live).value);
    } else {
      EmptyKeeps(own, live, live);
    }
  }

  /** A step never touches a backup with another suffix. */
  lemma StepSpares(job: Job, live: Live, bk: Name)
    requires Able(job, live) && bk.Backup? && bk.suffix !in Suffixes(job)
    ensures Spares(Step(job)(live).value, bk)
  {
    if Pending(job, live) {
      var shard, a, b, c := PlanParts(job, live);
      var l := Apply(live, a);
      EditingTouches(ShardName(shard), ShardKeep(job), ShardEdit(job), live, bk);
      EditingTouches(CONFIG, JsonKeep(job), ConfigEdit(job), l, bk);
      EditingTouches(INDEX, JsonKeep(job), IndexEdit(job, shard), Apply(l, b), bk);
      assert forall x :: x in a + (b + c) ==> x in a || x in b || x in c;
    }
  }

  lemma {:induction false} PassSpares(jobs: seq<Job>, live: Live, bk: Name)
    requires GoodPass(jobs, live) && bk.Backup? && forall job :: job in jobs ==> bk.suffix !in Suffixes(job)
    ensures Pass(jobs)(live).Some? && Spares(Pass(jobs)(live).value, bk)
    decreases |jobs|
  {
    if jobs != [] {
      GoodRest(jobs, live);
      var a, b := PassSplits(jobs, live);
      StepSpares(jobs[0], live, bk);
      PassSpares(jobs[1..], StepEnd(jobs[0], live), bk);
    }
  }

  lemma SparedStage(live: Live, acts: seq<Action>, i: nat, bk: Name)
    requires Spares(acts, bk) && i <= |acts|
    ensures bk in live <==> bk in Stage(live, acts, i)
    ensures bk in live ==> Stage(live, acts, i)[bk] == live[bk]
  {
    assert forall a :: a in acts[..i] ==> a in acts;
    ApplyKeeps(live, acts[..i], bk);
  }

  // ---- the pass

  /** While the first script of a pass runs. */
  lemma DuringFirst(jobs: seq<Job>, live: Live, i: nat)
    requires jobs != [] && GoodPass(jobs, live) && Step(jobs[0])(live).Some? && i <= |Step(jobs[0])(live).value|
    ensures var l := Stage(live, Step(jobs[0])(live).value, i);
            AllInOrder(jobs, 0, live, l)
  {
    GoodRest(jobs, live);
    var acts := Step(jobs[0])(live).value;
    var l := Stage(live, acts, i);
    assert DuringAt(jobs, 0, live, l, i);
    StepKeeps(jobs[0], live, i);
    forall j, n: Name | 0 <= j < |jobs| && Backed(OwnKeep(jobs[j]), n) && n in live
      ensures BackedUp(jobs, j, 0, live, l, n)
    {
      if j == 0 {
        assert KeptOrUntouched(OwnKeep(jobs[0]), live, l, n);
      } else {
        OwnSuffix(jobs[j], n);
        assert Suffixes(jobs[0]) !! Suffixes(jobs[j]);
        StepSpares(jobs[0], live, BackupOf(OwnKeep(jobs[j]), n));
        SparedStage(live, acts, i, BackupOf(OwnKeep(jobs[j]), n));
      }
    }
  }

  lemma OwnSuffix(job: Job, n: Name)
    requires Backed(OwnKeep(job), n)
    ensures BackupOf(OwnKeep(job), n).suffix in Suffixes(job)
  {
  }

  lemma NotInRest(jobs: seq<Job>, suffix: string)
    requires jobs != [] && SuffixesApart(jobs) && suffix in Suffixes(jobs[0])
    ensures forall job :: job in jobs[1..] ==> suffix !in Suffixes(job)
  {
    forall job | job in jobs[1..] ensures suffix !in Suffixes(job) {
      var x :| 0 <= x < |jobs[1..]| && jobs[1..][x] == job;
      assert Suffixes(jobs[0]) !! Suffixes(jobs[x + 1]);
    }
  }

  /** While a later script runs, the first one's backups stay as they were when it ended. */
  lemma FirstStaysBackedUp(jobs: seq<Job>, live: Live, k: nat, i: nat, n: Name)
    requires jobs != [] && GoodPass(jobs, live) && Able(jobs[0], live) && GoodPass(jobs[1..], StepEnd(jobs[0], live))
    requires var p := Pass(jobs[1..])(StepEnd(jobs[0], live)); p.Some? && i <= |p.value|
    requires Backed(OwnKeep(jobs[0]), n) && n in live && 0 < k
    ensures var mid := StepEnd(jobs[0], live);
            BackedUp(jobs, 0, k, live, Stage(mid, Pass(jobs[1..])(mid).value, i), n)
  {
    var mid, bk := StepEnd(jobs[0], live), BackupOf(OwnKeep(jobs[0]), n);
    StepAble(jobs[0], live);
    var acts := Step(jobs[0])(live).value;
    assert acts[..|acts|] == acts;
    StepKeeps(jobs[0], live, |acts|);
    assert KeptOrUntouched(OwnKeep(jobs[0]), live, mid, n);
    OwnSuffix(jobs[0], n);
    NotInRest(jobs, bk.suffix);
    PassSpares(jobs[1..], mid, bk);
    SparedStage(mid, Pass(jobs[1..])(mid).value, i, bk);
    BeforeNext(jobs, 0, live);
  }

  /** What holds of the later scripts from where the first one ended holds from the start. */
  lemma LaterBackedUp(jobs: seq<Job>, live: Live, j: nat, k: nat, l: Live, n: Name)
    requires jobs != [] && GoodPass(jobs, live) && Able(jobs[0], live) && GoodPass(jobs[1..], StepEnd(jobs[0], live))
    requires 0 < j < |jobs| && 0 < k && Backed(OwnKeep(jobs[j]), n) && n in live
    requires n in StepEnd(jobs[0], live) ==> BackedUp(jobs[1..], j - 1, k - 1, StepEnd(jobs[0], live), l, n)
    ensures BackedUp(jobs, j, k, live, l, n)
  {
    var mid, bk := StepEnd(jobs[0], live), BackupOf(OwnKeep(jobs[j]), n);
    StepAble(jobs[0], live);
    var acts := Step(jobs[0])(live).value;
    ApplyGrows(live, acts);
    OwnSuffix(jobs[j], n);
    assert Suffixes(jobs[0]) !! Suffixes(jobs[j]);
    StepSpares(jobs[0], live, bk);
    ApplyKeeps(live, acts, bk);
  }

  lemma {:induction false} StageBackedUp(jobs: seq<Job>, live: Live, acts: seq<Action>, i: nat) returns (k: nat)
    requires jobs != [] && GoodPass(jobs, live) && Pass(jobs)(live) == Some(acts) && i <= |acts|
    ensures AllInOrder(jobs, k, live, Stage(live, acts, i))
    decreases |jobs|
  {
    GoodRest(jobs, live);
    var a, b := PassSplits(jobs, live);
    assert acts == a + b;
    if i <= |a| {
      k := 0;
      FirstInOrder(jobs, live, a, b, i);
    } else {
      var rest, mid := jobs[1..], StepEnd(jobs[0], live);
      RestNotEmpty(rest, mid, b);
      var k' := StageBackedUp(rest, mid, b, i - |a|);
      LaterInOrder(jobs, live, k', a, b, i);
      k := k' + 1;
    }
  }

  lemma RestNotEmpty(jobs: seq<Job>, live: Live, b: seq<Action>)
    requires Pass(jobs)(live) == Some(b) && b != []
    ensures jobs != []
  {
  }

  lemma FirstInOrder(jobs: seq<Job>, live: Live, a: seq<Action>, b: seq<Action>, i: nat)
    requires jobs != [] && GoodPass(jobs, live) && Step(jobs[0])(live) == Some(a) && i <= |a|
    ensures AllInOrder(jobs, 0, live, Stage(live, a + b, i))
  {
    StageEarly(live, a, b, i);
    DuringFirst(jobs, live, i);
  }

  lemma LaterInOrder(jobs: seq<Job>, live: Live, k: nat, a: seq<Action>, b: seq<Action>, i: nat)
    requires jobs != [] && GoodPass(jobs, live) && Able(jobs[0], live) && GoodPass(jobs[1..], StepEnd(jobs[0], live))
    requires Apply(live, a) == StepEnd(jobs[0], live) && |a| < i <= |a + b|
    requires Pass(jobs[1..])(StepEnd(jobs[0], live)) == Some(b)
    requires AllInOrder(jobs[1..], k, StepEnd(jobs[0], live), Stage(StepEnd(jobs[0], live), b, i - |a|))
    ensures AllInOrder(jobs, k + 1, live, Stage(live, a + b, i))
  {
    var l := Stage(live, a + b, i);
    StageLate(live, a, b, i);
    LaterDuring(jobs, live, k, l);
    LaterAllBackedUp(jobs, live, k + 1, i - |a|, l);
  }

  lemma LaterAllBackedUp(jobs: seq<Job>, live: Live, k: nat, i: nat, l: Live)
    requires jobs != [] && GoodPass(jobs, live) && Able(jobs[0], live) && GoodPass(jobs[1..], StepEnd(jobs[0], live))
    requires var p := Pass(jobs[1..])(StepEnd(jobs[0], live));
             p.Some? && i <= |p.value| && l == Stage(StepEnd(jobs[0], live), p.value, i)
    requires 0 < k && AllInOrder(jobs[1..], k - 1, StepEnd(jobs[0], live), l)
    ensures forall j :: 0 <= j < |jobs| ==> AllBackedUp(jobs, j, k, live, l)
  {
    forall j, n: Name | 0 <= j < |jobs| && Backed(OwnKeep(jobs[j]), n) && n in live
      ensures BackedUp(jobs, j, k, live, l, n)
    {
      if j == 0 {
        FirstStaysBackedUp(jobs, live, k, i, n);
      } else {
        assert AllBackedUp(jobs[1..], j - 1, k - 1, StepEnd(jobs[0], live), l);
        LaterBackedUp(jobs, live, j, k, l, n);
      }
    }
  }

  lemma LaterDuring(jobs: seq<Job>, live: Live, k: nat, l: Live)
    requires jobs != [] && GoodPass(jobs, live) && Able(jobs[0], live) && GoodPass(jobs[1..], StepEnd(jobs[0], live))
    requires k < |jobs[1..]| && During(jobs[1..], k, StepEnd(jobs[0], live), l)
    ensures During(jobs, k + 1, live, l)
  {
    var i: int :| DuringAt(jobs[1..], k, StepEnd(jobs[0], live), l, i);
    assert DuringAt(jobs, k + 1, live, l, i);
  }

  /** Every state that killed passes reach: each script's backup of a file holds what the file held when that
      script first started, or what it held before the pass if it is older; and where there is no backup the
      script has not changed the file. Backups with other suffixes stay as they are. */
  lemma BackupsArePristine(jobs: seq<Job>, live: Live, budgets: seq<nat>) returns (k: nat)
    requires jobs != [] && GoodPass(jobs, live)
    ensures AllInOrder(jobs, k, live, History(Pass(jobs), Dir(live, map[]), budgets).live)
    ensures forall bk: Name :: bk.Backup? && (forall job :: job in jobs ==> bk.suffix !in Suffixes(job)) ==>
      SameOrMissing(live, History(Pass(jobs), Dir(live, map[]), budgets).live, bk)
  {
    var p := Pass(jobs);
    PassResumable(jobs, live);
    Start(p, live);
    HistoryStays(p, live, Dir(live, map[]), budgets);
    var d := History(p, Dir(live, map[]), budgets);
    var i: int :| ReachedAt(p, live, d, i);
    k := StageBackedUp(jobs, live, p(live).value, i);
    forall bk: Name | bk.Backup? && (forall job :: job in jobs ==> bk.suffix !in Suffixes(job))
      ensures SameOrMissing(live, d.live, bk)
    {
      PassSpares(jobs, live, bk);
      SparedStage(live, p(live).value, i, bk);
    }
  }

  predicate SameOrMissing(live: Live, l: Live, n: Name) {
    if n in live then SameFile(live, l, n) else n !in l
  }

  // ---- no weight is lost

  predicate SameWeight(base: string, c: Content, c': Content) {
    && c.ShardFile? && c'.ShardFile? && WeightName(base) in c.tensors && WeightName(base) in c'.tensors
    && c.tensors[WeightName(base)] == c'.tensors[WeightName(base)]
  }

  /** n still holds the weight, as it is in c. */
  predicate HasWeight(base: string, c: Content, n: Name, l: Live) {
    n in l && SameWeight(base, l[n], c)
  }

  /** Whatever writes n leaves the weight in it. */
  ghost predicate SparesWeight(base: string, c: Content, n: Name, acts: seq<Action>) {
    forall a :: a in acts && Touches(a, n) ==> a.Publish? && SameWeight(base, a.content, c)
  }

  lemma {:induction false} WeightStays(base: string, c: Content, n: Name, l: Live, acts: seq<Action>)
    requires HasWeight(base, c, n, l) && SparesWeight(base, c, n, acts)
    ensures HasWeight(base, c, n, Apply(l, acts))
    decreases |acts|
  {
    if acts != [] {
      assert acts[0] in acts;
      WeightStays(base, c, n, ApplyOne(l, acts[0]), acts[1..]);
    }
  }

  /** A script that packs other weights leaves this one where it is. */
  lemma StepSparesWeight(base: string, job: Job, live: Live, n: Name)
    requires Able(job, live) && base !in Bases(job) && n.File? && n in live && SameWeight(base, live[n], live[n])
    ensures SparesWeight(base, live[n], n, Step(job)(live).value)
  {
    if Pending(job, live) {
      var shard, a, b, c := PlanParts(job, live);
      var l := Apply(live, a);
      EditingTouches(CONFIG, JsonKeep(job), ConfigEdit(job), l, n);
      EditingTouches(INDEX, JsonKeep(job), IndexEdit(job, shard), Apply(l, b), n);
      ShardSparesWeight(base, job, shard, live, n);
      assert forall x :: x in a + (b + c) ==> x in a || x in b || x in c;
    }
  }

  lemma ShardSparesWeight(base: string, job: Job, shard: string, live: Live, n: Name)
    requires base !in Bases(job) && n.File? && n in live && SameWeight(base, live[n], live[n])
    requires ShardPart(job, shard)(live).Some?
    ensures SparesWeight(base, live[n], n, ShardPart(job, shard)(live).value)
  {
    if n == ShardName(shard) {
      if ShardEdit(job)(live[n]).Put? {
        EditSparesWeight(base, job, live[n]);
        EditingEnds(n, ShardKeep(job), ShardEdit(job), live);
      }
    } else {
      EditingTouches(ShardName(shard), ShardKeep(job), ShardEdit(job), live, n);
    }
  }

  lemma EditSparesWeight(base: string, job: Job, c: Content)
    requires base !in Bases(job) && SameWeight(base, c, c) && ShardEdit(job)(c).Put?
    ensures SameWeight(base, ShardEdit(job)(c).content, c)
  {
    ShardEditTwice(job, c);
    assert WeightName(base).base !in Bases(job);
  }

  lemma StageHasWeight(base: string, job: Job, live: Live, n: Name, c: Content, i: nat)
    requires Able(job, live) && base !in Bases(job) && n.File? && HasWeight(base, c, n, live)
    requires i <= |Step(job)(live).value|
    ensures HasWeight(base, c, n, Stage(live, Step(job)(live).value, i))
  {
    var acts := Step(job)(live).value;
    StepSparesWeight(base, job, live, n);
    assert forall a :: a in acts[..i] ==> a in acts;
    WeightStays(base, c, n, live, acts[..i]);
  }

  lemma EndHasWeight(base: string, job: Job, live: Live, n: Name, c: Content)
    requires Able(job, live) && base !in Bases(job) && n.File? && HasWeight(base, c, n, live)
    ensures HasWeight(base, c, n, StepEnd(job, live))
  {
    StepAble(job, live);
    var acts := Step(job)(live).value;
    assert acts[..|acts|] == acts;
    StageHasWeight(base, job, live, n, c, |acts|);
  }

  lemma {:induction false} BeforeHasWeight(base: string, jobs: seq<Job>, j: nat, k: nat, live: Live, n: Name,
                                           c: Content)
    requires GoodPass(jobs, live) && j <= k <= |jobs| && n.File? && HasWeight(base, c, n, Before(jobs, j, live))
    requires forall x :: j <= x < k ==> base !in Bases(jobs[x])
    ensures HasWeight(base, c, n, Before(jobs, k, live))
    decreases k
  {
    if j < k {
      BeforeHasWeight(base, jobs, j, k - 1, live, n, c);
      BeforeNext(jobs, k - 1, live);
      EndHasWeight(base, jobs[k - 1], Before(jobs, k - 1, live), n, c);
    }
  }

  lemma OnlyOne(jobs: seq<Job>, j: nat, base: string)
    requires AllApart(jobs) && j < |jobs| && base in Bases(jobs[j])
    ensures forall x :: 0 <= x < |jobs| && x != j ==> base !in Bases(jobs[x])
  {
    forall x | 0 <= x < |jobs| && x != j ensures base !in Bases(jobs[x]) {
      if x < j { assert Apart(jobs[x], jobs[j]); } else { assert Apart(jobs[j], jobs[x]); }
    }
  }

  /** During script k the weight is in its shard unless script j, which packs it, changed the shard. */
  lemma InItsShard(base: string, jobs: seq<Job>, j: nat, k: nat, live: Live, l: Live, n: Name)
    requires GoodPass(jobs, live) && j < |jobs| && k < |jobs| && base in Bases(jobs[j]) && During(jobs, k, live, l)
    requires n.File? && n in live && SameWeight(base, live[n], live[n]) && NotChangedBy(jobs, j, k, live, l, n)
    ensures HasWeight(base, live[n], n, l)
  {
    var c := live[n];
    OnlyOne(jobs, j, base);
    BeforeHasWeight(base, jobs, 0, if k < j then k else j, live, n, c);
    if k != j {
      if j < k {
        BeforeHasWeight(base, jobs, j + 1, k, live, n, c);
      }
      BeforeNext(jobs, k, live);
      var i: int :| DuringAt(jobs, k, live, l, i);
      StageHasWeight(base, jobs[k], Before(jobs, k, live), n, c, i);
    }
  }

  /** No bf16 weight is ever lost: whatever runs were killed, a weight that a script packs is still in its
      file, or else in that script's own backup of the file. */
  lemma WeightsAreNeverLost(jobs: seq<Job>, live: Live, budgets: seq<nat>, j: nat, base: string, n: Name)
    requires GoodPass(jobs, live) && j < |jobs| && base in Bases(jobs[j])
    requires n.File? && n in live && live[n].ShardFile? && WeightName(base) in live[n].tensors
    requires Backed(OwnKeep(jobs[j]), n) && BackupOf(OwnKeep(jobs[j]), n) !in live
    ensures var l := History(Pass(jobs), Dir(live, map[]), budgets).live;
            var bk := BackupOf(OwnKeep(jobs[j]), n);
            HasWeight(base, live[n], if bk in l then bk else n, l)
  {
    var l := History(Pass(jobs), Dir(live, map[]), budgets).live;
    var k := BackupsArePristine(jobs, live, budgets);
    SomewhereIntact(jobs, live, l, k, j, base, n);
  }

  lemma InOrderAt(jobs: seq<Job>, k: nat, live: Live, l: Live, j: nat, n: Name)
    requires GoodPass(jobs, live) && AllInOrder(jobs, k, live, l) && j < |jobs|
    requires Backed(OwnKeep(jobs[j]), n) && n in live
    ensures k < |jobs| && During(jobs, k, live, l) && BackedUp(jobs, j, k, live, l, n)
  {
    assert AllBackedUp(jobs, j, k, live, l);
  }

  lemma InItsBackup(base: string, jobs: seq<Job>, j: nat, k: nat, live: Live, l: Live, n: Name)
    requires GoodPass(jobs, live) && j < |jobs| && base in Bases(jobs[j])
    requires n.File? && n in live && SameWeight(base, live[n], live[n]) && Backed(OwnKeep(jobs[j]), n)
    requires BackedUp(jobs, j, k, live, l, n)
    requires BackupOf(OwnKeep(jobs[j]), n) !in live && BackupOf(OwnKeep(jobs[j]), n) in l
    ensures HasWeight(base, live[n], BackupOf(OwnKeep(jobs[j]), n), l)
  {
    OnlyOne(jobs, j, base);
    BeforeHasWeight(base, jobs, 0, j, live, n, live[n]);
  }

  lemma SomewhereIntact(jobs: seq<Job>, live: Live, l: Live, k: nat, j: nat, base: string, n: Name)
    requires GoodPass(jobs, live) && j < |jobs| && base in Bases(jobs[j]) && AllInOrder(jobs, k, live, l)
    requires n.File? && n in live && SameWeight(base, live[n], live[n])
    requires Backed(OwnKeep(jobs[j]), n) && BackupOf(OwnKeep(jobs[j]), n) !in live
    ensures var bk := BackupOf(OwnKeep(jobs[j]), n);
            HasWeight(base, live[n], if bk in l then bk else n, l)
  {
    InOrderAt(jobs, k, live, l, j, n);
    if BackupOf(OwnKeep(jobs[j]), n) in l {
      InItsBackup(base, jobs, j, k, live, l, n);
    } else {
      InItsShard(base, jobs, j, k, live, l, n);
    }
  }

  // ---- the three scripts

  function Scripts(embed: string, fourBits: bool, keepFc: bool): seq<Job> {
    [LmHeadJob, EmbedJob(embed), MtpJob(fourBits, keepFc)]
  }

  lemma ScriptsApart(embed: string, fourBits: bool, keepFc: bool)
    requires embed != "lm_head" && embed !in MTP_LINEARS
    ensures AllApart(Scripts(embed, fourBits, keepFc)) && SuffixesApart(Scripts(embed, fourBits, keepFc))
  {
    LinearsDistinct(keepFc);
    assert forall b :: b in Linears(keepFc) ==> b in MTP_LINEARS;
    assert |".bak"| == 4 && |".bak_embed"| == 10 && |".bak-mtp"| == 8 && |".bak-quant"| == 10;
    assert ".bak_embed"[4] == '_' && ".bak-quant"[4] == '-';
  }

  /** The same for the three scripts, with the names of their backups: .bak, .bak_embed and .bak-mtp of a
      shard, .bak-quant and .bak-mtp of config.json and the index. */
  lemma PreparationKeepsOriginals(embed: string, fourBits: bool, keepFc: bool, live: Live, budgets: seq<nat>)
      returns (k: nat)
    requires embed != "lm_head" && embed !in MTP_LINEARS && AllAble(Scripts(embed, fourBits, keepFc), live)
    ensures var jobs := Scripts(embed, fourBits, keepFc);
            var l := History(Pass(jobs), Dir(live, map[]), budgets).live;
            && GoodPass(jobs, live) && k < 3 && During(jobs, k, live, l)
            && forall n: Name :: n.File? && n in live ==>
                 var json := n == CONFIG || n == INDEX;
                 && KeptAs(jobs, 0, k, live, l, n, Backup(n.dir, n.name, if json then ".bak-quant" else ".bak"))
                 && (!json ==> KeptAs(jobs, 1, k, live, l, n, Backup(n.dir, n.name, ".bak_embed")))
                 && KeptAs(jobs, 2, k, live, l, n, Backup(n.dir, n.name, ".bak-mtp"))
  {
    var jobs := Scripts(embed, fourBits, keepFc);
    ScriptsApart(embed, fourBits, keepFc);
    k := BackupsArePristine(jobs, live, budgets);
    var l := History(Pass(jobs), Dir(live, map[]), budgets).live;
    forall n: Name | n.File? && n in live
      ensures var json := n == CONFIG || n == INDEX;
              && KeptAs(jobs, 0, k, live, l, n, Backup(n.dir, n.name, if json then ".bak-quant" else ".bak"))
              && (!json ==> KeptAs(jobs, 1, k, live, l, n, Backup(n.dir, n.name, ".bak_embed")))
              && KeptAs(jobs, 2, k, live, l, n, Backup(n.dir, n.name, ".bak-mtp"))
    {
      InOrderAt(jobs, k, live, l, 0, n);
      if n != CONFIG && n != INDEX {
        InOrderAt(jobs, k, live, l, 1, n);
      }
      InOrderAt(jobs, k, live, l, 2, n);
    }
  }

  /** lm_head and the embeddings in one shard: .bak holds the shard as it was before the preparation, and
      without it lm_head is still in the shard; .bak_embed holds the bf16 embeddings, and without it they are
      still in the shard. */
  ghost predicate HeadsBackedUp(embed: string, s: string, live: Live, l: Live)
    requires ShardName(s) in live
  {
    var n, bak, bakEmbed := ShardName(s), Backup(Base, s, ".bak"), Backup(Base, s, ".bak_embed");
    && (if bak in l then l[bak] == live[n] else HasWeight("lm_head", live[n], n, l))
    && HasWeight(embed, live[n], if bakEmbed in l then bakEmbed else n, l)
  }

  /** Killed anywhere, the preparation keeps both pristine heads even when they share a shard. */
  lemma SharedShardBackups(embed: string, fourBits: bool, keepFc: bool, s: string, live: Live, budgets: seq<nat>)
    requires embed != "lm_head" && embed !in MTP_LINEARS && AllAble(Scripts(embed, fourBits, keepFc), live)
    requires ShardName(s) in live && live[ShardName(s)].ShardFile? && ShardName(s) != CONFIG && ShardName(s) != INDEX
    requires WeightName("lm_head") in live[ShardName(s)].tensors && WeightName(embed) in live[ShardName(s)].tensors
    requires Backup(Base, s, ".bak") !in live && Backup(Base, s, ".bak_embed") !in live
    ensures HeadsBackedUp(embed, s, live,
                          History(Pass(Scripts(embed, fourBits, keepFc)), Dir(live, map[]), budgets).live)
  {
    var jobs := Scripts(embed, fourBits, keepFc);
    ScriptsApart(embed, fourBits, keepFc);
    var k := BackupsArePristine(jobs, live, budgets);
    HeadsInOrder(jobs, embed, s, live, History(Pass(jobs), Dir(live, map[]), budgets).live, k);
  }

  lemma HeadsInOrder(jobs: seq<Job>, embed: string, s: string, live: Live, l: Live, k: nat)
    requires |jobs| >= 2 && jobs[0] == LmHeadJob && jobs[1] == EmbedJob(embed)
    requires GoodPass(jobs, live) && AllInOrder(jobs, k, live, l)
    requires ShardName(s) in live && live[ShardName(s)].ShardFile? && ShardName(s) != CONFIG && ShardName(s) != INDEX
    requires WeightName("lm_head") in live[ShardName(s)].tensors && WeightName(embed) in live[ShardName(s)].tensors
    requires Backup(Base, s, ".bak") !in live && Backup(Base, s, ".bak_embed") !in live
    ensures HeadsBackedUp(embed, s, live, l)
  {
    assert "lm_head" in Bases(jobs[0]) && embed in Bases(jobs[1]);
    SomewhereIntact(jobs, live, l, k, 0, "lm_head", ShardName(s));
    SomewhereIntact(jobs, live, l, k, 1, embed, ShardName(s));
    InOrderAt(jobs, k, live, l, 0, ShardName(s));
  }
}
