/** prepare/fetch_fast_variant.py: hardlink the base shards, copy the small files, then publish
    the downloaded ones, the index last. */
module FastVariant {
  import opened Contents
  import opened AtomicPublish
  import opened Resume
  import opened PrepareSteps
  import opened PrepareScripts

  /** One file of the variant. A file that is not there is skipped. Links and small copies are made
      once; downloads every time. */
  datatype FileStep =
    | LinkMissing(src: Name, dst: Name)
    | CopyMissing(src: Name, dst: Name)
    | CopyAlways(src: Name, dst: Name)

  function StepActions(s: FileStep, live: Live): seq<Action> {
    if s.src !in live then []
    else if !s.CopyAlways? && s.dst in live then []
    else if s.LinkMissing? then [LinkTo(s.src, s.dst)]
    else [Publish(s.dst, live[s.src])]
  }

  function One(s: FileStep): Plan {
    (live: Live) => Some(StepActions(s, live))
  }

  /** The steps in order. */
  function Fetch(steps: seq<FileStep>): Plan
    decreases |steps|
  {
    if steps == [] then (live: Live) => Some([]) else Then(One(steps[0]), Fetch(steps[1..]))
  }

  const VARIANT_INDEX: Name := File(Fast, "model.safetensors.index.json")

  const SIDECARS: seq<string> := [
    "tokenizer.json", "tokenizer_config.json", "chat_template.jinja", "generation_config.json",
    "processor_config.json", "quantization_config.json"]

  const DOWNLOADS: seq<string> := [
    "model-00007-of-00007.safetensors", "model_extra_tensors.safetensors", "mtp_draft_vocab_ids.pt",
    "config.json", "model.safetensors.index.json"]

  /** What is taken from the base directory, for the shards os.listdir finds there. */
  function Preparation(shards: seq<string>): seq<FileStep> {
    seq(|shards|, i requires 0 <= i < |shards| => LinkMissing(File(Base, shards[i]), File(Fast, shards[i])))
    + seq(|SIDECARS|, i requires 0 <= i < |SIDECARS| => CopyMissing(File(Base, SIDECARS[i]), File(Fast, SIDECARS[i])))
  }

  function Downloading(): seq<FileStep> {
    seq(|DOWNLOADS|, i requires 0 <= i < |DOWNLOADS| => CopyAlways(File(Hub, DOWNLOADS[i]), File(Fast, DOWNLOADS[i])))
  }

  /** All steps of the script. */
  function FastSteps(shards: seq<string>): seq<FileStep> {
    Preparation(shards) + Downloading()
  }

  const BASE_TOKENIZER: Name := File(Base, "tokenizer.json")
  const FAST_TOKENIZER: Name := File(Fast, "tokenizer.json")

  predicate TokenizerFound(live: Live) {
    BASE_TOKENIZER in live || FAST_TOKENIZER in live
  }

  /** The script: it refuses a directory without config.json, and without a tokenizer it stops after the
      first two loops. */
  function FastPlan(shards: seq<string>): Plan {
    (live: Live) =>
      if CONFIG !in live then None
      else if TokenizerFound(live) then Fetch(FastSteps(shards))(live)
      else Fetch(Preparation(shards))(live)
  }

  /** Sources are read in the base directory or the download, destinations are written once each. */
  ghost predicate WellOrdered(steps: seq<FileStep>) {
    && (forall i :: 0 <= i < |steps| ==>
          steps[i].src.File? && steps[i].dst.File? && steps[i].src.dir != Fast && steps[i].dst.dir == Fast)
    && (forall i, j :: 0 <= i < j < |steps| ==> steps[i].dst != steps[j].dst)
  }

  lemma {:induction false} FetchTouches(steps: seq<FileStep>, live: Live, n: Name)
    requires forall i :: 0 <= i < |steps| ==> steps[i].dst != n
    ensures Fetch(steps)(live).Some?
    ensures forall a :: a in Fetch(steps)(live).value ==> !Touches(a, n)
    decreases |steps|
  {
    if steps != [] {
      FetchTouches(steps[1..], Apply(live, StepActions(steps[0], live)), n);
    }
  }

  lemma OneResumable(s: FileStep, live: Live)
    requires s.src != s.dst
    ensures Resumable(One(s), live)
  {
    var full := StepActions(s, live);
    forall i | 0 <= i <= |full| ensures Resumes(One(s), live, full, i) {
      if i == 0 {
        assert full[..0] == [] && full[0..] == full;
      } else {
        OneMade(s, live);
      }
    }
  }

  /** After its one action a step has at most redundant ones left. */
  lemma OneMade(s: FileStep, live: Live)
    requires s.src != s.dst && StepActions(s, live) != []
    ensures |StepActions(s, live)| == 1 && Resumes(One(s), live, StepActions(s, live), 1)
  {
    var full := StepActions(s, live);
    assert full[..1] == full && full[1..] == [];
    OneAgain(s, live);
    var q := StepActions(s, Stage(live, full, 1));
    assert q[|q|..] == [] && q[..|q|] == q;
  }

  lemma OneAgain(s: FileStep, live: Live)
    requires s.src != s.dst && StepActions(s, live) != []
    ensures var l := Apply(live, StepActions(s, live));
            AllRedundant(l, StepActions(s, l))
  {
    match s
    case LinkMissing(src, dst) => ApplySingle(live, LinkTo(src, dst));
    case CopyMissing(src, dst) => ApplySingle(live, Publish(dst, live[src]));
    case CopyAlways(src, dst) => ApplySingle(live, Publish(dst, live[src]));
  }

  /** Once made, a file needs nothing more as long as it and its source stay. */
  lemma OneDone(s: FileStep, live: Live, l: Live)
    requires s.src != s.dst
    requires s.src in live ==> s.src in l && l[s.src] == live[s.src]
    requires s.src !in live ==> s.src !in l
    requires var m := Apply(live, StepActions(s, live));
             s.dst in m ==> s.dst in l && l[s.dst] == m[s.dst]
    ensures DoneAt(One(s), l)
  {
    var a := StepActions(s, live);
    if a != [] {
      assert a == [a[0]];
      ApplySingle(live, a[0]);
    }
  }

  lemma {:induction false} FetchResumable(steps: seq<FileStep>, live: Live)
    requires WellOrdered(steps)
    ensures Resumable(Fetch(steps), live)
    decreases |steps|
  {
    if steps == [] {
      assert forall i :: 0 <= i <= 0 ==> Resumes(Fetch(steps), live, [], i);
    } else {
      var s, rest := steps[0], steps[1..];
      assert s.src != s.dst;
      OneResumable(s, live);
      var mid := Apply(live, StepActions(s, live));
      FetchResumable(rest, mid);
      var b := Fetch(rest)(mid).value;
      forall j | 0 <= j <= |b| ensures DoneAt(One(s), Stage(mid, b, j)) {
        assert forall a :: a in b[..j] ==> a in b;
        FetchTouches(rest, mid, s.src);
        FetchTouches(rest, mid, s.dst);
        ApplyKeeps(mid, b[..j], s.src);
        ApplyKeeps(mid, b[..j], s.dst);
        ApplyKeeps(live, StepActions(s, live), s.src);
        OneDone(s, live, Stage(mid, b, j));
      }
      ThenResumable(One(s), Fetch(rest), live);
    }
  }

  predicate Distinct(xs: seq<string>) {
    forall i, j :: 0 <= i < j < |xs| ==> xs[i] != xs[j]
  }

  /** The listing filter: model-0000*.safetensors without shard 7. */
  predicate ShardListing(shards: seq<string>) {
    Distinct(shards) && forall i :: 0 <= i < |shards| ==> shards[i] !in SIDECARS && shards[i] !in DOWNLOADS
  }

  lemma FastStepsOrdered(shards: seq<string>)
    requires ShardListing(shards)
    ensures WellOrdered(FastSteps(shards))
  {
    var steps := FastSteps(shards);
    NamesApart();
    forall i, j | 0 <= i < j < |steps| ensures steps[i].dst != steps[j].dst {
      var n, m := |shards|, |shards| + |SIDECARS|;
      if i < n {
        assert steps[i].dst == File(Fast, shards[i]);
        assert j < n ==> steps[j].dst == File(Fast, shards[j]);
        assert n <= j < m ==> steps[j].dst == File(Fast, SIDECARS[j - n]);
        assert m <= j ==> steps[j].dst == File(Fast, DOWNLOADS[j - m]);
      } else {
        assert i < m ==> steps[i].dst == File(Fast, SIDECARS[i - n]);
        assert m <= i ==> steps[i].dst == File(Fast, DOWNLOADS[i - m]);
        assert n <= j < m ==> steps[j].dst == File(Fast, SIDECARS[j - n]);
        assert m <= j ==> steps[j].dst == File(Fast, DOWNLOADS[j - m]);
      }
    }
  }

  lemma NamesApart()
    ensures Distinct(SIDECARS) && Distinct(DOWNLOADS)
    ensures forall i, j :: 0 <= i < |SIDECARS| && 0 <= j < |DOWNLOADS| ==> SIDECARS[i] != DOWNLOADS[j]
  {
    assert SIDECARS[0][0] == 't' && SIDECARS[1][0] == 't' && SIDECARS[2][0] == 'c' && SIDECARS[3][0] == 'g'
        && SIDECARS[4][0] == 'p' && SIDECARS[5][0] == 'q';
    assert |SIDECARS[0]| == 14 && |SIDECARS[1]| == 21 && |SIDECARS[2]| == 19;
    assert DOWNLOADS[0][0] == 'm' && DOWNLOADS[1][0] == 'm' && DOWNLOADS[2][0] == 'm' && DOWNLOADS[3][0] == 'c'
        && DOWNLOADS[4][0] == 'm';
    assert |DOWNLOADS[0]| == 32 && |DOWNLOADS[1]| == 31 && |DOWNLOADS[2]| == 22 && |DOWNLOADS[3]| == 11
        && |DOWNLOADS[4]| == 28;
  }

  /** snapshot_download brought every file. */
  predicate Downloaded(live: Live) {
    forall i :: 0 <= i < |DOWNLOADS| ==> File(Hub, DOWNLOADS[i]) in live
  }

  /** The tokenizer of the variant only ever comes from the base directory. */
  ghost predicate TokenizerFromBase(steps: seq<FileStep>) {
    forall i :: 0 <= i < |steps| ==>
      steps[i].dst != BASE_TOKENIZER && (steps[i].dst == FAST_TOKENIZER ==> steps[i].src == BASE_TOKENIZER)
  }

  lemma FastStepsTokenizer(shards: seq<string>)
    requires ShardListing(shards)
    ensures TokenizerFromBase(FastSteps(shards)) && TokenizerFromBase(Preparation(shards))
  {
    NamesApart();
    var steps := FastSteps(shards);
    assert SIDECARS[0] == "tokenizer.json";
    forall i | 0 <= i < |steps|
      ensures steps[i].dst != BASE_TOKENIZER && (steps[i].dst == FAST_TOKENIZER ==> steps[i].src == BASE_TOKENIZER)
    {
      var n, m := |shards|, |shards| + |SIDECARS|;
      assert m <= i ==> steps[i].dst == File(Fast, DOWNLOADS[i - m]);
    }
    assert forall i :: 0 <= i < |Preparation(shards)| ==> steps[i] == Preparation(shards)[i];
  }

  lemma {:induction false} FetchTokenizer(steps: seq<FileStep>, live: Live)
    requires TokenizerFromBase(steps)
    ensures Fetch(steps)(live).Some?
    ensures forall a :: a in Fetch(steps)(live).value ==>
      !Touches(a, BASE_TOKENIZER) && (Touches(a, FAST_TOKENIZER) ==> BASE_TOKENIZER in live)
    decreases |steps|
  {
    if steps != [] {
      var a := StepActions(steps[0], live);
      ApplyKeeps(live, a, BASE_TOKENIZER);
      FetchTokenizer(steps[1..], Apply(live, a));
    }
  }

  /** Whether a tokenizer is found does not change while the script works. */
  lemma TokenizerStays(steps: seq<FileStep>, live: Live, i: nat)
    requires TokenizerFromBase(steps) && Fetch(steps)(live).Some? && i <= |Fetch(steps)(live).value|
    ensures TokenizerFound(Stage(live, Fetch(steps)(live).value, i)) <==> TokenizerFound(live)
  {
    FetchTokenizer(steps, live);
    var acts := Fetch(steps)(live).value[..i];
    assert forall a :: a in acts ==> a in Fetch(steps)(live).value;
    ApplyKeeps(live, acts, BASE_TOKENIZER);
    if BASE_TOKENIZER !in live {
      ApplyKeeps(live, acts, FAST_TOKENIZER);
    }
  }

  lemma {:induction false} FetchRuns(steps: seq<FileStep>, live: Live)
    ensures Fetch(steps)(live).Some?
    decreases |steps|
  {
    if steps != [] {
      FetchRuns(steps[1..], Apply(live, StepActions(steps[0], live)));
    }
  }

  /** Steps after steps do what they would do on their own from there. */
  lemma {:induction false} BothFetches(a: seq<FileStep>, b: seq<FileStep>, live: Live)
    ensures Fetch(a)(live).Some? && Fetch(b)(Apply(live, Fetch(a)(live).value)).Some?
    ensures Fetch(a + b)(live) == Some(Fetch(a)(live).value + Fetch(b)(Apply(live, Fetch(a)(live).value)).value)
    decreases |a|
  {
    if a == [] {
      assert a + b == b;
      FetchRuns(b, live);
      assert [] + Fetch(b)(live).value == Fetch(b)(live).value;
    } else {
      var x := StepActions(a[0], live);
      var mid := Apply(live, x);
      BothFetches(a[1..], b, mid);
      var y := Fetch(a[1..])(mid).value;
      var z := Fetch(b)(Apply(mid, y)).value;
      assert (a + b)[1..] == a[1..] + b;
      FetchCons(a, live, x, y);
      FetchCons(a + b, live, x, y + z);
      ApplyAppend(live, x, y);
      SumsAgree(x, y, z);
    }
  }

  lemma FetchCons(steps: seq<FileStep>, live: Live, x: seq<Action>, y: seq<Action>)
    requires steps != [] && x == StepActions(steps[0], live) && Fetch(steps[1..])(Apply(live, x)) == Some(y)
    ensures Fetch(steps)(live) == Some(x + y)
  {
  }

  lemma SumsAgree(x: seq<Action>, y: seq<Action>, z: seq<Action>)
    ensures x + (y + z) == (x + y) + z
  {
  }

  lemma FetchOne(s: FileStep, live: Live)
    ensures Fetch([s])(live) == Some(StepActions(s, live))
  {
    var a := StepActions(s, live);
    assert [s][1..] == [];
    assert Fetch([])(Apply(live, a)) == Some([]) && a + [] == a;
  }

  lemma FetchSnoc(steps: seq<FileStep>, s: FileStep, live: Live)
    ensures Fetch(steps)(live).Some?
    ensures Fetch(steps + [s])(live)
         == Some(Fetch(steps)(live).value + StepActions(s, Apply(live, Fetch(steps)(live).value)))
  {
    BothFetches(steps, [s], live);
    FetchOne(s, Apply(live, Fetch(steps)(live).value));
  }

  lemma PreparationOrdered(shards: seq<string>)
    requires ShardListing(shards)
    ensures WellOrdered(Preparation(shards))
  {
    FastStepsOrdered(shards);
    assert forall i :: 0 <= i < |Preparation(shards)| ==> Preparation(shards)[i] == FastSteps(shards)[i];
  }

  /** The steps the script takes from a given directory. */
  function StepsFor(shards: seq<string>, live: Live): seq<FileStep> {
    if TokenizerFound(live) then FastSteps(shards) else Preparation(shards)
  }

  /** What the script asserts at its start still holds while it works: nothing is removed. */
  lemma ConfigStays(steps: seq<FileStep>, live: Live, i: nat)
    requires CONFIG in live && Fetch(steps)(live).Some? && i <= |Fetch(steps)(live).value|
    ensures CONFIG in Stage(live, Fetch(steps)(live).value, i)
  {
    ApplyGrows(live, Fetch(steps)(live).value[..i]);
  }

  lemma FastResumable(shards: seq<string>, live: Live)
    requires ShardListing(shards) && CONFIG in live
    ensures Resumable(FastPlan(shards), live) && FastPlan(shards)(live) == Fetch(StepsFor(shards, live))(live)
  {
    var steps := StepsFor(shards, live);
    FastStepsOrdered(shards);
    PreparationOrdered(shards);
    FastStepsTokenizer(shards);
    FetchResumable(steps, live);
    forall i | 0 <= i <= |Fetch(steps)(live).value|
      ensures FastPlan(shards)(Stage(live, Fetch(steps)(live).value, i))
           == Fetch(steps)(Stage(live, Fetch(steps)(live).value, i))
    {
      TokenizerStays(steps, live, i);
      ConfigStays(steps, live, i);
    }
    SamePlanResumable(FastPlan(shards), Fetch(steps), live);
  }

  lemma {:induction false} RefusedStays(p: Plan, d: Dir, budgets: seq<nat>)
    requires p(d.live).None?
    ensures History(p, d, budgets) == d && Complete(p, d) == d
    decreases |budgets|
  {
    if budgets != [] {
      RefusedStays(p, d, budgets[1..]);
    }
  }

  /** The kill theorem for the variant: hardlinks are made once, copies replaced whole. It holds with
      and without a base model, and with and without a tokenizer in it. */
  lemma FastSurvivesKills(shards: seq<string>, live: Live, budgets: seq<nat>)
    requires ShardListing(shards)
    ensures var p := FastPlan(shards);
            var clean := Complete(p, Dir(live, map[]));
            Complete(p, History(p, Dir(live, map[]), budgets)) == clean && clean.tmp == map[]
  {
    if CONFIG in live {
      FastResumable(shards, live);
      KilledRunsThenOne(FastPlan(shards), live, budgets);
    } else {
      RefusedStays(FastPlan(shards), Dir(live, map[]), budgets);
    }
  }

  /** state() takes the variant as present once its index exists: after any kill history the index is
      there exactly when the variant is complete, and never without a base model and a tokenizer. */
  lemma FastIndexMeansComplete(shards: seq<string>, live: Live, budgets: seq<nat>)
    requires ShardListing(shards) && Downloaded(live) && VARIANT_INDEX !in live
    ensures var p := FastPlan(shards);
            var d := History(p, Dir(live, map[]), budgets);
            VARIANT_INDEX in d.live
            <==> CONFIG in live && TokenizerFound(live) && d.live == Complete(p, Dir(live, map[])).live
  {
    if CONFIG in live {
      IndexMeansComplete(shards, live, budgets);
    } else {
      RefusedStays(FastPlan(shards), Dir(live, map[]), budgets);
    }
  }

  lemma IndexMeansComplete(shards: seq<string>, live: Live, budgets: seq<nat>)
    requires ShardListing(shards) && Downloaded(live) && VARIANT_INDEX !in live && CONFIG in live
    ensures var p := FastPlan(shards);
            var d := History(p, Dir(live, map[]), budgets);
            VARIANT_INDEX in d.live <==> TokenizerFound(live) && d.live == Complete(p, Dir(live, map[])).live
  {
    var p := FastPlan(shards);
    FastResumable(shards, live);
    KilledRunsThenOne(p, live, budgets);
    Start(p, live);
    HistoryStays(p, live, Dir(live, map[]), budgets);
    var d := History(p, Dir(live, map[]), budgets);
    var i: int :| ReachedAt(p, live, d, i);
    if TokenizerFound(live) {
      IndexAtTheEnd(shards, live, p(live).value, i);
      ExecAll(Dir(live, map[]), p(live).value);
    } else {
      NoIndexWithoutTokenizer(shards, live, p(live).value, i);
    }
  }

  lemma IndexAtTheEnd(shards: seq<string>, live: Live, full: seq<Action>, i: nat)
    requires ShardListing(shards) && Downloaded(live) && VARIANT_INDEX !in live
    requires Fetch(FastSteps(shards))(live) == Some(full) && i <= |full|
    ensures VARIANT_INDEX in Stage(live, full, i) <==> Stage(live, full, i) == Apply(live, full)
  {
    var body, last := IndexIsLast(shards, live);
    ApplyAppend(live, body, [last]);
    ApplySingle(Apply(live, body), last);
    if i < |full| {
      assert full[..i] == body[..i];
      assert forall a :: a in body[..i] ==> a in body;
      ApplyKeeps(live, body[..i], VARIANT_INDEX);
    } else {
      assert full[..i] == full;
    }
  }

  lemma NoIndexWithoutTokenizer(shards: seq<string>, live: Live, full: seq<Action>, i: nat)
    requires ShardListing(shards) && VARIANT_INDEX !in live && Fetch(Preparation(shards))(live) == Some(full)
    requires i <= |full|
    ensures VARIANT_INDEX !in Stage(live, full, i)
  {
    NamesApart();
    assert DOWNLOADS[4] == VARIANT_INDEX.name;
    FetchTouches(Preparation(shards), live, VARIANT_INDEX);
    assert forall a :: a in full[..i] ==> a in full;
    ApplyKeeps(live, full[..i], VARIANT_INDEX);
  }

  lemma IndexIsLast(shards: seq<string>, live: Live) returns (body: seq<Action>, last: Action)
    requires ShardListing(shards) && Downloaded(live)
    ensures Fetch(FastSteps(shards))(live) == Some(body + [last])
    ensures last.Publish? && last.name == VARIANT_INDEX
    ensures forall a :: a in body ==> !Touches(a, VARIANT_INDEX)
  {
    var steps := FastSteps(shards);
    FastStepsOrdered(shards);
    var k := |steps| - 1;
    var s := steps[k];
    assert s == CopyAlways(File(Hub, DOWNLOADS[4]), VARIANT_INDEX);
    assert steps == steps[..k] + [s];
    FetchSnoc(steps[..k], s, live);
    FetchTouches(steps[..k], live, VARIANT_INDEX);
    body := Fetch(steps[..k])(live).value;
    ApplyGrows(live, body);
    assert File(Hub, DOWNLOADS[4]) in live;
    last := StepActions(s, Apply(live, body))[0];
  }

  /** Requantizing the base model afterwards changes nothing the variant reads, although its
      shards are hardlinks to the base shards. */
  lemma VariantKeepsItsShards(job: Job, live: Live, f: string)
    requires ScriptAt(job, live).Some?
    ensures var l := Apply(live, ScriptAt(job, live).value);
            && (File(Fast, f) in l <==> File(Fast, f) in live)
            && (File(Fast, f) in live ==> l[File(Fast, f)] == live[File(Fast, f)])
  {
    var n := File(Fast, f);
    var shard, a, b, c := PlanParts(job, live);
    var l := Apply(live, a);
    EditingTouches(ShardName(shard), ShardKeep(job), ShardEdit(job), live, n);
    EditingTouches(CONFIG, JsonKeep(job), ConfigEdit(job), l, n);
    EditingTouches(INDEX, JsonKeep(job), IndexEdit(job, shard), Apply(l, b), n);
    assert forall x :: x in a + (b + c) ==> x in a || x in b || x in c;
    ApplyKeeps(live, a + (b + c), n);
  }

  /** Some of the files, one at a time. */
  method MakeAll(disk: Disk, steps: seq<FileStep>) returns (alive: bool)
    requires disk.Valid()
    modifies disk
    ensures disk.Valid() && Fetch(steps)(old(disk.View()).live).Some?
    ensures Ran(old(disk.View()), old(disk.budget), Ops(Fetch(steps)(old(disk.View()).live).value),
                disk.View(), disk.budget, alive)
  {
    ghost var d0, k0 := disk.View(), disk.budget;
    alive := true;
    var i := 0;
    assert steps[..0] == [];
    while i < |steps|
      invariant 0 <= i <= |steps| && disk.Valid()
      invariant Fetch(steps[..i])(d0.live).Some?
      invariant Ran(d0, k0, Ops(Fetch(steps[..i])(d0.live).value), disk.View(), disk.budget, true)
    {
      ghost var done := Fetch(steps[..i])(d0.live).value;
      ghost var d1, k1 := disk.View(), disk.budget;
      RanAll(d0, k0, done, d1, k1);
      alive := MakeOne(disk, steps[i]);
      NextRan(steps, i, d0, k0, d1, k1, disk.View(), disk.budget, alive);
      if !alive {
        StoppedEarly(steps, i + 1, d0, k0, disk.View(), disk.budget);
        return;
      }
      i := i + 1;
    }
    assert steps[..i] == steps;
  }

  /** prepare/fetch_fast_variant.py: the base model is there, links and small copies, the tokenizer check, the
      downloads. */
  method FetchFast(disk: Disk, shards: seq<string>) returns (r: Outcome, stopped: bool)
    requires disk.Valid() && ShardListing(shards) && Downloaded(disk.View().live)
    modifies disk
    ensures disk.Valid()
    ensures Follows(FastPlan(shards)(old(disk.View()).live), old(disk.View()), old(disk.budget),
                    disk.View(), disk.budget, r)
    ensures r == Refused <==> CONFIG !in old(disk.View()).live
    ensures r == Finished ==> (stopped <==> !TokenizerFound(old(disk.View()).live))
  {
    stopped := false;
    var config := disk.Read(CONFIG);
    if config.None? {
      return Refused, false;
    }
    var alive;
    alive, stopped := Assemble(disk, shards);
    r := if alive then Finished else Killed;
  }

  method Assemble(disk: Disk, shards: seq<string>) returns (alive: bool, stopped: bool)
    requires disk.Valid() && ShardListing(shards)
    modifies disk
    ensures disk.Valid() && Fetch(StepsFor(shards, old(disk.View()).live))(old(disk.View()).live).Some?
    ensures Ran(old(disk.View()), old(disk.budget),
                Ops(Fetch(StepsFor(shards, old(disk.View()).live))(old(disk.View()).live).value),
                disk.View(), disk.budget, alive)
    ensures alive ==> (stopped <==> !TokenizerFound(old(disk.View()).live))
  {
    ghost var d0, k0 := disk.View(), disk.budget;
    stopped := false;
    alive := MakeAll(disk, Preparation(shards));
    ghost var a := Fetch(Preparation(shards))(d0.live).value;
    ghost var d1, k1 := disk.View(), disk.budget;
    BothFetches(Preparation(shards), Downloading(), d0.live);
    ghost var b := Fetch(Downloading())(Apply(d0.live, a)).value;
    if !alive {
      PartKilled(d0, k0, a, d1, k1, b);
      return;
    }
    RanAll(d0, k0, a, d1, k1);
    var tokenizer := disk.Read(FAST_TOKENIZER);
    TokenizerIsCopied(shards, d0.live);
    if tokenizer.None? {
      stopped := true;
      return;
    }
    alive := MakeAll(disk, Downloading());
    PartRan(d0, k0, a, d1, k1, b, disk.View(), disk.budget, alive);
  }

  /** After the first two loops the variant has a tokenizer if there was one to be found. */
  lemma TokenizerIsCopied(shards: seq<string>, live: Live)
    requires ShardListing(shards) && Fetch(Preparation(shards))(live).Some?
    ensures FAST_TOKENIZER in Apply(live, Fetch(Preparation(shards))(live).value) <==> TokenizerFound(live)
  {
    var steps, n := Preparation(shards), |shards|;
    var acts := Fetch(steps)(live).value;
    FastStepsTokenizer(shards);
    TokenizerStays(steps, live, |acts|);
    assert acts[..|acts|] == acts;
    FetchTokenizer(steps, live);
    if BASE_TOKENIZER in live {
      var s := CopyMissing(BASE_TOKENIZER, FAST_TOKENIZER);
      assert steps[n] == s && steps == (steps[..n] + [s]) + steps[n + 1..];
      BothFetches(steps[..n] + [s], steps[n + 1..], live);
      FetchSnoc(steps[..n], s, live);
      var before := Fetch(steps[..n])(live).value;
      var mid := Apply(live, before);
      ApplyGrows(live, before);
      var one := StepActions(s, mid);
      ApplyAppend(live, before, one);
      assert one != [] ==> one == [one[0]];
      if one != [] {
        ApplySingle(mid, one[0]);
      }
      ApplyAppend(live, before + one, Fetch(steps[n + 1..])(Apply(live, before + one)).value);
      ApplyGrows(Apply(live, before + one), Fetch(steps[n + 1..])(Apply(live, before + one)).value);
    } else {
      ApplyKeeps(live, acts, FAST_TOKENIZER);
    }
  }

  lemma NextRan(steps: seq<FileStep>, i: nat, d0: Dir, k0: nat, d1: Dir, k1: nat, d2: Dir, k2: nat, alive: bool)
    requires i < |steps| && Fetch(steps[..i])(d0.live).Some?
    requires d1.live == Apply(d0.live, Fetch(steps[..i])(d0.live).value)
    requires Ran(d0, k0, Ops(Fetch(steps[..i])(d0.live).value), d1, k1, true)
    requires Ran(d1, k1, Ops(StepActions(steps[i], d1.live)), d2, k2, alive)
    ensures Fetch(steps[..i + 1])(d0.live).Some?
    ensures Ran(d0, k0, Ops(Fetch(steps[..i + 1])(d0.live).value), d2, k2, alive)
  {
    FetchSnoc(steps[..i], steps[i], d0.live);
    assert steps[..i + 1] == steps[..i] + [steps[i]];
    PartRan(d0, k0, Fetch(steps[..i])(d0.live).value, d1, k1, StepActions(steps[i], d1.live), d2, k2, alive);
  }

  method MakeOne(disk: Disk, s: FileStep) returns (alive: bool)
    requires disk.Valid()
    modifies disk
    ensures disk.Valid()
    ensures Ran(old(disk.View()), old(disk.budget), Ops(StepActions(s, old(disk.View()).live)),
                disk.View(), disk.budget, alive)
  {
    var src := disk.Read(s.src);
    var dst := disk.Read(s.dst);
    if src.None? || (!s.CopyAlways? && dst.Some?) {
      return true;
    }
    if s.LinkMissing? {
      OpsOfOne(LinkTo(s.src, s.dst));
      alive := disk.LinkOnce(s.src, s.dst);
    } else {
      OpsOfOne(Publish(s.dst, src.value));
      alive := disk.WriteAndPublish(s.dst, src.value);
    }
  }

  /** A run killed in its first i steps was killed in the whole. */
  lemma {:induction false} StoppedEarly(steps: seq<FileStep>, i: nat, d0: Dir, k0: nat, d1: Dir, k1: nat)
    requires i <= |steps| && Fetch(steps[..i])(d0.live).Some?
    requires Ran(d0, k0, Ops(Fetch(steps[..i])(d0.live).value), d1, k1, false)
    ensures Fetch(steps)(d0.live).Some?
    ensures Ran(d0, k0, Ops(Fetch(steps)(d0.live).value), d1, k1, false)
    decreases |steps| - i
  {
    if i == |steps| {
      assert steps[..i] == steps;
    } else {
      var done := Fetch(steps[..i])(d0.live).value;
      FetchSnoc(steps[..i], steps[i], d0.live);
      assert steps[..i + 1] == steps[..i] + [steps[i]];
      PartKilled(d0, k0, done, d1, k1, StepActions(steps[i], Apply(d0.live, done)));
      StoppedEarly(steps, i + 1, d0, k0, d1, k1);
    }
  }
}
