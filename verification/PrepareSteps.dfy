/** prepare/quant_lm_head.py, quant_embed.py and quant_mtp.py: shard, then config.json, then
    the index, each behind its backups; and docker/prepare.sh running the pending ones. */
module PrepareSteps {
  import opened Contents
  import opened RoundToNearest
  import opened QuantSchema
  import opened AtomicPublish
  import opened Resume

  const CONFIG: Name := File(Base, "config.json")
  const INDEX: Name := File(Base, "model.safetensors.index.json")

  function ShardName(s: string): Name {
    File(Base, s)
  }

  /** The three scripts. `embed` is the module found by scanning the index for a name that ends
      in embed_tokens.weight; --bits is 8 or 4. */
  datatype Job = LmHeadJob | EmbedJob(embed: string) | MtpJob(fourBits: bool, keepFc: bool)

  function Bases(job: Job): seq<string> {
    match job
    case LmHeadJob => ["lm_head"]
    case EmbedJob(embed) => [embed]
    case MtpJob(_, keepFc) => Linears(keepFc)
  }

  function Bits(job: Job): (b: nat)
    ensures 2 <= b
  {
    if job.MtpJob? && job.fourBits then 4 else 8
  }

  function PartOf(job: Job): Covers {
    match job
    case LmHeadJob => LmHead
    case EmbedJob(_) => Embed
    case MtpJob(_, keepFc) => if keepFc then MtpKeepFc else Mtp
  }

  function ShardKeep(job: Job): Keep {
    match job
    case LmHeadJob => Copy(".bak")
    case EmbedJob(_) => Copy(".bak_embed")
    case MtpJob(_, _) => Copy(".bak-mtp")
  }

  /** quant_embed.py keeps no backup of config.json and of the index. */
  function JsonKeep(job: Job): Keep {
    match job
    case LmHeadJob => Copy(".bak-quant")
    case EmbedJob(_) => NoBackup
    case MtpJob(_, _) => Copy(".bak-mtp")
  }

  // ---- the three rewrites

  function ShardEdit(job: Job): Content -> Edit {
    (c: Content) =>
      match c
      case ShardFile(ts, meta) => (
        match PackAll(ts, Bases(job), Bits(job), !job.MtpJob?)
        case None => Refuse
        case Some(ts') =>
          if exists b :: b in Bases(job) && WeightName(b) in ts
          then Put(ShardFile(ts', OrPt(meta)))
          else Leave)
      case _ => Refuse
  }

  function NewIgnore(job: Job, xs: seq<string>): seq<string> {
    match job
    case LmHeadJob => LmHeadIgnore(xs)
    case EmbedJob(_) => xs
    case MtpJob(_, keepFc) => Without(xs, Linears(keepFc))
  }

  function Reconfigure(job: Job, q: Quantization): (q': Quantization)
    requires Extendable(q)
    ensures Extendable(q') && Declares(q', PartOf(job), Bits(job))
    ensures q.groups.Keys <= q'.groups.Keys
  {
    CloneGroup(q.(ignore := Some(NewIgnore(job, q.ignore.value))), PartOf(job), Bits(job))
  }

  function ConfigEdit(job: Job): Content -> Edit {
    (c: Content) =>
      match LoadConfig(c)
      case None => Refuse
      case Some(q) => Put(ConfigFile(Some(Reconfigure(job, q)), c.rest))
  }

  function IndexEdit(job: Job, shard: string): Content -> Edit {
    (c: Content) =>
      match c
      case IndexFile(wm, rest) => Put(IndexFile(IndexAll(wm, Bases(job), shard), rest))
      case _ => Refuse
  }

  lemma ShardEditTwice(job: Job, c: Content)
    requires ShardEdit(job)(c) != Refuse
    ensures c.ShardFile? && Idempotent(ShardEdit(job), c)
    ensures var c' := if ShardEdit(job)(c).Put? then ShardEdit(job)(c).content else c;
            c'.ShardFile? && AllPacked(c'.tensors, Bases(job)) && ShardEdit(job)(c') == Leave
            && PacksOnly(c.tensors, c'.tensors, Bases(job))
            && forall b :: HoldsPacked(c.tensors, b) ==> HoldsPacked(c'.tensors, b)
  {
    var ts := c.tensors;
    PackAllHolds(ts, Bases(job), Bits(job), !job.MtpJob?);
    var ts' := PackAll(ts, Bases(job), Bits(job), !job.MtpJob?).value;
    PackedStays(ts', Bases(job), Bits(job), !job.MtpJob?);
    if forall b :: b in Bases(job) ==> WeightName(b) !in ts {
      NothingToPack(ts, Bases(job), Bits(job), !job.MtpJob?);
    }
  }

  lemma {:induction false} NothingToPack(ts: Tensors, bases: seq<string>, bits: nat, checked: bool)
    requires 2 <= bits && PackAll(ts, bases, bits, checked).Some?
    requires forall b :: b in bases ==> WeightName(b) !in ts
    ensures PackAll(ts, bases, bits, checked) == Some(ts)
    decreases |bases|
  {
    if bases != [] {
      assert bases[0] in bases;
      NothingToPack(ts, bases[1..], bits, checked);
    }
  }

  lemma ReconfigureTwice(job: Job, q: Quantization)
    requires Extendable(q)
    ensures Reconfigure(job, Reconfigure(job, q)) == Reconfigure(job, q)
  {
    var xs := q.ignore.value;
    match job {
      case LmHeadJob => LmHeadIgnoreTwice(xs);
      case EmbedJob(_) =>
      case MtpJob(_, keepFc) => WithoutTwice(xs, Linears(keepFc));
    }
    CloneTwice(q.(ignore := Some(NewIgnore(job, xs))), PartOf(job), Bits(job));
  }

  lemma ConfigEditTwice(job: Job, c: Content)
    requires ConfigEdit(job)(c) != Refuse
    ensures ConfigEdit(job)(c).Put?
    ensures Idempotent(ConfigEdit(job), c)
    ensures ConfigEdit(job)(ConfigEdit(job)(c).content) == ConfigEdit(job)(c)
  {
    ReconfigureTwice(job, LoadConfig(c).value);
  }

  lemma IndexEditTwice(job: Job, shard: string, c: Content)
    requires c.IndexFile?
    ensures Idempotent(IndexEdit(job, shard), c)
  {
    IndexAllHolds(c.weightMap, Bases(job), shard);
    IndexedStays(IndexAll(c.weightMap, Bases(job), shard), Bases(job), shard);
  }

  // ---- a script as a plan

  /** The one shard the index gives for every bf16 weight the script packs. */
  function FindShard(job: Job, wm: WeightMap): (r: Option<string>)
    ensures r.Some? ==> forall b :: b in Bases(job) ==> WeightName(b) in wm && wm[WeightName(b)] == r.value
  {
    if (forall b :: b in Bases(job) ==> WeightName(b) in wm)
       && Bases(job) != []
       && (forall b :: b in Bases(job) ==> wm[WeightName(b)] == wm[WeightName(Bases(job)[0])])
    then Some(wm[WeightName(Bases(job)[0])])
    else None
  }

  /** What the script reads before its first write: config.json, the index, the shard's name. */
  function Opening(job: Job, live: Live): (r: Option<string>)
    ensures r.Some? ==> CONFIG in live && LoadConfig(live[CONFIG]).Some?
    ensures r.Some? ==> INDEX in live && live[INDEX].IndexFile?
    ensures r.Some? ==> FindShard(job, live[INDEX].weightMap) == r
  {
    if CONFIG !in live || LoadConfig(live[CONFIG]).None? then None
    else if INDEX !in live || !live[INDEX].IndexFile? then None
    else FindShard(job, live[INDEX].weightMap)
  }

  function ShardPart(job: Job, shard: string): Plan {
    Editing(ShardName(shard), ShardKeep(job), ShardEdit(job))
  }

  function ConfigPart(job: Job): Plan {
    Editing(CONFIG, JsonKeep(job), ConfigEdit(job))
  }

  function IndexPart(job: Job, shard: string): Plan {
    Editing(INDEX, JsonKeep(job), IndexEdit(job, shard))
  }

  function Parts(job: Job, shard: string): Plan {
    Then(ShardPart(job, shard), Then(ConfigPart(job), IndexPart(job, shard)))
  }

  function ScriptAt(job: Job, live: Live): Option<seq<Action>> {
    match Opening(job, live)
    case None => None
    case Some(shard) => Parts(job, shard)(live)
  }

  /** state() of docker/prepare.sh reads only the index. */
  function Marker(job: Job): TensorName {
    match job
    case LmHeadJob => TensorName("lm_head", WeightPacked)
    case EmbedJob(embed) => TensorName(embed, WeightPacked)
    case MtpJob(_, _) => TensorName("mtp.layers.0.mlp.down_proj", WeightPacked)
  }

  predicate Pending(job: Job, live: Live) {
    INDEX in live && live[INDEX].IndexFile? && Marker(job) !in live[INDEX].weightMap
  }

  function Step(job: Job): Plan {
    (live: Live) => if Pending(job, live) then ScriptAt(job, live) else Some([])
  }

  predicate Ready(job: Job, live: Live) {
    Pending(job, live) && ScriptAt(job, live).Some?
  }

  // ---- one script resumes

  /** What a ready script does: its three edits, in order. */
  lemma ReadyParts(job: Job, live: Live) returns (shard: string)
    requires ScriptAt(job, live).Some?
    ensures Opening(job, live) == Some(shard)
    ensures ShardName(shard) in live && ShardName(shard) != CONFIG && ShardName(shard) != INDEX
    ensures live[ShardName(shard)].ShardFile?
    ensures ShardEdit(job)(live[ShardName(shard)]) != Refuse
    ensures Idempotent(ShardEdit(job), live[ShardName(shard)])
    ensures ConfigEdit(job)(live[CONFIG]).Put? && Idempotent(ConfigEdit(job), live[CONFIG])
    ensures Idempotent(IndexEdit(job, shard), live[INDEX])
  {
    shard := Opening(job, live).value;
    ThenStarts(ShardPart(job, shard), Then(ConfigPart(job), IndexPart(job, shard)), live);
    ShardEditTwice(job, live[ShardName(shard)]);
    ConfigEditTwice(job, live[CONFIG]);
    IndexEditTwice(job, shard, live[INDEX]);
  }

  /** The plan of a ready script, step by step. */
  ghost predicate PlanOf(job: Job, shard: string, live: Live, a: seq<Action>, b: seq<Action>, c: seq<Action>)
    requires INDEX in live && live[INDEX].IndexFile?
  {
    var l := Apply(live, a);
    var l' := Apply(l, b);
    && Parts(job, shard)(live) == Some(a + (b + c))
    && ShardPart(job, shard)(live) == Some(a)
    && ConfigPart(job)(l) == Some(b)
    && IndexPart(job, shard)(l') == Some(c)
    && CONFIG in l && CONFIG in live && l[CONFIG] == live[CONFIG]
    && INDEX in l' && l'[INDEX] == live[INDEX]
  }

  lemma PlanParts(job: Job, live: Live) returns (shard: string, a: seq<Action>, b: seq<Action>, c: seq<Action>)
    requires ScriptAt(job, live).Some?
    ensures Opening(job, live) == Some(shard)
    ensures PlanOf(job, shard, live, a, b, c)
    ensures Resumable(Parts(job, shard), live)
  {
    shard := ReadyParts(job, live);
    ThreeEdits(ShardName(shard), ShardKeep(job), ShardEdit(job), CONFIG, JsonKeep(job), ConfigEdit(job),
               INDEX, JsonKeep(job), IndexEdit(job, shard), live);
    a := ShardPart(job, shard)(live).value;
    var l := Apply(live, a);
    b := ConfigPart(job)(l).value;
    c := IndexPart(job, shard)(Apply(l, b)).value;
  }

  /** Every action on config.json publishes a config the next run accepts. */
  predicate KeepsConfig(a: Action) {
    Touches(a, CONFIG) ==> a.Publish? && LoadConfig(a.content).Some?
  }

  lemma {:induction false} ConfigStaysLoadable(live: Live, acts: seq<Action>)
    requires CONFIG in live && LoadConfig(live[CONFIG]).Some?
    requires forall a :: a in acts ==> KeepsConfig(a)
    ensures CONFIG in Apply(live, acts) && LoadConfig(Apply(live, acts)[CONFIG]).Some?
    decreases |acts|
  {
    if acts != [] {
      assert KeepsConfig(acts[0]);
      ConfigStaysLoadable(ApplyOne(live, acts[0]), acts[1..]);
    }
  }

  lemma ConfigActions(job: Job, live: Live)
    requires CONFIG in live && LoadConfig(live[CONFIG]).Some?
    ensures forall x :: x in ConfigPart(job)(live).value ==> !Touches(x, INDEX) && KeepsConfig(x)
  {
    ConfigEditTwice(job, live[CONFIG]);
    EditingEnds(CONFIG, JsonKeep(job), ConfigEdit(job), live);
    EditingTouches(CONFIG, JsonKeep(job), ConfigEdit(job), live, INDEX);
    var b := ConfigPart(job)(live).value;
    assert b == b[..|b| - 1] + [b[|b| - 1]];
  }

  lemma IndexActions(job: Job, shard: string, live: Live)
    requires INDEX in live && live[INDEX].IndexFile?
    ensures IndexPart(job, shard)(live).Some?
    ensures var c := IndexPart(job, shard)(live).value;
            && c != [] && c[|c| - 1] == Publish(INDEX, IndexEdit(job, shard)(live[INDEX]).content)
            && (forall x :: x in c[..|c| - 1] ==> !Touches(x, INDEX) && KeepsConfig(x))
  {
    EditingEnds(INDEX, JsonKeep(job), IndexEdit(job, shard), live);
    EditingTouches(INDEX, JsonKeep(job), IndexEdit(job, shard), live, CONFIG);
    var c := IndexPart(job, shard)(live).value;
    assert forall x :: x in c[..|c| - 1] ==> x in c;
  }

  lemma ShardActions(job: Job, shard: string, live: Live)
    requires ShardPart(job, shard)(live).Some? && ShardName(shard) != INDEX && ShardName(shard) != CONFIG
    ensures forall x :: x in ShardPart(job, shard)(live).value ==> !Touches(x, INDEX) && KeepsConfig(x)
  {
    EditingTouches(ShardName(shard), ShardKeep(job), ShardEdit(job), live, INDEX);
    EditingTouches(ShardName(shard), ShardKeep(job), ShardEdit(job), live, CONFIG);
  }

  /** A ready script writes the index last, and once; nothing before it touches the index. */
  lemma ScriptShape(job: Job, live: Live) returns (shard: string, body: seq<Action>, last: Action)
    requires Ready(job, live)
    ensures Opening(job, live) == Some(shard)
    ensures Parts(job, shard)(live) == Some(body + [last])
    ensures Resumable(Parts(job, shard), live)
    ensures last == Publish(INDEX, IndexEdit(job, shard)(live[INDEX]).content)
    ensures forall x :: x in body ==> !Touches(x, INDEX) && KeepsConfig(x)
  {
    shard := ReadyParts(job, live);
    var _, a, b, c := PlanParts(job, live);
    ShardActions(job, shard, live);
    ConfigActions(job, Apply(live, a));
    IndexActions(job, shard, Apply(Apply(live, a), b));
    body, last := ShapeOf(a, b, c);
  }

  lemma ShapeOf(a: seq<Action>, b: seq<Action>, c: seq<Action>) returns (body: seq<Action>, last: Action)
    requires c != []
    requires forall x :: x in a || x in b || x in c[..|c| - 1] ==> !Touches(x, INDEX) && KeepsConfig(x)
    ensures last == c[|c| - 1] && a + (b + c) == body + [last]
    ensures forall x :: x in body ==> !Touches(x, INDEX) && KeepsConfig(x)
  {
    body, last := a + (b + c[..|c| - 1]), c[|c| - 1];
  }

  /** Before its last action the step is pending and plans what its script plans. */
  lemma StepIsGated(job: Job, live: Live, shard: string, body: seq<Action>, last: Action, i: nat)
    requires Opening(job, live) == Some(shard) && Pending(job, live)
    requires forall x :: x in body ==> !Touches(x, INDEX) && KeepsConfig(x)
    requires i <= |body|
    ensures Step(job)(Stage(live, body + [last], i)) == Parts(job, shard)(Stage(live, body + [last], i))
  {
    var full := body + [last];
    assert full[..i] == body[..i];
    assert forall x :: x in full[..i] ==> x in body;
    ApplyKeeps(live, full[..i], INDEX);
    ConfigStaysLoadable(live, full[..i]);
    assert Opening(job, Stage(live, full, i)) == Some(shard);
  }

  /** After it the index names the job's weights packed, and the step is done. */
  lemma StepIsDone(job: Job, live: Live, shard: string, body: seq<Action>, last: Action)
    requires INDEX in live && live[INDEX].IndexFile?
    requires last == Publish(INDEX, IndexEdit(job, shard)(live[INDEX]).content)
    ensures Done(job, shard, Apply(live, body + [last]))
    ensures Apply(live, body + [last])[INDEX] == IndexEdit(job, shard)(live[INDEX]).content
  {
    ApplyAppend(live, body, [last]);
    ApplySingle(Apply(live, body), last);
    IndexAllHolds(live[INDEX].weightMap, Bases(job), shard);
    MarkerIsPacked(job, IndexAll(live[INDEX].weightMap, Bases(job), shard), shard);
  }

  /** The index names every weight of the job packed, in its shard. */
  ghost predicate Done(job: Job, shard: string, live: Live) {
    INDEX in live && live[INDEX].IndexFile? && Indexed(live[INDEX].weightMap, Bases(job), shard)
    && !Pending(job, live)
  }

  lemma MarkerIsPacked(job: Job, wm: WeightMap, shard: string)
    requires Indexed(wm, Bases(job), shard)
    ensures Marker(job) in wm
  {
    var b := Marker(job).base;
    assert b in Bases(job) by {
      if job.MtpJob? {
        assert MTP_LINEARS[1] == "mtp.layers.0.mlp.down_proj";
        assert Linears(job.keepFc)[if job.keepFc then 0 else 1] == MTP_LINEARS[1];
      } else {
        assert Bases(job)[0] == b;
      }
    }
    assert TensorName(b, WeightPacked) in PackedNames(b);
  }

  lemma StepResumable(job: Job, live: Live)
    requires Ready(job, live)
    ensures Resumable(Step(job), live)
    ensures Step(job)(live) == ScriptAt(job, live)
  {
    var shard, body, last := ScriptShape(job, live);
    var p := Parts(job, shard);
    var full := body + [last];
    forall i | 0 <= i < |full| ensures Step(job)(Stage(live, full, i)) == p(Stage(live, full, i)) {
      StepIsGated(job, live, shard, body, last, i);
    }
    StepIsDone(job, live, shard, body, last);
    GatedResumable(Step(job), p, live);
  }

  /** The crash theorem for one script: however often it is killed, and after whichever of its
      file operations, the run that completes leaves exactly what one clean run leaves. */
  lemma ScriptSurvivesKills(job: Job, live: Live, budgets: seq<nat>)
    requires Ready(job, live)
    ensures var d := Dir(live, map[]);
            Complete(Step(job), History(Step(job), d, budgets)) == Exec(d, Ops(ScriptAt(job, live).value))
    ensures Exec(Dir(live, map[]), Ops(ScriptAt(job, live).value)).tmp == map[]
  {
    StepResumable(job, live);
    KilledRunsThenOne(Step(job), live, budgets);
  }

  // ---- several scripts in one pass of docker/prepare.sh

  /** The scripts in order, each run when it is pending. */
  function Pass(jobs: seq<Job>): Plan
    decreases |jobs|
  {
    if jobs == [] then (live: Live) => Some([]) else Then(Step(jobs[0]), Pass(jobs[1..]))
  }

  ghost predicate Apart(job: Job, job': Job) {
    forall b :: b in Bases(job) ==> b !in Bases(job')
  }

  ghost predicate AllApart(jobs: seq<Job>) {
    forall i, j :: 0 <= i < j < |jobs| ==> Apart(jobs[i], jobs[j])
  }

  /** The index can be read, and if it says the script is still to do, the script will not refuse. */
  predicate Able(job: Job, live: Live) {
    INDEX in live && live[INDEX].IndexFile? && (Pending(job, live) ==> Ready(job, live))
  }

  ghost predicate AllAble(jobs: seq<Job>, live: Live) {
    forall job :: job in jobs ==> Able(job, live)
  }

  /** The files of the model after one complete script. */
  function After(job: Job, live: Live): Live
    requires Ready(job, live)
  {
    Apply(live, ScriptAt(job, live).value)
  }

  lemma AfterShards(job: Job, live: Live, s: string) returns (shard: string)
    requires Ready(job, live)
    requires ShardName(s) in live && live[ShardName(s)].ShardFile?
    ensures Opening(job, live) == Some(shard)
    ensures ShardName(s) in After(job, live) && After(job, live)[ShardName(s)].ShardFile?
    ensures s != shard ==> After(job, live)[ShardName(s)] == live[ShardName(s)]
    ensures PacksOnly(live[ShardName(s)].tensors, After(job, live)[ShardName(s)].tensors, Bases(job))
    ensures forall b :: HoldsPacked(live[ShardName(s)].tensors, b) ==>
      HoldsPacked(After(job, live)[ShardName(s)].tensors, b)
    ensures s == shard ==> AllPacked(After(job, live)[ShardName(s)].tensors, Bases(job))
  {
    shard := ReadyParts(job, live);
    var _, a, b, c := PlanParts(job, live);
    var n := ShardName(s);
    var l := Apply(live, a);
    var l' := Apply(l, b);
    ApplyAppend(live, a, b + c);
    ApplyAppend(l, b, c);
    EditingKeeps(CONFIG, JsonKeep(job), ConfigEdit(job), l, n);
    EditingKeeps(INDEX, JsonKeep(job), IndexEdit(job, shard), l', n);
    ShardEditTwice(job, live[ShardName(shard)]);
    EditingDone(ShardName(shard), ShardKeep(job), ShardEdit(job), live);
    if s != shard {
      EditingKeeps(ShardName(shard), ShardKeep(job), ShardEdit(job), live, n);
    }
  }

  lemma AfterJson(job: Job, live: Live)
    requires Ready(job, live)
    ensures CONFIG in After(job, live) && LoadConfig(After(job, live)[CONFIG]).Some?
    ensures INDEX in After(job, live) && After(job, live)[INDEX].IndexFile?
    ensures forall n: TensorName :: n.base !in Bases(job) ==>
      (n in live[INDEX].weightMap <==> n in After(job, live)[INDEX].weightMap)
      && (n in live[INDEX].weightMap ==> After(job, live)[INDEX].weightMap[n] == live[INDEX].weightMap[n])
  {
    var shard, body, last := ScriptShape(job, live);
    StepIsDone(job, live, shard, body, last);
    ConfigStaysLoadable(live, body + [last]);
    IndexAllHolds(live[INDEX].weightMap, Bases(job), shard);
  }

  /** A script that packs other weights leaves a waiting script able to run. */
  lemma ReadyStays(job: Job, job': Job, live: Live)
    requires Ready(job, live) && Ready(job', live) && Apart(job, job')
    ensures Ready(job', After(job, live))
  {
    var shard' := ReadyParts(job', live);
    PendingStays(job, job', live);
    PackableStays(job, job', live, shard');
    WillRun(job', shard', After(job, live));
  }

  lemma PendingStays(job: Job, job': Job, live: Live)
    requires Ready(job, live) && Ready(job', live) && Apart(job, job')
    ensures Pending(job', After(job, live))
    ensures Opening(job', After(job, live)) == Opening(job', live)
  {
    AfterJson(job, live);
    MarkerBase(job');
    OpeningStays(job', live, After(job, live));
  }

  /** What a script makes of a shard depends only on the entries of its own weights. */
  lemma ShardEditAgrees(job: Job, c: Content, c': Content)
    requires c.ShardFile? && c'.ShardFile? && AgreeOn(c.tensors, c'.tensors, Bases(job))
    requires ShardEdit(job)(c) != Refuse
    ensures ShardEdit(job)(c') != Refuse
  {
    PackAllAgrees(c.tensors, c'.tensors, Bases(job), Bits(job), !job.MtpJob?);
  }

  lemma PackableStays(job: Job, job': Job, live: Live, shard': string)
    requires Ready(job, live) && Apart(job, job')
    requires ShardName(shard') in live && ShardEdit(job')(live[ShardName(shard')]) != Refuse
    ensures ShardName(shard') in After(job, live)
    ensures ShardEdit(job')(After(job, live)[ShardName(shard')]) != Refuse
  {
    var c := live[ShardName(shard')];
    assert c.ShardFile?;
    var _ := AfterShards(job, live, shard');
    var c' := After(job, live)[ShardName(shard')];
    assert AgreeOn(c.tensors, c'.tensors, Bases(job'));
    ShardEditAgrees(job', c, c');
  }

  lemma WillRun(job: Job, shard: string, live: Live)
    requires Pending(job, live) && Opening(job, live) == Some(shard)
    requires ShardName(shard) in live && ShardEdit(job)(live[ShardName(shard)]) != Refuse
    ensures Ready(job, live)
  {
    EditingRuns(ShardName(shard), ShardKeep(job), ShardEdit(job), live);
    ThenRuns(ShardPart(job, shard), Then(ConfigPart(job), IndexPart(job, shard)), live);
  }

  /** Weights acceptable one by one are acceptable together. */
  lemma {:induction false} PackAllAccepts(ts: Tensors, bases: seq<string>, bits: nat, checked: bool)
    requires 2 <= bits && forall b :: b in bases ==> PackOne(ts, b, bits, checked).Some?
    ensures PackAll(ts, bases, bits, checked).Some?
    decreases |bases|
  {
    if bases != [] {
      var ts' := PackOne(ts, bases[0], bits, checked).value;
      PackOneHolds(ts, bases[0], bits, checked);
      forall b | b in bases[1..] ensures PackOne(ts', b, bits, checked).Some? {
        assert b in bases;
        assert b != bases[0] ==> AgreeOn(ts, ts', [b]);
      }
      PackAllAccepts(ts', bases[1..], bits, checked);
    }
  }

  /** Weights accepted together are acceptable one by one. */
  lemma {:induction false} PackAllNeeds(ts: Tensors, bases: seq<string>, bits: nat, checked: bool)
    requires 2 <= bits && PackAll(ts, bases, bits, checked).Some?
    ensures forall b :: b in bases ==> PackOne(ts, b, bits, checked).Some?
    decreases |bases|
  {
    if bases != [] {
      var ts' := PackOne(ts, bases[0], bits, checked).value;
      PackOneHolds(ts, bases[0], bits, checked);
      PackAllNeeds(ts', bases[1..], bits, checked);
      forall b | b in bases ensures PackOne(ts, b, bits, checked).Some? {
        if b != bases[0] {
          assert AgreeOn(ts', ts, [b]);
          PackOneAgrees(ts', ts, [b], bits, checked);
        }
      }
    }
  }

  /** The index names the bf16 weights of the job in one shard, and the shard holds each of them packable,
      or packed already. */
  predicate Acceptable(job: Job, live: Live, shard: string)
    requires INDEX in live && live[INDEX].IndexFile?
  {
    && (forall b :: b in Bases(job) ==> Names(live[INDEX].weightMap, b, shard))
    && ShardName(shard) in live && live[ShardName(shard)].ShardFile?
    && (forall b :: b in Bases(job) ==> PackOne(live[ShardName(shard)].tensors, b, Bits(job), !job.MtpJob?).Some?)
  }

  predicate Names(wm: WeightMap, base: string, shard: string) {
    WeightName(base) in wm && wm[WeightName(base)] == shard
  }

  /** A quantization_config with an ignore list and a group_0 to clone, which names no other method. */
  predicate CanExtend(c: Content) {
    && c.ConfigFile? && c.quant.Some? && c.quant.value.ignore.Some? && "group_0" in c.quant.value.groups
    && (c.quant.value.quantMethod.Some? ==> c.quant.value.quantMethod.value == "compressed-tensors")
  }

  /** When a script that is still to do is ready, in terms of the files: exactly when config.json can be
      extended and a shard is acceptable. */
  lemma ModelIsReady(job: Job, live: Live)
    requires Pending(job, live)
    ensures Ready(job, live)
       <==> CONFIG in live && CanExtend(live[CONFIG]) && exists shard :: Acceptable(job, live, shard)
  {
    MarkerBase(job);
    if Ready(job, live) {
      var shard := ReadyParts(job, live);
      PackAllNeeds(live[ShardName(shard)].tensors, Bases(job), Bits(job), !job.MtpJob?);
      assert Acceptable(job, live, shard);
    }
    if CONFIG in live && LoadConfig(live[CONFIG]).Some? && exists shard :: Acceptable(job, live, shard) {
      var shard :| Acceptable(job, live, shard);
      AcceptableIsReady(job, live, shard);
    }
  }

  lemma AcceptableIsReady(job: Job, live: Live, shard: string)
    requires Pending(job, live) && Bases(job) != [] && CONFIG in live && LoadConfig(live[CONFIG]).Some?
    requires Acceptable(job, live, shard)
    ensures Ready(job, live)
  {
    NamedShard(job, live[INDEX].weightMap, shard);
    ShardAccepted(job, live[ShardName(shard)]);
    WillRun(job, shard, live);
  }

  lemma NamedShard(job: Job, wm: WeightMap, shard: string)
    requires Bases(job) != [] && forall b :: b in Bases(job) ==> Names(wm, b, shard)
    ensures FindShard(job, wm) == Some(shard)
  {
    assert Bases(job)[0] in Bases(job);
  }

  lemma ShardAccepted(job: Job, c: Content)
    requires c.ShardFile?
    requires forall b :: b in Bases(job) ==> PackOne(c.tensors, b, Bits(job), !job.MtpJob?).Some?
    ensures ShardEdit(job)(c) != Refuse
  {
    PackAllAccepts(c.tensors, Bases(job), Bits(job), !job.MtpJob?);
  }

  lemma OpeningStays(job: Job, live: Live, l: Live)
    requires Opening(job, live).Some?
    requires CONFIG in l && LoadConfig(l[CONFIG]).Some? && INDEX in l && l[INDEX].IndexFile?
    requires forall n: TensorName :: n.base in Bases(job) ==>
      (n in live[INDEX].weightMap <==> n in l[INDEX].weightMap)
      && (n in live[INDEX].weightMap ==> l[INDEX].weightMap[n] == live[INDEX].weightMap[n])
    ensures Opening(job, l) == Opening(job, live)
  {
    forall b | b in Bases(job)
      ensures WeightName(b) in l[INDEX].weightMap
      ensures l[INDEX].weightMap[WeightName(b)] == live[INDEX].weightMap[WeightName(b)]
    {
      assert WeightName(b).base in Bases(job);
    }
  }

  lemma MarkerBase(job: Job)
    ensures Marker(job).base in Bases(job) && Marker(job).part == WeightPacked
  {
    if job.MtpJob? {
      assert MTP_LINEARS[1] == "mtp.layers.0.mlp.down_proj";
      assert Linears(job.keepFc)[if job.keepFc then 0 else 1] == MTP_LINEARS[1];
    } else {
      assert Bases(job)[0] == Marker(job).base;
    }
  }

  /** Every later write of the index still names what it named packed. */
  predicate KeepsMark(m: TensorName, a: Action) {
    Touches(a, INDEX) ==> a.Publish? && a.content.IndexFile? && m in a.content.weightMap
  }

  lemma {:induction false} MarkStays(m: TensorName, live: Live, acts: seq<Action>)
    requires INDEX in live && live[INDEX].IndexFile? && m in live[INDEX].weightMap
    requires forall a :: a in acts ==> KeepsMark(m, a)
    ensures INDEX in Apply(live, acts) && Apply(live, acts)[INDEX].IndexFile? && m in Apply(live, acts)[INDEX].weightMap
    decreases |acts|
  {
    if acts != [] {
      assert KeepsMark(m, acts[0]);
      MarkStays(m, ApplyOne(live, acts[0]), acts[1..]);
    }
  }

  lemma MarkIndexed(m: TensorName, job: Job, wm: WeightMap, shard: string)
    requires m.part == WeightPacked && m in wm
    ensures m in IndexAll(wm, Bases(job), shard)
  {
    IndexAllHolds(wm, Bases(job), shard);
    assert m.base in Bases(job) ==> m in PackedNames(m.base);
  }

  lemma StepKeepsMark(m: TensorName, job: Job, live: Live)
    requires Ready(job, live) && m.part == WeightPacked && m in live[INDEX].weightMap
    ensures forall a :: a in ScriptAt(job, live).value ==> KeepsMark(m, a)
    ensures INDEX in After(job, live) && After(job, live)[INDEX].IndexFile? && m in After(job, live)[INDEX].weightMap
  {
    var shard, body, last := ScriptShape(job, live);
    MarkIndexed(m, job, live[INDEX].weightMap, shard);
    ApplyAppend(live, body, [last]);
    ApplySingle(Apply(live, body), last);
  }

  /** The files after a step, which does nothing for a script that is already done. */
  function StepEnd(job: Job, live: Live): Live
    requires Able(job, live)
  {
    if Pending(job, live) then After(job, live) else live
  }

  /** After a script its mark is in the index. */
  lemma MarkAfter(job: Job, live: Live)
    requires Ready(job, live)
    ensures INDEX in After(job, live) && After(job, live)[INDEX].IndexFile?
    ensures Marker(job) in After(job, live)[INDEX].weightMap
  {
    var shard, body, last := ScriptShape(job, live);
    StepIsDone(job, live, shard, body, last);
    MarkerIsPacked(job, After(job, live)[INDEX].weightMap, shard);
  }

  lemma NothingToDo(p: Plan, live: Live)
    requires p(live) == Some([])
    ensures Resumable(p, live) && Apply(live, p(live).value) == live
  {
    var none: seq<Action> := [];
    assert none[..0] == none && none[0..] == none;
    assert Stage(live, none, 0) == live;
    assert Resumes(p, live, none, 0);
  }

  lemma StepAble(job: Job, live: Live)
    requires Able(job, live)
    ensures Resumable(Step(job), live) && Apply(live, Step(job)(live).value) == StepEnd(job, live)
    ensures var l := StepEnd(job, live); INDEX in l && l[INDEX].IndexFile? && Marker(job) in l[INDEX].weightMap
  {
    if Pending(job, live) {
      StepResumable(job, live);
      MarkAfter(job, live);
    } else {
      NothingToDo(Step(job), live);
    }
  }

  lemma {:induction false} PassKeepsMark(m: TensorName, jobs: seq<Job>, live: Live)
    requires AllAble(jobs, live) && AllApart(jobs)
    requires INDEX in live && live[INDEX].IndexFile? && m.part == WeightPacked && m in live[INDEX].weightMap
    ensures Pass(jobs)(live).Some?
    ensures forall a :: a in Pass(jobs)(live).value ==> KeepsMark(m, a)
    decreases |jobs|
  {
    if jobs != [] {
      var job := jobs[0];
      assert job in jobs;
      AllAbleStay(jobs, live);
      StepAble(job, live);
      if Pending(job, live) {
        StepKeepsMark(m, job, live);
      }
      PassKeepsMark(m, jobs[1..], StepEnd(job, live));
    }
  }

  /** A script that packs other weights leaves the others as able as they were. */
  lemma AbleStays(job: Job, job': Job, live: Live)
    requires Able(job, live) && Able(job', live) && Apart(job, job')
    ensures Able(job', StepEnd(job, live))
  {
    if Pending(job, live) {
      AfterJson(job, live);
      MarkerBase(job');
      if Pending(job', live) {
        ReadyStays(job, job', live);
      }
    }
  }

  lemma AllAbleStay(jobs: seq<Job>, live: Live)
    requires jobs != [] && AllAble(jobs, live) && AllApart(jobs)
    ensures Able(jobs[0], live)
    ensures AllAble(jobs[1..], StepEnd(jobs[0], live)) && AllApart(jobs[1..])
  {
    assert jobs[0] in jobs;
    forall job | job in jobs[1..] ensures Able(job, StepEnd(jobs[0], live)) {
      var k :| 0 <= k < |jobs[1..]| && jobs[1..][k] == job;
      assert Apart(jobs[0], jobs[k + 1]);
      AbleStays(jobs[0], job, live);
    }
  }

  /** While the later scripts run, the first one stays done: they never take its mark away. */
  lemma LaterKeepDone(job: Job, rest: seq<Job>, live: Live)
    requires Able(job, live) && AllAble(rest, StepEnd(job, live)) && AllApart(rest)
    ensures StaysDone(Step(job), Pass(rest), StepEnd(job, live))
  {
    var mid := StepEnd(job, live);
    StepAble(job, live);
    PassKeepsMark(Marker(job), rest, mid);
    var b := Pass(rest)(mid).value;
    forall j | 0 <= j <= |b| ensures DoneAt(Step(job), Stage(mid, b, j)) {
      assert forall a :: a in b[..j] ==> a in b;
      MarkStays(Marker(job), mid, b[..j]);
    }
  }

  lemma StepThenResumable(job: Job, rest: seq<Job>, live: Live, mid: Live)
    requires Able(job, live) && mid == StepEnd(job, live) && AllAble(rest, mid) && AllApart(rest)
    requires Resumable(Pass(rest), mid)
    ensures Resumable(Then(Step(job), Pass(rest)), live)
  {
    StepAble(job, live);
    LaterKeepDone(job, rest, live);
    ThenResumable(Step(job), Pass(rest), live);
  }

  lemma NoJobs(live: Live)
    ensures Resumable(Pass([]), live)
  {
    NothingToDo(Pass([]), live);
  }

  lemma {:induction false} PassResumable(jobs: seq<Job>, live: Live)
    requires AllAble(jobs, live) && AllApart(jobs)
    ensures Resumable(Pass(jobs), live)
    decreases |jobs|
  {
    if jobs == [] {
      NoJobs(live);
    } else {
      AllAbleStay(jobs, live);
      var mid := StepEnd(jobs[0], live);
      PassResumable(jobs[1..], mid);
      StepThenResumable(jobs[0], jobs[1..], live, mid);
    }
  }

  /** The crash theorem for a whole preparation: lm_head, embeddings and MTP, whichever of them are
      still to do, killed anywhere any number of times, end as one clean pass does, with no temporary
      file left. */
  lemma PrepareSurvivesKills(embed: string, fourBits: bool, keepFc: bool, live: Live, budgets: seq<nat>)
    requires embed != "lm_head" && embed !in MTP_LINEARS
    requires AllAble([LmHeadJob, EmbedJob(embed), MtpJob(fourBits, keepFc)], live)
    ensures var p := Pass([LmHeadJob, EmbedJob(embed), MtpJob(fourBits, keepFc)]);
            var clean := Complete(p, Dir(live, map[]));
            Complete(p, History(p, Dir(live, map[]), budgets)) == clean && clean.tmp == map[]
  {
    var jobs := [LmHeadJob, EmbedJob(embed), MtpJob(fourBits, keepFc)];
    LinearsDistinct(keepFc);
    assert forall b :: b in Linears(keepFc) ==> b in MTP_LINEARS;
    PassResumable(jobs, live);
    KilledRunsThenOne(Pass(jobs), live, budgets);
  }
}
