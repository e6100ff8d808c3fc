/** What a completed script leaves in each file, apart from how it edits them, and which packed weights
    config.json may still tell the reader to ignore. */
module PrepareResults {
  import opened Contents
  import opened QuantSchema
  import opened AtomicPublish
  import opened Resume
  import opened PrepareSteps
  import opened PrepareInvariants

  // ---- config.json

  /** How often x is in the new ignore list, given how often it was in the old one. */
  function TimesAfter(job: Job, x: string, before: nat): nat {
    match job
    case LmHeadJob =>
      if x == "lm_head" then 0 else if x in MTP_LINEARS && before == 0 then 1 else before
    case EmbedJob(_) => before
    case MtpJob(_, keepFc) => if x in MTP_LINEARS && (keepFc ==> x != "mtp.fc") then 0 else before
  }

  ghost predicate IgnoresAfter(job: Job, xs: seq<string>, ys: seq<string>) {
    forall x :: multiset(ys)[x] == TimesAfter(job, x, multiset(xs)[x])
  }

  /** The config group of each script, and the modules it covers. */
  function GroupFor(job: Job): (string, string) {
    match job
    case LmHeadJob => ("group_1", "re:.*lm_head$")
    case EmbedJob(_) => ("group_2", "re:.*embed_tokens$")
    case MtpJob(_, keepFc) => ("group_3", if keepFc then "re:^mtp\\.layers\\..*" else "re:^mtp\\..*")
  }

  /** --bits: 8 everywhere, or 4 for the MTP linears. */
  function WidthFor(job: Job): nat {
    match job
    case MtpJob(fourBits, _) => if fourBits then 4 else 8
    case _ => 8
  }

  /** The group covers the script's modules with symmetric integers of that many bits, 128 to a scale. */
  ghost predicate DeclaredFor(job: Job, q: Quantization) {
    && GroupFor(job).0 in q.groups
    && var g := q.groups[GroupFor(job).0];
       && g.targets == [GroupFor(job).1] && g.weights.numBits == WidthFor(job) && g.weights.groupSize == 128
       && g.weights.symmetric && g.weights.zpDtype == None && g.weights.strategy == "group" && g.weights.kind == "int"
  }

  /** The added group declares what is packed; every other group, and all else, is as it was. */
  ghost predicate ConfigAfter(job: Job, c: Content, c': Content)
    requires LoadConfig(c).Some?
  {
    var q := c.quant.value;
    && c'.ConfigFile? && c'.rest == c.rest && c'.quant.Some?
    && var q' := c'.quant.value;
       && q'.quantMethod == q.quantMethod && DeclaredFor(job, q')
       && q'.groups.Keys == q.groups.Keys + {GroupFor(job).0}
       && (forall g :: g in q.groups && g != GroupFor(job).0 ==> q'.groups[g] == q.groups[g])
       && q'.ignore.Some? && IgnoresAfter(job, q.ignore.value, q'.ignore.value)
  }

  lemma {:induction false} WithoutCounts(xs: seq<string>, drop: seq<string>, x: string)
    ensures multiset(Without(xs, drop))[x] == if x in drop then 0 else multiset(xs)[x]
  {
    if xs != [] {
      WithoutCounts(xs[1..], drop, x);
      assert xs == [xs[0]] + xs[1..];
    }
  }

  lemma LinearsOnce(x: string)
    ensures multiset(MTP_LINEARS)[x] == if x in MTP_LINEARS then 1 else 0
    ensures x in Linears(true) <==> x in MTP_LINEARS && x != "mtp.fc"
  {
    LinearsApartByName();
    if x in MTP_LINEARS {
      var k :| 0 <= k < |MTP_LINEARS| && MTP_LINEARS[k] == x;
      OnceAt(MTP_LINEARS, k);
      if k > 0 {
        assert Linears(true)[k - 1] == x;
      }
    }
    assert MTP_LINEARS[0] == "mtp.fc";
    assert forall k :: 0 <= k < |Linears(true)| ==> Linears(true)[k] == MTP_LINEARS[k + 1];
  }

  lemma OnceAt(xs: seq<string>, k: nat)
    requires k < |xs| && forall i, j :: 0 <= i < j < |xs| ==> xs[i] != xs[j]
    ensures multiset(xs)[xs[k]] == 1
  {
    var a, b := xs[..k], xs[k + 1..];
    assert xs == a + [xs[k]] + b;
    assert xs[k] !in a && xs[k] !in b;
  }

  lemma LinearsApartByName()
    ensures forall i, j :: 0 <= i < j < |MTP_LINEARS| ==> MTP_LINEARS[i] != MTP_LINEARS[j]
  {
    var s := MTP_LINEARS;
    assert |s[0]| == 6 && |s[1]| == 26 && |s[2]| == 26 && |s[3]| == 24;
    assert |s[4]| == 29 && |s[5]| == 29 && |s[6]| == 29 && |s[7]| == 29;
    assert s[1][17] == 'd' && s[2][17] == 'g';
    assert s[4][23] == 'q' && s[5][23] == 'k' && s[6][23] == 'v' && s[7][23] == 'o';
  }

  lemma LmHeadIgnores(xs: seq<string>, x: string)
    ensures multiset(LmHeadIgnore(xs))[x] == TimesAfter(LmHeadJob, x, multiset(xs)[x])
  {
    var kept := Without(xs, ["lm_head"]);
    WithoutCounts(xs, ["lm_head"], x);
    WithoutCounts(MTP_LINEARS, kept, x);
    LinearsOnce(x);
    LinearsDistinct(false);
    assert x in kept <==> multiset(kept)[x] > 0;
  }

  lemma IgnoreIs(job: Job, xs: seq<string>)
    ensures IgnoresAfter(job, xs, NewIgnore(job, xs))
  {
    forall x ensures multiset(NewIgnore(job, xs))[x] == TimesAfter(job, x, multiset(xs)[x]) {
      match job
      case LmHeadJob => LmHeadIgnores(xs, x);
      case EmbedJob(_) =>
      case MtpJob(_, keepFc) =>
        WithoutCounts(xs, Linears(keepFc), x);
        LinearsOnce(x);
    }
  }

  lemma ConfigIs(job: Job, c: Content)
    requires LoadConfig(c).Some?
    ensures ConfigEdit(job)(c).Put? && ConfigAfter(job, c, ConfigEdit(job)(c).content)
  {
    IgnoreIs(job, c.quant.value.ignore.value);
  }

  // ---- the other files

  /** The index points the job's weights at their packed entries; everything else is as it was. */
  ghost predicate IndexAfter(job: Job, shard: string, c: Content, c': Content)
    requires c.IndexFile?
  {
    && c'.IndexFile? && c'.rest == c.rest && Indexed(c'.weightMap, Bases(job), shard)
    && forall n: TensorName :: n.base !in Bases(job) ==> SameEntry(c.weightMap, c'.weightMap, n)
  }

  predicate SameEntry<V(==)>(m: map<TensorName, V>, m': map<TensorName, V>, n: TensorName) {
    if n in m then n in m' && m'[n] == m[n] else n !in m'
  }

  /** The weights are packed from what they were, other tensors and the metadata are kept; metadata that was
      missing is {"format": "pt"} once something was packed. */
  ghost predicate ShardAfter(job: Job, c: Content, c': Content)
    requires c.ShardFile?
  {
    && c'.ShardFile? && TensorsAfter(Bases(job), WidthFor(job), c.tensors, c'.tensors)
    && (c.meta != map[] ==> c'.meta == c.meta)
    && (c.meta == map[] ==> c'.meta == if HasDense(job, c) then map["format" := "pt"] else map[])
  }

  ghost predicate TensorsAfter(bases: seq<string>, bits: nat, ts: Tensors, ts': Tensors)
    requires 2 <= bits
  {
    && AllPacked(ts', bases)
    && (forall b :: b in bases ==> PackedFrom(ts, ts', b, bits))
    && (forall n: TensorName :: n.base !in bases ==> SameEntry(ts, ts', n))
  }

  lemma TensorsAre(bases: seq<string>, bits: nat, checked: bool, ts: Tensors)
    requires 2 <= bits && PackAll(ts, bases, bits, checked).Some?
    ensures TensorsAfter(bases, bits, ts, PackAll(ts, bases, bits, checked).value)
  {
    PackAllHolds(ts, bases, bits, checked);
    PackAllWrites(ts, bases, bits, checked);
  }

  predicate HasDense(job: Job, c: Content)
    requires c.ShardFile?
  {
    exists b :: b in Bases(job) && WeightName(b) in c.tensors
  }

  lemma IndexIs(job: Job, shard: string, c: Content)
    requires c.IndexFile?
    ensures IndexEdit(job, shard)(c).Put? && IndexAfter(job, shard, c, IndexEdit(job, shard)(c).content)
  {
    IndexAllHolds(c.weightMap, Bases(job), shard);
  }

  lemma ShardIs(job: Job, c: Content)
    requires ShardEdit(job)(c) != Refuse
    ensures c.ShardFile?
    ensures ShardAfter(job, c, if ShardEdit(job)(c).Put? then ShardEdit(job)(c).content else c)
  {
    var ts := c.tensors;
    TensorsAre(Bases(job), Bits(job), !job.MtpJob?, ts);
    if !HasDense(job, c) {
      NothingToPack(ts, Bases(job), Bits(job), !job.MtpJob?);
    }
  }

  // ---- the whole script

  /** Every other file of any directory is as it was, and none appears. */
  ghost predicate OthersKept(live: Live, l: Live, shard: string) {
    forall n: Name :: n.File? && n != ShardName(shard) && n != CONFIG && n != INDEX ==>
      if n in live then n in l && l[n] == live[n] else n !in l
  }

  /** The files that a script starts from and what it leaves of them. */
  ghost predicate Achieved(job: Job, shard: string, live: Live, l: Live) {
    && CONFIG in live && LoadConfig(live[CONFIG]).Some? && CONFIG in l && ConfigAfter(job, live[CONFIG], l[CONFIG])
    && INDEX in live && live[INDEX].IndexFile? && INDEX in l && IndexAfter(job, shard, live[INDEX], l[INDEX])
    && ShardName(shard) in live && live[ShardName(shard)].ShardFile?
    && ShardName(shard) in l && ShardAfter(job, live[ShardName(shard)], l[ShardName(shard)])
    && OthersKept(live, l, shard)
  }

  lemma EditedFile(n: Name, keep: Keep, f: Content -> Edit, live: Live, m: Name)
    requires n.File? && n in live && f(live[n]) != Refuse && m.File?
    ensures Editing(n, keep, f)(live).Some?
    ensures var l := Apply(live, Editing(n, keep, f)(live).value);
            if m == n then n in l && l[n] == (if f(live[n]).Put? then f(live[n]).content else live[n])
            else m in l <==> m in live
    ensures var l := Apply(live, Editing(n, keep, f)(live).value);
            m != n && m in live ==> l[m] == live[m]
  {
    if m != n {
      EditingKeeps(n, keep, f, live, m);
    } else {
      EditedTo(n, keep, f, live);
    }
  }

  lemma EditedTo(n: Name, keep: Keep, f: Content -> Edit, live: Live)
    requires n.File? && n in live && f(live[n]) != Refuse
    ensures Editing(n, keep, f)(live).Some?
    ensures var l := Apply(live, Editing(n, keep, f)(live).value);
            n in l && l[n] == (if f(live[n]).Put? then f(live[n]).content else live[n])
  {
    if f(live[n]).Put? {
      var c := f(live[n]).content;
      var kept := KeepFirst(live, n, keep);
      ApplyAppend(live, kept, [Publish(n, c)]);
      ApplySingle(Apply(live, kept), Publish(n, c));
    }
  }

  /** The file m after the three edits of a script. */
  lemma AfterFile(job: Job, live: Live, shard: string, m: Name)
    requires Ready(job, live) && Opening(job, live) == Some(shard) && m.File?
    ensures ShardName(shard) in live && ShardName(shard) != CONFIG && ShardName(shard) != INDEX
    ensures ShardEdit(job)(live[ShardName(shard)]) != Refuse
    ensures m in After(job, live) <==> m in live
    ensures m != ShardName(shard) && m != CONFIG && m != INDEX && m in live ==> After(job, live)[m] == live[m]
    ensures m == CONFIG ==> After(job, live)[m] == ConfigEdit(job)(live[CONFIG]).content
    ensures m == INDEX ==> After(job, live)[m] == IndexEdit(job, shard)(live[INDEX]).content
    ensures m == ShardName(shard) ==>
      After(job, live)[m] == if ShardEdit(job)(live[m]).Put? then ShardEdit(job)(live[m]).content else live[m]
  {
    var n := ShardName(shard);
    var _ := ReadyParts(job, live);
    var _, a, b, c := PlanParts(job, live);
    var l := Apply(live, a);
    var l' := Apply(l, b);
    ApplyAppend(live, a, b + c);
    ApplyAppend(l, b, c);
    EditedFile(n, ShardKeep(job), ShardEdit(job), live, m);
    EditedFile(CONFIG, JsonKeep(job), ConfigEdit(job), l, m);
    EditedFile(INDEX, JsonKeep(job), IndexEdit(job, shard), l', m);
  }

  /** What a completed script leaves in the shard, in config.json, in the index and elsewhere. */
  lemma ScriptAchieves(job: Job, live: Live) returns (shard: string)
    requires Ready(job, live)
    ensures Opening(job, live) == Some(shard) && Achieved(job, shard, live, After(job, live))
  {
    shard := Opening(job, live).value;
    AfterFile(job, live, shard, CONFIG);
    AfterFile(job, live, shard, INDEX);
    AfterFile(job, live, shard, ShardName(shard));
    ConfigIs(job, live[CONFIG]);
    IndexIs(job, shard, live[INDEX]);
    ShardIs(job, live[ShardName(shard)]);
    forall n: Name | n.File? && n != ShardName(shard) && n != CONFIG && n != INDEX
      ensures if n in live then n in After(job, live) && After(job, live)[n] == live[n] else n !in After(job, live)
    {
      AfterFile(job, live, shard, n);
    }
  }

  // ---- no packed weight is ignored

  ghost predicate JsonLoads(live: Live) {
    CONFIG in live && LoadConfig(live[CONFIG]).Some? && INDEX in live && live[INDEX].IndexFile?
  }

  predicate NamesPacked(wm: WeightMap, base: string) {
    TensorName(base, WeightPacked) in wm
  }

  /** The index names a weight of the job packed. */
  ghost predicate AnyPacked(job: Job, live: Live)
    requires INDEX in live && live[INDEX].IndexFile?
  {
    exists b :: b in Bases(job) && NamesPacked(live[INDEX].weightMap, b)
  }

  /** No weight of the job that the index names packed is on config.json's ignore list, where the reader
      would take it for bf16. */
  ghost predicate NotIgnored(job: Job, live: Live) {
    && JsonLoads(live)
    && forall b :: b in Bases(job) && NamesPacked(live[INDEX].weightMap, b) ==>
         b !in LoadConfig(live[CONFIG]).value.ignore.value
  }

  lemma BodyLeavesIndex(live: Live, body: seq<Action>, last: Action, i: nat)
    requires INDEX in live && live[INDEX].IndexFile? && i <= |body| && forall x :: x in body ==> !Touches(x, INDEX)
    ensures INDEX in Stage(live, body + [last], i) && Stage(live, body + [last], i)[INDEX] == live[INDEX]
  {
    assert (body + [last])[..i] == body[..i];
    assert forall x :: x in body[..i] ==> x in body;
    ApplyKeeps(live, body[..i], INDEX);
  }

  lemma StageIndex(job: Job, live: Live, i: nat)
    requires Ready(job, live) && i <= |ScriptAt(job, live).value|
    ensures var l := Stage(live, ScriptAt(job, live).value, i);
            && INDEX in live && INDEX in l && l[INDEX].IndexFile?
            && (i < |ScriptAt(job, live).value| ==> l[INDEX] == live[INDEX])
  {
    if i < |ScriptAt(job, live).value| {
      var _, body, last := ScriptShape(job, live);
      BodyLeavesIndex(live, body, last, i);
    } else {
      assert ScriptAt(job, live).value[..i] == ScriptAt(job, live).value;
      AfterJson(job, live);
    }
  }

  lemma StageConfig(job: Job, live: Live, i: nat)
    requires Ready(job, live) && i <= |ScriptAt(job, live).value|
    ensures var l := Stage(live, ScriptAt(job, live).value, i);
            && CONFIG in live && CONFIG in l
            && (l[CONFIG] == live[CONFIG] || Put(l[CONFIG]) == ConfigEdit(job)(live[CONFIG]))
  {
    var full := ScriptAt(job, live).value;
    ConfigWrites(job, live);
    assert forall x :: x in full[..i] ==> x in full;
    ConfigStage(job, live, live, full[..i]);
  }

  /** The two files at a stage of a script: config.json old or new, the index new only at the end. */
  lemma StageJson(job: Job, live: Live, i: nat)
    requires Ready(job, live) && i <= |ScriptAt(job, live).value|
    ensures var l := Stage(live, ScriptAt(job, live).value, i);
            && JsonLoads(live) && JsonLoads(l)
            && (l[CONFIG] == live[CONFIG] || l[CONFIG] == ConfigEdit(job)(live[CONFIG]).content)
            && (i < |ScriptAt(job, live).value| ==> l[INDEX] == live[INDEX])
  {
    StageIndex(job, live, i);
    StageConfig(job, live, i);
    ConfigEditTwice(job, live[CONFIG]);
    ConfigIs(job, live[CONFIG]);
  }

  /** A script writes config.json in one form only. */
  ghost predicate WritesConfig(job: Job, live: Live, acts: seq<Action>)
    requires CONFIG in live
  {
    forall a :: a in acts && Touches(a, CONFIG) ==> a.Publish? && Put(a.content) == ConfigEdit(job)(live[CONFIG])
  }

  lemma ConfigWrites(job: Job, live: Live)
    requires Ready(job, live)
    ensures CONFIG in live && WritesConfig(job, live, ScriptAt(job, live).value)
  {
    var _ := ReadyParts(job, live);
    var shard, a, b, c := PlanParts(job, live);
    var l := Apply(live, a);
    EditingTouches(ShardName(shard), ShardKeep(job), ShardEdit(job), live, CONFIG);
    EditingEnds(CONFIG, JsonKeep(job), ConfigEdit(job), l);
    EditingTouches(INDEX, JsonKeep(job), IndexEdit(job, shard), Apply(l, b), CONFIG);
    assert b == b[..|b| - 1] + [b[|b| - 1]];
    assert forall x :: x in a + (b + c) ==> x in a || x in b || x in c;
  }

  lemma {:induction false} ConfigStage(job: Job, live: Live, l: Live, acts: seq<Action>)
    requires CONFIG in live && WritesConfig(job, live, acts) && CONFIG in l
    requires l[CONFIG] == live[CONFIG] || Put(l[CONFIG]) == ConfigEdit(job)(live[CONFIG])
    ensures CONFIG in Apply(l, acts)
    ensures Apply(l, acts)[CONFIG] == live[CONFIG] || Put(Apply(l, acts)[CONFIG]) == ConfigEdit(job)(live[CONFIG])
    decreases |acts|
  {
    if acts != [] {
      assert acts[0] in acts;
      ConfigStage(job, live, ApplyOne(l, acts[0]), acts[1..]);
    }
  }
}
