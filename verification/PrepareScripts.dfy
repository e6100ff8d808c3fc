/** The scripts themselves, as they run on the disk: dictionaries changed in place, then files
    written in order, each of them possibly the last before a kill. */
module PrepareScripts {
  import opened Contents
  import opened RoundToNearest
  import opened NearestCodes
  import opened QuantSchema
  import opened AtomicPublish
  import opened Resume
  import opened PrepareSteps

  datatype Outcome = Finished | Killed | Refused

  /** What a script does to the disk: nothing when its plan refuses, otherwise the plan's
      operations up to the kill. */
  ghost predicate Follows(plan: Option<seq<Action>>, d0: Dir, k0: nat, d1: Dir, k1: nat, r: Outcome) {
    match plan
    case None => r == Refused && d1 == d0 && k1 == k0
    case Some(acts) => r != Refused && Ran(d0, k0, Ops(acts), d1, k1, r == Finished)
  }

  /** Keep a backup once, then replace the file. */
  method Replace(disk: Disk, n: Name, keep: Keep, c: Content) returns (alive: bool)
    requires disk.Valid() && n.File? && n in disk.View().live
    modifies disk
    ensures disk.Valid()
    ensures Ran(old(disk.View()), old(disk.budget), Ops(KeepFirst(old(disk.View()).live, n, keep) + [Publish(n, c)]),
                disk.View(), disk.budget, alive)
  {
    ghost var d0, k0 := disk.View(), disk.budget;
    ghost var kept := KeepFirst(d0.live, n, keep);
    OpsAppend(kept, [Publish(n, c)]);
    OpsOfOne(Publish(n, c));
    alive := true;
    match keep {
      case Copy(suffix) =>
        alive := disk.KeepBackup(n, suffix);
      case Hardlink(suffix) =>
        if kept != [] { OpsOfOne(LinkTo(n, Backup(n.dir, n.name, suffix))); }
        alive := disk.LinkOnce(n, Backup(n.dir, n.name, suffix));
      case NoBackup =>
    }
    ghost var d1, k1 := disk.View(), disk.budget;
    assert Ran(d0, k0, Ops(kept), d1, k1, alive);
    if !alive {
      RanKilled(d0, k0, Ops(kept), d1, k1, OpsOf(Publish(n, c)));
      return;
    }
    alive := disk.WriteAndPublish(n, c);
    RanThen(d0, k0, Ops(kept), d1, k1, OpsOf(Publish(n, c)), disk.View(), disk.budget, alive);
  }

  /** The same as the edit that it carries out. */
  method CarryOut(disk: Disk, n: Name, keep: Keep, ghost f: Content -> Edit, c: Content) returns (r: Outcome)
    requires disk.Valid() && n.File? && n in disk.View().live && f(disk.View().live[n]) == Put(c)
    modifies disk
    ensures disk.Valid() && r != Refused
    ensures Follows(Editing(n, keep, f)(old(disk.View()).live), old(disk.View()), old(disk.budget),
                    disk.View(), disk.budget, r)
  {
    var alive := Replace(disk, n, keep, c);
    return if alive then Finished else Killed;
  }

  lemma OpsOfOne(a: Action)
    ensures Ops([a]) == OpsOf(a)
  {
    assert [a][1..] == [];
  }

  /** One more part of a plan: the parts before it ran in full. */
  lemma PartRan(d0: Dir, k0: nat, a: seq<Action>, d1: Dir, k1: nat, b: seq<Action>, d2: Dir, k2: nat, alive: bool)
    requires Ran(d0, k0, Ops(a), d1, k1, true) && Ran(d1, k1, Ops(b), d2, k2, alive)
    ensures Ran(d0, k0, Ops(a + b), d2, k2, alive)
  {
    OpsAppend(a, b);
    RanThen(d0, k0, Ops(a), d1, k1, Ops(b), d2, k2, alive);
  }

  lemma PartKilled(d0: Dir, k0: nat, a: seq<Action>, d1: Dir, k1: nat, b: seq<Action>)
    requires Ran(d0, k0, Ops(a), d1, k1, false)
    ensures Ran(d0, k0, Ops(a + b), d1, k1, false)
  {
    OpsAppend(a, b);
    RanKilled(d0, k0, Ops(a), d1, k1, Ops(b));
  }

  lemma RanAll(d0: Dir, k0: nat, a: seq<Action>, d1: Dir, k1: nat)
    requires Ran(d0, k0, Ops(a), d1, k1, true)
    ensures d1.live == Apply(d0.live, a)
  {
    ExecAll(d0, a);
  }

  /** config.json, then the index: how every script ends. */
  method WriteJson(disk: Disk, ghost job: Job, ghost shard: string, keep: Keep, config: Content, index: Content)
      returns (alive: bool)
    requires disk.Valid() && keep == JsonKeep(job)
    requires CONFIG in disk.View().live && ConfigEdit(job)(disk.View().live[CONFIG]) == Put(config)
    requires INDEX in disk.View().live && IndexEdit(job, shard)(disk.View().live[INDEX]) == Put(index)
    modifies disk
    ensures disk.Valid()
    ensures Then(ConfigPart(job), IndexPart(job, shard))(old(disk.View()).live).Some?
    ensures Ran(old(disk.View()), old(disk.budget),
                Ops(Then(ConfigPart(job), IndexPart(job, shard))(old(disk.View()).live).value),
                disk.View(), disk.budget, alive)
  {
    ghost var d0, k0 := disk.View(), disk.budget;
    ghost var b, c := JsonActions(job, shard, d0.live, keep, config, index);
    alive := Replace(disk, CONFIG, keep, config);
    ghost var d1, k1 := disk.View(), disk.budget;
    if !alive {
      PartKilled(d0, k0, b, d1, k1, c);
      return;
    }
    RanAll(d0, k0, b, d1, k1);
    alive := Replace(disk, INDEX, keep, index);
    PartRan(d0, k0, b, d1, k1, c, disk.View(), disk.budget, alive);
  }

  /** The actions of the two JSON files, one after the other. */
  lemma JsonActions(job: Job, shard: string, live: Live, keep: Keep, config: Content, index: Content)
      returns (b: seq<Action>, c: seq<Action>)
    requires keep == JsonKeep(job)
    requires CONFIG in live && ConfigEdit(job)(live[CONFIG]) == Put(config)
    requires INDEX in live && IndexEdit(job, shard)(live[INDEX]) == Put(index)
    ensures b == KeepFirst(live, CONFIG, keep) + [Publish(CONFIG, config)]
    ensures INDEX in Apply(live, b) && c == KeepFirst(Apply(live, b), INDEX, keep) + [Publish(INDEX, index)]
    ensures Then(ConfigPart(job), IndexPart(job, shard))(live) == Some(b + c)
  {
    b := KeepFirst(live, CONFIG, keep) + [Publish(CONFIG, config)];
    assert ConfigPart(job)(live) == Some(b);
    EditingKeeps(CONFIG, keep, ConfigEdit(job), live, INDEX);
    var l := Apply(live, b);
    c := KeepFirst(l, INDEX, keep) + [Publish(INDEX, index)];
    assert IndexPart(job, shard)(l) == Some(c);
  }

  /** One bf16 weight popped from the dictionary and its packed entries put in. */
  method PackInto(ts: Tensors, base: string, bits: nat, checked: bool) returns (r: Option<Tensors>)
    requires 2 <= bits && WeightName(base) in ts
    ensures r == PackOne(ts, base, bits, checked)
  {
    var w := ts[WeightName(base)];
    if !w.Dense? || !Packable(w.rows) {
      return None;
    }
    var codes, scales, num, den := PackRows(w.rows, bits);
    if checked && !Accurate(num, den) {
      return None;
    }
    var packed := map[TensorName(base, WeightPacked) := Codes(codes),
                      TensorName(base, WeightScale) := Scales(scales),
                      TensorName(base, WeightShape) := Shape(|w.rows|, |w.rows[0]|)];
    return Some((ts - {WeightName(base)}) + packed);
  }

  /** pack() with the default number of rows at a time. */
  method PackRows(w: seq<Row>, bits: nat)
      returns (codes: seq<seq<int>>, scales: seq<Row>, num: real, den: real)
    requires Matrix(w) && 2 <= bits
    ensures codes == MatrixCodes(w, QMax(bits), PACK_FLOOR) && scales == MatrixScales(w, QMax(bits), PACK_FLOOR)
    ensures num == SquareError(w, QMax(bits), PACK_FLOOR) && den == SquareNorm(w)
  {
    codes, scales, num, den := Pack(w, bits, 16384);
  }

  lemma OneBase(ts: Tensors, base: string, bits: nat, checked: bool)
    requires 2 <= bits
    ensures PackAll(ts, [base], bits, checked) == PackOne(ts, base, bits, checked)
  {
    assert [base][1..] == [];
  }

  lemma OneIndexed(wm: WeightMap, base: string, shard: string)
    ensures IndexAll(wm, [base], shard) == IndexOne(wm, base, shard)
  {
    assert [base][1..] == [];
  }

  /** quant_lm_head.py and quant_embed.py: pack one weight of its shard, unless a killed run did. */
  method PackHead(disk: Disk, job: Job, base: string, shard: string, keep: Keep) returns (r: Outcome)
    requires disk.Valid() && Bases(job) == [base] && !job.MtpJob? && keep == ShardKeep(job)
    modifies disk
    ensures disk.Valid()
    ensures Follows(ShardPart(job, shard)(old(disk.View()).live), old(disk.View()), old(disk.budget),
                    disk.View(), disk.budget, r)
  {
    ghost var d0 := disk.View();
    var file := disk.Read(ShardName(shard));
    if file.None? || !file.value.ShardFile? {
      return Refused;
    }
    var tensors, meta := file.value.tensors, file.value.meta;
    OneBase(tensors, base, Bits(job), true);
    var already := PackedAlready(tensors, base);
    if already.None? {
      return Refused;
    }
    assert base in Bases(job);
    if already.value {
      assert ShardEdit(job)(file.value) == Leave;
      return Finished;
    }
    var packed := PackInto(tensors, base, Bits(job), true);
    if packed.None? {
      return Refused;
    }
    assert ShardEdit(job)(file.value) == Put(ShardFile(packed.value, OrPt(meta)));
    r := CarryOut(disk, ShardName(shard), keep, ShardEdit(job), ShardFile(packed.value, OrPt(meta)));
  }

  /** The parts of a script: its shard, then config.json and the index as they were read. */
  lemma ScriptParts(job: Job, live: Live, shard: string) returns (a: seq<Action>, bc: seq<Action>)
    requires Opening(job, live) == Some(shard) && ShardPart(job, shard)(live).Some?
    ensures ShardPart(job, shard)(live) == Some(a)
    ensures var l := Apply(live, a);
            && CONFIG in l && l[CONFIG] == live[CONFIG] && INDEX in l && l[INDEX] == live[INDEX]
            && Then(ConfigPart(job), IndexPart(job, shard))(l) == Some(bc)
    ensures ScriptAt(job, live) == Some(a + bc)
  {
    ThenRuns(ShardPart(job, shard), Then(ConfigPart(job), IndexPart(job, shard)), live);
    var _ := ReadyParts(job, live);
    var _, x, b, c := PlanParts(job, live);
    a, bc := x, b + c;
    var l := Apply(live, a);
    EditingKeeps(CONFIG, JsonKeep(job), ConfigEdit(job), l, INDEX);
    EditingKeeps(ShardName(shard), ShardKeep(job), ShardEdit(job), live, INDEX);
  }

  /** The end of a script whose shard is done: both JSON files. */
  method FinishJson(disk: Disk, ghost job: Job, ghost shard: string, keep: Keep, config: Content, index: Content,
                    ghost d0: Dir, ghost k0: nat) returns (r: Outcome)
    requires disk.Valid() && keep == JsonKeep(job)
    requires Opening(job, d0.live) == Some(shard) && ShardPart(job, shard)(d0.live).Some?
    requires Ran(d0, k0, Ops(ShardPart(job, shard)(d0.live).value), disk.View(), disk.budget, true)
    requires ConfigEdit(job)(d0.live[CONFIG]) == Put(config)
    requires IndexEdit(job, shard)(d0.live[INDEX]) == Put(index)
    modifies disk
    ensures disk.Valid()
    ensures Follows(ScriptAt(job, d0.live), d0, k0, disk.View(), disk.budget, r)
  {
    ghost var d1, k1 := disk.View(), disk.budget;
    ghost var a, bc := ScriptParts(job, d0.live, shard);
    RanAll(d0, k0, a, d1, k1);
    var alive := WriteJson(disk, job, shard, keep, config, index);
    PartRan(d0, k0, a, d1, k1, bc, disk.View(), disk.budget, alive);
    return if alive then Finished else Killed;
  }

  /** A script that stopped in its shard part, refused or killed. */
  lemma StoppedInShard(job: Job, shard: string, d0: Dir, k0: nat, d1: Dir, k1: nat, r: Outcome)
    requires Opening(job, d0.live) == Some(shard) && r != Finished
    requires Follows(ShardPart(job, shard)(d0.live), d0, k0, d1, k1, r)
    ensures Follows(ScriptAt(job, d0.live), d0, k0, d1, k1, r)
  {
    if r == Killed {
      var a, bc := ScriptParts(job, d0.live, shard);
      PartKilled(d0, k0, a, d1, k1, bc);
    }
  }

  /** load_config() and the index, read before any write. */
  datatype Model = Model(qc: Quantization, rest: string, wm: WeightMap, indexRest: string)

  predicate HasModel(live: Live) {
    CONFIG in live && LoadConfig(live[CONFIG]).Some? && INDEX in live && live[INDEX].IndexFile?
  }

  predicate ReadAs(m: Model, live: Live) {
    && CONFIG in live && LoadConfig(live[CONFIG]) == Some(m.qc) && live[CONFIG].rest == m.rest
    && INDEX in live && live[INDEX] == IndexFile(m.wm, m.indexRest)
  }

  method ReadModel(disk: Disk) returns (m: Option<Model>)
    requires disk.Valid()
    ensures m.None? ==> !HasModel(disk.View().live)
    ensures m.Some? ==> ReadAs(m.value, disk.View().live)
  {
    var c := disk.Read(CONFIG);
    if c.None? || LoadConfig(c.value).None? {
      return None;
    }
    var idx := disk.Read(INDEX);
    if idx.None? || !idx.value.IndexFile? {
      return None;
    }
    return Some(Model(LoadConfig(c.value).value, c.value.rest, idx.value.weightMap, idx.value.rest));
  }

  lemma NoScript(job: Job, live: Live)
    requires !HasModel(live) || (HasModel(live) && FindShard(job, live[INDEX].weightMap).None?)
    ensures ScriptAt(job, live).None?
  {
  }

  lemma OneShard(job: Job, base: string, wm: WeightMap)
    requires Bases(job) == [base]
    ensures FindShard(job, wm) == if WeightName(base) in wm then Some(wm[WeightName(base)]) else None
  {
    assert Bases(job)[0] == base;
  }

  /** lm_head off the ignore list, the missing MTP linears on it, and the group for lm_head. */
  method HeadConfig(q: Quantization) returns (q': Quantization)
    requires Extendable(q)
    ensures q' == Reconfigure(LmHeadJob, q)
  {
    var ignore := Without(q.ignore.value, ["lm_head"]);
    ignore := ignore + Without(MTP_LINEARS, ignore);
    q' := CloneGroup(q.(ignore := Some(ignore)), LmHead, 8);
  }

  /** prepare/quant_lm_head.py */
  method QuantLmHead(disk: Disk) returns (r: Outcome)
    requires disk.Valid()
    modifies disk
    ensures disk.Valid()
    ensures Follows(ScriptAt(LmHeadJob, old(disk.View()).live), old(disk.View()), old(disk.budget),
                    disk.View(), disk.budget, r)
  {
    ghost var d0, k0 := disk.View(), disk.budget;
    var m := ReadModel(disk);
    if m.None? {
      NoScript(LmHeadJob, d0.live);
      return Refused;
    }
    var qc, wm := m.value.qc, m.value.wm;
    OneShard(LmHeadJob, "lm_head", wm);
    if WeightName("lm_head") !in wm {
      NoScript(LmHeadJob, d0.live);
      return Refused;
    }
    var shard := wm[WeightName("lm_head")];
    r := PackHead(disk, LmHeadJob, "lm_head", shard, Copy(".bak"));
    if r != Finished {
      StoppedInShard(LmHeadJob, shard, d0, k0, disk.View(), disk.budget, r);
      return;
    }
    qc := HeadConfig(qc);
    OneIndexed(wm, "lm_head", shard);
    wm := IndexOne(wm, "lm_head", shard);
    EditsOf(LmHeadJob, d0.live, shard, m.value);
    r := FinishJson(disk, LmHeadJob, shard, Copy(".bak-quant"), ConfigFile(Some(qc), m.value.rest),
                    IndexFile(wm, m.value.indexRest), d0, k0);
  }

  lemma EmbedConfig(embed: string, q: Quantization)
    requires Extendable(q)
    ensures Reconfigure(EmbedJob(embed), q) == CloneGroup(q, Embed, 8)
  {
    assert q.(ignore := Some(q.ignore.value)) == q;
  }

  /** prepare/quant_embed.py, for the module whose weight the index scan found. */
  method QuantEmbed(disk: Disk, embed: string) returns (r: Outcome)
    requires disk.Valid()
    modifies disk
    ensures disk.Valid()
    ensures Follows(ScriptAt(EmbedJob(embed), old(disk.View()).live), old(disk.View()), old(disk.budget),
                    disk.View(), disk.budget, r)
  {
    ghost var d0, k0 := disk.View(), disk.budget;
    var m := ReadModel(disk);
    if m.None? {
      NoScript(EmbedJob(embed), d0.live);
      return Refused;
    }
    var qc, wm := m.value.qc, m.value.wm;
    OneShard(EmbedJob(embed), embed, wm);
    if WeightName(embed) !in wm {
      NoScript(EmbedJob(embed), d0.live);
      return Refused;
    }
    var shard := wm[WeightName(embed)];
    r := PackHead(disk, EmbedJob(embed), embed, shard, Copy(".bak_embed"));
    if r != Finished {
      StoppedInShard(EmbedJob(embed), shard, d0, k0, disk.View(), disk.budget, r);
      return;
    }
    qc := CloneGroup(qc, Embed, 8);
    EmbedConfig(embed, m.value.qc);
    OneIndexed(wm, embed, shard);
    wm := IndexOne(wm, embed, shard);
    EditsOf(EmbedJob(embed), d0.live, shard, m.value);
    r := FinishJson(disk, EmbedJob(embed), shard, NoBackup, ConfigFile(Some(qc), m.value.rest),
                    IndexFile(wm, m.value.indexRest), d0, k0);
  }

  /** One weight: packed already, packed now, or in neither form. */
  method PackNext(ts: Tensors, base: string, bits: nat, checked: bool) returns (r: Option<Tensors>, packed: bool)
    requires 2 <= bits
    ensures r == PackOne(ts, base, bits, checked)
    ensures r.Some? ==> (packed <==> WeightName(base) in ts) && (!packed ==> r.value == ts)
  {
    var already := PackedAlready(ts, base);
    if already.None? {
      return None, false;
    }
    packed := !already.value;
    if already.value {
      return Some(ts), false;
    }
    r := PackInto(ts, base, bits, checked);
  }

  /** The loop over the weights of a shard: None when one of them is in neither form. */
  method PackLinears(ts: Tensors, linears: seq<string>, bits: nat, checked: bool)
      returns (r: Option<Tensors>, changed: bool)
    requires 2 <= bits
    ensures r == PackAll(ts, linears, bits, checked)
    ensures r.Some? ==> (changed <==> SomeDense(ts, linears))
  {
    var tensors := ts;
    changed := false;
    var i := 0;
    while i < |linears|
      invariant 0 <= i <= |linears|
      invariant PackAll(ts, linears, bits, checked) == PackAll(tensors, linears[i..], bits, checked)
      invariant if changed then SomeDense(ts, linears) else tensors == ts && NoneDense(ts, linears, i)
    {
      PackAllNext(tensors, linears, i, bits, checked);
      DenseNext(ts, linears, i);
      var next, packed := PackNext(tensors, linears[i], bits, checked);
      if next.None? {
        return None, changed;
      }
      tensors, changed := next.value, changed || packed;
      i := i + 1;
    }
    assert linears[i..] == [];
    NoneIsNotSome(ts, linears);
    return Some(tensors), changed;
  }

  predicate SomeDense(ts: Tensors, bases: seq<string>) {
    exists b :: b in bases && WeightName(b) in ts
  }

  /** None of the first i weights is still in bf16. */
  predicate NoneDense(ts: Tensors, bases: seq<string>, i: nat)
    requires i <= |bases|
  {
    forall k :: 0 <= k < i ==> WeightName(bases[k]) !in ts
  }

  lemma DenseNext(ts: Tensors, bases: seq<string>, i: nat)
    requires i < |bases|
    ensures WeightName(bases[i]) in ts ==> SomeDense(ts, bases)
    ensures NoneDense(ts, bases, i) && WeightName(bases[i]) !in ts ==> NoneDense(ts, bases, i + 1)
  {
    assert bases[i] in bases;
  }

  lemma NoneIsNotSome(ts: Tensors, bases: seq<string>)
    ensures NoneDense(ts, bases, |bases|) ==> !SomeDense(ts, bases)
  {
  }

  lemma PackAllNext(ts: Tensors, bases: seq<string>, i: nat, bits: nat, checked: bool)
    requires 2 <= bits && i < |bases|
    ensures bases[i] in bases
    ensures var next := PackOne(ts, bases[i], bits, checked);
            PackAll(ts, bases[i..], bits, checked)
            == if next.None? then None else PackAll(next.value, bases[i + 1..], bits, checked)
  {
    assert bases[i..][0] == bases[i] && bases[i..][1..] == bases[i + 1..];
  }

  /** wm.pop and the three new entries, for every linear. */
  method IndexLinears(wm: WeightMap, linears: seq<string>, shard: string) returns (wm': WeightMap)
    ensures wm' == IndexAll(wm, linears, shard)
  {
    wm' := wm;
    var i := 0;
    while i < |linears|
      invariant 0 <= i <= |linears|
      invariant IndexAll(wm, linears, shard) == IndexAll(wm', linears[i..], shard)
    {
      assert linears[i..][0] == linears[i] && linears[i..][1..] == linears[i + 1..];
      wm' := IndexOne(wm', linears[i], shard);
      i := i + 1;
    }
    assert linears[i..] == [];
  }

  method PackMtp(disk: Disk, job: Job, shard: string, keep: Keep) returns (r: Outcome)
    requires disk.Valid() && job.MtpJob?
    modifies disk
    ensures disk.Valid()
    ensures Follows(Editing(ShardName(shard), keep, ShardEdit(job))(old(disk.View()).live),
                    old(disk.View()), old(disk.budget), disk.View(), disk.budget, r)
  {
    var file := disk.Read(ShardName(shard));
    if file.None? {
      return Refused;
    }
    var edit := PackShard(job, file.value);
    match edit {
      case Refuse => return Refused;
      case Leave => return Finished;
      case Put(c) => r := CarryOut(disk, ShardName(shard), keep, ShardEdit(job), c);
    }
  }

  /** quant_mtp.py between reading its shard and writing it. */
  method PackShard(job: Job, c: Content) returns (e: Edit)
    requires job.MtpJob?
    ensures e == ShardEdit(job)(c)
  {
    if !c.ShardFile? {
      return Refuse;
    }
    var tensors, changed := PackLinears(c.tensors, Linears(job.keepFc), Bits(job), false);
    MtpEdits(job, c);
    if tensors.None? {
      return Refuse;
    }
    return if changed then Put(ShardFile(tensors.value, OrPt(c.meta))) else Leave;
  }

  lemma MtpEdits(job: Job, c: Content)
    requires c.ShardFile? && job.MtpJob?
    ensures var linears := Linears(job.keepFc);
            var packed := PackAll(c.tensors, linears, Bits(job), false);
            ShardEdit(job)(c)
            == if packed.None? then Refuse
               else if exists b :: b in linears && WeightName(b) in c.tensors
               then Put(ShardFile(packed.value, OrPt(c.meta)))
               else Leave
  {
  }

  /** prepare/quant_mtp.py */
  method QuantMtp(disk: Disk, fourBits: bool, keepFc: bool) returns (r: Outcome)
    requires disk.Valid()
    modifies disk
    ensures disk.Valid()
    ensures Follows(ScriptAt(MtpJob(fourBits, keepFc), old(disk.View()).live), old(disk.View()), old(disk.budget),
                    disk.View(), disk.budget, r)
  {
    ghost var d0, k0 := disk.View(), disk.budget;
    var job := MtpJob(fourBits, keepFc);
    var m := ReadModel(disk);
    if m.None? {
      NoScript(job, d0.live);
      return Refused;
    }
    var qc, wm := m.value.qc, m.value.wm;
    var found := FindShard(job, wm);
    if found.None? {
      NoScript(job, d0.live);
      return Refused;
    }
    var shard := found.value;
    r := PackMtp(disk, job, shard, Copy(".bak-mtp"));
    if r != Finished {
      StoppedInShard(job, shard, d0, k0, disk.View(), disk.budget, r);
      return;
    }
    r := MtpJson(disk, job, m.value, shard, d0, k0);
  }

  method MtpJson(disk: Disk, job: Job, m: Model, shard: string, ghost d0: Dir, ghost k0: nat) returns (r: Outcome)
    requires disk.Valid() && job.MtpJob?
    requires Opening(job, d0.live) == Some(shard) && ShardPart(job, shard)(d0.live).Some?
    requires Ran(d0, k0, Ops(ShardPart(job, shard)(d0.live).value), disk.View(), disk.budget, true)
    requires LoadConfig(d0.live[CONFIG]) == Some(m.qc) && d0.live[CONFIG].rest == m.rest
    requires d0.live[INDEX] == IndexFile(m.wm, m.indexRest)
    modifies disk
    ensures disk.Valid()
    ensures Follows(ScriptAt(job, d0.live), d0, k0, disk.View(), disk.budget, r)
  {
    var linears := Linears(job.keepFc);
    var qc := MtpConfig(job, m.qc);
    var wm := IndexLinears(m.wm, linears, shard);
    EditsOf(job, d0.live, shard, m);
    r := FinishJson(disk, job, shard, Copy(".bak-mtp"), ConfigFile(Some(qc), m.rest),
                    IndexFile(wm, m.indexRest), d0, k0);
  }

  method MtpConfig(job: Job, q: Quantization) returns (q': Quantization)
    requires job.MtpJob? && Extendable(q)
    ensures q' == Reconfigure(job, q)
  {
    q' := q.(ignore := Some(Without(q.ignore.value, Linears(job.keepFc))));
    q' := CloneGroup(q', if job.keepFc then MtpKeepFc else Mtp, Bits(job));
  }

  /** The two JSON edits in terms of what was read at the start. */
  lemma EditsOf(job: Job, live: Live, shard: string, m: Model)
    requires CONFIG in live && LoadConfig(live[CONFIG]) == Some(m.qc) && live[CONFIG].rest == m.rest
    requires INDEX in live && live[INDEX] == IndexFile(m.wm, m.indexRest)
    ensures ConfigEdit(job)(live[CONFIG]) == Put(ConfigFile(Some(Reconfigure(job, m.qc)), m.rest))
    ensures IndexEdit(job, shard)(live[INDEX]) == Put(IndexFile(IndexAll(m.wm, Bases(job), shard), m.indexRest))
  {
  }
}
