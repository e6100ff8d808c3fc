/** quant_heads_stream.py as it runs on the disk. */
module StreamRun {
  import opened Contents
  import opened QuantSchema
  import opened AtomicPublish
  import opened Resume
  import opened PrepareSteps
  import opened PrepareScripts
  import opened StreamHeads

  // ---- where an uncut run exits with an error

  function Exits(p: Plan): Live -> bool {
    (live: Live) => p(live).None?
  }

  /** p exits, or what follows it does. */
  function ThenExits(p: Plan, rest: Live -> bool): Live -> bool {
    (live: Live) => p(live).None? || rest(Apply(live, p(live).value))
  }

  function JsonExits(args: Args, s: Shards): Live -> bool {
    ThenExits(Editing(CONFIG, Copy(".bak-quant"), StreamConfigEdit(args)),
              Exits(Editing(INDEX, Copy(".bak-quant"), StreamIndexEdit(args, s))))
  }

  function TailExits(args: Args, s: Shards): Live -> bool {
    ThenExits(MtpPart(args, s.mtp), JsonExits(args, s))
  }

  function AfterHeadsExits(args: Args, h: Heads, wm: WeightMap): Live -> bool {
    match FindMtp(args, wm)
    case None => ((live: Live) => true)
    case Some(mtp) => TailExits(args, Shards(h.head, h.embed, mtp))
  }

  function HeadsThenExits(args: Args, h: Heads, rest: Live -> bool): Live -> bool {
    if h.head == h.embed
    then ThenExits(HeadPart(h.head, ["lm_head", args.embed]), rest)
    else ThenExits(HeadPart(h.head, ["lm_head"]), ThenExits(HeadPart(h.embed, [args.embed]), rest))
  }

  /** The script, run without a kill, ends with an error. */
  predicate StreamExits(args: Args, live: Live) {
    HasModel(live) && FindHeads(args, live[INDEX].weightMap).Some? ==>
      var h := FindHeads(args, live[INDEX].weightMap).value;
      HeadsThenExits(args, h, AfterHeadsExits(args, h, live[INDEX].weightMap))(live)
  }

  /** The plan up to the kill; a part that exits leaves the parts before it done. */
  ghost predicate Obeys(plan: Option<seq<Action>>, exits: bool, d0: Dir, k0: nat, d1: Dir, k1: nat, r: Outcome) {
    match plan
    case None => exits && r == Refused && d1 == d0 && k1 == k0
    case Some(acts) => Ran(d0, k0, Ops(acts), d1, k1, r != Killed) && (r != Killed ==> (r == Refused <==> exits))
  }

  lemma FollowedObeys(plan: Option<seq<Action>>, exits: bool, d0: Dir, k0: nat, d1: Dir, k1: nat, r: Outcome)
    requires Follows(plan, d0, k0, d1, k1, r) && (exits <==> plan.None?)
    ensures Obeys(plan, exits, d0, k0, d1, k1, r)
  {
  }

  /** A part that finished, then a plan that was obeyed. */
  lemma ObeysThen(p: Plan, q: Plan, e: Live -> bool, d0: Dir, k0: nat, d1: Dir, k1: nat, d2: Dir, k2: nat, r: Outcome)
    requires Follows(p(d0.live), d0, k0, d1, k1, Finished) && Obeys(q(d1.live), e(d1.live), d1, k1, d2, k2, r)
    ensures Obeys(Then(p, q)(d0.live), ThenExits(p, e)(d0.live), d0, k0, d2, k2, r)
  {
    var a := p(d0.live).value;
    RanAll(d0, k0, a, d1, k1);
    if q(d1.live).Some? {
      PartRan(d0, k0, a, d1, k1, q(d1.live).value, d2, k2, r != Killed);
    }
  }

  /** A part that did not finish ends the script. */
  lemma ObeysStopped(p: Plan, q: Plan, e: Live -> bool, d0: Dir, k0: nat, d1: Dir, k1: nat, r: Outcome)
    requires Follows(p(d0.live), d0, k0, d1, k1, r) && r != Finished
    ensures Obeys(Then(p, q)(d0.live), ThenExits(p, e)(d0.live), d0, k0, d1, k1, r)
  {
    if p(d0.live).Some? {
      var a := p(d0.live).value;
      if q(Apply(d0.live, a)).Some? {
        PartKilled(d0, k0, a, d1, k1, q(Apply(d0.live, a)).value);
      }
    }
  }

  /** The pass over one shard: every weight of `bases` still in bf16 is packed, the shard is kept
      as a hardlink and the rewritten one published over it. */
  method HeadPass(disk: Disk, shard: string, bases: seq<string>) returns (r: Outcome)
    requires disk.Valid()
    modifies disk
    ensures disk.Valid()
    ensures Follows(HeadPart(shard, bases)(old(disk.View()).live), old(disk.View()), old(disk.budget),
                    disk.View(), disk.budget, r)
  {
    var file := disk.Read(ShardName(shard));
    if file.None? || !file.value.ShardFile? {
      return Refused;
    }
    var tensors, changed := PackLinears(file.value.tensors, bases, 8, true);
    if tensors.None? {
      return Refused;
    }
    if !changed {
      assert HeadsEdit(bases)(file.value) == Leave;
      return Finished;
    }
    var c' := ShardFile(tensors.value, file.value.meta);
    assert HeadsEdit(bases)(file.value) == Put(c');
    r := CarryOut(disk, ShardName(shard), ORIGINAL, HeadsEdit(bases), c');
  }

  /** config.json and the index, from what was read before the first write. */
  method JsonPass(disk: Disk, args: Args, s: Shards, m: Model) returns (r: Outcome)
    requires disk.Valid()
    requires ReadAs(m, disk.View().live)
    modifies disk
    ensures disk.Valid()
    ensures Follows(JsonPart(args, s)(old(disk.View()).live), old(disk.View()), old(disk.budget),
                    disk.View(), disk.budget, r)
    ensures r != Refused
  {
    var q := StreamConfig(args, m.qc);
    var wm := StreamIndex(args, s, m.wm);
    JsonEdits(args, s, disk.View().live, m);
    r := TwoFiles(disk, StreamConfigEdit(args), ConfigFile(Some(q), m.rest),
                  StreamIndexEdit(args, s), IndexFile(wm, m.indexRest));
  }

  lemma JsonEdits(args: Args, s: Shards, live: Live, m: Model)
    requires ReadAs(m, live)
    ensures StreamConfigEdit(args)(live[CONFIG]) == Put(ConfigFile(Some(Configured(args, m.qc)), m.rest))
    ensures StreamIndexEdit(args, s)(live[INDEX]) == Put(IndexFile(Reindexed(args, s, m.wm), m.indexRest))
  {
  }

  method StreamConfig(args: Args, qc: Quantization) returns (q: Quantization)
    requires Extendable(qc)
    ensures q == Configured(args, qc)
  {
    q := qc.(ignore := Some(Without(qc.ignore.value, ["lm_head"] + Linears(args.keepFc))));
    q := CloneGroup(q, LmHead, 8);
    q := CloneGroup(q, Embed, 8);
    q := CloneGroup(q, PartOf(MtpOf(args)), Bits(MtpOf(args)));
  }

  method StreamIndex(args: Args, s: Shards, wm: WeightMap) returns (wm': WeightMap)
    ensures wm' == Reindexed(args, s, wm)
  {
    wm' := IndexLinears(wm, ["lm_head"], s.head);
    wm' := IndexLinears(wm', [args.embed], s.embed);
    wm' := IndexLinears(wm', Linears(args.keepFc), s.mtp);
  }

  method TwoFiles(disk: Disk, ghost f: Content -> Edit, config: Content, ghost g: Content -> Edit, index: Content)
      returns (r: Outcome)
    requires disk.Valid()
    requires CONFIG in disk.View().live && f(disk.View().live[CONFIG]) == Put(config)
    requires INDEX in disk.View().live && g(disk.View().live[INDEX]) == Put(index)
    modifies disk
    ensures disk.Valid()
    ensures Follows(Then(Editing(CONFIG, Copy(".bak-quant"), f),
                         Editing(INDEX, Copy(".bak-quant"), g))(old(disk.View()).live),
                    old(disk.View()), old(disk.budget), disk.View(), disk.budget, r)
    ensures r != Refused
  {
    ghost var d0, k0 := disk.View(), disk.budget;
    var keep := Copy(".bak-quant");
    ghost var a := Editing(CONFIG, keep, f)(d0.live).value;
    ghost var l := Apply(d0.live, a);
    EditingKeeps(CONFIG, keep, f, d0.live, INDEX);
    ghost var b := Editing(INDEX, keep, g)(l).value;
    var alive := Replace(disk, CONFIG, keep, config);
    ghost var d1, k1 := disk.View(), disk.budget;
    if !alive {
      PartKilled(d0, k0, a, d1, k1, b);
      return Killed;
    }
    RanAll(d0, k0, a, d1, k1);
    alive := Replace(disk, INDEX, keep, index);
    PartRan(d0, k0, a, d1, k1, b, disk.View(), disk.budget, alive);
    return if alive then Finished else Killed;
  }

  /** The files read first stay as they were read while shards are rewritten. */
  lemma ShardPassKeeps(n: Name, f: Content -> Edit, m: Model, d0: Dir, k0: nat, d1: Dir, k1: nat)
    requires n.File? && ReadAs(m, d0.live)
    requires Follows(Editing(n, ORIGINAL, f)(d0.live), d0, k0, d1, k1, Finished)
    requires forall c: Content :: !c.ShardFile? ==> f(c) == Refuse
    ensures ReadAs(m, d1.live)
  {
    RanAll(d0, k0, Editing(n, ORIGINAL, f)(d0.live).value, d1, k1);
    EditingKeeps(n, ORIGINAL, f, d0.live, CONFIG);
    EditingKeeps(n, ORIGINAL, f, d0.live, INDEX);
  }

  lemma JsonNeverExits(args: Args, s: Shards, live: Live)
    requires HasModel(live)
    ensures !JsonExits(args, s)(live) && JsonPart(args, s)(live).Some?
  {
    EditingKeeps(CONFIG, Copy(".bak-quant"), StreamConfigEdit(args), live, INDEX);
  }

  method TailPass(disk: Disk, args: Args, s: Shards, m: Model) returns (r: Outcome)
    requires disk.Valid() && ReadAs(m, disk.View().live)
    modifies disk
    ensures disk.Valid()
    ensures Obeys(Tail(args, s)(old(disk.View()).live), TailExits(args, s)(old(disk.View()).live),
                  old(disk.View()), old(disk.budget), disk.View(), disk.budget, r)
  {
    ghost var d0, k0 := disk.View(), disk.budget;
    ghost var p, q, e := MtpPart(args, s.mtp), JsonPart(args, s), JsonExits(args, s);
    r := PackMtp(disk, MtpOf(args), s.mtp, ORIGINAL);
    ghost var d1, k1 := disk.View(), disk.budget;
    if r != Finished {
      ObeysStopped(p, q, e, d0, k0, d1, k1, r);
      return;
    }
    ShardPassKeeps(ShardName(s.mtp), ShardEdit(MtpOf(args)), m, d0, k0, d1, k1);
    JsonNeverExits(args, s, d1.live);
    r := JsonPass(disk, args, s, m);
    FollowedObeys(q(d1.live), e(d1.live), d1, k1, disk.View(), disk.budget, r);
    ObeysThen(p, q, e, d0, k0, d1, k1, disk.View(), disk.budget, r);
  }

  /** The lookup of the MTP shard, in the index as it was read, and the rest. */
  method RestPass(disk: Disk, args: Args, h: Heads, m: Model) returns (r: Outcome)
    requires disk.Valid() && ReadAs(m, disk.View().live)
    modifies disk
    ensures disk.Valid()
    ensures Obeys(AfterHeads(args, h, m.wm)(old(disk.View()).live),
                  AfterHeadsExits(args, h, m.wm)(old(disk.View()).live),
                  old(disk.View()), old(disk.budget), disk.View(), disk.budget, r)
  {
    var mtp := FindMtp(args, m.wm);
    if mtp.None? {
      return Refused;
    }
    r := TailPass(disk, args, Shards(h.head, h.embed, mtp.value), m);
  }

  /** One head pass and what follows it. */
  method PassAndRest(disk: Disk, args: Args, h: Heads, m: Model, shard: string, bases: seq<string>) returns (r: Outcome)
    requires disk.Valid() && ReadAs(m, disk.View().live)
    modifies disk
    ensures disk.Valid()
    ensures Obeys(Then(HeadPart(shard, bases), AfterHeads(args, h, m.wm))(old(disk.View()).live),
                  ThenExits(HeadPart(shard, bases), AfterHeadsExits(args, h, m.wm))(old(disk.View()).live),
                  old(disk.View()), old(disk.budget), disk.View(), disk.budget, r)
  {
    ghost var d0, k0 := disk.View(), disk.budget;
    ghost var p, q, e := HeadPart(shard, bases), AfterHeads(args, h, m.wm), AfterHeadsExits(args, h, m.wm);
    r := HeadPass(disk, shard, bases);
    ghost var d1, k1 := disk.View(), disk.budget;
    if r != Finished {
      ObeysStopped(p, q, e, d0, k0, d1, k1, r);
      return;
    }
    ShardPassKeeps(ShardName(shard), HeadsEdit(bases), m, d0, k0, d1, k1);
    r := RestPass(disk, args, h, m);
    ObeysThen(p, q, e, d0, k0, d1, k1, disk.View(), disk.budget, r);
  }

  method TwoPasses(disk: Disk, args: Args, h: Heads, m: Model) returns (r: Outcome)
    requires disk.Valid() && ReadAs(m, disk.View().live)
    modifies disk
    ensures disk.Valid()
    ensures Obeys(Then(HeadPart(h.head, ["lm_head"]),
                       Then(HeadPart(h.embed, [args.embed]), AfterHeads(args, h, m.wm)))(old(disk.View()).live),
                  ThenExits(HeadPart(h.head, ["lm_head"]),
                            ThenExits(HeadPart(h.embed, [args.embed]),
                                      AfterHeadsExits(args, h, m.wm)))(old(disk.View()).live),
                  old(disk.View()), old(disk.budget), disk.View(), disk.budget, r)
  {
    ghost var d0, k0 := disk.View(), disk.budget;
    ghost var p := HeadPart(h.head, ["lm_head"]);
    ghost var q := Then(HeadPart(h.embed, [args.embed]), AfterHeads(args, h, m.wm));
    ghost var e := ThenExits(HeadPart(h.embed, [args.embed]), AfterHeadsExits(args, h, m.wm));
    r := HeadPass(disk, h.head, ["lm_head"]);
    ghost var d1, k1 := disk.View(), disk.budget;
    if r != Finished {
      ObeysStopped(p, q, e, d0, k0, d1, k1, r);
      return;
    }
    ShardPassKeeps(ShardName(h.head), HeadsEdit(["lm_head"]), m, d0, k0, d1, k1);
    r := PassAndRest(disk, args, h, m, h.embed, [args.embed]);
    ObeysThen(p, q, e, d0, k0, d1, k1, disk.View(), disk.budget, r);
  }

  /** prepare/quant_heads_stream.py: the heads' shards are found first, the MTP shard only after the
      heads are rewritten. */
  method QuantHeadsStream(disk: Disk, args: Args) returns (r: Outcome)
    requires disk.Valid()
    modifies disk
    ensures disk.Valid()
    ensures Obeys(StreamAt(args, old(disk.View()).live), StreamExits(args, old(disk.View()).live),
                  old(disk.View()), old(disk.budget), disk.View(), disk.budget, r)
  {
    ghost var d0, k0 := disk.View(), disk.budget;
    var m := ReadModel(disk);
    if m.None? {
      return Refused;
    }
    var found := FindHeads(args, m.value.wm);
    if found.None? {
      return Refused;
    }
    if found.value.head == found.value.embed {
      r := PassAndRest(disk, args, found.value, m.value, found.value.head, ["lm_head", args.embed]);
    } else {
      r := TwoPasses(disk, args, found.value, m.value);
    }
  }
}
