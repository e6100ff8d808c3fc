/** prepare/quant_heads_stream.py: lm_head and the embeddings in one streaming pass per shard
    that holds them, the MTP linears, config.json and the index. It has no gate: running it again
    after the index landed changes nothing. */
module StreamHeads {
  import opened Contents
  import opened QuantSchema
  import opened AtomicPublish
  import opened Resume
  import opened PrepareSteps
  import opened PrepareScripts

  /** The command line, with the module found by scanning the index for the embeddings. */
  datatype Args = Args(embed: string, fourBits: bool, keepFc: bool)

  const ORIGINAL: Keep := Hardlink(".bak-orig")

  function MtpOf(args: Args): Job {
    MtpJob(args.fourBits, args.keepFc)
  }

  /** shards[<base>.weight], where a packed entry counts for its bf16 spelling (weight_name). */
  function Where(wm: WeightMap, base: string): Option<string> {
    if WeightName(base) in wm then Some(wm[WeightName(base)])
    else if TensorName(base, WeightPacked) in wm then Some(wm[TensorName(base, WeightPacked)])
    else None
  }

  /** lm_head's shard and the embeddings' shard, both looked up before the first write. */
  datatype Heads = Heads(head: string, embed: string)

  function FindHeads(args: Args, wm: WeightMap): Option<Heads> {
    if Where(wm, "lm_head").None? || Where(wm, args.embed).None? then None
    else Some(Heads(Where(wm, "lm_head").value, Where(wm, args.embed).value))
  }

  /** The one shard of the MTP linears, looked up only when the heads are done. */
  function FindMtp(args: Args, wm: WeightMap): Option<string> {
    var linears := Linears(args.keepFc);
    if Where(wm, linears[0]).None? then None
    else if exists m :: m in linears && Where(wm, m) != Where(wm, linears[0]) then None
    else Some(Where(wm, linears[0]).value)
  }

  /** The index names the weight, in bf16 or packed, in that shard. */
  predicate LivesIn(wm: WeightMap, base: string, shard: string) {
    var w, p := TensorName(base, Weight), TensorName(base, WeightPacked);
    (w in wm && wm[w] == shard) || (w !in wm && p in wm && wm[p] == shard)
  }

  /** The lookups succeed exactly when each head lives in some shard and all MTP linears in one. */
  lemma FoundIff(args: Args, wm: WeightMap)
    ensures FindHeads(args, wm).Some?
       <==> (exists s :: LivesIn(wm, "lm_head", s)) && (exists s :: LivesIn(wm, args.embed, s))
    ensures forall s :: FindMtp(args, wm) == Some(s) <==> forall b :: b in Linears(args.keepFc) ==> LivesIn(wm, b, s)
  {
    LinearsDistinct(args.keepFc);
    assert forall b, s :: LivesIn(wm, b, s) <==> Where(wm, b) == Some(s);
    forall s ensures FindMtp(args, wm) == Some(s) <==> forall b :: b in Linears(args.keepFc) ==> LivesIn(wm, b, s) {
      assert Linears(args.keepFc)[0] in Linears(args.keepFc);
    }
  }

  /** All three, for a run in which both lookups succeed. */
  datatype Shards = Shards(head: string, embed: string, mtp: string)

  function FindShards(args: Args, wm: WeightMap): Option<Shards> {
    if FindHeads(args, wm).None? || FindMtp(args, wm).None? then None
    else Some(Shards(FindHeads(args, wm).value.head, FindHeads(args, wm).value.embed, FindMtp(args, wm).value))
  }

  /** One streaming pass: the weights still in bf16 are dropped and their packed entries added;
      the metadata is copied as it is. */
  function HeadsEdit(bases: seq<string>): Content -> Edit {
    (c: Content) =>
      match c
      case ShardFile(ts, meta) => (
        match PackAll(ts, bases, 8, true)
        case None => Refuse
        case Some(ts') =>
          if exists b :: b in bases && WeightName(b) in ts then Put(ShardFile(ts', meta)) else Leave)
      case _ => Refuse
  }

  function Configured(args: Args, q: Quantization): (q': Quantization)
    requires Extendable(q)
    ensures Extendable(q')
  {
    var q0 := q.(ignore := Some(Without(q.ignore.value, ["lm_head"] + Linears(args.keepFc))));
    CloneGroup(CloneGroup(CloneGroup(q0, LmHead, 8), Embed, 8), PartOf(MtpOf(args)), Bits(MtpOf(args)))
  }

  function StreamConfigEdit(args: Args): Content -> Edit {
    (c: Content) =>
      match LoadConfig(c)
      case None => Refuse
      case Some(q) => Put(ConfigFile(Some(Configured(args, q)), c.rest))
  }

  function Reindexed(args: Args, s: Shards, wm: WeightMap): WeightMap {
    IndexAll(IndexAll(IndexAll(wm, ["lm_head"], s.head), [args.embed], s.embed), Linears(args.keepFc), s.mtp)
  }

  function StreamIndexEdit(args: Args, s: Shards): Content -> Edit {
    (c: Content) =>
      match c
      case IndexFile(wm, rest) => Put(IndexFile(Reindexed(args, s, wm), rest))
      case _ => Refuse
  }

  // ---- the plan

  function HeadPart(shard: string, bases: seq<string>): Plan {
    Editing(ShardName(shard), ORIGINAL, HeadsEdit(bases))
  }

  function MtpPart(args: Args, shard: string): Plan {
    Editing(ShardName(shard), ORIGINAL, ShardEdit(MtpOf(args)))
  }

  function JsonPart(args: Args, s: Shards): Plan {
    Then(Editing(CONFIG, Copy(".bak-quant"), StreamConfigEdit(args)),
         Editing(INDEX, Copy(".bak-quant"), StreamIndexEdit(args, s)))
  }

  function Tail(args: Args, s: Shards): Plan {
    Then(MtpPart(args, s.mtp), JsonPart(args, s))
  }

  /** What follows the heads. It exits at once when the index, as it was read at the start, does not
      give one shard for all MTP linears. */
  function AfterHeads(args: Args, h: Heads, wm: WeightMap): Plan {
    match FindMtp(args, wm)
    case None => ((live: Live) => None)
    case Some(mtp) => Tail(args, Shards(h.head, h.embed, mtp))
  }

  /** One pass over a shard that holds both heads, otherwise one pass each; then the rest. */
  function HeadsThen(args: Args, h: Heads, rest: Plan): Plan {
    if h.head == h.embed
    then Then(HeadPart(h.head, ["lm_head", args.embed]), rest)
    else Then(HeadPart(h.head, ["lm_head"]), Then(HeadPart(h.embed, [args.embed]), rest))
  }

  /** The whole script when the MTP shard is found. */
  function StreamParts(args: Args, s: Shards): Plan {
    HeadsThen(args, Heads(s.head, s.embed), Tail(args, s))
  }

  function StreamOpening(args: Args, live: Live): (r: Option<Shards>)
    ensures r.Some? ==> HasModel(live) && FindShards(args, live[INDEX].weightMap) == r
  {
    if HasModel(live) then FindShards(args, live[INDEX].weightMap) else None
  }

  lemma OpenedPlan(args: Args, s: Shards, live: Live)
    requires StreamOpening(args, live) == Some(s)
    ensures StreamAt(args, live) == StreamParts(args, s)(live)
  {
  }

  function StreamScript(args: Args): Plan {
    (live: Live) => StreamAt(args, live)
  }

  function StreamAt(args: Args, live: Live): Option<seq<Action>> {
    if !HasModel(live) then None else
    match FindHeads(args, live[INDEX].weightMap)
    case None => None
    case Some(h) => HeadsThen(args, h, AfterHeads(args, h, live[INDEX].weightMap))(live)
  }

  /** The three shards hold every weight, in bf16 or packed, so the run will not refuse. */
  ghost predicate StreamReady(args: Args, live: Live) {
    StreamOpening(args, live).Some? &&
    var s := StreamOpening(args, live).value;
    && ShardName(s.head) in live && ShardName(s.embed) in live && ShardName(s.mtp) in live
    && HeadsEdit(["lm_head"])(live[ShardName(s.head)]) != Refuse
    && HeadsEdit([args.embed])(live[ShardName(s.embed)]) != Refuse
    && ShardEdit(MtpOf(args))(live[ShardName(s.mtp)]) != Refuse
    && args.embed != "lm_head" && args.embed !in MTP_LINEARS
  }

  // ---- each edit is done once

  ghost predicate HeadsPacked(bases: seq<string>, c: Content) {
    c.ShardFile? && AllPacked(c.tensors, bases)
  }

  lemma HeadsEditTwice(bases: seq<string>, c: Content)
    requires HeadsEdit(bases)(c) != Refuse
    ensures Idempotent(HeadsEdit(bases), c)
    ensures var c' := if HeadsEdit(bases)(c).Put? then HeadsEdit(bases)(c).content else c;
            HeadsPacked(bases, c') && c.ShardFile? && PacksOnly(c.tensors, c'.tensors, bases)
            && HeadsEdit(bases)(c') == Leave
  {
    PackAllHolds(c.tensors, bases, 8, true);
    var ts' := PackAll(c.tensors, bases, 8, true).value;
    PackedStays(ts', bases, 8, true);
    if forall b :: b in bases ==> WeightName(b) !in c.tensors {
      NothingToPack(c.tensors, bases, 8, true);
    }
  }

  lemma PackedIsLeft(bases: seq<string>, c: Content)
    requires HeadsPacked(bases, c)
    ensures HeadsEdit(bases)(c) == Leave
  {
    PackedStays(c.tensors, bases, 8, true);
  }

  lemma ConfiguredTwice(args: Args, q: Quantization)
    requires Extendable(q)
    ensures Configured(args, Configured(args, q)) == Configured(args, q)
  {
    var c := Configured(args, q);
    WithoutTwice(q.ignore.value, ["lm_head"] + Linears(args.keepFc));
    assert c.(ignore := Some(Without(c.ignore.value, ["lm_head"] + Linears(args.keepFc)))) == c;
    AddedAlready(c, LmHead, 8);
    AddedAlready(c, Embed, 8);
    AddedAlready(c, PartOf(MtpOf(args)), Bits(MtpOf(args)));
  }

  lemma ReindexedIndexes(args: Args, s: Shards, wm: WeightMap)
    requires args.embed != "lm_head" && args.embed !in MTP_LINEARS
    ensures Indexed(Reindexed(args, s, wm), ["lm_head"], s.head)
    ensures Indexed(Reindexed(args, s, wm), [args.embed], s.embed)
    ensures Indexed(Reindexed(args, s, wm), Linears(args.keepFc), s.mtp)
  {
    LinearsDistinct(args.keepFc);
    assert forall b :: b in Linears(args.keepFc) ==> b in MTP_LINEARS;
    var wm1 := IndexAll(wm, ["lm_head"], s.head);
    var wm2 := IndexAll(wm1, [args.embed], s.embed);
    IndexAllHolds(wm, ["lm_head"], s.head);
    IndexThenApart(wm1, ["lm_head"], [args.embed], s.head, s.embed);
    IndexAllHolds(wm1, [args.embed], s.embed);
    IndexThenApart(wm2, ["lm_head"], Linears(args.keepFc), s.head, s.mtp);
    IndexThenApart(wm2, [args.embed], Linears(args.keepFc), s.embed, s.mtp);
    IndexAllHolds(wm2, Linears(args.keepFc), s.mtp);
  }

  lemma IndexThenApart(wm: WeightMap, bases: seq<string>, others: seq<string>, shard: string, shard': string)
    requires Indexed(wm, bases, shard) && forall b :: b in bases ==> b !in others
    ensures Indexed(IndexAll(wm, others, shard'), bases, shard)
  {
    IndexAllHolds(wm, others, shard');
    IndexedApart(wm, IndexAll(wm, others, shard'), bases, others, shard);
  }

  lemma ReindexedTwice(args: Args, s: Shards, wm: WeightMap)
    requires args.embed != "lm_head" && args.embed !in MTP_LINEARS
    ensures Reindexed(args, s, Reindexed(args, s, wm)) == Reindexed(args, s, wm)
  {
    var wm3 := Reindexed(args, s, wm);
    ReindexedIndexes(args, s, wm);
    IndexedStays(wm3, ["lm_head"], s.head);
    IndexedStays(wm3, [args.embed], s.embed);
    IndexedStays(wm3, Linears(args.keepFc), s.mtp);
  }

  lemma IndexedApart(wm: WeightMap, wm': WeightMap, bases: seq<string>, others: seq<string>, shard: string)
    requires Indexed(wm, bases, shard)
    requires forall b :: b in bases ==> b !in others
    requires forall n: TensorName :: n.base !in others ==> (n in wm <==> n in wm') && (n in wm ==> wm[n] == wm'[n])
    ensures Indexed(wm', bases, shard)
  {
    forall b | b in bases
      ensures WeightName(b) !in wm' && forall n :: n in PackedNames(b) ==> n in wm' && wm'[n] == shard
    {
      assert WeightName(b).base !in others;
      assert forall n :: n in PackedNames(b) ==> n.base !in others;
    }
  }

  // ---- the script resumes

  lemma ConfigIdempotent(args: Args, c: Content)
    requires LoadConfig(c).Some?
    ensures Idempotent(StreamConfigEdit(args), c)
    ensures StreamConfigEdit(args)(c).Put? && LoadConfig(StreamConfigEdit(args)(c).content).Some?
  {
    ConfiguredTwice(args, LoadConfig(c).value);
  }

  lemma IndexIdempotent(args: Args, s: Shards, i: Content)
    requires i.IndexFile? && args.embed != "lm_head" && args.embed !in MTP_LINEARS
    ensures Idempotent(StreamIndexEdit(args, s), i)
    ensures StreamIndexEdit(args, s)(i) == Put(IndexFile(Reindexed(args, s, i.weightMap), i.rest))
  {
    var wm := Reindexed(args, s, i.weightMap);
    ReindexedTwice(args, s, i.weightMap);
    EditsIndex(args, s, i);
    EditsIndex(args, s, IndexFile(wm, i.rest));
  }

  lemma EditsIndex(args: Args, s: Shards, i: Content)
    requires i.IndexFile?
    ensures StreamIndexEdit(args, s)(i) == Put(IndexFile(Reindexed(args, s, i.weightMap), i.rest))
  {
  }

  /** What a run may do to the two files it reads first: keep config.json loadable, and publish
      the one new index. */
  ghost predicate StreamAction(index: Content, a: Action) {
    KeepsConfig(a) && (Touches(a, INDEX) ==> a == Publish(INDEX, index))
  }

  ghost predicate StreamActions(index: Content, acts: seq<Action>) {
    forall a :: a in acts ==> StreamAction(index, a)
  }

  lemma ConfigEditActions(k: Keep, f: Content -> Edit, live: Live, index: Content)
    requires CONFIG in live && f(live[CONFIG]).Put? && LoadConfig(f(live[CONFIG]).content).Some?
    ensures Editing(CONFIG, k, f)(live).Some? && StreamActions(index, Editing(CONFIG, k, f)(live).value)
  {
    EditingEnds(CONFIG, k, f, live);
    EditingTouches(CONFIG, k, f, live, INDEX);
    var a := Editing(CONFIG, k, f)(live).value;
    assert a == a[..|a| - 1] + [a[|a| - 1]];
  }

  lemma IndexEditActions(k: Keep, g: Content -> Edit, live: Live)
    requires INDEX in live && g(live[INDEX]).Put?
    ensures Editing(INDEX, k, g)(live).Some?
    ensures StreamActions(g(live[INDEX]).content, Editing(INDEX, k, g)(live).value)
  {
    EditingEnds(INDEX, k, g, live);
    EditingTouches(INDEX, k, g, live, CONFIG);
    var b := Editing(INDEX, k, g)(live).value;
    assert b == b[..|b| - 1] + [b[|b| - 1]];
  }

  lemma TwoEditsActions(k: Keep, f: Content -> Edit, g: Content -> Edit, live: Live)
    requires CONFIG in live && f(live[CONFIG]).Put? && LoadConfig(f(live[CONFIG]).content).Some?
    requires INDEX in live && g(live[INDEX]).Put?
    requires Then(Editing(CONFIG, k, f), Editing(INDEX, k, g))(live).Some?
    ensures StreamActions(g(live[INDEX]).content, Then(Editing(CONFIG, k, f), Editing(INDEX, k, g))(live).value)
  {
    ConfigEditActions(k, f, live, g(live[INDEX]).content);
    EditingKeeps(CONFIG, k, f, live, INDEX);
    IndexEditActions(k, g, Apply(live, Editing(CONFIG, k, f)(live).value));
  }

  lemma SparingActions(index: Content, acts: seq<Action>)
    requires Spares(acts, CONFIG) && Spares(acts, INDEX)
    ensures StreamActions(index, acts)
  {
  }

  /** The index a run publishes. */
  function NewIndex(args: Args, s: Shards, i: Content): Content
    requires i.IndexFile?
  {
    IndexFile(Reindexed(args, s, i.weightMap), i.rest)
  }

  lemma JsonResumes(args: Args, s: Shards, live: Live)
    requires HasModel(live)
    requires args.embed != "lm_head" && args.embed !in MTP_LINEARS
    ensures Resumable(JsonPart(args, s), live)
    ensures SparesAllBut(JsonPart(args, s)(live).value, CONFIG, INDEX)
    ensures StreamActions(NewIndex(args, s, live[INDEX]), JsonPart(args, s)(live).value)
  {
    ConfigIdempotent(args, live[CONFIG]);
    IndexIdempotent(args, s, live[INDEX]);
    TwoEdits(CONFIG, Copy(".bak-quant"), StreamConfigEdit(args),
             INDEX, Copy(".bak-quant"), StreamIndexEdit(args, s), live);
    TwoEditsActions(Copy(".bak-quant"), StreamConfigEdit(args), StreamIndexEdit(args, s), live);
  }

  /** Whatever shard has its heads packed keeps them packed. */
  ghost predicate LeavesHeads(live: Live, acts: seq<Action>) {
    forall n: Name, bases: seq<string> :: n.File? && n in live && HeadsPacked(bases, live[n]) ==>
      WritesLeft(n, HeadsEdit(bases), acts)
  }

  lemma LeavesHeadsBoth(live: Live, a: seq<Action>, b: seq<Action>)
    requires LeavesHeads(live, a) && LeavesHeads(live, b)
    ensures LeavesHeads(live, a + b)
  {
    forall n: Name, bases: seq<string> | n.File? && n in live && HeadsPacked(bases, live[n])
      ensures WritesLeft(n, HeadsEdit(bases), a + b)
    {
      assert WritesLeft(n, HeadsEdit(bases), a) && WritesLeft(n, HeadsEdit(bases), b);
    }
  }

  lemma SparingLeavesHeads(live: Live, acts: seq<Action>)
    requires SparesAllBut(acts, CONFIG, INDEX)
    requires CONFIG in live && live[CONFIG].ConfigFile? && INDEX in live && live[INDEX].IndexFile?
    ensures LeavesHeads(live, acts)
  {
    forall n: Name, bases: seq<string> | n.File? && n in live && HeadsPacked(bases, live[n])
      ensures WritesLeft(n, HeadsEdit(bases), acts)
    {
      assert Spares(acts, n);
    }
  }

  /** The MTP shard, then the JSON files. */
  lemma TailParts(args: Args, s: Shards, live: Live) returns (a: seq<Action>, b: seq<Action>)
    requires HasModel(live) && args.embed != "lm_head" && args.embed !in MTP_LINEARS
    requires ShardName(s.mtp) in live && ShardEdit(MtpOf(args))(live[ShardName(s.mtp)]) != Refuse
    ensures MtpPart(args, s.mtp)(live) == Some(a) && Spares(a, CONFIG) && Spares(a, INDEX)
    ensures var mid := Apply(live, a);
            && HasModel(mid) && mid[INDEX] == live[INDEX]
            && JsonPart(args, s)(mid) == Some(b) && Resumable(JsonPart(args, s), mid)
            && SparesAllBut(b, CONFIG, INDEX) && Spares(b, ShardName(s.mtp))
            && StreamActions(NewIndex(args, s, live[INDEX]), b)
  {
    var n, f := ShardName(s.mtp), ShardEdit(MtpOf(args));
    EditingRuns(n, ORIGINAL, f, live);
    EditingKeeps(n, ORIGINAL, f, live, CONFIG);
    EditingKeeps(n, ORIGINAL, f, live, INDEX);
    a := MtpPart(args, s.mtp)(live).value;
    JsonResumes(args, s, Apply(live, a));
    b := JsonPart(args, s)(Apply(live, a)).value;
    ShardEditTwice(MtpOf(args), live[n]);
    assert n != CONFIG && n != INDEX;
  }

  /** An edit, then a part that spares its file. */
  lemma EditThenSpared(n: Name, keep: Keep, f: Content -> Edit, q: Plan, live: Live, a: seq<Action>, b: seq<Action>)
    requires n.File? && n in live && Idempotent(f, live[n]) && Editing(n, keep, f)(live) == Some(a)
    requires q(Apply(live, a)) == Some(b) && Resumable(q, Apply(live, a)) && Spares(b, n)
    ensures Resumable(Then(Editing(n, keep, f), q), live) && Then(Editing(n, keep, f), q)(live) == Some(a + b)
  {
    EditThen(n, keep, f, q, live);
  }

  lemma TailIsBoth(args: Args, s: Shards, live: Live, a: seq<Action>, b: seq<Action>)
    requires ShardName(s.mtp) in live && ShardEdit(MtpOf(args))(live[ShardName(s.mtp)]) != Refuse
    requires MtpPart(args, s.mtp)(live) == Some(a) && JsonPart(args, s)(Apply(live, a)) == Some(b)
    requires Resumable(JsonPart(args, s), Apply(live, a)) && Spares(b, ShardName(s.mtp))
    ensures Resumable(Tail(args, s), live) && Tail(args, s)(live) == Some(a + b)
  {
    ShardEditTwice(MtpOf(args), live[ShardName(s.mtp)]);
    EditThenSpared(ShardName(s.mtp), ORIGINAL, ShardEdit(MtpOf(args)), JsonPart(args, s), live, a, b);
  }

  lemma BothLeaveHeads(args: Args, s: Shards, live: Live, a: seq<Action>, b: seq<Action>)
    requires HasModel(live) && SparesAllBut(b, CONFIG, INDEX) && MtpPart(args, s.mtp)(live) == Some(a)
    requires ShardName(s.mtp) in live && ShardEdit(MtpOf(args))(live[ShardName(s.mtp)]) != Refuse
    ensures LeavesHeads(live, a + b)
  {
    SparingLeavesHeads(live, b);
    MtpLeavesHeads(args, s.mtp, live);
    LeavesHeadsBoth(live, a, b);
  }

  lemma BothAct(index: Content, a: seq<Action>, b: seq<Action>)
    requires Spares(a, CONFIG) && Spares(a, INDEX) && StreamActions(index, b)
    ensures StreamActions(index, a + b)
  {
    SparingActions(index, a);
  }

  /** The tail can be resumed, and wherever the heads are, they stay packed. */
  lemma TailResumes(args: Args, s: Shards, live: Live)
    requires HasModel(live)
    requires args.embed != "lm_head" && args.embed !in MTP_LINEARS
    requires ShardName(s.mtp) in live && ShardEdit(MtpOf(args))(live[ShardName(s.mtp)]) != Refuse
    ensures Resumable(Tail(args, s), live)
    ensures LeavesHeads(live, Tail(args, s)(live).value)
    ensures StreamActions(NewIndex(args, s, live[INDEX]), Tail(args, s)(live).value)
  {
    var a, b := TailParts(args, s, live);
    TailIsBoth(args, s, live, a, b);
    BothLeaveHeads(args, s, live, a, b);
    BothAct(NewIndex(args, s, live[INDEX]), a, b);
  }

  lemma MtpLeavesHeads(args: Args, shard: string, live: Live)
    requires ShardName(shard) in live && ShardEdit(MtpOf(args))(live[ShardName(shard)]) != Refuse
    ensures MtpPart(args, shard)(live).Some?
    ensures LeavesHeads(live, MtpPart(args, shard)(live).value)
  {
    forall m: Name, bases: seq<string> | m.File? && m in live && HeadsPacked(bases, live[m])
      ensures WritesLeft(m, HeadsEdit(bases), MtpPart(args, shard)(live).value)
    {
      MtpWritesLeft(args, shard, live, m, bases);
    }
  }

  lemma MtpWritesLeft(args: Args, shard: string, live: Live, m: Name, bases: seq<string>)
    requires ShardName(shard) in live && ShardEdit(MtpOf(args))(live[ShardName(shard)]) != Refuse
    requires m.File? && m in live && HeadsPacked(bases, live[m])
    ensures WritesLeft(m, HeadsEdit(bases), MtpPart(args, shard)(live).value)
  {
    var n, f := ShardName(shard), ShardEdit(MtpOf(args));
    ShardEditTwice(MtpOf(args), live[n]);
    if m != n {
      EditingTouches(n, ORIGINAL, f, live, m);
    } else if f(live[n]).Put? {
      PackedIsLeft(bases, f(live[n]).content);
      EditingEnds(n, ORIGINAL, f, live);
    }
  }

  /** One head pass followed by anything that resumes and leaves packed heads packed. */
  lemma HeadThen(shard: string, bases: seq<string>, q: Plan, live: Live)
    requires ShardName(shard) in live && HeadsEdit(bases)(live[ShardName(shard)]) != Refuse
    requires var mid := Apply(live, HeadPart(shard, bases)(live).value);
             Resumable(q, mid)
             && (ShardName(shard) in mid && HeadsPacked(bases, mid[ShardName(shard)])
                 ==> WritesLeft(ShardName(shard), HeadsEdit(bases), q(mid).value))
    ensures Resumable(Then(HeadPart(shard, bases), q), live)
    ensures Then(HeadPart(shard, bases), q)(live)
         == Some(HeadPart(shard, bases)(live).value + q(Apply(live, HeadPart(shard, bases)(live).value)).value)
  {
    var n, f := ShardName(shard), HeadsEdit(bases);
    HeadsEditTwice(bases, live[n]);
    EditingDone(n, ORIGINAL, f, live);
    EditThenLeft(n, ORIGINAL, f, q, live);
  }

  /** What a head pass leaves for the parts after it. */
  lemma HeadPassLeaves(args: Args, shard: string, bases: seq<string>, live: Live)
    requires ShardName(shard) in live && HeadsEdit(bases)(live[ShardName(shard)]) != Refuse
    requires HasModel(live)
    ensures HeadPart(shard, bases)(live).Some?
    ensures var l := Apply(live, HeadPart(shard, bases)(live).value);
            && CONFIG in l && l[CONFIG] == live[CONFIG] && INDEX in l && l[INDEX] == live[INDEX]
            && ShardName(shard) in l && HeadsPacked(bases, l[ShardName(shard)])
            && (forall n: Name :: n.File? && n != ShardName(shard) && n in live ==> n in l && l[n] == live[n])
            && PacksOnly(live[ShardName(shard)].tensors, l[ShardName(shard)].tensors, bases)
            && Spares(HeadPart(shard, bases)(live).value, CONFIG) && Spares(HeadPart(shard, bases)(live).value, INDEX)
  {
    var n, f := ShardName(shard), HeadsEdit(bases);
    HeadsEditTwice(bases, live[n]);
    EditingDone(n, ORIGINAL, f, live);
    EditingTouches(n, ORIGINAL, f, live, CONFIG);
    EditingTouches(n, ORIGINAL, f, live, INDEX);
    forall m: Name | m.File? && m != n && m in live
      ensures m in Apply(live, HeadPart(shard, bases)(live).value)
      ensures Apply(live, HeadPart(shard, bases)(live).value)[m] == live[m]
    {
      EditingKeeps(n, ORIGINAL, f, live, m);
    }
  }

  lemma PacksElsewhere(ts: Tensors, ts': Tensors, bases: seq<string>, others: seq<string>)
    requires PacksOnly(ts, ts', bases) && forall b :: b in bases ==> b !in others
    ensures AgreeOn(ts, ts', others)
  {
    assert forall n: TensorName :: n.base in others ==> n.base !in bases;
  }

  /** A shard that the MTP edit accepts is still accepted when other weights of it are packed. */
  lemma MtpStillAccepted(args: Args, c: Content, c': Content, bases: seq<string>)
    requires c.ShardFile? && c'.ShardFile? && PacksOnly(c.tensors, c'.tensors, bases)
    requires forall b :: b in bases ==> b !in Linears(args.keepFc)
    requires ShardEdit(MtpOf(args))(c) != Refuse
    ensures ShardEdit(MtpOf(args))(c') != Refuse
  {
    PacksElsewhere(c.tensors, c'.tensors, bases, Linears(args.keepFc));
    ShardEditAgrees(MtpOf(args), c, c');
  }

  lemma LinearsApart(args: Args)
    requires args.embed != "lm_head" && args.embed !in MTP_LINEARS
    ensures "lm_head" !in Linears(args.keepFc) && args.embed !in Linears(args.keepFc)
    ensures Linears(args.keepFc) != []
  {
    LinearsDistinct(args.keepFc);
    assert forall b :: b in Linears(args.keepFc) ==> b in MTP_LINEARS;
  }

  /** After a head pass the tail can run: the config and the index are as they were, and the MTP
      shard is accepted whether or not it is the shard just rewritten. */
  lemma TailAfterHead(args: Args, s: Shards, shard: string, bases: seq<string>, live: Live)
    requires HasModel(live)
    requires args.embed != "lm_head" && args.embed !in MTP_LINEARS
    requires ShardName(shard) in live && HeadsEdit(bases)(live[ShardName(shard)]) != Refuse
    requires ShardName(s.mtp) in live && ShardEdit(MtpOf(args))(live[ShardName(s.mtp)]) != Refuse
    requires forall b :: b in bases ==> b !in Linears(args.keepFc)
    ensures HeadPart(shard, bases)(live).Some?
    ensures var l := Apply(live, HeadPart(shard, bases)(live).value);
            CONFIG in l && LoadConfig(l[CONFIG]).Some? && INDEX in l && l[INDEX] == live[INDEX]
            && ShardName(s.mtp) in l && ShardEdit(MtpOf(args))(l[ShardName(s.mtp)]) != Refuse
  {
    HeadPassLeaves(args, shard, bases, live);
    var l := Apply(live, HeadPart(shard, bases)(live).value);
    if s.mtp == shard {
      ShardEditTwice(MtpOf(args), live[ShardName(s.mtp)]);
      MtpStillAccepted(args, live[ShardName(s.mtp)], l[ShardName(s.mtp)], bases);
    }
  }

  /** A head pass and the tail. */
  lemma HeadAndTail(args: Args, s: Shards, shard: string, bases: seq<string>, live: Live)
    requires HasModel(live)
    requires args.embed != "lm_head" && args.embed !in MTP_LINEARS
    requires ShardName(shard) in live && HeadsEdit(bases)(live[ShardName(shard)]) != Refuse
    requires ShardName(s.mtp) in live && ShardEdit(MtpOf(args))(live[ShardName(s.mtp)]) != Refuse
    requires forall b :: b in bases ==> b !in Linears(args.keepFc)
    ensures var q := Then(HeadPart(shard, bases), Tail(args, s));
            Resumable(q, live) && StreamActions(NewIndex(args, s, live[INDEX]), q(live).value)
  {
    TailAfterHead(args, s, shard, bases, live);
    HeadPassLeaves(args, shard, bases, live);
    var a := HeadPart(shard, bases)(live).value;
    var l := Apply(live, a);
    TailResumes(args, s, l);
    HeadThen(shard, bases, Tail(args, s), live);
    SparingActions(NewIndex(args, s, live[INDEX]), a);
  }

  lemma SharedPass(args: Args, live: Live)
    requires StreamReady(args, live) && StreamOpening(args, live).value.head == StreamOpening(args, live).value.embed
    ensures Resumable(StreamParts(args, StreamOpening(args, live).value), live)
    ensures StreamActions(NewIndex(args, StreamOpening(args, live).value, live[INDEX]),
                          StreamParts(args, StreamOpening(args, live).value)(live).value)
  {
    var s := StreamOpening(args, live).value;
    LinearsApart(args);
    BothAccepted(args.embed, live[ShardName(s.head)]);
    HeadAndTail(args, s, s.head, ["lm_head", args.embed], live);
  }

  lemma BothAccepted(embed: string, c: Content)
    requires embed != "lm_head"
    requires HeadsEdit(["lm_head"])(c) != Refuse && HeadsEdit([embed])(c) != Refuse
    ensures HeadsEdit(["lm_head", embed])(c) != Refuse
  {
    var ts := c.tensors;
    OneBase(ts, "lm_head", 8, true);
    OneBase(ts, embed, 8, true);
    PackOneHolds(ts, "lm_head", 8, true);
    var ts' := PackOne(ts, "lm_head", 8, true).value;
    assert AgreeOn(ts, ts', [embed]);
    PackAllAgrees(ts, ts', [embed], 8, true);
    assert ["lm_head", embed][1..] == [embed];
  }

  lemma SplitPass(args: Args, live: Live)
    requires StreamReady(args, live) && StreamOpening(args, live).value.head != StreamOpening(args, live).value.embed
    ensures Resumable(StreamParts(args, StreamOpening(args, live).value), live)
    ensures StreamActions(NewIndex(args, StreamOpening(args, live).value, live[INDEX]),
                          StreamParts(args, StreamOpening(args, live).value)(live).value)
  {
    var s := StreamOpening(args, live).value;
    LinearsApart(args);
    TailAfterHead(args, s, s.head, ["lm_head"], live);
    HeadPassLeaves(args, s.head, ["lm_head"], live);
    var a := HeadPart(s.head, ["lm_head"])(live).value;
    var l := Apply(live, a);
    SecondPass(args, s, l);
    HeadThen(s.head, ["lm_head"], Then(HeadPart(s.embed, [args.embed]), Tail(args, s)), live);
    SparingActions(NewIndex(args, s, live[INDEX]), a);
  }

  /** The embeddings' own pass and the tail, after lm_head's pass. */
  lemma SecondPass(args: Args, s: Shards, l: Live)
    requires HasModel(l)
    requires args.embed != "lm_head" && args.embed !in MTP_LINEARS && s.head != s.embed
    requires ShardName(s.head) in l && HeadsPacked(["lm_head"], l[ShardName(s.head)])
    requires ShardName(s.embed) in l && HeadsEdit([args.embed])(l[ShardName(s.embed)]) != Refuse
    requires ShardName(s.mtp) in l && ShardEdit(MtpOf(args))(l[ShardName(s.mtp)]) != Refuse
    ensures var q := Then(HeadPart(s.embed, [args.embed]), Tail(args, s));
            Resumable(q, l) && WritesLeft(ShardName(s.head), HeadsEdit(["lm_head"]), q(l).value)
            && StreamActions(NewIndex(args, s, l[INDEX]), q(l).value)
  {
    LinearsApart(args);
    HeadAndTail(args, s, s.embed, [args.embed], l);
    EditThenTail(args, s, l);
  }

  lemma EditThenTail(args: Args, s: Shards, l: Live)
    requires HasModel(l)
    requires args.embed != "lm_head" && args.embed !in MTP_LINEARS && s.head != s.embed
    requires ShardName(s.head) in l && HeadsPacked(["lm_head"], l[ShardName(s.head)])
    requires ShardName(s.embed) in l && HeadsEdit([args.embed])(l[ShardName(s.embed)]) != Refuse
    requires ShardName(s.mtp) in l && ShardEdit(MtpOf(args))(l[ShardName(s.mtp)]) != Refuse
    requires Then(HeadPart(s.embed, [args.embed]), Tail(args, s))(l).Some?
    ensures WritesLeft(ShardName(s.head), HeadsEdit(["lm_head"]),
                       Then(HeadPart(s.embed, [args.embed]), Tail(args, s))(l).value)
  {
    LinearsApart(args);
    TailAfterHead(args, s, s.embed, [args.embed], l);
    var n, p := ShardName(s.head), HeadPart(s.embed, [args.embed]);
    OtherPassSpares(s, args.embed, l, n);
    TailWrites(args, s, Apply(l, p(l).value), n, ["lm_head"]);
    ThenWrites(n, HeadsEdit(["lm_head"]), p, Tail(args, s), l);
  }

  lemma OtherPassSpares(s: Shards, embed: string, l: Live, n: Name)
    requires HeadPart(s.embed, [embed])(l).Some? && n.File? && n != ShardName(s.embed) && n in l
    ensures Spares(HeadPart(s.embed, [embed])(l).value, n)
    ensures n in Apply(l, HeadPart(s.embed, [embed])(l).value)
    ensures Apply(l, HeadPart(s.embed, [embed])(l).value)[n] == l[n]
  {
    EditingKeeps(ShardName(s.embed), ORIGINAL, HeadsEdit([embed]), l, n);
  }

  lemma TailWrites(args: Args, s: Shards, live: Live, n: Name, bases: seq<string>)
    requires HasModel(live)
    requires args.embed != "lm_head" && args.embed !in MTP_LINEARS
    requires ShardName(s.mtp) in live && ShardEdit(MtpOf(args))(live[ShardName(s.mtp)]) != Refuse
    requires n.File? && n in live && HeadsPacked(bases, live[n])
    ensures Tail(args, s)(live).Some? && WritesLeft(n, HeadsEdit(bases), Tail(args, s)(live).value)
  {
    TailResumes(args, s, live);
  }

  lemma ThenWrites(n: Name, f: Content -> Edit, p: Plan, q: Plan, l: Live)
    requires p(l).Some? && q(Apply(l, p(l).value)).Some?
    requires Spares(p(l).value, n) && WritesLeft(n, f, q(Apply(l, p(l).value)).value)
    ensures Then(p, q)(l).Some? && WritesLeft(n, f, Then(p, q)(l).value)
  {
  }

  /** Before the index lands, and after it, the script finds the same three shards. */
  lemma WhereStays(args: Args, s: Shards, wm: WeightMap)
    requires FindShards(args, wm) == Some(s) && args.embed != "lm_head" && args.embed !in MTP_LINEARS
    ensures FindShards(args, Reindexed(args, s, wm)) == Some(s)
  {
    ReindexedIndexes(args, s, wm);
    FoundWhereIndexed(args, s, Reindexed(args, s, wm));
  }

  lemma FoundWhereIndexed(args: Args, s: Shards, wm: WeightMap)
    requires Indexed(wm, ["lm_head"], s.head) && Indexed(wm, [args.embed], s.embed)
    requires Indexed(wm, Linears(args.keepFc), s.mtp)
    ensures FindShards(args, wm) == Some(s)
  {
    LinearsDistinct(args.keepFc);
    IndexedWhere(wm, ["lm_head"], "lm_head", s.head);
    IndexedWhere(wm, [args.embed], args.embed, s.embed);
    var linears := Linears(args.keepFc);
    forall m | m in linears ensures Where(wm, m) == Some(s.mtp) {
      IndexedWhere(wm, linears, m, s.mtp);
    }
    assert linears[0] in linears;
  }

  lemma IndexedWhere(wm: WeightMap, bases: seq<string>, base: string, shard: string)
    requires Indexed(wm, bases, shard) && base in bases
    ensures Where(wm, base) == Some(shard)
  {
    assert TensorName(base, WeightPacked) in PackedNames(base);
  }

  lemma {:induction false} IndexIsOldOrNew(before: Content, next: Content, live: Live, acts: seq<Action>)
    requires StreamActions(next, acts) && INDEX in live && (live[INDEX] == before || live[INDEX] == next)
    ensures INDEX in Apply(live, acts) && (Apply(live, acts)[INDEX] == before || Apply(live, acts)[INDEX] == next)
    decreases |acts|
  {
    if acts != [] {
      assert StreamAction(next, acts[0]);
      IndexIsOldOrNew(before, next, ApplyOne(live, acts[0]), acts[1..]);
    }
  }

  lemma StreamPartsResume(args: Args, live: Live)
    requires StreamReady(args, live)
    ensures Resumable(StreamParts(args, StreamOpening(args, live).value), live)
    ensures StreamActions(NewIndex(args, StreamOpening(args, live).value, live[INDEX]),
                          StreamParts(args, StreamOpening(args, live).value)(live).value)
  {
    var s := StreamOpening(args, live).value;
    if s.head == s.embed {
      SharedPass(args, live);
    } else {
      SplitPass(args, live);
    }
  }

  lemma StreamStage(args: Args, live: Live, i: nat)
    requires StreamReady(args, live)
    requires var p := StreamParts(args, StreamOpening(args, live).value);
             p(live).Some? && i <= |p(live).value|
             && StreamActions(NewIndex(args, StreamOpening(args, live).value, live[INDEX]), p(live).value)
    ensures var s := StreamOpening(args, live).value;
            var l := Stage(live, StreamParts(args, s)(live).value, i);
            StreamScript(args)(l) == StreamParts(args, s)(l)
  {
    var s := StreamOpening(args, live).value;
    var full := StreamParts(args, s)(live).value;
    assert forall a :: a in full[..i] ==> a in full;
    OpeningAtStage(args, s, live, full[..i]);
    OpenedPlan(args, s, Apply(live, full[..i]));
  }

  lemma OpeningAtStage(args: Args, s: Shards, live: Live, acts: seq<Action>)
    requires StreamOpening(args, live) == Some(s) && args.embed != "lm_head" && args.embed !in MTP_LINEARS
    requires StreamActions(NewIndex(args, s, live[INDEX]), acts)
    ensures StreamOpening(args, Apply(live, acts)) == Some(s)
  {
    var next := NewIndex(args, s, live[INDEX]);
    assert forall a :: a in acts ==> StreamAction(next, a);
    ConfigStaysLoadable(live, acts);
    IndexIsOldOrNew(live[INDEX], next, live, acts);
    WhereStays(args, s, live[INDEX].weightMap);
  }

  lemma StreamResumes(args: Args, live: Live)
    requires StreamReady(args, live)
    ensures Resumable(StreamScript(args), live)
    ensures StreamScript(args)(live) == StreamParts(args, StreamOpening(args, live).value)(live)
  {
    var s := StreamOpening(args, live).value;
    var p, q := StreamParts(args, s), StreamScript(args);
    StreamPartsResume(args, live);
    forall i | 0 <= i <= |p(live).value| ensures q(Stage(live, p(live).value, i)) == p(Stage(live, p(live).value, i)) {
      StreamStage(args, live, i);
    }
    SamePlanResumable(q, p, live);
  }

  /** The crash theorem for the streaming script, ungated: any killed runs, then a complete one,
      leave what one clean run leaves; and so does any number of complete runs. */
  lemma StreamSurvivesKills(args: Args, live: Live, budgets: seq<nat>)
    requires StreamReady(args, live)
    ensures var p := StreamScript(args);
            var clean := Complete(p, Dir(live, map[]));
            Complete(p, History(p, Dir(live, map[]), budgets)) == clean && clean.tmp == map[]
  {
    StreamResumes(args, live);
    KilledRunsThenOne(StreamScript(args), live, budgets);
  }
}
