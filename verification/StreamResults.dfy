/** What a completed run of prepare/quant_heads_stream.py leaves in each file, apart from how it edits them. */
module StreamResults {
  import opened Contents
  import opened QuantSchema
  import opened AtomicPublish
  import opened Resume
  import opened PrepareSteps
  import opened PrepareScripts
  import opened PrepareResults
  import opened StreamHeads

  // ---- config.json and the index

  /** Whether the script packs the weight. */
  predicate Packs(args: Args, b: string) {
    b == "lm_head" || b == args.embed || (b in MTP_LINEARS && (args.keepFc ==> b != "mtp.fc"))
  }

  ghost predicate StreamConfigAfter(args: Args, c: Content, c': Content)
    requires LoadConfig(c).Some?
  {
    var q, mtp := c.quant.value, MtpOf(args);
    && c'.ConfigFile? && c'.rest == c.rest && c'.quant.Some?
    && var q' := c'.quant.value;
       && q'.quantMethod == q.quantMethod
       && Declares(q', LmHead, 8) && Declares(q', Embed, 8) && Declares(q', PartOf(mtp), Bits(mtp))
       && q'.groups.Keys == q.groups.Keys + {"group_1", "group_2", "group_3"}
       && (forall g :: g in q.groups && g !in {"group_1", "group_2", "group_3"} ==> q'.groups[g] == q.groups[g])
       && q'.ignore.Some?
       && (forall x :: multiset(q'.ignore.value)[x]
                    == if x == "lm_head" || x in Linears(args.keepFc) then 0 else multiset(q.ignore.value)[x])
  }

  lemma StreamConfigIs(args: Args, c: Content)
    requires LoadConfig(c).Some?
    ensures StreamConfigEdit(args)(c).Put? && StreamConfigAfter(args, c, StreamConfigEdit(args)(c).content)
  {
    var xs, drop := c.quant.value.ignore.value, ["lm_head"] + Linears(args.keepFc);
    forall x ensures multiset(Without(xs, drop))[x]
                  == if x == "lm_head" || x in Linears(args.keepFc) then 0 else multiset(xs)[x]
    {
      WithoutCounts(xs, drop, x);
    }
    GroupsApart(args, c.quant.value.(ignore := Some(Without(xs, drop))));
  }

  lemma GroupsApart(args: Args, q: Quantization)
    requires "group_0" in q.groups
    ensures var mtp := MtpOf(args);
            var q' := CloneGroup(CloneGroup(CloneGroup(q, LmHead, 8), Embed, 8), PartOf(mtp), Bits(mtp));
            && Declares(q', LmHead, 8) && Declares(q', Embed, 8) && Declares(q', PartOf(mtp), Bits(mtp))
            && q'.groups.Keys == q.groups.Keys + {"group_1", "group_2", "group_3"}
            && (forall g :: g in q.groups && g !in {"group_1", "group_2", "group_3"} ==> q'.groups[g] == q.groups[g])
  {
    var mtp := MtpOf(args);
    assert GroupName(PartOf(mtp)) == "group_3" && GroupName(LmHead) == "group_1" && GroupName(Embed) == "group_2";
    assert "group_1"[6] == '1' && "group_2"[6] == '2' && "group_3"[6] == '3';
    var q1 := CloneGroup(q, LmHead, 8);
    var q2 := CloneGroup(q1, Embed, 8);
    var q3 := CloneGroup(q2, PartOf(mtp), Bits(mtp));
    assert q3.groups["group_1"] == q2.groups["group_1"] == q1.groups["group_1"];
    assert q3.groups["group_2"] == q2.groups["group_2"];
  }

  ghost predicate StreamIndexAfter(args: Args, s: Shards, c: Content, c': Content)
    requires c.IndexFile?
  {
    && c'.IndexFile? && c'.rest == c.rest
    && Indexed(c'.weightMap, ["lm_head"], s.head) && Indexed(c'.weightMap, [args.embed], s.embed)
    && Indexed(c'.weightMap, Linears(args.keepFc), s.mtp)
    && forall n: TensorName :: !Packs(args, n.base) ==> SameEntry(c.weightMap, c'.weightMap, n)
  }

  lemma EntryKept(wm: WeightMap, bases: seq<string>, shard: string, n: TensorName)
    requires n.base !in bases
    ensures SameEntry(wm, IndexAll(wm, bases, shard), n)
  {
    IndexAllHolds(wm, bases, shard);
  }

  lemma ReindexedKeeps(args: Args, s: Shards, wm: WeightMap, n: TensorName)
    requires !Packs(args, n.base)
    ensures SameEntry(wm, Reindexed(args, s, wm), n)
  {
    var wm1 := IndexAll(wm, ["lm_head"], s.head);
    LinearsOnce(n.base);
    EntryKept(wm, ["lm_head"], s.head, n);
    EntryKept(wm1, [args.embed], s.embed, n);
    EntryKept(IndexAll(wm1, [args.embed], s.embed), Linears(args.keepFc), s.mtp, n);
  }

  lemma OnlyPackedMove(args: Args, s: Shards, wm: WeightMap)
    ensures forall n: TensorName :: !Packs(args, n.base) ==> SameEntry(wm, Reindexed(args, s, wm), n)
  {
    forall n: TensorName | !Packs(args, n.base) ensures SameEntry(wm, Reindexed(args, s, wm), n) {
      ReindexedKeeps(args, s, wm, n);
    }
  }

  lemma StreamIndexIs(args: Args, s: Shards, c: Content)
    requires c.IndexFile? && args.embed != "lm_head" && args.embed !in MTP_LINEARS
    ensures StreamIndexEdit(args, s)(c).Put? && StreamIndexAfter(args, s, c, StreamIndexEdit(args, s)(c).content)
  {
    ReindexedIndexes(args, s, c.weightMap);
    OnlyPackedMove(args, s, c.weightMap);
    EditsIndex(args, s, c);
  }

  // ---- a shard

  function Edited(f: Content -> Edit, c: Content): Content {
    if f(c).Put? then f(c).content else c
  }

  /** The heads that live in the file, and the MTP linears if they do. */
  function HeadsIn(args: Args, s: Shards, n: Name): seq<string> {
    (if n == ShardName(s.head) then ["lm_head"] else []) + (if n == ShardName(s.embed) then [args.embed] else [])
  }

  function LinearsIn(args: Args, s: Shards, n: Name): seq<string> {
    if n == ShardName(s.mtp) then Linears(args.keepFc) else []
  }

  /** The weights that live in the file are packed from what they were, and everything else is kept: the
      metadata too, which the part for the MTP linears fills in when it was missing. */
  ghost predicate StreamShardAfter(args: Args, heads: seq<string>, linears: seq<string>, c: Content, c': Content) {
    && c.ShardFile? && c'.ShardFile? && AllPacked(c'.tensors, heads) && AllPacked(c'.tensors, linears)
    && (forall b :: b in heads ==> PackedFrom(c.tensors, c'.tensors, b, 8))
    && (forall b :: b in linears ==> PackedFrom(c.tensors, c'.tensors, b, Bits(MtpOf(args))))
    && (forall n: TensorName :: n.base !in heads && n.base !in linears ==> SameEntry(c.tensors, c'.tensors, n))
    && (c.meta != map[] ==> c'.meta == c.meta)
    && (c.meta == map[] ==> c'.meta == if AnyDense(c, linears) then map["format" := "pt"] else map[])
  }

  predicate AnyDense(c: Content, bases: seq<string>)
    requires c.ShardFile?
  {
    exists b :: b in bases && WeightName(b) in c.tensors
  }

  lemma HeadsAre(bases: seq<string>, c: Content)
    requires HeadsEdit(bases)(c) != Refuse
    ensures c.ShardFile? && Edited(HeadsEdit(bases), c).ShardFile?
    ensures Edited(HeadsEdit(bases), c).meta == c.meta
    ensures TensorsAfter(bases, 8, c.tensors, Edited(HeadsEdit(bases), c).tensors)
  {
    TensorsAre(bases, 8, true, c.tensors);
    if forall b :: b in bases ==> WeightName(b) !in c.tensors {
      NothingToPack(c.tensors, bases, 8, true);
    }
  }

  lemma Composed(heads: seq<string>, linears: seq<string>, bits: nat, ts: Tensors, ts1: Tensors, ts2: Tensors)
    requires 2 <= bits && TensorsAfter(heads, 8, ts, ts1) && TensorsAfter(linears, bits, ts1, ts2)
    requires forall b :: b in heads ==> b !in linears
    ensures AllPacked(ts2, heads) && AllPacked(ts2, linears)
    ensures forall b :: b in heads ==> PackedFrom(ts, ts2, b, 8)
    ensures forall b :: b in linears ==> PackedFrom(ts, ts2, b, bits)
    ensures forall n: TensorName :: n.base !in heads && n.base !in linears ==> SameEntry(ts, ts2, n)
  {
    forall b | b in heads ensures HoldsPacked(ts2, b) && PackedFrom(ts, ts2, b, 8) {
      assert HoldsPacked(ts1, b) && WeightName(b).base == b;
      assert forall n :: n in PackedNames(b) ==> n.base == b;
      assert forall n: TensorName :: n.base == b ==> SameEntry(ts1, ts2, n);
      PackedFromKept(ts, ts1, ts2, b, 8);
    }
    forall b | b in linears ensures PackedFrom(ts, ts2, b, bits) {
      assert forall n: TensorName :: n.base == b ==> SameEntry(ts, ts1, n);
      PackedFromApart(ts, ts1, ts2, b, bits);
    }
  }

  lemma ShardComposed(args: Args, heads: seq<string>, linears: seq<string>, c: Content, c1: Content, c2: Content)
    requires forall b :: b in heads ==> b !in linears
    requires HeadsEdit(heads)(c) != Refuse && c1 == Edited(HeadsEdit(heads), c)
    requires if linears == [] then c2 == c1
             else linears == Linears(args.keepFc) && ShardEdit(MtpOf(args))(c1) != Refuse
                  && c2 == Edited(ShardEdit(MtpOf(args)), c1)
    ensures StreamShardAfter(args, heads, linears, c, c2)
  {
    HeadsAre(heads, c);
    if linears == [] {
      assert TensorsAfter([], Bits(MtpOf(args)), c1.tensors, c1.tensors);
    } else {
      ShardIs(MtpOf(args), c1);
    }
    Composed(heads, linears, Bits(MtpOf(args)), c.tensors, c1.tensors, c2.tensors);
    assert AnyDense(c1, linears) <==> AnyDense(c, linears) by {
      assert forall b :: b in linears ==> SameEntry(c.tensors, c1.tensors, WeightName(b));
    }
  }

  // ---- the whole run

  lemma ThenApplied(p: Plan, q: Plan, live: Live)
    requires p(live).Some? && q(Apply(live, p(live).value)).Some?
    ensures Then(p, q)(live).Some?
    ensures Apply(live, Then(p, q)(live).value) == Applied(q, Applied(p, live))
  {
    ApplyAppend(live, p(live).value, q(Apply(live, p(live).value)).value);
  }

  function Applied(p: Plan, live: Live): Live {
    if p(live).None? then live else Apply(live, p(live).value)
  }

  /** One file after one edit of some file. */
  lemma EditApplied(n: Name, keep: Keep, f: Content -> Edit, live: Live, m: Name)
    requires n.File? && n in live && f(live[n]) != Refuse && m.File?
    ensures Editing(n, keep, f)(live).Some?
    ensures m in Applied(Editing(n, keep, f), live) <==> m in live
    ensures m in live ==> Applied(Editing(n, keep, f), live)[m] == if m == n then Edited(f, live[m]) else live[m]
  {
    EditedFile(n, keep, f, live, m);
  }

  /** The tail: the MTP shard, config.json and the index. */
  lemma TailApplied(args: Args, s: Shards, live: Live, m: Name)
    requires HasModel(live) && args.embed != "lm_head" && args.embed !in MTP_LINEARS && m.File?
    requires ShardName(s.mtp) in live && ShardEdit(MtpOf(args))(live[ShardName(s.mtp)]) != Refuse
    ensures Tail(args, s)(live).Some? && ShardName(s.mtp) != CONFIG && ShardName(s.mtp) != INDEX
    ensures m in Applied(Tail(args, s), live) <==> m in live
    ensures m in live ==>
      Applied(Tail(args, s), live)[m]
      == if m == CONFIG then Edited(StreamConfigEdit(args), live[m])
         else if m == INDEX then Edited(StreamIndexEdit(args, s), live[m])
         else if m == ShardName(s.mtp) then Edited(ShardEdit(MtpOf(args)), live[m]) else live[m]
  {
    var n, keep := ShardName(s.mtp), Copy(".bak-quant");
    var mid := Applied(MtpPart(args, s.mtp), live);
    ShardIs(MtpOf(args), live[n]);
    EditApplied(n, ORIGINAL, ShardEdit(MtpOf(args)), live, CONFIG);
    EditApplied(n, ORIGINAL, ShardEdit(MtpOf(args)), live, INDEX);
    EditApplied(n, ORIGINAL, ShardEdit(MtpOf(args)), live, m);
    JsonApplied(args, s, mid, m);
    ThenApplied(MtpPart(args, s.mtp), JsonPart(args, s), live);
  }

  lemma JsonApplied(args: Args, s: Shards, live: Live, m: Name)
    requires HasModel(live) && args.embed != "lm_head" && args.embed !in MTP_LINEARS && m.File?
    ensures JsonPart(args, s)(live).Some?
    ensures m in Applied(JsonPart(args, s), live) <==> m in live
    ensures m in live ==>
      Applied(JsonPart(args, s), live)[m]
      == if m == CONFIG then Edited(StreamConfigEdit(args), live[m])
         else if m == INDEX then Edited(StreamIndexEdit(args, s), live[m]) else live[m]
  {
    var keep := Copy(".bak-quant");
    var f, g := StreamConfigEdit(args), StreamIndexEdit(args, s);
    StreamConfigIs(args, live[CONFIG]);
    StreamIndexIs(args, s, live[INDEX]);
    EditApplied(CONFIG, keep, f, live, INDEX);
    EditApplied(CONFIG, keep, f, live, m);
    EditApplied(INDEX, keep, g, Applied(Editing(CONFIG, keep, f), live), m);
    ThenApplied(Editing(CONFIG, keep, f), Editing(INDEX, keep, g), live);
  }

  /** What the tail makes of one file. */
  function TailContent(args: Args, s: Shards, m: Name, c: Content): Content {
    if m == CONFIG then Edited(StreamConfigEdit(args), c)
    else if m == INDEX then Edited(StreamIndexEdit(args, s), c)
    else if m == ShardName(s.mtp) then Edited(ShardEdit(MtpOf(args)), c) else c
  }

  function PassContent(shard: string, bases: seq<string>, m: Name, c: Content): Content {
    if m == ShardName(shard) then Edited(HeadsEdit(bases), c) else c
  }

  lemma OnePassFile(args: Args, s: Shards, shard: string, bases: seq<string>, live: Live, m: Name)
    requires HasModel(live) && args.embed != "lm_head" && args.embed !in MTP_LINEARS && m.File?
    requires ShardName(shard) in live && HeadsEdit(bases)(live[ShardName(shard)]) != Refuse
    requires ShardName(s.mtp) in live && ShardEdit(MtpOf(args))(live[ShardName(s.mtp)]) != Refuse
    requires forall b :: b in bases ==> b !in Linears(args.keepFc)
    ensures var p := Then(HeadPart(shard, bases), Tail(args, s));
            && p(live).Some? && (m in Applied(p, live) <==> m in live)
            && (m in live ==>
                  Applied(p, live)[m] == TailContent(args, s, m, PassContent(shard, bases, m, live[m])))
  {
    var mid := Applied(HeadPart(shard, bases), live);
    TailAfterHead(args, s, shard, bases, live);
    EditApplied(ShardName(shard), ORIGINAL, HeadsEdit(bases), live, m);
    TailApplied(args, s, mid, m);
    ThenApplied(HeadPart(shard, bases), Tail(args, s), live);
  }

  /** The premises of a run, spelled out. */
  ghost predicate Accepts(args: Args, s: Shards, live: Live) {
    && HasModel(live) && args.embed != "lm_head" && args.embed !in MTP_LINEARS
    && ShardName(s.head) in live && HeadsEdit(["lm_head"])(live[ShardName(s.head)]) != Refuse
    && ShardName(s.embed) in live && HeadsEdit([args.embed])(live[ShardName(s.embed)]) != Refuse
    && ShardName(s.mtp) in live && ShardEdit(MtpOf(args))(live[ShardName(s.mtp)]) != Refuse
  }

  lemma ReadyAccepts(args: Args, s: Shards, live: Live)
    requires StreamReady(args, live) && StreamOpening(args, live) == Some(s)
    ensures Accepts(args, s, live) && StreamScript(args)(live) == StreamParts(args, s)(live)
  {
    OpenedPlan(args, s, live);
  }

  lemma AfterFirstPass(args: Args, s: Shards, live: Live, mid: Live)
    requires Accepts(args, s, live) && s.head != s.embed && mid == Applied(HeadPart(s.head, ["lm_head"]), live)
    ensures HeadPart(s.head, ["lm_head"])(live).Some? && HasModel(mid)
    ensures ShardName(s.embed) in mid && mid[ShardName(s.embed)] == live[ShardName(s.embed)]
    ensures ShardName(s.mtp) in mid && ShardEdit(MtpOf(args))(mid[ShardName(s.mtp)]) != Refuse
  {
    LinearsApart(args);
    TailAfterHead(args, s, s.head, ["lm_head"], live);
    HeadPassLeaves(args, s.head, ["lm_head"], live);
  }

  lemma TwoPassFile(args: Args, s: Shards, live: Live, m: Name)
    requires Accepts(args, s, live) && s.head != s.embed && m.File?
    ensures var p := StreamParts(args, s);
            && p(live).Some? && (m in Applied(p, live) <==> m in live)
            && (m in live ==>
                  Applied(p, live)[m]
                  == TailContent(args, s, m, PassContent(s.embed, [args.embed], m,
                                                         PassContent(s.head, ["lm_head"], m, live[m]))))
  {
    var first := HeadPart(s.head, ["lm_head"]);
    var mid := Applied(first, live);
    AfterFirstPass(args, s, live, mid);
    LinearsApart(args);
    EditApplied(ShardName(s.head), ORIGINAL, HeadsEdit(["lm_head"]), live, m);
    OnePassFile(args, s, s.embed, [args.embed], mid, m);
    ThenApplied(first, Then(HeadPart(s.embed, [args.embed]), Tail(args, s)), live);
  }

  lemma SharedPassFile(args: Args, s: Shards, live: Live, m: Name)
    requires Accepts(args, s, live) && s.head == s.embed && m.File?
    ensures var p := StreamParts(args, s);
            && p(live).Some? && (m in Applied(p, live) <==> m in live)
            && (m in live ==>
                  Applied(p, live)[m]
                  == TailContent(args, s, m, PassContent(s.head, ["lm_head", args.embed], m, live[m])))
  {
    LinearsApart(args);
    BothAccepted(args.embed, live[ShardName(s.head)]);
    OnePassFile(args, s, s.head, ["lm_head", args.embed], live, m);
  }

  lemma NoHeads(c: Content)
    ensures Edited(HeadsEdit([]), c) == c
  {
  }

  /** One pass or two, a file is edited for the heads that live in it. */
  lemma PassesAre(args: Args, s: Shards, m: Name, c: Content)
    ensures Edited(HeadsEdit(HeadsIn(args, s, m)), c)
         == if s.head == s.embed then PassContent(s.head, ["lm_head", args.embed], m, c)
            else PassContent(s.embed, [args.embed], m, PassContent(s.head, ["lm_head"], m, c))
  {
    NoHeads(c);
    assert ["lm_head"] + [args.embed] == ["lm_head", args.embed];
    assert ["lm_head"] + [] == ["lm_head"] && [] + [args.embed] == [args.embed];
  }

  /** One file after a completed run. */
  lemma StreamFile(args: Args, s: Shards, live: Live, m: Name)
    requires Accepts(args, s, live) && StreamScript(args)(live) == StreamParts(args, s)(live) && m.File?
    ensures var l := Applied(StreamScript(args), live);
            && (m in l <==> m in live)
            && (m in live ==> l[m] == StreamContent(args, s, m, live[m]))
  {
    if m in live {
      PassesAre(args, s, m, live[m]);
    }
    if s.head == s.embed {
      SharedPassFile(args, s, live, m);
    } else {
      TwoPassFile(args, s, live, m);
    }
  }

  /** What a completed run leaves: config.json, the index, the up to three shards, and all else as it was. */
  ghost predicate StreamAchieved(args: Args, s: Shards, live: Live, l: Live) {
    && HasModel(live) && CONFIG in l && StreamConfigAfter(args, live[CONFIG], l[CONFIG])
    && INDEX in l && StreamIndexAfter(args, s, live[INDEX], l[INDEX])
    && (forall n: Name :: n.File? && n != CONFIG && n != INDEX ==>
          if n in live then n in l && FileAfter(args, s, n, live[n], l[n]) else n !in l)
  }

  ghost predicate FileAfter(args: Args, s: Shards, n: Name, c: Content, c': Content) {
    if n == ShardName(s.head) || n == ShardName(s.embed) || n == ShardName(s.mtp)
    then StreamShardAfter(args, HeadsIn(args, s, n), LinearsIn(args, s, n), c, c')
    else c' == c
  }

  lemma ShardFileAfter(args: Args, s: Shards, live: Live, n: Name, c': Content)
    requires Accepts(args, s, live) && n in live && n.File?
    requires n == ShardName(s.head) || n == ShardName(s.embed) || n == ShardName(s.mtp)
    requires c' == TailContent(args, s, n, Edited(HeadsEdit(HeadsIn(args, s, n)), live[n]))
    ensures StreamShardAfter(args, HeadsIn(args, s, n), LinearsIn(args, s, n), live[n], c')
  {
    var heads, linears, c := HeadsIn(args, s, n), LinearsIn(args, s, n), live[n];
    var c1 := Edited(HeadsEdit(heads), c);
    LinearsApart(args);
    HeadsAccepted(args, s, live, n);
    HeadsAre(heads, c);
    if n == ShardName(s.mtp) {
      MtpStillAccepted(args, c, c1, heads);
    }
    ShardComposed(args, heads, linears, c, c1, c');
  }

  lemma HeadsAccepted(args: Args, s: Shards, live: Live, n: Name)
    requires Accepts(args, s, live) && n in live && n.File?
    requires n == ShardName(s.head) || n == ShardName(s.embed) || n == ShardName(s.mtp)
    ensures HeadsEdit(HeadsIn(args, s, n))(live[n]) != Refuse
    ensures forall b :: b in HeadsIn(args, s, n) ==> b !in Linears(args.keepFc)
  {
    LinearsApart(args);
    if n == ShardName(s.head) && n == ShardName(s.embed) {
      assert HeadsIn(args, s, n) == ["lm_head", args.embed];
      BothAccepted(args.embed, live[n]);
    } else if n == ShardName(s.head) {
      assert HeadsIn(args, s, n) == ["lm_head"];
    } else if n == ShardName(s.embed) {
      assert HeadsIn(args, s, n) == [args.embed];
    } else {
      ShardIs(MtpOf(args), live[n]);
      NothingRefused(live[n]);
    }
  }

  lemma NothingRefused(c: Content)
    requires c.ShardFile?
    ensures HeadsEdit([])(c) == Leave
  {
  }

  /** What the run makes of a file, from what the file held. */
  function StreamContent(args: Args, s: Shards, m: Name, c: Content): Content {
    TailContent(args, s, m, Edited(HeadsEdit(HeadsIn(args, s, m)), c))
  }

  lemma OtherContent(args: Args, s: Shards, n: Name, c: Content)
    requires n != CONFIG && n != INDEX && n != ShardName(s.head) && n != ShardName(s.embed) && n != ShardName(s.mtp)
    ensures StreamContent(args, s, n, c) == c
  {
    NoHeads(c);
  }

  lemma FileAfterIs(args: Args, s: Shards, live: Live, n: Name)
    requires Accepts(args, s, live) && n in live && n.File? && n != CONFIG && n != INDEX
    ensures FileAfter(args, s, n, live[n], StreamContent(args, s, n, live[n]))
  {
    if n == ShardName(s.head) || n == ShardName(s.embed) || n == ShardName(s.mtp) {
      ShardFileAfter(args, s, live, n, StreamContent(args, s, n, live[n]));
    } else {
      OtherContent(args, s, n, live[n]);
    }
  }

  lemma EachFileAfter(args: Args, s: Shards, live: Live, l: Live, n: Name)
    requires Accepts(args, s, live) && n.File? && n != CONFIG && n != INDEX
    requires n in l <==> n in live
    requires n in live ==> l[n] == StreamContent(args, s, n, live[n])
    ensures if n in live then n in l && FileAfter(args, s, n, live[n], l[n]) else n !in l
  {
    if n in live {
      FileAfterIs(args, s, live, n);
    }
  }

  lemma JsonContents(args: Args, s: Shards, live: Live)
    requires Accepts(args, s, live)
    ensures StreamConfigAfter(args, live[CONFIG], StreamContent(args, s, CONFIG, live[CONFIG]))
    ensures StreamIndexAfter(args, s, live[INDEX], StreamContent(args, s, INDEX, live[INDEX]))
  {
    JsonIsNoShard(args, s, live);
    ConfigContent(args, s, live[CONFIG]);
    IndexContent(args, s, live[INDEX]);
  }

  lemma ConfigContent(args: Args, s: Shards, c: Content)
    requires LoadConfig(c).Some? && Edited(HeadsEdit(HeadsIn(args, s, CONFIG)), c) == c
    ensures StreamConfigAfter(args, c, StreamContent(args, s, CONFIG, c))
  {
    StreamConfigIs(args, c);
  }

  lemma IndexContent(args: Args, s: Shards, c: Content)
    requires c.IndexFile? && args.embed != "lm_head" && args.embed !in MTP_LINEARS
    requires Edited(HeadsEdit(HeadsIn(args, s, INDEX)), c) == c
    ensures StreamIndexAfter(args, s, c, StreamContent(args, s, INDEX, c))
  {
    StreamIndexIs(args, s, c);
    assert INDEX != CONFIG;
  }

  lemma AcceptedIsShard(bases: seq<string>, c: Content)
    requires HeadsEdit(bases)(c) != Refuse
    ensures c.ShardFile?
  {
  }

  lemma ShardIsNoJson(live: Live, x: string)
    requires HasModel(live) && ShardName(x) in live && live[ShardName(x)].ShardFile?
    ensures ShardName(x) != CONFIG && ShardName(x) != INDEX
  {
  }

  lemma JsonIsNoShard(args: Args, s: Shards, live: Live)
    requires Accepts(args, s, live)
    ensures HeadsIn(args, s, CONFIG) == [] && HeadsIn(args, s, INDEX) == []
    ensures Edited(HeadsEdit([]), live[CONFIG]) == live[CONFIG] && Edited(HeadsEdit([]), live[INDEX]) == live[INDEX]
  {
    AcceptedIsShard(["lm_head"], live[ShardName(s.head)]);
    AcceptedIsShard([args.embed], live[ShardName(s.embed)]);
    ShardIsNoJson(live, s.head);
    ShardIsNoJson(live, s.embed);
    NoHeads(live[CONFIG]);
    NoHeads(live[INDEX]);
  }

  /** The whole effect of a completed run. */
  lemma StreamAchieves(args: Args, live: Live)
    requires StreamReady(args, live)
    ensures StreamAchieved(args, StreamOpening(args, live).value, live, Applied(StreamScript(args), live))
  {
    var s := StreamOpening(args, live).value;
    var l := Applied(StreamScript(args), live);
    ReadyAccepts(args, s, live);
    JsonContents(args, s, live);
    StreamFile(args, s, live, CONFIG);
    StreamFile(args, s, live, INDEX);
    forall n: Name | n.File? && n != CONFIG && n != INDEX
      ensures if n in live then n in l && FileAfter(args, s, n, live[n], l[n]) else n !in l
    {
      StreamFile(args, s, live, n);
      EachFileAfter(args, s, live, l, n);
    }
  }
}
