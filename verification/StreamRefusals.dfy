/** prepare/quant_heads_stream.py when it stops with an error. The shard of the MTP linears is looked up after
    the heads are rewritten, so such a run may leave rewritten shards under the old index. */
module StreamRefusals {
  import opened Contents
  import opened Numbers
  import opened RoundToNearest
  import opened QuantSchema
  import opened AtomicPublish
  import opened Resume
  import opened PrepareSteps
  import opened PrepareScripts
  import opened StreamHeads
  import opened StreamRun

  /** The pass over a shard does not stop. */
  predicate Passes(shard: string, bases: seq<string>, live: Live) {
    && ShardName(shard) in live && live[ShardName(shard)].ShardFile?
    && PackAll(live[ShardName(shard)].tensors, bases, 8, true).Some?
  }

  /** The pass over a shard finds a bf16 weight, and packs it. */
  predicate Rewrites(shard: string, bases: seq<string>, live: Live) {
    Passes(shard, bases, live) && exists b :: b in bases && WeightName(b) in live[ShardName(shard)].tensors
  }

  /** One of the head passes that a run gets to finds a bf16 weight to pack. */
  predicate RewritesHead(args: Args, live: Live) {
    HasModel(live) && FindHeads(args, live[INDEX].weightMap).Some? &&
    var h := FindHeads(args, live[INDEX].weightMap).value;
    if h.head == h.embed then Rewrites(h.head, ["lm_head", args.embed], live)
    else Rewrites(h.head, ["lm_head"], live)
         || (Passes(h.head, ["lm_head"], live) && Rewrites(h.embed, [args.embed], live))
  }

  predicate SameJson(live: Live, l: Live) {
    HasModel(live) && HasModel(l) && l[CONFIG] == live[CONFIG] && l[INDEX] == live[INDEX]
  }

  lemma PassTouches(args: Args, shard: string, bases: seq<string>, live: Live, a: seq<Action>)
    requires HasModel(live) && HeadPart(shard, bases)(live) == Some(a)
    ensures Passes(shard, bases, live) && SameJson(live, Apply(live, a))
    ensures Apply(live, a) == live <==> !Rewrites(shard, bases, live)
    ensures forall s :: s != shard && ShardName(s) in live ==>
      ShardName(s) in Apply(live, a) && Apply(live, a)[ShardName(s)] == live[ShardName(s)]
  {
    HeadPassLeaves(args, shard, bases, live);
    var l := Apply(live, a);
    if Rewrites(shard, bases, live) {
      var b :| b in bases && WeightName(b) in live[ShardName(shard)].tensors;
      assert HoldsPacked(l[ShardName(shard)].tensors, b);
    } else {
      assert HeadsEdit(bases)(live[ShardName(shard)]) == Leave;
    }
  }

  lemma PassStops(shard: string, bases: seq<string>, live: Live)
    requires HeadPart(shard, bases)(live).None?
    ensures !Passes(shard, bases, live)
  {
  }

  /** Once the MTP shard is done nothing can stop the script. */
  lemma TailExitsEarly(args: Args, s: Shards, l: Live)
    requires HasModel(l)
    ensures TailExits(args, s)(l) <==> MtpPart(args, s.mtp)(l).None?
  {
    var n, f := ShardName(s.mtp), ShardEdit(MtpOf(args));
    if MtpPart(args, s.mtp)(l).Some? {
      EditingKeeps(n, ORIGINAL, f, l, CONFIG);
      EditingKeeps(n, ORIGINAL, f, l, INDEX);
      JsonNeverExits(args, s, Apply(l, MtpPart(args, s.mtp)(l).value));
    }
  }

  /** What follows the heads exits before it writes anything. */
  lemma RestStops(args: Args, h: Heads, wm: WeightMap, l: Live)
    requires HasModel(l) && AfterHeadsExits(args, h, wm)(l)
    ensures AfterHeads(args, h, wm)(l).None?
  {
    if FindMtp(args, wm).Some? {
      TailExitsEarly(args, Shards(h.head, h.embed, FindMtp(args, wm).value), l);
    }
  }

  /** The actions of a run that exits: those of the head passes it got through. */
  lemma LastPassStops(args: Args, h: Heads, wm: WeightMap, shard: string, bases: seq<string>, live: Live)
    requires HasModel(live)
    requires ThenExits(HeadPart(shard, bases), AfterHeadsExits(args, h, wm))(live)
    ensures Then(HeadPart(shard, bases), AfterHeads(args, h, wm))(live) == HeadPart(shard, bases)(live)
  {
    if HeadPart(shard, bases)(live).Some? {
      var a := HeadPart(shard, bases)(live).value;
      PassTouches(args, shard, bases, live, a);
      RestStops(args, h, wm, Apply(live, a));
    }
  }

  ghost predicate TouchedIff(live: Live, plan: Option<seq<Action>>, rewrites: bool) {
    var l := if plan.None? then live else Apply(live, plan.value);
    SameJson(live, l) && (l == live <==> !rewrites)
  }

  lemma OnePassStops(args: Args, h: Heads, wm: WeightMap, shard: string, bases: seq<string>, live: Live)
    requires HasModel(live)
    requires ThenExits(HeadPart(shard, bases), AfterHeadsExits(args, h, wm))(live)
    ensures TouchedIff(live, Then(HeadPart(shard, bases), AfterHeads(args, h, wm))(live), Rewrites(shard, bases, live))
  {
    LastPassStops(args, h, wm, shard, bases, live);
    if HeadPart(shard, bases)(live).Some? {
      PassTouches(args, shard, bases, live, HeadPart(shard, bases)(live).value);
    } else {
      PassStops(shard, bases, live);
    }
  }

  lemma TwoPassesStop(args: Args, h: Heads, wm: WeightMap, live: Live)
    requires HasModel(live) && h.head != h.embed
    requires HeadsThenExits(args, h, AfterHeadsExits(args, h, wm))(live)
    ensures TouchedIff(live, HeadsThen(args, h, AfterHeads(args, h, wm))(live),
                       Rewrites(h.head, ["lm_head"], live)
                       || (Passes(h.head, ["lm_head"], live) && Rewrites(h.embed, [args.embed], live)))
  {
    var p := HeadPart(h.head, ["lm_head"]);
    var q := Then(HeadPart(h.embed, [args.embed]), AfterHeads(args, h, wm));
    if p(live).None? {
      PassStops(h.head, ["lm_head"], live);
    } else {
      var a := p(live).value;
      PassTouches(args, h.head, ["lm_head"], live, a);
      SecondPassStops(args, h, wm, live, a, q);
    }
  }

  /** After lm_head's pass: a shard it rewrote stays rewritten, and the embeddings' shard is as it was. */
  lemma SecondPassStops(args: Args, h: Heads, wm: WeightMap, live: Live, a: seq<Action>, q: Plan)
    requires HasModel(live) && h.head != h.embed && HeadPart(h.head, ["lm_head"])(live) == Some(a)
    requires q == Then(HeadPart(h.embed, [args.embed]), AfterHeads(args, h, wm))
    requires ThenExits(HeadPart(h.embed, [args.embed]), AfterHeadsExits(args, h, wm))(Apply(live, a))
    ensures TouchedIff(live, Then(HeadPart(h.head, ["lm_head"]), q)(live),
                       Rewrites(h.head, ["lm_head"], live) || Rewrites(h.embed, [args.embed], live))
  {
    var l := Apply(live, a);
    PassTouches(args, h.head, ["lm_head"], live, a);
    OnePassStops(args, h, wm, h.embed, [args.embed], l);
    LastPassStops(args, h, wm, h.embed, [args.embed], l);
    SameShardRewrites(args, h, live, a);
    if q(l).Some? {
      PassTouches(args, h.embed, [args.embed], l, q(l).value);
      ApplyAppend(live, a, q(l).value);
      if l != live {
        HeadShardDiffers(args, h, live, a);
        assert ShardName(h.head) in l;
      }
    }
  }

  lemma SameShardRewrites(args: Args, h: Heads, live: Live, a: seq<Action>)
    requires HasModel(live) && h.head != h.embed && HeadPart(h.head, ["lm_head"])(live) == Some(a)
    ensures Rewrites(h.embed, [args.embed], Apply(live, a)) <==> Rewrites(h.embed, [args.embed], live)
  {
    EditingKeeps(ShardName(h.head), ORIGINAL, HeadsEdit(["lm_head"]), live, ShardName(h.embed));
  }

  lemma HeadShardDiffers(args: Args, h: Heads, live: Live, a: seq<Action>)
    requires HasModel(live) && HeadPart(h.head, ["lm_head"])(live) == Some(a) && Apply(live, a) != live
    ensures ShardName(h.head) in live && ShardName(h.head) in Apply(live, a)
    ensures Apply(live, a)[ShardName(h.head)] != live[ShardName(h.head)]
  {
    HeadPassLeaves(args, h.head, ["lm_head"], live);
    PassTouches(args, h.head, ["lm_head"], live, a);
    assert "lm_head" in ["lm_head"];
    assert HoldsPacked(Apply(live, a)[ShardName(h.head)].tensors, "lm_head");
  }

  /** A run that exits leaves config.json and the index as they were, and everything else too if and only
      if none of the head passes it got to found a bf16 weight to pack. */
  lemma RefusalTouchesIff(args: Args, live: Live)
    requires StreamExits(args, live)
    ensures var d := Complete(StreamScript(args), Dir(live, map[]));
            && (d == Dir(live, map[]) <==> !RewritesHead(args, live))
            && (HasModel(live) ==> SameJson(live, d.live))
  {
    var d := Complete(StreamScript(args), Dir(live, map[]));
    if StreamAt(args, live).Some? {
      ExecAll(Dir(live, map[]), StreamAt(args, live).value);
    }
    if HasModel(live) && FindHeads(args, live[INDEX].weightMap).Some? {
      var wm := live[INDEX].weightMap;
      var h := FindHeads(args, wm).value;
      if h.head == h.embed {
        OnePassStops(args, h, wm, h.head, ["lm_head", args.embed], live);
      } else {
        TwoPassesStop(args, h, wm, live);
      }
    }
  }

  // ---- such a run

  function Constant(x: real, n: nat): (r: Row)
    ensures |r| == n && forall k :: 0 <= k < n ==> r[k] == x
  {
    if n == 0 then [] else [x] + Constant(x, n - 1)
  }

  lemma {:induction false} ConstantMax(x: real, n: nat)
    requires 0.0 <= x
    ensures AMax(Constant(x, n)) == if n == 0 then 0.0 else x
  {
    if n > 0 {
      ConstantMax(x, n - 1);
      assert Constant(x, n)[1..] == Constant(x, n - 1);
    }
  }

  lemma {:induction false} ConstantSquare(x: real, n: nat)
    requires x == 0.0 || x == 1.0
    ensures RowSquare(Constant(x, n)) == if x == 0.0 then 0.0 else n as real
  {
    if n > 0 {
      ConstantSquare(x, n - 1);
      assert Constant(x, n)[1..] == Constant(x, n - 1);
    }
  }

  const ONES: Row := Constant(1.0, GROUP)

  /** A row of ones is packed without error: its scale is 1/127 and every code is 127. */
  lemma OnesAccepted()
    ensures Packable([ONES]) && Accepted([ONES], 8, true)
  {
    var qmax := QMax(8);
    assert qmax == 127;
    assert GroupOf(ONES, 0) == ONES;
    ConstantMax(1.0, GROUP);
    assert ScaleAt(ONES, 0, qmax, PACK_FLOOR) == 1.0 / 127.0;
    forall j | 0 <= j < GROUP ensures ResidualAt(ONES, j, qmax, PACK_FLOOR) == 0.0 {
      assert j / GROUP == 0;
      assert 1.0 / (1.0 / 127.0) == 127.0;
      assert Round(127.0) == 127;
    }
    assert RowResidual(ONES, qmax, PACK_FLOOR) == Constant(0.0, GROUP);
    ConstantSquare(0.0, GROUP);
    ConstantSquare(1.0, GROUP);
    assert Residual([ONES], qmax, PACK_FLOOR) == [Constant(0.0, GROUP)];
    SingleSquare(Constant(0.0, GROUP));
    SingleSquare(ONES);
  }

  lemma SingleSquare(x: Row)
    ensures SquareNorm([x]) == RowSquare(x)
  {
    assert [x][..0] == [];
  }

  const EMBED := "model.embed_tokens"

  /** A model without MTP weights whose one shard holds both heads in bf16. */
  function NoMtp(): Live {
    var weights := Weights(4, true, None, GROUP, "group", "int", "");
    var quant := Quantization(None, Some([]), map["group_0" := Group([], weights, "")]);
    var tensors := map[WeightName("lm_head") := Dense([ONES]), WeightName(EMBED) := Dense([ONES])];
    map[CONFIG := ConfigFile(Some(quant), ""),
        INDEX := IndexFile(map[WeightName("lm_head") := "s", WeightName(EMBED) := "s"], ""),
        ShardName("s") := ShardFile(tensors, map[])]
  }

  lemma OnesPacked(ts: Tensors, base: string)
    requires WeightName(base) in ts && ts[WeightName(base)] == Dense([ONES])
    ensures PackOne(ts, base, 8, true).Some?
  {
    OnesAccepted();
  }

  /** The index gives the heads' shard and none for the MTP linears. */
  lemma NoMtpFound(args: Args, wm: WeightMap)
    requires args.embed == EMBED && wm == map[WeightName("lm_head") := "s", WeightName(EMBED) := "s"]
    ensures FindHeads(args, wm) == Some(Heads("s", "s")) && FindMtp(args, wm).None?
  {
    var linear := Linears(args.keepFc)[0];
    assert linear[0] == 'm' && linear[1] == 't' && "lm_head"[0] == 'l' && EMBED[1] == 'o';
  }

  lemma NoMtpRewrites()
    ensures Rewrites("s", ["lm_head", EMBED], NoMtp())
  {
    var ts := NoMtp()[ShardName("s")].tensors;
    OnesPacked(ts, "lm_head");
    OnesPacked(ts, EMBED);
    PackAllAccepts(ts, ["lm_head", EMBED], 8, true);
    assert "lm_head" in ["lm_head", EMBED];
  }

  /** The script stops with an error on it, and leaves its shard packed and its index naming the bf16 weights. */
  lemma RefusedYetRewritten(fourBits: bool, keepFc: bool)
    ensures var args := Args(EMBED, fourBits, keepFc);
            StreamExits(args, NoMtp()) && Complete(StreamScript(args), Dir(NoMtp(), map[])) != Dir(NoMtp(), map[])
  {
    var args := Args(EMBED, fourBits, keepFc);
    NoMtpFound(args, NoMtp()[INDEX].weightMap);
    NoMtpRewrites();
    assert RewritesHead(args, NoMtp());
    RefusalTouchesIff(args, NoMtp());
  }
}
