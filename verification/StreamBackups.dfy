/** prepare/quant_heads_stream.py, keep_original and the .bak-quant copies: one run may edit the same shard
    twice, and a killed run may have edited it before, but the first backup is never replaced. */
module StreamBackups {
  import opened Contents
  import opened AtomicPublish
  import opened Resume
  import opened PrepareSteps
  import opened PrepareScripts
  import opened StreamHeads
  import opened Originals

  function StreamKeep(n: Name): Keep {
    if n == CONFIG || n == INDEX then Copy(".bak-quant") else Hardlink(".bak-orig")
  }

  lemma TailKeeps(args: Args, s: Shards, live: Live)
    requires HasModel(live) && ShardName(s.mtp) in live && live[ShardName(s.mtp)].ShardFile?
    ensures KeepsOriginals(StreamKeep, live, Tail(args, s))
  {
    var config := Editing(CONFIG, Copy(".bak-quant"), StreamConfigEdit(args));
    var index := Editing(INDEX, Copy(".bak-quant"), StreamIndexEdit(args, s));
    EditKeeps(StreamKeep, live, ShardName(s.mtp), ORIGINAL, ShardEdit(MtpOf(args)));
    EditKeeps(StreamKeep, live, CONFIG, Copy(".bak-quant"), StreamConfigEdit(args));
    EditKeeps(StreamKeep, live, INDEX, Copy(".bak-quant"), StreamIndexEdit(args, s));
    ThenKeeps(StreamKeep, live, config, index);
    ThenKeeps(StreamKeep, live, MtpPart(args, s.mtp), JsonPart(args, s));
  }

  lemma HeadKeeps(shard: string, bases: seq<string>, rest: Plan, live: Live)
    requires HasModel(live) && ShardName(shard) in live && live[ShardName(shard)].ShardFile?
    requires KeepsOriginals(StreamKeep, live, rest)
    ensures KeepsOriginals(StreamKeep, live, Then(HeadPart(shard, bases), rest))
  {
    EditKeeps(StreamKeep, live, ShardName(shard), ORIGINAL, HeadsEdit(bases));
    ThenKeeps(StreamKeep, live, HeadPart(shard, bases), rest);
  }

  lemma StreamKeeps(args: Args, live: Live)
    requires StreamReady(args, live)
    ensures KeepsOriginals(StreamKeep, live, StreamParts(args, StreamOpening(args, live).value))
  {
    var s := StreamOpening(args, live).value;
    TailKeeps(args, s, live);
    HeadKeeps(s.head, ["lm_head", args.embed], Tail(args, s), live);
    HeadKeeps(s.embed, [args.embed], Tail(args, s), live);
    HeadKeeps(s.head, ["lm_head"], Then(HeadPart(s.embed, [args.embed]), Tail(args, s)), live);
  }

  /** What a plan that keeps the originals has kept in any state its killed runs reach. */
  lemma ReachedKeeps(own: Keeps, p: Plan, q: Plan, live: Live, d: Dir)
    requires p(live).Some? && Reached(p, live, d) && p(live) == q(live) && KeepsOriginals(own, live, q)
    ensures OriginalsKept(own, live, d.live)
  {
    var i: int :| ReachedAt(p, live, d, i);
    assert OriginalsKept(own, live, live);
    assert AllStagesKeep(own, live, live, q(live).value);
  }

  /** Through any history of killed runs, .bak-orig keeps the bytes a shard had before the script first
      touched it, and .bak-quant those of config.json and the index; a file without a backup has not
      been touched. */
  lemma StreamOriginalsKept(args: Args, live: Live, budgets: seq<nat>)
    requires StreamReady(args, live)
    ensures OriginalsKept(StreamKeep, live, History(StreamScript(args), Dir(live, map[]), budgets).live)
  {
    var p := StreamScript(args);
    StreamResumes(args, live);
    Start(p, live);
    HistoryStays(p, live, Dir(live, map[]), budgets);
    StreamKeeps(args, live);
    ReachedKeeps(StreamKeep, p, StreamParts(args, StreamOpening(args, live).value), live,
                 History(p, Dir(live, map[]), budgets));
  }
}
