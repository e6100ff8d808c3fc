/** What a completed run of prepare/fetch_fast_variant.py leaves in the variant's directory. */
module FastResults {
  import opened Contents
  import opened AtomicPublish
  import opened Resume
  import opened PrepareSteps
  import opened FastVariant

  predicate SameName(live: Live, l: Live, n: Name) {
    if n in live then n in l && l[n] == live[n] else n !in l
  }

  /** dst holds what src held; when only missing files are made, a dst that was there is as it was. */
  predicate Taken(live: Live, l: Live, src: Name, dst: Name, onlyMissing: bool) {
    if src !in live || (onlyMissing && dst in live) then SameName(live, l, dst)
    else dst in l && l[dst] == live[src]
  }

  ghost predicate StepTaken(s: FileStep, live: Live, l: Live) {
    Taken(live, l, s.src, s.dst, !s.CopyAlways?)
  }

  lemma OneTaken(s: FileStep, live: Live, n: Name)
    requires s.src != s.dst
    ensures StepTaken(s, live, Apply(live, StepActions(s, live)))
    ensures n != s.dst ==> SameName(live, Apply(live, StepActions(s, live)), n)
  {
    var a := StepActions(s, live);
    if a != [] {
      assert a == [a[0]];
      ApplySingle(live, a[0]);
    }
  }

  lemma FetchSame(steps: seq<FileStep>, live: Live, n: Name)
    requires forall i :: 0 <= i < |steps| ==> steps[i].dst != n
    ensures Fetch(steps)(live).Some? && SameName(live, Apply(live, Fetch(steps)(live).value), n)
  {
    FetchTouches(steps, live, n);
    ApplyKeeps(live, Fetch(steps)(live).value, n);
  }

  lemma {:induction false} FetchTakes(steps: seq<FileStep>, live: Live, i: nat)
    requires WellOrdered(steps) && i < |steps|
    ensures Fetch(steps)(live).Some? && StepTaken(steps[i], live, Apply(live, Fetch(steps)(live).value))
    decreases |steps|
  {
    var s, rest := steps[0], steps[1..];
    var mid := Apply(live, StepActions(s, live));
    assert s.src != s.dst;
    FetchRuns(rest, mid);
    var b := Fetch(rest)(mid).value;
    FetchCons(steps, live, StepActions(s, live), b);
    ApplyAppend(live, StepActions(s, live), b);
    if i == 0 {
      OneTaken(s, live, s.dst);
      FetchSame(rest, mid, s.dst);
    } else {
      OneTaken(s, live, steps[i].src);
      OneTaken(s, live, steps[i].dst);
      FetchTakes(rest, mid, i - 1);
    }
  }

  /** The variant: the base shards and small files it did not have, and every downloaded file. */
  ghost predicate Assembled(shards: seq<string>, live: Live, l: Live, complete: bool) {
    && (forall i :: 0 <= i < |shards| ==> Taken(live, l, File(Base, shards[i]), File(Fast, shards[i]), true))
    && (forall i :: 0 <= i < |SIDECARS| ==> Taken(live, l, File(Base, SIDECARS[i]), File(Fast, SIDECARS[i]), true))
    && (complete ==> forall i :: 0 <= i < |DOWNLOADS| ==>
          Taken(live, l, File(Hub, DOWNLOADS[i]), File(Fast, DOWNLOADS[i]), false))
    && (forall n: Name :: n.dir != Fast ==> SameName(live, l, n))
    && (!complete ==> forall i :: 0 <= i < |DOWNLOADS| ==> SameName(live, l, File(Fast, DOWNLOADS[i])))
  }

  /** A completed run assembles the variant from its sources; without a tokenizer it stops before the
      downloads, and without a base model before anything. */
  lemma FastAchieves(shards: seq<string>, live: Live)
    requires ShardListing(shards)
    ensures FastPlan(shards)(live).Some? <==> CONFIG in live
    ensures CONFIG in live ==>
      Assembled(shards, live, Apply(live, FastPlan(shards)(live).value), TokenizerFound(live))
  {
    if CONFIG in live {
      var steps := StepsFor(shards, live);
      FastStepsOrdered(shards);
      PreparationOrdered(shards);
      FetchRuns(steps, live);
      AssembledBy(shards, live, Apply(live, Fetch(steps)(live).value));
    }
  }

  lemma AssembledBy(shards: seq<string>, live: Live, l: Live)
    requires ShardListing(shards) && WellOrdered(StepsFor(shards, live))
    requires Fetch(StepsFor(shards, live))(live).Some?
    requires l == Apply(live, Fetch(StepsFor(shards, live))(live).value)
    ensures Assembled(shards, live, l, TokenizerFound(live))
  {
    var steps, n, m := StepsFor(shards, live), |shards|, |shards| + |SIDECARS|;
    forall i | 0 <= i < n ensures Taken(live, l, File(Base, shards[i]), File(Fast, shards[i]), true) {
      assert steps[i] == LinkMissing(File(Base, shards[i]), File(Fast, shards[i]));
      FetchTakes(steps, live, i);
    }
    forall i | 0 <= i < |SIDECARS| ensures Taken(live, l, File(Base, SIDECARS[i]), File(Fast, SIDECARS[i]), true) {
      assert steps[n + i] == CopyMissing(File(Base, SIDECARS[i]), File(Fast, SIDECARS[i]));
      FetchTakes(steps, live, n + i);
    }
    forall x: Name | x.dir != Fast ensures SameName(live, l, x) {
      FetchSame(steps, live, x);
    }
    forall i | 0 <= i < |DOWNLOADS|
      ensures TokenizerFound(live) ==> Taken(live, l, File(Hub, DOWNLOADS[i]), File(Fast, DOWNLOADS[i]), false)
      ensures !TokenizerFound(live) ==> SameName(live, l, File(Fast, DOWNLOADS[i]))
    {
      DownloadsTaken(shards, live, l, i);
    }
  }

  lemma DownloadsTaken(shards: seq<string>, live: Live, l: Live, i: nat)
    requires ShardListing(shards) && WellOrdered(StepsFor(shards, live)) && i < |DOWNLOADS|
    requires Fetch(StepsFor(shards, live))(live).Some?
    requires l == Apply(live, Fetch(StepsFor(shards, live))(live).value)
    ensures TokenizerFound(live) ==> Taken(live, l, File(Hub, DOWNLOADS[i]), File(Fast, DOWNLOADS[i]), false)
    ensures !TokenizerFound(live) ==> SameName(live, l, File(Fast, DOWNLOADS[i]))
  {
    var steps, n, m := StepsFor(shards, live), |shards|, |shards| + |SIDECARS|;
    if TokenizerFound(live) {
      assert steps[m + i] == CopyAlways(File(Hub, DOWNLOADS[i]), File(Fast, DOWNLOADS[i]));
      FetchTakes(steps, live, m + i);
    } else {
      NamesApart();
      forall k | 0 <= k < |steps| ensures steps[k].dst != File(Fast, DOWNLOADS[i]) {
        assert k < n ==> steps[k].dst == File(Fast, shards[k]);
        assert n <= k ==> steps[k].dst == File(Fast, SIDECARS[k - n]);
      }
      FetchSame(steps, live, File(Fast, DOWNLOADS[i]));
    }
  }
}
