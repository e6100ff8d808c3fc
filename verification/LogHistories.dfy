/** Any number of runs of drafter/gen_data.py over one output file, each killed after any byte. */
module LogHistories {
  import opened ByteStrings
  import opened ResumableLog

  /** Loading the file yields exactly these records: their ids, and the text of them alone. */
  ghost predicate LogOf(c: Codec, data: Bytes, recs: seq<Rec>) {
    Load(c, data) == Loaded(Ids(recs), Text(c, recs))
  }

  /** Whether all bytes of record i are on disk after a cut; its newline may be missing. */
  predicate Written(c: Codec, batch: seq<Rec>, cut: nat, i: nat)
    requires i < |batch|
  {
    |Text(c, batch[..i])| + |c.dumps(batch[i])| <= cut
  }

  // ---- a cut text

  /** The text of a batch cut after n bytes: k whole records, and a start of the next. */
  lemma {:induction false} CutText(c: Codec, batch: seq<Rec>, n: nat) returns (k: nat, tail: Bytes, r: Rec)
    requires Lawful(c)
    ensures k <= |batch| && Cut(Text(c, batch), n) == Text(c, batch[..k]) + tail && TornTail(c, tail, r)
    ensures k < |batch| ==> r == batch[k]
    ensures |Text(c, batch[..k])| + |tail| <= n && (k == |batch| ==> tail == [])
    ensures k < |batch| ==> |Text(c, batch[..k])| + |tail| == n
  {
    if batch == [] {
      k, tail, r := 0, [], Rec(0, 0);
    } else {
      var line, rest := c.dumps(batch[0]) + [NEWLINE], Text(c, batch[1..]);
      if n < |line| {
        k, tail, r := 0, line[..n], batch[0];
        assert Cut(line + rest, n) == line[..n];
        assert line[..n] == c.dumps(batch[0])[..n];
      } else {
        k, tail, r := CutText(c, batch[1..], n - |line|);
        assert batch[..k + 1] == [batch[0]] + batch[1..][..k];
        assert batch[..k + 1][1..] == batch[1..][..k];
        assert Cut(line + rest, n) == line + Cut(rest, n - |line|);
        k := k + 1;
      }
    }
  }

  lemma {:induction false} TextGrows(c: Codec, batch: seq<Rec>, i: nat, k: nat)
    requires i <= k <= |batch|
    ensures |Text(c, batch[..i])| + (if i < k then |c.dumps(batch[i])| + 1 else 0) <= |Text(c, batch[..k])|
    decreases k - i
  {
    if i < k {
      TextGrows(c, batch, i, k - 1);
      assert batch[..k] == batch[..k - 1] + [batch[k - 1]];
      OneMore(c, batch[..k - 1], batch[k - 1]);
    }
  }

  /** After a cut, loading keeps exactly the records all of whose bytes were written. */
  lemma CutKeeps(c: Codec, recs: seq<Rec>, batch: seq<Rec>, cut: nat) returns (k: nat)
    requires Lawful(c)
    ensures k <= |batch| && LogOf(c, Text(c, recs) + Cut(Text(c, batch), cut), recs + batch[..k])
    ensures forall i :: 0 <= i < |batch| ==> (i < k <==> Written(c, batch, cut, i))
  {
    var whole, tail, r := CutText(c, batch, cut);
    TextAppend(c, recs, batch[..whole]);
    assert Text(c, recs + batch[..whole]) + tail == Text(c, recs) + Cut(Text(c, batch), cut);
    LoadTorn(c, recs + batch[..whole], tail, r);
    assert c.dumps(r) != [];
    k := if tail == c.dumps(r) then whole + 1 else whole;
    assert tail == c.dumps(r) ==> recs + batch[..k] == recs + batch[..whole] + [r];
    forall i | 0 <= i < |batch| ensures i < k <==> Written(c, batch, cut, i) {
      if i < whole {
        TextGrows(c, batch, i, whole);
      } else {
        TextGrows(c, batch, whole, i);
      }
    }
  }

  // ---- one run, and any history of runs

  /** A run loses no record, keeps exactly the new ones it wrote in full, and leaves a log. */
  lemma RunKeepsLog(c: Codec, data: Bytes, recs: seq<Rec>, prompts: seq<Prompt>, run: Run) returns (k: nat)
    requires Lawful(c) && LogOf(c, data, recs)
    ensures var batch := Output(prompts, Ids(recs), run);
            && k <= |batch|
            && LogOf(c, AfterRun(c, data, prompts, run), recs + batch[..k])
            && forall i :: 0 <= i < |batch| ==> (i < k <==> Written(c, batch, run.cut, i))
  {
    k := CutKeeps(c, recs, Output(prompts, Ids(recs), run), run.cut);
  }

  ghost predicate DistinctIds(recs: seq<Rec>) {
    forall i, j :: 0 <= i < j < |recs| ==> recs[i].id != recs[j].id
  }

  /** The prompts that produce records have different ids. */
  ghost predicate DistinctPrompts(prompts: seq<Prompt>) {
    forall i, j :: 0 <= i < j < |prompts| && prompts[i].accepted && prompts[j].accepted ==>
      prompts[i].id != prompts[j].id
  }

  lemma {:induction false} TodoIsDistinct(prompts: seq<Prompt>, done: set<int>)
    requires DistinctPrompts(prompts)
    ensures DistinctPrompts(Todo(prompts, done))
  {
    if prompts != [] {
      var rest := Todo(prompts[1..], done);
      TodoIsDistinct(prompts[1..], done);
      forall p | p in rest && p.accepted && prompts[0].accepted ensures p.id != prompts[0].id {
        assert p in prompts[1..];
        var j :| 0 <= j < |prompts[1..]| && prompts[1..][j] == p;
        assert prompts[j + 1] == p;
      }
    }
  }

  /** Every record comes from an accepted prompt of todo, in order. */
  lemma {:induction false} BatchIsDistinct(todo: seq<Prompt>, body: nat -> int, n: nat)
    requires n <= |todo| && DistinctPrompts(todo)
    ensures DistinctIds(Batch(todo, body, n))
    ensures forall r <- Batch(todo, body, n) :: exists i :: 0 <= i < n && todo[i].accepted && todo[i].id == r.id
  {
    if n > 0 {
      BatchIsDistinct(todo, body, n - 1);
      var rest := Batch(todo, body, n - 1);
      forall r | r in rest && todo[n - 1].accepted ensures r.id != todo[n - 1].id {
        var i :| 0 <= i < n - 1 && todo[i].accepted && todo[i].id == r.id;
      }
    }
  }

  lemma OutputIsNew(prompts: seq<Prompt>, done: set<int>, run: Run)
    requires DistinctPrompts(prompts)
    ensures DistinctIds(Output(prompts, done, run))
    ensures forall r <- Output(prompts, done, run) :: r.id !in done
  {
    var p := Limited(prompts, run.limit);
    var todo := Todo(p, done);
    TodoIsDistinct(p, done);
    BatchIsDistinct(todo, run.body, |todo|);
  }

  /** Every history of killed runs leaves a log, and with distinct accepted prompts its ids differ. */
  lemma {:induction false} HistoryIsLog(c: Codec, prompts: seq<Prompt>, runs: seq<Run>) returns (recs: seq<Rec>)
    requires Lawful(c)
    ensures LogOf(c, AfterRuns(c, prompts, runs), recs)
    ensures DistinctPrompts(prompts) ==> DistinctIds(recs)
    decreases |runs|
  {
    if runs == [] {
      recs := [];
    } else {
      var last, before := runs[|runs| - 1], runs[..|runs| - 1];
      var earlier := HistoryIsLog(c, prompts, before);
      var k := RunKeepsLog(c, AfterRuns(c, prompts, before), earlier, prompts, last);
      var batch := Output(prompts, Ids(earlier), last);
      recs := earlier + batch[..k];
      if DistinctPrompts(prompts) {
        OutputIsNew(prompts, Ids(earlier), last);
        forall i, j | 0 <= i < |earlier| && 0 <= j < k ensures earlier[i].id != batch[j].id {
          assert earlier[i].id in Ids(earlier) && batch[j] in batch;
        }
      }
    }
  }

  /** A run that is not killed leaves a record for every accepted prompt it is limited to. */
  lemma UncutRunFinishes(c: Codec, data: Bytes, recs: seq<Rec>, prompts: seq<Prompt>, run: Run) returns (all: seq<Rec>)
    requires Lawful(c) && LogOf(c, data, recs) && |Text(c, Output(prompts, Ids(recs), run))| <= run.cut
    ensures LogOf(c, AfterRun(c, data, prompts, run), all)
    ensures forall p <- Limited(prompts, run.limit) :: p.accepted ==> p.id in Ids(all)
  {
    var batch := Output(prompts, Ids(recs), run);
    var k := RunKeepsLog(c, data, recs, prompts, run);
    all := recs + batch[..k];
    if k < |batch| {
      TextGrows(c, batch, k, |batch|);
      assert batch[..|batch|] == batch;
      assert Written(c, batch, run.cut, k);
    }
    assert batch[..k] == batch;
    var limited := Limited(prompts, run.limit);
    var todo := Todo(limited, Ids(recs));
    forall p | p in limited && p.accepted ensures p.id in Ids(all) {
      if p.id !in Ids(recs) {
        TodoHolds(limited, Ids(recs), p);
        BatchHolds(todo, run.body, |todo|, p);
        var r :| r in batch && r.id == p.id;
        assert r in all;
      } else {
        var r :| r in recs && r.id == p.id;
        assert r in all;
      }
    }
  }

  lemma {:induction false} TodoHolds(prompts: seq<Prompt>, done: set<int>, p: Prompt)
    requires p in prompts && p.id !in done
    ensures p in Todo(prompts, done)
  {
    if p != prompts[0] {
      TodoHolds(prompts[1..], done, p);
    }
  }

  lemma {:induction false} BatchHolds(todo: seq<Prompt>, body: nat -> int, n: nat, p: Prompt)
    requires n <= |todo| && p in todo[..n] && p.accepted
    ensures exists r :: r in Batch(todo, body, n) && r.id == p.id
  {
    if todo[n - 1] == p {
      assert Rec(p.id, body(n - 1)) in Batch(todo, body, n);
    } else {
      assert todo[..n] == todo[..n - 1] + [todo[n - 1]];
      BatchHolds(todo, body, n - 1, p);
      var r :| r in Batch(todo, body, n - 1) && r.id == p.id;
      assert r in Batch(todo, body, n);
    }
  }

  // ---- when the ids on disk are distinct

  lemma FirstLine(c: Codec, r: Rec, rest: Bytes)
    requires Lawful(c)
    ensures LineEnd(c.dumps(r) + [NEWLINE] + rest, 0) == |c.dumps(r)| + 1
  {
    var data := c.dumps(r) + [NEWLINE] + rest;
    forall k | 0 <= k < |c.dumps(r)| ensures data[k] != NEWLINE {
      assert data[k] == c.dumps(r)[k];
    }
    LineEndIs(data, 0, |c.dumps(r)| + 1);
  }

  /** The text of a log determines its ids. */
  lemma {:induction false} SameText(c: Codec, a: seq<Rec>, b: seq<Rec>)
    requires Lawful(c) && Text(c, a) == Text(c, b)
    ensures |a| == |b| && forall i :: 0 <= i < |a| ==> a[i].id == b[i].id
  {
    if a != [] && b != [] {
      FirstLine(c, a[0], Text(c, a[1..]));
      FirstLine(c, b[0], Text(c, b[1..]));
      var x, n := Text(c, a), |c.dumps(a[0])|;
      assert x[..n] == c.dumps(a[0]) && x[..n] == c.dumps(b[0]);
      assert x[n + 1..] == Text(c, a[1..]) && x[n + 1..] == Text(c, b[1..]);
      SameText(c, a[1..], b[1..]);
    }
  }

  lemma {:induction false} BatchPrefix(todo: seq<Prompt>, body: nat -> int, i: nat, n: nat)
    requires i <= n <= |todo|
    ensures Batch(todo, body, i) <= Batch(todo, body, n)
  {
    if i < n {
      BatchPrefix(todo, body, i, n - 1);
    }
  }

  lemma RepeatedPrompt(todo: seq<Prompt>, body: nat -> int, i: nat, j: nat)
    requires i < j < |todo| && todo[i].accepted && todo[j].accepted && todo[i].id == todo[j].id
    ensures !DistinctIds(Batch(todo, body, |todo|))
  {
    var all := Batch(todo, body, |todo|);
    BatchPrefix(todo, body, i + 1, j);
    BatchPrefix(todo, body, j + 1, |todo|);
    var a, b := |Batch(todo, body, i)|, |Batch(todo, body, j)|;
    assert Batch(todo, body, j + 1)[a].id == todo[i].id && Batch(todo, body, j + 1)[b].id == todo[j].id;
    assert all[a].id == all[b].id;
  }

  lemma {:induction false} NothingDone(prompts: seq<Prompt>)
    ensures Todo(prompts, {}) == prompts
  {
    if prompts != [] {
      NothingDone(prompts[1..]);
    }
  }

  ghost predicate AlwaysDistinct(c: Codec, prompts: seq<Prompt>) {
    forall runs, recs :: LogOf(c, AfterRuns(c, prompts, runs), recs) ==> DistinctIds(recs)
  }

  /** The ids on disk are distinct after every history of runs exactly when no two prompts that
      produce records share an id: within one run, an id is not looked up again. */
  lemma DistinctOnDiskIff(c: Codec, prompts: seq<Prompt>)
    requires Lawful(c)
    ensures AlwaysDistinct(c, prompts) <==> DistinctPrompts(prompts)
  {
    if DistinctPrompts(prompts) {
      forall runs, recs | LogOf(c, AfterRuns(c, prompts, runs), recs) ensures DistinctIds(recs) {
        var known := HistoryIsLog(c, prompts, runs);
        SameText(c, known, recs);
      }
    } else {
      OneRunRepeats(c, prompts);
    }
  }

  lemma WholeLog(c: Codec, recs: seq<Rec>)
    requires Lawful(c)
    ensures LogOf(c, Text(c, recs), recs)
  {
    LoadTorn(c, recs, [], Rec(0, 0));
    assert Text(c, recs) + [] == Text(c, recs);
  }

  /** The first run over all prompts, not killed. */
  lemma FirstRun(c: Codec, prompts: seq<Prompt>, run: Run)
    requires Lawful(c) && run.limit == 0 && run.cut == |Text(c, Batch(prompts, run.body, |prompts|))|
    ensures AfterRuns(c, prompts, [run]) == Text(c, Batch(prompts, run.body, |prompts|))
  {
    NothingDone(prompts);
    assert Load(c, []) == Loaded({}, []);
    assert [run][..0] == [];
    assert Output(prompts, {}, run) == Batch(prompts, run.body, |prompts|);
  }

  lemma OneRunRepeats(c: Codec, prompts: seq<Prompt>)
    requires Lawful(c) && !DistinctPrompts(prompts)
    ensures !AlwaysDistinct(c, prompts)
  {
    var i, j :| 0 <= i < j < |prompts| && prompts[i].accepted && prompts[j].accepted && prompts[i].id == prompts[j].id;
    var body := (n: nat) => 0;
    var batch := Batch(prompts, body, |prompts|);
    var run := Run(0, body, |Text(c, batch)|);
    RepeatedPrompt(prompts, body, i, j);
    FirstRun(c, prompts, run);
    WholeLog(c, batch);
  }
}
