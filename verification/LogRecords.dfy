/** drafter/gen_data.py: which prompts a run generates for, in what order, and what it records for each. */
module LogRecords {
  import opened ResumableLog

  ghost predicate Increasing(s: seq<nat>) {
    forall i, j :: 0 <= i < j < |s| ==> s[i] < s[j]
  }

  /** The prompts within the limit that have no record yet. */
  predicate Remains(prompts: seq<Prompt>, done: set<int>, limit: nat, i: nat) {
    i < |prompts| && (limit == 0 || i < limit) && prompts[i].id !in done
  }

  ghost predicate Positions(prompts: seq<Prompt>, done: set<int>, limit: nat, pos: seq<nat>) {
    Increasing(pos) && forall i: nat :: i in pos <==> Remains(prompts, done, limit, i)
  }

  function Shifted(s: seq<nat>): (r: seq<nat>)
    ensures |r| == |s| && forall k :: 0 <= k < |s| ==> r[k] == s[k] + 1
  {
    seq(|s|, k requires 0 <= k < |s| => s[k] + 1)
  }

  ghost predicate Picks(prompts: seq<Prompt>, pos: seq<nat>, todo: seq<Prompt>) {
    |pos| == |todo| && forall k :: 0 <= k < |pos| ==> pos[k] < |prompts| && todo[k] == prompts[pos[k]]
  }

  /** Position 0, if the first prompt remains. */
  function Front(p: Prompt, done: set<int>): seq<nat> {
    if p.id !in done then [0] else []
  }

  lemma PickShifted(prompts: seq<Prompt>, rest: seq<nat>, todo: seq<Prompt>)
    requires prompts != [] && Picks(prompts[1..], rest, todo)
    ensures Picks(prompts, Shifted(rest), todo)
  {
    forall k | 0 <= k < |rest| ensures rest[k] + 1 < |prompts| && todo[k] == prompts[rest[k] + 1] {
      assert prompts[1..][rest[k]] == prompts[rest[k] + 1];
    }
  }

  lemma PickBoth(prompts: seq<Prompt>, a: seq<nat>, b: seq<nat>, x: seq<Prompt>, y: seq<Prompt>)
    requires Picks(prompts, a, x) && Picks(prompts, b, y)
    ensures Picks(prompts, a + b, x + y)
  {
  }

  lemma FirstPicked(prompts: seq<Prompt>, done: set<int>, rest: seq<nat>)
    requires prompts != [] && Picks(prompts[1..], rest, Todo(prompts[1..], done))
    ensures Picks(prompts, Front(prompts[0], done) + Shifted(rest), Todo(prompts, done))
  {
    PickShifted(prompts, rest, Todo(prompts[1..], done));
    PickBoth(prompts, Front(prompts[0], done), Shifted(rest),
             if prompts[0].id !in done then [prompts[0]] else [], Todo(prompts[1..], done));
  }

  lemma FirstPositions(prompts: seq<Prompt>, done: set<int>, rest: seq<nat>)
    requires prompts != [] && Positions(prompts[1..], done, 0, rest)
    ensures Positions(prompts, done, 0, Front(prompts[0], done) + Shifted(rest))
  {
    var pos := Front(prompts[0], done) + Shifted(rest);
    forall i: nat ensures i in pos <==> Remains(prompts, done, 0, i) {
      InBoth(Front(prompts[0], done), rest, i);
      if i > 0 {
        assert i - 1 in rest <==> Remains(prompts[1..], done, 0, i - 1);
      }
    }
  }

  lemma {:induction false} TodoPositions(prompts: seq<Prompt>, done: set<int>) returns (pos: seq<nat>)
    ensures Positions(prompts, done, 0, pos) && Picks(prompts, pos, Todo(prompts, done))
  {
    if prompts == [] {
      pos := [];
    } else {
      var rest := TodoPositions(prompts[1..], done);
      pos := Front(prompts[0], done) + Shifted(rest);
      FirstPicked(prompts, done, rest);
      FirstPositions(prompts, done, rest);
    }
  }

  lemma InBoth(first: seq<nat>, rest: seq<nat>, i: nat)
    requires first == [] || first == [0]
    ensures i in first + Shifted(rest) <==> if i == 0 then first == [0] else i - 1 in rest
  {
    if i > 0 && i - 1 in rest {
      var k :| 0 <= k < |rest| && rest[k] == i - 1;
      assert Shifted(rest)[k] == i;
    }
  }

  lemma LimitedPositions(prompts: seq<Prompt>, done: set<int>, limit: nat) returns (pos: seq<nat>)
    ensures Positions(prompts, done, limit, pos) && Picks(prompts, pos, Todo(Limited(prompts, limit), done))
  {
    var p := Limited(prompts, limit);
    pos := TodoPositions(p, done);
    forall i: nat ensures i in pos <==> Remains(prompts, done, limit, i) {
      assert i in pos <==> Remains(p, done, 0, i);
    }
  }

  /** The accepted ones among the first n of todo. */
  ghost predicate AcceptedAmong(todo: seq<Prompt>, n: nat, acc: seq<nat>)
    requires n <= |todo|
  {
    Increasing(acc) && forall k: nat {:trigger k in acc} :: k in acc <==> k < n && todo[k].accepted
  }

  ghost predicate RecordsOf(todo: seq<Prompt>, body: nat -> int, acc: seq<nat>, recs: seq<Rec>) {
    |acc| == |recs| && forall m :: 0 <= m < |acc| ==>
      acc[m] < |todo| && recs[m] == Rec(todo[acc[m]].id, body(acc[m]))
  }

  lemma OneMoreAccepted(todo: seq<Prompt>, n: nat, acc: seq<nat>)
    requires n < |todo| && AcceptedAmong(todo, n, acc)
    ensures AcceptedAmong(todo, n + 1, if todo[n].accepted then acc + [n] else acc)
  {
    forall i | 0 <= i < |acc| ensures acc[i] < n {
      assert acc[i] in acc;
    }
  }

  lemma {:induction false} BatchRecords(todo: seq<Prompt>, body: nat -> int, n: nat) returns (acc: seq<nat>)
    requires n <= |todo|
    ensures AcceptedAmong(todo, n, acc) && RecordsOf(todo, body, acc, Batch(todo, body, n))
    decreases n
  {
    if n == 0 {
      acc := [];
    } else {
      var before := BatchRecords(todo, body, n - 1);
      acc := NextRecord(todo, body, n - 1, before);
    }
  }

  lemma NextRecord(todo: seq<Prompt>, body: nat -> int, n: nat, before: seq<nat>) returns (acc: seq<nat>)
    requires n < |todo| && AcceptedAmong(todo, n, before) && RecordsOf(todo, body, before, Batch(todo, body, n))
    ensures AcceptedAmong(todo, n + 1, acc) && RecordsOf(todo, body, acc, Batch(todo, body, n + 1))
  {
    var recs := Batch(todo, body, n);
    acc := if todo[n].accepted then before + [n] else before;
    OneMoreAccepted(todo, n, before);
    OneMoreRecord(todo, body, before, recs, n);
    assert Batch(todo, body, n + 1) == recs + if todo[n].accepted then [Rec(todo[n].id, body(n))] else [];
  }

  lemma OneMoreRecord(todo: seq<Prompt>, body: nat -> int, acc: seq<nat>, recs: seq<Rec>, k: nat)
    requires k < |todo| && RecordsOf(todo, body, acc, recs)
    ensures RecordsOf(todo, body, acc + [k], recs + [Rec(todo[k].id, body(k))])
    ensures recs + [] == recs
  {
  }

  /** A run appends one record for each accepted prompt that is within the limit and has no record yet, in the
      order of the prompts, each with its own prompt's id and what was generated for that prompt. */
  lemma OutputIsExactly(prompts: seq<Prompt>, done: set<int>, run: Run) returns (pos: seq<nat>, acc: seq<nat>)
    ensures Positions(prompts, done, run.limit, pos) && forall k :: 0 <= k < |pos| ==> pos[k] < |prompts|
    ensures Increasing(acc) && forall k: nat {:trigger k in acc} :: k in acc <==> k < |pos| && prompts[pos[k]].accepted
    ensures var recs := Output(prompts, done, run);
            |recs| == |acc| && forall m :: 0 <= m < |recs| ==>
              acc[m] < |pos| && recs[m] == Rec(prompts[pos[acc[m]]].id, run.body(acc[m]))
  {
    pos := LimitedPositions(prompts, done, run.limit);
    var todo := Todo(Limited(prompts, run.limit), done);
    acc := BatchRecords(todo, run.body, |todo|);
  }
}
