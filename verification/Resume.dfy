/** Why re-running a killed script is safe. A script is a plan: what it publishes as a function
    of the files it finds. The plan is resumable when, found again after any of its own steps,
    it repeats only publications that change nothing and then does what was left. */
module Resume {
  import opened Contents
  import opened AtomicPublish

  /** None: the script exits before its first write. */
  type Plan = Live -> Option<seq<Action>>

  function ApplyOne(live: Live, a: Action): Live {
    match a
    case Publish(n, c) => live[n := c]
    case LinkTo(s, t) => if s in live && t !in live then live[t := live[s]] else live
  }

  function Apply(live: Live, acts: seq<Action>): Live
    decreases |acts|
  {
    if acts == [] then live else Apply(ApplyOne(live, acts[0]), acts[1..])
  }

  lemma {:induction false} ApplyAppend(live: Live, a: seq<Action>, b: seq<Action>)
    ensures Apply(live, a + b) == Apply(Apply(live, a), b)
    decreases |a|
  {
    if a == [] {
      assert a + b == b;
    } else {
      assert (a + b)[1..] == a[1..] + b;
      ApplyAppend(ApplyOne(live, a[0]), a[1..], b);
    }
  }

  lemma ApplySingle(live: Live, a: Action)
    ensures Apply(live, [a]) == ApplyOne(live, a)
  {
    assert [a][1..] == [];
  }

  /** The names a plan writes through a temporary file. */
  function Targets(acts: seq<Action>): set<Name> {
    set a | a in acts && a.Publish? :: a.name
  }

  /** Publishing a file with the content it already has. */
  predicate Redundant(live: Live, a: Action) {
    a.Publish? && a.name in live && live[a.name] == a.content
  }

  predicate AllRedundant(live: Live, acts: seq<Action>) {
    forall a :: a in acts ==> Redundant(live, a)
  }

  lemma {:induction false} RedundantChangesNothing(live: Live, acts: seq<Action>)
    requires AllRedundant(live, acts)
    ensures Apply(live, acts) == live
    decreases |acts|
  {
    if acts != [] {
      assert Redundant(live, acts[0]);
      assert ApplyOne(live, acts[0]) == live;
      RedundantChangesNothing(live, acts[1..]);
    }
  }

  /** The directory after the first i steps of a plan. */
  function Stage(live: Live, full: seq<Action>, i: nat): Live
    requires i <= |full|
  {
    Apply(live, full[..i])
  }

  lemma StageEarly(live: Live, a: seq<Action>, b: seq<Action>, i: nat)
    requires i <= |a|
    ensures Stage(live, a + b, i) == Stage(live, a, i)
  {
    assert (a + b)[..i] == a[..i];
  }

  lemma StageLate(live: Live, a: seq<Action>, b: seq<Action>, i: nat)
    requires |a| <= i <= |a + b|
    ensures Stage(live, a + b, i) == Stage(Apply(live, a), b, i - |a|)
  {
    assert (a + b)[..i] == a + b[..i - |a|];
    ApplyAppend(live, a, b[..i - |a|]);
  }

  /** Found at stage i, the plan is some redundant steps followed by the remaining ones. */
  ghost predicate Resumes(p: Plan, live: Live, full: seq<Action>, i: nat)
    requires i <= |full|
  {
    var l := Stage(live, full, i);
    p(l).Some? &&
    var q := p(l).value;
    var r := |q| - (|full| - i);
    0 <= r && q[r..] == full[i..] && AllRedundant(l, q[..r])
  }

  ghost predicate Resumable(p: Plan, live: Live) {
    p(live).Some? && forall i :: 0 <= i <= |p(live).value| ==> Resumes(p, live, p(live).value, i)
  }

  // ---- runs

  /** A run killed after `budget` operations, or complete when it needs no more. */
  function Run(p: Plan, d: Dir, budget: nat): Dir {
    match p(d.live)
    case None => d
    case Some(acts) => Exec(d, Cut(acts, budget))
  }

  function Cut(acts: seq<Action>, budget: nat): seq<Op> {
    if |Ops(acts)| <= budget then Ops(acts) else Ops(acts)[..budget]
  }

  function Complete(p: Plan, d: Dir): Dir {
    match p(d.live)
    case None => d
    case Some(acts) => Exec(d, Ops(acts))
  }

  function History(p: Plan, d: Dir, budgets: seq<nat>): Dir
    decreases |budgets|
  {
    if budgets == [] then d else History(p, Run(p, d, budgets[0]), budgets[1..])
  }

  lemma {:induction false} ExecAll(d: Dir, acts: seq<Action>)
    ensures Exec(d, Ops(acts)) == Dir(Apply(d.live, acts), d.tmp - Targets(acts))
    decreases |acts|
  {
    if acts == [] {
      assert d.tmp - Targets(acts) == d.tmp;
    } else {
      ExecOne(d, acts[0]);
      ExecAppend(d, OpsOf(acts[0]), Ops(acts[1..]));
      ExecAll(Exec(d, OpsOf(acts[0])), acts[1..]);
      assert acts == [acts[0]] + acts[1..];
      assert d.tmp - Targets([acts[0]]) - Targets(acts[1..]) == d.tmp - Targets(acts);
    }
  }

  lemma ExecOne(d: Dir, a: Action)
    ensures Exec(d, OpsOf(a)) == Dir(ApplyOne(d.live, a), d.tmp - Targets([a]))
  {
    match a
    case Publish(n, c) =>
      var d1 := Dir(d.live, d.tmp[n := Torn]);
      var d2 := Dir(d.live, d.tmp[n := c]);
      assert Do(d, Create(n)) == d1 && Do(d1, Fill(n, c)) == d2;
      assert OpsOf(a)[1..] == [Fill(n, c), Rename(n)] && OpsOf(a)[1..][1..] == [Rename(n)];
      assert Exec(d2, [Rename(n)]) == Do(d2, Rename(n)) by { assert [Rename(n)][1..] == []; }
      assert Targets([a]) == {n};
      assert d2.tmp - {n} == d.tmp - {n};
    case LinkTo(s, t) =>
      assert Targets([a]) == {};
      assert d.tmp - {} == d.tmp;
      assert OpsOf(a)[1..] == [];
  }

  /** A killed run did some of the plan's steps in full, and left at most the temporary file of
      the next one behind. */
  lemma {:induction false} ExecCut(d: Dir, acts: seq<Action>, budget: nat) returns (i: nat)
    requires budget < |Ops(acts)|
    ensures i < |acts|
    ensures Exec(d, Ops(acts)[..budget]).live == Apply(d.live, acts[..i])
    ensures Exec(d, Ops(acts)[..budget]).tmp.Keys <= (d.tmp.Keys - Targets(acts[..i])) + Targets(acts[i..])
    decreases |acts|
  {
    var head := OpsOf(acts[0]);
    if budget < |head| {
      i := 0;
      assert Ops(acts)[..budget] == head[..budget];
      ExecPart(d, acts[0], budget);
      assert acts[..0] == [] && acts[0..] == acts;
      assert acts[0] in acts;
    } else {
      ExecOne(d, acts[0]);
      var d1 := Exec(d, head);
      assert Ops(acts)[..budget] == head + Ops(acts[1..])[..budget - |head|];
      ExecAppend(d, head, Ops(acts[1..])[..budget - |head|]);
      var j := ExecCut(d1, acts[1..], budget - |head|);
      i := j + 1;
      assert acts[..i] == [acts[0]] + acts[1..][..j];
      assert acts[1..][j..] == acts[i..];
      assert Targets(acts[..i]) == Targets([acts[0]]) + Targets(acts[1..][..j]);
      ApplyAppend(d.live, [acts[0]], acts[1..][..j]);
      ApplySingle(d.live, acts[0]);
    }
  }

  lemma ExecPart(d: Dir, a: Action, k: nat)
    requires k < |OpsOf(a)|
    ensures Exec(d, OpsOf(a)[..k]).live == d.live
    ensures Exec(d, OpsOf(a)[..k]).tmp.Keys <= d.tmp.Keys + Targets([a])
  {
    match a
    case Publish(n, c) =>
      assert a in [a];
      assert n in Targets([a]);
      if k == 0 {
        assert OpsOf(a)[..k] == [];
      } else if k == 1 {
        assert OpsOf(a)[..k] == [Create(n)] && [Create(n)][1..] == [];
      } else {
        assert OpsOf(a)[..k] == [Create(n)] + [Fill(n, c)];
        ExecAppend(d, [Create(n)], [Fill(n, c)]);
        assert [Create(n)][1..] == [] && [Fill(n, c)][1..] == [];
      }
    case LinkTo(_, _) =>
      assert OpsOf(a)[..k] == [];
  }

  // ---- the theorem

  /** Where a history of killed runs can be: at some stage of the clean run, with temporary
      files only where the next run writes again. */
  ghost predicate Reached(p: Plan, live: Live, d: Dir)
    requires p(live).Some?
  {
    exists i :: ReachedAt(p, live, d, i)
  }

  ghost predicate ReachedAt(p: Plan, live: Live, d: Dir, i: int)
    requires p(live).Some?
  {
    && 0 <= i <= |p(live).value|
    && d.live == Stage(live, p(live).value, i)
    && p(d.live).Some?
    && d.tmp.Keys <= Targets(p(d.live).value)
  }

  lemma Start(p: Plan, live: Live)
    requires Resumable(p, live)
    ensures ReachedAt(p, live, Dir(live, map[]), 0)
  {
    assert p(live).value[..0] == [];
  }

  lemma SliceOfSlice(s: seq<Action>, lo: nat, hi: nat)
    requires lo <= hi <= |s|
    ensures s[lo..hi] == s[lo..][..hi - lo]
    ensures s[hi..] == s[lo..][hi - lo..]
  {
  }

  /** Doing some of the redundant steps found at stage i stays there. */
  lemma RedundantSteps(p: Plan, live: Live, i: nat, j: nat)
    requires p(live).Some? && i <= |p(live).value| && Resumes(p, live, p(live).value, i)
    requires j <= |p(Stage(live, p(live).value, i)).value| - (|p(live).value| - i)
    ensures Apply(Stage(live, p(live).value, i), p(Stage(live, p(live).value, i)).value[..j])
         == Stage(live, p(live).value, i)
  {
    var l := Stage(live, p(live).value, i);
    var q := p(l).value;
    var r := |q| - (|p(live).value| - i);
    forall a | a in q[..j] ensures Redundant(l, a) {
      assert a in q[..r];
    }
    RedundantChangesNothing(l, q[..j]);
  }

  /** Doing m steps of the clean run from stage i leads to stage i + m. */
  lemma StageAfter(live: Live, full: seq<Action>, i: nat, m: nat)
    requires i + m <= |full|
    ensures Apply(Stage(live, full, i), full[i..i + m]) == Stage(live, full, i + m)
  {
    assert full[..i + m] == full[..i] + full[i..i + m];
    ApplyAppend(live, full[..i], full[i..i + m]);
  }

  /** The redundant steps found at stage i, and m of those that were left. */
  lemma StepsBeyond(p: Plan, live: Live, i: nat, m: nat)
    requires p(live).Some? && i + m <= |p(live).value| && Resumes(p, live, p(live).value, i)
    ensures var full := p(live).value;
            var q := p(Stage(live, full, i)).value;
            var j := |q| - (|full| - i) + m;
            && Apply(Stage(live, full, i), q[..j]) == Stage(live, full, i + m)
            && q[j..] == full[i + m..]
  {
    var full := p(live).value;
    var l := Stage(live, full, i);
    var q := p(l).value;
    var r := |q| - (|full| - i);
    SliceOfSlice(q, r, r + m);
    SliceOfSlice(full, i, i + m);
    assert q[..r + m] == q[..r] + full[i..i + m];
    RedundantSteps(p, live, i, r);
    ApplyAppend(l, q[..r], full[i..i + m]);
    StageAfter(live, full, i, m);
  }

  lemma TargetsLeft(p: Plan, live: Live, k: nat)
    requires p(live).Some? && k <= |p(live).value| && Resumes(p, live, p(live).value, k)
    ensures Targets(p(live).value[k..]) <= Targets(p(Stage(live, p(live).value, k)).value)
  {
    var full := p(live).value;
    var q := p(Stage(live, full, k)).value;
    var r := |q| - (|full| - k);
    assert forall a :: a in q[r..] ==> a in q;
  }

  /** Doing the first j steps of the plan found at stage i leads to a later stage. */
  lemma StepsFrom(p: Plan, live: Live, i: nat, j: nat) returns (k: nat)
    requires Resumable(p, live) && i <= |p(live).value|
    requires Resumes(p, live, p(live).value, i)
    requires j <= |p(Stage(live, p(live).value, i)).value|
    ensures i <= k <= |p(live).value|
    ensures Apply(Stage(live, p(live).value, i), p(Stage(live, p(live).value, i)).value[..j])
         == Stage(live, p(live).value, k)
    ensures j == |p(Stage(live, p(live).value, i)).value| ==> k == |p(live).value|
    ensures Resumes(p, live, p(live).value, k)
    ensures Targets(p(Stage(live, p(live).value, i)).value[j..]) <= Targets(p(Stage(live, p(live).value, k)).value)
  {
    var q := p(Stage(live, p(live).value, i)).value;
    var r := |q| - (|p(live).value| - i);
    if j < r {
      k := i;
      RedundantSteps(p, live, i, j);
      assert forall a :: a in q[j..] ==> a in q;
    } else {
      k := i + (j - r);
      StepsBeyond(p, live, i, j - r);
      TargetsLeft(p, live, k);
    }
  }

  lemma RunStays(p: Plan, live: Live, d: Dir, budget: nat)
    requires Resumable(p, live) && Reached(p, live, d)
    ensures Reached(p, live, Run(p, d, budget))
  {
    var full := p(live).value;
    var i: int :| ReachedAt(p, live, d, i);
    assert Resumes(p, live, full, i);
    var q := p(d.live).value;
    var d' := Run(p, d, budget);
    if |Ops(q)| <= budget {
      ExecAll(d, q);
      var k := StepsFrom(p, live, i, |q|);
      assert q[..|q|] == q;
      assert ReachedAt(p, live, d', k);
    } else {
      var j := ExecCut(d, q, budget);
      var k := StepsFrom(p, live, i, j);
      TargetsSplit(q, j);
      assert d'.tmp.Keys <= Targets(q[j..]);
      assert ReachedAt(p, live, d', k);
    }
  }

  lemma TargetsSplit(q: seq<Action>, j: nat)
    requires j <= |q|
    ensures Targets(q) == Targets(q[..j]) + Targets(q[j..])
  {
    assert q == q[..j] + q[j..];
  }

  /** Every state that killed runs can leave is a stage of the clean run. */
  lemma {:induction false} HistoryStays(p: Plan, live: Live, d: Dir, budgets: seq<nat>)
    requires Resumable(p, live) && Reached(p, live, d)
    ensures Reached(p, live, History(p, d, budgets))
    decreases |budgets|
  {
    if budgets != [] {
      RunStays(p, live, d, budgets[0]);
      HistoryStays(p, live, Run(p, d, budgets[0]), budgets[1..]);
    }
  }

  /** Any history of killed runs followed by a complete one leaves what one clean run leaves:
      the same files with the same contents, and no temporary file. */
  lemma KilledRunsThenOne(p: Plan, live: Live, budgets: seq<nat>)
    requires Resumable(p, live)
    ensures Complete(p, History(p, Dir(live, map[]), budgets)) == Complete(p, Dir(live, map[]))
    ensures Complete(p, Dir(live, map[])) == Dir(Apply(live, p(live).value), map[])
  {
    Start(p, live);
    HistoryStays(p, live, Dir(live, map[]), budgets);
    FromReached(p, live, History(p, Dir(live, map[]), budgets));
    FromReached(p, live, Dir(live, map[]));
  }

  lemma FromReached(p: Plan, live: Live, d: Dir)
    requires Resumable(p, live) && Reached(p, live, d)
    ensures Complete(p, d) == Dir(Apply(live, p(live).value), map[])
  {
    var full := p(live).value;
    var i: int :| ReachedAt(p, live, d, i);
    assert Resumes(p, live, full, i);
    var q := p(d.live).value;
    ExecAll(d, q);
    var k := StepsFrom(p, live, i, |q|);
    assert q[..|q|] == q && full[..|full|] == full;
    assert d.tmp - Targets(q) == map[];
  }

  // ---- plans from parts

  /** One script after another: the second sees what the first leaves. */
  function Then(p: Plan, q: Plan): Plan {
    (live: Live) =>
      match p(live)
      case None => None
      case Some(a) =>
        match q(Apply(live, a))
        case None => Some(a)
        case Some(b) => Some(a + b)
  }

  /** What p still does at every stage of q is redundant. */
  ghost predicate StaysDone(p: Plan, q: Plan, live: Live) {
    q(live).Some? &&
    forall j :: 0 <= j <= |q(live).value| ==> DoneAt(p, Stage(live, q(live).value, j))
  }

  ghost predicate DoneAt(p: Plan, live: Live) {
    p(live).Some? && AllRedundant(live, p(live).value)
  }

  lemma ThenResumable(p: Plan, q: Plan, live: Live)
    requires Resumable(p, live)
    requires Resumable(q, Apply(live, p(live).value))
    requires StaysDone(p, q, Apply(live, p(live).value))
    ensures Resumable(Then(p, q), live)
    ensures Then(p, q)(live) == Some(p(live).value + q(Apply(live, p(live).value)).value)
  {
    var a := p(live).value;
    var mid := Apply(live, a);
    var b := q(mid).value;
    forall i | 0 <= i <= |a + b| ensures Resumes(Then(p, q), live, a + b, i) {
      if i <= |a| {
        ThenEarly(p, q, live, i);
      } else {
        ThenLate(p, q, live, i - |a|);
      }
    }
  }

  lemma ThenEarly(p: Plan, q: Plan, live: Live, i: nat)
    requires Resumable(p, live) && i <= |p(live).value|
    requires q(Apply(live, p(live).value)).Some?
    ensures Resumes(Then(p, q), live, p(live).value + q(Apply(live, p(live).value)).value, i)
  {
    var a := p(live).value;
    var b := q(Apply(live, a)).value;
    assert Resumes(p, live, a, i);
    assert (a + b)[..i] == a[..i];
    var l := Stage(live, a, i);
    var x := p(l).value;
    var k := StepsFrom(p, live, i, |x|);
    assert x[..|x|] == x && a[..|a|] == a;
    assert Then(p, q)(l) == Some(x + b);
    var r := |x| - (|a| - i);
    assert (x + b)[r..] == x[r..] + b;
    assert (a + b)[i..] == a[i..] + b;
    assert (x + b)[..r] == x[..r];
  }

  lemma ThenLate(p: Plan, q: Plan, live: Live, j: nat)
    requires Resumable(p, live)
    requires Resumable(q, Apply(live, p(live).value))
    requires StaysDone(p, q, Apply(live, p(live).value))
    requires j <= |q(Apply(live, p(live).value)).value|
    ensures Resumes(Then(p, q), live, p(live).value + q(Apply(live, p(live).value)).value, |p(live).value| + j)
  {
    var a := p(live).value;
    var mid := Apply(live, a);
    var b := q(mid).value;
    var l := Stage(mid, b, j);
    assert Resumes(q, mid, b, j) && DoneAt(p, l);
    assert (a + b)[..|a| + j] == a + b[..j];
    ApplyAppend(live, a, b[..j]);
    var x, y := p(l).value, q(l).value;
    RedundantChangesNothing(l, x);
    assert Then(p, q)(l) == Some(x + y);
    TailsAgree(a, b, x, y, j);
  }

  lemma TailsAgree(a: seq<Action>, b: seq<Action>, x: seq<Action>, y: seq<Action>, j: nat)
    requires j <= |b| && |b| - j <= |y| && y[|y| - (|b| - j)..] == b[j..]
    ensures var r := |x + y| - (|a + b| - (|a| + j));
            r == |x| + (|y| - (|b| - j)) && (x + y)[r..] == (a + b)[|a| + j..]
            && (x + y)[..r] == x + y[..|y| - (|b| - j)]
  {
    var r := |y| - (|b| - j);
    assert (x + y)[|x| + r..] == y[r..];
    assert (a + b)[|a| + j..] == b[j..];
    assert (x + y)[..|x| + r] == x + y[..r];
  }

  /** A step that is skipped once its commit point is reached resumes like its plan. */
  lemma GatedResumable(g: Plan, p: Plan, live: Live)
    requires Resumable(p, live)
    requires forall i :: 0 <= i < |p(live).value| ==>
      g(Stage(live, p(live).value, i)) == p(Stage(live, p(live).value, i))
    requires 0 < |p(live).value|
    requires g(Apply(live, p(live).value)) == Some([])
    ensures g(live) == p(live) && Resumable(g, live)
  {
    var full := p(live).value;
    assert full[..0] == [] && full[..|full|] == full;
    assert Stage(live, full, 0) == live;
    forall i | 0 <= i <= |full| ensures Resumes(g, live, full, i) {
      assert Resumes(p, live, full, i);
      if i == |full| {
        assert full[i..] == [];
      }
    }
  }

  lemma SamePlanResumable(g: Plan, p: Plan, live: Live)
    requires Resumable(p, live)
    requires forall i :: 0 <= i <= |p(live).value| ==>
      g(Stage(live, p(live).value, i)) == p(Stage(live, p(live).value, i))
    ensures g(live) == p(live) && Resumable(g, live)
  {
    var full := p(live).value;
    assert full[..0] == [] && Stage(live, full, 0) == live;
    forall i | 0 <= i <= |full| ensures Resumes(g, live, full, i) {
      assert Resumes(p, live, full, i);
    }
  }

  // ---- a file rewritten behind a backup

  datatype Keep = Copy(suffix: string) | Hardlink(suffix: string) | NoBackup

  /** Refuse: the script exits. Leave: the file already has its final form. */
  datatype Edit = Refuse | Leave | Put(content: Content)

  function KeepFirst(live: Live, n: Name, keep: Keep): seq<Action>
    requires n.File? && n in live
  {
    match keep
    case Copy(suffix) => BackupOnce(live, n, suffix)
    case Hardlink(suffix) =>
      if Backup(n.dir, n.name, suffix) in live then [] else [LinkTo(n, Backup(n.dir, n.name, suffix))]
    case NoBackup => []
  }

  function Editing(n: Name, keep: Keep, f: Content -> Edit): Plan
    requires n.File?
  {
    (live: Live) =>
      if n !in live then None else
      match f(live[n])
      case Refuse => None
      case Leave => Some([])
      case Put(c) => Some(KeepFirst(live, n, keep) + [Publish(n, c)])
  }

  /** Editing what an edit produced changes nothing. */
  predicate Idempotent(f: Content -> Edit, c: Content) {
    match f(c)
    case Refuse => false
    case Leave => true
    case Put(c') => f(c') == Leave || f(c') == Put(c')
  }

  predicate Kept(live: Live, n: Name, keep: Keep)
    requires n.File?
  {
    keep.NoBackup? || Backup(n.dir, n.name, keep.suffix) in live
  }

  lemma KeepsOnce(live: Live, n: Name, keep: Keep)
    requires n.File? && n in live && KeepFirst(live, n, keep) != []
    ensures var l := ApplyOne(live, KeepFirst(live, n, keep)[0]);
            n in l && l[n] == live[n] && KeepFirst(l, n, keep) == []
  {
  }

  lemma EditingResumable(n: Name, keep: Keep, f: Content -> Edit, live: Live)
    requires n.File? && n in live && Idempotent(f, live[n])
    ensures Resumable(Editing(n, keep, f), live)
  {
    var p := Editing(n, keep, f);
    var full := p(live).value;
    forall i | 0 <= i <= |full| ensures Resumes(p, live, full, i) {
      var l := Stage(live, full, i);
      if i == 0 {
        assert full[..0] == [] && l == live && full[0..] == full;
      } else if i == |full| {
        assert full[..i] == full;
        EditingDone(n, keep, f, live);
        var q := p(l).value;
        assert full[i..] == [] && q[|q|..] == [] && q[..|q|] == q;
      } else {
        var c := f(live[n]).content;
        assert |full| == 2 && i == 1 && full[..1] == [full[0]];
        ApplySingle(live, full[0]);
        KeepsOnce(live, n, keep);
        assert p(l).value == [Publish(n, c)];
        assert full[1..] == [Publish(n, c)];
        assert p(l).value[0..] == p(l).value && p(l).value[..0] == [];
      }
    }
  }

  ghost predicate Settled(n: Name, keep: Keep, f: Content -> Edit, live: Live)
    requires n.File?
  {
    n in live && (f(live[n]) == Leave || (f(live[n]) == Put(live[n]) && Kept(live, n, keep)))
  }

  lemma SettledIsDone(n: Name, keep: Keep, f: Content -> Edit, live: Live)
    requires n.File? && Settled(n, keep, f, live)
    ensures DoneAt(Editing(n, keep, f), live)
  {
  }

  lemma EditingDone(n: Name, keep: Keep, f: Content -> Edit, live: Live)
    requires n.File? && n in live && Idempotent(f, live[n])
    ensures Editing(n, keep, f)(live).Some?
    ensures var l := Apply(live, Editing(n, keep, f)(live).value);
            Settled(n, keep, f, l) && DoneAt(Editing(n, keep, f), l)
            && l[n] == (if f(live[n]).Put? then f(live[n]).content else live[n])
  {
    var p := Editing(n, keep, f);
    var full := p(live).value;
    if f(live[n]).Put? {
      var c := f(live[n]).content;
      var kept := KeepFirst(live, n, keep);
      ApplyAppend(live, kept, [Publish(n, c)]);
      ApplySingle(Apply(live, kept), Publish(n, c));
      if kept != [] {
        assert kept[1..] == [];
      }
    }
  }

  // ---- frames

  predicate Touches(a: Action, n: Name) {
    match a
    case Publish(m, _) => m == n
    case LinkTo(_, t) => t == n
  }

  lemma {:induction false} ApplyKeeps(live: Live, acts: seq<Action>, n: Name)
    requires forall a :: a in acts ==> !Touches(a, n)
    ensures n in live <==> n in Apply(live, acts)
    ensures n in live ==> Apply(live, acts)[n] == live[n]
    decreases |acts|
  {
    if acts != [] {
      assert !Touches(acts[0], n);
      ApplyKeeps(ApplyOne(live, acts[0]), acts[1..], n);
    }
  }

  lemma {:induction false} ApplyGrows(live: Live, acts: seq<Action>)
    ensures live.Keys <= Apply(live, acts).Keys
    decreases |acts|
  {
    if acts != [] {
      ApplyGrows(ApplyOne(live, acts[0]), acts[1..]);
    }
  }

  /** An edit touches its file and that file's backup only. */
  lemma EditingTouches(n: Name, keep: Keep, f: Content -> Edit, live: Live, m: Name)
    requires n.File? && Editing(n, keep, f)(live).Some?
    requires m != n && (keep.NoBackup? || m != Backup(n.dir, n.name, keep.suffix))
    ensures forall a :: a in Editing(n, keep, f)(live).value ==> !Touches(a, m)
  {
  }

  /** A settled file stays settled while the steps that follow do not touch it. */
  lemma SettledStays(n: Name, keep: Keep, f: Content -> Edit, live: Live, acts: seq<Action>, j: nat)
    requires n.File? && Settled(n, keep, f, live) && j <= |acts|
    requires forall a :: a in acts ==> !Touches(a, n)
    ensures DoneAt(Editing(n, keep, f), Stage(live, acts, j))
  {
    assert forall a :: a in acts[..j] ==> a in acts;
    ApplyKeeps(live, acts[..j], n);
    ApplyGrows(live, acts[..j]);
    SettledIsDone(n, keep, f, Stage(live, acts, j));
  }

  /** Editing a file, then doing something resumable that leaves the file alone. */
  lemma EditThen(n: Name, keep: Keep, f: Content -> Edit, q: Plan, live: Live)
    requires n.File? && n in live && Idempotent(f, live[n])
    requires var mid := Apply(live, Editing(n, keep, f)(live).value);
             Resumable(q, mid) && forall a :: a in q(mid).value ==> !Touches(a, n)
    ensures Resumable(Then(Editing(n, keep, f), q), live)
    ensures Then(Editing(n, keep, f), q)(live)
         == Some(Editing(n, keep, f)(live).value + q(Apply(live, Editing(n, keep, f)(live).value)).value)
  {
    var p := Editing(n, keep, f);
    var mid := Apply(live, p(live).value);
    var b := q(mid).value;
    EditingResumable(n, keep, f, live);
    EditingDone(n, keep, f, live);
    forall j | 0 <= j <= |b| ensures DoneAt(p, Stage(mid, b, j)) {
      SettledStays(n, keep, f, mid, b, j);
    }
    ThenResumable(p, q, live);
  }

  /** An edit leaves every other file as it is, except for the backup it may add. */
  lemma EditingKeeps(n: Name, keep: Keep, f: Content -> Edit, live: Live, m: Name)
    requires n.File? && Editing(n, keep, f)(live).Some?
    requires m != n && (keep.NoBackup? || m != Backup(n.dir, n.name, keep.suffix))
    ensures forall a :: a in Editing(n, keep, f)(live).value ==> !Touches(a, m)
    ensures var l := Apply(live, Editing(n, keep, f)(live).value);
            (m in live <==> m in l) && (m in live ==> l[m] == live[m])
  {
    EditingTouches(n, keep, f, live, m);
    ApplyKeeps(live, Editing(n, keep, f)(live).value, m);
  }

  /** Three files rewritten one after the other, as every script does. */
  lemma ThreeEdits(n: Name, k: Keep, f: Content -> Edit, n': Name, k': Keep, f': Content -> Edit,
                   n'': Name, k'': Keep, f'': Content -> Edit, live: Live)
    requires n.File? && n'.File? && n''.File? && n != n' && n' != n'' && n != n''
    requires n in live && n' in live && n'' in live
    requires Idempotent(f, live[n]) && Idempotent(f', live[n']) && Idempotent(f'', live[n''])
    ensures Resumable(Then(Editing(n, k, f), Then(Editing(n', k', f'), Editing(n'', k'', f''))), live)
    ensures var p, p', p'' := Editing(n, k, f), Editing(n', k', f'), Editing(n'', k'', f'');
            p(live).Some? &&
            var l := Apply(live, p(live).value);
            p'(l).Some? &&
            var l' := Apply(l, p'(l).value);
            p''(l').Some? && n' in l && l[n'] == live[n'] && n'' in l' && l'[n''] == live[n''] &&
            Then(p, Then(p', p''))(live) == Some(p(live).value + (p'(l).value + p''(l').value))
  {
    var p, p', p'' := Editing(n, k, f), Editing(n', k', f'), Editing(n'', k'', f'');
    var l := Apply(live, p(live).value);
    EditingKeeps(n, k, f, live, n');
    EditingKeeps(n, k, f, live, n'');
    var l' := Apply(l, p'(l).value);
    EditingKeeps(n', k', f', l, n);
    EditingKeeps(n', k', f', l, n'');
    EditingKeeps(n'', k'', f'', l', n);
    EditingKeeps(n'', k'', f'', l', n');
    EditingResumable(n'', k'', f'', l');
    EditThen(n', k', f', p'', l);
    EditThen(n, k, f, Then(p', p''), live);
  }

  lemma ThenStarts(p: Plan, q: Plan, live: Live)
    requires Then(p, q)(live).Some?
    ensures p(live).Some?
  {
  }

  lemma ThenRuns(p: Plan, q: Plan, live: Live)
    requires p(live).Some?
    ensures Then(p, q)(live).Some?
  {
  }

  lemma EditingRuns(n: Name, keep: Keep, f: Content -> Edit, live: Live)
    requires n.File? && n in live && f(live[n]) != Refuse
    ensures Editing(n, keep, f)(live).Some?
  {
  }

  /** An edit publishes its file last, and once. */
  lemma EditingEnds(n: Name, keep: Keep, f: Content -> Edit, live: Live)
    requires n.File? && n in live && f(live[n]).Put?
    ensures Editing(n, keep, f)(live).Some?
    ensures var acts := Editing(n, keep, f)(live).value;
            acts != [] && acts[|acts| - 1] == Publish(n, f(live[n]).content)
            && forall x :: x in acts[..|acts| - 1] ==> !Touches(x, n)
  {
  }

  /** Every write of the file leaves it in the form the edit leaves alone. */
  ghost predicate WritesLeft(n: Name, f: Content -> Edit, acts: seq<Action>) {
    forall a :: a in acts && Touches(a, n) ==> a.Publish? && f(a.content) == Leave
  }

  lemma {:induction false} LeftStays(n: Name, f: Content -> Edit, live: Live, acts: seq<Action>)
    requires n in live && f(live[n]) == Leave && WritesLeft(n, f, acts)
    ensures n in Apply(live, acts) && f(Apply(live, acts)[n]) == Leave
    decreases |acts|
  {
    if acts != [] {
      assert acts[0] in acts;
      LeftStays(n, f, ApplyOne(live, acts[0]), acts[1..]);
    }
  }

  /** Editing a file into its final form, then something that may write it again in that form. */
  lemma EditThenLeft(n: Name, keep: Keep, f: Content -> Edit, q: Plan, live: Live)
    requires n.File? && n in live && Idempotent(f, live[n])
    requires var mid := Apply(live, Editing(n, keep, f)(live).value);
             n in mid && f(mid[n]) == Leave && Resumable(q, mid) && WritesLeft(n, f, q(mid).value)
    ensures Resumable(Then(Editing(n, keep, f), q), live)
    ensures Then(Editing(n, keep, f), q)(live)
         == Some(Editing(n, keep, f)(live).value + q(Apply(live, Editing(n, keep, f)(live).value)).value)
  {
    var p := Editing(n, keep, f);
    var mid := Apply(live, p(live).value);
    var b := q(mid).value;
    EditingResumable(n, keep, f, live);
    forall j | 0 <= j <= |b| ensures DoneAt(p, Stage(mid, b, j)) {
      assert forall a :: a in b[..j] ==> a in b;
      LeftStays(n, f, mid, b[..j]);
      SettledIsDone(n, keep, f, Stage(mid, b, j));
    }
    ThenResumable(p, q, live);
  }

  predicate Spares(acts: seq<Action>, m: Name) {
    forall a :: a in acts ==> !Touches(a, m)
  }

  ghost predicate SparesAllBut(acts: seq<Action>, n: Name, n': Name) {
    forall m: Name :: m.File? && m != n && m != n' ==> Spares(acts, m)
  }

  /** Two files rewritten one after the other; every other file is spared. */
  lemma TwoEdits(n: Name, k: Keep, f: Content -> Edit, n': Name, k': Keep, f': Content -> Edit, live: Live)
    requires n.File? && n'.File? && n != n' && n in live && n' in live
    requires Idempotent(f, live[n]) && Idempotent(f', live[n'])
    ensures Resumable(Then(Editing(n, k, f), Editing(n', k', f')), live)
    ensures SparesAllBut(Then(Editing(n, k, f), Editing(n', k', f'))(live).value, n, n')
  {
    var p, p' := Editing(n, k, f), Editing(n', k', f');
    EditingKeeps(n, k, f, live, n');
    var mid := Apply(live, p(live).value);
    EditingResumable(n', k', f', mid);
    EditingKeeps(n', k', f', mid, n);
    EditThen(n, k, f, p', live);
    forall m: Name | m.File? && m != n && m != n' ensures Spares(Then(p, p')(live).value, m) {
      EditingTouches(n, k, f, live, m);
      EditingTouches(n', k', f', mid, m);
      assert Then(p, p')(live).value == p(live).value + p'(mid).value;
    }
  }
}
