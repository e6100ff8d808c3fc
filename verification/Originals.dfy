/** Backups that are made once, prepare/atomic_publish.py and keep_original of quant_heads_stream.py: what they
    hold at every stage of a plan, whichever of its files it rewrites and however often. */
module Originals {
  import opened Contents
  import opened AtomicPublish
  import opened Resume

  /** How a script keeps each file before it first rewrites it. */
  type Keeps = Name -> Keep

  predicate Backed(own: Keeps, n: Name) {
    n.File? && own(n) != NoBackup
  }

  function BackupOf(own: Keeps, n: Name): Name
    requires Backed(own, n)
  {
    Backup(n.dir, n.name, own(n).suffix)
  }

  /** The backup of n holds what it held in `live`, or else what n held there; without a backup, n
      itself is as it was. */
  predicate KeptOrUntouched(own: Keeps, live: Live, l: Live, n: Name)
    requires Backed(own, n) && n in live
  {
    var bk := BackupOf(own, n);
    if bk in l then l[bk] == (if bk in live then live[bk] else live[n])
    else bk !in live && n in l && l[n] == live[n]
  }

  ghost predicate OriginalsKept(own: Keeps, live: Live, l: Live) {
    forall n: Name :: Backed(own, n) && n in live ==> KeptOrUntouched(own, live, l, n)
  }

  /** Every stage of the plan, wherever it starts, keeps the originals. */
  ghost predicate KeepsOriginals(own: Keeps, live: Live, p: Plan) {
    forall l :: OriginalsKept(own, live, l) && p(l).Some? ==> AllStagesKeep(own, live, l, p(l).value)
  }

  ghost predicate AllStagesKeep(own: Keeps, live: Live, l: Live, acts: seq<Action>) {
    forall i :: 0 <= i <= |acts| ==> OriginalsKept(own, live, Stage(l, acts, i))
  }

  lemma EmptyKeeps(own: Keeps, live: Live, l: Live)
    requires OriginalsKept(own, live, l)
    ensures AllStagesKeep(own, live, l, [])
  {
  }

  lemma OneKeeps(own: Keeps, live: Live, l: Live, a: Action, rest: seq<Action>)
    requires OriginalsKept(own, live, l) && AllStagesKeep(own, live, ApplyOne(l, a), rest)
    ensures AllStagesKeep(own, live, l, [a] + rest)
  {
    var acts := [a] + rest;
    forall i | 0 <= i <= |acts| ensures OriginalsKept(own, live, Stage(l, acts, i)) {
      if i == 0 {
        assert acts[..0] == [];
      } else {
        assert acts[..i] == [a] + rest[..i - 1];
        assert acts[..i][1..] == rest[..i - 1];
        assert OriginalsKept(own, live, Stage(ApplyOne(l, a), rest, i - 1));
      }
    }
  }

  /** Publishing a file whose backup exists. */
  lemma PublishKeeps(own: Keeps, live: Live, l: Live, n: Name, c: Content)
    requires OriginalsKept(own, live, l) && Backed(own, n) && BackupOf(own, n) in l
    ensures OriginalsKept(own, live, ApplyOne(l, Publish(n, c)))
  {
    forall m: Name | Backed(own, m) && m in live ensures KeptOrUntouched(own, live, l[n := c], m) {
      assert KeptOrUntouched(own, live, l, m);
    }
  }

  /** Making the backup of a file that has none. */
  lemma BackupKeeps(own: Keeps, live: Live, l: Live, n: Name)
    requires OriginalsKept(own, live, l) && Backed(own, n) && n in l && BackupOf(own, n) !in l
    requires n !in live ==> BackupOf(own, n) !in live
    ensures OriginalsKept(own, live, l[BackupOf(own, n) := l[n]])
  {
    forall m: Name | Backed(own, m) && m in live ensures KeptOrUntouched(own, live, l[BackupOf(own, n) := l[n]], m) {
      assert KeptOrUntouched(own, live, l, m);
    }
  }

  /** Publishing a file that gets no backup. */
  lemma UnbackedKeeps(own: Keeps, live: Live, l: Live, n: Name, c: Content)
    requires OriginalsKept(own, live, l) && n.File? && own(n) == NoBackup
    ensures AllStagesKeep(own, live, l, [Publish(n, c)])
  {
    forall m: Name | Backed(own, m) && m in live ensures KeptOrUntouched(own, live, l[n := c], m) {
      assert KeptOrUntouched(own, live, l, m);
    }
    EmptyKeeps(own, live, ApplyOne(l, Publish(n, c)));
    OneKeeps(own, live, l, Publish(n, c), []);
    assert [Publish(n, c)] + [] == [Publish(n, c)];
  }

  lemma EditKeeps(own: Keeps, live: Live, n: Name, keep: Keep, f: Content -> Edit)
    requires n.File? && n in live && keep == own(n)
    ensures KeepsOriginals(own, live, Editing(n, keep, f))
  {
    forall l | OriginalsKept(own, live, l) && Editing(n, keep, f)(l).Some?
      ensures AllStagesKeep(own, live, l, Editing(n, keep, f)(l).value)
    {
      match f(l[n])
      case Leave => EmptyKeeps(own, live, l);
      case Put(c) =>
        if keep == NoBackup {
          UnbackedKeeps(own, live, l, n, c);
          assert KeepFirst(l, n, keep) + [Publish(n, c)] == [Publish(n, c)];
        } else if BackupOf(own, n) in l {
          PublishKeeps(own, live, l, n, c);
          EmptyKeeps(own, live, ApplyOne(l, Publish(n, c)));
          OneKeeps(own, live, l, Publish(n, c), []);
          assert [Publish(n, c)] + [] == KeepFirst(l, n, keep) + [Publish(n, c)];
        } else {
          BackupThenPublish(own, live, l, n, keep, c);
        }
    }
  }

  lemma BackupThenPublish(own: Keeps, live: Live, l: Live, n: Name, keep: Keep, c: Content)
    requires OriginalsKept(own, live, l) && Backed(own, n) && n in l && n in live && keep == own(n)
    requires BackupOf(own, n) !in l
    ensures AllStagesKeep(own, live, l, KeepFirst(l, n, keep) + [Publish(n, c)])
  {
    var first := KeepFirst(l, n, keep)[0];
    var mid := ApplyOne(l, first);
    assert mid == l[BackupOf(own, n) := l[n]];
    BackupKeeps(own, live, l, n);
    PublishKeeps(own, live, mid, n, c);
    EmptyKeeps(own, live, ApplyOne(mid, Publish(n, c)));
    OneKeeps(own, live, mid, Publish(n, c), []);
    OneKeeps(own, live, l, first, [Publish(n, c)] + []);
    assert [first] + ([Publish(n, c)] + []) == KeepFirst(l, n, keep) + [Publish(n, c)];
  }

  lemma ThenKeeps(own: Keeps, live: Live, p: Plan, q: Plan)
    requires KeepsOriginals(own, live, p) && KeepsOriginals(own, live, q)
    ensures KeepsOriginals(own, live, Then(p, q))
  {
    forall l | OriginalsKept(own, live, l) && Then(p, q)(l).Some?
      ensures AllStagesKeep(own, live, l, Then(p, q)(l).value)
    {
      var a := p(l).value;
      var mid := Apply(l, a);
      assert a[..|a|] == a && Stage(l, a, |a|) == mid;
      if q(mid).Some? {
        var b := q(mid).value;
        forall i | 0 <= i <= |a + b| ensures OriginalsKept(own, live, Stage(l, a + b, i)) {
          if i <= |a| { StageEarly(l, a, b, i); } else { StageLate(l, a, b, i); }
        }
      }
    }
  }
}
