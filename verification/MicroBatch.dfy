/** drafter/train_mtp.py, pack: sequences into micro-batches whose padded size stays within a token
    budget. */
module MicroBatch {
  import opened Numbers

  /** A training sequence: its length, and the rest of its record. */
  datatype Item = Item(n: nat, record: int)

  ghost predicate Descending(a: seq<Item>) {
    forall i, j :: 0 <= i < j < |a| ==> a[j].n <= a[i].n
  }

  lemma InFront(y: Item, a: seq<Item>, x: Item, r: seq<Item>)
    requires Descending([y] + a) && Descending(r) && x.n <= y.n && multiset(r) == multiset(a) + multiset{x}
    ensures Descending([y] + r)
  {
    forall j | 0 <= j < |r| ensures r[j].n <= y.n {
      assert r[j] in multiset(r);
      if r[j] != x {
        assert r[j] in a;
        var k :| 0 <= k < |a| && a[k] == r[j];
        var all := [y] + a;
        assert all[0] == y && all[k + 1] == r[j];
      }
    }
  }

  /** Insertion before the first item that is not longer. */
  function Insert(x: Item, a: seq<Item>): (r: seq<Item>)
    requires Descending(a)
    ensures Descending(r) && multiset(r) == multiset(a) + multiset{x}
  {
    if a == [] || a[0].n <= x.n then [x] + a
    else
      assert a == [a[0]] + a[1..];
      var r := Insert(x, a[1..]);
      InFront(a[0], a[1..], x, r);
      [a[0]] + r
  }

  /** sorted(..., key=-n): descending and stable. */
  function Sorted(a: seq<Item>): (r: seq<Item>)
    ensures Descending(r) && multiset(r) == multiset(a)
  {
    if a == [] then []
    else
      assert a == [a[0]] + a[1..];
      Insert(a[0], Sorted(a[1..]))
  }

  /** The items of one length, in order. */
  function OfLength(a: seq<Item>, n: nat): seq<Item> {
    if a == [] then [] else OneIf(a[0], n) + OfLength(a[1..], n)
  }

  function OneIf(x: Item, n: nat): seq<Item> {
    if x.n == n then [x] else []
  }

  lemma OfLengthCons(x: Item, a: seq<Item>, n: nat)
    ensures OfLength([x] + a, n) == OneIf(x, n) + OfLength(a, n)
  {
    assert ([x] + a)[1..] == a;
  }

  /** Of two items of different lengths at most one has length n. */
  lemma Swapped(x: Item, y: Item, rest: seq<Item>, n: nat)
    requires x.n != y.n
    ensures OneIf(y, n) + (OneIf(x, n) + rest) == OneIf(x, n) + (OneIf(y, n) + rest)
  {
  }

  lemma {:induction false} InsertIsStable(x: Item, a: seq<Item>, n: nat)
    requires Descending(a)
    ensures OfLength(Insert(x, a), n) == OneIf(x, n) + OfLength(a, n)
    decreases |a|
  {
    if a == [] || a[0].n <= x.n {
      OfLengthCons(x, a, n);
    } else {
      var rest := a[1..];
      assert a == [a[0]] + rest;
      InsertIsStable(x, rest, n);
      OfLengthCons(a[0], Insert(x, rest), n);
      Swapped(x, a[0], OfLength(rest, n), n);
    }
  }

  /** Sequences of the same length keep their order. */
  lemma {:induction false} SortedIsStable(a: seq<Item>, n: nat)
    ensures OfLength(Sorted(a), n) == OfLength(a, n)
  {
    if a != [] {
      SortedIsStable(a[1..], n);
      InsertIsStable(a[0], Sorted(a[1..]), n);
    }
  }

  function Flat(b: seq<seq<Item>>): seq<Item> {
    if b == [] then [] else b[0] + Flat(b[1..])
  }

  lemma {:induction false} FlatAppend(b: seq<seq<Item>>, x: seq<Item>)
    ensures Flat(b + [x]) == Flat(b) + x
  {
    if b == [] {
      assert [x][1..] == [];
    } else {
      assert (b + [x])[1..] == b[1..] + [x];
      FlatAppend(b[1..], x);
    }
  }

  /** Size times longest sequence within the budget; a single sequence always goes through. */
  ghost predicate Fits(b: seq<Item>, budget: int) {
    |b| == 1 || (1 < |b| && forall x <- b :: x.n * |b| <= budget)
  }

  ghost predicate AllFit(b: seq<seq<Item>>, budget: int) {
    forall i :: 0 <= i < |b| ==> Fits(b[i], budget)
  }

  /** No batch but the last had room for one more sequence. */
  ghost predicate Filled(b: seq<seq<Item>>, budget: int) {
    forall i :: 0 <= i < |b| - 1 ==> b[i] != [] && budget < b[i][0].n * (|b[i]| + 1)
  }

  // ---- no grouping uses fewer batches

  lemma NotAmong(a: seq<Item>, g: nat, x: Item)
    requires Descending(a) && g < |a| && x.n < a[g].n
    ensures x !in a[..g + 1]
  {
    var head := a[..g + 1];
    forall i | 0 <= i < |head| ensures head[i] != x {
      assert head[i] == a[i] && a[g].n <= a[i].n;
    }
  }

  /** Among the items of a, fewer than |a| - g are shorter than a[g]. */
  lemma ShorterItems(a: seq<Item>, g: nat, m: multiset<Item>)
    requires Descending(a) && g < |a| && m <= multiset(a)
    requires forall x :: x in m ==> x.n < a[g].n
    ensures |m| < |a| - g
  {
    var head, tail := a[..g + 1], a[g + 1..];
    assert a == head + tail;
    forall x | x in m ensures m[x] <= multiset(tail)[x] {
      NotAmong(a, g, x);
      assert multiset(a)[x] == multiset(head)[x] + multiset(tail)[x];
    }
    assert m <= multiset(tail);
    Cardinality(m, multiset(tail));
  }

  lemma Cardinality(m: multiset<Item>, n: multiset<Item>)
    requires m <= n
    ensures |m| <= |n|
  {
    assert n == m + (n - m);
  }

  /** Some batch of q holds an item at least as long as a[g]. */
  lemma LongBatch(a: seq<Item>, g: nat, q: seq<seq<Item>>) returns (i: nat, x: Item)
    requires Descending(a) && g < |a| && multiset(Flat(q)) <= multiset(a) && |a| - |Flat(q)| <= g
    ensures i < |q| && x in q[i] && a[g].n <= x.n
  {
    if forall y :: y in multiset(Flat(q)) ==> y.n < a[g].n {
      ShorterItems(a, g, multiset(Flat(q)));
    }
    x :| x in multiset(Flat(q)) && a[g].n <= x.n;
    i := BatchOf(q, x);
  }

  lemma {:induction false} BatchOf(q: seq<seq<Item>>, x: Item) returns (i: nat)
    requires x in Flat(q)
    ensures i < |q| && x in q[i]
  {
    if x in q[0] {
      i := 0;
    } else {
      i := BatchOf(q[1..], x);
      i := i + 1;
    }
  }

  lemma {:induction false} FlatWithout(q: seq<seq<Item>>, i: nat)
    requires i < |q|
    ensures multiset(Flat(q)) == multiset(Flat(q[..i] + q[i + 1..])) + multiset(q[i])
    ensures |Flat(q)| == |Flat(q[..i] + q[i + 1..])| + |q[i]|
  {
    var rest := q[..i] + q[i + 1..];
    if i == 0 {
      assert rest == q[1..];
    } else {
      FlatWithout(q[1..], i - 1);
      assert rest[1..] == q[1..][..i - 1] + q[1..][i..];
    }
  }

  /** A batch holding an item as long as the first of a filled batch is no larger than that one. */
  lemma NoLarger(b: seq<Item>, other: seq<Item>, x: Item, budget: int)
    requires b != [] && budget < b[0].n * (|b| + 1)
    requires Fits(other, budget) && x in other && b[0].n <= x.n
    ensures |other| <= |b|
  {
    if |b| < |other| {
      TimesMonotone(b[0].n, x.n, |b| + 1);
      TimesMonotone(|b| + 1, |other|, x.n);
    }
  }

  /** With g items of a already gone, filled batches over the rest are no more than the batches of
      any grouping of all but at most g items. */
  lemma {:induction false} FilledIsMinimal(a: seq<Item>, g: nat, b: seq<seq<Item>>, q: seq<seq<Item>>, budget: int)
    requires Descending(a) && g <= |a| && Flat(b) == a[g..]
    requires AllFit(b, budget) && Filled(b, budget)
    requires AllFit(q, budget) && multiset(Flat(q)) <= multiset(a) && |a| - |Flat(q)| <= g
    ensures |b| <= |q|
    decreases |q|
  {
    if b != [] {
      var q' := OneBatchLess(a, g, b, q, budget);
      assert Flat(b[1..]) == a[g + |b[0]|..];
      FilledIsMinimal(a, g + |b[0]|, b[1..], q', budget);
    }
  }

  /** Taking the first filled batch away and, of the grouping, a batch with an item as long as its first. */
  lemma OneBatchLess(a: seq<Item>, g: nat, b: seq<seq<Item>>, q: seq<seq<Item>>, budget: int)
      returns (q': seq<seq<Item>>)
    requires Descending(a) && g <= |a| && Flat(b) == a[g..] && b != []
    requires AllFit(b, budget) && Filled(b, budget)
    requires AllFit(q, budget) && multiset(Flat(q)) <= multiset(a) && |a| - |Flat(q)| <= g
    ensures |q'| + 1 == |q| && AllFit(q', budget) && multiset(Flat(q')) <= multiset(a)
    ensures g + |b[0]| <= |a|
    ensures b[1..] != [] ==> |a| - |Flat(q')| <= g + |b[0]|
    ensures b[1..] == [] ==> g + |b[0]| == |a|
  {
    assert b[0][0] == Flat(b)[0] == a[g];
    var i, x := LongBatch(a, g, q);
    q' := q[..i] + q[i + 1..];
    FlatWithout(q, i);
    if 1 < |b| {
      NoLarger(b[0], q[i], x, budget);
    }
  }

  /** The loop's state after the first i items. */
  ghost predicate Packed(a: seq<Item>, i: nat, batches: seq<seq<Item>>, cur: seq<Item>, curMax: nat, budget: int) {
    && i <= |a| && cur != []
    && Flat(batches) + cur == a[..i]
    && AllFit(batches + [cur], budget)
    && Filled(batches + [cur], budget)
    && cur[0].n == curMax
  }

  lemma FitsWithin(b: seq<Item>, budget: int)
    requires b != [] && Descending(b) && b[0].n * |b| <= budget
    ensures Fits(b, budget)
  {
    forall x | x in b ensures x.n * |b| <= budget {
      TimesMonotone(x.n, b[0].n, |b|);
    }
  }

  lemma Start(a: seq<Item>, i: nat, batches: seq<seq<Item>>, budget: int)
    requires i < |a| && Flat(batches) == a[..i] && AllFit(batches, budget) && Filled(batches + [[a[i]]], budget)
    ensures Packed(a, i + 1, batches, [a[i]], a[i].n, budget)
  {
    assert a[..i + 1] == a[..i] + [a[i]];
  }

  /** A full batch is closed and the item opens the next one. */
  lemma Close(a: seq<Item>, i: nat, batches: seq<seq<Item>>, cur: seq<Item>, curMax: nat, budget: int)
    requires i < |a| && Packed(a, i, batches, cur, curMax, budget) && budget < curMax * (|cur| + 1)
    ensures Packed(a, i + 1, batches + [cur], [a[i]], a[i].n, budget)
  {
    FlatAppend(batches, cur);
    var b := batches + [cur];
    assert Flat(b) == a[..i];
    Start(a, i, b, budget);
  }

  lemma GrownBatch(a: seq<Item>, i: nat, flat: seq<Item>, cur: seq<Item>, budget: int)
    requires Descending(a) && i < |a| && flat + cur == a[..i] && cur != [] && cur[0].n * (|cur| + 1) <= budget
    ensures flat + (cur + [a[i]]) == a[..i + 1] && Fits(cur + [a[i]], budget)
  {
    var grown := cur + [a[i]];
    assert a[..i + 1] == a[..i] + [a[i]];
    assert flat + grown == a[..i + 1];
    assert grown == a[|flat|..i + 1];
    FitsWithin(grown, budget);
  }

  /** Growing the open batch leaves the others as they are. */
  lemma LastReplaced(batches: seq<seq<Item>>, cur: seq<Item>, grown: seq<Item>, budget: int)
    requires AllFit(batches + [cur], budget) && Filled(batches + [cur], budget) && Fits(grown, budget)
    ensures AllFit(batches + [grown], budget) && Filled(batches + [grown], budget)
  {
    var b, b' := batches + [cur], batches + [grown];
    assert forall k :: 0 <= k < |batches| ==> b[k] == b'[k];
  }

  lemma Extend(a: seq<Item>, i: nat, batches: seq<seq<Item>>, cur: seq<Item>, curMax: nat, budget: int)
    requires Descending(a) && i < |a| && Packed(a, i, batches, cur, curMax, budget) && curMax * (|cur| + 1) <= budget
    ensures Packed(a, i + 1, batches, cur + [a[i]], curMax, budget)
  {
    GrownBatch(a, i, Flat(batches), cur, budget);
    LastReplaced(batches, cur, cur + [a[i]], budget);
  }

  lemma Finish(a: seq<Item>, batches: seq<seq<Item>>, cur: seq<Item>, curMax: nat, budget: int)
    requires Packed(a, |a|, batches, cur, curMax, budget)
    ensures Flat(batches + [cur]) == a
  {
    FlatAppend(batches, cur);
    assert a[..|a|] == a;
  }

  /** cur[0] is the longest item of the open batch. */
  lemma FirstIsLongest(a: seq<Item>, i: nat, batches: seq<seq<Item>>, cur: seq<Item>, curMax: nat, budget: int)
    requires Descending(a) && i < |a| && Packed(a, i, batches, cur, curMax, budget)
    ensures a[i].n <= curMax
  {
    assert cur[0] == a[..i][|Flat(batches)|];
  }

  /** The loop over the sorted items. */
  method Batches(a: seq<Item>, budget: int) returns (batches: seq<seq<Item>>)
    requires Descending(a)
    ensures Flat(batches) == a && AllFit(batches, budget) && Filled(batches, budget)
  {
    batches := [];
    var cur: seq<Item>, curMax: nat := [], 0;
    for i := 0 to |a|
      invariant if i == 0 then batches == [] && cur == [] && curMax == 0 else Packed(a, i, batches, cur, curMax, budget)
    {
      var s := a[i];
      var m := MaxInt(curMax, s.n);
      if i == 0 {
        Start(a, 0, [], budget);
      } else {
        Advance(a, i, batches, cur, curMax, budget);
      }
      if cur != [] && m * (|cur| + 1) > budget {
        batches := batches + [cur];
        cur, curMax := [], 0;
        m := s.n;
      }
      cur := cur + [s];
      curMax := m;
    }
    if cur != [] {
      Finish(a, batches, cur, curMax, budget);
      batches := batches + [cur];
    }
  }

  lemma Advance(a: seq<Item>, i: nat, batches: seq<seq<Item>>, cur: seq<Item>, curMax: nat, budget: int)
    requires Descending(a) && i < |a| && Packed(a, i, batches, cur, curMax, budget)
    ensures MaxInt(curMax, a[i].n) == curMax
    ensures if curMax * (|cur| + 1) > budget
            then Packed(a, i + 1, batches + [cur], [a[i]], a[i].n, budget)
            else Packed(a, i + 1, batches, cur + [a[i]], curMax, budget)
  {
    FirstIsLongest(a, i, batches, cur, curMax, budget);
    if budget < curMax * (|cur| + 1) {
      Close(a, i, batches, cur, curMax, budget);
    } else {
      Extend(a, i, batches, cur, curMax, budget);
    }
  }

  /** The micro-batches of pack: every sequence once, each batch within the budget, and no grouping
      of the same sequences within the budget has fewer batches. */
  method Pack(items: seq<Item>, budget: int) returns (batches: seq<seq<Item>>)
    ensures Flat(batches) == Sorted(items)
    ensures multiset(Flat(batches)) == multiset(items)
    ensures AllFit(batches, budget)
    ensures forall q :: AllFit(q, budget) && multiset(Flat(q)) == multiset(items) ==> |batches| <= |q|
  {
    var a := Sorted(items);
    batches := Batches(a, budget);
    AllGroupings(items, a, batches, budget);
  }

  lemma AllGroupings(items: seq<Item>, a: seq<Item>, batches: seq<seq<Item>>, budget: int)
    requires a == Sorted(items) && Flat(batches) == a && AllFit(batches, budget) && Filled(batches, budget)
    ensures forall q :: AllFit(q, budget) && multiset(Flat(q)) == multiset(items) ==> |batches| <= |q|
  {
    forall q | AllFit(q, budget) && multiset(Flat(q)) == multiset(items) ensures |batches| <= |q| {
      SameSize(Flat(q), a);
      FilledIsMinimal(a, 0, batches, q, budget);
    }
  }

  lemma SameSize(a: seq<Item>, b: seq<Item>)
    requires multiset(a) == multiset(b)
    ensures |a| == |b|
  {
    assert |multiset(a)| == |multiset(b)|;
  }
}
