/** scripts/port-changed-signatures.py, Sig.binds, against section 6.3.4 (Calls) of the Python Language
    Reference. Signatures have no positional-only parameters and calls no repeated keyword. */
module CallBinding {
  import opened Numbers

  /** A parameter list: `params` may be given by position or by keyword, the last `ndefaults` of them
      have defaults, and `kwonlyRequired` are the keyword-only ones without. */
  datatype Sig = Sig(
    isMethod: bool, isStatic: bool, params: seq<string>, ndefaults: nat,
    kwonly: seq<string>, kwonlyRequired: set<string>, vararg: bool, kwarg: bool)

  predicate Distinct(names: seq<string>) {
    forall i, j :: 0 <= i < j < |names| ==> names[i] != names[j]
  }

  /** What Python's grammar requires of a parameter list. */
  predicate WellFormed(s: Sig) {
    && Distinct(Slots(s))
    && s.ndefaults <= |s.params|
    && forall k <- s.kwonlyRequired :: k in s.kwonly
  }

  // ---- the language's procedure

  /** The slots of the formal parameters. */
  function Slots(s: Sig): seq<string> {
    s.params + s.kwonly
  }

  datatype Filling = TypeError | Filled(slots: set<nat>)

  function FirstSlots(m: nat): (slots: set<nat>)
    ensures forall i: nat :: i in slots <==> i < m
  {
    if m == 0 then {} else FirstSlots(m - 1) + {m - 1}
  }

  /** Positional arguments go to the first slots; the rest need *args. */
  function PlacePositional(s: Sig, n: nat): Filling {
    if n > |s.params| && !s.vararg then TypeError else Filled(FirstSlots(MinInt(n, |s.params|)))
  }

  function SlotOf(names: seq<string>, k: string): (i: nat)
    requires k in names
    ensures i < |names| && names[i] == k
  {
    if names[0] == k then 0 else SlotOf(names[1..], k) + 1
  }

  /** A keyword goes to the slot of its name, which must not be filled; an unknown name needs **kwargs. */
  function PlaceKeyword(s: Sig, f: Filling, k: string): Filling {
    if f.TypeError? then TypeError
    else if k in Slots(s) then
      if SlotOf(Slots(s), k) in f.slots then TypeError else Filled(f.slots + {SlotOf(Slots(s), k)})
    else if s.kwarg then f else TypeError
  }

  function PlaceKeywords(s: Sig, f: Filling, kwnames: seq<string>): Filling {
    if kwnames == [] then f
    else PlaceKeyword(s, PlaceKeywords(s, f, kwnames[..|kwnames| - 1]), kwnames[|kwnames| - 1])
  }

  predicate HasDefault(s: Sig, i: nat)
    requires i < |Slots(s)|
  {
    if i < |s.params| then |s.params| - s.ndefaults <= i else Slots(s)[i] !in s.kwonlyRequired
  }

  /** The call is accepted: no TypeError, and every slot left unfilled has a default. */
  predicate Accepts(s: Sig, n: nat, kwnames: seq<string>) {
    var f := PlaceKeywords(s, PlacePositional(s, n), kwnames);
    f.Filled? && forall i: nat :: i < |Slots(s)| ==> i in f.slots || HasDefault(s, i)
  }

  /** A bound call passes the object as a first positional argument, except to a static method. */
  predicate PassesSelf(s: Sig, bound: bool) {
    bound && s.isMethod && !s.isStatic
  }

  /** How many arguments the language puts before the given ones: a function found in a class through an
      object is bound to the object; a static method, and what is no method, is called as it is. */
  function Prepended(s: Sig, bound: bool): nat {
    if !s.isMethod then 0 else if s.isStatic then 0 else if bound then 1 else 0
  }

  predicate PythonAccepts(s: Sig, npos: nat, kwnames: seq<string>, bound: bool) {
    Accepts(s, Prepended(s, bound) + npos, kwnames)
  }

  // ---- what the procedure amounts to

  /** The slot of a keyword is free of positional arguments, or the name is left to **kwargs. */
  predicate Placeable(s: Sig, n: nat, k: string) {
    if k in Slots(s) then k !in s.params[..MinInt(n, |s.params|)] else s.kwarg
  }

  predicate AcceptsAll(s: Sig, n: nat, kwnames: seq<string>) {
    && (n <= |s.params| || s.vararg)
    && (forall k <- kwnames :: Placeable(s, n, k))
    && SlotsCovered(s, n, kwnames)
  }

  /** Every slot is given or has a default. */
  predicate SlotsCovered(s: Sig, n: nat, kwnames: seq<string>) {
    forall i: nat :: i < |Slots(s)| ==> i < MinInt(n, |s.params|) || Slots(s)[i] in kwnames || HasDefault(s, i)
  }

  lemma SlotIsUnique(s: Sig, k: string, i: nat)
    requires WellFormed(s) && i < |Slots(s)| && Slots(s)[i] == k
    ensures SlotOf(Slots(s), k) == i
  {
  }

  /** The slots filled after a sequence of keywords that can be placed, and only then. */
  lemma {:induction false} KeywordsPlaced(s: Sig, n: nat, kwnames: seq<string>)
    requires WellFormed(s) && Distinct(kwnames) && (n <= |s.params| || s.vararg)
    ensures var f := PlaceKeywords(s, PlacePositional(s, n), kwnames);
            && (f.Filled? <==> forall k <- kwnames :: Placeable(s, n, k))
            && (f.Filled? ==> forall i: nat :: i < |Slots(s)| ==>
                  (i in f.slots <==> i < MinInt(n, |s.params|) || Slots(s)[i] in kwnames))
  {
    if kwnames != [] {
      var rest, k := kwnames[..|kwnames| - 1], kwnames[|kwnames| - 1];
      assert kwnames == rest + [k];
      KeywordsPlaced(s, n, rest);
      assert k !in rest;
      assert forall x :: x in kwnames <==> x in rest || x == k;
      if k in Slots(s) {
        PositionalSlots(s, n, k);
        forall i: nat | i < |Slots(s)| && Slots(s)[i] == k ensures i == SlotOf(Slots(s), k) {
          SlotIsUnique(s, k, i);
        }
      }
    }
  }

  lemma InPrefix(names: seq<string>, m: nat, i: nat)
    ensures i < m <= |names| ==> names[i] in names[..m]
  {
    if i < m <= |names| {
      assert names[..m][i] == names[i];
    }
  }

  lemma PositionalSlots(s: Sig, n: nat, k: string)
    requires WellFormed(s) && k in Slots(s)
    ensures SlotOf(Slots(s), k) < MinInt(n, |s.params|) <==> k in s.params[..MinInt(n, |s.params|)]
  {
    var m := MinInt(n, |s.params|);
    if k in s.params[..m] {
      var i :| 0 <= i < m && s.params[..m][i] == k;
      assert Slots(s)[i] == k;
      SlotIsUnique(s, k, i);
    } else {
      var i := SlotOf(Slots(s), k);
      InPrefix(s.params, m, i);
    }
  }

  lemma AcceptsIff(s: Sig, n: nat, kwnames: seq<string>)
    requires WellFormed(s) && Distinct(kwnames)
    ensures Accepts(s, n, kwnames) <==> AcceptsAll(s, n, kwnames)
  {
    if n <= |s.params| || s.vararg {
      KeywordsPlaced(s, n, kwnames);
    } else {
      StaysError(s, kwnames);
    }
  }

  lemma {:induction false} StaysError(s: Sig, kwnames: seq<string>)
    ensures PlaceKeywords(s, TypeError, kwnames).TypeError?
  {
    if kwnames != [] {
      StaysError(s, kwnames[..|kwnames| - 1]);
    }
  }

  // ---- the script's decision

  /** binds works on the parameters without self, if there are any. */
  function WithoutSelf(s: Sig, bound: bool): seq<string> {
    if PassesSelf(s, bound) && s.params != [] then s.params[1..] else s.params
  }

  function Required(s: Sig, bound: bool): int {
    |s.params| - s.ndefaults - (if PassesSelf(s, bound) && s.params != [] then 1 else 0)
  }

  predicate KeywordFits(s: Sig, params: seq<string>, npos: nat, k: string) {
    k !in params[..MinInt(npos, |params|)] && (k in params || k in s.kwonly || s.kwarg)
  }

  predicate BindsAll(s: Sig, npos: nat, kwnames: seq<string>, bound: bool) {
    var params, nreq := WithoutSelf(s, bound), Required(s, bound);
    && (npos <= |params| || s.vararg)
    && (forall k <- kwnames :: KeywordFits(s, params, npos, k))
    && RequiredGiven(params, nreq, npos, kwnames)
    && (forall k <- s.kwonlyRequired :: k in kwnames)
  }

  predicate RequiredGiven(params: seq<string>, nreq: int, npos: nat, kwnames: seq<string>) {
    forall i :: 0 <= i < nreq && i < |params| ==> i < npos || params[i] in kwnames
  }

  lemma DistinctWithoutSelf(s: Sig, bound: bool)
    requires WellFormed(s)
    ensures Distinct(WithoutSelf(s, bound) + s.kwonly)
  {
    var d := |s.params| - |WithoutSelf(s, bound)|;
    var names := WithoutSelf(s, bound) + s.kwonly;
    forall i, j | 0 <= i < j < |names| ensures names[i] != names[j] {
      assert names[i] == Slots(s)[i + d] && names[j] == Slots(s)[j + d];
    }
  }

  /** Which parameters the loop has filled. */
  lemma FilledNames(params: seq<string>, kwonly: seq<string>, npos: nat, kwnames: seq<string>, filled: set<string>,
                    i: nat)
    requires Distinct(params + kwonly) && i < |params + kwonly|
    requires forall k ::
      k in filled <==> k in params[..MinInt(npos, |params|)] || (k in kwnames && (k in params || k in kwonly))
    ensures (params + kwonly)[i] in filled <==> (i < npos && i < |params|) || (params + kwonly)[i] in kwnames
  {
    var k, m := (params + kwonly)[i], MinInt(npos, |params|);
    InPrefix(params, m, i);
    if k in params[..m] {
      var j :| 0 <= j < m && params[..m][j] == k;
      assert (params + kwonly)[j] == k;
    }
  }

  lemma RequiredFilled(s: Sig, params: seq<string>, npos: nat, kwnames: seq<string>, filled: set<string>, nreq: int)
    requires Distinct(params + s.kwonly) && forall k <- s.kwonlyRequired :: k in s.kwonly
    requires forall k ::
      k in filled <==> k in params[..MinInt(npos, |params|)] || (k in kwnames && (k in params || k in s.kwonly))
    ensures (forall r <- params[..MinInt(MaxInt(nreq, 0), |params|)] :: r in filled)
       <==> RequiredGiven(params, nreq, npos, kwnames)
    ensures (forall k <- s.kwonlyRequired :: k in filled) <==> (forall k <- s.kwonlyRequired :: k in kwnames)
  {
    var names, m := params + s.kwonly, MinInt(MaxInt(nreq, 0), |params|);
    forall i | 0 <= i < |params| ensures params[i] in filled <==> i < npos || params[i] in kwnames {
      FilledNames(params, s.kwonly, npos, kwnames, filled, i);
    }
    forall k | k in s.kwonlyRequired ensures k in filled <==> k in kwnames {
      var j :| 0 <= j < |s.kwonly| && s.kwonly[j] == k;
      assert names[|params| + j] == k;
      FilledNames(params, s.kwonly, npos, kwnames, filled, |params| + j);
    }
    forall i | 0 <= i < m ensures params[i] in params[..m] {
      InPrefix(params, m, i);
    }
    assert forall r <- params[..m] :: exists i :: 0 <= i < m && params[i] == r;
  }

  /** The slots of params and kwonly that are filled after the positional and keyword arguments. */
  method FillSlots(s: Sig, params: seq<string>, npos: nat, kwnames: seq<string>) returns (ok: bool, filled: set<string>)
    requires Distinct(kwnames)
    ensures ok <==> forall k <- kwnames :: KeywordFits(s, params, npos, k)
    ensures ok ==> forall k ::
      k in filled <==> k in params[..MinInt(npos, |params|)] || (k in kwnames && (k in params || k in s.kwonly))
  {
    var first := params[..MinInt(npos, |params|)];
    filled := set k <- first;
    for i := 0 to |kwnames|
      invariant forall j :: 0 <= j < i ==> KeywordFits(s, params, npos, kwnames[j])
      invariant forall k :: k in filled <==> k in first || (k in kwnames[..i] && (k in params || k in s.kwonly))
    {
      var k := kwnames[i];
      assert k !in kwnames[..i];
      assert kwnames[..i + 1] == kwnames[..i] + [k];
      if k in filled {
        assert k in kwnames && !KeywordFits(s, params, npos, k);
        return false, filled;
      }
      if k in params || k in s.kwonly {
        filled := filled + {k};
      } else if !s.kwarg {
        assert k in kwnames && !KeywordFits(s, params, npos, k);
        return false, filled;
      }
    }
    assert kwnames[..|kwnames|] == kwnames;
    ok := true;
  }

  /** Sig.binds for a plain call. */
  method Binds(s: Sig, npos: nat, kwnames: seq<string>, bound: bool) returns (ok: bool)
    requires WellFormed(s) && Distinct(kwnames)
    ensures ok <==> BindsAll(s, npos, kwnames, bound)
  {
    var params := s.params;
    var nreq := |params| - s.ndefaults;
    if bound && s.isMethod && !s.isStatic && params != [] {
      params, nreq := params[1..], nreq - 1;
    }
    if npos > |params| && !s.vararg {
      return false;
    }
    var filled;
    ok, filled := FillSlots(s, params, npos, kwnames);
    if !ok {
      return;
    }
    DistinctWithoutSelf(s, bound);
    RequiredFilled(s, params, npos, kwnames, filled, nreq);
    ok := (forall r <- params[..MinInt(MaxInt(nreq, 0), |params|)] :: r in filled)
       && (forall k <- s.kwonlyRequired :: k in filled);
  }

  // ---- the two compared

  /** The number of positional arguments Python counts. */
  function Given(s: Sig, npos: nat, bound: bool): nat {
    if PassesSelf(s, bound) then npos + 1 else npos
  }

  /** Where the script is laxer than the language: a bound call of a method that takes no self, or
      a keyword named like self that **kwargs would take. */
  predicate SelfSlips(s: Sig, kwnames: seq<string>, bound: bool) {
    PassesSelf(s, bound) && if s.params == [] then !s.vararg else s.kwarg && s.params[0] in kwnames
  }

  lemma PrefixWithSelf(names: seq<string>, m: nat, k: string)
    requires names != [] && m < |names|
    ensures k in names[..m + 1] <==> k == names[0] || k in names[1..][..m]
  {
    assert names[..m + 1] == [names[0]] + names[1..][..m];
  }

  lemma PlaceableIff(s: Sig, npos: nat, k: string, bound: bool)
    requires WellFormed(s)
    ensures Placeable(s, Given(s, npos, bound), k)
        <==> KeywordFits(s, WithoutSelf(s, bound), npos, k)
             && !(PassesSelf(s, bound) && s.params != [] && k == s.params[0])
  {
    if PassesSelf(s, bound) && s.params != [] {
      PrefixWithSelf(s.params, MinInt(npos, |s.params| - 1), k);
      assert s.params == [s.params[0]] + s.params[1..];
      if k == s.params[0] {
        assert Slots(s)[0] == k;
      }
    } else if PassesSelf(s, bound) {
      assert s.params[..MinInt(npos, 0)] == [];
    }
  }

  lemma RequirementsIff(s: Sig, npos: nat, kwnames: seq<string>, bound: bool)
    requires WellFormed(s)
    ensures SlotsCovered(s, Given(s, npos, bound), kwnames)
        <==> RequiredGiven(WithoutSelf(s, bound), Required(s, bound), npos, kwnames)
             && forall k <- s.kwonlyRequired :: k in kwnames
  {
    var n, params := Given(s, npos, bound), WithoutSelf(s, bound);
    var d := |s.params| - |params|;
    if SlotsCovered(s, n, kwnames) {
      forall i | 0 <= i < Required(s, bound) && i < |params| ensures i < npos || params[i] in kwnames {
        assert Slots(s)[i + d] == params[i];
      }
      forall k | k in s.kwonlyRequired ensures k in kwnames {
        var j :| 0 <= j < |s.kwonly| && s.kwonly[j] == k;
        assert Slots(s)[|s.params| + j] == k;
      }
    }
    if RequiredGiven(params, Required(s, bound), npos, kwnames) && forall k <- s.kwonlyRequired :: k in kwnames {
      forall i: nat | i < |Slots(s)| ensures i < MinInt(n, |s.params|) || Slots(s)[i] in kwnames || HasDefault(s, i) {
        if d <= i < |s.params| {
          assert Slots(s)[i] == params[i - d];
        }
      }
    }
  }

  /** The language accepts exactly the calls the script binds, less those where self slips through. */
  lemma BindsIsPython(s: Sig, npos: nat, kwnames: seq<string>, bound: bool)
    requires WellFormed(s) && Distinct(kwnames)
    ensures PythonAccepts(s, npos, kwnames, bound)
       <==> BindsAll(s, npos, kwnames, bound) && !SelfSlips(s, kwnames, bound)
  {
    AcceptsIff(s, Given(s, npos, bound), kwnames);
    RequirementsIff(s, npos, kwnames, bound);
    forall k | k in kwnames
      ensures Placeable(s, Given(s, npos, bound), k)
          <==> KeywordFits(s, WithoutSelf(s, bound), npos, k)
               && !(PassesSelf(s, bound) && s.params != [] && k == s.params[0])
    {
      PlaceableIff(s, npos, k, bound);
    }
    if PassesSelf(s, bound) && s.params != [] {
      SelfKeyword(s, npos, kwnames, bound);
    }
  }

  /** A keyword named like self only fits through **kwargs. */
  lemma SelfKeyword(s: Sig, npos: nat, kwnames: seq<string>, bound: bool)
    requires WellFormed(s) && PassesSelf(s, bound) && s.params != []
    ensures KeywordFits(s, WithoutSelf(s, bound), npos, s.params[0]) ==> s.kwarg
  {
    var names := s.params[1..] + s.kwonly;
    assert Slots(s)[0] == s.params[0];
    forall i | 0 <= i < |names| ensures names[i] != s.params[0] {
      assert names[i] == Slots(s)[i + 1];
    }
    assert forall k :: k in s.params[1..] || k in s.kwonly ==> k in names;
  }

  ghost predicate AgreesWithPython(s: Sig, bound: bool) {
    forall npos: nat, kwnames :: Distinct(kwnames) ==>
      (BindsAll(s, npos, kwnames, bound) <==> PythonAccepts(s, npos, kwnames, bound))
  }

  /** The script's answer is the language's for every call exactly when no self is passed, or the
      method takes it and has no **kwargs, or takes only *args. */
  lemma AgreesIff(s: Sig, bound: bool)
    requires WellFormed(s)
    ensures AgreesWithPython(s, bound)
       <==> Prepended(s, bound) == 0 || (if s.params == [] then s.vararg else !s.kwarg)
  {
    forall npos: nat, kwnames | Distinct(kwnames)
      ensures PythonAccepts(s, npos, kwnames, bound)
         <==> BindsAll(s, npos, kwnames, bound) && !SelfSlips(s, kwnames, bound)
    {
      BindsIsPython(s, npos, kwnames, bound);
    }
    if PassesSelf(s, bound) && (if s.params == [] then !s.vararg else s.kwarg) {
      var kwnames := Slots(s);
      NamingEverything(s, bound);
      assert SelfSlips(s, kwnames, bound) && BindsAll(s, 0, kwnames, bound);
    }
  }

  /** The call that names every parameter, self included. */
  lemma NamingEverything(s: Sig, bound: bool)
    requires WellFormed(s) && PassesSelf(s, bound) && (s.params != [] ==> s.kwarg)
    ensures BindsAll(s, 0, Slots(s), bound)
    ensures s.params != [] ==> s.params[0] in Slots(s)
  {
  }
}
