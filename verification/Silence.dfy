// What it means when checkClaims reports nothing
// (unica/pkg/domain/validator.go): the conditions under which the validator is
// silent, stated without its bookkeeping.
module Silence {
  import opened Text
  import opened Ontology
  import opened Facts
  import opened Claims
  import opened Validator

  // ---------- One claim ----------

  // The claim's value is among those of the most specific applicable fact or,
  // when the claim is unqualified, among those every situation states.
  ghost predicate AgreesWithFacts(lx: Lexicon, o: Model, c: Claim, scope: Scope)
    requires c.property in o.properties
  {
    var facts := FactsOf(o, c.property);
    var value := Canonical(lx, o.properties[c.property].range.labels, c.value);
    if scope != map[] then
      forall i: nat | i < |facts| && IsWinner(lx, o, facts, scope, |facts|, i) ::
        ContainsFold(lx.fold, facts[i].values, value)
    else Unanimous(facts) && (facts != [] ==> ContainsFold(lx.fold, facts[0].values, value))
  }

  // A claim on a declared property that the ontology stands behind.
  ghost predicate Supported(lx: Lexicon, o: Model, c: Claim)
    requires c.property in o.properties
  {
    var prop := o.properties[c.property];
    var scope := ResolveScope(lx, o, c.qualifiers);
    && scope.Some?
    && (CLASS in scope.value ==> AppliesTo(o, prop, scope.value[CLASS]))
    && ValueOk(lx, prop, c.value)
    && AgreesWithFacts(lx, o, c, scope.value)
  }

  lemma CompareMeansAgreement(lx: Lexicon, o: Model, c: Claim, scope: Scope)
    requires c.property in o.properties
    ensures Compare(lx, o, o.properties[c.property], c, scope) == Agrees <==> AgreesWithFacts(lx, o, c, scope)
  {
    if scope != map[] {
      QualifiedAgreement(lx, o, c, scope);
    } else {
      UnqualifiedAgreement(lx, o, c);
    }
  }

  lemma QualifiedAgreement(lx: Lexicon, o: Model, c: Claim, scope: Scope)
    requires c.property in o.properties && scope != map[]
    ensures Compare(lx, o, o.properties[c.property], c, scope) == Agrees <==> AgreesWithFacts(lx, o, c, scope)
  {
    hide FactsOf, Canonical, ContainsFold, Best, IsWinner, Applies;
    var facts := FactsOf(o, c.property);
    BestWins(lx, o, facts, scope, |facts|);
    var b := Best(lx, o, facts, scope, |facts|);
    if b.None? {
      NoWinner(lx, o, facts, scope);
    } else {
      forall i: nat | i < |facts| && IsWinner(lx, o, facts, scope, |facts|, i) ensures i == b.value {
        WinnerIsUnique(lx, o, facts, scope, i, b.value);
      }
    }
  }

  lemma NoWinner(lx: Lexicon, o: Model, facts: seq<Fact>, scope: Scope)
    requires forall j | 0 <= j < |facts| :: !Applies(lx, o, facts[j].scope, scope)
    ensures forall i: nat | i < |facts| :: !IsWinner(lx, o, facts, scope, |facts|, i)
  {
    hide Applies, Hops;
  }

  lemma UnqualifiedAgreement(lx: Lexicon, o: Model, c: Claim)
    requires c.property in o.properties
    ensures Compare(lx, o, o.properties[c.property], c, map[]) == Agrees <==> AgreesWithFacts(lx, o, c, map[])
  {
    hide FactsOf, Canonical, ContainsFold, Distinct, Unanimous;
    var facts := FactsOf(o, c.property);
    DistinctCounts(facts);
    if facts == [] {
      assert Unanimous(facts) by { EmptyIsUnanimous(); }
    }
  }

  lemma EmptyIsUnanimous()
    ensures Unanimous([])
  {
  }

  lemma FaultlessMeansSupported(lx: Lexicon, o: Model, c: Claim)
    requires c.property in o.properties
    ensures Fault(lx, o, c).None? <==> Supported(lx, o, c)
  {
    hide ResolveScope, ValueOk, AppliesTo, Compare, AgreesWithFacts;
    var scope := ResolveScope(lx, o, c.qualifiers);
    if scope.Some? {
      CompareMeansAgreement(lx, o, c, scope.value);
    }
  }

  // ---------- All claims ----------

  // A claim the single-valued check looks at.
  predicate Single(lx: Lexicon, o: Model, c: Claim) {
    c.property in o.properties && o.properties[c.property].functional && Fault(lx, o, c).None?
  }

  function KeyOf(lx: Lexicon, o: Model, c: Claim): string
    requires Single(lx, o, c)
  {
    FaultlessResolves(lx, o, c);
    SeenKey(o, ResolveScope(lx, o, c.qualifiers).value, c.property)
  }

  // No two claims give one functional property different values under one label.
  predicate SingleValued(lx: Lexicon, o: Model, claims: seq<Claim>) {
    forall i, j | 0 <= i < |claims| && 0 <= j < |claims| && Single(lx, o, claims[i]) && Single(lx, o, claims[j]) ::
      KeyOf(lx, o, claims[i]) == KeyOf(lx, o, claims[j]) ==> claims[i].value == claims[j].value
  }

  // A claim passes by itself; an undeclared property passes in an open world only.
  predicate Passes(lx: Lexicon, o: Model, c: Claim) {
    if c.property in o.properties then Fault(lx, o, c).None? else !o.IsClosedWorld()
  }

  predicate EachPasses(lx: Lexicon, o: Model, claims: seq<Claim>) {
    forall i | 0 <= i < |claims| :: Passes(lx, o, claims[i])
  }

  // `seen` holds, for every single-valued claim so far, exactly its value.
  ghost predicate SeenExactly(lx: Lexicon, o: Model, claims: seq<Claim>, seen: Seen) {
    && (forall i | 0 <= i < |claims| && Single(lx, o, claims[i]) ::
          KeyOf(lx, o, claims[i]) in seen && seen[KeyOf(lx, o, claims[i])] == {claims[i].value})
    && (forall key | key in seen ::
          exists i | 0 <= i < |claims| :: Single(lx, o, claims[i]) && KeyOf(lx, o, claims[i]) == key)
  }

  lemma SeenStep(lx: Lexicon, o: Model, front: seq<Claim>, c: Claim, seen: Seen)
    requires SeenExactly(lx, o, front, seen) && Single(lx, o, c)
    ensures var after := Noted(seen, KeyOf(lx, o, c), c.value);
            var conflict := |after[KeyOf(lx, o, c)]| > 1;
            && (conflict <==> exists i | 0 <= i < |front| :: Single(lx, o, front[i])
                                && KeyOf(lx, o, front[i]) == KeyOf(lx, o, c) && front[i].value != c.value)
            && (!conflict ==> SeenExactly(lx, o, front + [c], after))
  {
    hide Single, KeyOf;
    var key := KeyOf(lx, o, c);
    var after := Noted(seen, key, c.value);
    if key in seen {
      var i :| 0 <= i < |front| && Single(lx, o, front[i]) && KeyOf(lx, o, front[i]) == key;
      assert seen[key] == {front[i].value};
      if front[i].value != c.value {
        assert |{front[i].value, c.value}| == 2;
      } else {
        assert after[key] == {c.value};
      }
    } else {
      assert after[key] == {c.value};
    }
    if |after[key]| <= 1 {
      assert after[key] == {c.value};
      SeenGrows(lx, o, front, c, seen, after);
    }
  }

  lemma SeenGrows(lx: Lexicon, o: Model, front: seq<Claim>, c: Claim, seen: Seen, after: Seen)
    requires SeenExactly(lx, o, front, seen) && Single(lx, o, c)
    requires after == seen[KeyOf(lx, o, c) := {c.value}]
    requires KeyOf(lx, o, c) in seen ==> seen[KeyOf(lx, o, c)] == {c.value}
    ensures SeenExactly(lx, o, front + [c], after)
  {
    hide Single, KeyOf;
    var claims := front + [c];
    forall key | key in after
      ensures exists i | 0 <= i < |claims| :: Single(lx, o, claims[i]) && KeyOf(lx, o, claims[i]) == key
    {
      if key == KeyOf(lx, o, c) {
        assert claims[|front|] == c;
      } else {
        var i :| 0 <= i < |front| && Single(lx, o, front[i]) && KeyOf(lx, o, front[i]) == key;
        assert claims[i] == front[i];
      }
    }
  }

  lemma SingleValuedStep(lx: Lexicon, o: Model, front: seq<Claim>, c: Claim)
    ensures SingleValued(lx, o, front + [c]) <==>
              SingleValued(lx, o, front) &&
              (Single(lx, o, c) ==> forall i | 0 <= i < |front| && Single(lx, o, front[i]) ::
                 KeyOf(lx, o, front[i]) == KeyOf(lx, o, c) ==> front[i].value == c.value)
  {
    hide Single, KeyOf;
    var claims := front + [c];
    assert claims[|front|] == c;
    assert forall i | 0 <= i < |front| :: claims[i] == front[i];
  }

  lemma {:induction false} SilentBookkeeping(lx: Lexicon, o: Model, claims: seq<Claim>)
    ensures var p := CheckAll(lx, o, claims);
            && (p.out == [] <==> EachPasses(lx, o, claims) && SingleValued(lx, o, claims))
            && (p.out == [] ==> SeenExactly(lx, o, claims, p.seen))
  {
    hide Fault, KeyOf, SeenExactly, SingleValued, Noted, CheckOne, CheckAll, EachPasses, Single;
    CheckAllUnfolds(lx, o, claims);
    if claims != [] {
      var front, c := claims[..|claims| - 1], claims[|claims| - 1];
      assert claims == front + [c];
      SilentBookkeeping(lx, o, front);
      SingleValuedStep(lx, o, front, c);
      PassesStep(lx, o, front, c);
      var p := CheckAll(lx, o, front);
      CheckOneStep(lx, o, c, p);
      if p.out == [] && Single(lx, o, c) {
        SeenStep(lx, o, front, c, p.seen);
      } else if p.out == [] {
        UnseenStep(lx, o, front, c, p.seen);
      }
    } else {
      NothingSeen(lx, o);
    }
  }

  lemma CheckAllUnfolds(lx: Lexicon, o: Model, claims: seq<Claim>)
    ensures CheckAll(lx, o, claims) ==
            if claims == [] then Progress([], map[])
            else CheckOne(lx, o, claims[|claims| - 1], CheckAll(lx, o, claims[..|claims| - 1]))
  {
    hide CheckOne;
  }

  lemma PassesStep(lx: Lexicon, o: Model, front: seq<Claim>, c: Claim)
    ensures EachPasses(lx, o, front + [c]) <==> EachPasses(lx, o, front) && Passes(lx, o, c)
    ensures EachPasses(lx, o, [])
  {
    hide Fault;
    var claims := front + [c];
    assert claims[|front|] == c;
    assert forall i | 0 <= i < |front| :: claims[i] == front[i];
  }

  // One claim adds a violation unless it passes and its value is not the second
  // one under its key.
  lemma CheckOneStep(lx: Lexicon, o: Model, c: Claim, p: Progress)
    ensures var p' := CheckOne(lx, o, c, p);
            if p.out != [] then p'.out != []
            else if !Passes(lx, o, c) then p'.out != []
            else if !Single(lx, o, c) then p' == p
            else
              && KeyOf(lx, o, c) in Noted(p.seen, KeyOf(lx, o, c), c.value)
              && p'.seen == Noted(p.seen, KeyOf(lx, o, c), c.value)
              && (p'.out == [] <==> |p'.seen[KeyOf(lx, o, c)]| <= 1)
  {
    hide Fault, SeenKey, Joined, ReportedScope, ScopeLabel, ResolveScope, KeyOf;
    if Single(lx, o, c) {
      KeyIsSeenKey(lx, o, c);
    }
  }

  lemma NothingSeen(lx: Lexicon, o: Model)
    ensures SeenExactly(lx, o, [], map[]) && SingleValued(lx, o, []) && EachPasses(lx, o, [])
  {
  }

  lemma KeyIsSeenKey(lx: Lexicon, o: Model, c: Claim)
    requires Single(lx, o, c)
    ensures ResolveScope(lx, o, c.qualifiers).Some?
    ensures KeyOf(lx, o, c) == SeenKey(o, ResolveScope(lx, o, c.qualifiers).value, c.property)
    ensures forall seen, value :: KeyOf(lx, o, c) in Noted(seen, KeyOf(lx, o, c), value)
  {
    FaultlessResolves(lx, o, c);
  }

  lemma UnseenStep(lx: Lexicon, o: Model, front: seq<Claim>, c: Claim, seen: Seen)
    requires SeenExactly(lx, o, front, seen) && !Single(lx, o, c)
    ensures SeenExactly(lx, o, front + [c], seen)
  {
    hide Single, KeyOf;
    var claims := front + [c];
    forall key | key in seen
      ensures exists i | 0 <= i < |claims| :: Single(lx, o, claims[i]) && KeyOf(lx, o, claims[i]) == key
    {
      var i :| 0 <= i < |front| && Single(lx, o, front[i]) && KeyOf(lx, o, front[i]) == key;
      assert claims[i] == front[i];
    }
  }

  // checkClaims is silent exactly when every claim is supported - or undeclared,
  // in an open world - and no functional property is given two values under one
  // scope label.
  lemma SilentIff(lx: Lexicon, o: Model, claims: seq<Claim>)
    ensures CheckAll(lx, o, claims).out == [] <==>
              (forall c | c in claims :: if c.property in o.properties then Supported(lx, o, c) else !o.IsClosedWorld())
              && SingleValued(lx, o, claims)
  {
    hide Fault, Supported, CheckAll, SingleValued;
    SilentBookkeeping(lx, o, claims);
    forall c | c in claims && c.property in o.properties
      ensures Fault(lx, o, c).None? <==> Supported(lx, o, c)
    {
      FaultlessMeansSupported(lx, o, c);
    }
  }

  // In particular two claims on one functional property in one resolved scope
  // carry the same value.
  lemma SilentIsSingleValued(lx: Lexicon, o: Model, claims: seq<Claim>, c: Claim, d: Claim)
    requires CheckAll(lx, o, claims).out == [] && c in claims && d in claims && c.property == d.property
    requires c.property in o.properties && o.properties[c.property].functional
    requires ResolveScope(lx, o, c.qualifiers) == ResolveScope(lx, o, d.qualifiers)
    ensures c.value == d.value
  {
    hide Fault, CheckAll, SeenKey, ResolveScope;
    SilentBookkeeping(lx, o, claims);
    var i :| 0 <= i < |claims| && claims[i] == c;
    var j :| 0 <= j < |claims| && claims[j] == d;
    KeyIsSeenKey(lx, o, c);
    KeyIsSeenKey(lx, o, d);
  }
}
