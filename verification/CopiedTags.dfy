// The promise behind the tag vocabulary (unica/pkg/domain/render.go and
// validator.go): an answer that copies a listed tag is not reported - except for
// the tag of an unconditional fact whose property varies by situation.
module CopiedTags {
  import opened Options
  import opened Text
  import opened Ontology
  import opened Facts
  import opened Claims
  import opened Validator
  import opened Silence
  import Hierarchy
  import Render

  // ---------- What Validate does not check ----------

  // Two scopes describe one situation: the same dimensions, the same class, and
  // values that agree up to labels and case.
  predicate SameSituation(lx: Lexicon, o: Model, f: Scope, g: Scope) {
    && f.Keys == g.Keys
    && forall dim | dim in f ::
         if dim == CLASS then f[dim] == g[dim] else DimensionMatches(lx, o, dim, f[dim], g[dim])
  }

  // One situation states one list of values for a property.
  ghost predicate OneListPerSituation(lx: Lexicon, o: Model) {
    forall name, f, g | name in o.properties && f in FactsOf(o, name) && g in FactsOf(o, name) ::
      SameSituation(lx, o, f.scope, g.scope) ==> f.values == g.values
  }

  // Asserted values are stored as identifiers, up to case and surrounding space.
  predicate ValuesCanonical(lx: Lexicon, o: Model) {
    forall a | a in o.assertions :: forall name | name in a.values && name in o.properties ::
      forall v | v in a.values[name] ::
        EqualFold(lx.fold, Trim(v), Trim(Canonical(lx, o.properties[name].range.labels, v)))
  }

  // A dimension's identifiers are trimmed and none reads as the label of another.
  predicate DimensionCanonical(lx: Lexicon, d: Dimension) {
    && (forall l | l in d.labels :: Trimmed(l.id))
    && (forall v | v in d.values :: Trimmed(v) && EqualFold(lx.fold, Canonical(lx, d.labels, v), v))
  }

  // A value scoping an assertion means something in its own dimension only.
  predicate QualifierIsOwn(lx: Lexicon, o: Model, dim: string, q: string) {
    && q !in o.classes
    && forall e | e in o.dimensions && e != dim :: ValueIn(lx, o.dimensions[e], q).None?
  }

  ghost predicate Unambiguous(lx: Lexicon, o: Model) {
    && OneListPerSituation(lx, o) && ValuesCanonical(lx, o)
    && (forall d | d in o.dimensions :: DimensionCanonical(lx, o.dimensions[d]))
    && (forall a | a in o.assertions :: forall dim | dim in a.EffectiveScope() && dim != CLASS ::
          QualifierIsOwn(lx, o, dim, a.EffectiveScope()[dim]))
  }

  // ---------- Where a listed tag comes from ----------

  lemma {:induction false} StatedOrigin(assertions: seq<Assertion>, name: string, f: Fact) returns (a: Assertion)
    requires f in Stated(assertions, name)
    ensures a in assertions && name in a.values && a.values[name] != []
    ensures f == Fact(a.EffectiveScope(), a.values[name])
  {
    var last := assertions[|assertions| - 1];
    if f in Stated(assertions[..|assertions| - 1], name) {
      a := StatedOrigin(assertions[..|assertions| - 1], name, f);
    } else {
      a := last;
    }
  }

  lemma FactOrigin(o: Model, name: string, f: Fact) returns (a: Assertion)
    requires f in FactsOf(o, name)
    ensures a in o.assertions && name in a.values && a.values[name] != []
    ensures f == Fact(a.EffectiveScope(), a.values[name])
  {
    var stated := Stated(o.assertions, name);
    StableSortIsStable(stated, f);
    assert f in multiset(StableSort(stated));
    a := StatedOrigin(o.assertions, name, f);
  }

  lemma {:induction false} ValueOrigin(qualifiers: seq<string>, name: string, values: seq<string>, c: Claim)
    requires c in Render.ValueClaims(qualifiers, name, values)
    ensures c.qualifiers == qualifiers && c.property == name && c.value in values
  {
    if c in Render.ValueClaims(qualifiers, name, values[..|values| - 1]) {
      ValueOrigin(qualifiers, name, values[..|values| - 1], c);
    }
  }

  lemma {:induction false} ClaimFact(name: string, facts: seq<Fact>, c: Claim) returns (f: Fact)
    requires c in Render.FactClaims(name, facts)
    ensures f in facts && c.qualifiers == Render.Qualifiers(f.scope) && c.property == name && c.value in f.values
  {
    hide Render.Qualifiers;
    var last := facts[|facts| - 1];
    if c in Render.FactClaims(name, facts[..|facts| - 1]) {
      f := ClaimFact(name, facts[..|facts| - 1], c);
    } else {
      ValueOrigin(Render.Qualifiers(last.scope), name, last.values, c);
      f := last;
    }
  }

  lemma {:induction false} NamedOrigin(o: Model, names: seq<string>, c: Claim) returns (f: Fact)
    requires c in Render.NamedClaims(o, names)
    ensures c.property in names && f in FactsOf(o, c.property)
    ensures c.qualifiers == Render.Qualifiers(f.scope) && c.value in f.values
  {
    hide Render.Qualifiers, FactsOf;
    var last := names[|names| - 1];
    if c in Render.NamedClaims(o, names[..|names| - 1]) {
      f := NamedOrigin(o, names[..|names| - 1], c);
    } else {
      f := ClaimFact(last, FactsOf(o, last), c);
    }
  }

  // ---------- Copied qualifiers resolve to the scope they came from ----------

  lemma FoldIsTransitive(fold: char -> char, a: string, b: string, c: string)
    requires EqualFold(fold, a, b) && EqualFold(fold, b, c)
    ensures EqualFold(fold, a, c)
  {
  }

  lemma FoldIsSymmetric(fold: char -> char, a: string, b: string)
    ensures EqualFold(fold, a, b) <==> EqualFold(fold, b, a)
  {
  }

  // A validated value of a canonical dimension resolves inside it.
  lemma ValidatedValueResolves(lx: Lexicon, d: Dimension, q: string)
    requires DimensionCanonical(lx, d) && ContainsFold(lx.fold, d.values, Canonical(lx, d.labels, q))
    ensures var r := ValueIn(lx, d, q);
            r.Some? && r.value in d.values && EqualFold(lx.fold, r.value, Canonical(lx, d.labels, q))
            && EqualFold(lx.fold, Canonical(lx, d.labels, q), Canonical(lx, d.labels, r.value))
  {
    var c := Canonical(lx, d.labels, q);
    CanonicalIsTrimmed(lx, d, q);
    TrimmedStays(c);
    var v :| v in d.values && EqualFold(lx.fold, Trim(v), Trim(c));
    TrimmedStays(v);
    var r := ValueIn(lx, d, q);
    assert r.Some?;
    assert EqualFold(lx.fold, Canonical(lx, d.labels, r.value), r.value);
    FoldIsTransitive(lx.fold, Canonical(lx, d.labels, r.value), r.value, c);
    FoldIsSymmetric(lx.fold, Canonical(lx, d.labels, r.value), c);
  }

  lemma CanonicalIsTrimmed(lx: Lexicon, d: Dimension, q: string)
    requires DimensionCanonical(lx, d)
    ensures Trimmed(Canonical(lx, d.labels, q))
  {
    hide EqualFold;
    CanonicalCases(lx, d.labels, q);
    TrimIsTrimmed(q);
    if i :| 0 <= i < |d.labels| && Canonical(lx, d.labels, q) == d.labels[i].id {
      assert d.labels[i] in d.labels;
    }
  }

  lemma {:induction false} OnlyOneAnswers(lx: Lexicon, o: Model, names: seq<string>, dim: string, q: string)
    requires forall n | n in names :: n in o.dimensions
    requires dim in names && ValueIn(lx, o.dimensions[dim], q).Some?
    requires forall e | e in o.dimensions && e != dim :: ValueIn(lx, o.dimensions[e], q).None?
    ensures ResolveAmong(lx, o, names, q) == Some(Resolved(dim, ValueIn(lx, o.dimensions[dim], q).value))
  {
    hide ValueIn;
    if names[0] != dim {
      OnlyOneAnswers(lx, o, names[1..], dim, q);
    }
  }

  // What a validated, unambiguous assertion gives for each of its dimensions.
  ghost predicate ResolvesTo(lx: Lexicon, o: Model, scope: Scope, dim: string, r: Resolved)
    requires dim in scope
  {
    && r.dimension == dim
    && if dim == CLASS then r.value == scope[dim]
       else DimensionMatches(lx, o, dim, scope[dim], r.value)
  }

  lemma QualifierResolves(lx: Lexicon, o: Model, a: Assertion, dim: string) returns (r: Resolved)
    requires WellFormed(lx, o) && Unambiguous(lx, o) && a in o.assertions && dim in a.EffectiveScope()
    ensures ResolveQualifier(lx, o, a.EffectiveScope()[dim]) == Some(r)
    ensures ResolvesTo(lx, o, a.EffectiveScope(), dim, r)
  {
    hide OneListPerSituation, ValuesCanonical, ValuesOk, EqualFold, ContainsFold, Canonical, ValueIn,
         DimensionsOk, PropertyOk, DimensionCanonical, Hierarchy.ParentsDeclared;
    var scope := a.EffectiveScope();
    var q := scope[dim];
    assert AssertionOk(lx, o, a);
    if dim == CLASS {
      r := Resolved(CLASS, q);
    } else {
      var d := o.dimensions[dim];
      assert QualifierIsOwn(lx, o, dim, q);
      ValidatedValueResolves(lx, d, q);
      OnlyOneAnswers(lx, o, SortedNames(o.dimensions.Keys), dim, q);
      r := Resolved(dim, ValueIn(lx, d, q).value);
    }
  }

  // `got` is the resolved form of `scope`, restricted to the dimensions dims.
  ghost predicate ResolvedForm(lx: Lexicon, o: Model, scope: Scope, dims: seq<string>, got: Scope) {
    && (forall dim :: dim in got <==> dim in dims)
    && (forall dim | dim in dims :: dim in scope && ResolvesTo(lx, o, scope, dim, Resolved(dim, got[dim])))
  }

  lemma {:induction false} QualifiersResolve(lx: Lexicon, o: Model, a: Assertion, dims: seq<string>)
    returns (got: Scope)
    requires WellFormed(lx, o) && Unambiguous(lx, o) && a in o.assertions
    requires forall d | d in dims :: d in a.EffectiveScope()
    requires forall i, j | 0 <= i < j < |dims| :: dims[i] != dims[j]
    ensures ResolveScope(lx, o, Render.ValuesOf(a.EffectiveScope(), dims)) == Some(got)
    ensures ResolvedForm(lx, o, a.EffectiveScope(), dims, got)
  {
    hide WellFormed, Unambiguous, ResolveQualifier, ResolvesTo;
    var scope := a.EffectiveScope();
    Render.ValuesOfAt(scope, dims);
    if dims == [] {
      got := map[];
    } else {
      var front, last := dims[..|dims| - 1], dims[|dims| - 1];
      var before := QualifiersResolve(lx, o, a, front);
      var r := QualifierResolves(lx, o, a, last);
      var qs := Render.ValuesOf(scope, dims);
      assert qs[..|qs| - 1] == Render.ValuesOf(scope, front);
      assert last !in front;
      got := before[last := r.value];
      assert r == Resolved(last, r.value) by { DimensionKept(lx, o, scope, last, r); }
    }
  }

  lemma DimensionKept(lx: Lexicon, o: Model, scope: Scope, dim: string, r: Resolved)
    requires dim in scope && ResolvesTo(lx, o, scope, dim, r)
    ensures r.dimension == dim
  {
  }

  // ---------- The fact a tag came from wins ----------

  lemma OwnFactApplies(lx: Lexicon, o: Model, scope: Scope, got: Scope)
    requires ResolvedForm(lx, o, scope, Render.Keys(scope), got)
    requires CLASS in scope ==> scope[CLASS] != ""
    ensures got.Keys == scope.Keys
    ensures Applies(lx, o, scope, got) && Hops(o, scope, got) == 0
  {
    hide DimensionMatches;
    Render.KeysAreTheScope(scope);
    if CLASS in scope {
      assert Hierarchy.FirstReachedAt(o.classes, scope[CLASS], scope[CLASS], 0);
      Hierarchy.DistanceIs(o.classes, scope[CLASS], scope[CLASS], 0);
    }
  }

  lemma WinnerHasSameDimensions(lx: Lexicon, o: Model, facts: seq<Fact>, f: Fact, got: Scope, i: nat)
    requires f in facts && ResolvedForm(lx, o, f.scope, Render.Keys(f.scope), got)
    requires CLASS in f.scope ==> f.scope[CLASS] != ""
    requires i < |facts| && IsWinner(lx, o, facts, got, |facts|, i)
    ensures facts[i].scope.Keys == f.scope.Keys && Hops(o, facts[i].scope, got) == 0
  {
    hide DimensionMatches, Hops, ResolvedForm, Render.Keys;
    OwnFactApplies(lx, o, f.scope, got);
    var w := facts[i];
    var j :| 0 <= j < |facts| && facts[j] == f;
    assert !MoreSpecific(o, got, facts[j], w);
    assert w.scope.Keys <= got.Keys by {
      forall dim | dim in w.scope ensures dim in got { assert MatchesAt(lx, o, w.scope, got, dim); }
    }
    SameSizeSubset(w.scope.Keys, f.scope.Keys);
    assert |w.scope| == |f.scope|;
  }

  // Any fact that wins for the resolved scope describes the very situation the
  // tag was listed for.
  lemma WinnerIsSameSituation(lx: Lexicon, o: Model, facts: seq<Fact>, f: Fact, got: Scope, i: nat)
    requires f in facts && ResolvedForm(lx, o, f.scope, Render.Keys(f.scope), got)
    requires CLASS in f.scope ==> f.scope[CLASS] != ""
    requires i < |facts| && IsWinner(lx, o, facts, got, |facts|, i)
    ensures SameSituation(lx, o, facts[i].scope, f.scope)
  {
    hide DimensionMatches, Hops, Render.Keys;
    OwnFactApplies(lx, o, f.scope, got);
    WinnerHasSameDimensions(lx, o, facts, f, got, i);
    var w := facts[i];
    forall dim | dim in w.scope
      ensures if dim == CLASS then w.scope[dim] == f.scope[dim]
              else DimensionMatches(lx, o, dim, w.scope[dim], f.scope[dim])
    {
      SameAt(lx, o, w.scope, f.scope, got, dim);
    }
  }

  lemma SameSizeSubset(a: set<string>, b: set<string>)
    requires a <= b && |a| >= |b|
    ensures a == b
  {
    assert b == a + (b - a);
  }

  lemma SameAt(lx: Lexicon, o: Model, w: Scope, f: Scope, got: Scope, dim: string)
    requires dim in w && dim in f && dim in got && MatchesAt(lx, o, w, got, dim) && Hops(o, w, got) == 0
    requires ResolvesTo(lx, o, f, dim, Resolved(dim, got[dim]))
    ensures if dim == CLASS then w[dim] == f[dim] else DimensionMatches(lx, o, dim, w[dim], f[dim])
  {
  }

  // ---------- The theorem ----------

  // A claim copied from the listing, with the fact it was listed for.
  lemma CopiedTagIsSupportedIff(lx: Lexicon, o: Model, c: Claim, f: Fact)
    requires WellFormed(lx, o) && Unambiguous(lx, o) && c.property in o.properties
    requires f in FactsOf(o, c.property) && c.value in f.values
    requires c.qualifiers == Render.Qualifiers(f.scope)
    requires CLASS in f.scope ==> f.scope[CLASS] != ""
    ensures Supported(lx, o, c) <==> f.scope != map[] || Unanimous(FactsOf(o, c.property))
  {
    hide WellFormed, Unambiguous, FactsOf, AgreesWithFacts, ResolvedForm, AppliesTo, ValueOk;
    var a := FactOrigin(o, c.property, f);
    Render.KeysAreTheScope(f.scope);
    var got := QualifiersResolve(lx, o, a, Render.Keys(f.scope));
    OwnFactApplies(lx, o, f.scope, got);
    ValueIsFine(lx, o, a, c.property, c.value, got);
    if f.scope != map[] {
      ScopedAgreement(lx, o, c, f, got);
    } else {
      UnscopedAgreement(lx, o, c, f);
    }
  }

  lemma ValueIsFine(lx: Lexicon, o: Model, a: Assertion, name: string, value: string, got: Scope)
    requires WellFormed(lx, o) && a in o.assertions && name in a.values && value in a.values[name]
    requires got.Keys == a.EffectiveScope().Keys
    requires ResolvedForm(lx, o, a.EffectiveScope(), Render.Keys(a.EffectiveScope()), got)
    ensures name in o.properties && ValueOk(lx, o.properties[name], value)
    ensures CLASS in got ==> AppliesTo(o, o.properties[name], got[CLASS])
  {
    hide ValueOk, AppliesTo, ScopeOk, DimensionsOk, PropertyOk, DimensionMatches;
    Render.KeysAreTheScope(a.EffectiveScope());
    assert AssertionOk(lx, o, a);
    assert ValuesOk(lx, o, a.EffectiveScope(), name, a.values[name]);
    if CLASS in got {
      assert ResolvesTo(lx, o, a.EffectiveScope(), CLASS, Resolved(CLASS, got[CLASS]));
    }
  }

  // The fact's own list contains the copied value, in canonical form.
  lemma OwnListHasValue(lx: Lexicon, o: Model, name: string, f: Fact, value: string)
    requires WellFormed(lx, o) && Unambiguous(lx, o) && name in o.properties && f in FactsOf(o, name)
    requires value in f.values
    ensures ContainsFold(lx.fold, f.values, Canonical(lx, o.properties[name].range.labels, value))
  {
    hide FactsOf, Canonical, OneListPerSituation, EqualFold, Trim, AssertionOk, DimensionsOk, DimensionCanonical;
    var a := FactOrigin(o, name, f);
    assert value in a.values[name];
  }

  lemma ScopedAgreement(lx: Lexicon, o: Model, c: Claim, f: Fact, got: Scope)
    requires WellFormed(lx, o) && Unambiguous(lx, o) && c.property in o.properties && got != map[]
    requires f in FactsOf(o, c.property) && c.value in f.values
    requires ResolvedForm(lx, o, f.scope, Render.Keys(f.scope), got)
    requires CLASS in f.scope ==> f.scope[CLASS] != ""
    ensures AgreesWithFacts(lx, o, c, got)
  {
    hide WellFormed, FactsOf, ResolvedForm, IsWinner, Canonical, ContainsFold, ValuesCanonical, DimensionCanonical,
        QualifierIsOwn, SameSituation;
    var facts := FactsOf(o, c.property);
    OwnListHasValue(lx, o, c.property, f, c.value);
    forall i: nat | i < |facts| && IsWinner(lx, o, facts, got, |facts|, i)
      ensures facts[i].values == f.values
    {
      WinnerIsSameSituation(lx, o, facts, f, got, i);
      assert facts[i] in facts;
    }
  }

  lemma UnscopedAgreement(lx: Lexicon, o: Model, c: Claim, f: Fact)
    requires WellFormed(lx, o) && Unambiguous(lx, o) && c.property in o.properties && f.scope == map[]
    requires f in FactsOf(o, c.property) && c.value in f.values
    ensures AgreesWithFacts(lx, o, c, map[]) <==> Unanimous(FactsOf(o, c.property))
  {
    hide WellFormed, FactsOf, Canonical, ContainsFold, ValuesCanonical, DimensionCanonical, QualifierIsOwn, Unanimous;
    var facts := FactsOf(o, c.property);
    OwnListHasValue(lx, o, c.property, f, c.value);
    MostGeneralFirst(o, c.property, f);
    assert facts[0] in facts;
    assert SameSituation(lx, o, facts[0].scope, f.scope);
  }

  lemma MostGeneralFirst(o: Model, name: string, f: Fact)
    requires f in FactsOf(o, name) && f.scope == map[]
    ensures FactsOf(o, name)[0].scope == map[]
  {
    hide StableSort, Stated;
    var facts := FactsOf(o, name);
    StableSortIsStable(Stated(o.assertions, name), f);
    var j :| 0 <= j < |facts| && facts[j] == f;
    if j > 0 {
      assert !Precedes(facts[j], facts[0]);
      assert |facts[0].scope| == 0;
    }
  }

  // checkClaims reports nothing for one tag copied from the listing if and only
  // if the tag is qualified or every situation of its property states the same
  // values.
  lemma CopiedTagIsSilentIff(lx: Lexicon, o: Model, c: Claim)
    requires WellFormed(lx, o) && Unambiguous(lx, o)
    requires c in Render.Asserted(o) && Render.Printable(c)
    ensures CheckAll(lx, o, [c]).out == [] <==>
              c.qualifiers != [] || Unanimous(FactsOf(o, c.property))
  {
    hide WellFormed, Unambiguous, CheckAll, Supported, Unanimous, FactsOf;
    var names := SortedNames(o.properties.Keys);
    var f := NamedOrigin(o, names, c);
    assert c.property in names;
    QualifiersOfScope(f.scope, c);
    CopiedTagIsSupportedIff(lx, o, c, f);
    SilentIff(lx, o, [c]);
    OneIsSingleValued(lx, o, c);
  }

  lemma QualifiersOfScope(scope: Scope, c: Claim)
    requires c.qualifiers == Render.Qualifiers(scope) && Render.Printable(c)
    ensures c.qualifiers == [] <==> scope == map[]
    ensures CLASS in scope ==> scope[CLASS] != ""
  {
    Render.KeysAreTheScope(scope);
    var keys := Render.Keys(scope);
    Render.ValuesOfAt(scope, keys);
    if CLASS in scope {
      assert c.qualifiers[0] == scope[CLASS];
      assert Render.Plain(c.qualifiers[0]);
    }
    if scope != map[] {
      var dim :| dim in scope;
      assert dim in keys;
    }
  }

  lemma OneIsSingleValued(lx: Lexicon, o: Model, c: Claim)
    ensures SingleValued(lx, o, [c])
  {
    hide Single, KeyOf;
  }
}
