// Judging the claims of an answer against the ontology
// (unica/pkg/domain/validator.go), and what it means when nothing is reported.
module Validator {
  import opened Options
  import opened Text
  import opened Ontology
  import opened Facts
  import opened Claims
  import Render

  // ---------- Scope qualifiers ----------

  datatype Resolved = Resolved(dimension: string, value: string)

  // The first declared value that is `wanted` up to case.
  function FirstDeclared(lx: Lexicon, values: seq<string>, wanted: string): (r: Option<string>)
    ensures r.Some? ==> r.value in values && EqualFold(lx.fold, r.value, wanted)
    ensures r.None? ==> forall v | v in values :: !EqualFold(lx.fold, v, wanted)
  {
    if values == [] then None
    else if EqualFold(lx.fold, values[0], wanted) then Some(values[0])
    else FirstDeclared(lx, values[1..], wanted)
  }

  // The declared value of dimension d a qualifier stands for.
  function ValueIn(lx: Lexicon, d: Dimension, qualifier: string): Option<string> {
    FirstDeclared(lx, d.values, Canonical(lx, d.labels, qualifier))
  }

  function ResolveAmong(lx: Lexicon, o: Model, names: seq<string>, qualifier: string): Option<Resolved>
    requires forall n | n in names :: n in o.dimensions
  {
    if names == [] then None
    else
      var v := ValueIn(lx, o.dimensions[names[0]], qualifier);
      if v.Some? then Some(Resolved(names[0], v.value)) else ResolveAmong(lx, o, names[1..], qualifier)
  }

  // ResolveScopeValue: which dimension a bare qualifier belongs to.
  function ResolveQualifier(lx: Lexicon, o: Model, qualifier: string): Option<Resolved> {
    if qualifier in o.classes then Some(Resolved(CLASS, qualifier))
    else ResolveAmong(lx, o, SortedNames(o.dimensions.Keys), qualifier)
  }

  // resolveScope: None when a qualifier is unknown or two of them exclude each
  // other.
  function ResolveScope(lx: Lexicon, o: Model, qualifiers: seq<string>): Option<Scope> {
    if qualifiers == [] then Some(map[])
    else
      match ResolveScope(lx, o, qualifiers[..|qualifiers| - 1])
      case None => None
      case Some(scope) =>
        match ResolveQualifier(lx, o, qualifiers[|qualifiers| - 1])
        case None => None
        case Some(r) =>
          if r.dimension in scope && scope[r.dimension] != r.value then None
          else Some(scope[r.dimension := r.value])
  }

  method FindScope(lx: Lexicon, o: Model, qualifiers: seq<string>) returns (result: Option<Scope>)
    ensures result == ResolveScope(lx, o, qualifiers)
  {
    hide ResolveQualifier;
    var scope: Scope := map[];
    for i := 0 to |qualifiers|
      invariant ResolveScope(lx, o, qualifiers[..i]) == Some(scope)
    {
      assert qualifiers[..i + 1][..i] == qualifiers[..i];
      var r := ResolveQualifier(lx, o, qualifiers[i]);
      if r.None? || (r.value.dimension in scope && scope[r.value.dimension] != r.value.value) {
        UnresolvedPrefix(lx, o, qualifiers, i + 1);
        return None;
      }
      scope := scope[r.value.dimension := r.value.value];
    }
    assert qualifiers[..|qualifiers|] == qualifiers;
    result := Some(scope);
  }

  lemma {:induction false} UnresolvedPrefix(lx: Lexicon, o: Model, qualifiers: seq<string>, n: nat)
    requires n <= |qualifiers| && ResolveScope(lx, o, qualifiers[..n]).None?
    ensures ResolveScope(lx, o, qualifiers).None?
    decreases |qualifiers|
  {
    hide ResolveQualifier;
    if n < |qualifiers| {
      var front := qualifiers[..|qualifiers| - 1];
      assert front[..n] == qualifiers[..n];
      UnresolvedPrefix(lx, o, front, n);
    } else {
      assert qualifiers[..n] == qualifiers;
    }
  }

  // ---------- Distinct facts ----------

  function JoinValues(values: seq<string>): string { Join(values, "\0") }

  predicate SameValues(f: Fact, g: Fact) { JoinValues(f.values) == JoinValues(g.values) }

  // DistinctFactsOf: situations that agree on their values count once.
  function Distinct(facts: seq<Fact>): seq<Fact> {
    if facts == [] then []
    else
      var rest, f := Distinct(facts[..|facts| - 1]), facts[|facts| - 1];
      if exists u | u in rest :: SameValues(u, f) then rest else rest + [f]
  }

  method DistinctFacts(o: Model, property: string) returns (unique: seq<Fact>)
    ensures unique == Distinct(FactsOf(o, property))
  {
    hide FactsOf;
    var entries := CollectFacts(o, property);
    unique := [];
    for i := 0 to |entries|
      invariant unique == Distinct(entries[..i])
    {
      assert entries[..i + 1][..i] == entries[..i];
      if !(exists u | u in unique :: SameValues(u, entries[i])) {
        unique := unique + [entries[i]];
      }
    }
    assert entries[..|entries|] == entries;
  }

  // Every situation states the same values.
  predicate Unanimous(facts: seq<Fact>) {
    forall f | f in facts :: SameValues(facts[0], f)
  }

  lemma {:induction false} DistinctCounts(facts: seq<Fact>)
    ensures facts == [] ==> Distinct(facts) == []
    ensures facts != [] ==> Distinct(facts) != [] && Distinct(facts)[0] == facts[0]
    ensures |Distinct(facts)| <= 1 <==> Unanimous(facts)
    ensures forall f | f in facts :: exists u | u in Distinct(facts) :: SameValues(u, f)
  {
    if facts != [] {
      var front, last := facts[..|facts| - 1], facts[|facts| - 1];
      DistinctCounts(front);
      forall f | f in facts
        ensures exists u | u in Distinct(facts) :: SameValues(u, f)
      {
        if f in front {
          var u :| u in Distinct(front) && SameValues(u, f);
          assert u in Distinct(facts);
        } else if !(exists u | u in Distinct(front) :: SameValues(u, last)) {
          assert Distinct(facts)[|Distinct(front)|] == last;
          assert last in Distinct(facts) && SameValues(last, last);
        } else {
          assert f == last;
        }
      }
      UnanimousPrefix(facts, front, last);
    }
  }

  lemma UnanimousPrefix(facts: seq<Fact>, front: seq<Fact>, last: Fact)
    requires facts != [] && front == facts[..|facts| - 1] && last == facts[|facts| - 1]
    ensures Unanimous(facts) <==> Unanimous(front) && (front == [] || SameValues(front[0], last))
  {
    if front != [] {
      assert facts[0] == front[0];
      forall f | f in facts ensures f in front || f == last {
      }
      forall f | f in front ensures f in facts {
      }
      assert last in facts;
    }
  }

  // ---------- One claim against the facts ----------

  datatype Verdict = Agrees | Contradicts | Ambiguous

  // compareToAssertions: a qualified claim meets the most specific fact, an
  // unqualified one meets every situation.
  function Compare(lx: Lexicon, o: Model, prop: Property, c: Claim, scope: Scope): Verdict {
    var canonical := Canonical(lx, prop.range.labels, c.value);
    if scope != map[] then
      var asserted := AssertedValues(lx, o, scope, c.property);
      if asserted.None? || ContainsFold(lx.fold, asserted.value, canonical) then Agrees else Contradicts
    else
      var variants := Distinct(FactsOf(o, c.property));
      if |variants| == 0 then Agrees
      else if |variants| == 1 then
        (if ContainsFold(lx.fold, variants[0].values, canonical) then Agrees else Contradicts)
      else Ambiguous
  }

  method CompareToAssertions(lx: Lexicon, o: Model, prop: Property, c: Claim, scope: Scope) returns (v: Verdict)
    ensures v == Compare(lx, o, prop, c, scope)
  {
    hide AssertedValues, FactsOf, Distinct, Canonical;
    var canonical := Canonical(lx, prop.range.labels, c.value);
    if scope != map[] {
      var asserted := FindAssertedValues(lx, o, scope, c.property);
      return if asserted.None? || ContainsFold(lx.fold, asserted.value, canonical) then Agrees else Contradicts;
    }
    var variants := DistinctFacts(o, c.property);
    if |variants| == 0 {
      return Agrees;
    }
    if |variants| == 1 {
      return if ContainsFold(lx.fold, variants[0].values, canonical) then Agrees else Contradicts;
    }
    v := Ambiguous;
  }

  // ---------- All claims ----------

  datatype Kind =
    | Undeclared | UnknownScope | DomainMismatch | RangeFault
    | Contradiction | AmbiguousScope | FunctionalConflict

  datatype Violation = Violation(kind: Kind, property: string, scope: string, got: string)

  function ValueLabel(o: Model, dim: string, value: string): string {
    if dim == CLASS then
      (if value in o.classes && o.classes[value].title != "" then o.classes[value].title else value)
    else if dim in o.dimensions then Display(o.dimensions[dim].labels, value)
    else value
  }

  function ValueLabels(o: Model, scope: Scope, dims: seq<string>): seq<string>
    requires forall d | d in dims :: d in scope
  {
    if dims == [] then []
    else [ValueLabel(o, dims[0], scope[dims[0]])] + ValueLabels(o, scope, dims[1..])
  }

  // ScopeLabel: the scope in customer-facing wording.
  function ScopeLabel(o: Model, scope: Scope): string {
    if scope == map[] then "通用"
    else
      Render.KeysAreTheScope(scope);
      Join(ValueLabels(o, scope, Render.Keys(scope)), "·")
  }

  // Values seen per scope and property, for the single-valued check.
  type Seen = map<string, set<string>>

  datatype Progress = Progress(out: seq<Violation>, seen: Seen)

  function SeenKey(o: Model, scope: Scope, property: string): string {
    ScopeLabel(o, scope) + "\0" + property
  }

  function Noted(seen: Seen, key: string, value: string): Seen {
    seen[key := (if key in seen then seen[key] else {}) + {value}]
  }

  // What a claim is reported for before the single-valued check, if anything.
  function Fault(lx: Lexicon, o: Model, c: Claim): Option<Kind>
    requires c.property in o.properties
  {
    var prop := o.properties[c.property];
    var scope := ResolveScope(lx, o, c.qualifiers);
    if scope.None? then Some(UnknownScope)
    else if CLASS in scope.value && !AppliesTo(o, prop, scope.value[CLASS]) then Some(DomainMismatch)
    else if !ValueOk(lx, prop, c.value) then Some(RangeFault)
    else
      match Compare(lx, o, prop, c, scope.value)
      case Contradicts => Some(Contradiction)
      case Ambiguous => Some(AmbiguousScope)
      case Agrees => None
  }

  // The label a report carries: none when the scope did not resolve or the claim
  // was unqualified and compared.
  function ReportedScope(lx: Lexicon, o: Model, c: Claim, k: Kind): string {
    match ResolveScope(lx, o, c.qualifiers)
    case None => ""
    case Some(scope) =>
      if k.AmbiguousScope? || (k.Contradiction? && scope == map[]) then "" else ScopeLabel(o, scope)
  }

  function Joined(values: set<string>): string { Join(SortedNames(values), "/") }

  function CheckOne(lx: Lexicon, o: Model, c: Claim, p: Progress): Progress {
    if c.property !in o.properties then
      (if o.IsClosedWorld() then p.(out := p.out + [Violation(Undeclared, c.property, "", c.value)]) else p)
    else
      var fault := Fault(lx, o, c);
      if fault.Some? then
        p.(out := p.out + [Violation(fault.value, c.property, ReportedScope(lx, o, c, fault.value), c.value)])
      else if !o.properties[c.property].functional then p
      else
        var scope := ResolveScope(lx, o, c.qualifiers).value;
        var key := SeenKey(o, scope, c.property);
        var seen := Noted(p.seen, key, c.value);
        if |seen[key]| > 1 then
          Progress(p.out + [Violation(FunctionalConflict, c.property, ScopeLabel(o, scope), Joined(seen[key]))], seen)
        else Progress(p.out, seen)
  }

  function CheckAll(lx: Lexicon, o: Model, claims: seq<Claim>): Progress {
    if claims == [] then Progress([], map[])
    else CheckOne(lx, o, claims[|claims| - 1], CheckAll(lx, o, claims[..|claims| - 1]))
  }

  method FindFault(lx: Lexicon, o: Model, c: Claim, scope: Option<Scope>) returns (fault: Option<Kind>)
    requires c.property in o.properties && scope == ResolveScope(lx, o, c.qualifiers)
    ensures fault == Fault(lx, o, c)
  {
    hide ResolveScope, ValueOk, AppliesTo, Compare;
    var prop := o.properties[c.property];
    if scope.None? {
      return Some(UnknownScope);
    }
    if CLASS in scope.value && !AppliesTo(o, prop, scope.value[CLASS]) {
      return Some(DomainMismatch);
    }
    if !ValueOk(lx, prop, c.value) {
      return Some(RangeFault);
    }
    var verdict := CompareToAssertions(lx, o, prop, c, scope.value);
    match verdict
    case Contradicts => fault := Some(Contradiction);
    case Ambiguous => fault := Some(AmbiguousScope);
    case Agrees => fault := None;
  }

  method CheckClaims(lx: Lexicon, o: Model, claims: seq<Claim>) returns (out: seq<Violation>)
    ensures out == CheckAll(lx, o, claims).out
  {
    hide Fault, ResolveScope, ScopeLabel, SeenKey, Joined, ReportedScope;
    out := [];
    var seen: Seen := map[];
    for i := 0 to |claims|
      invariant CheckAll(lx, o, claims[..i]) == Progress(out, seen)
    {
      assert claims[..i + 1][..i] == claims[..i];
      var c := claims[i];
      if c.property !in o.properties {
        if o.IsClosedWorld() {
          out := out + [Violation(Undeclared, c.property, "", c.value)];
        }
        continue;
      }
      var scope := FindScope(lx, o, c.qualifiers);
      var fault := FindFault(lx, o, c, scope);
      if fault.Some? {
        out := out + [Violation(fault.value, c.property, ReportedScope(lx, o, c, fault.value), c.value)];
        continue;
      }
      if o.properties[c.property].functional {
        FaultlessResolves(lx, o, c);
        var key := SeenKey(o, scope.value, c.property);
        if key !in seen {
          seen := seen[key := {}];
        }
        seen := seen[key := seen[key] + {c.value}];
        if |seen[key]| > 1 {
          out := out + [Violation(FunctionalConflict, c.property, ScopeLabel(o, scope.value), Joined(seen[key]))];
        }
      }
    }
    assert claims[..|claims|] == claims;
  }

  lemma FaultlessResolves(lx: Lexicon, o: Model, c: Claim)
    requires c.property in o.properties && Fault(lx, o, c).None?
    ensures ResolveScope(lx, o, c.qualifiers).Some?
  {
  }
}
