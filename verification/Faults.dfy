// What Validate refuses (unica/pkg/domain/ontology.go): the faults of an ontology, each
// told on its own.
module Faults {
  import opened Options
  import opened Text
  import opened Ontology
  import Hierarchy

  // ---------- Classes ----------

  // A parent that is not declared, or a class that is its own ancestor.
  ghost predicate ClassFault(cs: Hierarchy.Classes) {
    || (exists c :: c in cs && cs[c].parent != "" && cs[c].parent !in cs)
    || (exists c, k: nat :: c in cs && c != "" && k > 0 && Hierarchy.Up(cs, c, k) == c)
  }

  // A group of exclusive classes with fewer than two members, or an undeclared one.
  predicate GroupFault(o: Model) {
    exists g :: 0 <= g < |o.disjoint| && SmallOrUnknown(o, o.disjoint[g])
  }

  predicate SmallOrUnknown(o: Model, group: seq<string>) {
    |group| < 2 || exists m :: m in group && m !in o.classes
  }

  lemma ClassesFaultIff(cs: Hierarchy.Classes)
    ensures ClassFault(cs) <==> !(Hierarchy.ParentsDeclared(cs) && Hierarchy.ChainsEnd(cs))
  {
    hide Hierarchy.Up;
    if Hierarchy.ParentsDeclared(cs) {
      Hierarchy.ChainsEndIffAcyclic(cs);
    }
  }

  lemma GroupsFaultIff(o: Model)
    ensures GroupFault(o) <==> !Hierarchy.GroupsDeclared(o.classes, o.disjoint)
  {
    if g :| 0 <= g < |o.disjoint| && SmallOrUnknown(o, o.disjoint[g]) {
      if m :| m in o.disjoint[g] && m !in o.classes {
        var i :| 0 <= i < |o.disjoint[g]| && o.disjoint[g][i] == m;
      }
    }
  }

  // ---------- Dimensions ----------

  // The dimension of that name is the reserved one, lists no values, or words a value it
  // does not list.
  predicate DimensionFault(lx: Lexicon, o: Model, dim: string)
    requires dim in o.dimensions
  {
    var d := o.dimensions[dim];
    dim == "class" || d.values == [] || exists l :: l in d.labels && !ContainsFold(lx.fold, d.values, l.id)
  }

  // A value that is listed at two places, or that names a class.
  ghost predicate ValueFault(o: Model) {
    || (exists dim, i :: dim in o.dimensions && 0 <= i < |o.dimensions[dim].values| &&
                         o.dimensions[dim].values[i] in o.classes)
    || (exists d, i, e, j :: TwoPlaces(o, d, i, e, j) && o.dimensions[d].values[i] == o.dimensions[e].values[j])
  }

  predicate TwoPlaces(o: Model, d: string, i: int, e: string, j: int) {
    && d in o.dimensions && 0 <= i < |o.dimensions[d].values|
    && e in o.dimensions && 0 <= j < |o.dimensions[e].values|
    && (d != e || i != j)
  }

  // Where the k-th of all declared values comes from.
  lemma {:induction false} DeclaredAt(o: Model, names: seq<string>, n: nat, k: nat) returns (m: nat, i: nat)
    requires n <= |names| && (forall d | d in names :: d in o.dimensions) && k < |DeclaredValues(o, names, n)|
    ensures m < n && i < |o.dimensions[names[m]].values|
    ensures DeclaredValues(o, names, n)[k] == o.dimensions[names[m]].values[i]
    ensures k == |DeclaredValues(o, names, m)| + i
  {
    var before := DeclaredValues(o, names, n - 1);
    if k < |before| {
      m, i := DeclaredAt(o, names, n - 1, k);
    } else {
      m, i := n - 1, k - |before|;
    }
  }

  lemma {:induction false} PlaceOf(o: Model, names: seq<string>, n: nat, m: nat, i: nat)
    requires m < n <= |names| && (forall d | d in names :: d in o.dimensions)
    requires i < |o.dimensions[names[m]].values|
    ensures var k := |DeclaredValues(o, names, m)| + i;
            k < |DeclaredValues(o, names, m + 1)| <= |DeclaredValues(o, names, n)|
            && DeclaredValues(o, names, n)[k] == o.dimensions[names[m]].values[i]
  {
    if m < n - 1 {
      PlaceOf(o, names, n - 1, m, i);
    }
  }

  lemma ValuesFaultIff(o: Model)
    ensures var names := SortedNames(o.dimensions.Keys);
            ValueFault(o) <==> !Apart(DeclaredValues(o, names, |names|), o.classes)
  {
    hide SortedNames, DeclaredValues, TwoPlaces;
    var names := SortedNames(o.dimensions.Keys);
    if ValueFault(o) {
      FaultIsNotApart(o, names);
    }
    if !Apart(DeclaredValues(o, names, |names|), o.classes) {
      NotApartIsFault(o, names);
    }
  }

  lemma FaultIsNotApart(o: Model, names: seq<string>)
    requires ValueFault(o) && names == SortedNames(o.dimensions.Keys)
    ensures !Apart(DeclaredValues(o, names, |names|), o.classes)
  {
    hide SortedNames, DeclaredValues;
    if d, i :| d in o.dimensions && 0 <= i < |o.dimensions[d].values| && o.dimensions[d].values[i] in o.classes {
      var m :| 0 <= m < |names| && names[m] == d;
      PlaceOf(o, names, |names|, m, i);
    } else {
      var d, i, e, j :| TwoPlaces(o, d, i, e, j) && o.dimensions[d].values[i] == o.dimensions[e].values[j];
      var m :| 0 <= m < |names| && names[m] == d;
      var n :| 0 <= n < |names| && names[n] == e;
      TwoPlacesMeet(o, names, m, i, n, j);
    }
  }

  lemma TwoPlacesMeet(o: Model, names: seq<string>, m: nat, i: nat, n: nat, j: nat)
    requires (forall d | d in names :: d in o.dimensions) && m < |names| && n < |names| && (m != n || i != j)
    requires i < |o.dimensions[names[m]].values| && j < |o.dimensions[names[n]].values|
    requires o.dimensions[names[m]].values[i] == o.dimensions[names[n]].values[j]
    ensures !Apart(DeclaredValues(o, names, |names|), o.classes)
  {
    hide DeclaredValues;
    PlaceOf(o, names, |names|, m, i);
    PlaceOf(o, names, |names|, n, j);
    if m < n {
      Grows(o, names, m + 1, n);
    } else if n < m {
      Grows(o, names, n + 1, m);
    }
  }

  lemma {:induction false} Grows(o: Model, names: seq<string>, m: nat, n: nat)
    requires m <= n <= |names| && (forall d | d in names :: d in o.dimensions)
    ensures |DeclaredValues(o, names, m)| <= |DeclaredValues(o, names, n)|
  {
    if m < n {
      Grows(o, names, m, n - 1);
    }
  }

  lemma NotApartIsFault(o: Model, names: seq<string>)
    requires names == SortedNames(o.dimensions.Keys) && !Apart(DeclaredValues(o, names, |names|), o.classes)
    ensures ValueFault(o)
  {
    hide SortedNames, DeclaredValues;
    var all := DeclaredValues(o, names, |names|);
    if k :| 0 <= k < |all| && all[k] in o.classes {
      var m, i := DeclaredAt(o, names, |names|, k);
      assert names[m] in names;
    } else {
      var k, l :| 0 <= k < l < |all| && all[k] == all[l];
      var m, i := DeclaredAt(o, names, |names|, k);
      var n, j := DeclaredAt(o, names, |names|, l);
      assert names[m] in names && names[n] in names;
      if m != n {
        NamesDiffer(o.dimensions.Keys, m, n);
      }
      assert TwoPlaces(o, names[m], i, names[n], j);
    }
  }

  lemma NamesDiffer(keys: set<string>, m: nat, n: nat)
    requires m < |SortedNames(keys)| && n < |SortedNames(keys)| && m != n
    ensures SortedNames(keys)[m] != SortedNames(keys)[n]
  {
    hide Less;
    var names := SortedNames(keys);
    LessIsStrict(names[m]);
  }

  // ---------- Properties and assertions ----------

  // An undeclared domain, an enumeration of nothing, a single value of which several are
  // demanded, wording for an unlisted value, or a requirement of itself or of nothing.
  predicate PropertyFault(lx: Lexicon, o: Model, name: string)
    requires name in o.properties
  {
    var p := o.properties[name];
    || (p.domain != "" && p.domain !in o.classes)
    || (p.range.kind == "enum" && p.range.values == [])
    || (p.functional && p.minCardinality >= 2)
    || (exists l :: l in p.range.labels && !ContainsFold(lx.fold, p.range.values, l.id))
    || (exists r :: r in p.required && (r == name || r !in o.properties))
  }

  // A condition on an undeclared class or dimension, or on an unlisted value.
  predicate ConditionFault(lx: Lexicon, o: Model, dim: string, value: string) {
    if dim == "class" then value !in o.classes
    else dim !in o.dimensions ||
         !ContainsFold(lx.fold, o.dimensions[dim].values, Canonical(lx, o.dimensions[dim].labels, value))
  }

  // Values for an undeclared property, for a class outside its domain, too many or too few
  // of them, or one that is not acceptable.
  predicate ValuesFault(lx: Lexicon, o: Model, a: Assertion, name: string)
    requires name in a.values
  {
    var cls := if a.cls != "" then a.cls else if "class" in a.scope then a.scope["class"] else "";
    name !in o.properties ||
    var p, values := o.properties[name], a.values[name];
    || (p.domain != "" && cls != "" && !Hierarchy.IsSubclassOf(o.classes, cls, p.domain))
    || (p.functional && |values| != 1)
    || |values| < p.minCardinality
    || exists v :: v in values && !ValueOk(lx, p, v)
  }

  // The class named by the shorthand takes the place of one in the scope.
  predicate ScopeFault(lx: Lexicon, o: Model, a: Assertion) {
    || (a.cls != "" && ConditionFault(lx, o, "class", a.cls))
    || (exists dim :: dim in a.scope && (a.cls == "" || dim != "class") && ConditionFault(lx, o, dim, a.scope[dim]))
  }

  predicate AssertionFault(lx: Lexicon, o: Model, a: Assertion) {
    || ScopeFault(lx, o, a)
    || (exists name :: name in a.values && ValuesFault(lx, o, a, name))
  }

  lemma PropertyFaultIff(lx: Lexicon, o: Model, name: string)
    requires name in o.properties
    ensures PropertyFault(lx, o, name) <==> !PropertyOk(lx, o, name)
  {
    hide ContainsFold;
  }

  lemma AssertionFaultIff(lx: Lexicon, o: Model, a: Assertion)
    ensures AssertionFault(lx, o, a) <==> !AssertionOk(lx, o, a)
  {
    hide ContainsFold, Canonical, ValueOk, Hierarchy.IsSubclassOf, ScopeOk, ScopeFault;
    ScopeFaultIff(lx, o, a);
    forall name | name in a.values
      ensures ValuesFault(lx, o, a, name) <==> !ValuesOk(lx, o, a.EffectiveScope(), name, a.values[name])
    {
    }
  }

  lemma ScopeFaultIff(lx: Lexicon, o: Model, a: Assertion)
    ensures ScopeFault(lx, o, a) <==> !ScopeOk(lx, o, a.EffectiveScope())
  {
    hide ContainsFold, Canonical;
    var scope := a.EffectiveScope();
    assert forall dim | dim in scope ::
        ConditionFault(lx, o, dim, scope[dim]) <==> !ConditionOk(lx, o, dim, scope[dim]);
    if a.cls != "" {
      assert "class" in scope && scope["class"] == a.cls;
    }
    assert forall dim | dim in a.scope && (a.cls == "" || dim != "class") :: dim in scope && scope[dim] == a.scope[dim];
  }

  // ---------- The whole ontology ----------

  ghost predicate Faulty(lx: Lexicon, o: Model) {
    || Trim(o.productLine) == "" || o.properties == map[]
    || ClassFault(o.classes) || GroupFault(o)
    || (exists dim :: dim in o.dimensions && DimensionFault(lx, o, dim)) || ValueFault(o)
    || (exists name :: name in o.properties && PropertyFault(lx, o, name))
    || (exists a :: a in o.assertions && AssertionFault(lx, o, a))
    || (exists d :: d in o.denials && Trim(d.term) == "")
  }

  // Validate refuses an ontology exactly for one of these.
  lemma RefusedIff(lx: Lexicon, o: Model)
    ensures Faulty(lx, o) <==> !WellFormed(lx, o)
  {
    hide Trim, ClassFault, GroupFault, ValueFault, PropertyFault, AssertionFault, PropertyOk, AssertionOk,
         Apart, Hierarchy.ParentsDeclared, Hierarchy.ChainsEnd, Hierarchy.GroupsDeclared, DeclaredValues,
         ContainsFold, SortedNames;
    ClassesFaultIff(o.classes);
    GroupsFaultIff(o);
    ValuesFaultIff(o);
    forall name | name in o.properties
      ensures PropertyFault(lx, o, name) <==> !PropertyOk(lx, o, name)
    {
      PropertyFaultIff(lx, o, name);
    }
    forall a | a in o.assertions
      ensures AssertionFault(lx, o, a) <==> !AssertionOk(lx, o, a)
    {
      AssertionFaultIff(lx, o, a);
    }
  }
}
