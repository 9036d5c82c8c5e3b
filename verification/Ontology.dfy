// One product line's domain model (unica/pkg/domain/ontology.go): declared
// classes, dimensions and properties, the assertions that give properties their
// values in scopes, and the checks a value has to pass.
module Ontology {
  import opened Options
  import opened Text
  import Hierarchy

  const CLASS := "class"

  // What the model takes from the Go runtime and leaves abstract: the case-fold
  // orbits and the number and date parsers.
  datatype Lexicon = Lexicon(fold: char -> char, atoi: string -> Option<int>,
                             parseFloat: string -> Option<real>, isDate: string -> bool)

  // An identifier and its customer-facing wording. A label map is the list of
  // its entries in the order the runtime happens to visit them.
  datatype Label = Label(id: string, text: string)

  type Labels = seq<Label>

  datatype Dimension = Dimension(title: string, values: seq<string>, labels: Labels)

  datatype Range = Range(kind: string, unit: string, min: Option<real>, max: Option<real>,
                         values: seq<string>, labels: Labels)

  datatype Property = Property(title: string, domain: string, range: Range, functional: bool,
                               minCardinality: int, required: seq<string>)

  // The conditions under which an assertion holds: dimension to value.
  type Scope = map<string, string>

  datatype Assertion = Assertion(cls: string, scope: Scope, values: map<string, seq<string>>)
  {
    // The class shorthand folded into the scope.
    function EffectiveScope(): Scope { if cls != "" then scope[CLASS := cls] else scope }
  }

  datatype Denial = Denial(term: string, note: string)

  datatype Model = Model(productLine: string, closedWorld: Option<bool>, classes: Hierarchy.Classes,
                         dimensions: map<string, Dimension>, disjoint: seq<seq<string>>,
                         properties: map<string, Property>, assertions: seq<Assertion>,
                         denials: seq<Denial>)
  {
    predicate IsClosedWorld() { closedWorld.None? || closedWorld.value }
  }

  // ---------- Labels ----------

  // canonicalLabel: the identifier a customer-facing label stands for, or the
  // trimmed value itself.
  function Canonical(lx: Lexicon, labels: Labels, value: string): string {
    if labels == [] then Trim(value)
    else if EqualFold(lx.fold, Trim(labels[0].text), Trim(value)) then labels[0].id
    else Canonical(lx, labels[1..], value)
  }

  // No two identifiers answer to the same label.
  predicate LabelsUnambiguous(lx: Lexicon, labels: Labels) {
    forall i, j | 0 <= i < |labels| && 0 <= j < |labels| ::
      EqualFold(lx.fold, Trim(labels[i].text), Trim(labels[j].text)) ==> labels[i].id == labels[j].id
  }

  lemma {:induction false} CanonicalCases(lx: Lexicon, labels: Labels, value: string)
    ensures (exists i :: 0 <= i < |labels| && EqualFold(lx.fold, Trim(labels[i].text), Trim(value))
                         && Canonical(lx, labels, value) == labels[i].id)
         || ((forall i | 0 <= i < |labels| :: !EqualFold(lx.fold, Trim(labels[i].text), Trim(value)))
             && Canonical(lx, labels, value) == Trim(value))
  {
    if labels != [] && !EqualFold(lx.fold, Trim(labels[0].text), Trim(value)) {
      CanonicalCases(lx, labels[1..], value);
      forall i | 0 <= i < |labels[1..]| ensures labels[1..][i] == labels[i + 1] {
      }
      if i :| 0 <= i < |labels[1..]| && EqualFold(lx.fold, Trim(labels[1..][i].text), Trim(value))
              && Canonical(lx, labels[1..], value) == labels[1..][i].id {
        assert labels[i + 1] == labels[1..][i];
      } else {
        forall j | 0 <= j < |labels| ensures !EqualFold(lx.fold, Trim(labels[j].text), Trim(value)) {
          if j > 0 {
            assert labels[j] == labels[1..][j - 1];
          }
        }
      }
    }
  }

  lemma CanonicalOf(lx: Lexicon, labels: Labels, value: string, l: Label)
    requires LabelsUnambiguous(lx, labels) && l in labels && EqualFold(lx.fold, Trim(l.text), Trim(value))
    ensures Canonical(lx, labels, value) == l.id
  {
    CanonicalCases(lx, labels, value);
    var j :| 0 <= j < |labels| && labels[j] == l;
    var i :| 0 <= i < |labels| && EqualFold(lx.fold, Trim(labels[i].text), Trim(value))
             && Canonical(lx, labels, value) == labels[i].id;
    assert EqualFold(lx.fold, Trim(labels[i].text), Trim(labels[j].text));
  }

  lemma {:induction false} CanonicalWithoutLabel(lx: Lexicon, labels: Labels, value: string)
    requires forall l | l in labels :: !EqualFold(lx.fold, Trim(l.text), Trim(value))
    ensures Canonical(lx, labels, value) == Trim(value)
  {
    if labels != [] {
      assert labels[0] in labels;
      CanonicalWithoutLabel(lx, labels[1..], value);
    }
  }

  // With unambiguous labels the order in which a label map is visited does not
  // matter.
  lemma CanonicalIgnoresOrder(lx: Lexicon, a: Labels, b: Labels, value: string)
    requires LabelsUnambiguous(lx, a) && LabelsUnambiguous(lx, b) && forall l :: l in a <==> l in b
    ensures Canonical(lx, a, value) == Canonical(lx, b, value)
  {
    if l :| l in a && EqualFold(lx.fold, Trim(l.text), Trim(value)) {
      CanonicalOf(lx, a, value, l);
      CanonicalOf(lx, b, value, l);
    } else {
      CanonicalWithoutLabel(lx, a, value);
      CanonicalWithoutLabel(lx, b, value);
    }
  }

  // Range.Display and Dimension.Display.
  function Display(labels: Labels, value: string): string {
    if labels == [] then value
    else if labels[0].id == value then (if labels[0].text != "" then labels[0].text else value)
    else Display(labels[1..], value)
  }

  // The wording of the first label of that value, and the value itself where there is none.
  lemma {:induction false} DisplayIs(labels: Labels, value: string)
    ensures (forall l | l in labels :: l.id != value) ==> Display(labels, value) == value
    ensures forall k | 0 <= k < |labels| && labels[k].id == value && (forall j | 0 <= j < k :: labels[j].id != value) ::
              Display(labels, value) == if labels[k].text != "" then labels[k].text else value
  {
    if labels != [] && labels[0].id != value {
      DisplayIs(labels[1..], value);
      assert forall k | 0 < k < |labels| :: labels[k] == labels[1..][k - 1];
      assert forall l | l in labels :: l == labels[0] || l in labels[1..];
    } else if labels != [] {
      assert labels[0] in labels;
    }
  }

  // ---------- Values ----------

  // How many leading characters of s form a number.
  function NumberLength(s: string, i: nat): (n: nat)
    requires i <= |s|
    ensures i <= n <= |s|
    decreases |s| - i
  {
    if i < |s| && ('0' <= s[i] <= '9' || s[i] == '.' || (i == 0 && s[i] in {'-', '+'}))
    then NumberLength(s, i + 1) else i
  }

  // numericPart: the leading number of a value, a trailing unit dropped; a value
  // without one is kept, so that it still fails to parse.
  function NumericPart(value: string): string {
    var t := Trim(value);
    var n := NumberLength(t, 0);
    if n == 0 then t else t[..n]
  }

  predicate InBounds(r: Range, n: real) {
    (r.min.Some? ==> n >= r.min.value) && (r.max.Some? ==> n <= r.max.value)
  }

  // CheckValue: the value is one the property may take.
  predicate ValueOk(lx: Lexicon, prop: Property, value: string) {
    var r := prop.range;
    var v := Canonical(lx, r.labels, value);
    && (r.values != [] ==> ContainsFold(lx.fold, r.values, v))
    && match r.kind
       case "integer" => var n := lx.atoi(NumericPart(v)); n.Some? && InBounds(r, n.value as real)
       case "decimal" => var n := lx.parseFloat(NumericPart(v)); n.Some? && InBounds(r, n.value)
       case "money" => var n := lx.parseFloat(NumericPart(v)); n.Some? && InBounds(r, n.value)
       case "percent" =>
         var n := lx.parseFloat(NumericPart(v));
         && n.Some? && (r.min.None? ==> n.value >= 0.0) && (r.max.None? ==> n.value <= 100.0)
         && InBounds(r, n.value)
       case "date" => lx.isDate(Trim(v))
       case "enum" => r.values != []
       case "string" => true
       case "" => true
       case _ => false
  }

  // A character that may stand at position i of a number.
  predicate Numeral(t: string, i: nat)
    requires i < |t|
  {
    '0' <= t[i] <= '9' || t[i] == '.' || (i == 0 && (t[i] == '-' || t[i] == '+'))
  }

  // The leading number is the longest prefix of the trimmed value made of such
  // characters; a value that starts with none of them is kept whole.
  lemma NumericPartIsLongest(value: string)
    ensures var t, p := Trim(value), NumericPart(value);
            && p <= t
            && (t != [] && Numeral(t, 0) ==>
                  && p != [] && (forall i: nat | i < |p| :: Numeral(t, i))
                  && (|p| < |t| ==> !Numeral(t, |p|)))
            && (t != [] && !Numeral(t, 0) ==> p == t)
  {
    hide Trim;
    var t := Trim(value);
    NumberLengthIsLongest(t, 0);
  }

  lemma {:induction false} NumberLengthIsLongest(t: string, i: nat)
    requires i <= |t|
    ensures forall k: nat | i <= k < NumberLength(t, i) :: Numeral(t, k)
    ensures NumberLength(t, i) < |t| ==> !Numeral(t, NumberLength(t, i))
    decreases |t| - i
  {
    if i < |t| && Numeral(t, i) {
      NumberLengthIsLongest(t, i + 1);
    }
  }

  // A numeric value is accepted exactly when it is listed, if there is a list, and its
  // number parses and lies within the bounds, ends included; a percentage without bounds
  // of its own lies between 0 and 100.
  lemma NumbersAreBounded(lx: Lexicon, prop: Property, value: string)
    requires prop.range.kind in {"integer", "decimal", "money", "percent"}
    ensures var r, v := prop.range, Canonical(lx, prop.range.labels, value);
            var n := if r.kind == "integer" then
                       (var k := lx.atoi(NumericPart(v)); if k.Some? then Some(k.value as real) else None)
                     else lx.parseFloat(NumericPart(v));
            var least := if r.min.None? && r.kind == "percent" then Some(0.0) else r.min;
            var most := if r.max.None? && r.kind == "percent" then Some(100.0) else r.max;
            ValueOk(lx, prop, value) <==>
              && (r.values == [] || ContainsFold(lx.fold, r.values, v))
              && n.Some?
              && (least.None? || least.value <= n.value)
              && (most.None? || n.value <= most.value)
  {
    hide Canonical, ContainsFold, NumericPart;
  }

  // Any other value is accepted exactly when it is listed, if there is a list, and is a
  // date where one is wanted; an enumeration must have a list, and no further kind exists.
  lemma TextsAreListed(lx: Lexicon, prop: Property, value: string)
    requires prop.range.kind !in {"integer", "decimal", "money", "percent"}
    ensures var r, v := prop.range, Canonical(lx, prop.range.labels, value);
            ValueOk(lx, prop, value) <==>
              && (r.values == [] || ContainsFold(lx.fold, r.values, v))
              && r.kind in {"", "string", "date", "enum"}
              && (r.kind == "date" ==> lx.isDate(Trim(v)))
              && (r.kind == "enum" ==> r.values != [])
  {
    hide Canonical, ContainsFold, Trim;
  }

  predicate AppliesTo(o: Model, prop: Property, cls: string) {
    prop.domain == "" || cls == "" || Hierarchy.IsSubclassOf(o.classes, cls, prop.domain)
  }

  function ClassOf(scope: Scope): string { if CLASS in scope then scope[CLASS] else "" }

  // ---------- Validation ----------

  // The values of the first n dimensions, one dimension after another.
  function DeclaredValues(o: Model, names: seq<string>, n: nat): seq<string>
    requires n <= |names| && forall d | d in names :: d in o.dimensions
  {
    if n == 0 then [] else DeclaredValues(o, names, n - 1) + o.dimensions[names[n - 1]].values
  }

  // A bare scope qualifier is resolved by value: no value is listed twice, in one
  // dimension or in two, and none is also the name of a class.
  predicate Apart(values: seq<string>, classes: Hierarchy.Classes) {
    && (forall i | 0 <= i < |values| :: values[i] !in classes)
    && (forall i, j | 0 <= i < j < |values| :: values[i] != values[j])
  }

  predicate DimensionOk(lx: Lexicon, d: Dimension) {
    d.values != [] && forall l | l in d.labels :: ContainsFold(lx.fold, d.values, l.id)
  }

  predicate DimensionsOk(lx: Lexicon, o: Model) {
    && CLASS !in o.dimensions
    && (forall d | d in o.dimensions :: DimensionOk(lx, o.dimensions[d]))
    && Apart(DeclaredValues(o, SortedNames(o.dimensions.Keys), |SortedNames(o.dimensions.Keys)|), o.classes)
  }

  predicate PropertyOk(lx: Lexicon, o: Model, name: string)
    requires name in o.properties
  {
    var p := o.properties[name];
    && (p.domain != "" ==> p.domain in o.classes)
    && (p.range.kind == "enum" ==> p.range.values != [])
    && !(p.functional && p.minCardinality > 1)
    && (forall l | l in p.range.labels :: ContainsFold(lx.fold, p.range.values, l.id))
    && (forall r | r in p.required :: r != name && r in o.properties)
  }

  // One condition of a scope.
  predicate ConditionOk(lx: Lexicon, o: Model, dim: string, value: string) {
    if dim == CLASS then value in o.classes
    else dim in o.dimensions &&
         ContainsFold(lx.fold, o.dimensions[dim].values, Canonical(lx, o.dimensions[dim].labels, value))
  }

  predicate ScopeOk(lx: Lexicon, o: Model, scope: Scope) {
    forall dim | dim in scope :: ConditionOk(lx, o, dim, scope[dim])
  }

  predicate ValuesOk(lx: Lexicon, o: Model, scope: Scope, name: string, values: seq<string>) {
    && name in o.properties
    && var p := o.properties[name];
       && AppliesTo(o, p, ClassOf(scope))
       && (p.functional ==> |values| == 1)
       && (p.minCardinality > 0 ==> |values| >= p.minCardinality)
       && forall v | v in values :: ValueOk(lx, p, v)
  }

  predicate AssertionOk(lx: Lexicon, o: Model, a: Assertion) {
    ScopeOk(lx, o, a.EffectiveScope()) &&
    forall name | name in a.values :: ValuesOk(lx, o, a.EffectiveScope(), name, a.values[name])
  }

  ghost predicate WellFormed(lx: Lexicon, o: Model) {
    && Trim(o.productLine) != "" && o.properties != map[]
    && Hierarchy.ParentsDeclared(o.classes) && Hierarchy.ChainsEnd(o.classes)
    && Hierarchy.GroupsDeclared(o.classes, o.disjoint)
    && DimensionsOk(lx, o)
    && (forall name | name in o.properties :: PropertyOk(lx, o, name))
    && (forall a | a in o.assertions :: AssertionOk(lx, o, a))
    && (forall d | d in o.denials :: Trim(d.term) != "")
  }

  // ---------- The checks as the loops make them ----------

  method FindFold(lx: Lexicon, list: seq<string>, value: string) returns (found: bool)
    ensures found <==> ContainsFold(lx.fold, list, value)
  {
    hide Trim, EqualFold;
    for i := 0 to |list|
      invariant forall k | 0 <= k < i :: !EqualFold(lx.fold, Trim(list[k]), Trim(value))
    {
      if EqualFold(lx.fold, Trim(list[i]), Trim(value)) {
        assert list[i] in list;
        return true;
      }
    }
    found := false;
  }

  method FindCanonical(lx: Lexicon, labels: Labels, value: string) returns (id: string)
    ensures id == Canonical(lx, labels, value)
  {
    hide Trim, EqualFold;
    for i := 0 to |labels|
      invariant Canonical(lx, labels, value) == Canonical(lx, labels[i..], value)
    {
      if EqualFold(lx.fold, Trim(labels[i].text), Trim(value)) {
        return labels[i].id;
      }
    }
    id := Trim(value);
  }

  // The leading number, character by character; the sign counts only at the start.
  method FindNumericPart(value: string) returns (part: string)
    ensures part == NumericPart(value)
  {
    hide Trim;
    var t := Trim(value);
    var end := 0;
    while end < |t| && ('0' <= t[end] <= '9' || t[end] == '.' || (end == 0 && t[end] in {'-', '+'}))
      invariant end <= |t| && NumberLength(t, 0) == NumberLength(t, end)
    {
      end := end + 1;
    }
    part := if end == 0 then t else t[..end];
  }

  method CheckValue(lx: Lexicon, prop: Property, value: string) returns (ok: bool)
    ensures ok <==> ValueOk(lx, prop, value)
  {
    hide Trim, Canonical, ContainsFold, NumericPart;
    var r := prop.range;
    var v := FindCanonical(lx, r.labels, value);
    if r.values != [] {
      var listed := FindFold(lx, r.values, v);
      if !listed {
        return false;
      }
    }
    var part := FindNumericPart(v);
    if r.kind == "integer" {
      var n := lx.atoi(part);
      return n.Some? && InBounds(r, n.value as real);
    } else if r.kind == "decimal" || r.kind == "money" {
      var n := lx.parseFloat(part);
      return n.Some? && InBounds(r, n.value);
    } else if r.kind == "percent" {
      var n := lx.parseFloat(part);
      if n.None? || (r.min.None? && n.value < 0.0) || (r.max.None? && n.value > 100.0) {
        return false;
      }
      return InBounds(r, n.value);
    } else if r.kind == "date" {
      return lx.isDate(Trim(v));
    } else if r.kind == "enum" {
      return r.values != [];
    }
    ok := r.kind == "string" || r.kind == "";
  }

  method LabelsDeclared(lx: Lexicon, labels: Labels, values: seq<string>) returns (ok: bool)
    ensures ok <==> forall l | l in labels :: ContainsFold(lx.fold, values, l.id)
  {
    hide ContainsFold;
    for i := 0 to |labels|
      invariant forall k | 0 <= k < i :: ContainsFold(lx.fold, values, labels[k].id)
    {
      var declared := FindFold(lx, values, labels[i].id);
      if !declared {
        assert labels[i] in labels;
        return false;
      }
    }
    ok := true;
  }

  method CheckProperty(lx: Lexicon, o: Model, name: string) returns (ok: bool)
    requires name in o.properties
    ensures ok <==> PropertyOk(lx, o, name)
  {
    hide ContainsFold;
    var p := o.properties[name];
    if p.domain != "" && p.domain !in o.classes {
      return false;
    }
    if p.range.kind == "enum" && p.range.values == [] {
      return false;
    }
    if p.functional && p.minCardinality > 1 {
      return false;
    }
    var labelled := LabelsDeclared(lx, p.range.labels, p.range.values);
    if !labelled {
      return false;
    }
    for i := 0 to |p.required|
      invariant forall k | 0 <= k < i :: p.required[k] != name && p.required[k] in o.properties
    {
      if p.required[i] == name || p.required[i] !in o.properties {
        assert p.required[i] in p.required;
        return false;
      }
    }
    ok := true;
  }

  method CheckCondition(lx: Lexicon, o: Model, dim: string, value: string) returns (ok: bool)
    ensures ok <==> ConditionOk(lx, o, dim, value)
  {
    hide ContainsFold, Canonical;
    if dim == CLASS {
      return value in o.classes;
    }
    if dim !in o.dimensions {
      return false;
    }
    var id := FindCanonical(lx, o.dimensions[dim].labels, value);
    ok := FindFold(lx, o.dimensions[dim].values, id);
  }

  // The scope map is visited in whatever order the runtime chooses.
  method CheckScope(lx: Lexicon, o: Model, scope: Scope) returns (ok: bool)
    ensures ok <==> ScopeOk(lx, o, scope)
  {
    hide ContainsFold, Canonical;
    var rest := scope.Keys;
    while rest != {}
      invariant rest <= scope.Keys
      invariant forall dim | dim in scope && dim !in rest :: ConditionOk(lx, o, dim, scope[dim])
      decreases rest
    {
      var dim :| dim in rest;
      var fine := CheckCondition(lx, o, dim, scope[dim]);
      if !fine {
        return false;
      }
      rest := rest - {dim};
    }
    ok := true;
  }

  method CheckValues(lx: Lexicon, o: Model, scope: Scope, name: string, values: seq<string>) returns (ok: bool)
    ensures ok <==> ValuesOk(lx, o, scope, name, values)
  {
    hide ValueOk, AppliesTo;
    if name !in o.properties {
      return false;
    }
    var p := o.properties[name];
    if !AppliesTo(o, p, ClassOf(scope)) {
      return false;
    }
    if p.functional && |values| != 1 {
      return false;
    }
    if p.minCardinality > 0 && |values| < p.minCardinality {
      return false;
    }
    for i := 0 to |values|
      invariant forall k | 0 <= k < i :: ValueOk(lx, p, values[k])
    {
      var fine := CheckValue(lx, p, values[i]);
      if !fine {
        assert values[i] in values;
        return false;
      }
    }
    ok := true;
  }

  method CheckAssertion(lx: Lexicon, o: Model, a: Assertion) returns (ok: bool)
    ensures ok <==> AssertionOk(lx, o, a)
  {
    hide ScopeOk, ValuesOk;
    var scoped := CheckScope(lx, o, a.EffectiveScope());
    if !scoped {
      return false;
    }
    var names := SortedNames(a.values.Keys);
    for i := 0 to |names|
      invariant forall k | 0 <= k < i ::
        names[k] in a.values && ValuesOk(lx, o, a.EffectiveScope(), names[k], a.values[names[k]])
    {
      assert names[i] in names;
      var fine := CheckValues(lx, o, a.EffectiveScope(), names[i], a.values[names[i]]);
      if !fine {
        return false;
      }
    }
    ok := true;
  }

  method ValidateProperties(lx: Lexicon, o: Model) returns (ok: bool)
    ensures ok <==> forall name | name in o.properties :: PropertyOk(lx, o, name)
  {
    hide PropertyOk;
    var names := SortedNames(o.properties.Keys);
    for i := 0 to |names|
      invariant forall j | 0 <= j < i :: names[j] in o.properties && PropertyOk(lx, o, names[j])
    {
      assert names[i] in names;
      var fine := CheckProperty(lx, o, names[i]);
      if !fine {
        return false;
      }
    }
    ok := true;
  }

  method ValidateAssertions(lx: Lexicon, o: Model) returns (ok: bool)
    ensures ok <==> forall a | a in o.assertions :: AssertionOk(lx, o, a)
  {
    hide AssertionOk;
    for i := 0 to |o.assertions|
      invariant forall j | 0 <= j < i :: AssertionOk(lx, o, o.assertions[j])
    {
      var fine := CheckAssertion(lx, o, o.assertions[i]);
      if !fine {
        assert o.assertions[i] in o.assertions;
        return false;
      }
    }
    ok := true;
  }

  // The order of the checks decides only which fault is reported first.
  method Validate(lx: Lexicon, o: Model) returns (ok: bool)
    ensures ok <==> WellFormed(lx, o)
  {
    hide DimensionsOk, PropertyOk, AssertionOk, Trim;
    if Trim(o.productLine) == "" || o.properties == map[] {
      return false;
    }
    var fault := Hierarchy.ValidateClasses(o.classes, o.disjoint);
    if fault.Some? {
      return false;
    }
    var dimensionsOk := ValidateDimensions(lx, o);
    if !dimensionsOk {
      return false;
    }
    var propertiesOk := ValidateProperties(lx, o);
    if !propertiesOk {
      return false;
    }
    var assertionsOk := ValidateAssertions(lx, o);
    if !assertionsOk {
      return false;
    }
    for i := 0 to |o.denials|
      invariant forall j | 0 <= j < i :: Trim(o.denials[j].term) != ""
    {
      if Trim(o.denials[i].term) == "" {
        return false;
      }
    }
    ok := true;
  }

  // Which class or dimension each value met so far belongs to.
  ghost predicate Owns(owner: map<string, string>, values: seq<string>, classes: Hierarchy.Classes) {
    forall v :: v in owner <==> v in classes || v in values
  }

  // Enters one dimension's values beside those met before, unless one of them is
  // already taken.
  method ClaimValues(owner: map<string, string>, dim: string, values: seq<string>,
                     ghost before: seq<string>, ghost classes: Hierarchy.Classes)
    returns (ok: bool, owner': map<string, string>)
    requires Owns(owner, before, classes) && Apart(before, classes)
    ensures ok <==> Apart(before + values, classes)
    ensures ok ==> Owns(owner', before + values, classes)
  {
    owner' := owner;
    assert before + values[..0] == before;
    for k := 0 to |values|
      invariant Apart(before + values[..k], classes) && Owns(owner', before + values[..k], classes)
    {
      assert before + values[..k + 1] == before + values[..k] + [values[k]];
      if values[k] in owner' {
        assert (before + values)[..|before| + k] == before + values[..k];
        NotApart(before + values, classes, |before| + k);
        return false, owner';
      }
      owner' := owner'[values[k] := dim];
    }
    assert values[..|values|] == values;
    ok := true;
  }

  lemma NotApart(all: seq<string>, classes: Hierarchy.Classes, k: nat)
    requires k < |all| && (all[k] in classes || all[k] in all[..k])
    ensures !Apart(all, classes)
  {
    if all[k] in all[..k] {
      var m :| 0 <= m < k && all[..k][m] == all[k];
      assert all[m] == all[k];
    }
  }

  method CheckDimension(lx: Lexicon, d: Dimension) returns (ok: bool)
    ensures ok <==> DimensionOk(lx, d)
  {
    hide ContainsFold;
    if d.values == [] {
      return false;
    }
    ok := LabelsDeclared(lx, d.labels, d.values);
  }

  // The i-th dimension, after those before it.
  method AddDimension(lx: Lexicon, o: Model, names: seq<string>, i: nat, owner: map<string, string>)
    returns (ok: bool, owner': map<string, string>)
    requires i < |names| && forall d | d in names :: d in o.dimensions
    requires Owns(owner, DeclaredValues(o, names, i), o.classes) && Apart(DeclaredValues(o, names, i), o.classes)
    ensures ok <==> DimensionOk(lx, o.dimensions[names[i]]) && Apart(DeclaredValues(o, names, i + 1), o.classes)
    ensures ok ==> Owns(owner', DeclaredValues(o, names, i + 1), o.classes)
  {
    hide Owns, Apart, DimensionOk;
    var d := o.dimensions[names[i]];
    ok, owner' := ClaimValues(owner, names[i], d.values, DeclaredValues(o, names, i), o.classes);
    if ok {
      ok := CheckDimension(lx, d);
    }
  }

  method ValidateDimensions(lx: Lexicon, o: Model) returns (ok: bool)
    ensures ok <==> DimensionsOk(lx, o)
  {
    hide Owns, Apart, DimensionOk, SortedNames, DeclaredValues, DimensionsOk;
    if CLASS in o.dimensions {
      DimensionsJudged(lx, o);
      return false;
    }
    var owner: map<string, string> := map c | c in o.classes :: CLASS;
    var names := SortedNames(o.dimensions.Keys);
    NothingOwned(owner, o.classes);
    NothingDeclared(o, names);
    DimensionsJudged(lx, o);
    for i := 0 to |names|
      invariant Apart(DeclaredValues(o, names, i), o.classes)
      invariant Owns(owner, DeclaredValues(o, names, i), o.classes)
      invariant forall j | 0 <= j < i :: DimensionOk(lx, o.dimensions[names[j]])
    {
      ok, owner := AddDimension(lx, o, names, i, owner);
      if !ok {
        DeclaredPrefix(o, names, i + 1, |names|);
        if !Apart(DeclaredValues(o, names, i + 1), o.classes) {
          PrefixNotApart(DeclaredValues(o, names, i + 1), DeclaredValues(o, names, |names|), o.classes);
        }
        return;
      }
    }
    ok := true;
  }

  lemma DimensionsJudged(lx: Lexicon, o: Model)
    ensures var names := SortedNames(o.dimensions.Keys);
            DimensionsOk(lx, o) <==>
              && CLASS !in o.dimensions
              && (forall j | 0 <= j < |names| :: DimensionOk(lx, o.dimensions[names[j]]))
              && Apart(DeclaredValues(o, names, |names|), o.classes)
  {
    hide Apart, DimensionOk, SortedNames, DeclaredValues;
    var names := SortedNames(o.dimensions.Keys);
    if forall j | 0 <= j < |names| :: DimensionOk(lx, o.dimensions[names[j]]) {
      forall d | d in o.dimensions
        ensures DimensionOk(lx, o.dimensions[d])
      {
        assert d in names;
      }
    }
  }

  lemma NothingDeclared(o: Model, names: seq<string>)
    requires forall d | d in names :: d in o.dimensions
    ensures DeclaredValues(o, names, 0) == []
  {
  }

  lemma NothingOwned(owner: map<string, string>, classes: Hierarchy.Classes)
    requires owner.Keys == classes.Keys
    ensures Owns(owner, [], classes) && Apart([], classes)
  {
  }

  lemma PrefixNotApart(prefix: seq<string>, all: seq<string>, classes: Hierarchy.Classes)
    requires prefix <= all && !Apart(prefix, classes)
    ensures !Apart(all, classes)
  {
    if i :| 0 <= i < |prefix| && prefix[i] in classes {
      assert all[i] in classes;
    } else {
      var i, j :| 0 <= i < j < |prefix| && prefix[i] == prefix[j];
      assert all[i] == all[j];
    }
  }

  lemma {:induction false} DeclaredPrefix(o: Model, names: seq<string>, i: nat, n: nat)
    requires i <= n <= |names| && forall d | d in names :: d in o.dimensions
    ensures DeclaredValues(o, names, i) <= DeclaredValues(o, names, n)
  {
    if i < n {
      DeclaredPrefix(o, names, i, n - 1);
    }
  }
}
