// The report of checkClaims itself (unica/pkg/domain/validator.go): which claims it
// names, in which order, and for what.
module Report {
  import opened Options
  import opened Text
  import opened Ontology
  import opened Facts
  import opened Claims
  import opened Validator
  import opened Silence
  import Render

  // ---------- What a qualifier means ----------

  // The dimension has a declared value that the qualifier reads as.
  predicate ReadsIn(lx: Lexicon, o: Model, dim: string, qualifier: string)
    requires dim in o.dimensions
  {
    exists v | v in o.dimensions[dim].values ::
      EqualFold(lx.fold, v, Canonical(lx, o.dimensions[dim].labels, qualifier))
  }

  lemma {:induction false} ReadAmong(lx: Lexicon, o: Model, names: seq<string>, q: string)
    requires forall n | n in names :: n in o.dimensions
    requires Ascending(names)
    ensures var r := ResolveAmong(lx, o, names, q);
            && (r.None? <==> forall n | n in names :: !ReadsIn(lx, o, n, q))
            && (r.Some? ==>
                  && r.value.dimension in names && r.value.value in o.dimensions[r.value.dimension].values
                  && EqualFold(lx.fold, r.value.value, Canonical(lx, o.dimensions[r.value.dimension].labels, q))
                  && forall n | n in names && ReadsIn(lx, o, n, q) ::
                       n == r.value.dimension || Less(r.value.dimension, n))
  {
    hide Canonical, EqualFold, Less;
    if names != [] {
      assert Ascending(names[1..]) by { AscendingTail(names); }
      ReadAmong(lx, o, names[1..], q);
      var v := ValueIn(lx, o.dimensions[names[0]], q);
      assert v.Some? <==> ReadsIn(lx, o, names[0], q);
      forall n | n in names[1..] ensures Less(names[0], n) {
        var k :| 0 <= k < |names[1..]| && names[1..][k] == n;
        assert names[k + 1] == n;
      }
    }
  }

  lemma AscendingTail(names: seq<string>)
    requires names != [] && Ascending(names)
    ensures Ascending(names[1..])
  {
    hide Less;
  }

  // A qualifier is the class of that name, or a value of the first dimension by name
  // that has one it reads as, or unknown when there is neither.
  lemma QualifierMeans(lx: Lexicon, o: Model, q: string)
    ensures var r := ResolveQualifier(lx, o, q);
            && (q in o.classes ==> r == Some(Resolved(CLASS, q)))
            && (r.None? <==> q !in o.classes && forall n | n in o.dimensions :: !ReadsIn(lx, o, n, q))
            && (r.Some? && q !in o.classes ==>
                  && r.value.dimension in o.dimensions && r.value.value in o.dimensions[r.value.dimension].values
                  && EqualFold(lx.fold, r.value.value, Canonical(lx, o.dimensions[r.value.dimension].labels, q))
                  && forall n | n in o.dimensions && ReadsIn(lx, o, n, q) ::
                       n == r.value.dimension || Less(r.value.dimension, n))
  {
    hide ResolveAmong, Canonical, EqualFold, ReadsIn, Less;
    if q !in o.classes {
      ReadAmong(lx, o, SortedNames(o.dimensions.Keys), q);
    }
  }

  predicate Excludes(q: Option<Resolved>, r: Option<Resolved>) {
    q.Some? && r.Some? && q.value.dimension == r.value.dimension && q.value.value != r.value.value
  }

  predicate Compatible(lx: Lexicon, o: Model, qs: seq<string>) {
    && (forall i | 0 <= i < |qs| :: ResolveQualifier(lx, o, qs[i]).Some?)
    && (forall i, j | 0 <= i < j < |qs| ::
          !Excludes(ResolveQualifier(lx, o, qs[i]), ResolveQualifier(lx, o, qs[j])))
  }

  predicate SaidBy(lx: Lexicon, o: Model, qs: seq<string>, r: Resolved) {
    exists i | 0 <= i < |qs| :: ResolveQualifier(lx, o, qs[i]) == Some(r)
  }

  ghost predicate HoldsWhatIsSaid(lx: Lexicon, o: Model, qs: seq<string>, scope: Scope) {
    forall dim, value :: dim in scope && scope[dim] == value <==> SaidBy(lx, o, qs, Resolved(dim, value))
  }

  // The qualifiers resolve exactly when each of them does and no two exclude each other;
  // the scope then holds exactly what they say.
  lemma {:induction false} ScopeResolvesIff(lx: Lexicon, o: Model, qs: seq<string>)
    ensures var scope := ResolveScope(lx, o, qs);
            && (scope.Some? <==> Compatible(lx, o, qs))
            && (scope.Some? ==> HoldsWhatIsSaid(lx, o, qs, scope.value))
  {
    hide ResolveQualifier, Compatible, HoldsWhatIsSaid;
    if qs == [] {
      NothingIsSaid(lx, o);
    } else {
      var front, q := qs[..|qs| - 1], qs[|qs| - 1];
      ScopeResolvesIff(lx, o, front);
      assert front + [q] == qs;
      var before := ResolveScope(lx, o, front);
      CompatibleFront(lx, o, front, q);
      if before.Some? {
        OneMoreQualifier(lx, o, front, q, before.value);
      }
    }
  }

  lemma NothingIsSaid(lx: Lexicon, o: Model)
    ensures Compatible(lx, o, []) && HoldsWhatIsSaid(lx, o, [], map[])
  {
  }

  lemma CompatibleFront(lx: Lexicon, o: Model, front: seq<string>, q: string)
    ensures Compatible(lx, o, front + [q]) ==> Compatible(lx, o, front)
  {
    hide ResolveQualifier, Excludes;
    var qs := front + [q];
    assert forall i | 0 <= i < |front| :: qs[i] == front[i];
  }

  lemma OneMoreQualifier(lx: Lexicon, o: Model, front: seq<string>, q: string, scope: Scope)
    requires Compatible(lx, o, front) && HoldsWhatIsSaid(lx, o, front, scope)
    ensures var r := ResolveQualifier(lx, o, q);
            && (Compatible(lx, o, front + [q]) <==>
                  r.Some? && !(r.value.dimension in scope && scope[r.value.dimension] != r.value.value))
            && (Compatible(lx, o, front + [q]) ==>
                  HoldsWhatIsSaid(lx, o, front + [q], scope[r.value.dimension := r.value.value]))
  {
    hide ResolveQualifier;
    var qs, r := front + [q], ResolveQualifier(lx, o, q);
    assert qs[|front|] == q;
    assert forall i | 0 <= i < |front| :: qs[i] == front[i];
    if r.Some? && r.value.dimension in scope {
      assert SaidBy(lx, o, front, Resolved(r.value.dimension, scope[r.value.dimension]));
    }
    if r.Some? {
      forall i | 0 <= i < |front| && Excludes(ResolveQualifier(lx, o, front[i]), r)
        ensures r.value.dimension in scope && scope[r.value.dimension] != r.value.value
      {
        assert SaidBy(lx, o, front, ResolveQualifier(lx, o, front[i]).value);
      }
      if !(r.value.dimension in scope && scope[r.value.dimension] != r.value.value) {
        SaysOneMore(lx, o, front, q, scope);
      }
    }
  }

  lemma SaysOneMore(lx: Lexicon, o: Model, front: seq<string>, q: string, scope: Scope)
    requires HoldsWhatIsSaid(lx, o, front, scope) && ResolveQualifier(lx, o, q).Some?
    requires var r := ResolveQualifier(lx, o, q).value;
             r.dimension in scope ==> scope[r.dimension] == r.value
    ensures var r := ResolveQualifier(lx, o, q).value;
            HoldsWhatIsSaid(lx, o, front + [q], scope[r.dimension := r.value])
  {
    hide ResolveQualifier;
    var qs, r := front + [q], ResolveQualifier(lx, o, q).value;
    var scope' := scope[r.dimension := r.value];
    forall dim, value
      ensures dim in scope' && scope'[dim] == value <==> SaidBy(lx, o, qs, Resolved(dim, value))
    {
      assert SaidBy(lx, o, qs, Resolved(dim, value)) <==>
             SaidBy(lx, o, front, Resolved(dim, value)) || r == Resolved(dim, value) by {
        assert qs[|front|] == q;
        assert forall i | 0 <= i < |front| :: qs[i] == front[i];
      }
    }
  }

  // ---------- Why a claim fails ----------

  // The claim fails at the condition k stands for, and not before: an unknown or
  // contradictory scope, a class outside the property's domain, a value outside its
  // range, a value unlike the deciding fact's or the only list's, or several lists to
  // compare an unqualified claim with.
  ghost predicate FailsAt(lx: Lexicon, o: Model, c: Claim, k: Kind)
    requires c.property in o.properties
  {
    var prop, scope, facts := o.properties[c.property], ResolveScope(lx, o, c.qualifiers), FactsOf(o, c.property);
    if scope.None? then k == UnknownScope
    else if CLASS in scope.value && !AppliesTo(o, prop, scope.value[CLASS]) then k == DomainMismatch
    else if !ValueOk(lx, prop, c.value) then k == RangeFault
    else if scope.value == map[] && !Unanimous(facts) then k == AmbiguousScope
    else k == Contradiction && !AgreesWithFacts(lx, o, c, scope.value)
  }

  lemma FaultIsFailure(lx: Lexicon, o: Model, c: Claim, k: Kind)
    requires c.property in o.properties
    ensures Fault(lx, o, c) == Some(k) <==> FailsAt(lx, o, c, k)
  {
    hide ResolveScope, ValueOk, AppliesTo, Compare, AgreesWithFacts, FactsOf, Unanimous;
    var scope := ResolveScope(lx, o, c.qualifiers);
    if scope.Some? {
      CompareMeansAgreement(lx, o, c, scope.value);
      AmbiguousIff(lx, o, c, scope.value);
    }
  }

  lemma AmbiguousIff(lx: Lexicon, o: Model, c: Claim, scope: Scope)
    requires c.property in o.properties
    ensures Compare(lx, o, o.properties[c.property], c, scope) == Ambiguous <==>
            scope == map[] && !Unanimous(FactsOf(o, c.property))
  {
    hide FactsOf, Canonical, ContainsFold, Distinct, Unanimous, AssertedValues;
    DistinctCounts(FactsOf(o, c.property));
  }

  // ---------- What one claim is reported for ----------

  // The values the first n claims give a functional property under one label.
  ghost function Said(lx: Lexicon, o: Model, claims: seq<Claim>, n: nat, key: string): set<string>
    requires n <= |claims|
  {
    set i | 0 <= i < n && Single(lx, o, claims[i]) && KeyOf(lx, o, claims[i]) == key :: claims[i].value
  }

  // The claim is the second or a later one under its label, and they do not agree.
  ghost predicate Disagrees(lx: Lexicon, o: Model, claims: seq<Claim>, i: nat)
    requires i < |claims|
  {
    Single(lx, o, claims[i]) &&
    exists j, k | 0 <= j <= i && 0 <= k <= i && Single(lx, o, claims[j]) && Single(lx, o, claims[k]) ::
      KeyOf(lx, o, claims[j]) == KeyOf(lx, o, claims[i]) == KeyOf(lx, o, claims[k]) &&
      claims[j].value != claims[k].value
  }

  ghost predicate Reportable(lx: Lexicon, o: Model, claims: seq<Claim>, i: nat)
    requires i < |claims|
  {
    if claims[i].property !in o.properties then o.closedWorld != Some(false)
    else !Supported(lx, o, claims[i]) || Disagrees(lx, o, claims, i)
  }

  // v says what is wrong with claim i.
  ghost predicate Reports(lx: Lexicon, o: Model, claims: seq<Claim>, i: nat, v: Violation)
    requires i < |claims|
  {
    var c := claims[i];
    var scope := ResolveScope(lx, o, c.qualifiers);
    v.property == c.property &&
    if c.property !in o.properties then v.kind == Undeclared && v.scope == "" && v.got == c.value
    else if !Supported(lx, o, c) then
      && FailsAt(lx, o, c, v.kind) && v.got == c.value
      && v.scope == if scope.None? || v.kind == AmbiguousScope || (v.kind == Contradiction && scope.value == map[])
                    then "" else ScopeLabel(o, scope.value)
    else
      && v.kind == FunctionalConflict && Single(lx, o, c)
      && scope.Some? && v.scope == ScopeLabel(o, scope.value)
      && v.got == Joined(Said(lx, o, claims, i + 1, KeyOf(lx, o, c)))
  }

  // ---------- The whole report ----------

  // The table of seen values holds exactly what was said, whatever was reported.
  ghost predicate SeenIsSaid(lx: Lexicon, o: Model, claims: seq<Claim>, seen: Seen) {
    forall key :: (if key in seen then seen[key] else {}) == Said(lx, o, claims, |claims|, key)
  }

  lemma SaidGrows(lx: Lexicon, o: Model, front: seq<Claim>, c: Claim, key: string)
    ensures Said(lx, o, front + [c], |front|, key) == Said(lx, o, front, |front|, key)
    ensures Said(lx, o, front + [c], |front| + 1, key) ==
            Said(lx, o, front, |front|, key) + (if Single(lx, o, c) && KeyOf(lx, o, c) == key then {c.value} else {})
  {
    hide Single, KeyOf;
    var claims := front + [c];
    assert claims[|front|] == c;
    assert forall i | 0 <= i < |front| :: claims[i] == front[i];
  }

  lemma SeenIsSaidStep(lx: Lexicon, o: Model, front: seq<Claim>, c: Claim, p: Progress)
    requires SeenIsSaid(lx, o, front, p.seen)
    ensures SeenIsSaid(lx, o, front + [c], CheckOne(lx, o, c, p).seen)
  {
    hide Fault, SeenKey, Joined, ReportedScope, ScopeLabel, ResolveScope, KeyOf, Said, Single;
    var p' := CheckOne(lx, o, c, p);
    OneSeen(lx, o, c, p);
    forall key ensures (if key in p'.seen then p'.seen[key] else {}) == Said(lx, o, front + [c], |front| + 1, key) {
      SaidGrows(lx, o, front, c, key);
    }
  }

  // What one claim does to the table of seen values.
  lemma OneSeen(lx: Lexicon, o: Model, c: Claim, p: Progress)
    ensures CheckOne(lx, o, c, p).seen == if Single(lx, o, c) then Noted(p.seen, KeyOf(lx, o, c), c.value) else p.seen
  {
    hide Fault, SeenKey, Joined, ReportedScope, ScopeLabel, ResolveScope, KeyOf;
    if Single(lx, o, c) {
      KeyIsSeenKey(lx, o, c);
    }
  }

  lemma DisagreesIff(lx: Lexicon, o: Model, claims: seq<Claim>, i: nat)
    requires i < |claims| && Single(lx, o, claims[i])
    ensures Disagrees(lx, o, claims, i) <==> |Said(lx, o, claims, i + 1, KeyOf(lx, o, claims[i]))| > 1
  {
    hide Single, KeyOf;
    var said := Said(lx, o, claims, i + 1, KeyOf(lx, o, claims[i]));
    assert claims[i].value in said;
    if |said| > 1 {
      assert |said - {claims[i].value}| > 0;
      var x :| x in said - {claims[i].value};
    } else {
      assert |said - {claims[i].value}| == 0;
      assert said == {claims[i].value};
      assert forall j | 0 <= j <= i && Single(lx, o, claims[j]) && KeyOf(lx, o, claims[j]) == KeyOf(lx, o, claims[i]) ::
          claims[j].value in said;
    }
  }

  // One claim appends one violation that says what is wrong with it, or none.
  lemma OneReport(lx: Lexicon, o: Model, front: seq<Claim>, c: Claim, p: Progress)
    requires SeenIsSaid(lx, o, front, p.seen)
    ensures var claims, out := front + [c], CheckOne(lx, o, c, p).out;
            if Reportable(lx, o, claims, |front|) then
              |out| == |p.out| + 1 && out[..|p.out|] == p.out && Reports(lx, o, claims, |front|, out[|p.out|])
            else out == p.out
  {
    hide Fault, SeenKey, Joined, ReportedScope, ScopeLabel, ResolveScope, KeyOf, Said, Supported, Disagrees, FailsAt;
    var claims := front + [c];
    assert claims[|front|] == c;
    if c.property in o.properties {
      FaultlessMeansSupported(lx, o, c);
      if Fault(lx, o, c).Some? {
        FaultIsFailure(lx, o, c, Fault(lx, o, c).value);
        FaultyLabel(lx, o, c);
        NotSingle(lx, o, claims, |front|);
      } else if o.properties[c.property].functional {
        FunctionalReport(lx, o, front, c, p);
      } else {
        NotSingle(lx, o, claims, |front|);
      }
    }
  }

  lemma NotSingle(lx: Lexicon, o: Model, claims: seq<Claim>, i: nat)
    requires i < |claims| && !Single(lx, o, claims[i])
    ensures !Disagrees(lx, o, claims, i)
  {
    hide Single;
  }

  lemma FaultyLabel(lx: Lexicon, o: Model, c: Claim)
    requires c.property in o.properties && Fault(lx, o, c).Some?
    ensures var scope, k := ResolveScope(lx, o, c.qualifiers), Fault(lx, o, c).value;
            ReportedScope(lx, o, c, k) ==
            if scope.None? || k == AmbiguousScope || (k == Contradiction && scope.value == map[]) then ""
            else ScopeLabel(o, scope.value)
  {
    hide Fault, ResolveScope, ScopeLabel;
  }

  lemma FunctionalReport(lx: Lexicon, o: Model, front: seq<Claim>, c: Claim, p: Progress)
    requires SeenIsSaid(lx, o, front, p.seen)
    requires c.property in o.properties && Fault(lx, o, c).None? && o.properties[c.property].functional
    ensures var claims, out, scope := front + [c], CheckOne(lx, o, c, p).out, ResolveScope(lx, o, c.qualifiers);
            && scope.Some? && Single(lx, o, c)
            && (if Disagrees(lx, o, claims, |front|) then
                  out == p.out + [Violation(FunctionalConflict, c.property, ScopeLabel(o, scope.value),
                                            Joined(Said(lx, o, claims, |front| + 1, KeyOf(lx, o, c))))]
                else out == p.out)
  {
    hide Fault, SeenKey, Joined, ReportedScope, ScopeLabel, ResolveScope, KeyOf, Said, Disagrees;
    var claims := front + [c];
    assert claims[|front|] == c;
    assert Single(lx, o, c);
    KeyIsSeenKey(lx, o, c);
    SaidGrows(lx, o, front, c, KeyOf(lx, o, c));
    DisagreesIff(lx, o, claims, |front|);
  }

  // The report has one violation for every reportable claim and no other, in the order
  // of the claims, whatever else was reported: `at` names the claims.
  lemma {:induction false} ReportIs(lx: Lexicon, o: Model, claims: seq<Claim>) returns (at: seq<nat>)
    ensures |CheckAll(lx, o, claims).out| == |at|
    ensures forall k | 0 <= k < |at| ::
              at[k] < |claims| && Reports(lx, o, claims, at[k], CheckAll(lx, o, claims).out[k])
    ensures forall k, l | 0 <= k < l < |at| :: at[k] < at[l]
    ensures forall i: nat :: i in at <==> i < |claims| && Reportable(lx, o, claims, i)
    ensures SeenIsSaid(lx, o, claims, CheckAll(lx, o, claims).seen)
  {
    hide CheckOne, CheckAll, Reports, Reportable, SeenIsSaid;
    CheckAllUnfolds(lx, o, claims);
    if claims == [] {
      at := [];
      assert SeenIsSaid(lx, o, [], map[]) by { NothingSaid(lx, o); }
    } else {
      var front, c := claims[..|claims| - 1], claims[|claims| - 1];
      assert front + [c] == claims;
      at := ReportIs(lx, o, front);
      var p := CheckAll(lx, o, front);
      SeenIsSaidStep(lx, o, front, c, p);
      OneReport(lx, o, front, c, p);
      forall i: nat | i < |front|
        ensures Reportable(lx, o, claims, i) <==> Reportable(lx, o, front, i)
      {
        PrefixReports(lx, o, front, c, i);
      }
      ghost var before := at;
      if Reportable(lx, o, claims, |front|) {
        at := at + [|front|];
      }
      var out := CheckAll(lx, o, claims).out;
      forall k | 0 <= k < |at|
        ensures at[k] < |claims| && Reports(lx, o, claims, at[k], out[k])
      {
        if k < |before| {
          assert out[..|before|] == p.out && out[k] == out[..|before|][k];
          assert at[k] == before[k] && Reports(lx, o, front, before[k], p.out[k]);
          PrefixReports(lx, o, front, c, before[k]);
        } else {
          assert k == |p.out| && at[k] == |front|;
        }
      }
    }
  }

  lemma NothingSaid(lx: Lexicon, o: Model)
    ensures SeenIsSaid(lx, o, [], map[])
  {
  }

  // What is said of a claim does not depend on those that follow.
  lemma PrefixReports(lx: Lexicon, o: Model, front: seq<Claim>, c: Claim, i: nat)
    requires i < |front|
    ensures Reportable(lx, o, front + [c], i) <==> Reportable(lx, o, front, i)
    ensures forall v :: Reports(lx, o, front, i, v) ==> Reports(lx, o, front + [c], i, v)
  {
    hide Supported, KeyOf, Single, FailsAt, ResolveScope, ScopeLabel, Joined;
    var claims := front + [c];
    assert forall j | 0 <= j < |front| :: claims[j] == front[j];
    if Single(lx, o, front[i]) {
      assert Said(lx, o, claims, i + 1, KeyOf(lx, o, front[i])) == Said(lx, o, front, i + 1, KeyOf(lx, o, front[i]));
    }
  }

  // ---------- What the report compares ----------

  // Two facts count as one exactly when they list the same values, as long as no value
  // contains the separator their lists are joined with.
  lemma SameValuesIff(f: Fact, g: Fact)
    requires f.values != [] && g.values != []
    requires forall v | v in f.values + g.values :: '\0' !in v
    ensures SameValues(f, g) <==> f.values == g.values
  {
    hide Join;
    assert "\0" == ['\0'];
    assert forall v | v in f.values :: v in f.values + g.values;
    assert forall v | v in g.values :: v in f.values + g.values;
    JoinsAgreeIff(f.values, g.values, '\0');
  }

  // A class reads as its title, another value as its dimension words it, and each as
  // itself where there is no wording; no scope at all is the general case.
  lemma ValuesRead(o: Model, dim: string, value: string)
    ensures ValueLabel(o, dim, value) ==
            if dim == "class" then
              (if value in o.classes && o.classes[value].title != "" then o.classes[value].title else value)
            else if dim in o.dimensions then Display(o.dimensions[dim].labels, value)
            else value
    ensures ScopeLabel(o, map[]) == "通用"
  {
  }

  // The wording of a scope's values contains none of the separators.
  predicate CleanLabels(o: Model, scope: Scope) {
    scope != map[] && forall d | d in scope ::
      '·' !in ValueLabel(o, d, scope[d]) && '\0' !in ValueLabel(o, d, scope[d])
  }

  lemma {:induction false} LabelsOfDims(o: Model, scope: Scope, dims: seq<string>)
    requires forall d | d in dims :: d in scope
    ensures |ValueLabels(o, scope, dims)| == |dims|
    ensures forall l | l in ValueLabels(o, scope, dims) :: exists d | d in dims :: l == ValueLabel(o, d, scope[d])
  {
    if dims != [] {
      LabelsOfDims(o, scope, dims[1..]);
    }
  }

  lemma {:induction false} CleanJoin(parts: seq<string>, sep: string, c: char)
    requires c !in sep && forall p | p in parts :: c !in p
    ensures c !in Join(parts, sep)
  {
    if |parts| > 1 {
      CleanJoin(parts[1..], sep, c);
    }
  }

  // Two claims meet under one key exactly when they are on one property and their scopes'
  // values read alike, one after the other.
  lemma KeysMeetIff(o: Model, s: Scope, t: Scope, p: string, q: string)
    requires CleanLabels(o, s) && CleanLabels(o, t) && '\0' !in p && '\0' !in q
    ensures forall d | d in Render.Keys(s) :: d in s
    ensures forall d | d in Render.Keys(t) :: d in t
    ensures SeenKey(o, s, p) == SeenKey(o, t, q) <==>
            p == q && ValueLabels(o, s, Render.Keys(s)) == ValueLabels(o, t, Render.Keys(t))
  {
    hide ValueLabel, Render.Keys, Join;
    LabelIsClean(o, s);
    LabelIsClean(o, t);
    var ls, lt := ValueLabels(o, s, Render.Keys(s)), ValueLabels(o, t, Render.Keys(t));
    assert "·" == ['·'] && "\0" == ['\0'];
    JoinsAgreeIff(ls, lt, '·');
    JoinsAgreeIff([ScopeLabel(o, s), p], [ScopeLabel(o, t), q], '\0');
    TwoJoined(ScopeLabel(o, s), p);
    TwoJoined(ScopeLabel(o, t), q);
  }

  lemma TwoJoined(a: string, b: string)
    ensures Join([a, b], ['\0']) == a + "\0" + b
  {
    assert [a, b][1..] == [b];
  }

  lemma LabelIsClean(o: Model, scope: Scope)
    requires CleanLabels(o, scope)
    ensures forall d | d in Render.Keys(scope) :: d in scope
    ensures ValueLabels(o, scope, Render.Keys(scope)) != []
    ensures forall l | l in ValueLabels(o, scope, Render.Keys(scope)) :: '·' !in l && '\0' !in l
    ensures '\0' !in ScopeLabel(o, scope)
  {
    hide ValueLabel, Render.Keys, Join;
    Render.KeysAreTheScope(scope);
    LabelsOfDims(o, scope, Render.Keys(scope));
    var d :| d in scope;
    assert d in Render.Keys(scope);
    CleanJoin(ValueLabels(o, scope, Render.Keys(scope)), "·", '\0');
  }
}
