// Which fact holds in which situation (unica/pkg/domain/ontology.go): the facts
// stated about a property, the integer score that ranks those applicable to a
// query, and the resolution of bare scope qualifiers.
module Facts {
  import opened Options
  import opened Text
  import opened Ontology
  import Hierarchy

  const WEIGHT := 32

  // One assertion's values for a property, with the scope they hold in.
  datatype Fact = Fact(scope: Scope, values: seq<string>)

  // ---------- The facts of a property ----------

  function Stated(assertions: seq<Assertion>, property: string): seq<Fact> {
    if assertions == [] then []
    else
      var a := assertions[|assertions| - 1];
      var rest := Stated(assertions[..|assertions| - 1], property);
      if property in a.values && a.values[property] != []
      then rest + [Fact(a.EffectiveScope(), a.values[property])] else rest
  }

  // f sorts strictly before g: fewer dimensions first, then by class name.
  predicate Precedes(f: Fact, g: Fact) {
    if |f.scope| != |g.scope| then |f.scope| < |g.scope|
    else Less(ClassOf(f.scope), ClassOf(g.scope))
  }

  // f goes behind every fact it does not precede.
  function Insert(sorted: seq<Fact>, f: Fact): seq<Fact> {
    if sorted == [] || !Precedes(f, sorted[|sorted| - 1]) then sorted + [f]
    else Insert(sorted[..|sorted| - 1], f) + [sorted[|sorted| - 1]]
  }

  // sort.SliceStable with Precedes.
  function StableSort(facts: seq<Fact>): seq<Fact> {
    if facts == [] then [] else Insert(StableSort(facts[..|facts| - 1]), facts[|facts| - 1])
  }

  // FactsOf: most general first.
  function FactsOf(o: Model, property: string): seq<Fact> {
    StableSort(Stated(o.assertions, property))
  }

  method CollectFacts(o: Model, property: string) returns (facts: seq<Fact>)
    ensures facts == FactsOf(o, property)
  {
    var out: seq<Fact> := [];
    for i := 0 to |o.assertions|
      invariant out == Stated(o.assertions[..i], property)
    {
      var a := o.assertions[i];
      assert o.assertions[..i + 1][..i] == o.assertions[..i];
      if property in a.values && a.values[property] != [] {
        out := out + [Fact(a.EffectiveScope(), a.values[property])];
      }
    }
    assert o.assertions[..|o.assertions|] == o.assertions;
    facts := StableSort(out);
  }

  // ---------- The sort is a stable sort ----------

  predicate Sorted(facts: seq<Fact>) {
    forall i, j | 0 <= i < j < |facts| :: !Precedes(facts[j], facts[i])
  }

  // The facts that sort level with f, in order.
  function Level(facts: seq<Fact>, f: Fact): seq<Fact> {
    if facts == [] then []
    else
      var g := facts[|facts| - 1];
      var rest := Level(facts[..|facts| - 1], f);
      if !Precedes(f, g) && !Precedes(g, f) then rest + [g] else rest
  }

  lemma PrecedesIsStrict(f: Fact, g: Fact)
    ensures !(Precedes(f, g) && Precedes(g, f))
  {
    if Precedes(f, g) && Precedes(g, f) {
      LessIsTransitive(ClassOf(f.scope), ClassOf(g.scope), ClassOf(f.scope));
      LessIsStrict(ClassOf(f.scope));
    }
  }

  // Not preceding is transitive: the order is a weak one.
  lemma NotPrecedesIsTransitive(f: Fact, g: Fact, h: Fact)
    requires !Precedes(g, f) && !Precedes(h, g)
    ensures !Precedes(h, f)
  {
    var a, b, c := ClassOf(f.scope), ClassOf(g.scope), ClassOf(h.scope);
    if Precedes(h, f) && |f.scope| == |h.scope| {
      LessIsTotal(a, b);
      LessIsTotal(b, c);
      if Less(a, b) {
        LessIsTransitive(c, a, b);
      }
    }
  }

  lemma {:induction false} InsertPermutes(sorted: seq<Fact>, f: Fact)
    ensures multiset(Insert(sorted, f)) == multiset(sorted) + multiset{f}
  {
    hide Precedes;
    var n := |sorted| - 1;
    if sorted != [] && Precedes(f, sorted[n]) {
      assert sorted == sorted[..n] + [sorted[n]];
      InsertPermutes(sorted[..n], f);
    }
  }

  lemma {:induction false} InsertSorts(sorted: seq<Fact>, f: Fact)
    requires Sorted(sorted)
    ensures Sorted(Insert(sorted, f))
  {
    hide Precedes;
    var n := |sorted| - 1;
    if sorted == [] || !Precedes(f, sorted[n]) {
      forall i | 0 <= i < |sorted| ensures !Precedes(f, sorted[i]) {
        if i < n {
          NotPrecedesIsTransitive(sorted[i], sorted[n], f);
        }
      }
    } else {
      var front, last := sorted[..n], sorted[n];
      InsertSorts(front, f);
      InsertPermutes(front, f);
      PrecedesIsStrict(f, last);
      forall i | 0 <= i < |Insert(front, f)| ensures !Precedes(last, Insert(front, f)[i]) {
        assert Insert(front, f)[i] in multiset(Insert(front, f));
      }
    }
  }

  lemma {:induction false} InsertKeepsLevel(sorted: seq<Fact>, f: Fact, g: Fact)
    requires Sorted(sorted)
    ensures Level(Insert(sorted, f), g) == Level(sorted + [f], g)
  {
    var n := |sorted| - 1;
    if sorted != [] && Precedes(f, sorted[n]) {
      var front, last := sorted[..n], sorted[n];
      InsertKeepsLevel(front, f, g);
      assert Insert(sorted, f)[..|Insert(front, f)|] == Insert(front, f);
      assert (front + [f])[..n] == front && (sorted + [f])[..|sorted|] == sorted;
      if !Precedes(g, last) && !Precedes(last, g) && !Precedes(g, f) && !Precedes(f, g) {
        NotPrecedesIsTransitive(last, g, f);
      }
    }
  }

  // FactsOf loses and invents nothing, runs from general to specific, and keeps
  // the declared order among facts that rank the same.
  lemma {:induction false} StableSortIsStable(facts: seq<Fact>, g: Fact)
    ensures Sorted(StableSort(facts))
    ensures multiset(StableSort(facts)) == multiset(facts)
    ensures Level(StableSort(facts), g) == Level(facts, g)
  {
    if facts != [] {
      var front, last := facts[..|facts| - 1], facts[|facts| - 1];
      assert facts == front + [last];
      StableSortIsStable(front, g);
      InsertSorts(StableSort(front), last);
      InsertPermutes(StableSort(front), last);
      InsertKeepsLevel(StableSort(front), last, g);
      assert (StableSort(front) + [last])[..|StableSort(front)|] == StableSort(front);
    }
  }

  // ---------- What the list holds, and in which order ----------

  // The assertion gives the property values.
  predicate States(a: Assertion, property: string) { property in a.values && a.values[property] != [] }

  lemma {:induction false} StatedFrom(assertions: seq<Assertion>, property: string) returns (at: seq<nat>)
    ensures |at| == |Stated(assertions, property)|
    ensures forall k | 0 <= k < |at| ::
              at[k] < |assertions| && States(assertions[at[k]], property) &&
              Stated(assertions, property)[k] ==
                Fact(assertions[at[k]].EffectiveScope(), assertions[at[k]].values[property])
    ensures forall k, l | 0 <= k < l < |at| :: at[k] < at[l]
    ensures forall i: nat :: i in at <==> i < |assertions| && States(assertions[i], property)
  {
    if assertions == [] {
      at := [];
    } else {
      var n := |assertions| - 1;
      at := StatedFrom(assertions[..n], property);
      if States(assertions[n], property) {
        at := at + [n];
      }
    }
  }

  // Where Insert puts f: in front of facts it precedes, all of them.
  lemma {:induction false} InsertAt(sorted: seq<Fact>, f: Fact) returns (p: nat)
    ensures p <= |sorted| && Insert(sorted, f) == sorted[..p] + [f] + sorted[p..]
    ensures forall q | p <= q < |sorted| :: Precedes(f, sorted[q])
  {
    hide Precedes;
    if sorted == [] || !Precedes(f, sorted[|sorted| - 1]) {
      p := |sorted|;
    } else {
      p := InsertAt(sorted[..|sorted| - 1], f);
    }
  }

  // sorted[k] is facts[at[k]].
  predicate Takes(facts: seq<Fact>, sorted: seq<Fact>, at: seq<nat>) {
    && |at| == |sorted|
    && forall k | 0 <= k < |at| :: at[k] < |facts| && sorted[k] == facts[at[k]]
  }

  ghost predicate TakesAll(at: seq<nat>, n: nat) { forall i: nat :: i in at <==> i < n }

  // Whatever changed places did so because one precedes the other.
  predicate MovesOnlyAhead(facts: seq<Fact>, at: seq<nat>)
    requires forall k | 0 <= k < |at| :: at[k] < |facts|
  {
    forall k, l | 0 <= k < l < |at| :: at[k] < at[l] || Precedes(facts[at[k]], facts[at[l]])
  }

  function Placed(before: seq<nat>, p: nat, n: nat): seq<nat>
    requires p <= |before|
  {
    before[..p] + [n] + before[p..]
  }

  lemma PlacedTakes(facts: seq<Fact>, f: Fact, sorted: seq<Fact>, before: seq<nat>, p: nat)
    requires Takes(facts, sorted, before) && p <= |sorted|
    ensures Takes(facts + [f], sorted[..p] + [f] + sorted[p..], Placed(before, p, |facts|))
  {
    var out, at := sorted[..p] + [f] + sorted[p..], Placed(before, p, |facts|);
    forall k | 0 <= k < |at|
      ensures at[k] < |facts| + 1 && out[k] == (facts + [f])[at[k]]
    {
      if k < p {
        assert at[k] == before[k];
      } else if k > p {
        assert at[k] == before[k - 1] && out[k] == sorted[k - 1];
      }
    }
  }

  lemma PlacedTakesAll(before: seq<nat>, p: nat, n: nat)
    requires TakesAll(before, n) && p <= |before|
    ensures TakesAll(Placed(before, p, n), n + 1)
  {
    forall i: nat
      ensures i in Placed(before, p, n) <==> i in before || i == n
    {
      assert before == before[..p] + before[p..];
    }
  }

  lemma PlacedMovesAhead(facts: seq<Fact>, f: Fact, sorted: seq<Fact>, before: seq<nat>, p: nat)
    requires Takes(facts, sorted, before) && MovesOnlyAhead(facts, before) && p <= |sorted|
    requires forall q | p <= q < |sorted| :: Precedes(f, sorted[q])
    requires Takes(facts + [f], sorted[..p] + [f] + sorted[p..], Placed(before, p, |facts|))
    ensures MovesOnlyAhead(facts + [f], Placed(before, p, |facts|))
  {
    hide Precedes;
    var all, at := facts + [f], Placed(before, p, |facts|);
    forall k, l | 0 <= k < l < |at|
      ensures at[k] < at[l] || Precedes(all[at[k]], all[at[l]])
    {
      var k', l' := if k < p then k else k - 1, if l < p then l else l - 1;
      assert k != p ==> at[k] == before[k'] && all[at[k]] == facts[before[k']];
      assert l != p ==> at[l] == before[l'] && all[at[l]] == facts[before[l']];
      if k == p {
        assert all[at[k]] == f && all[at[l]] == sorted[l'];
      }
    }
  }

  // The sort as a rearrangement that moves no fact past one it ranks level with.
  lemma {:induction false} SortedFrom(facts: seq<Fact>) returns (at: seq<nat>)
    ensures Takes(facts, StableSort(facts), at) && TakesAll(at, |facts|) && MovesOnlyAhead(facts, at)
  {
    hide Precedes, Takes, TakesAll, MovesOnlyAhead, Placed, Insert;
    if facts == [] {
      at := [];
      assert Takes([], [], []) && TakesAll([], 0) && MovesOnlyAhead([], []) by { NothingTaken(); }
    } else {
      var front, f := facts[..|facts| - 1], facts[|facts| - 1];
      assert front + [f] == facts;
      var before := SortedFrom(front);
      var sorted := StableSort(front);
      var p := InsertAt(sorted, f);
      assert p <= |before| by { TakesAsMany(front, sorted, before); }
      PlacedTakes(front, f, sorted, before, p);
      PlacedTakesAll(before, p, |front|);
      PlacedMovesAhead(front, f, sorted, before, p);
      at := Placed(before, p, |front|);
    }
  }

  lemma NothingTaken()
    ensures Takes([], [], []) && TakesAll([], 0) && MovesOnlyAhead([], [])
  {
  }

  lemma TakesAsMany(facts: seq<Fact>, sorted: seq<Fact>, at: seq<nat>)
    requires Takes(facts, sorted, at)
    ensures |at| == |sorted|
  {
  }

  // f ranks before g: fewer conditions, or as many and an earlier class name.
  predicate Before(f: Fact, g: Fact) {
    |f.scope| < |g.scope| || (|f.scope| == |g.scope| && Less(ClassOf(f.scope), ClassOf(g.scope)))
  }

  // The facts of a property are those of the assertions that give it values, each once:
  // the most general first, then by class name, and in declared order among equals.
  lemma FactsAreStated(o: Model, property: string) returns (at: seq<nat>)
    ensures |at| == |FactsOf(o, property)|
    ensures forall k | 0 <= k < |at| ::
              at[k] < |o.assertions| &&
              var a, f := o.assertions[at[k]], FactsOf(o, property)[k];
              && property in a.values && f.values == a.values[property] && f.values != []
              && f.scope == if a.cls != "" then a.scope["class" := a.cls] else a.scope
    ensures forall i: nat :: i in at <==>
              i < |o.assertions| && property in o.assertions[i].values && o.assertions[i].values[property] != []
    ensures forall k, l | 0 <= k < l < |at| ::
              var f, g := FactsOf(o, property)[k], FactsOf(o, property)[l];
              Before(f, g) || (|f.scope| == |g.scope| && ClassOf(f.scope) == ClassOf(g.scope) && at[k] < at[l])
  {
    hide StableSort, Before, Precedes;
    var stated := Stated(o.assertions, property);
    var st := StatedFrom(o.assertions, property);
    var so := SortedFrom(stated);
    at := seq(|so|, k requires 0 <= k < |so| => st[so[k]]);
    ComposedTakesAll(st, so, at);
    forall k, l | 0 <= k < l < |at|
      ensures var f, g := FactsOf(o, property)[k], FactsOf(o, property)[l];
              Before(f, g) || (|f.scope| == |g.scope| && ClassOf(f.scope) == ClassOf(g.scope) && at[k] < at[l])
    {
      StableSortIsStable(stated, stated[so[k]]);
      if !Before(stated[so[k]], stated[so[l]]) {
        RanksLevel(stated[so[k]], stated[so[l]]);
      }
    }
  }

  lemma ComposedTakesAll(st: seq<nat>, so: seq<nat>, at: seq<nat>)
    requires TakesAll(so, |st|) && |at| == |so|
    requires forall k | 0 <= k < |so| :: so[k] in so && so[k] < |st| && at[k] == st[so[k]]
    ensures forall i: nat :: i in at <==> i in st
  {
    forall i: nat | i in st ensures i in at {
      var j :| 0 <= j < |st| && st[j] == i;
      assert j in so;
      var k :| 0 <= k < |so| && so[k] == j;
      assert at[k] == i;
    }
  }

  lemma RanksLevel(f: Fact, g: Fact)
    requires !Precedes(g, f) && !Before(f, g)
    ensures |f.scope| == |g.scope| && ClassOf(f.scope) == ClassOf(g.scope) && !Precedes(f, g)
  {
    LessIsTotal(ClassOf(f.scope), ClassOf(g.scope));
    LessIsStrict(ClassOf(f.scope));
  }

  // ---------- Matching a scope ----------

  predicate DimensionMatches(lx: Lexicon, o: Model, dim: string, want: string, got: string) {
    if dim !in o.dimensions then EqualFold(lx.fold, want, got)
    else
      var labels := o.dimensions[dim].labels;
      EqualFold(lx.fold, Canonical(lx, labels, want), Canonical(lx, labels, got))
  }

  predicate MatchesAt(lx: Lexicon, o: Model, assertion: Scope, query: Scope, dim: string)
    requires dim in assertion
  {
    dim in query &&
    if dim == CLASS then Hierarchy.IsSubclassOf(o.classes, query[dim], assertion[dim])
    else DimensionMatches(lx, o, dim, assertion[dim], query[dim])
  }

  // An assertion applies when the query answers every dimension it names.
  predicate Applies(lx: Lexicon, o: Model, assertion: Scope, query: Scope) {
    forall dim | dim in assertion :: MatchesAt(lx, o, assertion, query, dim)
  }

  // How far above the query's class the assertion's class lies.
  function Hops(o: Model, assertion: Scope, query: Scope): (h: nat)
    ensures h < Hierarchy.MAX_DEPTH
  {
    if CLASS in assertion && CLASS in query then
      var d := Hierarchy.Distance(o.classes, query[CLASS], assertion[CLASS]);
      if d.Some? then d.value else 0
    else 0
  }

  function Score(o: Model, assertion: Scope, query: Scope): int {
    WEIGHT * |assertion| - Hops(o, assertion, query)
  }

  lemma HopsIs(o: Model, assertion: Scope, query: Scope)
    requires CLASS in assertion && CLASS in query
    requires Hierarchy.Distance(o.classes, query[CLASS], assertion[CLASS]).Some?
    ensures Hops(o, assertion, query) == Hierarchy.Distance(o.classes, query[CLASS], assertion[CLASS]).value
  {
  }

  lemma NoHops(o: Model, assertion: Scope, query: Scope)
    ensures CLASS !in assertion ==> Hops(o, assertion, query) == 0
  {
  }

  // matchScope visits the assertion's dimensions in whatever order the runtime
  // chooses; the score does not depend on it.
  method MatchScope(lx: Lexicon, o: Model, assertion: Scope, query: Scope) returns (score: Option<int>)
    ensures score == if Applies(lx, o, assertion, query) then Some(Score(o, assertion, query)) else None
  {
    hide DimensionMatches, Hierarchy.Distance, Hops;
    NoHops(o, assertion, query);
    var left := assertion.Keys;
    var sum := 0;
    while left != {}
      invariant left <= assertion.Keys
      invariant forall dim | dim in assertion && dim !in left :: MatchesAt(lx, o, assertion, query, dim)
      invariant sum == WEIGHT * (|assertion| - |left|) - (if CLASS in left then 0 else Hops(o, assertion, query))
      decreases left
    {
      var dim :| dim in left;
      left := left - {dim};
      if dim !in query {
        assert !MatchesAt(lx, o, assertion, query, dim);
        return None;
      }
      if dim == CLASS {
        var hops := Hierarchy.DistanceTo(o.classes, query[dim], assertion[dim]);
        if hops.None? {
          assert !MatchesAt(lx, o, assertion, query, dim);
          return None;
        }
        HopsIs(o, assertion, query);
        sum := sum + WEIGHT - hops.value;
      } else {
        if !DimensionMatches(lx, o, dim, assertion[dim], query[dim]) {
          assert !MatchesAt(lx, o, assertion, query, dim);
          return None;
        }
        sum := sum + WEIGHT;
      }
    }
    score := Some(sum);
  }

  // ---------- The most specific fact ----------

  // f is more specific than g for the query: more dimensions, or as many and a
  // nearer class.
  predicate MoreSpecific(o: Model, query: Scope, f: Fact, g: Fact) {
    |f.scope| > |g.scope| ||
    (|f.scope| == |g.scope| && Hops(o, f.scope, query) < Hops(o, g.scope, query))
  }

  // The score realises that order: hops stay below the weight of one dimension.
  lemma ScoreIsLexicographic(o: Model, query: Scope, f: Fact, g: Fact)
    ensures Score(o, f.scope, query) > Score(o, g.scope, query) <==> MoreSpecific(o, query, f, g)
  {
    var a, b := |f.scope|, |g.scope|;
    if a > b {
      assert WEIGHT * (a - b) >= WEIGHT;
    } else if a < b {
      assert WEIGHT * (b - a) >= WEIGHT;
    }
  }

  // Among the first n facts: facts[i] applies, nothing applicable is more
  // specific, and it comes first among those as specific.
  ghost predicate IsWinner(lx: Lexicon, o: Model, facts: seq<Fact>, query: Scope, n: nat, i: nat)
    requires n <= |facts|
  {
    && i < n && Applies(lx, o, facts[i].scope, query)
    && (forall j | 0 <= j < n && Applies(lx, o, facts[j].scope, query) ::
          !MoreSpecific(o, query, facts[j], facts[i]))
    && (forall j | 0 <= j < i && Applies(lx, o, facts[j].scope, query) ::
          MoreSpecific(o, query, facts[i], facts[j]))
  }

  // The best of facts[..n]: the recursion AssertedValues performs as a loop.
  function Best(lx: Lexicon, o: Model, facts: seq<Fact>, query: Scope, n: nat): (best: Option<nat>)
    requires n <= |facts|
    ensures best.Some? ==> best.value < n
  {
    if n == 0 then None
    else
      var b := Best(lx, o, facts, query, n - 1);
      if Applies(lx, o, facts[n - 1].scope, query) &&
         (b.None? || Score(o, facts[n - 1].scope, query) > Score(o, facts[b.value].scope, query))
      then Some(n - 1) else b
  }

  function AssertedValues(lx: Lexicon, o: Model, query: Scope, property: string): Option<seq<string>> {
    var facts := FactsOf(o, property);
    var b := Best(lx, o, facts, query, |facts|);
    if b.None? then None else Some(facts[b.value].values)
  }

  lemma ScoreIsPositive(o: Model, f: Scope, query: Scope)
    ensures Score(o, f, query) >= 0
    ensures f != map[] ==> Score(o, f, query) > 0
  {
    if CLASS in f {
      assert |f| > 0;
    }
    if f != map[] {
      assert |f| > 0;
    }
  }

  method FindAssertedValues(lx: Lexicon, o: Model, query: Scope, property: string)
    returns (values: Option<seq<string>>)
    ensures values == AssertedValues(lx, o, query, property)
  {
    hide Applies, Hops, Score, FactsOf;
    var facts := CollectFacts(o, property);
    var best := -1;
    values := None;
    for i := 0 to |facts|
      invariant var b := Best(lx, o, facts, query, i);
                if b.None? then best == -1 && values.None?
                else best == Score(o, facts[b.value].scope, query) && values == Some(facts[b.value].values)
    {
      var score := MatchScope(lx, o, facts[i].scope, query);
      ScoreIsPositive(o, facts[i].scope, query);
      if score.Some? && score.value > best {
        best, values := score.value, Some(facts[i].values);
      }
    }
  }

  lemma {:induction false} BestWins(lx: Lexicon, o: Model, facts: seq<Fact>, query: Scope, n: nat)
    requires n <= |facts|
    ensures var b := Best(lx, o, facts, query, n);
            if b.None? then forall j | 0 <= j < n :: !Applies(lx, o, facts[j].scope, query)
            else IsWinner(lx, o, facts, query, n, b.value)
  {
    hide Applies, Hops, Score, IsWinner;
    if n > 0 {
      BestWins(lx, o, facts, query, n - 1);
      var before := Best(lx, o, facts, query, n - 1);
      if before.Some? {
        WinnerAgainst(lx, o, facts, query, before.value, n - 1);
      } else if Applies(lx, o, facts[n - 1].scope, query) {
        FirstApplicable(lx, o, facts, query, n - 1);
      }
    }
  }

  lemma FirstApplicable(lx: Lexicon, o: Model, facts: seq<Fact>, query: Scope, n: nat)
    requires n < |facts| && Applies(lx, o, facts[n].scope, query)
    requires forall j | 0 <= j < n :: !Applies(lx, o, facts[j].scope, query)
    ensures IsWinner(lx, o, facts, query, n + 1, n)
  {
    hide Applies, Hops;
  }

  // One more fact joins: the old winner stays unless the newcomer scores higher.
  lemma WinnerAgainst(lx: Lexicon, o: Model, facts: seq<Fact>, query: Scope, b: nat, n: nat)
    requires n < |facts| && IsWinner(lx, o, facts, query, n, b)
    ensures if Applies(lx, o, facts[n].scope, query) &&
               Score(o, facts[n].scope, query) > Score(o, facts[b].scope, query)
            then IsWinner(lx, o, facts, query, n + 1, n) else IsWinner(lx, o, facts, query, n + 1, b)
  {
    hide Applies, Hops, Score;
    ScoreIsLexicographic(o, query, facts[n], facts[b]);
  }

  // AssertedValues answers with the values of the applicable fact that names the
  // most dimensions, of those the one with the nearest class, of those the first;
  // and with nothing exactly when no fact applies.
  lemma MostSpecificFactWins(lx: Lexicon, o: Model, query: Scope, property: string)
    ensures var facts := FactsOf(o, property);
            match AssertedValues(lx, o, query, property)
            case None => forall j | 0 <= j < |facts| :: !Applies(lx, o, facts[j].scope, query)
            case Some(values) =>
              exists i: nat :: i < |facts| && IsWinner(lx, o, facts, query, |facts|, i) && values == facts[i].values
  {
    hide Applies, FactsOf, IsWinner, Best;
    BestWins(lx, o, FactsOf(o, property), query, |FactsOf(o, property)|);
  }

  // There is only one such fact.
  lemma WinnerIsUnique(lx: Lexicon, o: Model, facts: seq<Fact>, query: Scope, i: nat, j: nat)
    requires IsWinner(lx, o, facts, query, |facts|, i) && IsWinner(lx, o, facts, query, |facts|, j)
    ensures i == j
  {
    hide Applies, Hops;
  }
}
