// The class taxonomy of an ontology (unica/pkg/domain/ontology.go): each class
// names at most one parent, chains are walked with a depth cap, and validation
// rejects cycles.
module Hierarchy {
  import opened Options
  import opened Text

  const MAX_DEPTH := 16

  datatype Class = Class(title: string, parent: string)

  type Classes = map<string, Class>

  // A class that is not declared reads as the zero value, which has no parent.
  function Parent(cs: Classes, c: string): string {
    if c in cs then cs[c].parent else ""
  }

  // The class k steps above c; "" beyond the top.
  function Up(cs: Classes, c: string, k: nat): string {
    if k == 0 then c
    else
      var below := Up(cs, c, k - 1);
      if below == "" then "" else Parent(cs, below)
  }

  lemma {:induction false} UpFromParent(cs: Classes, c: string, k: nat)
    requires c != ""
    ensures Up(cs, c, k + 1) == Up(cs, Parent(cs, c), k)
  {
    if k > 0 {
      UpFromParent(cs, c, k - 1);
    }
  }

  lemma {:induction false} UpAdds(cs: Classes, c: string, a: nat, b: nat)
    ensures Up(cs, c, a + b) == Up(cs, Up(cs, c, a), b)
  {
    if b > 0 {
      UpAdds(cs, c, a, b - 1);
    }
  }

  lemma {:induction false} UpStaysAbove(cs: Classes, c: string, i: nat, j: nat)
    requires i <= j && Up(cs, c, i) == ""
    ensures Up(cs, c, j) == ""
  {
    if i < j {
      UpStaysAbove(cs, c, i, j - 1);
    }
  }

  // ---------- Walking the chain ----------

  // ancestor is reached from c after exactly k steps.
  predicate ReachedAt(cs: Classes, c: string, ancestor: string, k: nat) {
    ancestor != "" && Up(cs, c, k) == ancestor
  }

  predicate FirstReachedAt(cs: Classes, c: string, ancestor: string, k: nat) {
    ReachedAt(cs, c, ancestor, k) && forall i: nat | i < k :: !ReachedAt(cs, c, ancestor, i)
  }

  // How many hops separate class from ancestor, if the walk meets it within the
  // depth cap: the specification of distanceTo.
  function Distance(cs: Classes, cls: string, ancestor: string): (d: Option<nat>)
    ensures d.Some? ==> d.value < MAX_DEPTH && FirstReachedAt(cs, cls, ancestor, d.value)
    ensures d.None? ==> forall k: nat | k < MAX_DEPTH :: !ReachedAt(cs, cls, ancestor, k)
  {
    DistanceFrom(cs, cls, ancestor, 0)
  }

  function DistanceFrom(cs: Classes, cls: string, ancestor: string, k: nat): (d: Option<nat>)
    requires k <= MAX_DEPTH
    ensures d.Some? ==> k <= d.value < MAX_DEPTH && ReachedAt(cs, cls, ancestor, d.value)
                        && forall i: nat | k <= i < d.value :: !ReachedAt(cs, cls, ancestor, i)
    ensures d.None? ==> forall i: nat | k <= i < MAX_DEPTH :: !ReachedAt(cs, cls, ancestor, i)
    decreases MAX_DEPTH - k
  {
    if k == MAX_DEPTH then None
    else if ReachedAt(cs, cls, ancestor, k) then Some(k)
    else DistanceFrom(cs, cls, ancestor, k + 1)
  }

  lemma DistanceIs(cs: Classes, cls: string, ancestor: string, k: nat)
    requires k < MAX_DEPTH && FirstReachedAt(cs, cls, ancestor, k)
    ensures Distance(cs, cls, ancestor) == Some(k)
  {
    assert ReachedAt(cs, cls, ancestor, k);
  }

  method DistanceTo(cs: Classes, cls: string, ancestor: string) returns (d: Option<nat>)
    ensures d == Distance(cs, cls, ancestor)
  {
    var cur, depth := cls, 0;
    while cur != "" && depth < MAX_DEPTH
      invariant 0 <= depth <= MAX_DEPTH && cur == Up(cs, cls, depth)
      invariant forall i: nat | i < depth :: !ReachedAt(cs, cls, ancestor, i)
      decreases MAX_DEPTH - depth
    {
      if cur == ancestor {
        DistanceIs(cs, cls, ancestor, depth);
        return Some(depth);
      }
      if cur !in cs {
        NothingAbove(cs, cls, ancestor, depth + 1);
        return None;
      }
      cur := cs[cur].parent;
      depth := depth + 1;
    }
    if depth < MAX_DEPTH {
      NothingAbove(cs, cls, ancestor, depth);
    }
    d := None;
  }

  lemma NothingAbove(cs: Classes, cls: string, ancestor: string, depth: nat)
    requires Up(cs, cls, depth) == ""
    requires forall i: nat | i < depth :: !ReachedAt(cs, cls, ancestor, i)
    ensures Distance(cs, cls, ancestor) == None
  {
    var d := Distance(cs, cls, ancestor);
    if d.Some? {
      UpStaysAbove(cs, cls, depth, d.value);
    }
  }

  predicate IsSubclassOf(cs: Classes, child: string, ancestor: string) {
    Distance(cs, child, ancestor).Some?
  }

  // ---------- Cycles ----------

  // Walking up from c comes to an end.
  ghost predicate Ends(cs: Classes, c: string) {
    exists k: nat :: Up(cs, c, k) == ""
  }

  lemma {:induction false} RepeatNeverEnds(cs: Classes, c: string, i: nat, j: nat, k: nat)
    requires i < j && Up(cs, c, i) == Up(cs, c, j) != ""
    ensures Up(cs, c, k) != ""
    decreases k
  {
    if k < j {
      if Up(cs, c, k) == "" {
        UpStaysAbove(cs, c, k, j);
      }
    } else {
      UpAdds(cs, c, j, k - j);
      UpAdds(cs, c, i, k - j);
      RepeatNeverEnds(cs, c, i, j, i + (k - j));
    }
  }

  // Every name a walk from start can meet.
  function Names(cs: Classes, start: string): set<string> {
    cs.Keys + {start} + set c | c in cs :: cs[c].parent
  }

  // The classes met in the first n steps from start.
  ghost function Walked(cs: Classes, start: string, n: nat): set<string> {
    if n == 0 then {} else Walked(cs, start, n - 1) + {Up(cs, start, n - 1)}
  }

  lemma {:induction false} WalkedAt(cs: Classes, start: string, n: nat, x: string) returns (i: nat)
    requires x in Walked(cs, start, n)
    ensures i < n && Up(cs, start, i) == x
  {
    if x == Up(cs, start, n - 1) {
      i := n - 1;
    } else {
      i := WalkedAt(cs, start, n - 1, x);
    }
  }

  // Terminates on every hierarchy, cyclic or not, and accepts exactly the starts
  // whose chain ends.
  method CheckNoCycle(cs: Classes, start: string) returns (ok: bool)
    ensures ok <==> Ends(cs, start)
  {
    var seen: set<string> := {};
    var cur := start;
    ghost var n: nat := 0;
    while cur != ""
      invariant cur == Up(cs, start, n) && (cur == "" || cur in Names(cs, start))
      invariant seen == Walked(cs, start, n) && seen <= Names(cs, start)
      decreases Names(cs, start) - seen
    {
      if cur in seen {
        ghost var i := WalkedAt(cs, start, n, cur);
        forall k: nat ensures Up(cs, start, k) != "" {
          RepeatNeverEnds(cs, start, i, n, k);
        }
        return false;
      }
      seen := seen + {cur};
      cur := Parent(cs, cur);
      n := n + 1;
    }
    assert Up(cs, start, n) == "";
    ok := true;
  }

  // ---------- Validation ----------

  datatype Fault =
    | UnknownParent(cls: string)
    | CyclicParent(cls: string)
    | GroupTooSmall(group: nat)
    | UnknownMember(group: nat)

  predicate ParentsDeclared(cs: Classes) {
    forall c | c in cs :: cs[c].parent == "" || cs[c].parent in cs
  }

  // No class is above itself.
  ghost predicate Acyclic(cs: Classes) {
    forall c, k: nat | c in cs && c != "" && k > 0 :: Up(cs, c, k) != c
  }

  predicate GroupsDeclared(cs: Classes, disjoint: seq<seq<string>>) {
    forall g | 0 <= g < |disjoint| ::
      |disjoint[g]| >= 2 && forall i | 0 <= i < |disjoint[g]| :: disjoint[g][i] in cs
  }

  ghost predicate ChainsEnd(cs: Classes) {
    forall c | c in cs && cs[c].parent != "" :: Ends(cs, c)
  }

  method ValidateGroups(cs: Classes, disjoint: seq<seq<string>>) returns (fault: Option<Fault>)
    ensures fault.None? <==> GroupsDeclared(cs, disjoint)
    ensures fault.Some? ==> !fault.value.UnknownParent? && !fault.value.CyclicParent?
  {
    for g := 0 to |disjoint|
      invariant GroupsDeclared(cs, disjoint[..g])
    {
      assert disjoint[g] == disjoint[..g + 1][g];
      if |disjoint[g]| < 2 {
        return Some(GroupTooSmall(g));
      }
      for i := 0 to |disjoint[g]|
        invariant forall j | 0 <= j < i :: disjoint[g][j] in cs
      {
        if disjoint[g][i] !in cs {
          return Some(UnknownMember(g));
        }
      }
    }
    assert disjoint[..|disjoint|] == disjoint;
    fault := None;
  }

  method ValidateClasses(cs: Classes, disjoint: seq<seq<string>>) returns (fault: Option<Fault>)
    ensures fault.None? <==> ParentsDeclared(cs) && ChainsEnd(cs) && GroupsDeclared(cs, disjoint)
    ensures fault.Some? && fault.value.UnknownParent? ==>
              fault.value.cls in cs && cs[fault.value.cls].parent !in cs
    ensures fault.Some? && fault.value.CyclicParent? ==> fault.value.cls in cs && !Ends(cs, fault.value.cls)
  {
    var names := SortedNames(cs.Keys);
    for i := 0 to |names|
      invariant forall j | 0 <= j < i ::
        names[j] in cs && (cs[names[j]].parent == "" || (cs[names[j]].parent in cs && Ends(cs, names[j])))
    {
      var name := names[i];
      assert name in names;
      if cs[name].parent != "" {
        if cs[name].parent !in cs {
          return Some(UnknownParent(name));
        }
        var ok := CheckNoCycle(cs, name);
        if !ok {
          return Some(CyclicParent(name));
        }
      }
    }
    forall c | c in cs
      ensures cs[c].parent == "" || (cs[c].parent in cs && Ends(cs, c))
    {
      assert c in names;
    }
    fault := ValidateGroups(cs, disjoint);
  }

  // ---------- What a valid hierarchy is ----------

  lemma {:induction false} ChainDeclared(cs: Classes, c: string, k: nat)
    requires ParentsDeclared(cs) && c in cs
    ensures Up(cs, c, k) == "" || Up(cs, c, k) in cs
  {
    if k > 0 {
      ChainDeclared(cs, c, k - 1);
    }
  }

  lemma NeverBack(cs: Classes, c: string, i: nat, j: nat)
    requires ParentsDeclared(cs) && Acyclic(cs) && c in cs && i < j && Up(cs, c, j) != ""
    ensures Up(cs, c, i) != Up(cs, c, j)
  {
    ChainDeclared(cs, c, j);
    UpAdds(cs, c, i, j - i);
  }

  // A chain that meets no class twice leaves every prefix distinct names behind.
  lemma {:induction false} WalkedSize(cs: Classes, c: string, n: nat)
    requires ParentsDeclared(cs) && Acyclic(cs) && c in cs && Up(cs, c, n) != ""
    ensures |Walked(cs, c, n + 1)| == n + 1 && Walked(cs, c, n + 1) <= cs.Keys
    decreases n
  {
    ChainDeclared(cs, c, n);
    if n > 0 {
      WalkedSize(cs, c, n - 1);
      var last := Up(cs, c, n);
      if last in Walked(cs, c, n) {
        var i := WalkedAt(cs, c, n, last);
        NeverBack(cs, c, i, n);
      }
    } else {
      assert Walked(cs, c, 1) == {c};
    }
  }

  lemma Subsets(a: set<string>, b: set<string>)
    requires a <= b
    ensures |a| <= |b|
  {
    assert b == a + (b - a);
  }

  // Accepting every chain is the same as having no cycle: a walk among finitely
  // many declared classes either ends or comes back.
  lemma ChainsEndIffAcyclic(cs: Classes)
    requires ParentsDeclared(cs)
    ensures ChainsEnd(cs) <==> Acyclic(cs)
  {
    if ChainsEnd(cs) {
      forall c, k: nat | c in cs && c != "" && k > 0
        ensures Up(cs, c, k) != c
      {
        if Up(cs, c, k) == c {
          CycleNeverEnds(cs, c, k);
        }
      }
    }
    if Acyclic(cs) {
      forall c | c in cs && cs[c].parent != ""
        ensures Ends(cs, c)
      {
        EndsWithin(cs, c);
      }
    }
  }

  lemma CycleNeverEnds(cs: Classes, c: string, k: nat)
    requires c in cs && c != "" && k > 0 && Up(cs, c, k) == c
    ensures cs[c].parent != "" && !Ends(cs, c)
  {
    forall n: nat ensures Up(cs, c, n) != "" {
      RepeatNeverEnds(cs, c, 0, k, n);
    }
    assert Up(cs, c, 1) == cs[c].parent;
  }

  lemma EndsWithin(cs: Classes, c: string)
    requires ParentsDeclared(cs) && Acyclic(cs) && c in cs
    ensures Up(cs, c, |cs|) == ""
  {
    if Up(cs, c, |cs|) != "" {
      WalkedSize(cs, c, |cs|);
      Subsets(Walked(cs, c, |cs| + 1), cs.Keys);
    }
  }

  // ---------- The depth cap ----------

  // ancestor lies somewhere above c, or is c.
  ghost predicate Reaches(cs: Classes, c: string, ancestor: string) {
    exists k: nat :: ReachedAt(cs, c, ancestor, k)
  }

  predicate ChainsFit(cs: Classes) {
    forall c | c in cs :: Up(cs, c, MAX_DEPTH) == ""
  }

  ghost predicate WalkIsReachability(cs: Classes) {
    forall c, a | c in cs && a in cs && a != "" :: IsSubclassOf(cs, c, a) <==> Reaches(cs, c, a)
  }

  // On a valid hierarchy the capped walk decides reachability if and only if no
  // chain holds more than MAX_DEPTH classes.
  lemma WalkExactIffChainsFit(cs: Classes)
    requires ParentsDeclared(cs) && Acyclic(cs)
    ensures WalkIsReachability(cs) <==> ChainsFit(cs)
  {
    if ChainsFit(cs) {
      forall c, a | c in cs && a in cs && a != ""
        ensures IsSubclassOf(cs, c, a) <==> Reaches(cs, c, a)
      {
        FittingWalk(cs, c, a);
      }
    }
    if !ChainsFit(cs) {
      var c :| c in cs && Up(cs, c, MAX_DEPTH) != "";
      var top := Up(cs, c, MAX_DEPTH);
      ChainDeclared(cs, c, MAX_DEPTH);
      assert ReachedAt(cs, c, top, MAX_DEPTH);
      var d := Distance(cs, c, top);
      if d.Some? {
        UpAdds(cs, c, d.value, MAX_DEPTH - d.value);
      }
    }
  }

  lemma FittingWalk(cs: Classes, c: string, a: string)
    requires c in cs && Up(cs, c, MAX_DEPTH) == ""
    ensures IsSubclassOf(cs, c, a) <==> Reaches(cs, c, a)
  {
    if Reaches(cs, c, a) {
      var k: nat :| ReachedAt(cs, c, a, k);
      if k >= MAX_DEPTH {
        UpStaysAbove(cs, c, MAX_DEPTH, k);
      }
    }
  }

  // Within the cap, being a subclass is a partial order on the declared classes.
  lemma SubclassIsPartialOrder(cs: Classes, a: string, b: string, c: string)
    requires ParentsDeclared(cs) && Acyclic(cs) && ChainsFit(cs)
    requires a in cs && b in cs && c in cs && a != "" && b != "" && c != ""
    ensures IsSubclassOf(cs, a, a)
    ensures IsSubclassOf(cs, a, b) && IsSubclassOf(cs, b, a) ==> a == b
    ensures IsSubclassOf(cs, a, b) && IsSubclassOf(cs, b, c) ==> IsSubclassOf(cs, a, c)
  {
    assert ReachedAt(cs, a, a, 0);
    FittingWalk(cs, a, a);
    var ab, ba, bc := Distance(cs, a, b), Distance(cs, b, a), Distance(cs, b, c);
    if ab.Some? && ba.Some? {
      UpAdds(cs, a, ab.value, ba.value);
    }
    if ab.Some? && bc.Some? {
      UpAdds(cs, a, ab.value, bc.value);
      assert ReachedAt(cs, a, c, ab.value + bc.value);
      FittingWalk(cs, a, c);
    }
  }

  // ---------- Distance as a chain of declarations ----------

  // Each class of the path declares the next one as its parent.
  predicate DeclaredChain(cs: Classes, path: seq<string>) {
    && path != [] && (forall k | 0 <= k < |path| :: path[k] != "")
    && forall k | 0 <= k < |path| - 1 :: path[k] in cs && cs[path[k]].parent == path[k + 1]
  }

  lemma {:induction false} ChainIsWalk(cs: Classes, path: seq<string>, k: nat)
    requires DeclaredChain(cs, path) && k < |path|
    ensures Up(cs, path[0], k) == path[k]
  {
    if k > 0 {
      ChainIsWalk(cs, path, k - 1);
    }
  }

  lemma {:induction false} WalkIsChain(cs: Classes, c: string, k: nat) returns (path: seq<string>)
    requires Up(cs, c, k) != ""
    ensures DeclaredChain(cs, path) && |path| == k + 1 && path[0] == c && path[k] == Up(cs, c, k)
  {
    if k == 0 {
      path := [c];
    } else {
      path := WalkIsChain(cs, c, k - 1);
      path := path + [Up(cs, c, k)];
    }
  }

  // The distance is the length of a chain of declared parents from class to ancestor, and
  // none is shorter.
  lemma DistanceIsAChain(cs: Classes, cls: string, ancestor: string) returns (path: seq<string>)
    requires Distance(cs, cls, ancestor).Some?
    ensures DeclaredChain(cs, path) && path[0] == cls && path[|path| - 1] == ancestor
    ensures |path| == Distance(cs, cls, ancestor).value + 1 <= 16
  {
    path := WalkIsChain(cs, cls, Distance(cs, cls, ancestor).value);
  }

  // Every chain of up to sixteen classes is found.
  lemma ChainIsFound(cs: Classes, path: seq<string>)
    requires DeclaredChain(cs, path) && |path| <= 16
    ensures IsSubclassOf(cs, path[0], path[|path| - 1])
    ensures Distance(cs, path[0], path[|path| - 1]).value < |path|
  {
    ChainIsWalk(cs, path, |path| - 1);
    assert ReachedAt(cs, path[0], path[|path| - 1], |path| - 1);
  }
}
