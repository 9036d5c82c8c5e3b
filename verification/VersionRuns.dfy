// What every run of the version tables keeps: one active row per scope, versions
// 1..n without a gap, stored content for ever, and other scopes as they were.
module VersionRuns {
  import opened Options
  import opened Versions

  datatype Action<C> =
    | Publish(scope: Option<string>, content: C, accepted: bool, pushed: bool, fault: Fault)
    | Rollback(scope: Option<string>, version: nat, fault: Fault)
    | ClearOverride(line: string, fault: Fault)
    | MarkPushed(id: nat, fault: Fault)

  // Overrides are cleared only on the model table, which has no rollback.
  predicate Offers<C>(kind: Kind, a: Action<C>) {
    match a
    case Publish(_, _, _, _, _) => true
    case Rollback(_, _, _) => !kind.Models?
    case ClearOverride(_, _) => kind.Models?
    case MarkPushed(_, _) => !kind.Ontologies?
  }

  function Step<C>(kind: Kind, t: Table<C>, a: Action<C>): Table<C> {
    match a
    case Publish(scope, content, accepted, pushed, fault) => Published(t, scope, content, accepted, pushed, fault).0
    case Rollback(scope, version, fault) => RolledBack(t, scope, version, kind.Prompts?, fault).0
    case ClearOverride(line, fault) => OverrideCleared(t, line, fault).0
    case MarkPushed(id, fault) => PushMarked(t, id, fault).0
  }

  function After<C>(kind: Kind, t: Table<C>, acts: seq<Action<C>>, n: nat): Table<C>
    requires n <= |acts|
  {
    if n == 0 then t else Step(kind, After(kind, t, acts, n - 1), acts[n - 1])
  }

  // ---------- The invariant ----------

  ghost predicate Numbered<C>(rows: seq<Row<C>>) {
    forall i :: 0 <= i < |rows| ==> rows[i].version == Count(rows, i, rows[i].scope) + 1
  }

  // A scope that has a row has an active one.
  ghost predicate SomeActive<C>(rows: seq<Row<C>>) {
    forall i :: 0 <= i < |rows| ==> ActiveRow(rows, rows[i].scope).Some?
  }

  ghost predicate FreshIds<C>(t: Table<C>) {
    && (forall i :: 0 <= i < |t.rows| ==> t.rows[i].id < t.nextId)
    && (forall i, j :: 0 <= i < j < |t.rows| ==> t.rows[i].id != t.rows[j].id)
  }

  ghost predicate Sound<C>(kind: Kind, t: Table<C>) {
    && Numbered(t.rows)
    && OneActive(t.rows)
    && (!kind.Models? ==> SomeActive(t.rows))
    && FreshIds(t)
  }

  // What a row was inserted with stays: id, scope, version and content.
  ghost predicate Extends<C>(a: seq<Row<C>>, b: seq<Row<C>>) {
    && |a| <= |b|
    && forall i :: 0 <= i < |a| ==>
         a[i].id == b[i].id && a[i].scope == b[i].scope && a[i].version == b[i].version && a[i].content == b[i].content
  }

  lemma {:induction false} CountOfExtension<C>(a: seq<Row<C>>, b: seq<Row<C>>, n: nat, scope: Option<string>)
    requires Extends(a, b) && n <= |a|
    ensures Count(b, n, scope) == Count(a, n, scope)
  {
    if n > 0 {
      CountOfExtension(a, b, n - 1, scope);
    }
  }

  lemma {:induction false} CountGrows<C>(rows: seq<Row<C>>, m: nat, n: nat, scope: Option<string>)
    requires m <= n <= |rows|
    ensures Count(rows, m, scope) <= Count(rows, n, scope)
  {
    if m < n {
      CountGrows(rows, m, n - 1, scope);
    }
  }

  lemma {:induction false} CountOfFold<C>(rows: seq<Row<C>>, n: nat, s: Option<string>, s': Option<string>)
    requires n <= |rows| && Fold(s) == Fold(s')
    ensures Count(rows, n, s) == Count(rows, n, s')
  {
    if n > 0 {
      CountOfFold(rows, n - 1, s, s');
    }
  }

  lemma NumberedAt<C>(rows: seq<Row<C>>, i: nat, scope: Option<string>)
    requires Numbered(rows) && i < |rows| && In(rows[i], scope)
    ensures rows[i].version == Count(rows, i, scope) + 1
  {
    CountOfFold(rows, i, rows[i].scope, scope);
  }

  // MAX(version) is the number of rows the scope has.
  lemma {:induction false} LatestIsCount<C>(rows: seq<Row<C>>, n: nat, scope: Option<string>)
    requires Numbered(rows) && n <= |rows|
    ensures Latest(rows, n, scope) == Count(rows, n, scope)
  {
    hide Numbered;
    if n > 0 {
      LatestIsCount(rows, n - 1, scope);
      if In(rows[n - 1], scope) {
        NumberedAt(rows, n - 1, scope);
      }
    }
  }

  // Within a scope later rows have higher versions.
  lemma VersionsIncrease<C>(rows: seq<Row<C>>, i: nat, j: nat)
    requires Numbered(rows) && i < j < |rows| && In(rows[i], rows[j].scope)
    ensures rows[i].version < rows[j].version
  {
    hide Numbered;
    NumberedAt(rows, i, rows[j].scope);
    NumberedAt(rows, j, rows[j].scope);
    CountGrows(rows, i + 1, j, rows[j].scope);
  }

  lemma VersionNamesOneRow<C>(rows: seq<Row<C>>, i: nat, j: nat, scope: Option<string>, version: nat)
    requires Numbered(rows) && i < |rows| && j < |rows|
    requires Names(rows[i], scope, version) && Names(rows[j], scope, version)
    ensures i == j
  {
    if i < j {
      VersionsIncrease(rows, i, j);
    } else if j < i {
      VersionsIncrease(rows, j, i);
    }
  }

  lemma {:induction false} EveryVersionIsThere<C>(rows: seq<Row<C>>, n: nat, scope: Option<string>, v: nat)
    returns (i: nat)
    requires Numbered(rows) && n <= |rows| && 1 <= v <= Count(rows, n, scope)
    ensures i < n && Names(rows[i], scope, v)
  {
    hide Numbered, Fold;
    if In(rows[n - 1], scope) && v == Count(rows, n, scope) {
      i := n - 1;
      NumberedAt(rows, n - 1, scope);
    } else {
      i := EveryVersionIsThere(rows, n - 1, scope, v);
    }
  }

  // The versions of a scope are exactly 1..n, n being its number of rows, each once.
  lemma VersionsAreOneToN<C>(rows: seq<Row<C>>, scope: Option<string>, v: nat)
    requires Numbered(rows)
    ensures Has(rows, scope, v) <==> 1 <= v <= Count(rows, |rows|, scope)
    ensures forall i, j | 0 <= i < |rows| && 0 <= j < |rows| && Names(rows[i], scope, v) && Names(rows[j], scope, v) ::
              i == j
  {
    hide Numbered;
    if 1 <= v <= Count(rows, |rows|, scope) {
      var i := EveryVersionIsThere(rows, |rows|, scope, v);
    }
    if Has(rows, scope, v) {
      var i :| 0 <= i < |rows| && Names(rows[i], scope, v);
      NumberedAt(rows, i, scope);
      CountGrows(rows, i + 1, |rows|, scope);
    }
    forall i, j | 0 <= i < |rows| && 0 <= j < |rows| && Names(rows[i], scope, v) && Names(rows[j], scope, v)
      ensures i == j
    {
      VersionNamesOneRow(rows, i, j, scope, v);
    }
  }

  // ---------- One step ----------

  lemma NumberedExtension<C>(a: seq<Row<C>>, b: seq<Row<C>>)
    requires Numbered(a) && Extends(a, b) && |a| == |b|
    ensures Numbered(b)
  {
    forall i | 0 <= i < |b|
      ensures b[i].version == Count(b, i, b[i].scope) + 1
    {
      NumberedAt(a, i, a[i].scope);
      CountOfExtension(a, b, i, b[i].scope);
    }
  }

  lemma NewRowsAt<C>(t: Table<C>, b: seq<Row<C>>, i: nat)
    requires Numbered(t.rows) && Extends(t.rows, b) && |b| == |t.rows| + 1 && i < |b|
    requires b[|t.rows|].version == Latest(t.rows, |t.rows|, b[|t.rows|].scope) + 1
    ensures b[i].version == Count(b, i, b[i].scope) + 1
  {
    hide Numbered, Count, Latest;
    CountOfExtension(t.rows, b, i, b[i].scope);
    if i < |t.rows| {
      NumberedAt(t.rows, i, t.rows[i].scope);
    } else {
      LatestIsCount(t.rows, |t.rows|, b[i].scope);
    }
  }

  lemma NewRowIsNumbered<C>(t: Table<C>, a: seq<Row<C>>, row: Row<C>)
    requires Numbered(t.rows) && Extends(t.rows, a) && |a| == |t.rows|
    requires row.version == Latest(t.rows, |t.rows|, row.scope) + 1
    ensures Numbered(a + [row])
  {
    var b := a + [row];
    assert Extends(t.rows, b);
    forall i | 0 <= i < |b|
      ensures b[i].version == Count(b, i, b[i].scope) + 1
    {
      NewRowsAt(t, b, i);
    }
  }

  // An update that leaves the active flags of a scope alone leaves its active row there.
  lemma {:induction false} ActiveKept<C>(a: seq<Row<C>>, b: seq<Row<C>>, n: nat, scope: Option<string>)
    requires n <= |a| <= |b|
    requires forall i :: 0 <= i < |a| && In(a[i], scope) ==> In(b[i], scope) && b[i].active == a[i].active
    requires forall i :: 0 <= i < |a| && !In(a[i], scope) ==> !In(b[i], scope)
    ensures ActiveUpTo(b, n, scope).Some? <==> ActiveUpTo(a, n, scope).Some?
    ensures (forall i :: 0 <= i < |a| && In(a[i], scope) ==> b[i] == a[i]) ==>
              ActiveUpTo(b, n, scope) == ActiveUpTo(a, n, scope)
  {
    if n > 0 {
      ActiveKept(a, b, n - 1, scope);
    }
  }

  lemma ActiveOfRow<C>(rows: seq<Row<C>>, k: nat, scope: Option<string>)
    requires k < |rows| && In(rows[k], scope) && rows[k].active
    ensures ActiveRow(rows, scope).Some?
  {
    NoActiveRow(rows, |rows|, scope);
  }

  lemma {:induction false} ActiveOfFold<C>(rows: seq<Row<C>>, n: nat, s: Option<string>, s': Option<string>)
    requires n <= |rows| && Fold(s) == Fold(s')
    ensures ActiveUpTo(rows, n, s) == ActiveUpTo(rows, n, s')
  {
    if n > 0 {
      ActiveOfFold(rows, n - 1, s, s');
    }
  }

  lemma PublishPreserves<C>(kind: Kind, t: Table<C>, scope: Option<string>, content: C, accepted: bool,
        pushed: bool, fault: Fault)
    requires Sound(kind, t)
    ensures Sound(kind, Published(t, scope, content, accepted, pushed, fault).0)
    ensures Extends(t.rows, Published(t, scope, content, accepted, pushed, fault).0.rows)
  {
    hide Numbered, Count, Latest, ActiveRow;
    var (t', r) := Published(t, scope, content, accepted, pushed, fault);
    if r.Some? {
      var a := Deactivated(t.rows, scope);
      NewRowIsNumbered(t, a, r.value);
      if !kind.Models? {
        PublishKeepsSomeActive(t, scope, r.value);
      }
    }
  }

  lemma PublishKeepsSomeActive<C>(t: Table<C>, scope: Option<string>, row: Row<C>)
    requires SomeActive(t.rows) && row.scope == scope && row.active
    ensures SomeActive(Deactivated(t.rows, scope) + [row])
  {
    var a := Deactivated(t.rows, scope);
    var b := a + [row];
    forall i | 0 <= i < |b|
      ensures ActiveRow(b, b[i].scope).Some?
    {
      if In(b[i], scope) {
        ActiveOfRow(b, |a|, b[i].scope);
      } else {
        ActiveKept(t.rows, b, |a|, b[i].scope);
      }
    }
  }

  lemma RollbackPreserves<C>(kind: Kind, t: Table<C>, scope: Option<string>, version: nat, clears: bool, fault: Fault)
    requires Sound(kind, t)
    ensures Sound(kind, RolledBack(t, scope, version, clears, fault).0)
    ensures Extends(t.rows, RolledBack(t, scope, version, clears, fault).0.rows)
  {
    hide Numbered, OneActive, SomeActive, Activated, Deactivated, FreshIds, Extends;
    var (t', done) := RolledBack(t, scope, version, clears, fault);
    RollbackExtends(t, scope, version, clears);
    if done {
      var k :| 0 <= k < |t.rows| && Names(t.rows[k], scope, version);
      NumberedExtension(t.rows, t'.rows);
      RollbackActivatesOne(t.rows, scope, version, clears, k);
      if !kind.Models? {
        RollbackKeepsSomeActive(t.rows, scope, version, clears, k);
      }
    }
  }

  lemma RollbackExtends<C>(t: Table<C>, scope: Option<string>, version: nat, clears: bool)
    ensures var b := Activated(Deactivated(t.rows, scope), scope, version, clears);
            Extends(t.rows, t.rows) && Extends(t.rows, b) && (FreshIds(t) ==> FreshIds(t.(rows := b)))
  {
  }

  // After a rollback the named row is the only active one of its scope.
  lemma RollbackActivatesOne<C>(rows: seq<Row<C>>, scope: Option<string>, version: nat, clears: bool, k: nat)
    requires Numbered(rows) && OneActive(rows) && k < |rows| && Names(rows[k], scope, version)
    ensures var b := Activated(Deactivated(rows, scope), scope, version, clears);
            && OneActive(b)
            && forall i :: 0 <= i < |rows| && In(rows[i], scope) ==> (b[i].active <==> i == k)
  {
    hide Numbered, Count;
    var b := Activated(Deactivated(rows, scope), scope, version, clears);
    forall i | 0 <= i < |rows| && In(rows[i], scope)
      ensures b[i].active <==> i == k
    {
      if Names(rows[i], scope, version) {
        VersionNamesOneRow(rows, i, k, scope, version);
      }
    }
  }

  lemma RollbackKeepsSomeActive<C>(rows: seq<Row<C>>, scope: Option<string>, version: nat, clears: bool, k: nat)
    requires SomeActive(rows) && k < |rows| && Names(rows[k], scope, version)
    ensures SomeActive(Activated(Deactivated(rows, scope), scope, version, clears))
  {
    var b := Activated(Deactivated(rows, scope), scope, version, clears);
    forall i | 0 <= i < |b|
      ensures ActiveRow(b, b[i].scope).Some?
    {
      if In(b[i], scope) {
        ActiveOfRow(b, k, b[i].scope);
      } else {
        ActiveKept(rows, b, |rows|, b[i].scope);
      }
    }
  }

  lemma ClearPreserves<C>(t: Table<C>, line: string, fault: Fault)
    requires Sound(Models, t)
    ensures Sound(Models, OverrideCleared(t, line, fault).0)
    ensures Extends(t.rows, OverrideCleared(t, line, fault).0.rows)
  {
    NumberedExtension(t.rows, Cleared(t.rows, line));
  }

  lemma MarkPreserves<C>(kind: Kind, t: Table<C>, id: nat, fault: Fault)
    requires Sound(kind, t)
    ensures Sound(kind, PushMarked(t, id, fault).0)
    ensures Extends(t.rows, PushMarked(t, id, fault).0.rows)
  {
    hide Numbered, SomeActive;
    NumberedExtension(t.rows, Marked(t.rows, id));
    if !kind.Models? {
      MarkKeepsSomeActive(t.rows, id);
    }
  }

  lemma MarkKeepsSomeActive<C>(rows: seq<Row<C>>, id: nat)
    requires SomeActive(rows)
    ensures SomeActive(Marked(rows, id))
  {
    var b := Marked(rows, id);
    forall i | 0 <= i < |b|
      ensures ActiveRow(b, b[i].scope).Some?
    {
      ActiveKept(rows, b, |b|, b[i].scope);
    }
  }

  lemma StepPreserves<C>(kind: Kind, t: Table<C>, a: Action<C>)
    requires Sound(kind, t) && Offers(kind, a)
    ensures Sound(kind, Step(kind, t, a))
    ensures Extends(t.rows, Step(kind, t, a).rows)
  {
    hide Sound, Extends;
    match a
    case Publish(scope, content, accepted, pushed, fault) =>
      PublishPreserves(kind, t, scope, content, accepted, pushed, fault);
    case Rollback(scope, version, fault) => RollbackPreserves(kind, t, scope, version, kind.Prompts?, fault);
    case ClearOverride(line, fault) => ClearPreserves(t, line, fault);
    case MarkPushed(id, fault) => MarkPreserves(kind, t, id, fault);
  }

  // ---------- Whole runs ----------

  ghost predicate AllOffered<C>(kind: Kind, acts: seq<Action<C>>) {
    forall i :: 0 <= i < |acts| ==> Offers(kind, acts[i])
  }

  lemma {:induction false} SoundOverRuns<C>(kind: Kind, t: Table<C>, acts: seq<Action<C>>, n: nat)
    requires Sound(kind, t) && AllOffered(kind, acts) && n <= |acts|
    ensures Sound(kind, After(kind, t, acts, n))
    ensures Extends(t.rows, After(kind, t, acts, n).rows)
  {
    hide Sound;
    if n > 0 {
      SoundOverRuns(kind, t, acts, n - 1);
      StepPreserves(kind, After(kind, t, acts, n - 1), acts[n - 1]);
    }
  }

  lemma OnlyOneActive<C>(t: Table<C>, scope: Option<string>, i: nat, j: nat)
    requires OneActive(t.rows) && FreshIds(t) && i < |t.rows| && j < |t.rows|
    requires In(t.rows[i], scope) && In(t.rows[j], scope) && t.rows[i].active && t.rows[j].active
    ensures i == j
  {
  }

  lemma SomeActiveInScope<C>(rows: seq<Row<C>>, scope: Option<string>, i: nat)
    requires SomeActive(rows) && i < |rows| && In(rows[i], scope)
    ensures exists k :: 0 <= k < |rows| && In(rows[k], scope) && rows[k].active
  {
    ActiveOfFold(rows, |rows|, rows[i].scope, scope);
    var k := ActiveComesFromARow(rows, |rows|, scope);
  }

  // In every run from empty tables: at most one row of a scope is active, one is as
  // soon as a prompt or an ontology row exists, and the versions are exactly 1..n.
  lemma EveryRunIsSound<C>(kind: Kind, acts: seq<Action<C>>, scope: Option<string>, v: nat)
    requires AllOffered(kind, acts)
    ensures var rows := After(kind, Table([], 0), acts, |acts|).rows;
            && (forall i, j | 0 <= i < |rows| && 0 <= j < |rows| && In(rows[i], scope) && In(rows[j], scope)
                              && rows[i].active && rows[j].active :: i == j)
            && (!kind.Models? && (exists i :: 0 <= i < |rows| && In(rows[i], scope)) ==>
                  exists k :: 0 <= k < |rows| && In(rows[k], scope) && rows[k].active)
            && (Has(rows, scope, v) <==> 1 <= v <= Count(rows, |rows|, scope))
  {
    hide After, Numbered, OneActive, SomeActive, FreshIds, Has, Count, AllOffered;
    StartsSound<C>(kind);
    SoundOverRuns(kind, Table([], 0), acts, |acts|);
    var t := After(kind, Table([], 0), acts, |acts|);
    VersionsAreOneToN(t.rows, scope, v);
    forall i, j | 0 <= i < |t.rows| && 0 <= j < |t.rows| && In(t.rows[i], scope) && In(t.rows[j], scope)
                  && t.rows[i].active && t.rows[j].active
      ensures i == j
    {
      OnlyOneActive(t, scope, i, j);
    }
    if !kind.Models? && exists i :: 0 <= i < |t.rows| && In(t.rows[i], scope) {
      var i :| 0 <= i < |t.rows| && In(t.rows[i], scope);
      SomeActiveInScope(t.rows, scope, i);
    }
  }

  lemma StartsSound<C>(kind: Kind)
    ensures Sound<C>(kind, Table([], 0))
  {
  }

  // ---------- Other scopes ----------

  // Whether an action is addressed to a scope; MarkPushed is, through the row it names.
  ghost predicate Touches<C>(t: Table<C>, a: Action<C>, scope: Option<string>) {
    match a
    case Publish(s, _, _, _, _) => Fold(s) == Fold(scope)
    case Rollback(s, _, _) => Fold(s) == Fold(scope)
    case ClearOverride(line, _) => line == Fold(scope)
    case MarkPushed(id, _) => exists i :: 0 <= i < |t.rows| && t.rows[i].id == id && In(t.rows[i], scope)
  }

  // The rows of a scope are the same rows, and nothing was added to it.
  ghost predicate SameScope<C>(a: seq<Row<C>>, b: seq<Row<C>>, scope: Option<string>) {
    && |a| <= |b|
    && (forall i :: 0 <= i < |a| && In(a[i], scope) ==> b[i] == a[i])
    && (forall i :: 0 <= i < |a| && !In(a[i], scope) ==> !In(b[i], scope))
    && (forall i :: |a| <= i < |b| ==> !In(b[i], scope))
  }

  lemma StepLeavesOtherScopes<C>(kind: Kind, t: Table<C>, a: Action<C>, scope: Option<string>)
    requires !Touches(t, a, scope)
    ensures SameScope(t.rows, Step(kind, t, a).rows, scope)
  {
    hide Latest, SameScope;
    SameScopeItself(t.rows, scope);
    match a
    case Publish(s, content, accepted, pushed, fault) =>
      DeactivateLeaves(t.rows, s, scope, NewRow(t, s, content, pushed));
    case Rollback(s, version, fault) =>
      ActivateLeaves(t.rows, s, scope, version, kind.Prompts?);
    case ClearOverride(line, fault) =>
      ClearLeaves(t.rows, line, scope);
    case MarkPushed(id, fault) =>
      MarkLeaves(t.rows, id, scope);
  }

  lemma DeactivateLeaves<C>(rows: seq<Row<C>>, s: Option<string>, scope: Option<string>, row: Row<C>)
    requires Fold(s) != Fold(scope) && row.scope == s
    ensures SameScope(rows, Deactivated(rows, s) + [row], scope)
  {
  }

  lemma ActivateLeaves<C>(rows: seq<Row<C>>, s: Option<string>, scope: Option<string>, version: nat, clears: bool)
    requires Fold(s) != Fold(scope)
    ensures SameScope(rows, Activated(Deactivated(rows, s), s, version, clears), scope)
  {
  }

  lemma ClearLeaves<C>(rows: seq<Row<C>>, line: string, scope: Option<string>)
    requires line != Fold(scope)
    ensures SameScope(rows, Cleared(rows, line), scope)
  {
    forall i | 0 <= i < |rows| && In(rows[i], scope)
      ensures Cleared(rows, line)[i] == rows[i]
    {
      assert rows[i].scope != Some(line);
    }
  }

  lemma MarkLeaves<C>(rows: seq<Row<C>>, id: nat, scope: Option<string>)
    requires forall i :: 0 <= i < |rows| && rows[i].id == id ==> !In(rows[i], scope)
    ensures SameScope(rows, Marked(rows, id), scope)
  {
  }

  // A run that never addresses a scope leaves every row of it as it was, and the
  // row it is on.
  lemma {:induction false} RunLeavesOtherScopes<C>(kind: Kind, t: Table<C>, acts: seq<Action<C>>, n: nat,
        scope: Option<string>)
    requires n <= |acts|
    requires forall i :: 0 <= i < n ==> !Touches(After(kind, t, acts, i), acts[i], scope)
    ensures SameScope(t.rows, After(kind, t, acts, n).rows, scope)
    ensures ActiveRow(After(kind, t, acts, n).rows, scope) == ActiveRow(t.rows, scope)
  {
    hide Touches, SameScope, Step, ActiveRow;
    SameScopeItself(t.rows, scope);
    if n > 0 {
      var b := After(kind, t, acts, n - 1);
      var c := Step(kind, b, acts[n - 1]);
      RunLeavesOtherScopes(kind, t, acts, n - 1, scope);
      StepLeavesOtherScopes(kind, b, acts[n - 1], scope);
      SameScopeChains(t.rows, b.rows, c.rows, scope);
      SameScopeSameActiveRow(b.rows, c.rows, scope);
    }
  }

  lemma SameScopeItself<C>(a: seq<Row<C>>, scope: Option<string>)
    ensures SameScope(a, a, scope)
  {
  }

  lemma SameScopeChains<C>(a: seq<Row<C>>, b: seq<Row<C>>, c: seq<Row<C>>, scope: Option<string>)
    requires SameScope(a, b, scope) && SameScope(b, c, scope)
    ensures SameScope(a, c, scope)
  {
  }

  lemma SameScopeSameActiveRow<C>(a: seq<Row<C>>, b: seq<Row<C>>, scope: Option<string>)
    requires SameScope(a, b, scope)
    ensures ActiveRow(b, scope) == ActiveRow(a, scope)
  {
    SameScopeSameActive(a, b, |b|, scope);
  }

  lemma {:induction false} SameScopeSameActive<C>(a: seq<Row<C>>, b: seq<Row<C>>, n: nat, scope: Option<string>)
    requires SameScope(a, b, scope) && |a| <= n <= |b|
    ensures ActiveUpTo(b, n, scope) == ActiveRow(a, scope)
  {
    if n > |a| {
      SameScopeSameActive(a, b, n - 1, scope);
    } else {
      ActiveKept(a, b, n, scope);
    }
  }

  // ---------- What the operations mean for the active row ----------

  // A publish puts the scope on the new row.
  lemma PublishIsActive<C>(t: Table<C>, scope: Option<string>, content: C, pushed: bool)
    requires scope != Some("")
    ensures var (t', r) := Published(t, scope, content, true, pushed, NoFault);
            r.Some? && ActiveRow(t'.rows, scope) == r && r.value.content == content && r.value.pushed == pushed
  {
  }

  // A rollback puts the scope on the stored row of that version, its content unchanged.
  lemma RollbackIsActive<C>(kind: Kind, t: Table<C>, scope: Option<string>, version: nat, clears: bool, k: nat)
    requires Sound(kind, t) && scope != Some("") && k < |t.rows| && Names(t.rows[k], scope, version)
    ensures var (t', done) := RolledBack(t, scope, version, clears, NoFault);
            done && ActiveRow(t'.rows, scope) == Some(t.rows[k].(active := true, pushed := !clears && t.rows[k].pushed))
  {
    hide Count, Latest, Numbered;
    RollbackActivatesOne(t.rows, scope, version, clears, k);
    var b := Activated(Deactivated(t.rows, scope), scope, version, clears);
    ActiveIsTheOne(b, |b|, k, scope);
  }

  // Publishing and rolling back returns the scope to the row it was on. On the
  // prompt table that row is then waiting to be projected again.
  lemma RollbackUndoesPublish<C>(kind: Kind, t: Table<C>, scope: Option<string>, content: C, pushed: bool, k: nat)
    requires Sound(kind, t) && scope != Some("") && k < |t.rows| && ActiveRow(t.rows, scope) == Some(t.rows[k])
    requires In(t.rows[k], scope)
    ensures var t1 := Published(t, scope, content, true, pushed, NoFault).0;
            var (t2, done) := RolledBack(t1, scope, t.rows[k].version, kind.Prompts?, NoFault);
            done && ActiveRow(t2.rows, scope) == Some(t.rows[k].(pushed := !kind.Prompts? && t.rows[k].pushed))
  {
    hide Count, Latest, Numbered, Sound, ActiveRow;
    var t1 := Published(t, scope, content, true, pushed, NoFault).0;
    PublishPreserves(kind, t, scope, content, true, pushed, NoFault);
    assert Names(t1.rows[k], scope, t.rows[k].version);
    RollbackIsActive(kind, t1, scope, t.rows[k].version, kind.Prompts?, k);
    ActiveRowIsActive(t.rows, scope);
  }

  lemma ActiveRowIsActive<C>(rows: seq<Row<C>>, scope: Option<string>)
    requires ActiveRow(rows, scope).Some?
    ensures ActiveRow(rows, scope).value.active && In(ActiveRow(rows, scope).value, scope)
  {
    var k := ActiveComesFromARow(rows, |rows|, scope);
  }

  // Clearing an override leaves the line without an active row and the platform
  // on the row it was on, except for the id that folds onto the platform's key.
  lemma ClearReturnsToPlatform<C>(t: Table<C>, line: string)
    requires line != "" && line != NIL_UUID
    ensures var t' := OverrideCleared(t, line, NoFault).0;
            ActiveRow(t'.rows, Some(line)).None? && ActiveRow(t'.rows, None) == ActiveRow(t.rows, None)
  {
    var t' := OverrideCleared(t, line, NoFault).0;
    NoActiveRow(t'.rows, |t'.rows|, Some(line));
    ActiveKept(t.rows, t'.rows, |t.rows|, None);
  }

  // A mark touches pushed_at of the row it names and leaves every scope on its row.
  lemma {:induction false} MarkedActive<C>(rows: seq<Row<C>>, n: nat, id: nat, scope: Option<string>)
    requires n <= |rows|
    ensures ActiveUpTo(Marked(rows, id), n, scope) ==
            match ActiveUpTo(rows, n, scope)
            case None => None
            case Some(r) => Some(if r.id == id then r.(pushed := true) else r)
  {
    if n > 0 {
      MarkedActive(rows, n - 1, id, scope);
    }
  }

  // A projection that finishes late marks its own row: when that row is no longer
  // the active one, no scope's active row changes.
  lemma LateMarkIsHarmless<C>(kind: Kind, t: Table<C>, k: nat, scope: Option<string>)
    requires Sound(kind, t) && k < |t.rows| && !t.rows[k].active
    ensures ActiveRow(PushMarked(t, t.rows[k].id, NoFault).0.rows, scope) == ActiveRow(t.rows, scope)
  {
    hide Numbered, SomeActive, OneActive;
    MarkedActive(t.rows, |t.rows|, t.rows[k].id, scope);
    if ActiveRow(t.rows, scope).Some? {
      var j := ActiveComesFromARow(t.rows, |t.rows|, scope);
      assert j != k;
    }
  }

  // A transaction that fails at any point leaves the rows as they were and says so; one
  // that does not tells whether it found what it was to change.
  lemma TransactionsAreWhole<C>(t: Table<C>, scope: Option<string>, content: C, accepted: bool, pushed: bool,
        version: nat, clears: bool, line: string, id: nat, fault: Fault)
    ensures fault != NoFault ==>
              && Published(t, scope, content, accepted, pushed, fault).1.None?
              && Published(t, scope, content, accepted, pushed, fault).0.rows == t.rows
              && RolledBack(t, scope, version, clears, fault) == (t, false)
              && OverrideCleared(t, line, fault) == (t, false)
              && PushMarked(t, id, fault) == (t, false)
    ensures Published(t, scope, content, accepted, pushed, NoFault).1.Some? <==> accepted && scope != Some("")
    ensures RolledBack(t, scope, version, clears, NoFault).1 <==>
              scope != Some("") && exists k :: 0 <= k < |t.rows| && Names(t.rows[k], scope, version)
    ensures OverrideCleared(t, line, NoFault).1 <==>
              line != "" && exists k :: 0 <= k < |t.rows| && t.rows[k].scope == Some(line) && t.rows[k].active
    ensures PushMarked(t, id, NoFault).1 <==> exists k :: 0 <= k < |t.rows| && t.rows[k].id == id
  {
    hide Latest, Deactivated, Activated, Cleared, Marked;
  }
}
