// Over every run of pushes, saves, resets, rollbacks, seeds, provisionings and
// edits made in Dify itself, each failing wherever it may, an active revision
// with pushed_at set holds the text the console last sent to, or read from, Dify.
module PromptSafety {
  import opened Options
  import opened Versions
  import opened PromptPush
  import VersionRuns
  import Text

  datatype Action =
    | Push(line: Line, template: string, c: Calls)
    | SavePrompt(line: Line, body: string, meetsContract: bool, c: Calls)
    | ResetPrompt(line: Line, template: string, c: Calls)
    | RollBack(line: Line, version: nat, meetsContract: bool, c: Calls)
    | SeedLine(line: Line, c: Calls)
    | Bind(line: Line, app: App, initial: string, template: string, c: Calls)
    | Edit(app: App, text: string)

  function Step(w: World, a: Action, clears: bool): World {
    match a
    case Push(line, template, c) => PushTemplate(w, line, template, c).0
    case SavePrompt(line, body, meets, c) => Save(w, line, body, meets, c).0
    case ResetPrompt(line, template, c) => Reset(w, line, template, c).0
    case RollBack(line, version, meets, c) => Rollback(w, line, version, meets, clears, c).0
    case SeedLine(line, c) => Seed(w, line, c)
    case Bind(line, app, initial, template, c) => Provision(w, line, app, initial, template, c)
    case Edit(app, text) => HandEdit(w, app, text)
  }

  function After(w: World, acts: seq<Action>, n: nat, clears: bool): World
    requires n <= |acts|
  {
    if n == 0 then w else Step(After(w, acts, n - 1, clears), acts[n - 1], clears)
  }

  const START := World(Table([], 0), map[], map[], map[])

  // ---------- The invariant ----------

  // What a line's pushed_at promises.
  predicate Honest(w: World, line: Line) {
    line in w.bound && OnRow(w, line).Some? && OnRow(w, line).value.pushed ==>
      w.bound[line] in w.put && w.put[w.bound[line]] == OnRow(w, line).value.content
  }

  predicate OneAppEach(w: World) {
    && (forall line :: line in w.bound ==> line != "" && w.bound[line] in w.live)
    && (forall a, b :: a in w.bound && b in w.bound && w.bound[a] == w.bound[b] ==> a == b)
  }

  // Only lines with an app have revisions.
  predicate RowsAreBound(w: World) {
    forall i :: 0 <= i < |w.table.rows| ==>
      w.table.rows[i].scope.Some? && w.table.rows[i].scope.value in w.bound
  }

  ghost predicate AllHonest(w: World) { forall line :: line in w.bound ==> Honest(w, line) }

  ghost predicate Inv(w: World) {
    VersionRuns.Sound(Prompts, w.table) && OneAppEach(w) && RowsAreBound(w) && AllHonest(w)
  }

  // ---------- Storing ----------

  // A publish to one line moves no other line's active revision.
  lemma PublishElsewhere(t: Table<string>, line: Line, other: Line, body: string, accepted: bool,
        pushed: bool, fault: Fault)
    requires line != other
    ensures ActiveRow(Published(t, Some(line), body, accepted, pushed, fault).0.rows, Some(other)) ==
            ActiveRow(t.rows, Some(other))
  {
    hide ActiveRow, Published, VersionRuns.SameScope;
    var a := VersionRuns.Publish(Some(line), body, accepted, pushed, fault);
    VersionRuns.StepLeavesOtherScopes(Prompts, t, a, Some(other));
    VersionRuns.SameScopeSameActiveRow(t.rows, VersionRuns.Step(Prompts, t, a).rows, Some(other));
  }

  lemma RollbackElsewhere(t: Table<string>, line: Line, other: Line, version: nat, clears: bool, fault: Fault)
    requires line != other
    ensures ActiveRow(RolledBack(t, Some(line), version, clears, fault).0.rows, Some(other)) ==
            ActiveRow(t.rows, Some(other))
  {
    hide ActiveRow, VersionRuns.SameScope, Activated, Deactivated;
    if fault == NoFault {
      VersionRuns.ActivateLeaves(t.rows, Some(line), Some(other), version, clears);
      var rows := Activated(Deactivated(t.rows, Some(line)), Some(line), version, clears);
      VersionRuns.SameScopeSameActiveRow(t.rows, rows, Some(other));
    }
  }

  lemma StorePreserves(w: World, line: Line, body: string, pushed: bool, fault: Fault)
    requires Inv(w) && line in w.bound
    requires pushed ==> w.bound[line] in w.put && w.put[w.bound[line]] == body
    ensures var (w', r) := Store(w, line, body, pushed, fault);
            && Inv(w')
            && (r.Some? ==> OnRow(w', line) == r && r.value.content == body)
            && (r.None? ==> w'.table.rows == w.table.rows)
  {
    hide VersionRuns.Sound, VersionRuns.Extends, ActiveRow, Latest;
    var (w', r) := Store(w, line, body, pushed, fault);
    VersionRuns.PublishPreserves(Prompts, w.table, Some(line), body, body != "", pushed, fault);
    if r.Some? {
      VersionRuns.PublishIsActive(w.table, Some(line), body, pushed);
    }
    forall other | other in w'.bound
      ensures Honest(w', other)
    {
      assert Honest(w, other);
      if other != line {
        PublishElsewhere(w.table, line, other, body, body != "", pushed, fault);
      }
    }
  }

  // ---------- Projecting ----------

  // Two lines are never on the same row.
  lemma RowsOfTwoLinesDiffer(t: Table<string>, line: Line, other: Line)
    requires VersionRuns.Sound(Prompts, t) && line != other
    requires ActiveRow(t.rows, Some(line)).Some? && ActiveRow(t.rows, Some(other)).Some?
    ensures ActiveRow(t.rows, Some(line)).value.id != ActiveRow(t.rows, Some(other)).value.id
  {
    hide VersionRuns.Numbered, VersionRuns.SomeActive, OneActive;
    var i := ActiveComesFromARow(t.rows, |t.rows|, Some(line));
    var j := ActiveComesFromARow(t.rows, |t.rows|, Some(other));
    assert i != j;
  }

  lemma PutPreserves(w: World, line: Line, text: string, d: Delivery)
    requires Inv(w) && line in w.bound && OnRow(w, line).Some? && OnRow(w, line).value.content == text
    ensures Inv(Put(w, w.bound[line], text, d))
  {
    hide VersionRuns.Sound, ActiveRow;
    var w' := Put(w, w.bound[line], text, d);
    forall other | other in w'.bound
      ensures Honest(w', other)
    {
      assert Honest(w, other);
    }
  }

  lemma ProjectPreserves(w: World, line: Line, row: Row<string>, c: Calls)
    requires Inv(w) && line in w.bound && OnRow(w, line) == Some(row)
    ensures Inv(Project(w, w.bound[line], row, c).0)
    ensures OnRow(Project(w, w.bound[line], row, c).0, line).Some?
    ensures OnRow(Project(w, w.bound[line], row, c).0, line).value.content == row.content
  {
    hide VersionRuns.Sound, VersionRuns.Extends, VersionRuns.FreshIds, AllHonest, OneAppEach, RowsAreBound;
    var w1 := Put(w, w.bound[line], row.content, c.delivery);
    PutPreserves(w, line, row.content, c.delivery);
    if c.delivery.Arrived? {
      MarkPreservesInv(w1, line, row, c.marking);
      VersionRuns.MarkedActive(w1.table.rows, |w1.table.rows|, row.id, Some(line));
    }
  }

  lemma MarkPreservesInv(w: World, line: Line, row: Row<string>, fault: Fault)
    requires Inv(w) && line in w.bound && OnRow(w, line) == Some(row)
    requires w.bound[line] in w.put && w.put[w.bound[line]] == row.content
    ensures Inv(w.(table := PushMarked(w.table, row.id, fault).0))
  {
    hide VersionRuns.Sound, VersionRuns.Extends, VersionRuns.FreshIds;
    var w' := w.(table := PushMarked(w.table, row.id, fault).0);
    VersionRuns.MarkPreserves(Prompts, w.table, row.id, fault);
    assert OneAppEach(w');
    assert RowsAreBound(w');
    forall other | other in w'.bound
      ensures Honest(w', other)
    {
      assert Honest(w, other);
      VersionRuns.MarkedActive(w.table.rows, |w.table.rows|, row.id, Some(other));
      if other != line && OnRow(w, other).Some? {
        RowsOfTwoLinesDiffer(w.table, line, other);
      }
    }
  }

  // ---------- One step ----------

  lemma StoreAndProjectPreserves(w: World, line: Line, body: string, asks: bool, c: Calls)
    requires Inv(w) && line in w.bound
    ensures Inv(StoreAndProject(w, line, body, asks, c).0)
  {
    hide Inv, Store, Project, ActiveRow;
    var (w', r) := StoreRevision(w, line, body, asks, c.storing);
    if !(asks && Reusable(w, line, body)) {
      StorePreserves(w, line, body, false, c.storing);
      StoreKeepsBound(w, line, body, false, c.storing);
    }
    if r.Some? {
      ProjectPreserves(w', line, r.value, c);
    }
  }

  lemma StoreKeepsBound(w: World, line: Line, body: string, pushed: bool, fault: Fault)
    ensures Store(w, line, body, pushed, fault).0.bound == w.bound
  {
  }

  // With pushed_at cleared the reactivated revision promises nothing.
  lemma RollbackPreserves(w: World, line: Line, version: nat, meets: bool, c: Calls)
    requires Inv(w)
    ensures Inv(Rollback(w, line, version, meets, true, c).0)
  {
    hide Inv, Project, RolledBack, Has, ActiveRow;
    if line in w.bound {
      var (t, done) := RolledBack(w.table, Some(line), version, true, c.storing);
      var w' := w.(table := t);
      RolledBackPreserves(w, line, version, c.storing);
      if OnRow(w', line).Some? {
        ProjectPreserves(w', line, OnRow(w', line).value, c);
      }
    }
  }

  lemma RolledBackPreserves(w: World, line: Line, version: nat, fault: Fault)
    requires Inv(w) && line in w.bound
    ensures Inv(w.(table := RolledBack(w.table, Some(line), version, true, fault).0))
  {
    hide VersionRuns.Sound, VersionRuns.Extends, ActiveRow, Activated, Deactivated;
    var (t, done) := RolledBack(w.table, Some(line), version, true, fault);
    var w' := w.(table := t);
    VersionRuns.RollbackPreserves(Prompts, w.table, Some(line), version, true, fault);
    if done {
      var k :| 0 <= k < |w.table.rows| && Names(w.table.rows[k], Some(line), version);
      VersionRuns.RollbackIsActive(Prompts, w.table, Some(line), version, true, k);
      RollbackKeepsScopes(w, line, version);
    }
    forall other | other in w'.bound
      ensures Honest(w', other)
    {
      assert Honest(w, other);
      if other != line {
        RollbackElsewhere(w.table, line, other, version, true, fault);
      }
    }
  }

  lemma RollbackKeepsScopes(w: World, line: Line, version: nat)
    requires RowsAreBound(w)
    ensures RowsAreBound(w.(table := w.table.(rows :=
              Activated(Deactivated(w.table.rows, Some(line)), Some(line), version, true))))
  {
  }

  // Storing what was just read: the line had no revision before.
  lemma SeedPreserves(w: World, line: Line, c: Calls)
    requires Inv(w)
    ensures Inv(Seed(w, line, c))
  {
    hide VersionRuns.Sound, ActiveRow, Store, Text.Trim;
    if line in w.bound && w.bound[line] in w.live && OnRow(w, line).None? {
      var text := w.live[w.bound[line]];
      var w1 := w.(put := w.put[w.bound[line] := text]);
      forall other | other in w1.bound
        ensures Honest(w1, other)
      {
        assert Honest(w, other);
      }
      StorePreserves(w1, line, text, true, c.storing);
      StoreIgnoresPut(w, line, text, true, c.storing, w1.put);
    }
  }

  lemma StoreIgnoresPut(w: World, line: Line, body: string, pushed: bool, fault: Fault, put: map<App, string>)
    ensures Store(w.(put := put), line, body, pushed, fault).0 == Store(w, line, body, pushed, fault).0.(put := put)
  {
  }

  // A line without an app has no revision, so its first one is the only one.
  lemma ProvisionPreserves(w: World, line: Line, app: App, initial: string, template: string, c: Calls)
    requires Inv(w)
    ensures Inv(Provision(w, line, app, initial, template, c))
  {
    hide VersionRuns.Sound, ActiveRow, Store, Text.Trim;
    if line != "" && line !in w.bound && app !in w.live {
      var w0 := w.(bound := w.bound[line := app], live := w.live[app := initial]);
      var w1 := w0.(put := w.put[app := initial]);
      BindPreserves(w, line, app, initial, w.put);
      BindPreserves(w, line, app, initial, w1.put);
      StorePreserves(w0, line, template, false, c.storing);
      StorePreserves(w1, line, initial, true, c.storing);
      StoreIgnoresPut(w0, line, initial, true, c.storing, w1.put);
    }
  }

  lemma BindPreserves(w: World, line: Line, app: App, initial: string, put: map<App, string>)
    requires Inv(w) && line != "" && line !in w.bound && app !in w.live
    requires put == w.put || put == w.put[app := initial]
    ensures Inv(w.(bound := w.bound[line := app], live := w.live[app := initial], put := put))
  {
    hide VersionRuns.Sound;
    var w' := w.(bound := w.bound[line := app], live := w.live[app := initial], put := put);
    forall other | other in w'.bound
      ensures Honest(w', other)
    {
      if other == line {
        UnboundHasNoRow(w, line);
      } else {
        assert Honest(w, other);
      }
    }
  }

  lemma UnboundHasNoRow(w: World, line: Line)
    requires RowsAreBound(w) && line !in w.bound
    ensures OnRow(w, line).None?
  {
    if OnRow(w, line).Some? {
      var k := ActiveComesFromARow(w.table.rows, |w.table.rows|, Some(line));
    }
  }

  lemma EditPreserves(w: World, app: App, text: string)
    requires Inv(w)
    ensures Inv(HandEdit(w, app, text))
  {
    hide VersionRuns.Sound, ActiveRow;
    forall line | line in HandEdit(w, app, text).bound
      ensures Honest(HandEdit(w, app, text), line)
    {
      assert Honest(w, line);
    }
  }

  lemma StepPreserves(w: World, a: Action)
    requires Inv(w)
    ensures Inv(Step(w, a, true))
  {
    hide Inv, StoreAndProject, Rollback, Seed, Provision, HandEdit, Text.Trim;
    match a
    case Push(line, template, c) =>
      if line in w.bound {
        StoreAndProjectPreserves(w, line, template, true, c);
      }
    case SavePrompt(line, body, meets, c) =>
      if line in w.bound {
        StoreAndProjectPreserves(w, line, body, !c.readFails, c);
      }
    case ResetPrompt(line, template, c) =>
      if line in w.bound {
        StoreAndProjectPreserves(w, line, template, !c.readFails, c);
      }
    case RollBack(line, version, meets, c) => RollbackPreserves(w, line, version, meets, c);
    case SeedLine(line, c) => SeedPreserves(w, line, c);
    case Bind(line, app, initial, template, c) => ProvisionPreserves(w, line, app, initial, template, c);
    case Edit(app, text) => EditPreserves(w, app, text);
  }

  // ---------- Whole runs ----------

  lemma {:induction false} InvOverRuns(acts: seq<Action>, n: nat)
    requires n <= |acts|
    ensures Inv(After(START, acts, n, true))
  {
    hide Step, Inv;
    if n == 0 {
      InvAtStart();
    } else {
      InvOverRuns(acts, n - 1);
      StepPreserves(After(START, acts, n - 1, true), acts[n - 1]);
    }
  }

  lemma InvAtStart()
    ensures Inv(START)
  {
  }

  // In every state every run reaches, pushed_at on the active revision is honest.
  lemma PushedIsWhatDifyWasGiven(acts: seq<Action>, n: nat, line: Line)
    requires n <= |acts|
    ensures Honest(After(START, acts, n, true), line)
  {
    hide Step, Honest;
    InvOverRuns(acts, n);
    var w := After(START, acts, n, true);
    if line !in w.bound {
      NothingPromised(w, line);
    }
  }

  lemma NothingPromised(w: World, line: Line)
    requires line !in w.bound
    ensures Honest(w, line)
  {
  }

  // ---------- What customers are answered with ----------

  // A pushed active revision is the text the line's app answers with.
  predicate Effective(w: World, line: Line) {
    line in w.bound && OnRow(w, line).Some? && OnRow(w, line).value.pushed ==>
      w.bound[line] in w.live && w.live[w.bound[line]] == OnRow(w, line).value.content
  }

  // The active revision is sent once more, is marked as pushed already, and the failed
  // write leaves the app with another text.
  predicate Overwritten(w: World, line: Line, body: string, c: Calls) {
    && !c.readFails && Reusable(w, line, body) && OnRow(w, line).value.pushed
    && c.delivery.Unconfirmed? && c.delivery.left != body
  }

  // A step that puts another text behind the line's pushed revision.
  predicate Undermines(w: World, a: Action, line: Line) {
    line in w.bound &&
    match a
    case Push(l, template, c) => l == line && Overwritten(w, line, template, c)
    case SavePrompt(l, body, meets, c) =>
      l == line && Text.Trim(body) != "" && meets && Overwritten(w, line, body, c)
    case ResetPrompt(l, template, c) => l == line && Overwritten(w, line, template, c)
    case Edit(app, text) =>
      && w.bound[line] == app && OnRow(w, line).Some? && OnRow(w, line).value.pushed
      && OnRow(w, line).value.content != text
    case _ => false
  }

  lemma EffectiveElsewhere(w: World, w': World, line: Line)
    requires Effective(w, line) && w'.bound == w.bound
    requires line in w.bound && w.bound[line] in w.live ==>
               w.bound[line] in w'.live && w'.live[w.bound[line]] == w.live[w.bound[line]]
    requires OnRow(w', line) == OnRow(w, line)
    ensures Effective(w', line)
  {
    hide OnRow;
  }

  lemma ProjectEffective(w: World, l: Line, row: Row<string>, c: Calls, line: Line)
    requires Inv(w) && l in w.bound && OnRow(w, l) == Some(row) && Effective(w, line)
    ensures Effective(Project(w, w.bound[l], row, c).0, line) <==>
            !(l == line && row.pushed && c.delivery.Unconfirmed? && c.delivery.left != row.content)
  {
    hide VersionRuns.Sound, ActiveUpTo;
    if c.delivery.Arrived? {
      VersionRuns.MarkedActive(w.table.rows, |w.table.rows|, row.id, Some(line));
      if line in w.bound && line != l && OnRow(w, line).Some? {
        RowsOfTwoLinesDiffer(w.table, l, line);
      }
    }
  }

  lemma StoreEffective(w: World, l: Line, body: string, fault: Fault, line: Line)
    requires Inv(w) && l in w.bound && Effective(w, line)
    ensures var (w', r) := Store(w, l, body, false, fault);
            Effective(w', line) && (r.Some? ==> !r.value.pushed && r.value.content == body)
  {
    hide Inv, ActiveRow, Latest;
    var (w', r) := Store(w, l, body, false, fault);
    if r.None? {
      EffectiveElsewhere(w, w', line);
    } else if l == line {
      VersionRuns.PublishIsActive(w.table, Some(l), body, false);
    } else {
      PublishElsewhere(w.table, l, line, body, body != "", false, fault);
      EffectiveElsewhere(w, w', line);
    }
  }

  lemma WriteEffective(w: World, l: Line, body: string, asks: bool, c: Calls, line: Line)
    requires Inv(w) && l in w.bound && Effective(w, line) && (asks ==> !c.readFails)
    ensures Effective(StoreAndProject(w, l, body, asks, c).0, line) <==>
            !(l == line && asks && Overwritten(w, line, body, c))
  {
    hide Inv, ActiveRow, Store, Project, Effective;
    var (w', r) := StoreRevision(w, l, body, asks, c.storing);
    if !(asks && Reusable(w, l, body)) {
      StorePreserves(w, l, body, false, c.storing);
      StoreKeepsBound(w, l, body, false, c.storing);
      StoreEffective(w, l, body, c.storing, line);
    }
    if r.Some? {
      ProjectEffective(w', l, r.value, c, line);
    }
  }

  // A rollback clears pushed_at before it sends anything.
  lemma RollbackEffective(w: World, l: Line, version: nat, meets: bool, c: Calls, line: Line)
    requires Inv(w) && Effective(w, line)
    ensures Effective(Rollback(w, l, version, meets, true, c).0, line)
  {
    hide Inv, Project, RolledBack, ActiveRow, Effective, Has;
    if l in w.bound {
      var (t, done) := RolledBack(w.table, Some(l), version, true, c.storing);
      var w' := w.(table := t);
      RolledBackPreserves(w, l, version, c.storing);
      RolledBackEffective(w, l, version, c.storing, line);
      if done && OnRow(w', l).Some? {
        ProjectEffective(w', l, OnRow(w', l).value, c, line);
      }
    }
  }

  lemma RolledBackEffective(w: World, l: Line, version: nat, fault: Fault, line: Line)
    requires Inv(w) && l in w.bound && Effective(w, line)
    ensures var (t, done) := RolledBack(w.table, Some(l), version, true, fault);
            && Effective(w.(table := t), line)
            && (done && ActiveRow(t.rows, Some(l)).Some? ==> !ActiveRow(t.rows, Some(l)).value.pushed)
  {
    hide ActiveRow, Activated, Deactivated;
    var (t, done) := RolledBack(w.table, Some(l), version, true, fault);
    InvGivesSound(w, l);
    if done {
      var k :| 0 <= k < |w.table.rows| && Names(w.table.rows[k], Some(l), version);
      VersionRuns.RollbackIsActive(Prompts, w.table, Some(l), version, true, k);
    }
    if l != line {
      RollbackElsewhere(w.table, l, line, version, true, fault);
    }
  }

  lemma SeedEffective(w: World, l: Line, c: Calls, line: Line)
    requires Inv(w) && Effective(w, line)
    ensures Effective(Seed(w, l, c), line)
  {
    hide Inv, ActiveRow, Latest, Text.Trim;
    if Seed(w, l, c) != w {
      var text := w.live[w.bound[l]];
      if l == line {
        if Store(w, l, text, true, c.storing).1.Some? {
          VersionRuns.PublishIsActive(w.table, Some(l), text, true);
        }
      } else {
        PublishElsewhere(w.table, l, line, text, text != "", true, c.storing);
      }
    }
  }

  lemma ProvisionEffective(w: World, l: Line, app: App, initial: string, template: string, c: Calls, line: Line)
    requires Inv(w) && Effective(w, line)
    ensures Effective(Provision(w, l, app, initial, template, c), line)
  {
    hide VersionRuns.Sound, AllHonest, ActiveRow, Latest, Text.Trim;
    if l != "" && l !in w.bound && app !in w.live {
      var seen := !c.readFails && Text.Trim(initial) != "";
      var body := if seen then initial else template;
      if l == line {
        UnboundHasNoRow(w, l);
        VersionRuns.PublishIsActive(w.table, Some(l), body, seen);
      } else {
        PublishElsewhere(w.table, l, line, body, body != "", seen, c.storing);
      }
    }
  }

  lemma EditEffective(w: World, app: App, text: string, line: Line)
    requires Inv(w) && Effective(w, line)
    ensures Effective(HandEdit(w, app, text), line) <==> !Undermines(w, Edit(app, text), line)
  {
    hide VersionRuns.Sound, AllHonest, RowsAreBound, ActiveRow;
  }

  // From a state in which it is in effect, one step leaves the line's pushed revision in
  // effect exactly when it does not undermine it.
  lemma StepEffectiveIff(w: World, a: Action, line: Line)
    requires Inv(w) && Effective(w, line)
    ensures Effective(Step(w, a, true), line) <==> !Undermines(w, a, line)
  {
    hide Inv, StoreAndProject, Rollback, Seed, Provision, HandEdit, Text.Trim, Effective, Overwritten;
    match a
    case Push(l, template, c) =>
      if l in w.bound && !c.readFails {
        WriteEffective(w, l, template, true, c, line);
      } else {
        ReadFailsFirst(w, line, template, c);
      }
    case SavePrompt(l, body, meets, c) =>
      if l in w.bound {
        WriteEffective(w, l, body, !c.readFails, c, line);
        ReadFailsFirst(w, line, body, c);
      }
    case ResetPrompt(l, template, c) =>
      if l in w.bound {
        WriteEffective(w, l, template, !c.readFails, c, line);
        ReadFailsFirst(w, line, template, c);
      }
    case RollBack(l, version, meets, c) => RollbackEffective(w, l, version, meets, c, line);
    case SeedLine(l, c) => SeedEffective(w, l, c, line);
    case Bind(l, app, initial, template, c) => ProvisionEffective(w, l, app, initial, template, c, line);
    case Edit(app, text) => EditEffective(w, app, text, line);
  }

  lemma ReadFailsFirst(w: World, line: Line, body: string, c: Calls)
    ensures c.readFails ==> !Overwritten(w, line, body, c)
  {
  }

  predicate EffectiveAt(acts: seq<Action>, k: nat, line: Line)
    requires k <= |acts|
  {
    Effective(After(START, acts, k, true), line)
  }

  predicate UnderminedAt(acts: seq<Action>, k: nat, line: Line)
    requires k < |acts|
  {
    Undermines(After(START, acts, k, true), acts[k], line)
  }

  // In every state of a run up to the n-th a pushed active revision is the text customers
  // are answered with, exactly when none of its steps undermines it.
  lemma {:induction false} PushedIsInEffectIff(acts: seq<Action>, n: nat, line: Line)
    requires n <= |acts|
    ensures (forall k | 0 <= k <= n :: EffectiveAt(acts, k, line)) <==>
            (forall k | 0 <= k < n :: !UnderminedAt(acts, k, line))
  {
    hide Step, Effective, Undermines;
    if n == 0 {
      EffectiveAtStart(line);
      assert EffectiveAt(acts, 0, line);
    } else {
      PushedIsInEffectIff(acts, n - 1, line);
      InvOverRuns(acts, n - 1);
      if EffectiveAt(acts, n - 1, line) {
        StepEffectiveIff(After(START, acts, n - 1, true), acts[n - 1], line);
        assert EffectiveAt(acts, n, line) <==> !UnderminedAt(acts, n - 1, line);
      }
    }
  }

  lemma EffectiveAtStart(line: Line)
    ensures Effective(START, line)
  {
  }

  // A hand edit, or a failed write that leaves neither the text it sent nor the one that
  // was there.
  predicate Disturbs(w: World, a: Action) {
    match a
    case Push(line, template, c) => LeavesOther(w, line, template, c.delivery)
    case SavePrompt(line, body, _, c) => LeavesOther(w, line, body, c.delivery)
    case ResetPrompt(line, template, c) => LeavesOther(w, line, template, c.delivery)
    case Edit(_, _) => true
    case _ => false
  }

  predicate LeavesOther(w: World, line: Line, text: string, d: Delivery) {
    && d.Unconfirmed? && line in w.bound && d.left != text
    && !(w.bound[line] in w.live && w.live[w.bound[line]] == d.left)
  }

  // So it is while nobody edits the apps by hand and every failed write leaves its own
  // text or changes nothing.
  lemma {:induction false} PushedIsInEffect(acts: seq<Action>, n: nat, line: Line)
    requires n <= |acts|
    requires forall k | 0 <= k < n :: !Disturbs(After(START, acts, k, true), acts[k])
    ensures Effective(After(START, acts, n, true), line)
  {
    hide Step, Effective, Undermines, Disturbs;
    if n == 0 {
      EffectiveAtStart(line);
    } else {
      PushedIsInEffect(acts, n - 1, line);
      InvOverRuns(acts, n - 1);
      var before := After(START, acts, n - 1, true);
      StepEffectiveIff(before, acts[n - 1], line);
      UndisturbedStands(before, acts[n - 1], line);
    }
  }

  lemma UndisturbedStands(w: World, a: Action, line: Line)
    requires Effective(w, line) && !Disturbs(w, a)
    ensures !Undermines(w, a, line)
  {
    hide ActiveRow, Text.Trim;
  }

  // ---------- What is refused ----------

  // A refused write leaves everything as it was. The console refuses a save to a line
  // without an app, of a blank text, or of one that breaks the contract; a rollback also
  // when it names no stored revision or the revision cannot be read.
  lemma RefusedIff(w: World, line: Line, body: string, version: nat, meets: bool, clears: bool, c: Calls)
    ensures var (w', o) := Save(w, line, body, meets, c);
            && (o.Refused? <==> line !in w.bound || Text.Trim(body) == "" || !meets) && (o.Refused? ==> w' == w)
    ensures var (w', o) := PushTemplate(w, line, body, c);
            && (o.Refused? <==> line !in w.bound || c.readFails) && (o.Refused? ==> w' == w)
    ensures var (w', o) := Reset(w, line, body, c);
            && (o.Refused? <==> line !in w.bound) && (o.Refused? ==> w' == w)
    ensures var (w', o) := Rollback(w, line, version, meets, clears, c);
            && (o.Refused? <==>
                  line !in w.bound || c.readFails || version == 0 || !meets ||
                  forall k | 0 <= k < |w.table.rows| :: !Names(w.table.rows[k], Some(line), version))
            && (o.Refused? ==> w' == w)
  {
    hide Text.Trim, ActiveRow, Published, RolledBack, Put, PushMarked;
  }

  // ---------- What a write reports ----------

  // A write of `body` to a bound line says truly what became of it: not stored
  // leaves the revisions and Dify alone, stored makes the text the line's active
  // revision, in effect puts it before customers as well and, unless recording that
  // failed, marks the revision.
  lemma ReportIsTrue(w: World, line: Line, body: string, asks: bool, c: Calls)
    requires Inv(w) && line in w.bound
    ensures var (w', o) := StoreAndProject(w, line, body, asks, c);
            match o
            case Refused => false
            case NotStored => w'.table.rows == w.table.rows && w'.live == w.live
            case Stored(row) => OnRow(w', line) == Some(row) && row.content == body
            case InEffect(row) =>
              && OnRow(w', line).Some? && OnRow(w', line).value.content == body && w'.live[w.bound[line]] == body
              && (c.marking == NoFault ==> OnRow(w', line).value.pushed)
  {
    hide Inv, ActiveRow, Store;
    var (w1, r) := StoreRevision(w, line, body, asks, c.storing);
    if !(asks && Reusable(w, line, body)) {
      StorePreserves(w, line, body, false, c.storing);
      StoreKeepsBound(w, line, body, false, c.storing);
      StoreKeepsLive(w, line, body, false, c.storing);
    }
    if r.Some? {
      ProjectReports(w1, line, r.value, c);
    }
  }

  lemma StoreKeepsLive(w: World, line: Line, body: string, pushed: bool, fault: Fault)
    ensures Store(w, line, body, pushed, fault).0.live == w.live
  {
  }

  lemma ProjectReports(w: World, line: Line, row: Row<string>, c: Calls)
    requires line in w.bound && OnRow(w, line) == Some(row)
    ensures var (w', o) := Project(w, w.bound[line], row, c);
            && (o == Stored(row) || o == InEffect(row)) && (o.InEffect? <==> c.delivery.Arrived?)
            && (o.Stored? ==> OnRow(w', line) == Some(row))
            && (o.InEffect? ==> OnRow(w', line).Some? && OnRow(w', line).value.content == row.content)
            && (o.InEffect? ==> w.bound[line] in w'.live && w'.live[w.bound[line]] == row.content)
            && (o.InEffect? && c.marking == NoFault ==> OnRow(w', line).value.pushed)
  {
    if c.delivery.Arrived? {
      VersionRuns.MarkedActive(w.table.rows, |w.table.rows|, row.id, Some(line));
      var k := ActiveComesFromARow(w.table.rows, |w.table.rows|, Some(line));
    }
  }

  // A write whose text was stored but did not arrive is finished by writing it
  // again, without another revision.
  lemma RetryCutsNoRevision(w: World, line: Line, body: string, first: Calls, again: Calls)
    requires Inv(w) && line in w.bound && StoreAndProject(w, line, body, true, first).1.Stored?
    ensures var w1 := StoreAndProject(w, line, body, true, first).0;
            var (w2, o) := StoreAndProject(w1, line, body, true, again);
            |w2.table.rows| == |w1.table.rows| && (again.delivery.Arrived? ==> o.InEffect?)
  {
    hide Inv, ActiveRow;
    ReportIsTrue(w, line, body, true, first);
  }

  // A rollback projects the text stored under that version; reported in effect, it is
  // what the app answers with.
  lemma RollbackRestores(w: World, line: Line, version: nat, k: nat, c: Calls)
    requires Inv(w) && line in w.bound && version > 0 && !c.readFails && c.storing == NoFault
    requires k < |w.table.rows| && Names(w.table.rows[k], Some(line), version)
    ensures var (w', o) := Rollback(w, line, version, true, true, c);
            && |w'.table.rows| == |w.table.rows|
            && (o.Stored? || o.InEffect?) && o.row.id == w.table.rows[k].id && o.row.content == w.table.rows[k].content
            && OnRow(w', line).Some? && OnRow(w', line).value.content == w.table.rows[k].content
            && (o.Stored? ==> !OnRow(w', line).value.pushed)
            && (o.InEffect? ==> w.bound[line] in w'.live && w'.live[w.bound[line]] == w.table.rows[k].content)
  {
    hide ActiveRow, Activated, Deactivated;
    InvGivesSound(w, line);
    VersionRuns.RollbackIsActive(Prompts, w.table, Some(line), version, true, k);
    var t := RolledBack(w.table, Some(line), version, true, c.storing).0;
    var row := ActiveRow(t.rows, Some(line)).value;
    ProjectReports(w.(table := t), line, row, c);
  }

  // Seeding adopts the app's own text as an active, pushed revision and sends nothing.
  lemma SeedAdoptsLive(w: World, line: Line, c: Calls)
    requires Inv(w) && line in w.bound && OnRow(w, line).None?
    requires !c.readFails && c.storing == NoFault && Text.Trim(w.live[w.bound[line]]) != ""
    ensures var w' := Seed(w, line, c);
            && w'.live == w.live && OnRow(w', line).Some? && OnRow(w', line).value.pushed
            && OnRow(w', line).value.content == w.live[w.bound[line]]
  {
    hide ActiveRow, Latest;
    var text := w.live[w.bound[line]];
    assert Text.Trim("") == "";
    InvGivesSound(w, line);
    VersionRuns.PublishIsActive(w.table, Some(line), text, true);
  }

  // The first revision of a new app claims to be pushed only when it is the text the
  // app was seen to carry; else it is the template, waiting.
  lemma FirstRevisionIsObserved(w: World, line: Line, app: App, initial: string, template: string, c: Calls)
    requires Inv(w) && line != "" && line !in w.bound && app !in w.live && c.storing == NoFault && template != ""
    ensures var w' := Provision(w, line, app, initial, template, c);
            && line in w'.bound && w'.bound[line] == app && w'.live == w.live[app := initial]
            && OnRow(w', line).Some?
            && (if c.readFails || Text.Trim(initial) == ""
                then OnRow(w', line).value.content == template && !OnRow(w', line).value.pushed
                else OnRow(w', line).value.content == initial && OnRow(w', line).value.pushed)
  {
    hide ActiveRow, Latest;
    assert Text.Trim("") == "";
    VersionRuns.PublishIsActive(w.table, Some(line), template, false);
    VersionRuns.PublishIsActive(w.table, Some(line), initial, true);
  }

  // ---------- Why a rollback clears pushed_at ----------

  // A rollback that kept the timestamp would be honest exactly when the row it
  // returns to was never pushed, its text was sent, or was the last one sent before; and
  // in effect exactly when it was never pushed or is what the app is left with.
  lemma KeepingPushedAtIff(w: World, line: Line, version: nat, k: nat, c: Calls)
    requires Inv(w) && line in w.bound && version > 0 && !c.readFails && c.storing == NoFault
    requires k < |w.table.rows| && Names(w.table.rows[k], Some(line), version)
    requires !c.delivery.Arrived?
    ensures var w' := Rollback(w, line, version, true, false, c).0;
            Honest(w', line) <==>
              || !w.table.rows[k].pushed
              || c.delivery.Unconfirmed?
              || (w.bound[line] in w.put && w.put[w.bound[line]] == w.table.rows[k].content)
    ensures var w' := Rollback(w, line, version, true, false, c).0;
            Effective(w', line) <==>
              || !w.table.rows[k].pushed
              || (if c.delivery.Unconfirmed? then c.delivery.left else w.live[w.bound[line]]) == w.table.rows[k].content
  {
    hide Rollback, ActiveRow, VersionRuns.Sound, AllHonest, RowsAreBound;
    RollbackKeeping(w, line, version, k, c);
  }

  lemma RollbackKeeping(w: World, line: Line, version: nat, k: nat, c: Calls)
    requires Inv(w) && line in w.bound && version > 0 && !c.readFails && c.storing == NoFault
    requires k < |w.table.rows| && Names(w.table.rows[k], Some(line), version)
    requires !c.delivery.Arrived?
    ensures var w' := Rollback(w, line, version, true, false, c).0;
            && OnRow(w', line) == Some(w.table.rows[k].(active := true))
            && w'.bound == w.bound
            && w'.put == Put(w, w.bound[line], w.table.rows[k].content, c.delivery).put
            && w'.live == Put(w, w.bound[line], w.table.rows[k].content, c.delivery).live
  {
    hide ActiveRow, Activated, Deactivated, VersionRuns.Sound, AllHonest, OneAppEach, RowsAreBound;
    InvGivesSound(w, line);
    VersionRuns.RollbackIsActive(Prompts, w.table, Some(line), version, false, k);
  }

  lemma InvGivesSound(w: World, line: Line)
    requires Inv(w) && line in w.bound
    ensures VersionRuns.Sound(Prompts, w.table) && line != ""
  {
  }

  const FINE := Calls(false, NoFault, Arrived, NoFault)
  const LOST := Calls(false, NoFault, Delivery.Lost, NoFault)

  const FIRST := World(Table([Row(0, Some("a"), 1, "A", true, true)], 1),
                       map["a" := "x"], map["x" := "A"], map["x" := "A"])
  const SECOND := World(Table([Row(0, Some("a"), 1, "A", false, true), Row(1, Some("a"), 2, "B", true, true)], 2),
                        map["a" := "x"], map["x" := "B"], map["x" := "B"])

  lemma ReachFirst()
    ensures Provision(START, "a", "x", "A", "T", FINE) == FIRST
  {
    var w := START.(bound := map["a" := "x"], live := map["x" := "A"]);
    assert NewRow(w.table, Some("a"), "A", true) == Row(0, Some("a"), 1, "A", true, true);
    assert Deactivated(w.table.rows, Some("a")) == [];
  }

  lemma ReachSecond()
    ensures Save(FIRST, "a", "B", true, FINE).0 == SECOND
  {
    assert Text.Trim("B") == "B";
    assert OnRow(FIRST, "a") == Some(FIRST.table.rows[0]);
    var row := NewRow(FIRST.table, Some("a"), "B", false);
    assert row == Row(1, Some("a"), 2, "B", true, false);
    var rows := Deactivated(FIRST.table.rows, Some("a")) + [row];
    assert rows == [Row(0, Some("a"), 1, "A", false, true), row];
    assert rows[1].id == 1;
    assert Marked(rows, 1) == SECOND.table.rows;
  }

  const LEFT_OTHER := Calls(false, NoFault, Unconfirmed("Z"), NoFault)

  // The active text is saved once more and Dify is left with another one: its revision,
  // pushed before, still claims to be in effect.
  lemma ResendLies()
    ensures var acts := [Bind("a", "x", "A", "T", FINE), SavePrompt("a", "A", true, LEFT_OTHER)];
            var w := After(START, acts, 2, true);
            && OnRow(w, "a") == Some(Row(0, Some("a"), 1, "A", true, true))
            && "a" in w.bound && w.bound["a"] == "x" && "x" in w.live && w.live["x"] == "Z"
  {
    hide Provision, Inv;
    var acts := [Bind("a", "x", "A", "T", FINE), SavePrompt("a", "A", true, LEFT_OTHER)];
    ReachFirst();
    assert Text.Trim("A") == "A";
    assert After(START, acts, 1, true) == FIRST;
    assert OnRow(FIRST, "a") == Some(FIRST.table.rows[0]);
  }

  // Version 1 went to Dify, version 2 replaced it, and a rollback to version 1 whose
  // text got lost still claims to be in effect.
  lemma KeepingPushedAtLies()
    ensures exists acts: seq<Action>, line: Line :: !Honest(After(START, acts, |acts|, false), line)
  {
    hide Save, Provision, Rollback, Inv, Honest;
    var acts := [Bind("a", "x", "A", "T", FINE), SavePrompt("a", "B", true, FINE), RollBack("a", 1, true, LOST)];
    ReachFirst();
    ReachSecond();
    assert After(START, acts, 1, true) == After(START, acts, 1, false) == FIRST;
    assert After(START, acts, 2, true) == After(START, acts, 2, false) == SECOND;
    InvOverRuns(acts, 2);
    KeepingPushedAtIff(SECOND, "a", 1, 0, LOST);
    assert !Honest(After(START, acts, |acts|, false), "a");
  }
}
