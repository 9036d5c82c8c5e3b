// What the model writes guarantee: an app borrowed for verification is untouched
// or on what its line resolves to, the platform row moves exactly when the answer
// says so, and no line loses its override to another line's write.
module ModelSafety {
  import opened Options
  import opened Versions
  import opened ModelWrite
  import VersionRuns
  import Text

  // Product lines have ids of their own, none of them empty or the nil uuid, and
  // no two share an app.
  ghost predicate LinesApart(lines: seq<LineRow>) {
    && (forall i :: 0 <= i < |lines| ==> lines[i].id != "" && lines[i].id != NIL_UUID)
    && (forall i, j :: 0 <= i < j < |lines| ==> lines[i].id != lines[j].id)
    && (forall i, j :: 0 <= i < j < |lines| && Bound(lines[i]) && Bound(lines[j]) ==> lines[i].app != lines[j].app)
  }

  ghost predicate Valid(w: World) {
    VersionRuns.Sound(Models, w.table) && LinesApart(w.lines)
  }

  // ---------- The choice of the target ----------

  lemma {:induction false} FirstFreeIs(lines: seq<LineRow>, rows: seq<Row<Spec>>, i: nat)
    requires i <= |lines|
    ensures match FirstFree(lines, rows, i)
            case Some(r) => i <= r < |lines| && Bound(lines[r]) && !Overridden(rows, lines[r].id) &&
                            forall k :: i <= k < r && Bound(lines[k]) ==> Overridden(rows, lines[k].id)
            case None => forall k :: i <= k < |lines| && Bound(lines[k]) ==> Overridden(rows, lines[k].id)
    decreases |lines| - i
  {
    hide Overridden;
    if i < |lines| {
      FirstFreeIs(lines, rows, i + 1);
    }
  }

  lemma {:induction false} FirstBoundIs(lines: seq<LineRow>, i: nat)
    requires i <= |lines|
    ensures match FirstBound(lines, i)
            case Some(r) => i <= r < |lines| && Bound(lines[r]) && forall k :: i <= k < r ==> !Bound(lines[k])
            case None => forall k :: i <= k < |lines| ==> !Bound(lines[k])
    decreases |lines| - i
  {
    if i < |lines| {
      FirstBoundIs(lines, i + 1);
    }
  }

  // There is a target exactly when some line has an app; it has an override only
  // when every bound line has one, and then it is the first of them.
  lemma TargetIs(w: World)
    ensures Target(w).None? <==> forall k :: 0 <= k < |w.lines| ==> !Bound(w.lines[k])
    ensures Target(w).Some? ==> Target(w).value < |w.lines| && Bound(w.lines[Target(w).value])
    ensures Target(w).Some? && Overridden(w.table.rows, w.lines[Target(w).value].id) ==>
              forall k :: 0 <= k < |w.lines| && Bound(w.lines[k]) ==>
                Target(w).value <= k && Overridden(w.table.rows, w.lines[k].id)
  {
    hide Overridden;
    FirstFreeIs(w.lines, w.table.rows, 0);
    FirstBoundIs(w.lines, 0);
  }

  // ---------- What a publish does to what lines resolve to ----------

  lemma PublishKeepsOther(w: World, scope: Option<string>, other: Option<string>, spec: Spec, fault: Fault)
    requires Fold(scope) != Fold(other)
    ensures ActiveRow(Publish(w, scope, spec, fault).0.table.rows, other) == ActiveRow(w.table.rows, other)
  {
    hide ActiveRow, Published, VersionRuns.SameScope;
    var a := VersionRuns.Publish(scope, spec, spec.provider != "" && spec.name != "" && spec.mode != "", false, fault);
    VersionRuns.StepLeavesOtherScopes(Models, w.table, a, other);
    VersionRuns.SameScopeSameActiveRow(w.table.rows, VersionRuns.Step(Models, w.table, a).rows, other);
  }

  lemma PublishActive(w: World, scope: Option<string>, spec: Spec, fault: Fault)
    ensures var (w', r) := Publish(w, scope, spec, fault);
            && w'.lines == w.lines && w'.live == w.live
            && (r.None? ==> w'.table.rows == w.table.rows)
            && (r.Some? ==>
                  ActiveRow(w'.table.rows, scope) == r && r.value.content == spec && r.value.id == w.table.nextId)
  {
    hide Latest;
    var (w', r) := Publish(w, scope, spec, fault);
    if r.Some? {
      VersionRuns.PublishIsActive(w.table, scope, spec, false);
    }
  }

  // Publishing the platform default moves the lines without an override and no other.
  lemma PlatformPublishResolves(w: World, spec: Spec, fault: Fault, line: string)
    requires line != NIL_UUID && Publish(w, None, spec, fault).1.Some?
    ensures Resolve(Publish(w, None, spec, fault).0.table.rows, line) ==
            if Overridden(w.table.rows, line) then Resolve(w.table.rows, line) else spec
    ensures Overridden(Publish(w, None, spec, fault).0.table.rows, line) == Overridden(w.table.rows, line)
  {
    hide ActiveRow, Overridden, Publish;
    var rows' := Publish(w, None, spec, fault).0.table.rows;
    PublishActive(w, None, spec, fault);
    PublishKeepsOther(w, None, Some(line), spec, fault);
    ActiveIffOverridden(w.table.rows, line);
    ActiveIffOverridden(rows', line);
  }

  lemma LinePublishResolves(w: World, i: nat, spec: Spec, fault: Fault, line: string)
    requires i < |w.lines| && line != NIL_UUID && w.lines[i].id != NIL_UUID
    requires Publish(w, Some(w.lines[i].id), spec, fault).1.Some?
    ensures var rows' := Publish(w, Some(w.lines[i].id), spec, fault).0.table.rows;
            Resolve(rows', line) == if line == w.lines[i].id then spec else Resolve(w.table.rows, line)
    ensures Overridden(Publish(w, Some(w.lines[i].id), spec, fault).0.table.rows, line) ==
            (line == w.lines[i].id || Overridden(w.table.rows, line))
    ensures ActiveRow(Publish(w, Some(w.lines[i].id), spec, fault).0.table.rows, None) == ActiveRow(w.table.rows, None)
  {
    hide ActiveRow, Overridden, Publish;
    var id := w.lines[i].id;
    var rows' := Publish(w, Some(id), spec, fault).0.table.rows;
    PublishActive(w, Some(id), spec, fault);
    PublishKeepsOther(w, Some(id), None, spec, fault);
    if line != id {
      PublishKeepsOther(w, Some(id), Some(line), spec, fault);
    }
    ActiveIffOverridden(w.table.rows, line);
    ActiveIffOverridden(rows', line);
  }

  // ---------- The platform write ----------

  // Apps and rows are as they were, or the target's app and no other was put on
  // what its line resolves to under the tables as they are now.
  ghost predicate Consistent(w: World, w': World, i: nat)
    requires i < |w.lines| && w.lines[i].app.Some?
  {
    || (w'.live == w.live && w'.table.rows == w.table.rows)
    || w'.live == w.live[w.lines[i].app.value := Some(Resolve(w'.table.rows, w.lines[i].id))]
  }

  lemma VerifyIsConsistent(w: World, spec: Spec, i: nat, c: Calls)
    requires i < |w.lines| && Bound(w.lines[i]) && w.lines[i].id != NIL_UUID
    ensures var (w', a) := Verify(w, spec, i, c);
            && TargetOf(a) == Some(i)
            && (!RevertFailed(a) ==> Consistent(w, w', i))
            && (a.Changed? <==> w'.table.rows != w.table.rows)
            && (a.Changed? ==>
                  ActiveRow(w'.table.rows, None).Some? && ActiveRow(w'.table.rows, None).value.content == spec)
            && (a.Changed? ==> ActiveRow(w'.table.rows, None).value.id == w.table.nextId)
  {
    hide ActiveRow, Overridden, Publish, Resolve, Usable;
    var w1 := PinModel(w, w.lines[i].app.value, spec, c.pin);
    if Outcome(spec, c.pin).Pinned? {
      PublishActive(w1, None, spec, c.storing);
      PublishGrows(w1, None, spec, c.storing);
      if Publish(w1, None, spec, c.storing).1.Some? {
        PlatformPublishResolves(w1, spec, c.storing, w.lines[i].id);
      }
    }
  }

  lemma PublishGrows(w: World, scope: Option<string>, spec: Spec, fault: Fault)
    ensures Publish(w, scope, spec, fault).1.Some? ==>
              |Publish(w, scope, spec, fault).0.table.rows| == |w.table.rows| + 1
  {
  }

  // HandleModel: without a revert error the app used for the verification was left
  // untouched or carries exactly what its line resolves to, and the active platform
  // row changes exactly when the answer reports a change.
  lemma VerifiedAppIsConsistent(w: World, q: Request, c: Calls)
    requires Valid(w)
    ensures var (w', a) := Handle(w, q, c);
            && (TargetOf(a).None? ==> w' == w)
            && (TargetOf(a).Some? ==> TargetOf(a) == Target(w) && a.target < |w.lines| && w.lines[a.target].app.Some?)
            && (TargetOf(a).Some? && !RevertFailed(a) ==> Consistent(w, w', a.target))
            && (a.Changed? <==> ActiveRow(w'.table.rows, None) != ActiveRow(w.table.rows, None))
  {
    hide ActiveRow, Overridden, Verify, Acceptable, FirstFree, FirstBound, Usable, Resolve, Consistent;
    TargetIs(w);
    var (w', a) := Handle(w, q, c);
    if Target(w).Some? {
      var i := Target(w).value;
      VerifyIsConsistent(w, Trimmed(q), i, c);
      NewRowIsNew(w.table, None);
    }
  }

  lemma NewRowIsNew(t: Table<Spec>, scope: Option<string>)
    requires VersionRuns.FreshIds(t)
    ensures ActiveRow(t.rows, scope).Some? ==> ActiveRow(t.rows, scope).value.id < t.nextId
  {
    if ActiveRow(t.rows, scope).Some? {
      var k := ActiveComesFromARow(t.rows, |t.rows|, scope);
    }
  }

  // A write repeated after it took effect does nothing.
  lemma SecondWriteIsNoOp(w: World, q: Request, c: Calls, again: Calls)
    requires Handle(w, q, c).1.Changed? && !again.readFails && Valid(w)
    ensures Handle(Handle(w, q, c).0, q, again) == (Handle(w, q, c).0, Unchanged)
  {
    hide ActiveRow, Overridden, Verify, FirstFree, FirstBound, Usable, Resolve;
    TargetIs(w);
    VerifyIsConsistent(w, Trimmed(q), Target(w).value, c);
  }

  // ---------- The override writes ----------

  lemma SetIsConsistent(w: World, i: nat, q: Request, c: Calls)
    requires Valid(w) && i < |w.lines|
    ensures var (w', a) := SetOverride(w, i, q, c);
            && (TargetOf(a).Some? ==> a.target == i && Bound(w.lines[i]))
            && (!RevertFailed(a) && Bound(w.lines[i]) ==> Consistent(w, w', i))
            && (a.Changed? ==> Resolve(w'.table.rows, w.lines[i].id) == Trimmed(q))
            && ActiveRow(w'.table.rows, None) == ActiveRow(w.table.rows, None)
  {
    hide ActiveRow, Overridden, Publish, Resolve, Usable, PushMarked, Marked, VersionRuns.Sound;
    var line := w.lines[i];
    if Bound(line) && Acceptable(q) && !c.readFails && Outcome(Trimmed(q), c.pin).Pinned? {
      var w1 := PinModel(w, line.app.value, Trimmed(q), c.pin);
      var (w2, r) := Publish(w1, Some(line.id), Trimmed(q), c.storing);
      PublishActive(w1, Some(line.id), Trimmed(q), c.storing);
      if r.Some? {
        LinePublishResolves(w1, i, Trimmed(q), c.storing, line.id);
        MarkResolves(w2, r.value.id, c.marking, line.id);
        MarkKeepsPlatform(w, w1, i, r.value, Trimmed(q), c);
      }
    }
  }

  // The mark lands on the new row, so no line resolves differently for it.
  lemma MarkResolves(w: World, id: nat, fault: Fault, line: string)
    ensures Resolve(PushMarked(w.table, id, fault).0.rows, line) == Resolve(w.table.rows, line)
    ensures Overridden(PushMarked(w.table, id, fault).0.rows, line) == Overridden(w.table.rows, line)
  {
    var rows := w.table.rows;
    VersionRuns.MarkedActive(rows, |rows|, id, Some(line));
    VersionRuns.MarkedActive(rows, |rows|, id, None);
    MarkedOverridden(rows, id, line);
  }

  lemma MarkedOverridden(rows: seq<Row<Spec>>, id: nat, line: string)
    ensures Overridden(Marked(rows, id), line) == Overridden(rows, line)
  {
    var b := Marked(rows, id);
    forall k | 0 <= k < |rows|
      ensures b[k].scope == rows[k].scope && b[k].active == rows[k].active
    {
    }
    if Overridden(rows, line) {
      var k :| 0 <= k < |rows| && rows[k].scope == Some(line) && rows[k].active;
      assert b[k].scope == Some(line) && b[k].active;
    }
  }

  lemma MarkKeepsPlatform(w: World, w1: World, i: nat, row: Row<Spec>, spec: Spec, c: Calls)
    requires Valid(w) && i < |w.lines| && w1.table == w.table && w1.lines == w.lines
    requires Publish(w1, Some(w.lines[i].id), spec, c.storing).1 == Some(row)
    ensures var t := Publish(w1, Some(w.lines[i].id), spec, c.storing).0.table;
            ActiveRow(PushMarked(t, row.id, c.marking).0.rows, None) == ActiveRow(w.table.rows, None)
  {
    hide ActiveRow, Publish, VersionRuns.Numbered, OneActive;
    var w2 := Publish(w1, Some(w.lines[i].id), spec, c.storing).0;
    PublishActive(w1, Some(w.lines[i].id), spec, c.storing);
    PublishKeepsOther(w1, Some(w.lines[i].id), None, spec, c.storing);
    NewRowIsNew(w.table, None);
    MarkedRow(w2.table.rows, row.id, None);
  }

  lemma MarkedRow(rows: seq<Row<Spec>>, id: nat, scope: Option<string>)
    requires ActiveRow(rows, scope).Some? ==> ActiveRow(rows, scope).value.id != id
    ensures ActiveRow(Marked(rows, id), scope) == ActiveRow(rows, scope)
  {
    VersionRuns.MarkedActive(rows, |rows|, id, scope);
  }

  // Dropping an override: on success the line resolves to the platform and its app
  // carries that; when the projection failed the answer says so.
  lemma ClearIsConsistent(w: World, i: nat, c: Calls)
    requires Valid(w) && i < |w.lines|
    ensures var (w', a) := Clear(w, i, c);
            && (a.Changed? || a.NotProjected? ==> !Overridden(w'.table.rows, w.lines[i].id))
            && (a.Changed? ==> Bound(w.lines[i]) && Consistent(w, w', i))
            && (!a.Changed? && !a.NotProjected? ==> w' == w)
            && ActiveRow(w'.table.rows, None) == ActiveRow(w.table.rows, None)
  {
    hide ActiveRow, Overridden, Usable, VersionRuns.Sound, OverrideCleared;
    var id := w.lines[i].id;
    VersionRuns.ClearReturnsToPlatform(w.table, id);
    ActiveIffOverridden(OverrideCleared(w.table, id, NoFault).0.rows, id);
  }

  // ---------- The push to one line ----------

  // A push that succeeds marks the active revision behind what its line resolves to - its
  // own, or the platform's when it has none - and no other row.
  lemma PushMarksItsRow(w: World, i: nat, c: Calls, k: nat)
    requires Valid(w) && i < |w.lines| && Push(w, i, c).1 && c.marking == NoFault
    requires k < |w.table.rows| && w.table.rows[k].active
    requires if Overridden(w.table.rows, w.lines[i].id) then w.table.rows[k].scope == Some(w.lines[i].id)
             else w.table.rows[k].scope == None
    ensures Push(w, i, c).0.table.rows == w.table.rows[k := w.table.rows[k].(pushed := true)]
  {
    hide Usable, Resolve, Overridden, ActiveUpTo, VersionRuns.SomeActive, VersionRuns.Numbered, Marked;
    var rows, id := w.table.rows, w.lines[i].id;
    var scope := if Overridden(rows, id) then Some(id) else None;
    ActiveIsTheOne(rows, |rows|, k, scope);
    assert ActiveRow(rows, scope) == Some(rows[k]);
    assert Holds(rows, rows[k].id);
    MarkOfOne(rows, k);
  }

  lemma MarkOfOne(rows: seq<Row<Spec>>, k: nat)
    requires k < |rows| && forall a, b | 0 <= a < b < |rows| :: rows[a].id != rows[b].id
    ensures Marked(rows, rows[k].id) == rows[k := rows[k].(pushed := true)]
  {
  }

  // Without such a revision nothing is marked.
  lemma PushMarksNothingElse(w: World, i: nat, c: Calls)
    requires i < |w.lines|
    requires Push(w, i, c).1 ==>
               !Overridden(w.table.rows, w.lines[i].id) &&
               forall k | 0 <= k < |w.table.rows| && w.table.rows[k].active :: !In(w.table.rows[k], None)
    ensures Push(w, i, c).0.table == w.table
  {
    hide Usable, Resolve, Overridden;
    NoActiveRow(w.table.rows, |w.table.rows|, None);
  }

  // ---------- Why the nil uuid may not be a line's id ----------

  // A platform publish retires the override of a line with that id.
  lemma NilLineLosesItsOverride(w: World, spec: Spec, fault: Fault)
    requires Publish(w, None, spec, fault).1.Some?
    ensures !Overridden(Publish(w, None, spec, fault).0.table.rows, NIL_UUID)
    ensures Resolve(Publish(w, None, spec, fault).0.table.rows, NIL_UUID) == spec
  {
    hide Latest, ActiveRow;
    PublishActive(w, None, spec, fault);
  }

  // The scope predicate folds the platform's NULL onto the nil uuid, so an overridden
  // line with that id always loses its override to the write it was borrowed for and
  // is put back on it all the same.
  lemma NilLineIsDragged(w: World, spec: Spec, i: nat, c: Calls)
    requires i < |w.lines| && Bound(w.lines[i]) && w.lines[i].id == NIL_UUID
    requires Overridden(w.table.rows, NIL_UUID) && Restore(w, i) != spec
    requires Verify(w, spec, i, c).1.Changed? && !RevertFailed(Verify(w, spec, i, c).1)
    ensures !Consistent(w, Verify(w, spec, i, c).0, i)
  {
    hide ActiveRow, Overridden, Publish, Resolve, Usable;
    var app := w.lines[i].app.value;
    var w1 := PinModel(w, app, spec, c.pin);
    PublishActive(w1, None, spec, c.storing);
    PublishGrows(w1, None, spec, c.storing);
    NilLineLosesItsOverride(w1, spec, c.storing);
    var w' := Verify(w, spec, i, c).0;
    assert w'.live[app] == Some(Restore(w, i));
    assert w.live[app := Some(spec)][app] == Some(spec);
  }

  // So, on any line, a write whose revert did not fail leaves the verification app
  // inconsistent exactly when it changed the platform through an overridden line with
  // that id, whose own model is another.
  lemma VerifyIsConsistentIff(w: World, spec: Spec, i: nat, c: Calls)
    requires i < |w.lines| && Bound(w.lines[i]) && !RevertFailed(Verify(w, spec, i, c).1)
    ensures var (w', a) := Verify(w, spec, i, c);
            Consistent(w, w', i) <==>
            !(a.Changed? && w.lines[i].id == NIL_UUID && Overridden(w.table.rows, NIL_UUID) && Restore(w, i) != spec)
  {
    hide ActiveRow, Overridden, Publish, Resolve, Usable;
    var (w', a) := Verify(w, spec, i, c);
    if w.lines[i].id != NIL_UUID {
      VerifyIsConsistent(w, spec, i, c);
    } else if a.Changed? {
      if Overridden(w.table.rows, NIL_UUID) && Restore(w, i) != spec {
        NilLineIsDragged(w, spec, i, c);
      } else {
        PublishActive(PinModel(w, w.lines[i].app.value, spec, c.pin), None, spec, c.storing);
        NilLineLosesItsOverride(PinModel(w, w.lines[i].app.value, spec, c.pin), spec, c.storing);
      }
    } else {
      PublishActive(PinModel(w, w.lines[i].app.value, spec, c.pin), None, spec, c.storing);
    }
  }

  const OWN := Spec("p", "a", "chat", 0.0, 4096)
  const NEW := Spec("p", "b", "chat", 0.0, 4096)
  const NIL_LINE := World([LineRow(NIL_UUID, Some("x"))],
                          Table([Row(0, Some(NIL_UUID), 1, OWN, true, true)], 1), map["x" := Some(OWN)])

  // Such a write exists.
  lemma NilLineExists()
    ensures exists spec: Spec, c: Calls ::
              var (w', a) := Verify(NIL_LINE, spec, 0, c);
              a.Changed? && !RevertFailed(a) && !Consistent(NIL_LINE, w', 0)
  {
    hide Latest;
    var c := Calls(false, false, Pinned, NoFault, Pinned, NoFault);
    assert Text.Trim("p") == "p" && Text.Trim("a") == "a" && Text.Trim("b") == "b";
    assert Text.Trim("chat") == "chat";
    var rows := NIL_LINE.table.rows;
    assert rows[0].scope == Some(NIL_UUID) && rows[0].active;
    assert ActiveRow(rows, Some(NIL_UUID)) == Some(rows[0]);
    var w1 := PinModel(NIL_LINE, "x", NEW, Pinned);
    PublishActive(w1, None, NEW, NoFault);
    NilLineIsDragged(NIL_LINE, NEW, 0, c);
  }
}
