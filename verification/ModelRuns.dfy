// Over every run of the model writes: a line with an override keeps answering on
// it, whatever is done to the platform default and to other lines, unless an
// answer reported that a configuration could not be put back or delivered.
module ModelRuns {
  import opened Options
  import opened Versions
  import opened ModelWrite
  import opened ModelSafety
  import VersionRuns

  datatype Action =
    | Platform(q: Request, c: Calls)
    | SetLine(i: nat, q: Request, c: Calls)
    | ClearLine(i: nat, c: Calls)
    | PushLine(i: nat, c: Calls)

  // The new state, and whether the answer reported nothing left undone.
  function Step(w: World, a: Action): (World, bool) {
    match a
    case Platform(q, c) =>
      var (w', r) := Handle(w, q, c);
      (w', !RevertFailed(r))
    case SetLine(i, q, c) =>
      if i >= |w.lines| then (w, true)
      else
        var (w', r) := SetOverride(w, i, q, c);
        (w', !RevertFailed(r))
    case ClearLine(i, c) =>
      if i >= |w.lines| then (w, true)
      else
        var (w', r) := Clear(w, i, c);
        (w', !r.NotProjected?)
    case PushLine(i, c) => if i >= |w.lines| then (w, true) else Push(w, i, c)
  }

  function After(w: World, acts: seq<Action>, n: nat): World
    requires n <= |acts|
  {
    if n == 0 then w else Step(After(w, acts, n - 1), acts[n - 1]).0
  }

  ghost predicate NothingReported(w: World, acts: seq<Action>, n: nat)
    requires n <= |acts|
  {
    forall k :: 0 <= k < n ==> Step(After(w, acts, k), acts[k]).1
  }

  // A line with an override answers on it.
  predicate InForce(w: World, i: nat)
    requires i < |w.lines|
  {
    Bound(w.lines[i]) && Overridden(w.table.rows, w.lines[i].id) ==>
      w.lines[i].app.value in w.live && w.live[w.lines[i].app.value] == Some(Resolve(w.table.rows, w.lines[i].id))
  }

  ghost predicate OverridesInForce(w: World) {
    forall i :: 0 <= i < |w.lines| ==> InForce(w, i)
  }

  // What a line resolves to, and by which tier, is the same in both tables.
  ghost predicate SameFor(w: World, w': World, line: string) {
    && Overridden(w'.table.rows, line) == Overridden(w.table.rows, line)
    && (Overridden(w.table.rows, line) ==> Resolve(w'.table.rows, line) == Resolve(w.table.rows, line))
  }

  // ---------- Soundness of the table ----------

  lemma PublishSound(w: World, scope: Option<string>, spec: Spec, fault: Fault)
    requires Valid(w)
    ensures Valid(Publish(w, scope, spec, fault).0)
  {
    hide VersionRuns.Sound, VersionRuns.Extends, Published;
    var accepted := spec.provider != "" && spec.name != "" && spec.mode != "";
    VersionRuns.PublishPreserves(Models, w.table, scope, spec, accepted, false, fault);
  }

  lemma MarkSound(w: World, id: nat, fault: Fault)
    requires Valid(w)
    ensures Valid(w.(table := PushMarked(w.table, id, fault).0))
  {
    hide VersionRuns.Sound, VersionRuns.Extends, PushMarked;
    VersionRuns.MarkPreserves(Models, w.table, id, fault);
  }

  lemma ClearSound(w: World, line: string)
    requires Valid(w)
    ensures Valid(w.(table := OverrideCleared(w.table, line, NoFault).0))
  {
    hide VersionRuns.Sound, VersionRuns.Extends, OverrideCleared;
    VersionRuns.ClearPreserves(w.table, line, NoFault);
  }

  lemma PinKeepsTable(w: World, app: App, spec: Spec, p: Pin)
    ensures PinModel(w, app, spec, p).table == w.table && PinModel(w, app, spec, p).lines == w.lines
    ensures Valid(w) ==> Valid(PinModel(w, app, spec, p))
  {
    hide VersionRuns.Sound, Usable;
  }

  // ---------- The platform write ----------

  lemma PlatformKeepsOverrides(w: World, q: Request, c: Calls, line: string)
    requires Valid(w) && line != NIL_UUID
    ensures var w' := Handle(w, q, c).0; Valid(w') && w'.lines == w.lines && SameFor(w, w', line)
  {
    hide Valid, Overridden, Resolve, Publish, ActiveRow, Usable, FirstFree, FirstBound, Acceptable;
    if Target(w).Some? && Target(w).value < |w.lines| && w.lines[Target(w).value].app.Some? {
      var i := Target(w).value;
      var app := w.lines[i].app.value;
      var spec := Trimmed(q);
      var w1 := PinModel(w, app, spec, c.pin);
      PinKeepsTable(w, app, spec, c.pin);
      PinKeepsTable(w1, app, Restore(w, i), c.revert);
      var (w2, r) := Publish(w1, None, spec, c.storing);
      PublishSound(w1, None, spec, c.storing);
      PublishActive(w1, None, spec, c.storing);
      PinKeepsTable(w2, app, Restore(w, i), c.revert);
      if r.Some? {
        PlatformPublishResolves(w1, spec, c.storing, line);
      }
    }
  }

  // ---------- One line's writes ----------

  lemma SetKeepsOthers(w: World, i: nat, q: Request, c: Calls, line: string)
    requires Valid(w) && i < |w.lines| && line != NIL_UUID && w.lines[i].id != NIL_UUID
    ensures var w' := SetOverride(w, i, q, c).0;
            Valid(w') && w'.lines == w.lines && (line != w.lines[i].id ==> SameFor(w, w', line))
  {
    hide Valid, Overridden, Resolve, Publish, Usable, Acceptable, PushMarked;
    if Bound(w.lines[i]) {
      var app := w.lines[i].app.value;
      var spec := Trimmed(q);
      var w1 := PinModel(w, app, spec, c.pin);
      PinKeepsTable(w, app, spec, c.pin);
      PinKeepsTable(w1, app, Restore(w, i), c.revert);
      var (w2, r) := Publish(w1, Some(w.lines[i].id), spec, c.storing);
      PublishSound(w1, Some(w.lines[i].id), spec, c.storing);
      PublishActive(w1, Some(w.lines[i].id), spec, c.storing);
      PinKeepsTable(w2, app, Restore(w, i), c.revert);
      if r.Some? {
        LinePublishResolves(w1, i, spec, c.storing, line);
        MarkResolves(w2, r.value.id, c.marking, line);
        MarkSound(w2, r.value.id, c.marking);
      }
    }
  }

  lemma ClearKeepsOthers(w: World, i: nat, c: Calls, line: string)
    requires Valid(w) && i < |w.lines| && line != NIL_UUID && w.lines[i].id != NIL_UUID
    ensures var w' := Clear(w, i, c).0;
            Valid(w') && w'.lines == w.lines && (line != w.lines[i].id ==> SameFor(w, w', line))
  {
    hide Valid, Overridden, Usable, OverrideCleared, ActiveRow;
    var id := w.lines[i].id;
    if Bound(w.lines[i]) {
      var w1 := w.(table := OverrideCleared(w.table, id, NoFault).0);
      ClearSound(w, id);
      PinKeepsTable(w1, w.lines[i].app.value, PlatformSpec(ActiveRow(w.table.rows, None)), c.pin);
      if line != id {
        ClearElsewhere(w.table, id, line);
        ActiveIffOverridden(w.table.rows, line);
        ActiveIffOverridden(w1.table.rows, line);
      }
    }
  }

  lemma ClearElsewhere(t: Table<Spec>, id: string, line: string)
    requires line != id
    ensures ActiveRow(OverrideCleared(t, id, NoFault).0.rows, Some(line)) == ActiveRow(t.rows, Some(line))
  {
    hide ActiveRow, VersionRuns.SameScope;
    if id != "" {
      VersionRuns.ClearLeaves(t.rows, id, Some(line));
      VersionRuns.SameScopeSameActiveRow(t.rows, Cleared(t.rows, id), Some(line));
    }
  }

  // ---------- One step ----------

  // A write to one line that leaves the others' overrides and apps alone keeps them
  // in force; so does one whose own app ended on what the line resolves to.
  lemma OneLineMoves(w: World, w': World, i: nat)
    requires Valid(w) && OverridesInForce(w) && i < |w.lines| && w'.lines == w.lines
    requires Bound(w.lines[i]) && Consistent(w, w', i)
    requires forall k :: 0 <= k < |w.lines| && k != i ==> SameFor(w, w', w.lines[k].id)
    ensures OverridesInForce(w')
  {
    hide Overridden, Resolve, VersionRuns.Sound;
    forall k | 0 <= k < |w'.lines|
      ensures InForce(w', k)
    {
      assert InForce(w, k);
      if k != i {
        assert SameFor(w, w', w.lines[k].id);
      }
      if k == i && w'.live == w.live && w'.table.rows == w.table.rows {
        assert InForce(w', k);
      }
    }
  }

  lemma StepKeepsOverrides(w: World, a: Action)
    requires Valid(w) && OverridesInForce(w) && Step(w, a).1
    ensures Valid(Step(w, a).0) && OverridesInForce(Step(w, a).0)
  {
    hide Overridden, Resolve, VersionRuns.Sound, OverridesInForce, Handle, SetOverride, Clear, Push, Consistent,
      SameFor, ActiveRow, Target, Trimmed;
    match a
    case Platform(q, c) =>
      var (w', r) := Handle(w, q, c);
      VerifiedAppIsConsistent(w, q, c);
      PlatformKeepsOverrides(w, q, c, "");
      if TargetOf(r).Some? {
        TargetIs(w);
        forall k | 0 <= k < |w.lines| && k != r.target
          ensures SameFor(w, w', w.lines[k].id)
        {
          PlatformKeepsOverrides(w, q, c, w.lines[k].id);
        }
        OneLineMoves(w, w', r.target);
      }
    case SetLine(i, q, c) =>
      if i < |w.lines| {
        var w' := SetOverride(w, i, q, c).0;
        SetIsConsistent(w, i, q, c);
        SetKeepsOthers(w, i, q, c, "");
        if Bound(w.lines[i]) {
          forall k | 0 <= k < |w.lines| && k != i
            ensures SameFor(w, w', w.lines[k].id)
          {
            SetKeepsOthers(w, i, q, c, w.lines[k].id);
          }
          OneLineMoves(w, w', i);
        } else {
          UnboundIsLeftAlone(w, i, q, c);
        }
      }
    case ClearLine(i, c) =>
      if i < |w.lines| {
        var (w', r) := Clear(w, i, c);
        ClearIsConsistent(w, i, c);
        ClearKeepsOthers(w, i, c, "");
        if r.Changed? {
          forall k | 0 <= k < |w.lines| && k != i
            ensures SameFor(w, w', w.lines[k].id)
          {
            ClearKeepsOthers(w, i, c, w.lines[k].id);
          }
          OneLineMoves(w, w', i);
        }
      }
    case PushLine(i, c) =>
      if i < |w.lines| {
        PushKeepsOverrides(w, i, c);
      }
  }

  lemma UnboundIsLeftAlone(w: World, i: nat, q: Request, c: Calls)
    requires i < |w.lines| && !Bound(w.lines[i])
    ensures SetOverride(w, i, q, c).0 == w
  {
  }

  // A push that succeeds puts the line's app on what the line resolves to.
  lemma PushKeepsOverrides(w: World, i: nat, c: Calls)
    requires Valid(w) && OverridesInForce(w) && i < |w.lines| && Push(w, i, c).1
    ensures Valid(Push(w, i, c).0) && OverridesInForce(Push(w, i, c).0)
    ensures Consistent(w, Push(w, i, c).0, i)
    ensures w.lines[i].app.value in Push(w, i, c).0.live
    ensures Push(w, i, c).0.live[w.lines[i].app.value] == Some(Resolve(Push(w, i, c).0.table.rows, w.lines[i].id))
  {
    hide Overridden, Resolve, OverridesInForce, LinesApart, Usable, ActiveRow, PushMarked, Valid, VersionRuns.Sound;
    var w' := Push(w, i, c).0;
    var row := ResolvedRow(w.table.rows, w.lines[i].id);
    PinKeepsTable(w, w.lines[i].app.value, Resolve(w.table.rows, w.lines[i].id), c.pin);
    var w1 := PinModel(w, w.lines[i].app.value, Resolve(w.table.rows, w.lines[i].id), c.pin);
    if row.Some? {
      MarkSound(w1, row.value.id, c.marking);
      forall k | 0 <= k < |w.lines|
        ensures Resolve(w'.table.rows, w.lines[k].id) == Resolve(w.table.rows, w.lines[k].id)
        ensures SameFor(w, w', w.lines[k].id)
      {
        MarkResolves(w1, row.value.id, c.marking, w.lines[k].id);
      }
    }
    OneLineMoves(w, w', i);
  }

  // ---------- Whole runs ----------

  lemma {:induction false} OverridesStayInForce(w: World, acts: seq<Action>, n: nat)
    requires Valid(w) && OverridesInForce(w) && n <= |acts| && NothingReported(w, acts, n)
    ensures Valid(After(w, acts, n)) && OverridesInForce(After(w, acts, n))
  {
    hide Valid, OverridesInForce, Step;
    if n > 0 {
      assert NothingReported(w, acts, n - 1);
      OverridesStayInForce(w, acts, n - 1);
      assert Step(After(w, acts, n - 1), acts[n - 1]).1;
      StepKeepsOverrides(After(w, acts, n - 1), acts[n - 1]);
    }
  }
}
