// What the model writes answer, told from the request, the lines and the calls that
// fail (platform/platform.go, aisettings/modeloverride.go, platform/models.go).
module ModelAnswers {
  import opened Options
  import opened Versions
  import opened ModelWrite
  import opened ModelSafety
  import Text
  import VersionRuns

  // A request names a provider, a model and a mode, and gives a temperature within 0 and 2
  // and a token ceiling of at least 2048.
  predicate WellMade(q: Request) {
    && Text.Trim(q.provider) != "" && Text.Trim(q.name) != "" && Text.Trim(q.mode) != ""
    && q.temperature.Some? && 0.0 <= q.temperature.value <= 2.0 && q.maxTokens >= 2048
  }

  function Wanted(q: Request): Spec
    requires WellMade(q)
  {
    Spec(Text.Trim(q.provider), Text.Trim(q.name), Text.Trim(q.mode), q.temperature.value, q.maxTokens)
  }

  // Only such a request is acceptable, and Dify is then asked for exactly what it names.
  lemma AcceptableIff(q: Request)
    ensures Acceptable(q) <==> WellMade(q)
    ensures WellMade(q) ==> Trimmed(q) == Wanted(q) && Usable(Wanted(q)) && forall p :: Outcome(Wanted(q), p) == p
  {
    hide Text.Trim;
    TrimTwice(q.provider);
    TrimTwice(q.name);
    TrimTwice(q.mode);
  }

  lemma TrimTwice(s: string)
    ensures Text.Trim(Text.Trim(s)) == Text.Trim(s)
  {
    Text.TrimIsTrimmed(s);
    Text.TrimmedStays(Text.Trim(s));
  }

  // Putting an app back worked.
  predicate PutBack(w: World, i: nat, c: Calls)
    requires i < |w.lines|
  {
    c.revert.Pinned? && Usable(Restore(w, i))
  }

  predicate InForce(w: World, q: Request)
    requires WellMade(q)
  {
    ActiveRow(w.table.rows, None).Some? && ActiveRow(w.table.rows, None).value.content == Wanted(q)
  }

  // ---------- The platform write ----------

  // Each answer is given exactly in its case: a malformed request, a read that failed, a
  // default already in force, no line with an app; then refused by Dify, unconfirmed by
  // it, not stored, or changed. Whether the borrowed app was put back is said truly.
  lemma PlatformAnswers(w: World, q: Request, c: Calls)
    requires Valid(w)
    ensures var (w', a) := Handle(w, q, c);
            if !WellMade(q) then a == Invalid && w' == w
            else if c.readFails then a == ReadFailed && w' == w
            else if InForce(w, q) then a == Unchanged && w' == w
            else if c.listFails then a == ReadFailed && w' == w
            else if forall k | 0 <= k < |w.lines| :: !Bound(w.lines[k]) then a == NoTarget && w' == w
            else
              && Target(w).Some? && Target(w).value < |w.lines|
              && var i := Target(w).value;
                 var back := PutBack(w, i, c);
                 if c.pin.Rejected? then a == Refused(i) && w' == w
                 else if c.pin.Landed? then a == Unconfirmed(i, !back) && w'.table == w.table
                 else if c.storing != NoFault then a == NotStored(i, !back) && w'.table.rows == w.table.rows
                 else
                   && ActiveRow(w'.table.rows, None).Some?
                   && ActiveRow(w'.table.rows, None).value.content == Wanted(q)
                   && a == if Overridden(w.table.rows, w.lines[i].id) then Changed(i, true, !back)
                           else Changed(i, false, false)
  {
    hide ActiveRow, Overridden, Usable, Resolve, FirstFree, FirstBound, Text.Trim, Acceptable, Trimmed;
    AcceptableIff(q);
    TargetIs(w);
    if WellMade(q) && Target(w).Some? {
      VerifyAnswers(w, Wanted(q), Target(w).value, c);
    }
  }

  lemma VerifyAnswers(w: World, spec: Spec, i: nat, c: Calls)
    requires i < |w.lines| && w.lines[i].app.Some? && Usable(spec)
    ensures var (w', a) := Verify(w, spec, i, c);
            var back := PutBack(w, i, c);
            if c.pin.Rejected? then a == Refused(i) && w' == w
            else if c.pin.Landed? then a == Unconfirmed(i, !back) && w'.table == w.table
            else if c.storing != NoFault then a == NotStored(i, !back) && w'.table.rows == w.table.rows
            else
              && ActiveRow(w'.table.rows, None).Some?
              && ActiveRow(w'.table.rows, None).value.content == spec
              && a == if Overridden(w.table.rows, w.lines[i].id) then Changed(i, true, !back)
                      else Changed(i, false, false)
  {
    hide ActiveRow, Overridden, Resolve, Latest, Text.Trim;
    var w1 := PinModel(w, w.lines[i].app.value, spec, c.pin);
    PublishActive(w1, None, spec, c.storing);
    UsableIsNamed(spec);
  }

  lemma UsableIsNamed(spec: Spec)
    ensures Usable(spec) ==> spec.provider != "" && spec.name != "" && spec.mode != ""
  {
    assert Text.Trim("") == "";
  }

  // ---------- The override writes ----------

  lemma OverrideAnswers(w: World, i: nat, q: Request, c: Calls)
    requires Valid(w) && i < |w.lines|
    ensures var (w', a) := SetOverride(w, i, q, c);
            var id, back := w.lines[i].id, PutBack(w, i, c);
            if !Bound(w.lines[i]) then a == NoTarget && w' == w
            else if !WellMade(q) then a == Invalid && w' == w
            else if c.readFails then a == ReadFailed && w' == w
            else if c.pin.Rejected? then a == Refused(i) && w' == w
            else if c.pin.Landed? then a == Unconfirmed(i, !back) && w'.table == w.table
            else if Overridden(w.table.rows, id) && Resolve(w.table.rows, id) == Wanted(q) then
              a == Unchanged && w'.table == w.table && w'.live == w.live[w.lines[i].app.value := Some(Wanted(q))]
            else if c.storing != NoFault || id == "" then a == NotStored(i, !back) && w'.table.rows == w.table.rows
            else
              && a == Changed(i, false, false) && Resolve(w'.table.rows, id) == Wanted(q)
              && ActiveRow(w'.table.rows, Some(id)).Some?
              && (ActiveRow(w'.table.rows, Some(id)).value.pushed <==> c.marking == NoFault)
  {
    hide ActiveRow, Overridden, Resolve, Latest, Text.Trim, Acceptable, Trimmed, PushMarked, Valid;
    AcceptableIff(q);
    SetIsConsistent(w, i, q, c);
    if Bound(w.lines[i]) && WellMade(q) {
      var w1 := PinModel(w, w.lines[i].app.value, Wanted(q), c.pin);
      PublishActive(w1, Some(w.lines[i].id), Wanted(q), c.storing);
      UsableIsNamed(Wanted(q));
      var (w2, r) := Publish(w1, Some(w.lines[i].id), Wanted(q), c.storing);
      if r.Some? {
        NewRowIsUnpushed(w1, Some(w.lines[i].id), Wanted(q), c.storing);
        MarkShows(w2.table, Some(w.lines[i].id), r.value.id, c.marking);
      }
    }
  }

  lemma NewRowIsUnpushed(w: World, scope: Option<string>, spec: Spec, fault: Fault)
    ensures Publish(w, scope, spec, fault).1.Some? ==> !Publish(w, scope, spec, fault).1.value.pushed
  {
  }

  lemma MarkShows(t: Table<Spec>, scope: Option<string>, id: nat, fault: Fault)
    requires ActiveRow(t.rows, scope).Some? && ActiveRow(t.rows, scope).value.id == id
    ensures var rows := PushMarked(t, id, fault).0.rows;
            ActiveRow(rows, scope).Some? &&
            (ActiveRow(rows, scope).value.pushed <==> ActiveRow(t.rows, scope).value.pushed || fault == NoFault)
  {
    hide ActiveUpTo;
    VersionRuns.MarkedActive(t.rows, |t.rows|, id, scope);
    var k := ActiveComesFromARow(t.rows, |t.rows|, scope);
  }

  // Clearing is answered from what it found: no app, no reading, no override, a platform
  // default that could not be written, or no storing; then whether Dify took it.
  lemma ClearAnswers(w: World, i: nat, c: Calls)
    requires i < |w.lines|
    ensures var (w', a) := Clear(w, i, c);
            var id, inherited := w.lines[i].id, PlatformSpec(ActiveRow(w.table.rows, None));
            if !Bound(w.lines[i]) then a == NoTarget && w' == w
            else if c.readFails then a == ReadFailed && w' == w
            else if !Overridden(w.table.rows, id) then a == Unchanged && w' == w
            else if !Usable(inherited) then a == Invalid && w' == w
            else if id == "" || c.storing != NoFault then a == ReadFailed && w' == w
            else if c.pin.Pinned? then
              a == Changed(i, false, false) && w'.live == w.live[w.lines[i].app.value := Some(inherited)]
            else
              && a == NotProjected(i)
              && w'.live == if c.pin.Landed? then w.live[w.lines[i].app.value := c.pin.left] else w.live
  {
    hide ActiveRow, Overridden, Usable, OverrideCleared;
  }

  // ---------- The push ----------

  // A push succeeds exactly on a line with an app whose rows can be read, whose resolved
  // model can be written, and whose app takes it; one that fails marks nothing.
  lemma PushAnswers(w: World, i: nat, c: Calls)
    requires i < |w.lines|
    ensures var (w', ok) := Push(w, i, c);
            var spec := Resolve(w.table.rows, w.lines[i].id);
            && (ok <==> Bound(w.lines[i]) && !c.readFails && Usable(spec) && c.pin.Pinned?)
            && (ok ==> w'.live == w.live[w.lines[i].app.value := Some(spec)])
            && (!ok ==> w'.table == w.table)
            && (!ok ==>
                  w'.live == if Bound(w.lines[i]) && !c.readFails && Usable(spec) && c.pin.Landed?
                             then w.live[w.lines[i].app.value := c.pin.left] else w.live)
  {
    hide Usable, Resolve, ResolvedRow, PushMarked;
  }
}
