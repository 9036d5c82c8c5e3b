// The answering model: which configuration a line resolves to, and the writes
// that try a configuration on a real Dify app before they store it - the platform
// default (platform/platform.go), one line's override (aisettings/modeloverride.go)
// and the push of one line (platform/models.go).
module ModelWrite {
  import opened Options
  import opened Versions
  import Text

  type App = string

  datatype Spec = Spec(provider: string, name: string, mode: string, temperature: real, maxTokens: int)

  const MIN_MAX_TOKENS := 2048
  const BUILTIN := Spec("openai_api_compatible", "deepseek-v4-flash", "chat", 0.3, 4096)

  predicate Usable(s: Spec) {
    && Text.Trim(s.provider) != "" && Text.Trim(s.name) != "" && Text.Trim(s.mode) != ""
    && 0.0 <= s.temperature <= 2.0 && s.maxTokens >= MIN_MAX_TOKENS
  }

  // A product line and the Dify app it is bound to.
  datatype LineRow = LineRow(id: string, app: Option<App>)

  predicate Bound(l: LineRow) { l.app.Some? && l.app.value != "" }

  // `live` is the model each app answers with; Dify may leave an app without one.
  datatype World = World(lines: seq<LineRow>, table: Table<Spec>, live: map<App, Option<Spec>>)

  // Writing a model into an app: read back as written, refused with the app
  // untouched, or accepted with an effect nobody confirmed.
  datatype Pin = Pinned | Rejected | Landed(left: Option<Spec>)

  // The form as it arrives; an absent temperature is not zero.
  datatype Request = Request(provider: string, name: string, mode: string, temperature: Option<real>, maxTokens: int)

  // The outcomes of the calls a write makes.
  datatype Calls = Calls(readFails: bool, listFails: bool, pin: Pin, storing: Fault, revert: Pin, marking: Fault)

  datatype Tier = Override | Platform | Builtin

  // ---------- Resolving a line's model ----------

  function PlatformSpec(row: Option<Row<Spec>>): Spec {
    if row.Some? then row.value.content else BUILTIN
  }

  function ResolveScope(line: string, platformRow: Option<Row<Spec>>, overrides: map<string, Row<Spec>>): (Spec, Tier) {
    if line in overrides then (overrides[line].content, Override)
    else if platformRow.Some? then (platformRow.value.content, Platform)
    else (BUILTIN, Builtin)
  }

  // The same on the rows themselves: the line's own active row, then the platform's.
  function Resolve(rows: seq<Row<Spec>>, line: string): Spec {
    if Overridden(rows, line) && ActiveRow(rows, Some(line)).Some? then ActiveRow(rows, Some(line)).value.content
    else PlatformSpec(ActiveRow(rows, None))
  }

  // Provisioning's own copy of that order, which asks by scope.
  function EffectiveModel(rows: seq<Row<Spec>>, line: string): (Spec, Tier) {
    if line != "" && ActiveRow(rows, Some(line)).Some? then (ActiveRow(rows, Some(line)).value.content, Override)
    else if ActiveRow(rows, None).Some? then (ActiveRow(rows, None).value.content, Platform)
    else (BUILTIN, Builtin)
  }

  // ---------- Choosing the line to verify on ----------

  function FirstFree(lines: seq<LineRow>, rows: seq<Row<Spec>>, i: nat): Option<nat>
    requires i <= |lines|
    decreases |lines| - i
  {
    if i == |lines| then None
    else if Bound(lines[i]) && !Overridden(rows, lines[i].id) then Some(i)
    else FirstFree(lines, rows, i + 1)
  }

  function FirstBound(lines: seq<LineRow>, i: nat): Option<nat>
    requires i <= |lines|
    decreases |lines| - i
  {
    if i == |lines| then None else if Bound(lines[i]) then Some(i) else FirstBound(lines, i + 1)
  }

  function Target(w: World): Option<nat> {
    var free := FirstFree(w.lines, w.table.rows, 0);
    if free.Some? then free else FirstBound(w.lines, 0)
  }

  // ---------- Writes ----------

  function Trimmed(q: Request): Spec {
    Spec(Text.Trim(q.provider), Text.Trim(q.name), Text.Trim(q.mode),
         if q.temperature.Some? then q.temperature.value else 0.0, q.maxTokens)
  }

  predicate Acceptable(q: Request) { q.temperature.Some? && Usable(Trimmed(q)) }

  // An unusable configuration is refused before it reaches Dify.
  function Outcome(spec: Spec, p: Pin): Pin { if Usable(spec) then p else Rejected }

  function PinModel(w: World, app: App, spec: Spec, p: Pin): World {
    match Outcome(spec, p)
    case Pinned => w.(live := w.live[app := Some(spec)])
    case Rejected => w
    case Landed(left) => w.(live := w.live[app := left])
  }

  function Publish(w: World, scope: Option<string>, spec: Spec, fault: Fault): (World, Option<Row<Spec>>) {
    var accepted := spec.provider != "" && spec.name != "" && spec.mode != "";
    var (t, r) := Published(w.table, scope, spec, accepted, false, fault);
    (w.(table := t), r)
  }

  datatype Answer =
    | Invalid
    | ReadFailed
    | Unchanged
    | NoTarget
    | Refused(target: nat)
    | Unconfirmed(target: nat, revertFailed: bool)
    | NotStored(target: nat, revertFailed: bool)
    | Changed(target: nat, reverted: bool, revertFailed: bool)
    | NotProjected(target: nat)

  predicate RevertFailed(a: Answer) {
    (a.Unconfirmed? || a.NotStored? || a.Changed?) && a.revertFailed
  }

  function TargetOf(a: Answer): Option<nat> {
    if a.Refused? || a.Unconfirmed? || a.NotStored? || a.Changed? || a.NotProjected? then Some(a.target) else None
  }

  // What the verification target goes back to: its own override, or what the
  // platform was on before.
  function Restore(w: World, i: nat): Spec
    requires i < |w.lines|
  {
    Resolve(w.table.rows, w.lines[i].id)
  }

  // The platform write once the target is chosen.
  function Verify(w: World, spec: Spec, i: nat, c: Calls): (World, Answer)
    requires i < |w.lines| && w.lines[i].app.Some?
  {
    var app := w.lines[i].app.value;
    var restore := Restore(w, i);
    var failed := !Outcome(restore, c.revert).Pinned?;
    var w1 := PinModel(w, app, spec, c.pin);
    match Outcome(spec, c.pin)
    case Rejected => (w1, Refused(i))
    case Landed(_) => (PinModel(w1, app, restore, c.revert), Unconfirmed(i, failed))
    case Pinned =>
      var (w2, r) := Publish(w1, None, spec, c.storing);
      if r.None? then (PinModel(w2, app, restore, c.revert), NotStored(i, failed))
      else if Overridden(w.table.rows, w.lines[i].id) then
        (PinModel(w2, app, restore, c.revert), Changed(i, true, failed))
      else (w2, Changed(i, false, false))
  }

  function Handle(w: World, q: Request, c: Calls): (World, Answer) {
    var spec := Trimmed(q);
    if !Acceptable(q) then (w, Invalid)
    else if c.readFails then (w, ReadFailed)
    else if ActiveRow(w.table.rows, None).Some? && ActiveRow(w.table.rows, None).value.content == spec then
      (w, Unchanged)
    else if c.listFails then (w, ReadFailed)
    else
      match Target(w)
      case None => (w, NoTarget)
      case Some(i) => if i < |w.lines| && w.lines[i].app.Some? then Verify(w, spec, i, c) else (w, NoTarget)
  }

  // One line's own configuration, tried on its own app.
  function SetOverride(w: World, i: nat, q: Request, c: Calls): (World, Answer)
    requires i < |w.lines|
  {
    var spec := Trimmed(q);
    var line := w.lines[i];
    if !Bound(line) then (w, NoTarget)
    else if !Acceptable(q) then (w, Invalid)
    else if c.readFails then (w, ReadFailed)
    else
      var before := Restore(w, i);
      var app := line.app.value;
      var failed := !Outcome(before, c.revert).Pinned?;
      var w1 := PinModel(w, app, spec, c.pin);
      match Outcome(spec, c.pin)
      case Rejected => (w1, Refused(i))
      case Landed(_) => (PinModel(w1, app, before, c.revert), Unconfirmed(i, failed))
      case Pinned =>
        if Overridden(w.table.rows, line.id) && before == spec then (w1, Unchanged)
        else
          var (w2, r) := Publish(w1, Some(line.id), spec, c.storing);
          if r.None? then (PinModel(w2, app, before, c.revert), NotStored(i, failed))
          else (w2.(table := PushMarked(w2.table, r.value.id, c.marking).0), Changed(i, false, false))
  }

  // Dropping the override: the store first, Dify second.
  function Clear(w: World, i: nat, c: Calls): (World, Answer)
    requires i < |w.lines|
  {
    var line := w.lines[i];
    var inherited := PlatformSpec(ActiveRow(w.table.rows, None));
    if !Bound(line) then (w, NoTarget)
    else if c.readFails then (w, ReadFailed)
    else if !Overridden(w.table.rows, line.id) then (w, Unchanged)
    else if !Usable(inherited) then (w, Invalid)
    else if line.id == "" || c.storing != NoFault then (w, ReadFailed)
    else
      var w1 := w.(table := OverrideCleared(w.table, line.id, NoFault).0);
      (PinModel(w1, line.app.value, inherited, c.pin),
       if c.pin.Pinned? then Changed(i, false, false) else NotProjected(i))
  }

  // The revision behind what a line resolves to, when there is one.
  function ResolvedRow(rows: seq<Row<Spec>>, line: string): Option<Row<Spec>> {
    if Overridden(rows, line) && ActiveRow(rows, Some(line)).Some? then ActiveRow(rows, Some(line))
    else ActiveRow(rows, None)
  }

  // Pinning one line to what it resolves to, and marking the revision behind it.
  function Push(w: World, i: nat, c: Calls): (World, bool)
    requires i < |w.lines|
  {
    var line := w.lines[i];
    if !Bound(line) || c.readFails then (w, false)
    else
      var spec := Resolve(w.table.rows, line.id);
      var row := ResolvedRow(w.table.rows, line.id);
      var w1 := PinModel(w, line.app.value, spec, c.pin);
      if !Outcome(spec, c.pin).Pinned? then (w1, false)
      else if row.None? then (w1, true)
      else (w1.(table := PushMarked(w1.table, row.value.id, c.marking).0), true)
  }

  // ---------- The handlers ----------

  class ModelConsole {
    const models: VersionTable<Spec>
    const lines: seq<LineRow>
    var live: map<App, Option<Spec>>

    constructor (models: VersionTable<Spec>, lines: seq<LineRow>, live: map<App, Option<Spec>>)
      ensures this.models == models && State() == World(lines, models.State(), live)
    {
      this.models, this.lines, this.live := models, lines, live;
    }

    ghost function State(): World
      reads this, models
    {
      World(lines, models.State(), live)
    }

    // The validation, the write and the readback.
    method WriteModel(app: App, spec: Spec, p: Pin) returns (done: Pin)
      modifies this`live
      ensures State() == PinModel(old(State()), app, spec, p) && done == Outcome(spec, p)
    {
      if !Usable(spec) {
        return Rejected;
      }
      if p.Pinned? {
        live := live[app := Some(spec)];
      } else if p.Landed? {
        live := live[app := p.left];
      }
      done := p;
    }

    // A bound line without an override, else the first bound line.
    method VerificationTarget(overrides: map<string, Row<Spec>>) returns (r: Option<nat>)
      requires forall id :: id in overrides <==> Overridden(models.rows, id)
      ensures r == Target(State())
    {
      hide Overridden;
      var fallback: Option<nat> := None;
      for i := 0 to |lines|
        invariant FirstFree(lines, models.rows, i) == FirstFree(lines, models.rows, 0)
        invariant fallback == None ==> FirstBound(lines, i) == FirstBound(lines, 0)
        invariant fallback != None ==> fallback == FirstBound(lines, 0)
      {
        if Bound(lines[i]) {
          if lines[i].id !in overrides {
            return Some(i);
          }
          if fallback == None {
            fallback := Some(i);
          }
        }
      }
      r := fallback;
    }

    method HandleModel(q: Request, c: Calls) returns (a: Answer)
      requires models.kind.Models? && OneActive(models.rows)
      modifies this`live, models
      ensures (State(), a) == Handle(old(State()), q, c)
    {
      hide Usable, Published, FirstFree, FirstBound, Overridden, ActiveRow, OneActive;
      var spec := Trimmed(q);
      if !Acceptable(q) {
        return Invalid;
      }
      if c.readFails {
        return ReadFailed;
      }
      var current := models.Active(None);
      if current.Some? && current.value.content == spec {
        return Unchanged;
      }
      if c.listFails {
        return ReadFailed;
      }
      var overrides := models.ActiveOverrides();
      var target := VerificationTarget(overrides);
      if target.None? || target.value >= |lines| || lines[target.value].app.None? {
        return NoTarget;
      }
      var i := target.value;
      var restore := if lines[i].id in overrides then overrides[lines[i].id].content else PlatformSpec(current);
      assert restore == Restore(old(State()), i);
      a := VerifyOn(spec, i, restore, lines[i].id in overrides, c);
    }

    // Try, store, and put the borrowed app back where it belongs.
    method VerifyOn(spec: Spec, i: nat, restore: Spec, overridden: bool, c: Calls) returns (a: Answer)
      requires models.kind.Models? && i < |lines| && lines[i].app.Some?
      requires restore == Restore(State(), i) && overridden == Overridden(models.rows, lines[i].id)
      modifies this`live, models
      ensures (State(), a) == Verify(old(State()), spec, i, c)
    {
      hide Usable, Published, Overridden, Resolve;
      var app := lines[i].app.value;
      var done := WriteModel(app, spec, c.pin);
      if done.Rejected? {
        return Refused(i);
      }
      if done.Landed? {
        var put := WriteModel(app, restore, c.revert);
        return Unconfirmed(i, !put.Pinned?);
      }
      var r := models.Publish(None, spec, spec.provider != "" && spec.name != "" && spec.mode != "", false, c.storing);
      if r.None? {
        var put := WriteModel(app, restore, c.revert);
        return NotStored(i, !put.Pinned?);
      }
      if overridden {
        var put := WriteModel(app, restore, c.revert);
        return Changed(i, true, !put.Pinned?);
      }
      a := Changed(i, false, false);
    }

    // The line's own model, as a read by scope resolves it.
    method ResolveLine(line: string) returns (spec: Spec, overridden: bool)
      requires OneActive(models.rows) && line != NIL_UUID
      ensures spec == Resolve(models.rows, line) && overridden == Overridden(models.rows, line)
    {
      hide ActiveRow, OneActive;
      var platformRow := models.Active(None);
      var own := models.Active(Some(line));
      ActiveIffOverridden(models.rows, line);
      overridden := own.Some?;
      spec := if own.Some? then own.value.content else PlatformSpec(platformRow);
    }

    method SetLine(i: nat, q: Request, c: Calls) returns (a: Answer)
      requires models.kind.Models? && OneActive(models.rows) && i < |lines| && lines[i].id != NIL_UUID
      modifies this`live, models
      ensures (State(), a) == SetOverride(old(State()), i, q, c)
    {
      hide Usable, Published, Overridden, Resolve, OneActive, PushMarked;
      if !Bound(lines[i]) {
        return NoTarget;
      }
      var spec := Trimmed(q);
      if !Acceptable(q) {
        return Invalid;
      }
      if c.readFails {
        return ReadFailed;
      }
      var before, overridden := ResolveLine(lines[i].id);
      var app := lines[i].app.value;
      var done := WriteModel(app, spec, c.pin);
      if done.Rejected? {
        return Refused(i);
      }
      if done.Landed? {
        var put := WriteModel(app, before, c.revert);
        return Unconfirmed(i, !put.Pinned?);
      }
      if overridden && before == spec {
        return Unchanged;
      }
      var accepted := spec.provider != "" && spec.name != "" && spec.mode != "";
      var r := models.Publish(Some(lines[i].id), spec, accepted, false, c.storing);
      if r.None? {
        var put := WriteModel(app, before, c.revert);
        return NotStored(i, !put.Pinned?);
      }
      var marked := models.MarkPushed(r.value.id, c.marking);
      a := Changed(i, false, false);
    }

    method ClearLine(i: nat, c: Calls) returns (a: Answer)
      requires models.kind.Models? && OneActive(models.rows) && i < |lines| && lines[i].id != NIL_UUID
      modifies this`live, models
      ensures (State(), a) == Clear(old(State()), i, c)
    {
      hide Usable, Overridden, OneActive, ActiveRow;
      if !Bound(lines[i]) {
        return NoTarget;
      }
      if c.readFails {
        return ReadFailed;
      }
      var platformRow := models.Active(None);
      var before, overridden := ResolveLine(lines[i].id);
      if !overridden {
        return Unchanged;
      }
      var inherited := PlatformSpec(platformRow);
      if !Usable(inherited) {
        return Invalid;
      }
      if lines[i].id == "" || c.storing != NoFault {
        return ReadFailed;
      }
      var cleared := models.ClearOverride(lines[i].id, NoFault);
      var done := WriteModel(lines[i].app.value, inherited, c.pin);
      a := if done.Pinned? then Changed(i, false, false) else NotProjected(i);
    }

    method PushOne(i: nat, c: Calls) returns (ok: bool)
      requires models.kind.Models? && OneActive(models.rows) && i < |lines|
      modifies this`live, models
      ensures (State(), ok) == Push(old(State()), i, c)
    {
      hide Usable, Overridden, OneActive, ActiveRow, PushMarked;
      if !Bound(lines[i]) || c.readFails {
        return false;
      }
      var platformRow := models.Active(None);
      var overrides := models.ActiveOverrides();
      var (spec, tier) := ResolveScope(lines[i].id, platformRow, overrides);
      var row := if lines[i].id in overrides then Some(overrides[lines[i].id]) else platformRow;
      var done := WriteModel(lines[i].app.value, spec, c.pin);
      if !done.Pinned? {
        return false;
      }
      if row.Some? {
        var marked := models.MarkPushed(row.value.id, c.marking);
      }
      ok := true;
    }
  }

  // ---------- The two copies of the fallback order ----------

  // Away from the nil uuid a line has a row of its own exactly when its scope has one.
  lemma ActiveIffOverridden(rows: seq<Row<Spec>>, line: string)
    requires line != NIL_UUID
    ensures ActiveRow(rows, Some(line)).Some? <==> Overridden(rows, line)
  {
    NoActiveRow(rows, |rows|, Some(line));
    forall k | 0 <= k < |rows|
      ensures In(rows[k], Some(line)) <==> rows[k].scope == Some(line)
    {
    }
  }

  // The map form and the row form of the fallback are one function.
  lemma ResolveScopeIsResolve(rows: seq<Row<Spec>>, line: string, overrides: map<string, Row<Spec>>)
    requires forall id :: id in overrides <==> Overridden(rows, id)
    requires forall id :: id in overrides ==> ActiveRow(rows, Some(id)) == Some(overrides[id])
    ensures ResolveScope(line, ActiveRow(rows, None), overrides).0 == Resolve(rows, line)
    ensures ResolveScope(line, ActiveRow(rows, None), overrides).1.Override? <==> Overridden(rows, line)
  {
    hide Overridden, ActiveRow;
  }

  // Provisioning pins a new app to what the roster will later hold it to.
  lemma ProvisioningAgrees(rows: seq<Row<Spec>>, line: string, overrides: map<string, Row<Spec>>)
    requires line != "" && line != NIL_UUID
    requires forall id :: id in overrides <==> Overridden(rows, id)
    requires forall id :: id in overrides ==> ActiveRow(rows, Some(id)) == Some(overrides[id])
    ensures EffectiveModel(rows, line) == ResolveScope(line, ActiveRow(rows, None), overrides)
  {
    hide Overridden, ActiveRow;
    ActiveIffOverridden(rows, line);
  }
}
