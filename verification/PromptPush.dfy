// The prompt's local authority and its copy in Dify. A write stores a revision
// first, sends its text second and records its arrival third, and each part may
// fail on its own: the template push (platform/prompts.go), the console's save,
// reset and rollback (aisettings.go), the migration's seed (promptaudit) and the
// first revision of a newly provisioned app (tenants_provision.go).
module PromptPush {
  import opened Options
  import opened Versions
  import Text
  import VersionRuns

  type Line = string
  type App = string

  // `bound` is each line's Dify app, `live` the text the app answers with, `put`
  // the text the console last sent there, or stored after reading it there.
  datatype World = World(table: Table<string>, bound: map<Line, App>, live: map<App, string>, put: map<App, string>)

  // An update of the app's prompt: read back as it was sent, failed before it wrote, or
  // failed after. A text that could not be read back, or read back as another, may be
  // the one sent, the one before, or any other: `left` is what the app is left with.
  datatype Delivery = Arrived | Lost | Unconfirmed(left: string)

  // Refused before anything was written; nothing stored; stored and not in
  // effect; stored and in effect.
  datatype Outcome = Refused | NotStored | Stored(row: Row<string>) | InEffect(row: Row<string>)

  // The outcomes of the calls one write makes.
  datatype Calls = Calls(readFails: bool, storing: Fault, delivery: Delivery, marking: Fault)

  function OnRow(w: World, line: Line): Option<Row<string>> { ActiveRow(w.table.rows, Some(line)) }

  function Put(w: World, app: App, text: string, d: Delivery): World {
    match d
    case Lost => w
    case Arrived => w.(live := w.live[app := text], put := w.put[app := text])
    case Unconfirmed(left) => w.(live := w.live[app := left], put := w.put[app := text])
  }

  function Project(w: World, app: App, row: Row<string>, c: Calls): (World, Outcome) {
    var w' := Put(w, app, row.content, c.delivery);
    if !c.delivery.Arrived? then (w', Stored(row))
    else (w'.(table := PushMarked(w'.table, row.id, c.marking).0), InEffect(row))
  }

  function Store(w: World, line: Line, body: string, pushed: bool, fault: Fault): (World, Option<Row<string>>) {
    var (t, r) := Published(w.table, Some(line), body, body != "", pushed, fault);
    (w.(table := t), r)
  }

  // The active revision is reused when it already holds the text.
  function Reusable(w: World, line: Line, body: string): bool {
    OnRow(w, line).Some? && OnRow(w, line).value.content == body
  }

  function StoreRevision(w: World, line: Line, body: string, asks: bool, fault: Fault): (World, Option<Row<string>>) {
    if asks && Reusable(w, line, body) then (w, OnRow(w, line)) else Store(w, line, body, false, fault)
  }

  function StoreAndProject(w: World, line: Line, body: string, asks: bool, c: Calls): (World, Outcome)
    requires line in w.bound
  {
    var (w', r) := StoreRevision(w, line, body, asks, c.storing);
    if r.None? then (w', NotStored) else Project(w', w.bound[line], r.value, c)
  }

  // The platform's push. A failed read of the active revision stops it.
  function PushTemplate(w: World, line: Line, template: string, c: Calls): (World, Outcome) {
    if line !in w.bound || c.readFails then (w, Refused) else StoreAndProject(w, line, template, true, c)
  }

  // The console's save. A failed read of the active revision counts as none.
  function Save(w: World, line: Line, body: string, meetsContract: bool, c: Calls): (World, Outcome) {
    if line !in w.bound || Text.Trim(body) == "" || !meetsContract then (w, Refused)
    else StoreAndProject(w, line, body, !c.readFails, c)
  }

  function Reset(w: World, line: Line, template: string, c: Calls): (World, Outcome) {
    if line !in w.bound then (w, Refused) else StoreAndProject(w, line, template, !c.readFails, c)
  }

  // `clears` is whether the rollback clears pushed_at; the console's does.
  function Rollback(w: World, line: Line, version: nat, meetsContract: bool, clears: bool, c: Calls): (World, Outcome) {
    if line !in w.bound || version == 0 || c.readFails || !Has(w.table.rows, Some(line), version) || !meetsContract then
      (w, Refused)
    else
      var (t, done) := RolledBack(w.table, Some(line), version, clears, c.storing);
      var w' := w.(table := t);
      if !done || OnRow(w', line).None? then (w', NotStored)
      else Project(w', w.bound[line], OnRow(w', line).value, c)
  }

  // Seeding reads Dify and stores what it read; it never writes there.
  function Seed(w: World, line: Line, c: Calls): World {
    if line !in w.bound || w.bound[line] !in w.live || c.readFails then w
    else
      var text := w.live[w.bound[line]];
      if OnRow(w, line).Some? || Text.Trim(text) == "" then w
      else Store(w, line, text, true, c.storing).0.(put := w.put[w.bound[line] := text])
  }

  // A line without an app is bound to a newly created one, which carries `initial`,
  // and gets its first revision.
  function Provision(w: World, line: Line, app: App, initial: string, template: string, c: Calls): World {
    if line == "" || line in w.bound || app in w.live then w
    else
      var w' := w.(bound := w.bound[line := app], live := w.live[app := initial]);
      if c.readFails || Text.Trim(initial) == "" then Store(w', line, template, false, c.storing).0
      else Store(w', line, initial, true, c.storing).0.(put := w'.put[app := initial])
  }

  // Somebody edits the app in Dify's own console.
  function HandEdit(w: World, app: App, text: string): World {
    if app in w.live then w.(live := w.live[app := text]) else w
  }

  // ---------- The handlers ----------

  class PromptConsole {
    const versions: VersionTable<string>
    var bound: map<Line, App>
    var live: map<App, string>
    ghost var put: map<App, string>

    constructor (versions: VersionTable<string>)
      requires versions.kind.Prompts?
      ensures this.versions == versions && State() == World(versions.State(), map[], map[], map[])
    {
      this.versions := versions;
      bound, live, put := map[], map[], map[];
    }

    ghost function State(): World
      reads this, versions
    {
      World(versions.State(), bound, live, put)
    }

    method UpdateSystemPrompt(app: App, text: string, d: Delivery) returns (ok: bool)
      modifies this
      ensures State() == Put(old(State()), app, text, d) && ok == d.Arrived?
    {
      if d.Lost? {
        return false;
      }
      put := put[app := text];
      live := live[app := if d.Arrived? then text else d.left];
      ok := d.Arrived?;
    }

    method ProjectPrompt(app: App, row: Row<string>, c: Calls) returns (o: Outcome)
      requires versions.kind.Prompts?
      modifies this, versions
      ensures (State(), o) == Project(old(State()), app, row, c)
    {
      var ok := UpdateSystemPrompt(app, row.content, c.delivery);
      if !ok {
        return Stored(row);
      }
      var marked := versions.MarkPushed(row.id, c.marking);
      o := InEffect(row);
    }

    method StoreTheRevision(line: Line, body: string, asks: bool, fault: Fault) returns (r: Option<Row<string>>)
      requires OneActive(versions.rows)
      modifies versions
      ensures (State(), r) == StoreRevision(old(State()), line, body, asks, fault)
    {
      if asks {
        r := versions.Active(Some(line));
        if r.Some? && r.value.content == body {
          return;
        }
      }
      r := versions.Publish(Some(line), body, body != "", false, fault);
    }

    // Local authority first, Dify second.
    method PushOne(line: Line, template: string, c: Calls) returns (o: Outcome)
      requires versions.kind.Prompts? && OneActive(versions.rows)
      modifies this, versions
      ensures (State(), o) == PushTemplate(old(State()), line, template, c)
    {
      if line !in bound || c.readFails {
        return Refused;
      }
      var r := StoreTheRevision(line, template, true, c.storing);
      if r.None? {
        return NotStored;
      }
      o := ProjectPrompt(bound[line], r.value, c);
    }

    method UpdatePrompt(line: Line, body: string, meetsContract: bool, c: Calls) returns (o: Outcome)
      requires versions.kind.Prompts? && OneActive(versions.rows)
      modifies this, versions
      ensures (State(), o) == Save(old(State()), line, body, meetsContract, c)
    {
      if line !in bound || Text.Trim(body) == "" || !meetsContract {
        return Refused;
      }
      var r := StoreTheRevision(line, body, !c.readFails, c.storing);
      if r.None? {
        return NotStored;
      }
      o := ProjectPrompt(bound[line], r.value, c);
    }

    method ResetPrompt(line: Line, template: string, c: Calls) returns (o: Outcome)
      requires versions.kind.Prompts? && OneActive(versions.rows)
      modifies this, versions
      ensures (State(), o) == Reset(old(State()), line, template, c)
    {
      if line !in bound {
        return Refused;
      }
      var r := StoreTheRevision(line, template, !c.readFails, c.storing);
      if r.None? {
        return NotStored;
      }
      o := ProjectPrompt(bound[line], r.value, c);
    }

    method RollbackPrompt(line: Line, version: nat, meetsContract: bool, c: Calls) returns (o: Outcome)
      requires versions.kind.Prompts? && VersionRuns.Sound(Prompts, versions.State())
      modifies this, versions
      ensures (State(), o) == Rollback(old(State()), line, version, meetsContract, true, c)
    {
      if line !in bound || version == 0 || c.readFails {
        return Refused;
      }
      var target := versions.Get(Some(line), version);
      if target.None? || !meetsContract {
        return Refused;
      }
      var done := versions.Rollback(Some(line), version, c.storing);
      VersionRuns.RollbackPreserves(Prompts, old(versions.State()), Some(line), version, true, c.storing);
      if !done {
        return NotStored;
      }
      var r := versions.Active(Some(line));
      if r.None? {
        return NotStored;
      }
      o := ProjectPrompt(bound[line], r.value, c);
    }

    method SeedLine(line: Line, c: Calls)
      requires OneActive(versions.rows)
      modifies this, versions
      ensures State() == Seed(old(State()), line, c)
    {
      if line !in bound || bound[line] !in live || c.readFails {
        return;
      }
      var text := live[bound[line]];
      var active := versions.Active(Some(line));
      if active.Some? || Text.Trim(text) == "" {
        return;
      }
      var r := versions.Publish(Some(line), text, text != "", true, c.storing);
      put := put[bound[line] := text];
    }

    // The binding of the new app and the first revision it is given.
    method RecordProvisionedPrompt(line: Line, app: App, initial: string, template: string, c: Calls)
      modifies this, versions
      ensures State() == Provision(old(State()), line, app, initial, template, c)
    {
      if line == "" || line in bound || app in live {
        return;
      }
      bound := bound[line := app];
      live := live[app := initial];
      var body, pushed := template, false;
      if !c.readFails && Text.Trim(initial) != "" {
        body, pushed := initial, true;
      }
      var r := versions.Publish(Some(line), body, body != "", pushed, c.storing);
      if pushed {
        put := put[app := initial];
      }
    }
  }
}
