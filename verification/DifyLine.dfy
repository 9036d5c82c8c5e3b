// Bringing one product line up to the Dify standard (identity/dify_line.go) and the
// answer it is given with (identity/tenants_provision.go): a resumable walk that
// creates an app and a dataset, writes their ids back, attaches the one to the other
// and sets the retrieval, each step asking for its own precondition.
module DifyLine {
  import opened Options

  type Line = string

  // dify_agent_id, dify_dataset_id and dify_api_key of a product line.
  datatype Row = Row(agent: Option<nat>, dataset: Option<nat>, apiKey: Option<nat>)

  // What Dify says of a dataset's retrieval settings.
  datatype Verdict = Unset | IndexPending | Sound | Mismatched

  // The console's objects, by id; `bound` lists which datasets an app has, and
  // `writes` counts the calls and statements that may have changed something.
  datatype Dify = Dify(apps: set<nat>, datasets: set<nat>, next: nat, bound: set<(nat, nat)>,
                       verdicts: map<nat, Verdict>, writes: nat)

  datatype World = World(rows: map<Line, Row>, dify: Dify)

  // A retrieval write that was read back, or one that was not; `left` is what it
  // leaves behind either way.
  datatype Setting = Took(sound: bool) | Missed(left: Verdict)

  // The outcomes of a run's calls. A call that fails has no effect, but for the
  // attachment and the retrieval write, which may fail with theirs.
  datatype Calls = Calls(
    getFails: bool, login: bool, createApp: bool, createKey: bool, pin: bool, createDataset: bool, born: Setting,
    persist: bool, readBound: bool, attach: bool, attachLands: bool, readRetrieval: bool, setting: Setting,
    promptStore: bool, prompt: bool)

  datatype Key = App | ApiKey | Model | Dataset | Binding | Attach | Retrieval | Prompt
  datatype State = Done | Already | Failed
  datatype Step = Step(key: Key, state: State)

  datatype Result = Result(agent: Option<nat>, dataset: Option<nat>, ready: bool, changed: bool, steps: seq<Step>)

  // A walk under way: `key` is the API key it minted.
  datatype Walk = Walk(w: World, r: Result, key: Option<nat>, stopped: bool)

  // ---------- The pieces ----------

  predicate Searchable(v: Verdict) { v.IndexPending? || v.Sound? }

  function VerdictOf(d: Dify, dataset: nat): Verdict {
    if dataset in d.verdicts then d.verdicts[dataset] else Unset
  }

  function Left(s: Setting): Verdict {
    match s
    case Took(sound) => if sound then Sound else IndexPending
    case Missed(left) => left
  }

  function Add(r: Result, key: Key, state: State): Result {
    r.(steps := r.steps + [Step(key, state)], changed := r.changed || state.Done?)
  }

  function Written(d: Dify): Dify { d.(writes := d.writes + 1) }

  function NewApp(d: Dify): Dify { Written(d).(apps := d.apps + {d.next}, next := d.next + 1) }

  function NewDataset(d: Dify, born: Setting): Dify {
    Written(d).(datasets := d.datasets + {d.next}, verdicts := d.verdicts[d.next := Left(born)], next := d.next + 1)
  }

  // The state of the first step with a key.
  function StepFrom(steps: seq<Step>, key: Key, i: nat): Option<State>
    requires i <= |steps|
    decreases |steps| - i
  {
    if i == |steps| then None else if steps[i].key == key then Some(steps[i].state) else StepFrom(steps, key, i + 1)
  }

  function StepOf(r: Result, key: Key): Option<State> { StepFrom(r.steps, key, 0) }

  predicate NoFailure(steps: seq<Step>) { forall i :: 0 <= i < |steps| ==> !steps[i].state.Failed? }

  // ---------- The walk ----------

  function WalkApp(w: World, r: Result, c: Calls): Walk {
    if r.agent.Some? then Walk(w, Add(r, App, Already), None, false)
    else if !c.createApp then Walk(w, r, None, true)
    else
      var w1 := w.(dify := NewApp(w.dify));
      var r1 := Add(r.(agent := Some(w.dify.next)), App, Done);
      if !c.createKey then Walk(w1, r1, None, true)
      else
        var w2 := w1.(dify := Written(Written(w1.dify)).(next := w1.dify.next + 1));
        Walk(w2, Add(Add(r1, ApiKey, Done), Model, if c.pin then Done else Failed), Some(w1.dify.next), false)
  }

  function WalkDataset(k: Walk, c: Calls): Walk {
    if k.stopped then k
    else if k.r.dataset.Some? then k.(r := Add(k.r, Dataset, Already))
    else if !c.createDataset then k.(stopped := true)
    else k.(w := k.w.(dify := NewDataset(k.w.dify, c.born)),
            r := Add(k.r.(dataset := Some(k.w.dify.next)), Dataset, Done))
  }

  // Only a run that created the app has a key to write; a run that created the
  // dataset alone writes the dataset alone.
  function Persist(k: Walk, line: Line, createdApp: bool, createdDataset: bool, c: Calls): Walk {
    if k.stopped then k
    else if !createdApp && !createdDataset then k.(r := Add(k.r, Binding, Already))
    else if !c.persist || line !in k.w.rows then k.(stopped := true)
    else
      var row := if createdApp then Row(k.r.agent, k.r.dataset, k.key) else k.w.rows[line].(dataset := k.r.dataset);
      k.(w := World(k.w.rows[line := row], Written(k.w.dify)), r := Add(k.r, Binding, Done))
  }

  function WalkAttach(k: Walk, c: Calls): Walk {
    if k.stopped || k.r.agent.None? || k.r.dataset.None? then k
    else
      var pair := (k.r.agent.value, k.r.dataset.value);
      if !c.readBound then k.(r := Add(k.r, Attach, Failed))
      else if pair in k.w.dify.bound then k.(r := Add(k.r, Attach, Already))
      else
        var d := if c.attach || c.attachLands then Written(k.w.dify).(bound := k.w.dify.bound + {pair}) else k.w.dify;
        k.(w := k.w.(dify := d), r := Add(k.r, Attach, if c.attach then Done else Failed))
  }

  function ApplyRetrieval(k: Walk, dataset: nat, s: Setting): Walk {
    var d := Written(k.w.dify).(verdicts := k.w.dify.verdicts[dataset := Left(s)]);
    k.(w := k.w.(dify := d), r := Add(k.r, Retrieval, if s.Took? then Done else Failed))
  }

  function WalkRetrieval(k: Walk, createdDataset: bool, c: Calls): Walk {
    if k.stopped || k.r.dataset.None? then k
    else
      var id := k.r.dataset.value;
      if createdDataset then
        if c.born.Took? then k.(r := Add(k.r, Retrieval, Done)) else ApplyRetrieval(k, id, c.setting)
      else if !c.readRetrieval then k.(r := Add(k.r, Retrieval, Failed))
      else if Searchable(VerdictOf(k.w.dify, id)) then k.(r := Add(k.r, Retrieval, Already))
      else ApplyRetrieval(k, id, c.setting)
  }

  function WalkPrompt(k: Walk, createdApp: bool, c: Calls): Walk {
    if k.stopped || !createdApp || !c.promptStore then k
    else k.(w := k.w.(dify := Written(k.w.dify)), r := Add(k.r, Prompt, if c.prompt then Done else Failed))
  }

  // Creating what is missing and writing it back, before anything is done with it.
  function Create(w: World, line: Line, r: Result, c: Calls): Walk {
    Persist(WalkDataset(WalkApp(w, r, c), c), line, r.agent.None?, r.dataset.None?, c)
  }

  function Wire(k: Walk, createdApp: bool, createdDataset: bool, c: Calls): Walk {
    WalkPrompt(WalkRetrieval(WalkAttach(k, c), createdDataset, c), createdApp, c)
  }

  // A run: no result when the line cannot be read, a stopped walk on a fatal failure.
  function Ensure(w: World, line: Line, c: Calls): Option<Walk> {
    if c.getFails || line !in w.rows then None
    else
      var row := w.rows[line];
      var r := Result(row.agent, row.dataset, false, false, []);
      if !c.login then Some(Walk(w, r, None, true))
      else
        var k := Create(w, line, r, c);
        if k.stopped then Some(k)
        else
          var done := Wire(k, row.agent.None?, row.dataset.None?, c);
          Some(done.(r := done.r.(ready := NoFailure(done.r.steps))))
  }

  function WorldAfter(w: World, line: Line, c: Calls): World {
    if Ensure(w, line, c).Some? then Ensure(w, line, c).value.w else w
  }

  // ---------- The answer ----------

  datatype Resource = TheApp(id: nat) | TheDataset(id: nat)

  // What a stopped run created and did not write back.
  function Unrecorded(r: Result): seq<Resource> {
    var binding := StepOf(r, Binding);
    if binding.Some? && !binding.value.Failed? then []
    else
      (if StepOf(r, App) == Some(Done) && r.agent.Some? then [TheApp(r.agent.value)] else []) +
      (if StepOf(r, Dataset) == Some(Done) && r.dataset.Some? then [TheDataset(r.dataset.value)] else [])
  }

  function Named(w: World, line: Line, c: Calls): seq<Resource> {
    match Ensure(w, line, c)
    case None => []
    case Some(k) => if k.stopped then Unrecorded(k.r) else []
  }

  // ---------- The handler ----------

  class LineProvisioner {
    var rows: map<Line, Row>
    var dify: Dify

    constructor (rows: map<Line, Row>, dify: Dify)
      ensures State() == World(rows, dify)
    {
      this.rows, this.dify := rows, dify;
    }

    ghost function State(): World
      reads this
    {
      World(rows, dify)
    }

    method CreateApp(r: Result, c: Calls) returns (r': Result, key: Option<nat>, stopped: bool)
      modifies this
      ensures Walk(State(), r', key, stopped) == WalkApp(old(State()), r, c)
    {
      r', key, stopped := r, None, false;
      if r.agent.Some? {
        r' := Add(r', App, Already);
        return;
      }
      if !c.createApp {
        stopped := true;
        return;
      }
      var id := dify.next;
      dify := NewApp(dify);
      r' := Add(r'.(agent := Some(id)), App, Done);
      if !c.createKey {
        stopped := true;
        return;
      }
      key := Some(dify.next);
      dify := Written(dify).(next := dify.next + 1);
      dify := Written(dify);
      r' := Add(r', ApiKey, Done);
      r' := Add(r', Model, if c.pin then Done else Failed);
    }

    method PersistDifyBinding(line: Line, r: Result, key: Option<nat>, createdApp: bool, createdDataset: bool, c: Calls)
      returns (r': Result, stopped: bool)
      modifies this
      ensures Walk(State(), r', key, stopped) ==
              Persist(Walk(old(State()), r, key, false), line, createdApp, createdDataset, c)
    {
      r', stopped := r, false;
      if createdApp {
        if !c.persist || line !in rows {
          stopped := true;
          return;
        }
        rows := rows[line := Row(r.agent, r.dataset, key)];
      } else if createdDataset {
        if !c.persist || line !in rows {
          stopped := true;
          return;
        }
        rows := rows[line := rows[line].(dataset := r.dataset)];
      } else {
        r' := Add(r', Binding, Already);
        return;
      }
      dify := Written(dify);
      r' := Add(r', Binding, Done);
    }

    method EnsureDatasetAttached(r: Result, app: nat, dataset: nat, key: Option<nat>, c: Calls) returns (r': Result)
      requires r.agent == Some(app) && r.dataset == Some(dataset)
      modifies this
      ensures Walk(State(), r', key, false) == WalkAttach(Walk(old(State()), r, key, false), c)
    {
      if !c.readBound {
        return Add(r, Attach, Failed);
      }
      if (app, dataset) in dify.bound {
        return Add(r, Attach, Already);
      }
      if c.attach || c.attachLands {
        dify := Written(dify).(bound := dify.bound + {(app, dataset)});
      }
      r' := Add(r, Attach, if c.attach then Done else Failed);
    }

    method EnsureDatasetRetrieval(r: Result, dataset: nat, key: Option<nat>, createdDataset: bool, c: Calls)
      returns (r': Result)
      requires r.dataset == Some(dataset)
      modifies this
      ensures Walk(State(), r', key, false) == WalkRetrieval(Walk(old(State()), r, key, false), createdDataset, c)
    {
      if createdDataset && c.born.Took? {
        return Add(r, Retrieval, Done);
      }
      if !createdDataset {
        if !c.readRetrieval {
          return Add(r, Retrieval, Failed);
        }
        var verdict := VerdictOf(dify, dataset);
        if verdict.IndexPending? || verdict.Sound? {
          return Add(r, Retrieval, Already);
        }
      }
      dify := Written(dify).(verdicts := dify.verdicts[dataset := Left(c.setting)]);
      r' := Add(r, Retrieval, if c.setting.Took? then Done else Failed);
    }

    method CreateMissing(line: Line, row: Result, c: Calls) returns (r: Result, key: Option<nat>, stopped: bool)
      modifies this
      ensures Walk(State(), r, key, stopped) == Create(old(State()), line, row, c)
    {
      hide Add, NewApp, NewDataset, WalkApp;
      r, key, stopped := CreateApp(row, c);
      AppKeepsDataset(old(State()), row, c);
      if stopped {
        return;
      }
      if r.dataset.None? {
        if !c.createDataset {
          stopped := true;
          return;
        }
        var id := dify.next;
        dify := NewDataset(dify, c.born);
        r := Add(r.(dataset := Some(id)), Dataset, Done);
      } else {
        r := Add(r, Dataset, Already);
      }
      r, stopped := PersistDifyBinding(line, r, key, row.agent.None?, row.dataset.None?, c);
    }

    method WireUp(r0: Result, key: Option<nat>, createdApp: bool, createdDataset: bool, c: Calls) returns (r: Result)
      requires r0.agent.Some? && r0.dataset.Some?
      modifies this
      ensures Walk(State(), r, key, false) == Wire(Walk(old(State()), r0, key, false), createdApp, createdDataset, c)
    {
      hide WalkRetrieval;
      r := EnsureDatasetAttached(r0, r0.agent.value, r0.dataset.value, key, c);
      r := EnsureDatasetRetrieval(r, r0.dataset.value, key, createdDataset, c);
      if createdApp && c.promptStore {
        dify := Written(dify);
        r := Add(r, Prompt, if c.prompt then Done else Failed);
      }
    }

    // The whole run: the result, or none when the line cannot be read.
    method EnsureDifyLine(line: Line, c: Calls) returns (res: Option<Result>, stopped: bool)
      modifies this
      ensures match Ensure(old(State()), line, c)
              case None => res.None? && State() == old(State())
              case Some(k) => res == Some(k.r) && stopped == k.stopped && State() == k.w
    {
      hide Create, Wire;
      if c.getFails || line !in rows {
        return None, true;
      }
      var row := rows[line];
      var r := Result(row.agent, row.dataset, false, false, []);
      if !c.login {
        return Some(r), true;
      }
      CreateGivesIds(State(), line, r, c);
      var key: Option<nat>;
      r, key, stopped := CreateMissing(line, r, c);
      if stopped {
        return Some(r), true;
      }
      r := WireUp(r, key, row.agent.None?, row.dataset.None?, c);
      var failed := false;
      for i := 0 to |r.steps|
        invariant failed <==> exists k :: 0 <= k < i && r.steps[k].state.Failed?
      {
        if r.steps[i].state.Failed? {
          failed := true;
        }
      }
      assert !failed <==> NoFailure(r.steps);
      res, stopped := Some(r.(ready := !failed)), false;
    }

    // The answer's warnings, beside the failed steps: what a stopped run left behind.
    method ProvisionDifyLine(line: Line, c: Calls)
      returns (res: Option<Result>, provisioned: bool, named: seq<Resource>)
      modifies this
      ensures State() == WorldAfter(old(State()), line, c) && named == Named(old(State()), line, c)
      ensures res.Some? <==> Ensure(old(State()), line, c).Some?
      ensures provisioned <==> res.Some? && !Ensure(old(State()), line, c).value.stopped && res.value.changed
    {
      hide Create, Wire, Unrecorded;
      var stopped;
      res, stopped := EnsureDifyLine(line, c);
      named, provisioned := [], false;
      if res.Some? {
        provisioned := !stopped && res.value.changed;
        if stopped {
          named := Unrecorded(res.value);
        }
      }
    }
  }

  lemma AppKeepsDataset(w: World, r: Result, c: Calls)
    ensures WalkApp(w, r, c).r.dataset == r.dataset
    ensures !WalkApp(w, r, c).stopped ==> WalkApp(w, r, c).r.agent.Some?
  {
  }

  lemma CreateGivesIds(w: World, line: Line, r: Result, c: Calls)
    ensures var k := Create(w, line, r, c); !k.stopped ==> k.r.agent.Some? && k.r.dataset.Some?
  {
  }
}
