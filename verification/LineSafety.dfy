// What the provisioning walk conserves: every app and dataset it creates is
// referenced by the line's row or named in the answer, an id or a key once written
// back stays, and a run after a ready run finds nothing to do.
module LineSafety {
  import opened Options
  import opened DifyLine

  // Ids are drawn in order, so the next one is new.
  ghost predicate Fresh(w: World) {
    && (forall id :: id in w.dify.apps ==> id < w.dify.next)
    && (forall id :: id in w.dify.datasets ==> id < w.dify.next)
    && (forall l :: l in w.rows && w.rows[l].agent.Some? ==> w.rows[l].agent.value < w.dify.next)
    && (forall l :: l in w.rows && w.rows[l].dataset.Some? ==> w.rows[l].dataset.value < w.dify.next)
  }

  // ---------- Steps ----------

  lemma {:induction false} StepFromAdd(steps: seq<Step>, s: Step, key: Key, i: nat)
    requires i <= |steps|
    ensures StepFrom(steps + [s], key, i) ==
            if StepFrom(steps, key, i).Some? then StepFrom(steps, key, i)
            else if s.key == key then Some(s.state)
            else None
    decreases |steps| - i
  {
    if i < |steps| {
      StepFromAdd(steps, s, key, i + 1);
    } else {
      assert (steps + [s])[i] == s;
      assert StepFrom(steps + [s], key, i + 1).None?;
    }
  }

  lemma StepOfAdd(r: Result, key: Key, state: State, k: Key)
    ensures StepOf(Add(r, key, state), k) ==
            if StepOf(r, k).Some? then StepOf(r, k) else if key == k then Some(state) else None
  {
    StepFromAdd(r.steps, Step(key, state), k, 0);
  }

  lemma NoFailureAdd(r: Result, key: Key, state: State)
    ensures NoFailure(Add(r, key, state).steps) <==> NoFailure(r.steps) && !state.Failed?
  {
    var steps := Add(r, key, state).steps;
    assert steps[|r.steps|] == Step(key, state);
    if NoFailure(steps) {
      forall i | 0 <= i < |r.steps|
        ensures !r.steps[i].state.Failed?
      {
        assert steps[i] == r.steps[i];
      }
    }
  }

  // ---------- What the creating half does ----------

  // Whether the walk so far made an app, and a dataset, and says so.
  ghost predicate MadeApp(w: World, k: Walk) {
    k.r.agent == Some(w.dify.next) && k.w.dify.apps == w.dify.apps + {w.dify.next} && StepOf(k.r, App) == Some(Done)
  }

  ghost predicate MadeNoApp(w: World, r: Result, k: Walk) {
    k.r.agent == r.agent && k.w.dify.apps == w.dify.apps && StepOf(k.r, App) != Some(Done)
  }

  ghost predicate MadeDataset(w: World, k: Walk) {
    && k.r.dataset.Some? && w.dify.next <= k.r.dataset.value < k.w.dify.next
    && k.w.dify.datasets == w.dify.datasets + {k.r.dataset.value} && StepOf(k.r, Dataset) == Some(Done)
  }

  ghost predicate MadeNoDataset(w: World, r: Result, k: Walk) {
    k.r.dataset == r.dataset && k.w.dify.datasets == w.dify.datasets && StepOf(k.r, Dataset) != Some(Done)
  }

  lemma AppHalf(w: World, r: Result, c: Calls)
    requires r.steps == []
    ensures var k := WalkApp(w, r, c);
            && k.w.rows == w.rows && w.dify.next <= k.w.dify.next && MadeNoDataset(w, r, k)
            && k.w.dify.bound == w.dify.bound && k.w.dify.verdicts == w.dify.verdicts
            && (if r.agent.None? && c.createApp then MadeApp(w, k) && w.dify.next < k.w.dify.next
                else MadeNoApp(w, r, k))
            && StepOf(k.r, Binding).None? && StepOf(k.r, Dataset).None?
            && (k.key.Some? ==> r.agent.None?) && (!k.stopped && r.agent.None? ==> k.key == Some(w.dify.next + 1))
            && (k.stopped <==> r.agent.None? && (!c.createApp || !c.createKey))
            && (!k.stopped ==> k.r.agent.Some? && (NoFailure(k.r.steps) <==> r.agent.Some? || c.pin))
  {
    hide StepOf, NoFailure;
    var k := WalkApp(w, r, c);
    EmptySteps(r);
    forall key: Key
      ensures StepOf(Add(r, App, Already), key) == (if key.App? then Some(Already) else None)
    {
      StepOfAdd(r, App, Already, key);
    }
    NoFailureAdd(r, App, Already);
    if r.agent.None? && c.createApp {
      var r1 := Add(r.(agent := Some(w.dify.next)), App, Done);
      var r2 := Add(r1, ApiKey, Done);
      var state := if c.pin then Done else Failed;
      EmptySteps(r.(agent := Some(w.dify.next)));
      NoFailureAdd(r.(agent := Some(w.dify.next)), App, Done);
      NoFailureAdd(r1, ApiKey, Done);
      NoFailureAdd(r2, Model, state);
      forall key: Key
        ensures StepOf(r1, key) == (if key.App? then Some(Done) else None)
        ensures key.App? || key.Dataset? || key.Binding? ==> StepOf(Add(r2, Model, state), key) == StepOf(r1, key)
      {
        StepOfAdd(r.(agent := Some(w.dify.next)), App, Done, key);
        StepOfAdd(r1, ApiKey, Done, key);
        StepOfAdd(r2, Model, state, key);
      }
    }
  }

  lemma EmptySteps(r: Result)
    requires r.steps == []
    ensures forall key :: StepOf(r, key).None?
    ensures NoFailure(r.steps)
  {
  }

  lemma DatasetHalf(w: World, r: Result, c: Calls)
    requires r.steps == []
    ensures var k := WalkDataset(WalkApp(w, r, c), c);
            && k.w.rows == w.rows && w.dify.next <= k.w.dify.next && k.w.dify.bound == w.dify.bound
            && (if r.agent.None? && c.createApp then MadeApp(w, k) else MadeNoApp(w, r, k))
            && (MadeDataset(w, k) || MadeNoDataset(w, r, k))
            && StepOf(k.r, Binding).None? && (k.key.Some? ==> r.agent.None?)
            && (!k.stopped && r.agent.None? ==> k.key == Some(w.dify.next + 1))
            && (!k.stopped ==> k.r.agent.Some? && k.r.dataset.Some? && (r.agent.None? ==> MadeApp(w, k)))
            && (!k.stopped ==> (if r.dataset.None? then MadeDataset(w, k) else MadeNoDataset(w, r, k)))
            && (!k.stopped && r.dataset.None? ==> VerdictOf(k.w.dify, k.r.dataset.value) == Left(c.born))
            && (!k.stopped && r.dataset.Some? ==> k.w.dify.verdicts == w.dify.verdicts)
            && (k.stopped <==>
                  (r.agent.None? && (!c.createApp || !c.createKey)) || (r.dataset.None? && !c.createDataset))
            && (!k.stopped ==> (NoFailure(k.r.steps) <==> r.agent.Some? || c.pin))
  {
    hide StepOf, NoFailure, WalkApp, Add;
    AppHalf(w, r, c);
    var k := WalkApp(w, r, c);
    if !k.stopped {
      var r1 := k.r.(dataset := Some(k.w.dify.next));
      SameSteps(k.r, r1);
      NoFailureAdd(k.r, Dataset, Already);
      NoFailureAdd(r1, Dataset, Done);
      AddIds(k.r, Dataset, Already);
      AddIds(r1, Dataset, Done);
      forall key: Key
        ensures StepOf(Add(k.r, Dataset, Already), key) ==
                if StepOf(k.r, key).Some? then StepOf(k.r, key) else if key.Dataset? then Some(Already) else None
        ensures StepOf(Add(r1, Dataset, Done), key) ==
                if StepOf(k.r, key).Some? then StepOf(k.r, key) else if key.Dataset? then Some(Done) else None
      {
        StepOfAdd(k.r, Dataset, Already, key);
        StepOfAdd(r1, Dataset, Done, key);
      }
    }
  }

  lemma SameSteps(r: Result, r': Result)
    requires r.steps == r'.steps
    ensures forall key :: StepOf(r, key) == StepOf(r', key)
  {
  }

  lemma AddIds(r: Result, key: Key, state: State)
    ensures Add(r, key, state).agent == r.agent && Add(r, key, state).dataset == r.dataset
  {
  }

  // The creating half as a whole. Stopped, it wrote no row; else the line's row and
  // no other holds what the result names, and the key changed only with the app.
  lemma CreateHalf(w: World, line: Line, r: Result, c: Calls)
    requires r.steps == [] && line in w.rows && w.rows[line].agent == r.agent && w.rows[line].dataset == r.dataset
    ensures var k := Create(w, line, r, c);
            && w.dify.next <= k.w.dify.next && k.w.dify.bound == w.dify.bound
            && (if r.agent.None? && c.createApp then MadeApp(w, k) else MadeNoApp(w, r, k))
            && (MadeDataset(w, k) || MadeNoDataset(w, r, k))
            && (k.stopped ==> k.w.rows == w.rows && StepOf(k.r, Binding).None?)
            && (!k.stopped ==>
                  && k.r.agent.Some? && k.r.dataset.Some? && StepOf(k.r, Binding).Some?
                  && !StepOf(k.r, Binding).value.Failed?
                  && (r.agent.None? ==> MadeApp(w, k) && k.key == Some(w.dify.next + 1))
                  && (if r.dataset.None? then MadeDataset(w, k) else MadeNoDataset(w, r, k))
                  && (var key := if r.agent.None? then k.key else w.rows[line].apiKey;
                      k.w.rows == w.rows[line := Row(k.r.agent, k.r.dataset, key)])
                  && (r.dataset.None? ==> VerdictOf(k.w.dify, k.r.dataset.value) == Left(c.born))
                  && (r.dataset.Some? ==> k.w.dify.verdicts == w.dify.verdicts)
                  && (NoFailure(k.r.steps) <==> r.agent.Some? || c.pin))
            && (k.stopped <==>
                  (r.agent.None? && (!c.createApp || !c.createKey)) || (r.dataset.None? && !c.createDataset) ||
                  ((r.agent.None? || r.dataset.None?) && !c.persist))
  {
    hide StepOf, NoFailure, WalkApp, WalkDataset, Add;
    DatasetHalf(w, r, c);
    var k := WalkDataset(WalkApp(w, r, c), c);
    if !k.stopped {
      AddIds(k.r, Binding, Already);
      AddIds(k.r, Binding, Done);
      NoFailureAdd(k.r, Binding, Already);
      NoFailureAdd(k.r, Binding, Done);
      forall key: Key, state: State
        ensures StepOf(Add(k.r, Binding, state), key) ==
                if StepOf(k.r, key).Some? then StepOf(k.r, key) else if key.Binding? then Some(state) else None
      {
        StepOfAdd(k.r, Binding, state, key);
      }
    }
  }

  // ---------- What the wiring half does ----------

  predicate Attaches(k: Walk, c: Calls)
    requires k.r.agent.Some? && k.r.dataset.Some?
  {
    c.readBound && ((k.r.agent.value, k.r.dataset.value) in k.w.dify.bound || c.attach)
  }

  predicate Retrieves(k: Walk, createdDataset: bool, c: Calls)
    requires k.r.dataset.Some?
  {
    if createdDataset then c.born.Took? || c.setting.Took?
    else c.readRetrieval && (Searchable(VerdictOf(k.w.dify, k.r.dataset.value)) || c.setting.Took?)
  }

  // The rows, what exists and what the result names.
  ghost predicate SameObjects(k: Walk, k': Walk) {
    && k'.stopped == k.stopped && k'.w.rows == k.w.rows && k'.w.dify.apps == k.w.dify.apps
    && k'.w.dify.datasets == k.w.dify.datasets && k'.w.dify.next == k.w.dify.next
    && k'.r.agent == k.r.agent && k'.r.dataset == k.r.dataset
  }

  lemma AttachHalf(k: Walk, c: Calls)
    requires !k.stopped && k.r.agent.Some? && k.r.dataset.Some?
    ensures var k1 := WalkAttach(k, c);
            && SameObjects(k, k1) && k1.w.dify.verdicts == k.w.dify.verdicts
            && (NoFailure(k1.r.steps) <==> NoFailure(k.r.steps) && Attaches(k, c))
            && (Attaches(k, c) ==> (k.r.agent.value, k.r.dataset.value) in k1.w.dify.bound)
  {
    hide NoFailure;
    NoFailureAdd(k.r, Attach, Failed);
    NoFailureAdd(k.r, Attach, Already);
    NoFailureAdd(k.r, Attach, Done);
  }

  lemma RetrievalHalf(k: Walk, createdDataset: bool, c: Calls)
    requires !k.stopped && k.r.dataset.Some?
    requires createdDataset ==> VerdictOf(k.w.dify, k.r.dataset.value) == Left(c.born)
    ensures var k1 := WalkRetrieval(k, createdDataset, c);
            && SameObjects(k, k1) && k1.w.dify.bound == k.w.dify.bound
            && (NoFailure(k1.r.steps) <==> NoFailure(k.r.steps) && Retrieves(k, createdDataset, c))
            && (Retrieves(k, createdDataset, c) ==> Searchable(VerdictOf(k1.w.dify, k.r.dataset.value)))
  {
    hide NoFailure;
    NoFailureAdd(k.r, Retrieval, Failed);
    NoFailureAdd(k.r, Retrieval, Already);
    NoFailureAdd(k.r, Retrieval, Done);
  }

  lemma PromptHalf(k: Walk, createdApp: bool, c: Calls)
    requires !k.stopped
    ensures var k1 := WalkPrompt(k, createdApp, c);
            && SameObjects(k, k1) && k1.w.dify.bound == k.w.dify.bound && k1.w.dify.verdicts == k.w.dify.verdicts
            && (NoFailure(k1.r.steps) <==> NoFailure(k.r.steps) && (!createdApp || !c.promptStore || c.prompt))
  {
    hide NoFailure;
    NoFailureAdd(k.r, Prompt, if c.prompt then Done else Failed);
  }

  // It touches no row and creates nothing. When nothing failed the app has the
  // dataset and the dataset can be searched.
  lemma WireHalf(k: Walk, createdApp: bool, createdDataset: bool, c: Calls)
    requires !k.stopped && k.r.agent.Some? && k.r.dataset.Some?
    requires createdDataset ==> VerdictOf(k.w.dify, k.r.dataset.value) == Left(c.born)
    ensures var done := Wire(k, createdApp, createdDataset, c);
            && SameObjects(k, done)
            && (NoFailure(done.r.steps) <==>
                  NoFailure(k.r.steps) && Attaches(k, c) && Retrieves(k, createdDataset, c) &&
                  (!createdApp || !c.promptStore || c.prompt))
            && (NoFailure(done.r.steps) ==>
                  && (k.r.agent.value, k.r.dataset.value) in done.w.dify.bound
                  && Searchable(VerdictOf(done.w.dify, k.r.dataset.value)))
  {
    hide NoFailure, WalkAttach, WalkRetrieval, WalkPrompt;
    var k1 := WalkAttach(k, c);
    AttachHalf(k, c);
    RetrievalHalf(k1, createdDataset, c);
    PromptHalf(WalkRetrieval(k1, createdDataset, c), createdApp, c);
  }

  // ---------- One run ----------

  // What exists in the second world and not in the first.
  predicate Made(w: World, w': World, x: Resource) {
    match x
    case TheApp(id) => id in w'.dify.apps && id !in w.dify.apps
    case TheDataset(id) => id in w'.dify.datasets && id !in w.dify.datasets
  }

  predicate Refers(w: World, line: Line, x: Resource) {
    match x
    case TheApp(id) => line in w.rows && w.rows[line].agent == Some(id)
    case TheDataset(id) => line in w.rows && w.rows[line].dataset == Some(id)
  }

  // Every app and dataset the run created is the one the line's row holds, or one the
  // answer names; and it names nothing else.
  lemma CreatedIsReferencedOrNamed(w: World, line: Line, c: Calls)
    requires Fresh(w)
    ensures forall x: Resource :: Made(w, WorldAfter(w, line, c), x) ==>
              (Refers(WorldAfter(w, line, c), line, x) != (x in Named(w, line, c)))
    ensures forall x: Resource :: x in Named(w, line, c) ==> Made(w, WorldAfter(w, line, c), x)
  {
    hide StepOf, NoFailure, Create, Wire;
    if !c.getFails && line in w.rows {
      var row := w.rows[line];
      var r := Result(row.agent, row.dataset, false, false, []);
      EmptySteps(r);
      CreateHalf(w, line, r, c);
      var k := Create(w, line, r, c);
      if c.login && !k.stopped {
        WireHalf(k, row.agent.None?, row.dataset.None?, c);
      }
    }
  }

  // What a run does to the rows. No other line's is touched; an id once set stays; the
  // API key is rewritten only by a run that created the app the row then holds, and
  // then with the key minted for it.
  lemma RowsAfter(w: World, line: Line, c: Calls)
    requires Fresh(w)
    ensures var w' := WorldAfter(w, line, c);
            && w'.rows.Keys == w.rows.Keys
            && (forall l :: l in w.rows && l != line ==> w'.rows[l] == w.rows[l])
            && (line in w.rows ==>
                  && (w.rows[line].agent.Some? ==> w'.rows[line].agent == w.rows[line].agent)
                  && (w.rows[line].dataset.Some? ==> w'.rows[line].dataset == w.rows[line].dataset)
                  && (w'.rows[line].apiKey != w.rows[line].apiKey ==>
                        && w.rows[line].agent.None? && w'.rows[line].agent == Some(w.dify.next)
                        && w'.dify.apps == w.dify.apps + {w.dify.next})
                  && (w'.rows[line].agent != w.rows[line].agent ==> w'.rows[line].apiKey == Some(w.dify.next + 1)))
            && Fresh(w')
  {
    hide StepOf, NoFailure, Create, Wire;
    if !c.getFails && line in w.rows {
      var row := w.rows[line];
      var r := Result(row.agent, row.dataset, false, false, []);
      CreateHalf(w, line, r, c);
      var k := Create(w, line, r, c);
      CreateDrawsIds(w, line, r, c);
      if c.login && !k.stopped {
        WireHalf(k, row.agent.None?, row.dataset.None?, c);
      }
    }
  }

  lemma CreateDrawsIds(w: World, line: Line, r: Result, c: Calls)
    ensures r.agent.None? && c.createApp ==> w.dify.next < Create(w, line, r, c).w.dify.next
  {
  }

  predicate SomeDone(steps: seq<Step>) { exists i :: 0 <= i < |steps| && steps[i].state.Done? }

  predicate Honest(r: Result) { r.changed <==> SomeDone(r.steps) }

  lemma AddHonest(r: Result, key: Key, state: State)
    requires Honest(r)
    ensures Honest(Add(r, key, state))
  {
    var steps := Add(r, key, state).steps;
    assert steps[|r.steps|] == Step(key, state);
    if SomeDone(r.steps) {
      var i :| 0 <= i < |r.steps| && r.steps[i].state.Done?;
      assert steps[i] == r.steps[i];
    }
  }

  lemma CreateHonest(w: World, line: Line, r: Result, c: Calls)
    requires Honest(r)
    ensures Honest(Create(w, line, r, c).r)
  {
    hide SomeDone;
    var r1 := r.(agent := Some(w.dify.next));
    AddHonest(r, App, Already);
    AddHonest(r1, App, Done);
    AddHonest(Add(r1, App, Done), ApiKey, Done);
    AddHonest(Add(Add(r1, App, Done), ApiKey, Done), Model, if c.pin then Done else Failed);
    var k := WalkApp(w, r, c);
    AddHonest(k.r, Dataset, Already);
    AddHonest(k.r.(dataset := Some(k.w.dify.next)), Dataset, Done);
    var d := WalkDataset(k, c);
    AddHonest(d.r, Binding, Already);
    AddHonest(d.r, Binding, Done);
  }

  lemma WireHonest(k: Walk, createdApp: bool, createdDataset: bool, c: Calls)
    requires Honest(k.r)
    ensures Honest(Wire(k, createdApp, createdDataset, c).r)
  {
    hide SomeDone;
    AddHonest(k.r, Attach, Failed);
    AddHonest(k.r, Attach, Already);
    AddHonest(k.r, Attach, Done);
    var k1 := WalkAttach(k, c);
    AddHonest(k1.r, Retrieval, Failed);
    AddHonest(k1.r, Retrieval, Already);
    AddHonest(k1.r, Retrieval, Done);
    var k2 := WalkRetrieval(k1, createdDataset, c);
    AddHonest(k2.r, Prompt, if c.prompt then Done else Failed);
  }

  // `changed` is reported exactly when some step was performed; a run that reports
  // none created nothing and wrote no row.
  lemma ChangedIsHonest(w: World, line: Line, c: Calls)
    requires Fresh(w) && Ensure(w, line, c).Some?
    ensures Honest(Ensure(w, line, c).value.r)
    ensures !Ensure(w, line, c).value.r.changed ==>
              var w' := WorldAfter(w, line, c);
              w'.rows == w.rows && w'.dify.apps == w.dify.apps && w'.dify.datasets == w.dify.datasets
  {
    hide StepOf, NoFailure, Create, Wire;
    var row := w.rows[line];
    var r := Result(row.agent, row.dataset, false, false, []);
    CreateHonest(w, line, r, c);
    CreateHalf(w, line, r, c);
    var k := Create(w, line, r, c);
    StepOfIsThere(k.r, App);
    StepOfIsThere(k.r, Dataset);
    if c.login && !k.stopped {
      WireHonest(k, row.agent.None?, row.dataset.None?, c);
      WireHalf(k, row.agent.None?, row.dataset.None?, c);
      WireKeepsChanged(k, row.agent.None?, row.dataset.None?, c);
      assert w.rows[line] == Row(row.agent, row.dataset, row.apiKey);
    }
  }

  lemma {:induction false} StepIsThere(steps: seq<Step>, key: Key, i: nat)
    requires i <= |steps|
    ensures StepFrom(steps, key, i) == Some(Done) ==> SomeDone(steps)
    decreases |steps| - i
  {
    if i < |steps| {
      StepIsThere(steps, key, i + 1);
    }
  }

  lemma StepOfIsThere(r: Result, key: Key)
    ensures StepOf(r, key) == Some(Done) ==> SomeDone(r.steps)
  {
    StepIsThere(r.steps, key, 0);
  }

  lemma WireKeepsChanged(k: Walk, createdApp: bool, createdDataset: bool, c: Calls)
    ensures k.r.changed ==> Wire(k, createdApp, createdDataset, c).r.changed
  {
  }

  // ---------- The fixed point ----------

  // What a line up to standard looks like.
  predicate Complete(w: World, line: Line) {
    && line in w.rows && w.rows[line].agent.Some? && w.rows[line].dataset.Some?
    && (w.rows[line].agent.value, w.rows[line].dataset.value) in w.dify.bound
    && w.rows[line].dataset.value in w.dify.verdicts
    && (w.dify.verdicts[w.rows[line].dataset.value].Sound? || w.dify.verdicts[w.rows[line].dataset.value].IndexPending?)
  }

  // The reads of a run that succeeds in looking.
  predicate Looks(c: Calls) { !c.getFails && c.login && c.readBound && c.readRetrieval }

  // A run that reports the line ready leaves it complete.
  lemma ReadyIsComplete(w: World, line: Line, c: Calls)
    requires Fresh(w) && Ensure(w, line, c).Some? && Ensure(w, line, c).value.r.ready
    ensures Complete(WorldAfter(w, line, c), line)
  {
    hide StepOf, NoFailure, Create, Wire;
    var row := w.rows[line];
    var r := Result(row.agent, row.dataset, false, false, []);
    CreateHalf(w, line, r, c);
    var k := Create(w, line, r, c);
    ReadyUnset(w, line, r, c);
    if c.login && !k.stopped {
      WireHalf(k, row.agent.None?, row.dataset.None?, c);
    }
  }

  lemma ReadyUnset(w: World, line: Line, r: Result, c: Calls)
    requires !r.ready
    ensures !Create(w, line, r, c).r.ready
  {
  }

  // On a complete line a run that can look does nothing at all, and says so.
  lemma CompleteIsFixed(w: World, line: Line, c: Calls)
    requires Complete(w, line) && Looks(c)
    ensures Ensure(w, line, c).Some?
    ensures var k := Ensure(w, line, c).value;
            k.w == w && !k.stopped && k.r.ready && !k.r.changed && NoFailure(k.r.steps)
  {
    var row := w.rows[line];
    var r := Result(row.agent, row.dataset, false, false, []);
    var k := Create(w, line, r, c);
    assert k.w == w && k.r.steps == [Step(App, Already), Step(Dataset, Already), Step(Binding, Already)];
    var done := Wire(k, false, false, c);
    assert done.r.steps == [Step(App, Already), Step(Dataset, Already), Step(Binding, Already),
                            Step(Attach, Already), Step(Retrieval, Already)];
  }

  // Hence a run directly after a ready one writes nothing, changes nothing and is ready.
  lemma ReadyRunsSettle(w: World, line: Line, c: Calls, again: Calls)
    requires Fresh(w) && Ensure(w, line, c).Some? && Ensure(w, line, c).value.r.ready && Looks(again)
    ensures var w1 := WorldAfter(w, line, c);
            && WorldAfter(w1, line, again) == w1
            && Ensure(w1, line, again).Some? && Ensure(w1, line, again).value.r.ready
            && !Ensure(w1, line, again).value.r.changed
  {
    hide Ensure, Complete;
    ReadyIsComplete(w, line, c);
    CompleteIsFixed(WorldAfter(w, line, c), line, again);
  }

  // The calls a run on this line depends on all succeed.
  predicate AllSucceed(c: Calls) {
    && Looks(c) && c.createApp && c.createKey && c.pin && c.createDataset && c.persist && c.attach && c.setting.Took?
    && c.prompt
  }

  // From any state, however many runs failed before, one run that meets no failure
  // brings the line up to standard.
  lemma OneGoodRunSuffices(w: World, line: Line, c: Calls)
    requires Fresh(w) && line in w.rows && AllSucceed(c)
    ensures Ensure(w, line, c).Some? && Ensure(w, line, c).value.r.ready && Complete(WorldAfter(w, line, c), line)
  {
    hide StepOf, NoFailure, Create, Wire;
    var row := w.rows[line];
    var r := Result(row.agent, row.dataset, false, false, []);
    CreateHalf(w, line, r, c);
    var k := Create(w, line, r, c);
    WireHalf(k, row.agent.None?, row.dataset.None?, c);
    ReadyIsComplete(w, line, c);
  }

  // ---------- Whole runs ----------

  datatype Run = Run(line: Line, c: Calls)

  function After(w: World, runs: seq<Run>, n: nat): World
    requires n <= |runs|
  {
    if n == 0 then w
    else WorldAfter(After(w, runs, n - 1), runs[n - 1].line, runs[n - 1].c)
  }

  // Some run up to n named it in its answer.
  ghost predicate EverNamed(w: World, runs: seq<Run>, n: nat, x: Resource)
    requires n <= |runs|
  {
    exists i :: 0 <= i < n && x in Named(After(w, runs, i), runs[i].line, runs[i].c)
  }

  lemma RunKeepsReferences(w: World, line: Line, c: Calls, l: Line, x: Resource)
    requires Fresh(w)
    ensures Fresh(WorldAfter(w, line, c))
    ensures Refers(w, l, x) ==> Refers(WorldAfter(w, line, c), l, x)
  {
    hide WorldAfter, Fresh;
    RowsAfter(w, line, c);
  }

  // Nothing is silently orphaned: whatever any number of runs over any lines created,
  // failing wherever they did, a row refers to it or an answer named it.
  lemma {:induction false} NothingOrphaned(w: World, runs: seq<Run>, n: nat, x: Resource)
    requires Fresh(w) && n <= |runs| && Made(w, After(w, runs, n), x)
    ensures (exists l :: Refers(After(w, runs, n), l, x)) || EverNamed(w, runs, n, x)
  {
    hide WorldAfter, Named, Fresh, Refers;
    FreshOverRuns(w, runs, n - 1);
    var b := After(w, runs, n - 1);
    var line, c := runs[n - 1].line, runs[n - 1].c;
    CreatedIsReferencedOrNamed(b, line, c);
    if Made(w, b, x) {
      NothingOrphaned(w, runs, n - 1, x);
      if l :| Refers(b, l, x) {
        RunKeepsReferences(b, line, c, l, x);
      }
    } else {
      assert Made(b, After(w, runs, n), x);
    }
  }

  lemma {:induction false} FreshOverRuns(w: World, runs: seq<Run>, n: nat)
    requires Fresh(w) && n <= |runs|
    ensures Fresh(After(w, runs, n))
  {
    hide WorldAfter, Fresh;
    if n > 0 {
      FreshOverRuns(w, runs, n - 1);
      RowsAfter(After(w, runs, n - 1), runs[n - 1].line, runs[n - 1].c);
    }
  }

  // ---------- Counting ----------

  // How many of the first n runs created an app for the line, and how many named one.
  function AppsCreated(w: World, runs: seq<Run>, n: nat, line: Line): nat
    requires n <= |runs|
  {
    if n == 0 then 0
    else AppsCreated(w, runs, n - 1, line) +
         (if runs[n - 1].line == line && After(w, runs, n).dify.apps != After(w, runs, n - 1).dify.apps then 1 else 0)
  }

  predicate NamesApp(named: seq<Resource>) { exists i :: 0 <= i < |named| && named[i].TheApp? }

  function AppsNamed(w: World, runs: seq<Run>, n: nat, line: Line): nat
    requires n <= |runs|
  {
    if n == 0 then 0
    else AppsNamed(w, runs, n - 1, line) +
         (if runs[n - 1].line == line && NamesApp(Named(After(w, runs, n - 1), line, runs[n - 1].c)) then 1 else 0)
  }

  // One run creates at most one app; it is named exactly when the row stays without one.
  lemma AppBalance(w: World, line: Line, c: Calls)
    requires Fresh(w) && line in w.rows
    ensures var w' := WorldAfter(w, line, c);
            line in w'.rows &&
            (if w'.dify.apps != w.dify.apps then 1 else 0) ==
            (if NamesApp(Named(w, line, c)) then 1 else 0) +
            (if w'.rows[line].agent.Some? && w.rows[line].agent.None? then 1 else 0)
    ensures |WorldAfter(w, line, c).dify.apps - w.dify.apps| <= 1
  {
    hide StepOf, NoFailure, Create, Wire;
    if !c.getFails {
      var row := w.rows[line];
      var r := Result(row.agent, row.dataset, false, false, []);
      EmptySteps(r);
      CreateHalf(w, line, r, c);
      var k := Create(w, line, r, c);
      if c.login && k.stopped && StepOf(k.r, App) == Some(Done) {
        assert Unrecorded(k.r)[0].TheApp?;
      }
      if c.login && !k.stopped {
        WireHalf(k, row.agent.None?, row.dataset.None?, c);
      }
      OneNewApp(w, WorldAfter(w, line, c));
    }
  }

  lemma OneNewApp(w: World, w': World)
    requires w'.dify.apps == w.dify.apps || w'.dify.apps == w.dify.apps + {w.dify.next}
    ensures |w'.dify.apps - w.dify.apps| <= 1
  {
    if w'.dify.apps != w.dify.apps {
      assert w'.dify.apps - w.dify.apps == {w.dify.next};
    } else {
      assert w'.dify.apps - w.dify.apps == {};
    }
  }

  // Over any runs the apps created for a line are those the answers named, and the one
  // the row came to hold. Without a failed write-back there is exactly one.
  lemma {:induction false} AppsAreConserved(w: World, runs: seq<Run>, n: nat, line: Line)
    requires Fresh(w) && line in w.rows && n <= |runs|
    ensures line in After(w, runs, n).rows
    ensures AppsCreated(w, runs, n, line) ==
            AppsNamed(w, runs, n, line) +
            (if After(w, runs, n).rows[line].agent.Some? && w.rows[line].agent.None? then 1 else 0)
    ensures w.rows[line].agent.Some? ==> After(w, runs, n).rows[line].agent == w.rows[line].agent
  {
    hide WorldAfter, Named, Fresh;
    if n > 0 {
      AppsAreConserved(w, runs, n - 1, line);
      var b := After(w, runs, n - 1);
      FreshOverRuns(w, runs, n - 1);
      RowsAfter(b, runs[n - 1].line, runs[n - 1].c);
      if runs[n - 1].line == line {
        AppBalance(b, line, runs[n - 1].c);
      }
    }
  }

  // ---------- The same for datasets ----------

  function DatasetsCreated(w: World, runs: seq<Run>, n: nat, line: Line): nat
    requires n <= |runs|
  {
    if n == 0 then 0
    else DatasetsCreated(w, runs, n - 1, line) +
         (if runs[n - 1].line == line && After(w, runs, n).dify.datasets != After(w, runs, n - 1).dify.datasets
          then 1 else 0)
  }

  predicate NamesDataset(named: seq<Resource>) { exists i :: 0 <= i < |named| && named[i].TheDataset? }

  function DatasetsNamed(w: World, runs: seq<Run>, n: nat, line: Line): nat
    requires n <= |runs|
  {
    if n == 0 then 0
    else DatasetsNamed(w, runs, n - 1, line) +
         (if runs[n - 1].line == line && NamesDataset(Named(After(w, runs, n - 1), line, runs[n - 1].c)) then 1 else 0)
  }

  lemma DatasetBalance(w: World, line: Line, c: Calls)
    requires Fresh(w) && line in w.rows
    ensures var w' := WorldAfter(w, line, c);
            line in w'.rows &&
            (if w'.dify.datasets != w.dify.datasets then 1 else 0) ==
            (if NamesDataset(Named(w, line, c)) then 1 else 0) +
            (if w'.rows[line].dataset.Some? && w.rows[line].dataset.None? then 1 else 0)
    ensures |WorldAfter(w, line, c).dify.datasets - w.dify.datasets| <= 1
  {
    hide StepOf, NoFailure, Create, Wire, Attaches, Retrieves, Searchable, VerdictOf, Unrecorded, NamesDataset;
    OneNewDataset(w, w, None);
    NothingNamed();
    if !c.getFails {
      var row := w.rows[line];
      var r := Result(row.agent, row.dataset, false, false, []);
      EmptySteps(r);
      CreateHalf(w, line, r, c);
      var k := Create(w, line, r, c);
      NamesItsDataset(r);
      NamesItsDataset(k.r);
      if c.login && !k.stopped {
        WireHalf(k, row.agent.None?, row.dataset.None?, c);
      }
      OneNewDataset(w, WorldAfter(w, line, c), k.r.dataset);
    }
  }

  lemma NothingNamed()
    ensures !NamesDataset([])
  {
  }

  lemma NamesItsDataset(r: Result)
    ensures NamesDataset(Unrecorded(r)) <==>
            && (StepOf(r, Binding).None? || StepOf(r, Binding).value.Failed?)
            && StepOf(r, Dataset) == Some(Done) && r.dataset.Some?
  {
    hide StepOf;
    var named := Unrecorded(r);
    if StepOf(r, Dataset) == Some(Done) && r.dataset.Some? && named != [] {
      assert named[|named| - 1].TheDataset?;
    }
  }

  lemma OneNewDataset(w: World, w': World, id: Option<nat>)
    requires w'.dify.datasets == w.dify.datasets || (id.Some? && w'.dify.datasets == w.dify.datasets + {id.value})
    ensures |w'.dify.datasets - w.dify.datasets| <= 1
  {
    if w'.dify.datasets != w.dify.datasets {
      assert w'.dify.datasets - w.dify.datasets == {id.value};
    } else {
      assert w'.dify.datasets - w.dify.datasets == {};
    }
  }

  lemma {:induction false} DatasetsAreConserved(w: World, runs: seq<Run>, n: nat, line: Line)
    requires Fresh(w) && line in w.rows && n <= |runs|
    ensures line in After(w, runs, n).rows
    ensures DatasetsCreated(w, runs, n, line) ==
            DatasetsNamed(w, runs, n, line) +
            (if After(w, runs, n).rows[line].dataset.Some? && w.rows[line].dataset.None? then 1 else 0)
    ensures w.rows[line].dataset.Some? ==> After(w, runs, n).rows[line].dataset == w.rows[line].dataset
  {
    hide WorldAfter, Named, Fresh;
    if n > 0 {
      DatasetsAreConserved(w, runs, n - 1, line);
      var b := After(w, runs, n - 1);
      FreshOverRuns(w, runs, n - 1);
      RowsAfter(b, runs[n - 1].line, runs[n - 1].c);
      if runs[n - 1].line == line {
        DatasetBalance(b, line, runs[n - 1].c);
      }
    }
  }
}
