// What a run that reaches its end does to a line, step by step, and what it answers
// about each (identity/dify_line.go).
module LineSteps {
  import opened Options
  import opened DifyLine
  import opened LineSafety

  // What Dify holds about the dataset's retrieval, as the code's four verdicts: settings
  // that were never written count as unset.
  predicate NeedsRetrieval(d: Dify, dataset: nat) {
    dataset !in d.verdicts || d.verdicts[dataset].Unset? || d.verdicts[dataset].Mismatched?
  }

  lemma AddTells(r: Result, key: Key, state: State)
    ensures forall k :: StepOf(Add(r, key, state), k) ==
              if StepOf(r, k).Some? then StepOf(r, k) else if key == k then Some(state) else None
  {
    hide StepOf, Add;
    forall k
      ensures StepOf(Add(r, key, state), k) ==
              if StepOf(r, k).Some? then StepOf(r, k) else if key == k then Some(state) else None
    {
      StepOfAdd(r, key, state, k);
    }
  }

  // The steps of the wiring half do not follow each other's answers.
  ghost predicate OnlyAdds(r: Result, r': Result, key: Key, state: State) {
    && (forall k :: StepOf(r', k) ==
                    if StepOf(r, k).Some? then StepOf(r, k) else if key == k then Some(state) else None)
    && r'.agent == r.agent && r'.dataset == r.dataset && r'.ready == r.ready
    && (r'.changed <==> r.changed || state.Done?)
  }

  // ---------- Attachment ----------

  // Asks first: the pair is attached when the app does not list it, and nothing else is.
  lemma AttachStep(k: Walk, c: Calls)
    requires !k.stopped && k.r.agent.Some? && k.r.dataset.Some?
    ensures var k', pair := WalkAttach(k, c), (k.r.agent.value, k.r.dataset.value);
            var missing := c.readBound && pair !in k.w.dify.bound;
            && OnlyAdds(k.r, k'.r, Attach, if missing && c.attach then Done
                                           else if c.readBound && !missing then Already else Failed)
            && k'.w.dify.bound == k.w.dify.bound + (if missing && (c.attach || c.attachLands) then {pair} else {})
            && k'.w.dify.verdicts == k.w.dify.verdicts && k'.w.rows == k.w.rows
            && k'.w.dify.writes == k.w.dify.writes + (if missing && (c.attach || c.attachLands) then 1 else 0)
  {
    hide StepOf;
    AddTells(k.r, Attach, Failed);
    AddTells(k.r, Attach, Already);
    AddTells(k.r, Attach, Done);
  }

  // ---------- Retrieval ----------

  // On a dataset that was there before, a retrieval write is made exactly when its settings
  // are unset or contradict its index; on a new one, exactly when the write made as it was
  // created did not take. No other dataset's settings move.
  lemma RetrievalStep(k: Walk, created: bool, c: Calls)
    requires !k.stopped && k.r.dataset.Some?
    ensures var k', id := WalkRetrieval(k, created, c), k.r.dataset.value;
            var writes := if created then !c.born.Took? else c.readRetrieval && NeedsRetrieval(k.w.dify, id);
            && k'.w.dify.writes == k.w.dify.writes + (if writes then 1 else 0)
            && k'.w.dify.verdicts == (if writes then k.w.dify.verdicts[id := Left(c.setting)] else k.w.dify.verdicts)
            && OnlyAdds(k.r, k'.r, Retrieval,
                        if writes then (if c.setting.Took? then Done else Failed)
                        else if created then Done else if c.readRetrieval then Already else Failed)
            && k'.w.dify.bound == k.w.dify.bound && k'.w.rows == k.w.rows
  {
    hide StepOf;
    AddTells(k.r, Retrieval, Failed);
    AddTells(k.r, Retrieval, Already);
    AddTells(k.r, Retrieval, Done);
  }

  // A setting that took leaves the dataset with a search method its index allows.
  lemma TakenIsSearchable(s: Setting)
    ensures s.Took? ==> Left(s).Sound? || Left(s).IndexPending?
    ensures s.Missed? ==> Left(s) == s.left
  {
  }

  // ---------- The prompt ----------

  lemma PromptStep(k: Walk, created: bool, c: Calls)
    requires !k.stopped
    ensures var k' := WalkPrompt(k, created, c);
            && k'.w.dify.bound == k.w.dify.bound && k'.w.dify.verdicts == k.w.dify.verdicts && k'.w.rows == k.w.rows
            && (if created && c.promptStore then
                  OnlyAdds(k.r, k'.r, Prompt, if c.prompt then Done else Failed) &&
                  k'.w.dify.writes == k.w.dify.writes + 1
                else k' == k)
  {
    hide StepOf;
    AddTells(k.r, Prompt, Failed);
    AddTells(k.r, Prompt, Done);
  }

  // ---------- The creating half ----------

  // What is missing is created and written back; what is there is left alone.
  lemma CreateSteps(w: World, line: Line, r: Result, c: Calls)
    requires r.steps == [] && !Create(w, line, r, c).stopped
    ensures var k := Create(w, line, r, c);
            var complete := r.agent.Some? && r.dataset.Some?;
            && StepOf(k.r, App) == Some(if r.agent.None? then Done else Already)
            && StepOf(k.r, ApiKey) == (if r.agent.None? then Some(Done) else None)
            && StepOf(k.r, Model) == (if r.agent.None? then Some(if c.pin then Done else Failed) else None)
            && StepOf(k.r, Dataset) == Some(if r.dataset.None? then Done else Already)
            && StepOf(k.r, Binding) == Some(if complete then Already else Done)
            && StepOf(k.r, Attach).None? && StepOf(k.r, Retrieval).None? && StepOf(k.r, Prompt).None?
            && k.w.dify.bound == w.dify.bound
            && k.w.dify.verdicts == (if r.dataset.None? then w.dify.verdicts[k.r.dataset.value := Left(c.born)]
                                     else w.dify.verdicts)
            && (complete ==> k.w == w)
            && (r.agent.Some? ==> k.r.agent == r.agent) && (r.dataset.Some? ==> k.r.dataset == r.dataset)
            && k.r.agent.Some? && k.r.dataset.Some?
            && k.w.dify.writes == w.dify.writes + (if r.agent.None? then 3 else 0) +
                                  (if r.dataset.None? then 1 else 0) + (if complete then 0 else 1)
  {
    hide StepOf, Persist;
    var k1 := WalkApp(w, r, c);
    StoppedStays(WalkDataset(k1, c), line, r.agent.None?, r.dataset.None?, c);
    AppSteps(w, r, c);
    AddTells(k1.r, Dataset, Already);
    AddTells(k1.r.(dataset := Some(k1.w.dify.next)), Dataset, Done);
    SameSteps(k1.r, k1.r.(dataset := Some(k1.w.dify.next)));
    var k2 := WalkDataset(k1, c);
    PersistStep(k2, line, r.agent.None?, r.dataset.None?, c);
  }

  lemma StoppedStays(k: Walk, line: Line, createdApp: bool, createdDataset: bool, c: Calls)
    ensures k.stopped ==> Persist(k, line, createdApp, createdDataset, c).stopped
  {
  }

  lemma SameSteps(r: Result, r': Result)
    requires r.steps == r'.steps
    ensures forall k :: StepOf(r, k) == StepOf(r', k)
  {
  }

  lemma AppSteps(w: World, r: Result, c: Calls)
    requires r.steps == [] && !WalkApp(w, r, c).stopped
    ensures var k := WalkApp(w, r, c);
            && StepOf(k.r, App) == Some(if r.agent.None? then Done else Already)
            && StepOf(k.r, ApiKey) == (if r.agent.None? then Some(Done) else None)
            && StepOf(k.r, Model) == (if r.agent.None? then Some(if c.pin then Done else Failed) else None)
            && (forall key :: key != App && key != ApiKey && key != Model ==> StepOf(k.r, key).None?)
  {
    hide StepOf;
    EmptySteps(r);
    AddTells(r, App, Already);
    if r.agent.None? {
      var r0 := r.(agent := Some(w.dify.next));
      EmptySteps(r0);
      AddTells(r0, App, Done);
      var r1 := Add(r0, App, Done);
      AddTells(r1, ApiKey, Done);
      AddTells(Add(r1, ApiKey, Done), Model, if c.pin then Done else Failed);
    }
  }

  lemma PersistStep(k: Walk, line: Line, createdApp: bool, createdDataset: bool, c: Calls)
    requires !k.stopped && !Persist(k, line, createdApp, createdDataset, c).stopped
    ensures var k' := Persist(k, line, createdApp, createdDataset, c);
            && OnlyAdds(k.r, k'.r, Binding, if createdApp || createdDataset then Done else Already)
            && k'.w.dify.bound == k.w.dify.bound && k'.w.dify.verdicts == k.w.dify.verdicts
            && (!createdApp && !createdDataset ==> k'.w == k.w)
            && k'.w.dify.writes == k.w.dify.writes + (if createdApp || createdDataset then 1 else 0)
  {
    hide StepOf;
    AddTells(k.r, Binding, Already);
    AddTells(k.r, Binding, Done);
  }

  // ---------- The whole run ----------

  // A run has a result exactly when the line can be read.
  lemma HasResultIff(w: World, line: Line, c: Calls)
    ensures Ensure(w, line, c).Some? <==> !c.getFails && line in w.rows
  {
    hide Create, Wire;
  }

  // A run stops exactly when it cannot log in, cannot create what is missing, or cannot
  // write back what it created.
  lemma StopsIff(w: World, line: Line, c: Calls)
    requires Ensure(w, line, c).Some?
    ensures var row := w.rows[line];
            Ensure(w, line, c).value.stopped <==>
              || !c.login
              || (row.agent.None? && !(c.createApp && c.createKey))
              || (row.dataset.None? && !c.createDataset)
              || ((row.agent.None? || row.dataset.None?) && !c.persist)
  {
  }

  // On a line that has its app and its dataset, a run that is let in decides on attachment
  // and retrieval from what it reads there, writes what is missing or wrong and nothing
  // else, and is ready exactly when neither failed.
  lemma BoundLineRun(w: World, line: Line, c: Calls)
    requires Ensure(w, line, c).Some? && c.login
    requires w.rows[line].agent.Some? && w.rows[line].dataset.Some?
    ensures var k, id := Ensure(w, line, c).value, w.rows[line].dataset.value;
            var pair := (w.rows[line].agent.value, id);
            var attaches := c.readBound && pair !in w.dify.bound;
            var sets := c.readRetrieval && NeedsRetrieval(w.dify, id);
            && !k.stopped && k.w.rows == w.rows
            && k.w.dify.bound == w.dify.bound + (if attaches && (c.attach || c.attachLands) then {pair} else {})
            && k.w.dify.verdicts == (if sets then w.dify.verdicts[id := Left(c.setting)] else w.dify.verdicts)
            && StepOf(k.r, Attach) == Some(if attaches && c.attach then Done
                                           else if c.readBound && !attaches then Already else Failed)
            && StepOf(k.r, Retrieval) == Some(if sets && c.setting.Took? then Done
                                              else if c.readRetrieval && !sets then Already else Failed)
            && (k.r.ready <==> c.readBound && (attaches ==> c.attach) && c.readRetrieval && (sets ==> c.setting.Took?))
            && (k.r.changed <==> (attaches && c.attach) || (sets && c.setting.Took?))
  {
    hide StepOf, NoFailure, Create, WalkAttach, WalkRetrieval, WalkPrompt;
    var row := w.rows[line];
    var r := Result(row.agent, row.dataset, false, false, []);
    StopsIff(w, line, c);
    NothingMissing(w, line, r, c);
    CreateSteps(w, line, r, c);
    var k := Create(w, line, r, c);
    AttachStep(k, c);
    var k1 := WalkAttach(k, c);
    AttachHalf(k, c);
    RetrievalStep(k1, false, c);
    RetrievalHalf(k1, false, c);
    PromptStep(WalkRetrieval(k1, false, c), false, c);
    SameSteps(Wire(k, false, false, c).r, Ensure(w, line, c).value.r);
  }

  lemma NothingMissing(w: World, line: Line, r: Result, c: Calls)
    requires r.agent.Some? && r.dataset.Some? && r.steps == [] && !r.changed
    ensures var k := Create(w, line, r, c);
            !k.stopped && k.w == w && NoFailure(k.r.steps) && !k.r.changed
  {
  }
}
