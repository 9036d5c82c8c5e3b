// The ontology cache in front of the database (pkg/domain/store.go). Every
// synchronous stretch of a read is one step: the look under the read lock, the
// check of the entry's age, the query, and the store under the write lock. Any
// number of reads, publishes and invalidations interleave between the steps.
module FactCache {
  import opened Options

  type Line = string

  datatype Ontology = Ontology(version: nat, compiled: string)

  // What a query finds: a line may have no active ontology.
  type Value = Option<Ontology>

  // The load an entry came from: the call that made it, and the positions in the
  // run of its query and of its store.
  datatype Load = Load(maker: nat, asked: nat, stored: nat)

  datatype Entry = Entry(value: Value, loadedAt: nat, load: Load)

  // `load` is None for the call that asked nobody; `stale` marks an entry served
  // because the query failed.
  datatype Answer = Failed | Answer(value: Value, at: nat, load: Option<Load>, stale: bool)

  datatype Call =
    | Looked(line: Line, found: Option<Entry>)
    | Asking(line: Line, found: Option<Entry>)
    | Loaded(line: Line, value: Value, asked: nat)
    | Done(line: Line, answer: Answer)

  datatype World = World(db: map<Line, Ontology>, cached: map<Line, Entry>, calls: map<nat, Call>)

  datatype Event =
    | Commit(line: Line, value: Value)
    | Invalidate(line: Line)
    | Look(c: nat, line: Line)
    | Check(c: nat)
    | Query(c: nat, fails: bool)
    | Keep(c: nat)

  datatype Action = Action(at: nat, what: Event)

  // Five minutes, in nanoseconds, for a ttl that is not positive.
  const DEFAULT_TTL := 300_000_000_000

  function Ttl(configured: int): (ttl: nat)
    ensures ttl > 0 && (configured > 0 ==> ttl == configured)
  {
    if configured <= 0 then DEFAULT_TTL else configured
  }

  function Current(w: World, line: Line): Value {
    if line in w.db then Some(w.db[line]) else None
  }

  function Found(cached: map<Line, Entry>, line: Line): Option<Entry> {
    if line in cached then Some(cached[line]) else None
  }

  predicate Fresh(ttl: nat, e: Entry, now: nat) { now - e.loadedAt < ttl }

  function Go(w: World, c: nat, call: Call): World { w.(calls := w.calls[c := call]) }

  function FromEntry(line: Line, e: Entry, now: nat, stale: bool): Call {
    Done(line, Answer(e.value, now, Some(e.load), stale))
  }

  function StepLook(w: World, c: nat, line: Line, at: nat): World {
    if c in w.calls then w
    else if line == "" then Go(w, c, Done(line, Answer(None, at, None, false)))
    else Go(w, c, Looked(line, Found(w.cached, line)))
  }

  function StepCheck(ttl: nat, w: World, c: nat, at: nat): World {
    if c in w.calls && w.calls[c].Looked? then
      var call := w.calls[c];
      if call.found.Some? && Fresh(ttl, call.found.value, at) then
        Go(w, c, FromEntry(call.line, call.found.value, at, false))
      else Go(w, c, Asking(call.line, call.found))
    else w
  }

  function StepQuery(w: World, c: nat, fails: bool, at: nat, n: nat): World {
    if c in w.calls && w.calls[c].Asking? then
      var call := w.calls[c];
      if !fails then Go(w, c, Loaded(call.line, Current(w, call.line), n))
      else if call.found.Some? then Go(w, c, FromEntry(call.line, call.found.value, at, true))
      else Go(w, c, Done(call.line, Failed))
    else w
  }

  function StepKeep(w: World, c: nat, at: nat, n: nat): World {
    if c in w.calls && w.calls[c].Loaded? then
      var call := w.calls[c];
      var e := Entry(call.value, at, Load(c, call.asked, n));
      Go(w.(cached := w.cached[call.line := e]), c, FromEntry(call.line, e, at, false))
    else w
  }

  // The n-th step of a run.
  function Step(ttl: nat, w: World, a: Action, n: nat): World {
    match a.what
    case Commit(line, value) =>
      if line == "" then w
      else if value.Some? then w.(db := w.db[line := value.value])
      else w.(db := w.db - {line})
    case Invalidate(line) => w.(cached := w.cached - {line})
    case Look(c, line) => StepLook(w, c, line, a.at)
    case Check(c) => StepCheck(ttl, w, c, a.at)
    case Query(c, fails) => StepQuery(w, c, fails, a.at, n)
    case Keep(c) => StepKeep(w, c, a.at, n)
  }

  function After(ttl: nat, w: World, acts: seq<Action>, n: nat): World
    requires n <= |acts|
  {
    if n == 0 then w else Step(ttl, After(ttl, w, acts, n - 1), acts[n - 1], n - 1)
  }

  const START := World(map[], map[], map[])

  // ---------- The store itself ----------

  // The stretches between two points where another goroutine may run.
  class Store {
    const ttl: nat
    var cached: map<Line, Entry>

    constructor (configured: int)
      ensures ttl == Ttl(configured) && cached == map[]
    {
      ttl := Ttl(configured);
      cached := map[];
    }

    method Lookup(line: Line) returns (found: Option<Entry>)
      ensures found == Found(cached, line)
    {
      found := if line in cached then Some(cached[line]) else None;
    }

    method Remember(line: Line, value: Value, now: nat, load: Load)
      modifies this
      ensures cached == old(cached)[line := Entry(value, now, load)]
    {
      cached := cached[line := Entry(value, now, load)];
    }

    method Drop(line: Line)
      modifies this
      ensures cached == old(cached) - {line}
    {
      cached := cached - {line};
    }

    // A read nobody interferes with is its four steps in a row: `db` answers the
    // query, unless it fails.
    method Active(c: nat, line: Line, db: map<Line, Ontology>, fails: bool, t: (nat, nat, nat, nat), n: nat)
      returns (answer: Answer)
      modifies this
      ensures var w0 := World(db, old(cached), map[]);
              var w1 := StepLook(w0, c, line, t.0);
              var w2 := StepCheck(ttl, w1, c, t.1);
              var w3 := StepQuery(w2, c, fails, t.2, n);
              var w4 := StepKeep(w3, c, t.3, n + 1);
              cached == w4.cached && w4.calls[c] == Done(line, answer)
    {
      if line == "" {
        return Answer(None, t.0, None, false);
      }
      var found := Lookup(line);
      if found.Some? && Fresh(ttl, found.value, t.1) {
        return Answer(found.value.value, t.1, Some(found.value.load), false);
      }
      if fails {
        if found.Some? {
          return Answer(found.value.value, t.2, Some(found.value.load), true);
        }
        return Failed;
      }
      var value := if line in db then Some(db[line]) else None;
      Remember(line, value, t.3, Load(c, n, n + 1));
      answer := Answer(value, t.3, Some(Load(c, n, n + 1)), false);
    }
  }

  // ---------- What an entry holds ----------

  // The value was the line's active one when the load's query ran; the same call
  // stored it at `loadedAt`.
  ghost predicate Came(ttl: nat, acts: seq<Action>, n: nat, line: Line, value: Value, loadedAt: nat, load: Load)
    requires n <= |acts|
  {
    && load.asked < load.stored < n
    && acts[load.asked].what == Query(load.maker, false)
    && acts[load.stored] == Action(loadedAt, Keep(load.maker))
    && Current(After(ttl, START, acts, load.asked), line) == value
  }

  ghost predicate GoodEntry(ttl: nat, acts: seq<Action>, n: nat, line: Line, e: Entry)
    requires n <= |acts|
  {
    Came(ttl, acts, n, line, e.value, e.loadedAt, e.load)
  }

  // An answer of a load was given at most ttl after that load stored it.
  ghost predicate GoodAnswer(ttl: nat, acts: seq<Action>, n: nat, line: Line, a: Answer)
    requires n <= |acts|
  {
    a.Answer? ==>
      match a.load
      case None => line == "" && a.value.None? && !a.stale
      case Some(load) =>
        && load.stored < |acts|
        && Came(ttl, acts, n, line, a.value, acts[load.stored].at, load)
        && (!a.stale ==> a.at <= acts[load.stored].at + ttl)
  }

  ghost predicate GoodCall(ttl: nat, acts: seq<Action>, n: nat, c: nat, call: Call)
    requires n <= |acts|
  {
    match call
    case Looked(line, found) => line != "" && (found.Some? ==> GoodEntry(ttl, acts, n, line, found.value))
    case Asking(line, found) => line != "" && (found.Some? ==> GoodEntry(ttl, acts, n, line, found.value))
    case Loaded(line, value, asked) =>
      line != "" && asked < n && acts[asked].what == Query(c, false) &&
      Current(After(ttl, START, acts, asked), line) == value
    case Done(line, answer) => GoodAnswer(ttl, acts, n, line, answer)
  }

  ghost predicate Inv(ttl: nat, acts: seq<Action>, n: nat)
    requires n <= |acts|
  {
    var w := After(ttl, START, acts, n);
    && (forall line :: line in w.cached ==> GoodEntry(ttl, acts, n, line, w.cached[line]))
    && (forall c :: c in w.calls ==> GoodCall(ttl, acts, n, c, w.calls[c]))
  }

  lemma CallKeptGood(ttl: nat, acts: seq<Action>, n: nat, c: nat, call: Call)
    requires n < |acts| && GoodCall(ttl, acts, n, c, call)
    ensures GoodCall(ttl, acts, n + 1, c, call)
  {
    hide After, Current;
  }

  lemma StepPreserves(ttl: nat, acts: seq<Action>, n: nat)
    requires n < |acts| && Inv(ttl, acts, n)
    ensures Inv(ttl, acts, n + 1)
  {
    hide GoodCall, GoodEntry, Current;
    var w := After(ttl, START, acts, n);
    var w' := After(ttl, START, acts, n + 1);
    assert w' == Step(ttl, w, acts[n], n);
    forall line | line in w'.cached
      ensures GoodEntry(ttl, acts, n + 1, line, w'.cached[line])
    {
      EntryStaysGood(ttl, acts, n, line);
    }
    forall c | c in w'.calls
      ensures GoodCall(ttl, acts, n + 1, c, w'.calls[c])
    {
      if c in w.calls && w'.calls[c] == w.calls[c] {
        CallKeptGood(ttl, acts, n, c, w.calls[c]);
      } else {
        CallMovesGood(ttl, acts, n, c);
      }
    }
  }

  lemma EntryStaysGood(ttl: nat, acts: seq<Action>, n: nat, line: Line)
    requires n < |acts| && Inv(ttl, acts, n) && line in After(ttl, START, acts, n + 1).cached
    ensures GoodEntry(ttl, acts, n + 1, line, After(ttl, START, acts, n + 1).cached[line])
  {
    hide Current;
    var w := After(ttl, START, acts, n);
    var w' := After(ttl, START, acts, n + 1);
    assert w' == Step(ttl, w, acts[n], n);
    if line in w.cached && w'.cached[line] == w.cached[line] {
      assert GoodEntry(ttl, acts, n, line, w.cached[line]);
    } else {
      var c := acts[n].what.c;
      assert GoodCall(ttl, acts, n, c, w.calls[c]);
    }
  }

  lemma EntryKept(ttl: nat, acts: seq<Action>, n: nat, line: Line, found: Option<Entry>)
    requires n < |acts| && (found.Some? ==> GoodEntry(ttl, acts, n, line, found.value))
    ensures found.Some? ==> GoodEntry(ttl, acts, n + 1, line, found.value)
  {
    hide After, Current;
  }

  lemma ServedFromEntry(ttl: nat, acts: seq<Action>, n: nat, line: Line, e: Entry, now: nat, stale: bool, c: nat)
    requires n < |acts| && GoodEntry(ttl, acts, n, line, e) && (stale || Fresh(ttl, e, now))
    ensures GoodCall(ttl, acts, n + 1, c, FromEntry(line, e, now, stale))
  {
    hide After, Current;
  }

  lemma JustStored(ttl: nat, acts: seq<Action>, n: nat, c: nat, call: Call)
    requires n < |acts| && GoodCall(ttl, acts, n, c, call) && call.Loaded? && acts[n].what == Keep(c)
    ensures var e := Entry(call.value, acts[n].at, Load(c, call.asked, n));
            GoodCall(ttl, acts, n + 1, c, FromEntry(call.line, e, acts[n].at, false))
  {
    hide After, Current;
  }

  lemma CallMovesGood(ttl: nat, acts: seq<Action>, n: nat, c: nat)
    requires n < |acts| && Inv(ttl, acts, n) && c in After(ttl, START, acts, n + 1).calls
    requires var w := After(ttl, START, acts, n);
             c !in w.calls || After(ttl, START, acts, n + 1).calls[c] != w.calls[c]
    ensures GoodCall(ttl, acts, n + 1, c, After(ttl, START, acts, n + 1).calls[c])
  {
    hide Current, Came, GoodAnswer, GoodEntry;
    var w := After(ttl, START, acts, n);
    var w' := After(ttl, START, acts, n + 1);
    assert w' == Step(ttl, w, acts[n], n);
    if c !in w.calls {
      LookedGood(ttl, acts, n, c);
    } else {
      var call := w.calls[c];
      assert GoodCall(ttl, acts, n, c, call);
      if call.Looked? || call.Asking? {
        EntryKept(ttl, acts, n, call.line, call.found);
        if w'.calls[c].Done? && call.found.Some? {
          ServedFromEntry(ttl, acts, n, call.line, call.found.value, acts[n].at, acts[n].what.Query?, c);
        } else if w'.calls[c].Done? {
          FailedIsGood(ttl, acts, n + 1, call.line);
        }
      } else if call.Loaded? {
        JustStored(ttl, acts, n, c, call);
      }
    }
  }

  lemma LookedGood(ttl: nat, acts: seq<Action>, n: nat, c: nat)
    requires n < |acts| && Inv(ttl, acts, n) && c !in After(ttl, START, acts, n).calls
    requires c in After(ttl, START, acts, n + 1).calls
    ensures GoodCall(ttl, acts, n + 1, c, After(ttl, START, acts, n + 1).calls[c])
  {
    hide Current, Came;
    var w := After(ttl, START, acts, n);
    assert After(ttl, START, acts, n + 1) == Step(ttl, w, acts[n], n);
    EntryKept(ttl, acts, n, acts[n].what.line, Found(w.cached, acts[n].what.line));
  }

  lemma FailedIsGood(ttl: nat, acts: seq<Action>, n: nat, line: Line)
    requires n <= |acts|
    ensures GoodAnswer(ttl, acts, n, line, Failed)
  {
  }

  lemma {:induction false} InvOverRuns(ttl: nat, acts: seq<Action>, n: nat)
    requires n <= |acts|
    ensures Inv(ttl, acts, n)
  {
    hide Inv;
    if n > 0 {
      InvOverRuns(ttl, acts, n - 1);
      StepPreserves(ttl, acts, n - 1);
    } else {
      InvAtStart(ttl, acts);
    }
  }

  lemma InvAtStart(ttl: nat, acts: seq<Action>)
    ensures Inv(ttl, acts, 0)
  {
  }

  // ---------- How old an answer is ----------

  // Whatever a read returns for a line was its active ontology at the query of the load
  // it came from. Returned without a database error it was so at most ttl plus that
  // load's own gap between query and store before the return.
  lemma ServedWasActive(ttl: nat, acts: seq<Action>, n: nat, c: nat)
    requires n <= |acts| && c in After(ttl, START, acts, n).calls
    requires var call := After(ttl, START, acts, n).calls[c]; call.Done? && call.answer.Answer? && call.line != ""
    ensures var call := After(ttl, START, acts, n).calls[c];
            && call.answer.load.Some?
            && var load := call.answer.load.value;
               && load.asked < load.stored < n
               && acts[load.asked].what == Query(load.maker, false) && acts[load.stored].what == Keep(load.maker)
               && Current(After(ttl, START, acts, load.asked), call.line) == call.answer.value
               && (!call.answer.stale ==>
                     call.answer.at - acts[load.asked].at <= ttl + (acts[load.stored].at - acts[load.asked].at))
  {
    hide Current, After;
    InvOverRuns(ttl, acts, n);
    assert GoodCall(ttl, acts, n, c, After(ttl, START, acts, n).calls[c]);
  }

  // Undisturbed, a read of a cached line never fails: an entry younger than the ttl is
  // served without asking the database, an old one gives way to what the database holds,
  // and only a failed query brings the old one back.
  lemma CachedReadNeverFails(ttl: nat, w: World, c: nat, line: Line, fails: bool, now: nat, n: nat)
    requires line in w.cached && line != "" && c !in w.calls
    ensures var checked := StepCheck(ttl, StepLook(w, c, line, now), c, now);
            var w' := StepKeep(StepQuery(checked, c, fails, now, n), c, now, n + 1);
            && c in w'.calls && w'.calls[c].Done? && w'.calls[c].answer.Answer?
            && var a := w'.calls[c].answer;
               if now < w.cached[line].loadedAt + ttl then
                 a.value == w.cached[line].value && w'.cached == w.cached && !a.stale
               else if fails then a.value == w.cached[line].value && w'.cached == w.cached && a.stale
               else
                 && a.value == (if line in w.db then Some(w.db[line]) else None) && !a.stale
                 && w'.cached[line] == Entry(a.value, now, Load(c, n, n + 1))
  {
  }

  // ---------- What an invalidation achieves ----------

  // A load of the line is between its query and its store.
  ghost predicate Loading(w: World, line: Line) {
    exists c :: c in w.calls && w.calls[c].Loaded? && w.calls[c].line == line
  }

  predicate Since(m: nat, found: Option<Entry>) { found.Some? ==> found.value.load.asked >= m }

  ghost predicate CallSince(m: nat, call: Call) {
    match call
    case Looked(_, found) => Since(m, found)
    case Asking(_, found) => Since(m, found)
    case Loaded(_, _, asked) => asked >= m
    case Done(_, answer) => AnsweredSince(m, answer)
  }

  // The answer comes from a query made at position m or later.
  predicate AnsweredSince(m: nat, a: Answer) { a.Answer? && a.load.Some? ==> a.load.value.asked >= m }

  // The cached entry of the line, its loads, and what the reads begun after the base
  // know were queried from position m on. Reads that were looking or asking before may
  // still know older entries; they never store them.
  ghost predicate AllSince(m: nat, base: World, w: World, line: Line) {
    && Since(m, Found(w.cached, line))
    && (forall c :: c in base.calls ==> c in w.calls && w.calls[c].line == base.calls[c].line)
    && (forall c :: c in w.calls && w.calls[c].line == line && (w.calls[c].Loaded? || c !in base.calls) ==>
          CallSince(m, w.calls[c]))
  }

  lemma {:induction false} SinceOverRuns(ttl: nat, w: World, acts: seq<Action>, m: nat, n: nat, line: Line)
    requires m <= n <= |acts| && line !in After(ttl, w, acts, m).cached && !Loading(After(ttl, w, acts, m), line)
    ensures AllSince(m, After(ttl, w, acts, m), After(ttl, w, acts, n), line)
  {
    hide Step, AllSince;
    if m < n {
      SinceOverRuns(ttl, w, acts, m, n - 1, line);
      SinceStep(ttl, m, After(ttl, w, acts, m), After(ttl, w, acts, n - 1), acts[n - 1], n - 1, line);
    } else {
      SinceAtOnce(m, After(ttl, w, acts, m), line);
    }
  }

  lemma SinceAtOnce(m: nat, w: World, line: Line)
    requires line !in w.cached && !Loading(w, line)
    ensures AllSince(m, w, w, line)
  {
  }

  lemma SinceGo(m: nat, base: World, w: World, c: nat, call: Call, line: Line)
    requires AllSince(m, base, w, line)
    requires c in w.calls ==> call.line == w.calls[c].line
    requires call.line == line && (call.Loaded? || c !in base.calls) ==> CallSince(m, call)
    ensures AllSince(m, base, Go(w, c, call), line)
  {
    hide CallSince;
  }

  lemma SinceCached(m: nat, base: World, w: World, cached: map<Line, Entry>, line: Line)
    requires AllSince(m, base, w, line) && Since(m, Found(cached, line))
    ensures AllSince(m, base, w.(cached := cached), line)
  {
    hide CallSince;
  }

  lemma SinceStep(ttl: nat, m: nat, base: World, w: World, a: Action, n: nat, line: Line)
    requires m <= n && AllSince(m, base, w, line)
    ensures AllSince(m, base, Step(ttl, w, a, n), line)
  {
    hide AllSince, Current, Fresh;
    var w' := Step(ttl, w, a, n);
    match a.what
    case Commit(l, value) => SinceCommit(m, base, w, w'.db, line);
    case Invalidate(l) =>
      SinceGives(m, base, w, line);
      SinceCached(m, base, w, w'.cached, line);
    case Look(c, l) =>
      SinceGives(m, base, w, line);
      if c !in w.calls {
        SinceGo(m, base, w, c, w'.calls[c], line);
      }
    case Check(c) => SinceCall(ttl, m, base, w, a, n, c, line);
    case Query(c, fails) => SinceCall(ttl, m, base, w, a, n, c, line);
    case Keep(c) =>
      if c in w.calls && w.calls[c].Loaded? {
        SinceGives(m, base, w, line);
        CallGives(m, base, w, c, line);
        SinceCached(m, base, w, w'.cached, line);
        SinceGo(m, base, w.(cached := w'.cached), c, w'.calls[c], line);
      }
  }

  lemma SinceGives(m: nat, base: World, w: World, line: Line)
    requires AllSince(m, base, w, line)
    ensures Since(m, Found(w.cached, line))
  {
  }

  lemma CallGives(m: nat, base: World, w: World, c: nat, line: Line)
    requires AllSince(m, base, w, line) && c in w.calls
    ensures w.calls[c].line == line && (w.calls[c].Loaded? || c !in base.calls) ==> CallSince(m, w.calls[c])
  {
    hide CallSince;
  }

  lemma SinceCommit(m: nat, base: World, w: World, db: map<Line, Ontology>, line: Line)
    requires AllSince(m, base, w, line)
    ensures AllSince(m, base, w.(db := db), line)
  {
    hide CallSince;
  }

  lemma SinceCall(ttl: nat, m: nat, base: World, w: World, a: Action, n: nat, c: nat, line: Line)
    requires m <= n && AllSince(m, base, w, line)
    requires a.what == Check(c) || a.what == Query(c, true) || a.what == Query(c, false)
    ensures AllSince(m, base, Step(ttl, w, a, n), line)
  {
    hide AllSince, Current, Fresh;
    var w' := Step(ttl, w, a, n);
    if c in w.calls && w' != w {
      CallGives(m, base, w, c, line);
      SinceGo(m, base, w, c, w'.calls[c], line);
    }
  }

  // Every read of the line begun after the first m steps is answered, if at all, from a
  // query made after them.
  ghost predicate LaterReadsReload(ttl: nat, acts: seq<Action>, m: nat, line: Line)
    requires m <= |acts|
  {
    forall c :: var w := After(ttl, START, acts, |acts|);
      c in w.calls && c !in After(ttl, START, acts, m).calls && w.calls[c].Done? && w.calls[c].line == line ==>
        AnsweredSince(m, w.calls[c].answer)
  }

  // An invalidation does what it is for, however the run goes on, if and only if no load
  // of the line has queried and not yet stored when it happens. Reads that have looked
  // or are about to ask do no harm.
  lemma InvalidateReloadsIff(ttl: nat, acts: seq<Action>, line: Line)
    requires ttl > 0 && line != "" && acts != [] && acts[|acts| - 1].what == Invalidate(line)
    ensures !Loading(After(ttl, START, acts, |acts| - 1), line) <==>
              forall more: seq<Action> :: LaterReadsReload(ttl, acts + more, |acts|, line)
  {
    hide After, LaterReadsReload;
    var w := After(ttl, START, acts, |acts| - 1);
    if !Loading(w, line) {
      forall more: seq<Action>
        ensures LaterReadsReload(ttl, acts + more, |acts|, line)
      {
        QuietInvalidate(ttl, acts, more, line);
      }
    } else {
      var c :| c in w.calls && w.calls[c].Loaded? && w.calls[c].line == line;
      LoadSurvives(ttl, acts, line, c, acts[|acts| - 1].at);
    }
  }

  lemma {:induction false} AfterOfPrefix(ttl: nat, w: World, acts: seq<Action>, more: seq<Action>, n: nat)
    requires n <= |acts|
    ensures After(ttl, w, acts + more, n) == After(ttl, w, acts, n)
  {
    hide Step;
    if n > 0 {
      AfterOfPrefix(ttl, w, acts, more, n - 1);
    }
  }

  lemma QuietInvalidate(ttl: nat, acts: seq<Action>, more: seq<Action>, line: Line)
    requires acts != [] && acts[|acts| - 1].what == Invalidate(line)
    requires !Loading(After(ttl, START, acts, |acts| - 1), line)
    ensures LaterReadsReload(ttl, acts + more, |acts|, line)
  {
    var all := acts + more;
    AfterOfPrefix(ttl, START, acts, more, |acts| - 1);
    var w := After(ttl, START, all, |acts| - 1);
    assert all[|acts| - 1] == acts[|acts| - 1];
    assert After(ttl, START, all, |acts|) == w.(cached := w.cached - {line});
    SinceOverRuns(ttl, START, all, |acts|, |all|, line);
  }

  // The load stores what it had found; a read begun then is answered with it.
  lemma LoadSurvives(ttl: nat, acts: seq<Action>, line: Line, c: nat, at: nat)
    requires ttl > 0 && acts != [] && acts[|acts| - 1].what == Invalidate(line)
    requires var w := After(ttl, START, acts, |acts| - 1); c in w.calls && w.calls[c].Loaded? && w.calls[c].line == line
    requires line != ""
    ensures exists more: seq<Action> :: !LaterReadsReload(ttl, acts + more, |acts|, line)
  {
    hide After;
    var w := After(ttl, START, acts, |acts| - 1);
    var call := w.calls[c];
    var d := Unused(w.calls.Keys);
    var more := [Action(at, Keep(c)), Action(at, Look(d, line)), Action(at, Check(d))];
    var all, m := acts + more, |acts|;
    AskedBefore(ttl, acts, |acts| - 1, c);
    AfterOfPrefix(ttl, START, acts, more, m - 1);
    OneMore(ttl, all, m - 1);
    OneMore(ttl, all, m);
    OneMore(ttl, all, m + 1);
    OneMore(ttl, all, m + 2);
    var e := Entry(call.value, at, Load(c, call.asked, m));
    assert After(ttl, START, all, m).calls == w.calls;
    assert After(ttl, START, all, m + 1).cached[line] == e;
    assert After(ttl, START, all, m + 2).calls[d] == Looked(line, Some(e));
    assert After(ttl, START, all, m + 3).calls[d] == FromEntry(line, e, at, false);
    assert |all| == m + 3;
    assert !LaterReadsReload(ttl, all, m, line);
  }

  lemma AskedBefore(ttl: nat, acts: seq<Action>, n: nat, c: nat)
    requires n <= |acts| && c in After(ttl, START, acts, n).calls && After(ttl, START, acts, n).calls[c].Loaded?
    ensures After(ttl, START, acts, n).calls[c].asked < n
  {
    hide After, Current;
    InvOverRuns(ttl, acts, n);
    assert GoodCall(ttl, acts, n, c, After(ttl, START, acts, n).calls[c]);
  }

  lemma Unused(used: set<nat>) returns (d: nat)
    ensures d !in used
  {
    d := 0;
    var rest := used;
    while d in used
      invariant forall k :: k in used && k >= d ==> k in rest
      decreases rest
    {
      rest := rest - {d};
      d := d + 1;
    }
  }

  // What such an answer holds was active at a moment after the invalidation.
  lemma ReloadedValue(ttl: nat, acts: seq<Action>, m: nat, c: nat, line: Line)
    requires m <= |acts| && line != "" && LaterReadsReload(ttl, acts, m, line)
    requires var w := After(ttl, START, acts, |acts|);
             c in w.calls && c !in After(ttl, START, acts, m).calls && w.calls[c].Done? && w.calls[c].line == line &&
             w.calls[c].answer.Answer?
    ensures exists k :: m <= k < |acts| &&
              Current(After(ttl, START, acts, k), line) == After(ttl, START, acts, |acts|).calls[c].answer.value
  {
    hide Current, After;
    InvOverRuns(ttl, acts, |acts|);
    assert GoodCall(ttl, acts, |acts|, c, After(ttl, START, acts, |acts|).calls[c]);
  }

  // A read of "a" queries it, an ontology is published and invalidated, the read
  // stores what it had found, and a second read begins.
  const LATE := [Action(0, Look(0, "a")), Action(0, Check(0)), Action(0, Query(0, false)),
                 Action(0, Commit("a", Some(Ontology(1, "new")))), Action(0, Invalidate("a")),
                 Action(0, Keep(0)), Action(0, Look(1, "a")), Action(0, Check(1))]

  lemma OneMore(ttl: nat, acts: seq<Action>, n: nat)
    requires n < |acts|
    ensures After(ttl, START, acts, n + 1) == Step(ttl, After(ttl, START, acts, n), acts[n], n)
  {
  }

  lemma LateLoad(ttl: nat)
    ensures After(ttl, START, LATE, 5) ==
            World(map["a" := Ontology(1, "new")], map[], map[0 := Loaded("a", None, 2)])
  {
    hide After;
    OneMore(ttl, LATE, 0);
    OneMore(ttl, LATE, 1);
    OneMore(ttl, LATE, 2);
    OneMore(ttl, LATE, 3);
    OneMore(ttl, LATE, 4);
    assert After(ttl, START, LATE, 0) == START by {
      AtStart(ttl, LATE);
    }
    assert After(ttl, START, LATE, 1) == START.(calls := map[0 := Looked("a", None)]);
    assert After(ttl, START, LATE, 2) == START.(calls := map[0 := Asking("a", None)]);
    assert After(ttl, START, LATE, 3) == START.(calls := map[0 := Loaded("a", None, 2)]);
  }

  lemma AtStart(ttl: nat, acts: seq<Action>)
    ensures After(ttl, START, acts, 0) == START
  {
  }

  // With a load under way it does not: the second read begins after the publish and
  // its invalidation and is answered with what was active before them.
  lemma LateLoadUndoesInvalidate(ttl: nat)
    requires ttl > 0
    ensures LATE[3].what == Commit("a", Some(Ontology(1, "new"))) && LATE[4].what == Invalidate("a")
    ensures 1 !in After(ttl, START, LATE, 5).calls
    ensures 1 in After(ttl, START, LATE, 8).calls
    ensures After(ttl, START, LATE, 8).calls[1] == Done("a", Answer(None, 0, Some(Load(0, 2, 5)), false))
  {
    hide After;
    LateLoad(ttl);
    OneMore(ttl, LATE, 5);
    OneMore(ttl, LATE, 6);
    OneMore(ttl, LATE, 7);
    var e := Entry(None, 0, Load(0, 2, 5));
    assert After(ttl, START, LATE, 6).cached == map["a" := e];
    assert After(ttl, START, LATE, 7).calls[1] == Looked("a", Some(e));
  }
}
