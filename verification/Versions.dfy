// The three version tables: prompt_versions, model_versions and
// ontology_versions. A publish retires the scope's active row and appends a new
// one, a rollback moves the active flag to an earlier row, and an override may
// be retired without a successor. Each of them is one transaction over the rows.
module Versions {
  import opened Options

  datatype Kind = Prompts | Models | Ontologies

  // One row. `scope` is product_line_id, which is NULL for the platform model;
  // `pushed` says whether pushed_at is set.
  datatype Row<C> = Row(id: nat, scope: Option<string>, version: nat, content: C, active: bool, pushed: bool)

  // A table with the sequence its row ids come from.
  datatype Table<C> = Table(rows: seq<Row<C>>, nextId: nat)

  // Where a transaction fails, if it does.
  datatype Fault = NoFault | AtBegin | AtRead | AtDeactivate | AtWrite | AtCommit

  const NIL_UUID := "00000000-0000-0000-0000-000000000000"

  // The key of the unique indexes: NULL is folded onto the nil uuid.
  function Fold(scope: Option<string>): string {
    if scope.Some? then scope.value else NIL_UUID
  }

  predicate In<C>(r: Row<C>, scope: Option<string>) { Fold(r.scope) == Fold(scope) }

  // MAX(version) over the first n rows of a scope, 0 when there is none.
  function Latest<C>(rows: seq<Row<C>>, n: nat, scope: Option<string>): nat
    requires n <= |rows|
  {
    if n == 0 then 0
    else
      var before := Latest(rows, n - 1, scope);
      if In(rows[n - 1], scope) && rows[n - 1].version > before then rows[n - 1].version else before
  }

  // How many of the first n rows belong to a scope.
  function Count<C>(rows: seq<Row<C>>, n: nat, scope: Option<string>): nat
    requires n <= |rows|
  {
    if n == 0 then 0 else Count(rows, n - 1, scope) + (if In(rows[n - 1], scope) then 1 else 0)
  }

  // ---------- The statements ----------

  function Deactivated<C>(rows: seq<Row<C>>, scope: Option<string>): (r: seq<Row<C>>)
    ensures |r| == |rows|
  {
    seq(|rows|, i requires 0 <= i < |rows| =>
      if In(rows[i], scope) then rows[i].(active := false) else rows[i])
  }

  predicate Names<C>(r: Row<C>, scope: Option<string>, version: nat) {
    In(r, scope) && r.version == version
  }

  function Activated<C>(rows: seq<Row<C>>, scope: Option<string>, version: nat, clears: bool): (r: seq<Row<C>>)
    ensures |r| == |rows|
  {
    seq(|rows|, i requires 0 <= i < |rows| =>
      if Names(rows[i], scope, version) then rows[i].(active := true, pushed := !clears && rows[i].pushed)
      else rows[i])
  }

  predicate Has<C>(rows: seq<Row<C>>, scope: Option<string>, version: nat) {
    exists i :: 0 <= i < |rows| && Names(rows[i], scope, version)
  }

  // Matches the id itself rather than the folded key.
  function Cleared<C>(rows: seq<Row<C>>, line: string): (r: seq<Row<C>>)
    ensures |r| == |rows|
  {
    seq(|rows|, i requires 0 <= i < |rows| =>
      if rows[i].scope == Some(line) then rows[i].(active := false) else rows[i])
  }

  function Marked<C>(rows: seq<Row<C>>, id: nat): (r: seq<Row<C>>)
    ensures |r| == |rows|
  {
    seq(|rows|, i requires 0 <= i < |rows| =>
      if rows[i].id == id then rows[i].(pushed := true) else rows[i])
  }

  // ---------- The transactions ----------

  function NewRow<C>(t: Table<C>, scope: Option<string>, content: C, pushed: bool): Row<C> {
    Row(t.nextId, scope, Latest(t.rows, |t.rows|, scope) + 1, content, true, pushed)
  }

  // A sequence value drawn by an insert is not given back when the transaction fails.
  function Published<C>(t: Table<C>, scope: Option<string>, content: C, accepted: bool, pushed: bool, fault: Fault)
    : (Table<C>, Option<Row<C>>)
  {
    if scope == Some("") || !accepted then (t, None)
    else match fault
      case NoFault =>
        var row := NewRow(t, scope, content, pushed);
        (Table(Deactivated(t.rows, scope) + [row], t.nextId + 1), Some(row))
      case AtCommit => (t.(nextId := t.nextId + 1), None)
      case _ => (t, None)
  }

  function RolledBack<C>(t: Table<C>, scope: Option<string>, version: nat, clears: bool, fault: Fault)
    : (Table<C>, bool)
  {
    if scope == Some("") || fault != NoFault || !Has(t.rows, scope, version) then (t, false)
    else (t.(rows := Activated(Deactivated(t.rows, scope), scope, version, clears)), true)
  }

  predicate Overridden<C>(rows: seq<Row<C>>, line: string) {
    exists i :: 0 <= i < |rows| && rows[i].scope == Some(line) && rows[i].active
  }

  function OverrideCleared<C>(t: Table<C>, line: string, fault: Fault): (Table<C>, bool) {
    if line == "" || fault != NoFault then (t, false)
    else (t.(rows := Cleared(t.rows, line)), Overridden(t.rows, line))
  }

  predicate Holds<C>(rows: seq<Row<C>>, id: nat) {
    exists i :: 0 <= i < |rows| && rows[i].id == id
  }

  function PushMarked<C>(t: Table<C>, id: nat, fault: Fault): (Table<C>, bool) {
    if fault != NoFault || !Holds(t.rows, id) then (t, false)
    else (t.(rows := Marked(t.rows, id)), true)
  }

  // ---------- The repositories ----------

  class VersionTable<C> {
    const kind: Kind
    var rows: seq<Row<C>>
    var nextId: nat

    constructor (kind: Kind)
      ensures this.kind == kind && State() == Table([], 0)
    {
      this.kind := kind;
      rows, nextId := [], 0;
    }

    ghost function State(): Table<C>
      reads this
    {
      Table(rows, nextId)
    }

    // `accepted` is what the table's own checks say of the content: body and
    // source, or provider, name, mode and source, are not empty, or the ontology
    // validates.
    method Publish(scope: Option<string>, content: C, accepted: bool, pushed: bool, fault: Fault)
      returns (r: Option<Row<C>>)
      requires kind.Models? || scope.Some?
      modifies this
      ensures (State(), r) == Published(old(State()), scope, content, accepted, pushed, fault)
      ensures r.None? ==> rows == old(rows)
    {
      r := None;
      if scope == Some("") || !accepted || fault.AtBegin? || fault.AtRead? {
        return;
      }
      var tx := rows;
      var version := Latest(tx, |tx|, scope) + 1;
      if fault.AtDeactivate? {
        return;
      }
      tx := Deactivated(tx, scope);
      if fault.AtWrite? {
        return;
      }
      var row := Row(nextId, scope, version, content, true, pushed);
      nextId := nextId + 1;
      tx := tx + [row];
      if fault.AtCommit? {
        return;
      }
      rows := tx;
      r := Some(row);
    }

    // The prompt table clears pushed_at on the way, the ontology table has none.
    method Rollback(scope: Option<string>, version: nat, fault: Fault) returns (done: bool)
      requires scope.Some? && !kind.Models?
      modifies this
      ensures (State(), done) == RolledBack(old(State()), scope, version, kind.Prompts?, fault)
      ensures !done ==> rows == old(rows)
    {
      done := false;
      if scope == Some("") || fault.AtBegin? || fault.AtRead? || fault.AtDeactivate? {
        return;
      }
      var tx := Deactivated(rows, scope);
      if fault.AtWrite? {
        return;
      }
      var found := false;
      for i := 0 to |tx|
        invariant found <==> exists k :: 0 <= k < i && Names(tx[k], scope, version)
      {
        if Names(tx[i], scope, version) {
          found := true;
        }
      }
      DeactivatedHas(rows, scope, version);
      if !found {
        return;
      }
      tx := Activated(tx, scope, version, kind.Prompts?);
      if fault.AtCommit? {
        return;
      }
      rows := tx;
      done := true;
    }

    method ClearOverride(line: string, fault: Fault) returns (retired: bool)
      requires kind.Models?
      modifies this
      ensures (State(), retired) == OverrideCleared(old(State()), line, fault)
    {
      retired := false;
      if line == "" || fault != NoFault {
        return;
      }
      for i := 0 to |rows|
        invariant rows == old(rows) && nextId == old(nextId)
        invariant retired <==> exists k :: 0 <= k < i && rows[k].scope == Some(line) && rows[k].active
      {
        if rows[i].scope == Some(line) && rows[i].active {
          retired := true;
        }
      }
      rows := Cleared(rows, line);
    }

    method MarkPushed(id: nat, fault: Fault) returns (done: bool)
      requires !kind.Ontologies?
      modifies this
      ensures (State(), done) == PushMarked(old(State()), id, fault)
    {
      done := false;
      if fault != NoFault {
        return;
      }
      for i := 0 to |rows|
        invariant rows == old(rows) && nextId == old(nextId)
        invariant done <==> exists k :: 0 <= k < i && rows[k].id == id
      {
        if rows[i].id == id {
          done := true;
        }
      }
      if done {
        rows := Marked(rows, id);
      }
    }

    // The row a scope is on, found by its active flag.
    method Active(scope: Option<string>) returns (r: Option<Row<C>>)
      requires OneActive(rows)
      ensures r == ActiveRow(rows, scope)
    {
      r := None;
      for i := 0 to |rows|
        invariant r == ActiveUpTo(rows, i, scope)
      {
        if In(rows[i], scope) && rows[i].active {
          r := Some(rows[i]);
        }
      }
    }

    // One stored row by its version.
    method Get(scope: Option<string>, version: nat) returns (r: Option<Row<C>>)
      ensures r.Some? <==> Has(rows, scope, version)
      ensures r.Some? ==> r.value in rows && Names(r.value, scope, version)
    {
      r := None;
      for i := 0 to |rows|
        invariant r.Some? <==> exists k :: 0 <= k < i && Names(rows[k], scope, version)
        invariant r.Some? ==> r.value in rows && Names(r.value, scope, version)
      {
        if Names(rows[i], scope, version) {
          r := Some(rows[i]);
        }
      }
    }

    // Every line with an override of its own, and no entry for the platform row.
    method ActiveOverrides() returns (m: map<string, Row<C>>)
      requires OneActive(rows)
      ensures forall line :: line in m <==> Overridden(rows, line)
      ensures forall line :: line in m ==> ActiveRow(rows, Some(line)) == Some(m[line])
    {
      m := map[];
      for i := 0 to |rows|
        invariant forall line :: line in m <==>
          exists k :: 0 <= k < i && rows[k].scope == Some(line) && rows[k].active
        invariant forall line :: line in m ==>
          m[line] in rows[..i] && m[line].scope == Some(line) && m[line].active
      {
        if rows[i].active && rows[i].scope.Some? {
          m := m[rows[i].scope.value := rows[i]];
        }
        assert rows[..i + 1] == rows[..i] + [rows[i]];
      }
      forall line | line in m
        ensures ActiveRow(rows, Some(line)) == Some(m[line])
      {
        var k :| 0 <= k < |rows| && rows[k] == m[line];
        ActiveIsTheOne(rows, |rows|, k, Some(line));
      }
    }
  }

  // ---------- The active row ----------

  function ActiveUpTo<C>(rows: seq<Row<C>>, n: nat, scope: Option<string>): Option<Row<C>>
    requires n <= |rows|
  {
    if n == 0 then None
    else if In(rows[n - 1], scope) && rows[n - 1].active then Some(rows[n - 1])
    else ActiveUpTo(rows, n - 1, scope)
  }

  function ActiveRow<C>(rows: seq<Row<C>>, scope: Option<string>): Option<Row<C>> {
    ActiveUpTo(rows, |rows|, scope)
  }

  // At most one active row in a scope.
  ghost predicate OneActive<C>(rows: seq<Row<C>>) {
    forall i, j :: 0 <= i < j < |rows| && In(rows[i], rows[j].scope) ==> !rows[i].active || !rows[j].active
  }

  // Hence any active row of a scope is the one a read by scope returns.
  lemma {:induction false} ActiveIsTheOne<C>(rows: seq<Row<C>>, n: nat, k: nat, scope: Option<string>)
    requires OneActive(rows) && k < n <= |rows| && In(rows[k], scope) && rows[k].active
    ensures ActiveUpTo(rows, n, scope) == Some(rows[k])
  {
    if k < n - 1 {
      assert In(rows[k], rows[n - 1].scope) <==> In(rows[n - 1], scope);
      ActiveIsTheOne(rows, n - 1, k, scope);
    }
  }

  lemma {:induction false} ActiveComesFromARow<C>(rows: seq<Row<C>>, n: nat, scope: Option<string>) returns (k: nat)
    requires n <= |rows| && ActiveUpTo(rows, n, scope).Some?
    ensures k < n && In(rows[k], scope) && rows[k].active && ActiveUpTo(rows, n, scope) == Some(rows[k])
  {
    if In(rows[n - 1], scope) && rows[n - 1].active {
      k := n - 1;
    } else {
      k := ActiveComesFromARow(rows, n - 1, scope);
    }
  }

  lemma {:induction false} NoActiveRow<C>(rows: seq<Row<C>>, n: nat, scope: Option<string>)
    requires n <= |rows|
    ensures ActiveUpTo(rows, n, scope).None? <==>
            forall k :: 0 <= k < n && In(rows[k], scope) ==> !rows[k].active
  {
    hide In;
    if n > 0 {
      NoActiveRow(rows, n - 1, scope);
    }
  }

  lemma DeactivatedHas<C>(rows: seq<Row<C>>, scope: Option<string>, version: nat)
    ensures Has(Deactivated(rows, scope), scope, version) <==> Has(rows, scope, version)
  {
    forall i | 0 <= i < |rows|
      ensures Names(Deactivated(rows, scope)[i], scope, version) <==> Names(rows[i], scope, version)
    {
    }
    if Has(rows, scope, version) {
      var i :| 0 <= i < |rows| && Names(rows[i], scope, version);
      assert Names(Deactivated(rows, scope)[i], scope, version);
    }
  }
}
