/** From a definition to the rows of a run (app/scheduler.py, `create_run` and `load_tasks`). */
module Runs {
  import opened Graphs
  import opened Tables
  import opened Protocol
  import opened Confluence
  import opened Dag

  /** The database's collation, which decides the order in which the rows are loaded. */
  type Collation = (Name, Name) -> bool

  function InsertName(n: Name, names: seq<Name>, before: Collation): (r: seq<Name>)
    ensures forall m :: m in r <==> m == n || m in names
    ensures n !in names && Distinct(names) ==> Distinct(r)
  {
    if names == [] then [n]
    else if before(n, names[0]) then [n] + names
    else
      assert names == [names[0]] + names[1..];
      assert Distinct(names) ==> Distinct(names[1..]) && names[0] !in names[1..];
      [names[0]] + InsertName(n, names[1..], before)
  }

  /** `order_by(Task.task_name)` */
  function LoadOrder(specs: seq<TaskSpec>, before: Collation): (r: seq<Name>)
    ensures forall n :: n in r <==> HasId(specs, n)
    ensures UniqueIds(specs) ==> Distinct(r)
  {
    if specs == [] then []
    else
      var last := |specs| - 1;
      assert forall n :: HasId(specs, n) <==> n == specs[last].id || HasId(specs[..last], n);
      InsertName(specs[last].id, LoadOrder(specs[..last], before), before)
  }

  /** The collation is a strict total order. */
  ghost predicate Total(before: Collation) {
    && (forall m, n :: !(before(m, n) && before(n, m)))
    && (forall m, n :: m == n || before(m, n) || before(n, m))
    && (forall l, m, n :: before(l, m) && before(m, n) ==> before(l, n))
  }

  ghost predicate Collated(names: seq<Name>, before: Collation) {
    forall i, j | 0 <= i < j < |names| :: before(names[i], names[j])
  }

  lemma {:induction false} InsertCollated(n: Name, names: seq<Name>, before: Collation)
    requires Total(before) && Collated(names, before) && n !in names
    ensures Collated(InsertName(n, names, before), before)
  {
    if names != [] {
      var rest := names[1..];
      assert names == [names[0]] + rest;
      forall m | m in rest ensures before(names[0], m) {
        var j :| 0 <= j < |rest| && rest[j] == m;
        assert names[j + 1] == m;
      }
      if before(n, names[0]) {
        forall m | m in names ensures before(n, m) {
        }
        CollatedAhead(n, names, before);
      } else {
        InsertCollated(n, rest, before);
        CollatedAhead(names[0], InsertName(n, rest, before), before);
      }
    }
  }

  lemma CollatedAhead(n: Name, names: seq<Name>, before: Collation)
    requires Collated(names, before) && forall m | m in names :: before(n, m)
    ensures Collated([n] + names, before)
  {
  }

  /** The rows are loaded in the order of their names. */
  lemma {:induction false} LoadOrderIsCollated(specs: seq<TaskSpec>, before: Collation)
    requires Total(before) && UniqueIds(specs)
    ensures Collated(LoadOrder(specs, before), before)
  {
    if specs != [] {
      var last := |specs| - 1;
      LoadOrderIsCollated(specs[..last], before);
      assert !HasId(specs[..last], specs[last].id);
      InsertCollated(specs[last].id, LoadOrder(specs[..last], before), before);
    }
  }

  function InitialRow(spec: TaskSpec, defaultRetries: nat): Row {
    var limit := match spec.maxRetries case Limit(n) => n case DefaultRetries => defaultRetries;
    Row(spec.dependsOn, Pending, 0, limit, None, None)
  }

  /** A pending row with the task's dependencies and its retry limit: the one it declares, or else
      the default. */
  predicate RowFor(spec: TaskSpec, defaultRetries: nat, row: Row) {
    && row.deps == spec.dependsOn && row.status == Pending && row.retryCount == 0
    && row.workerId == None && row.dispatchedAt == None
    && (spec.maxRetries.Limit? ==> row.maxRetries == spec.maxRetries.retries)
    && (spec.maxRetries.DefaultRetries? ==> row.maxRetries == defaultRetries)
  }

  /** One pending row per task of the definition. */
  ghost predicate OneRowEach(specs: seq<TaskSpec>, rows: Rows, defaultRetries: nat) {
    && (forall n :: n in rows <==> HasId(specs, n))
    && forall i {:trigger specs[i]} | 0 <= i < |specs| :: RowFor(specs[i], defaultRetries, rows[specs[i].id])
  }

  lemma CreatedRow(specs: seq<TaskSpec>, rows: Rows, defaultRetries: nat, n: Name)
    requires UniqueIds(specs) && KnownDependencies(specs) && OneRowEach(specs, rows, defaultRetries) && n in rows
    ensures rows[n] == Row(rows[n].deps, Pending, 0, rows[n].maxRetries, None, None)
    ensures n in GraphOf(specs) && rows[n].deps == GraphOf(specs)[n]
    ensures forall d | d in rows[n].deps :: d in rows
  {
    var i :| 0 <= i < |specs| && specs[i].id == n;
    assert RowFor(specs[i], defaultRetries, rows[n]);
  }

  lemma GraphNames(specs: seq<TaskSpec>, n: Name)
    requires UniqueIds(specs) && n in GraphOf(specs)
    ensures HasId(specs, n)
  {
    assert specs[OrderIndex(specs)[n]].id == n;
  }

  lemma RunNames(specs: seq<TaskSpec>, rows: Rows, defaultRetries: nat)
    requires UniqueIds(specs) && KnownDependencies(specs) && OneRowEach(specs, rows, defaultRetries)
    ensures rows.Keys == GraphOf(specs).Keys
  {
    forall n ensures n in GraphOf(specs) <==> n in rows {
      if n in GraphOf(specs) {
        GraphNames(specs, n);
      } else if n in rows {
        CreatedRow(specs, rows, defaultRetries, n);
      }
    }
  }

  /** A run created from a valid definition is one that every theorem about runs applies to. */
  lemma CreatedFrom(specs: seq<TaskSpec>, db: Db, defaultRetries: nat)
    requires UniqueIds(specs) && KnownDependencies(specs) && Distinct(db.names)
    requires (forall n :: n in db.names <==> n in db.rows) && db.run == RunRunning && OneRowEach(specs, db.rows, defaultRetries)
    ensures Created(db) && DepsOf(db.rows) == GraphOf(specs)
  {
    hide RowFor, UniqueIds, KnownDependencies, Distinct, HasId, GraphOf, OneRowEach;
    var rows := db.rows;
    RunNames(specs, rows, defaultRetries);
    forall n | n in rows
      ensures rows[n] == Row(rows[n].deps, Pending, 0, rows[n].maxRetries, None, None)
      ensures rows[n].deps == GraphOf(specs)[n] && forall d | d in rows[n].deps :: d in rows
    {
      CreatedRow(specs, rows, defaultRetries, n);
    }
  }

  /** The loop that adds one row per task. */
  method AddRows(specs: seq<TaskSpec>, defaultRetries: nat) returns (rows: Rows)
    requires UniqueIds(specs)
    ensures OneRowEach(specs, rows, defaultRetries)
  {
    rows := map[];
    for i := 0 to |specs|
      invariant forall n :: n in rows <==> exists x | 0 <= x < i :: specs[x].id == n
      invariant forall x {:trigger specs[x]} | 0 <= x < i :: RowFor(specs[x], defaultRetries, rows[specs[x].id])
    {
      rows := rows[specs[i].id := InitialRow(specs[i], defaultRetries)];
    }
  }

  /** `create_run`: nothing is created from a definition that is rejected. */
  method CreateRun(specs: seq<TaskSpec>, defaultRetries: nat, before: Collation)
    returns (v: Verdict, run: Option<Db>, ghost order: seq<Name>)
    requires Parsed(specs)
    ensures Justified(specs, v) && (v.Valid? <==> ValidDag(specs))
    ensures run.Some? <==> v.Valid?
    ensures run.Some? ==> Created(run.value) && OneRowEach(specs, run.value.rows, defaultRetries)
    ensures run.Some? ==> Distinct(run.value.names) && (Total(before) ==> Collated(run.value.names, before))
    ensures run.Some? ==> DepsOf(run.value.rows) == GraphOf(specs) && Topological(GraphOf(specs), order)
  {
    v, order := ValidateDefinition(specs);
    if !v.Valid? {
      return v, None, order;
    }
    hide Acyclic, Topological, GraphOf;
    var rows := AddRows(specs, defaultRetries);
    var db := Db(LoadOrder(specs, before), rows, RunRunning);
    CreatedFrom(specs, db, defaultRetries);
    if Total(before) {
      LoadOrderIsCollated(specs, before);
    }
    run := Some(db);
  }

  // ----- how a run ends, told from its definition --------------------------------------------

  /** Whether the definition allows the attempt. */
  predicate Allows(spec: TaskSpec, defaultRetries: nat, attempt: nat) {
    match spec.maxRetries
    case Limit(n) => attempt <= n
    case DefaultRetries => attempt <= defaultRetries
  }

  ghost predicate TaskSucceeds(specs: seq<TaskSpec>, defaultRetries: nat, f: Oracle, i: nat)
    requires i < |specs|
  {
    exists a: nat :: Allows(specs[i], defaultRetries, a) && f(specs[i].id, a)
  }

  ghost predicate NamedSucceeds(specs: seq<TaskSpec>, defaultRetries: nat, f: Oracle, n: Name) {
    exists i {:trigger specs[i]} :: 0 <= i < |specs| && specs[i].id == n && TaskSucceeds(specs, defaultRetries, f, i)
  }

  /** Everything the task depends on, however indirectly, has an attempt that succeeds. */
  ghost predicate DependenciesSucceed(specs: seq<TaskSpec>, defaultRetries: nat, f: Oracle, n: Name)
    requires UniqueIds(specs)
  {
    forall p {:trigger Chain(GraphOf(specs), p)} | Chain(GraphOf(specs), p) && p[0] == n && |p| > 1 ::
      NamedSucceeds(specs, defaultRetries, f, p[|p| - 1])
  }

  ghost predicate TaskEnds(specs: seq<TaskSpec>, defaultRetries: nat, f: Oracle, i: nat, row: Row)
    requires UniqueIds(specs) && i < |specs|
  {
    var free, succeeds := DependenciesSucceed(specs, defaultRetries, f, specs[i].id), TaskSucceeds(specs, defaultRetries, f, i);
    && (row.status == Success <==> free && succeeds)
    && (row.status == Failed <==> free && !succeeds)
    && (row.status == Pending <==> !free)
    && (row.status == Success ==>
          && Allows(specs[i], defaultRetries, row.retryCount) && f(specs[i].id, row.retryCount)
          && forall a: nat | a < row.retryCount :: !f(specs[i].id, a))
    && (row.status == Failed && specs[i].maxRetries.Limit? ==> row.retryCount == specs[i].maxRetries.retries)
    && (row.status == Failed && specs[i].maxRetries.DefaultRetries? ==> row.retryCount == defaultRetries)
    && (row.status == Pending ==> row.retryCount == 0)
  }

  /** Every task of the definition has ended as the definition and the outcomes of its attempts say,
      and so has the run. */
  ghost predicate EndsByDefinition(specs: seq<TaskSpec>, defaultRetries: nat, f: Oracle, end: Db)
    requires UniqueIds(specs)
  {
    && (forall n :: n in end.rows <==> HasId(specs, n))
    && (forall i {:trigger specs[i]} | 0 <= i < |specs| :: TaskEnds(specs, defaultRetries, f, i, end.rows[specs[i].id]))
    && (end.run == RunCompleted <==> forall i {:trigger specs[i]} | 0 <= i < |specs| :: TaskSucceeds(specs, defaultRetries, f, i))
    && (end.run == RunFailed <==> exists i {:trigger specs[i]} :: 0 <= i < |specs| && !TaskSucceeds(specs, defaultRetries, f, i))
  }

  lemma SameSuccess(specs: seq<TaskSpec>, rows: Rows, defaultRetries: nat, f: Oracle, i: nat)
    requires OneRowEach(specs, rows, defaultRetries) && i < |specs|
    ensures specs[i].id in rows
    ensures forall a: nat :: Allows(specs[i], defaultRetries, a) <==> a <= rows[specs[i].id].maxRetries
    ensures TaskSucceeds(specs, defaultRetries, f, i) <==> CanSucceed(rows, specs[i].id, f)
  {
    assert HasId(specs, specs[i].id);
    assert RowFor(specs[i], defaultRetries, rows[specs[i].id]);
    assert forall a: nat :: Allows(specs[i], defaultRetries, a) <==> a <= rows[specs[i].id].maxRetries;
    if a: nat :| Allows(specs[i], defaultRetries, a) && f(specs[i].id, a) {
      assert a <= rows[specs[i].id].maxRetries && f(specs[i].id, a);
    }
  }

  lemma SameNamed(specs: seq<TaskSpec>, rows: Rows, defaultRetries: nat, f: Oracle, n: Name)
    requires OneRowEach(specs, rows, defaultRetries)
    ensures NamedSucceeds(specs, defaultRetries, f, n) <==> CanSucceed(rows, n, f)
  {
    hide RowFor, TaskSucceeds;
    forall i | 0 <= i < |specs| && specs[i].id == n ensures TaskSucceeds(specs, defaultRetries, f, i) <==> CanSucceed(rows, n, f) {
      SameSuccess(specs, rows, defaultRetries, f, i);
    }
    if n in rows {
      assert HasId(specs, n);
      var i :| 0 <= i < |specs| && specs[i].id == n;
    }
  }

  lemma SameDependencies(specs: seq<TaskSpec>, rows: Rows, defaultRetries: nat, f: Oracle, n: Name)
    requires UniqueIds(specs) && OneRowEach(specs, rows, defaultRetries) && DepsOf(rows) == GraphOf(specs)
    ensures DependenciesSucceed(specs, defaultRetries, f, n) <==> AncestorsSucceed(rows, n, f)
  {
    hide UniqueIds, GraphOf, OneRowEach, NamedSucceeds, CanSucceed, DepsOf;
    forall p | Chain(DepsOf(rows), p) && p[0] == n && |p| > 1
      ensures NamedSucceeds(specs, defaultRetries, f, p[|p| - 1]) <==> CanSucceed(rows, p[|p| - 1], f)
    {
      SameNamed(specs, rows, defaultRetries, f, p[|p| - 1]);
    }
  }

  lemma TaskEndsRightly(specs: seq<TaskSpec>, rows: Rows, defaultRetries: nat, f: Oracle, i: nat, row: Row)
    requires UniqueIds(specs) && OneRowEach(specs, rows, defaultRetries) && DepsOf(rows) == GraphOf(specs) && i < |specs|
    requires RightEnd(rows, specs[i].id, f, End(row.status, row.retryCount))
    ensures TaskEnds(specs, defaultRetries, f, i, row)
  {
    hide UniqueIds, GraphOf, DependenciesSucceed, AncestorsSucceed, TaskSucceeds;
    SameSuccess(specs, rows, defaultRetries, f, i);
    SameDependencies(specs, rows, defaultRetries, f, specs[i].id);
    assert RowFor(specs[i], defaultRetries, rows[specs[i].id]);
    if row.status == Success {
      FirstSuccess(rows, specs[i].id, f, row.retryCount);
    }
  }

  lemma FirstSuccess(rows: Rows, n: Name, f: Oracle, r: nat)
    requires CanSucceed(rows, n, f) && forall a: nat | a < r :: !f(n, a)
    ensures n in rows && r <= rows[n].maxRetries
  {
    var a: nat :| a <= rows[n].maxRetries && f(n, a);
  }

  lemma EndsAsDefined(specs: seq<TaskSpec>, rows: Rows, defaultRetries: nat, f: Oracle, end: Db)
    requires UniqueIds(specs) && OneRowEach(specs, rows, defaultRetries) && DepsOf(rows) == GraphOf(specs)
    requires RightlyEnded(end, rows, f)
    ensures EndsByDefinition(specs, defaultRetries, f, end)
  {
    hide UniqueIds, GraphOf, DepsOf, RightEnd, TaskEnds, TaskSucceeds, RowFor, CanSucceed;
    forall i | 0 <= i < |specs|
      ensures specs[i].id in end.rows && TaskEnds(specs, defaultRetries, f, i, end.rows[specs[i].id])
      ensures TaskSucceeds(specs, defaultRetries, f, i) <==> CanSucceed(rows, specs[i].id, f)
    {
      SameSuccess(specs, rows, defaultRetries, f, i);
      var row := end.rows[specs[i].id];
      assert RightEnd(rows, specs[i].id, f, End(row.status, row.retryCount));
      TaskEndsRightly(specs, rows, defaultRetries, f, i, row);
    }
    forall n | n in rows ensures exists i {:trigger specs[i]} :: 0 <= i < |specs| && specs[i].id == n {
      assert HasId(specs, n);
      var i :| 0 <= i < |specs| && specs[i].id == n;
      assert specs[i].id == n;
    }
  }
}
