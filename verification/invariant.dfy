/** What holds in every committed state of a run. */
module Invariant {
  import opened Graphs
  import opened Tables

  ghost predicate RowInv(rows: Rows, run: RunStatus, n: Name)
    requires n in rows
  {
    var row := rows[n];
    && row.retryCount <= row.maxRetries
    && (row.status == Pending ==> row.retryCount == 0 && row.dispatchedAt == None)
    && (row.status in {Pending, Queued} ==> row.workerId == None)
    && (row.status == Running ==> row.workerId.Some?)
    && (row.status in {Queued, Running, Success, Failed} ==> row.dispatchedAt.Some? && DepsMet(rows, row.deps))
    && (row.status == Failed && run != RunCancelled ==> row.retryCount == row.maxRetries)
    && (row.status == Cancelled ==> run == RunCancelled)
  }

  ghost predicate RowsInv(rows: Rows, run: RunStatus) {
    forall n {:trigger RowInv(rows, run, n)} | n in rows :: RowInv(rows, run, n)
  }

  ghost predicate RunInv(rows: Rows, run: RunStatus) {
    match run
    case RunRunning => Quiet(rows) && AnyInFlight(rows)
    case RunCompleted => AllSuccess(rows)
    case RunFailed => AnyFailed(rows) && !AnyInFlight(rows) && Quiet(rows)
    case RunCancelled => forall n | n in rows :: rows[n].status !in {Pending, Queued}
  }

  ghost predicate DbInv(db: Db) {
    WellFormed(db) && RowsInv(db.rows, db.run) && RunInv(db.rows, db.run)
  }

  /** The definition behind the rows does not change. */
  ghost predicate SameTasks(rows: Rows, rows': Rows) {
    && rows.Keys == rows'.Keys
    && forall n | n in rows :: rows'[n].deps == rows[n].deps && rows'[n].maxRetries == rows[n].maxRetries
  }

  /** Success is never taken back, so a dependency once met stays met. */
  ghost predicate KeepsSuccess(rows: Rows, rows': Rows) {
    SameTasks(rows, rows') && forall n | n in rows && rows[n].status == Success :: rows'[n].status == Success
  }

  lemma DepsStayMet(rows: Rows, rows': Rows, deps: seq<Name>)
    requires KeepsSuccess(rows, rows') && DepsMet(rows, deps)
    ensures DepsMet(rows', deps)
  {
  }

  lemma SameGraph(rows: Rows, rows': Rows)
    requires SameTasks(rows, rows')
    ensures DepsOf(rows) == DepsOf(rows')
  {
  }

  // ----- finalisation ------------------------------------------------------------------------

  /** With nothing failed, in flight or runnable, an acyclic run has succeeded entirely: the first
      unfinished task in topological order would be runnable. */
  lemma {:induction false} NothingLeft(rows: Rows, order: seq<Name>, i: nat)
    requires Topological(DepsOf(rows), order) && i <= |order|
    requires Quiet(rows) && forall n | n in rows :: rows[n].status in {Pending, Success}
    ensures forall x | 0 <= x < i :: order[x] in rows && rows[order[x]].status == Success
  {
    if i > 0 {
      NothingLeft(rows, order, i - 1);
      var n := order[i - 1];
      forall d | d in rows[n].deps ensures d in rows && rows[d].status == Success {
        assert d in DepsOf(rows)[order[i - 1]];
        assert Within(order, i - 1, d);
      }
      assert !CanRun(rows, n);
    }
  }

  lemma NothingLeftAtAll(rows: Rows, order: seq<Name>)
    requires Topological(DepsOf(rows), order)
    requires Quiet(rows) && forall n | n in rows :: rows[n].status in {Pending, Success}
    ensures AllSuccess(rows)
  {
    NothingLeft(rows, order, |order|);
    forall n | n in rows ensures rows[n].status == Success {
      assert n in DepsOf(rows);
      assert n in order;
    }
  }

  lemma FinalizedRow(rows: Rows, run: RunStatus, n: Name)
    requires RowsInv(rows, RunRunning) && n in rows && run != RunCancelled
    ensures RowInv(rows, run, n) && rows[n].status != Cancelled
  {
    assert RowInv(rows, RunRunning, n);
  }

  /** With nothing runnable, a run is finished exactly when nothing is in flight. */
  lemma FinalizedRun(db: Db)
    requires WellFormed(db) && Quiet(db.rows)
    ensures Apply(db, FinalizePatch(db)) ==
            if AnyInFlight(db.rows) then db else db.(run := if AnyFailed(db.rows) then RunFailed else RunCompleted)
  {
    RunnableIsQuiet(db);
  }

  lemma FinalizeEstablishes(db: Db, order: seq<Name>)
    requires WellFormed(db) && Topological(DepsOf(db.rows), order)
    requires db.run == RunRunning && RowsInv(db.rows, RunRunning) && Quiet(db.rows)
    ensures DbInv(Apply(db, FinalizePatch(db)))
  {
    hide Topological, RowInv, Quiet, FinalizePatch, AnyInFlight, AnyFailed;
    FinalizedRun(db);
    var after := Apply(db, FinalizePatch(db));
    SameWellFormed(db, after);
    hide WellFormed;
    forall n | n in db.rows ensures RowInv(db.rows, after.run, n) && db.rows[n].status != Cancelled {
      FinalizedRow(db.rows, after.run, n);
    }
    if !AnyInFlight(db.rows) && !AnyFailed(db.rows) {
      AllPendingOrSuccess(db.rows);
      NothingLeftAtAll(db.rows, order);
    }
  }

  lemma AllPendingOrSuccess(rows: Rows)
    requires !AnyInFlight(rows) && !AnyFailed(rows) && forall n | n in rows :: rows[n].status != Cancelled
    ensures forall n | n in rows :: rows[n].status in {Pending, Success}
  {
  }

  // ----- dispatch ----------------------------------------------------------------------------

  lemma DispatchKeepsRows(rows: Rows, names: seq<Name>, now: real, rows': Rows)
    requires forall n | n in names :: n in rows
    requires forall n :: n in names <==> CanRun(rows, n)
    requires rows' == rows + DispatchPatch(rows, names, now).rows
    ensures KeepsSuccess(rows, rows')
    ensures forall n | n in rows :: rows'[n] == if n in names then rows[n].(status := Queued, dispatchedAt := Some(now)) else rows[n]
  {
    hide CanRun;
    forall n | n in names ensures rows[n].status == Pending {
      assert CanRun(rows, n);
      CanRunIsPending(rows, n);
    }
  }

  lemma CanRunIsPending(rows: Rows, n: Name)
    requires CanRun(rows, n)
    ensures n in rows && rows[n].status == Pending && DepsMet(rows, rows[n].deps)
  {
  }

  lemma DispatchLeavesQuiet(rows: Rows, names: seq<Name>, now: real, rows': Rows)
    requires forall n :: n in names <==> CanRun(rows, n)
    requires KeepsSuccess(rows, rows')
    requires forall n | n in rows :: rows'[n] == if n in names then rows[n].(status := Queued, dispatchedAt := Some(now)) else rows[n]
    ensures Quiet(rows')
  {
    forall n | n in rows' ensures !CanRun(rows', n) {
      if n !in names && rows[n].status == Pending {
        assert !CanRun(rows, n);
        var d :| d in rows[n].deps && !(d in rows && rows[d].status == Success);
        assert rows'[n].deps == rows[n].deps;
      }
    }
  }

  lemma DispatchRows(rows: Rows, names: seq<Name>, now: real, rows': Rows)
    requires forall n | n in names :: n in rows
    requires forall n :: n in names <==> CanRun(rows, n)
    requires rows' == rows + DispatchPatch(rows, names, now).rows
    requires RowsInv(rows, RunRunning)
    ensures KeepsSuccess(rows, rows') && RowsInv(rows', RunRunning)
    ensures Quiet(rows') && forall n | n in names :: n in rows' && rows'[n].status == Queued
  {
    hide CanRun, Quiet, DispatchPatch, DepsMet;
    DispatchKeepsRows(rows, names, now, rows');
    DispatchLeavesQuiet(rows, names, now, rows');
    forall n | n in rows' ensures RowInv(rows', RunRunning, n) {
      assert RowInv(rows, RunRunning, n);
      if n in names {
        CanRunIsPending(rows, n);
      }
      if rows[n].status != Pending || n in names {
        if DepsMet(rows, rows[n].deps) {
          DepsStayMet(rows, rows', rows[n].deps);
        }
      }
    }
  }

  lemma DispatchEstablishes(db: Db, now: real)
    requires WellFormed(db)
    requires db.run == RunRunning && RowsInv(db.rows, RunRunning) && Runnable(db) != []
    ensures var after := Apply(db, DispatchPatch(db.rows, Runnable(db), now)); DbInv(after) && KeepsSuccess(db.rows, after.rows)
  {
    var names := Runnable(db);
    RunnableIsQuiet(db);
    var after := Apply(db, DispatchPatch(db.rows, names, now));
    DispatchRows(db.rows, names, now, after.rows);
    SameWellFormed(db, after);
    assert names[0] in names;
  }

  /** However the transaction got here, the tick leaves a running run with nothing runnable and
      something in flight, or closes it. */
  lemma ResolveEstablishes(db: Db, order: seq<Name>, now: real)
    requires WellFormed(db) && Topological(DepsOf(db.rows), order)
    requires db.run == RunRunning && RowsInv(db.rows, RunRunning)
    ensures DbInv(Apply(db, ResolvePatch(db, now)))
    ensures KeepsSuccess(db.rows, Apply(db, ResolvePatch(db, now)).rows)
  {
    RunnableIsQuiet(db);
    if Runnable(db) != [] {
      DispatchEstablishes(db, now);
    } else {
      FinalizeEstablishes(db, order);
    }
  }

  // ----- every transaction -------------------------------------------------------------------

  lemma SameWellFormed(db: Db, db': Db)
    requires WellFormed(db) && db'.names == db.names && SameTasks(db.rows, db'.rows)
    ensures WellFormed(db')
  {
  }

  /** One row changes and every other stays; the changed row still satisfies its own invariant. */
  lemma OneRowChanges(rows: Rows, run: RunStatus, n: Name, row: Row)
    requires RowsInv(rows, run) && n in rows
    requires row.deps == rows[n].deps && row.maxRetries == rows[n].maxRetries
    requires rows[n].status == Success ==> row.status == Success
    requires RowInv(rows[n := row], run, n)
    ensures RowsInv(rows[n := row], run) && KeepsSuccess(rows, rows[n := row])
  {
    var rows' := rows[n := row];
    assert KeepsSuccess(rows, rows');
    forall m | m in rows' ensures RowInv(rows', run, m) {
      assert RowInv(rows, run, m);
      if m != n && rows[m].status in {Queued, Running, Success, Failed} {
        DepsStayMet(rows, rows', rows[m].deps);
      }
    }
  }

  lemma DepsMetWithout(rows: Rows, n: Name, row: Row, deps: seq<Name>)
    requires n in rows && DepsMet(rows, deps) && rows[n].status != Success
    ensures DepsMet(rows[n := row], deps)
  {
  }

  /** Marking or requeueing an in-flight row keeps the row invariants. */
  lemma MarkKeepsRows(db: Db, n: Name, ok: bool)
    requires DbInv(db) && n in db.rows && InFlight(db.rows[n])
    requires !ok ==> !Retries(db, n)
    ensures RowsInv(Apply(db, MarkPatch(db.rows, n, ok)).rows, db.run)
    ensures KeepsSuccess(db.rows, Apply(db, MarkPatch(db.rows, n, ok)).rows)
  {
    var row := MarkPatch(db.rows, n, ok).rows[n];
    assert RowInv(db.rows, db.run, n);
    assert Apply(db, MarkPatch(db.rows, n, ok)).rows == db.rows[n := row];
    DepsMetWithout(db.rows, n, row, row.deps);
    OneRowChanges(db.rows, db.run, n, row);
  }

  lemma RequeueKeepsInv(db: Db, n: Name, now: real, delay: real)
    requires DbInv(db) && n in db.rows && InFlight(db.rows[n]) && Retries(db, n)
    ensures DbInv(Apply(db, RequeuePatch(db.rows, n, now, delay)))
    ensures KeepsSuccess(db.rows, Apply(db, RequeuePatch(db.rows, n, now, delay)).rows)
  {
    var row := RequeuePatch(db.rows, n, now, delay).rows[n];
    var after := Apply(db, RequeuePatch(db.rows, n, now, delay));
    assert RowInv(db.rows, db.run, n);
    assert after.rows == db.rows[n := row];
    DepsMetWithout(db.rows, n, row, row.deps);
    OneRowChanges(db.rows, db.run, n, row);
    InFlightSwap(db.rows, n, row, db.run);
  }

  /** A row that goes from one in-flight status to another moves nothing else. */
  lemma InFlightSwap(rows: Rows, n: Name, row: Row, run: RunStatus)
    requires n in rows && InFlight(rows[n]) && InFlight(row) && row.deps == rows[n].deps
    requires run == RunCancelled ==> row.status == Running
    requires RunInv(rows, run)
    ensures RunInv(rows[n := row], run)
  {
    var rows' := rows[n := row];
    if run == RunRunning {
      assert InFlight(rows'[n]);
      forall m | m in rows' ensures !CanRun(rows', m) {
        assert !CanRun(rows, m);
        if m != n && rows[m].status == Pending {
          var d :| d in rows[m].deps && !(d in rows && rows[d].status == Success);
        }
      }
    }
  }

  lemma InFlightMeansOpen(db: Db, n: Name)
    requires DbInv(db) && n in db.rows && InFlight(db.rows[n])
    ensures db.run == RunRunning || (db.run == RunCancelled && db.rows[n].status == Running)
  {
  }

  lemma ClaimKeepsInv(db: Db, n: Name, w: WorkerId)
    requires DbInv(db)
    ensures DbInv(Claimed(db, n, w)) && KeepsSuccess(db.rows, Claimed(db, n, w).rows)
  {
    if n in db.rows && db.rows[n].status == Queued {
      var row := Claimed(db, n, w).rows[n];
      assert RowInv(db.rows, db.run, n);
      DepsMetWithout(db.rows, n, row, row.deps);
      OneRowChanges(db.rows, db.run, n, row);
      InFlightSwap(db.rows, n, row, db.run);
    }
  }

  /** A report that retries the task changes its row only. */
  lemma RetriedReport(db: Db, o: Outcome)
    requires o.task in db.rows && !o.ok && Retries(db, o.task)
    ensures Reported(db, o) == db.(rows := db.rows[o.task := RequeuePatch(db.rows, o.task, o.now, o.delay).rows[o.task]])
  {
  }

  lemma MarkedRow(db: Db, n: Name, ok: bool)
    requires n in db.rows
    ensures Apply(db, MarkPatch(db.rows, n, ok)) == db.(rows := db.rows[n := db.rows[n].(status := if ok then Success else Failed)])
  {
  }

  /** Any other report records the outcome, and then the tick runs on what the transaction sees. */
  lemma SettledReport(db: Db, o: Outcome) returns (marked: Db)
    requires WellFormed(db) && o.task in db.rows && (o.ok || !Retries(db, o.task))
    ensures marked == Apply(db, MarkPatch(db.rows, o.task, o.ok)) && WellFormed(marked)
    ensures marked == db.(rows := db.rows[o.task := db.rows[o.task].(status := if o.ok then Success else Failed)])
    ensures Reported(db, o) == Apply(marked, ResolvePatch(marked, o.now))
  {
    hide ResolvePatch, WellFormed;
    var mark := MarkPatch(db.rows, o.task, o.ok);
    marked := Apply(db, mark);
    MarkedRow(db, o.task, o.ok);
    SameWellFormed(db, marked);
    hide MarkPatch, Retries;
    ApplyThen(db, mark, ResolvePatch(marked, o.now));
  }

  lemma RunOfReport(db: Db, n: Name)
    requires DbInv(db) && n in db.rows && InFlight(db.rows[n])
    ensures WellFormed(db) && (db.run == RunRunning || db.run == RunCancelled)
  {
    InFlightMeansOpen(db, n);
  }

  /** The outcome is recorded first, then the tick runs on what the transaction now sees. */
  lemma SettleKeepsInv(db: Db, order: seq<Name>, n: Name, ok: bool, now: real)
    requires DbInv(db) && Topological(DepsOf(db.rows), order)
    requires n in db.rows && InFlight(db.rows[n])
    requires !ok ==> !Retries(db, n)
    ensures var marked := Apply(db, MarkPatch(db.rows, n, ok));
            var after := Apply(marked, ResolvePatch(marked, now));
            DbInv(after) && KeepsSuccess(db.rows, after.rows)
  {
    InFlightMeansOpen(db, n);
    var marked := Apply(db, MarkPatch(db.rows, n, ok));
    MarkKeepsRows(db, n, ok);
    SameWellFormed(db, marked);
    if db.run == RunRunning {
      SameGraph(db.rows, marked.rows);
      ResolveEstablishes(marked, order, now);
      SuccessKept(db.rows, marked.rows, Apply(marked, ResolvePatch(marked, now)).rows);
    } else {
      assert Apply(marked, NO_CHANGE) == marked;
    }
  }

  lemma ReportKeepsInv(db: Db, order: seq<Name>, o: Outcome)
    requires DbInv(db) && Topological(DepsOf(db.rows), order)
    requires o.task in db.rows && InFlight(db.rows[o.task])
    ensures DbInv(Reported(db, o)) && KeepsSuccess(db.rows, Reported(db, o).rows)
  {
    if !o.ok && Retries(db, o.task) {
      RequeueKeepsInv(db, o.task, o.now, o.delay);
    } else {
      var mark := MarkPatch(db.rows, o.task, o.ok);
      SettleKeepsInv(db, order, o.task, o.ok, o.now);
      ApplyThen(db, mark, ResolvePatch(Apply(db, mark), o.now));
    }
  }

  lemma SuccessKept(a: Rows, b: Rows, c: Rows)
    requires KeepsSuccess(a, b) && KeepsSuccess(b, c)
    ensures KeepsSuccess(a, c)
  {
  }

  lemma CancelRows(rows: Rows, rows': Rows)
    requires RowsInv(rows, RunRunning) && rows' == rows + CancelPatch(rows).rows
    ensures KeepsSuccess(rows, rows') && RowsInv(rows', RunCancelled)
  {
    assert KeepsSuccess(rows, rows');
    forall n | n in rows' ensures RowInv(rows', RunCancelled, n) {
      assert RowInv(rows, RunRunning, n);
      if rows[n].status in {Running, Success, Failed} {
        assert rows'[n] == rows[n];
        DepsStayMet(rows, rows', rows[n].deps);
      }
    }
  }

  lemma CancelKeepsInv(db: Db)
    requires DbInv(db) && db.run == RunRunning
    ensures DbInv(CancelledDb(db)) && KeepsSuccess(db.rows, CancelledDb(db).rows)
  {
    CancelRows(db.rows, CancelledDb(db).rows);
    SameWellFormed(db, CancelledDb(db));
  }
}
