/** Cancelling a run while one of its tasks is being reported. `report_result` reads the status of
    the run before anything is locked (app/scheduler.py), so the two transactions do not always
    come out as if one had preceded the other. */
module CancelRace {
  import opened Graphs
  import opened Tables
  import opened Invariant
  import opened Protocol
  import opened Concurrency

  /** The report has flushed its outcome and not committed; the cancellation commits; then the
      report, if it still needs its scheduler tick, takes the run lock, ticks, and commits. Here the
      tick reads the status of the run again. */
  function Raced(db: Db, o: Outcome): Db
    requires o.task in db.rows
  {
    var flushed := Flushed(db, Tx(Owner(""), [o], [], false));
    var cancelled := CancelledDb(db);
    View(cancelled, if MayTick(flushed) then Ticked(cancelled, flushed) else flushed)
  }

  /** A retry that was decided before the cancellation is not undone by it. */
  lemma RetryWins(db: Db, o: Outcome)
    requires DbInv(db) && db.run == RunRunning && o.task in db.rows && db.rows[o.task].status == Running
    requires !o.ok && Retries(db, o.task)
    ensures Raced(db, o) == Apply(CancelledDb(db), RequeuePatch(db.rows, o.task, o.now, o.delay))
    ensures Raced(db, o).run == RunCancelled && Wins(Raced(db, o), o.task)
  {
    var flushed := Flushed(db, Tx(Owner(""), [o], [], false));
    assert flushed.writes == [RequeuePatch(db.rows, o.task, o.now, o.delay)];
    assert View(CancelledDb(db), flushed) == Apply(ViewAt(CancelledDb(db), flushed.writes, 0), flushed.writes[0]);
  }

  /** Any other outcome meets the cancellation at its tick. */
  lemma TickSeesCancellation(db: Db, o: Outcome)
    requires DbInv(db) && db.run == RunRunning && o.task in db.rows && db.rows[o.task].status == Running
    requires o.ok || !Retries(db, o.task)
    ensures o.task in CancelledDb(db).rows && Raced(db, o) == Reported(CancelledDb(db), o)
  {
    hide DbInv, CancelledDb, MarkPatch, Reported;
    StaleView(db, o);
    CancelledReport(db, o);
    var cancelled, flushed := CancelledDb(db), Flushed(db, Tx(Owner(""), [o], [], false));
    TickIsSilent(cancelled, flushed, o.now);
  }

  lemma TickIsSilent(db: Db, tx: Tx, now: real)
    requires MayTick(tx) && |tx.writes| == 1 && tx.jobs[0].now == now && View(db, tx).run == RunCancelled
    ensures View(db, Ticked(db, tx)) == View(db, tx)
  {
    assert ResolvePatch(View(db, tx), now) == NO_CHANGE;
    var writes := Ticked(db, tx).writes;
    assert writes == [Then(tx.writes[0], NO_CHANGE)];
    assert Then(tx.writes[0], NO_CHANGE) == tx.writes[0];
    assert writes == tx.writes;
  }

  /** Overlapping with a report, a cancellation is final exactly when the report is not a failure
      with retries left: then it is as if the cancellation had come first. Otherwise the task is
      queued again in the cancelled run, and the next delivery claims it. */
  lemma CancellationIsFinalIff(db: Db, order: seq<Name>, o: Outcome)
    requires DbInv(db) && db.run == RunRunning && Topological(DepsOf(db.rows), order)
    requires o.task in db.rows && db.rows[o.task].status == Running
    ensures DbInv(Raced(db, o)) <==> o.ok || db.rows[o.task].retryCount >= db.rows[o.task].maxRetries
    ensures o.ok || db.rows[o.task].retryCount >= db.rows[o.task].maxRetries ==>
              o.task in CancelledDb(db).rows && Raced(db, o) == Reported(CancelledDb(db), o)
    ensures !o.ok && db.rows[o.task].retryCount < db.rows[o.task].maxRetries ==>
              Raced(db, o).run == RunCancelled && Wins(Raced(db, o), o.task)
  {
    hide Raced, Topological, Reported, CancelledDb, RowsInv, WellFormed;
    if !o.ok && Retries(db, o.task) {
      RetryWins(db, o);
    } else {
      TickSeesCancellation(db, o);
      CancelKeepsInv(db);
      CancelKeepsRunning(db, o.task);
      SameGraph(db.rows, CancelledDb(db).rows);
      ReportKeepsInv(CancelledDb(db), order, o);
    }
  }

  lemma CancelKeepsRunning(db: Db, n: Name)
    requires n in db.rows && db.rows[n].status == Running
    ensures n in CancelledDb(db).rows && CancelledDb(db).rows[n] == db.rows[n] && SameTasks(db.rows, CancelledDb(db).rows)
  {
  }

  // ----- a session that keeps the run as it has loaded it ------------------------------------

  /** The same, for a tick that goes by the status the session read at first. */
  function RacedStale(db: Db, o: Outcome): Db
    requires o.task in db.rows
  {
    var flushed := Flushed(db, Tx(Owner(""), [o], [], false));
    var view := View(CancelledDb(db), flushed);
    if MayTick(flushed) then Apply(view, ResolvePatch(view.(run := db.run), o.now)) else view
  }

  predicate OthersRunning(rows: Rows, n: Name) {
    exists k | k in rows && k != n :: rows[k].status == Running
  }

  lemma StaleView(db: Db, o: Outcome)
    requires o.task in db.rows && db.rows[o.task].status == Running && (o.ok || !Retries(db, o.task))
    ensures var flushed := Flushed(db, Tx(Owner(""), [o], [], false));
            && MayTick(flushed) && o.task in CancelledDb(db).rows
            && View(CancelledDb(db), flushed) == Apply(CancelledDb(db), MarkPatch(CancelledDb(db).rows, o.task, o.ok))
  {
    var cancelled, mark := CancelledDb(db), MarkPatch(db.rows, o.task, o.ok);
    var flushed := Flushed(db, Tx(Owner(""), [o], [], false));
    assert flushed.writes == [mark] && flushed.waiting;
    assert MarkPatch(cancelled.rows, o.task, o.ok) == mark;
    assert View(cancelled, flushed) == Apply(ViewAt(cancelled, flushed.writes, 0), mark);
  }

  lemma CancelledRows(db: Db, n: Name)
    requires n in db.rows
    ensures n in CancelledDb(db).rows && CancelledDb(db).names == db.names && CancelledDb(db).rows.Keys == db.rows.Keys
    ensures CancelledDb(db).rows[n] == if db.rows[n].status in {Pending, Queued} then db.rows[n].(status := Cancelled) else db.rows[n]
  {
  }

  /** The rows the late tick reads: nothing waits, and the task reported on has ended. */
  ghost predicate WoundDown(rows: Rows, view: Db, o: Outcome) {
    && view.rows.Keys == rows.Keys
    && (forall n {:trigger view.rows[n]} | n in rows ::
          && view.rows[n].status !in {Pending, Queued}
          && (view.rows[n].status == Running <==> n != o.task && rows[n].status == Running)
          && (view.rows[n].status == Failed <==> (if n == o.task then !o.ok else rows[n].status == Failed)))
  }

  lemma CancelledWindsDown(db: Db, o: Outcome)
    requires o.task in db.rows && o.task in CancelledDb(db).rows
    ensures WoundDown(db.rows, Apply(CancelledDb(db), MarkPatch(CancelledDb(db).rows, o.task, o.ok)), o)
  {
    hide CancelledDb;
    CancelledRows(db, o.task);
    var view := Apply(CancelledDb(db), MarkPatch(CancelledDb(db).rows, o.task, o.ok));
    MarkKeepsKeysOf(CancelledDb(db), o);
    forall n | n in db.rows
      ensures view.rows[n].status !in {Pending, Queued}
      ensures view.rows[n].status == Running <==> n != o.task && db.rows[n].status == Running
      ensures view.rows[n].status == Failed <==> (if n == o.task then !o.ok else db.rows[n].status == Failed)
    {
      CancelledRows(db, n);
    }
  }

  /** With every other task cancelled or settled, the tick finds nothing to dispatch, and closes the
      run unless another task is still running. */
  lemma StaleTick(rows: Rows, view: Db, o: Outcome)
    requires o.task in rows && rows[o.task].status == Running && WoundDown(rows, view, o) && view.run == RunRunning
    ensures ResolvePatch(view, o.now) ==
            if OthersRunning(rows, o.task) then NO_CHANGE
            else NO_CHANGE.(run := Some(if o.ok && !AnyFailed(rows) then RunCompleted else RunFailed))
  {
    NothingRunnable(view.rows, view.names);
    if k :| k in rows && k != o.task && rows[k].status == Running {
      assert InFlight(view.rows[k]);
    } else {
      assert forall n | n in view.rows :: !InFlight(view.rows[n]);
    }
    FailedAfter(rows, view, o);
  }

  lemma FailedAfter(rows: Rows, view: Db, o: Outcome)
    requires o.task in rows && rows[o.task].status == Running && WoundDown(rows, view, o)
    ensures AnyFailed(view.rows) <==> !o.ok || AnyFailed(rows)
  {
    if !o.ok {
      assert view.rows[o.task].status == Failed;
    }
    if k :| k in rows && rows[k].status == Failed {
      assert view.rows[k].status == Failed;
    }
  }

  lemma MarkKeepsKeysOf(db: Db, o: Outcome)
    requires o.task in db.rows
    ensures Apply(db, MarkPatch(db.rows, o.task, o.ok)).rows.Keys == db.rows.Keys
  {
  }

  lemma {:induction false} NothingRunnable(rows: Rows, names: seq<Name>)
    requires forall n | n in rows :: rows[n].status != Pending
    ensures RunnableAmong(rows, names) == []
  {
    if names != [] {
      NothingRunnable(rows, names[1..]);
    }
  }

  /** In such a session a cancellation overlapping a report is final exactly when the report is not
      a failure with retries left and another task is still running. Otherwise the task is queued
      again, or the cancelled run is closed as completed or failed. */
  lemma StaleCancellationIsFinalIff(db: Db, o: Outcome)
    requires DbInv(db) && db.run == RunRunning && o.task in db.rows && db.rows[o.task].status == Running
    ensures o.task in CancelledDb(db).rows
    ensures RacedStale(db, o) == Reported(CancelledDb(db), o) <==>
            (o.ok || db.rows[o.task].retryCount >= db.rows[o.task].maxRetries) && OthersRunning(db.rows, o.task)
    ensures o.ok || db.rows[o.task].retryCount >= db.rows[o.task].maxRetries ==>
            RacedStale(db, o) == Reported(CancelledDb(db), o).(run :=
              if OthersRunning(db.rows, o.task) then RunCancelled
              else if o.ok && !AnyFailed(db.rows) then RunCompleted else RunFailed)
    ensures !o.ok && db.rows[o.task].retryCount < db.rows[o.task].maxRetries ==>
            RacedStale(db, o).run == RunCancelled && Wins(RacedStale(db, o), o.task)
  {
    CancelledRows(db, o.task);
    if !o.ok && Retries(db, o.task) {
      RetryWins(db, o);
      assert RacedStale(db, o) == Raced(db, o);
      NotRetriedWhenCancelled(db, o);
    } else {
      hide Raced, ResolvePatch, MarkPatch, CancelledDb, OthersRunning, AnyFailed, DbInv, Reported;
      StaleView(db, o);
      CancelledWindsDown(db, o);
      StaleTick(db.rows, Apply(CancelledDb(db), MarkPatch(CancelledDb(db).rows, o.task, o.ok)).(run := RunRunning), o);
      CancelledReport(db, o);
      ClosingPatch(Apply(CancelledDb(db), MarkPatch(CancelledDb(db).rows, o.task, o.ok)));
    }
  }

  lemma CancelledReport(db: Db, o: Outcome)
    requires o.task in CancelledDb(db).rows
    ensures Reported(CancelledDb(db), o) == Apply(CancelledDb(db), MarkPatch(CancelledDb(db).rows, o.task, o.ok))
    ensures Reported(CancelledDb(db), o).run == RunCancelled
  {
    var cancelled := CancelledDb(db);
    var mark := MarkPatch(cancelled.rows, o.task, o.ok);
    ApplyThen(cancelled, mark, NO_CHANGE);
    assert ResolvePatch(Apply(cancelled, mark), o.now) == NO_CHANGE;
    SilentPatch(Apply(cancelled, mark));
  }

  lemma SilentPatch(db: Db)
    ensures Apply(db, NO_CHANGE) == db
  {
  }

  lemma ClosingPatch(db: Db)
    ensures Apply(db, NO_CHANGE) == db
    ensures forall run :: Apply(db, NO_CHANGE.(run := Some(run))) == db.(run := run)
  {
  }

  lemma NotRetriedWhenCancelled(db: Db, o: Outcome)
    requires o.task in CancelledDb(db).rows && !o.ok
    ensures o.task in Reported(CancelledDb(db), o).rows && Reported(CancelledDb(db), o).rows[o.task].status == Failed
  {
  }
}
