/** The recovery sweeps (app/recovery.py): what they select, what they charge, and why they are
    enough on their own to finish any run that has been abandoned. */
module Recovery {
  import opened Graphs
  import opened Tables
  import opened Invariant
  import opened Retry

  /** Last heartbeat of each registered worker. */
  type Workers = map<WorkerId, Option<real>>

  /** The workers that have beaten within the timeout. */
  function Alive(workers: Workers, now: real, timeout: real): set<WorkerId> {
    set w | w in workers && workers[w].Some? && workers[w].value >= now - timeout
  }

  predicate Orphaned(row: Row, alive: set<WorkerId>) {
    row.status == Running && (row.workerId == None || row.workerId.value !in alive)
  }

  predicate StuckQueued(row: Row, cutoff: real) {
    row.status == Queued && row.dispatchedAt.Some? && row.dispatchedAt.value < cutoff
  }

  /** The rows a sweep selects, in row order. */
  function Select(rows: Rows, names: seq<Name>, chosen: Row -> bool): (r: seq<Name>)
    ensures forall n :: n in r <==> n in names && n in rows && chosen(rows[n])
    ensures Distinct(names) ==> Distinct(r)
  {
    if names == [] then []
    else
      var rest := Select(rows, names[1..], chosen);
      assert names == [names[0]] + names[1..];
      if names[0] in rows && chosen(rows[names[0]]) then [names[0]] + rest else rest
  }

  /** `delays` gives the backoff drawn for each task that is retried. */
  type Delays = Name -> real

  /** Reports every selected task as failed, one after the other. */
  function SweepPatch(db: Db, names: seq<Name>, now: real, delays: Delays): Patch
    requires forall n | n in names :: n in db.rows
    decreases names
  {
    if names == [] then NO_CHANGE
    else
      var p := ReportPatch(db, Outcome(names[0], false, now, delays(names[0])));
      Then(p, SweepPatch(Apply(db, p), names[1..], now, delays))
  }

  function Swept(db: Db, names: seq<Name>, now: real, delays: Delays): Db
    requires forall n | n in names :: n in db.rows
    decreases names
  {
    if names == [] then db
    else Swept(Reported(db, Outcome(names[0], false, now, delays(names[0]))), names[1..], now, delays)
  }

  lemma {:induction false} SweepIsPatch(db: Db, names: seq<Name>, now: real, delays: Delays)
    requires forall n | n in names :: n in db.rows
    ensures Apply(db, SweepPatch(db, names, now, delays)) == Swept(db, names, now, delays)
    decreases names
  {
    hide ReportPatch;
    if names != [] {
      var p := ReportPatch(db, Outcome(names[0], false, now, delays(names[0])));
      SweepIsPatch(Apply(db, p), names[1..], now, delays);
      ApplyThen(db, p, SweepPatch(Apply(db, p), names[1..], now, delays));
    }
  }

  // ----- one failed report -------------------------------------------------------------------

  /** The row a failed report leaves behind: retried while the run is running and retries are left,
      failed otherwise. */
  function Charged(row: Row, run: RunStatus, now: real, delay: real): Row {
    if run != RunCancelled && row.retryCount < row.maxRetries then
      row.(retryCount := row.retryCount + 1, status := Queued, workerId := None, dispatchedAt := Some(now + delay))
    else row.(status := Failed)
  }

  /** A failure releases nothing: only the reported row changes. */
  lemma FailureChangesOneRow(db: Db, o: Outcome)
    requires DbInv(db) && !o.ok && o.task in db.rows && InFlight(db.rows[o.task])
    ensures Reported(db, o).rows == db.rows[o.task := Charged(db.rows[o.task], db.run, o.now, o.delay)]
    ensures Reported(db, o).names == db.names
    ensures Reported(db, o).run == RunCancelled <==> db.run == RunCancelled
  {
    hide DbInv, MarkPatch, RequeuePatch, ResolvePatch;
    InFlightMeansOpen(db, o.task);
    if Retries(db, o.task) {
      RequeueChangesOneRow(db, o);
    } else {
      var mark := MarkPatch(db.rows, o.task, false);
      FailedMark(db, o.task);
      NothingReleased(db, o.task, o.now);
      ApplyThen(db, mark, ResolvePatch(Apply(db, mark), o.now));
    }
  }

  lemma RequeueChangesOneRow(db: Db, o: Outcome)
    requires o.task in db.rows && Retries(db, o.task)
    ensures var after := Apply(db, RequeuePatch(db.rows, o.task, o.now, o.delay));
            && after.rows == db.rows[o.task := Charged(db.rows[o.task], db.run, o.now, o.delay)]
            && after.names == db.names && after.run == db.run
  {
  }

  lemma FailedMark(db: Db, n: Name)
    requires n in db.rows
    ensures Apply(db, MarkPatch(db.rows, n, false)) == db.(rows := db.rows[n := db.rows[n].(status := Failed)])
  {
  }

  lemma NothingReleased(db: Db, n: Name, now: real)
    requires DbInv(db) && n in db.rows && (db.run == RunRunning || db.run == RunCancelled)
    ensures var marked := db.(rows := db.rows[n := db.rows[n].(status := Failed)]);
            ResolvePatch(marked, now).rows == map[] && ResolvePatch(marked, now).run != Some(RunCancelled)
            && (db.run == RunCancelled ==> ResolvePatch(marked, now).run == None)
  {
    if db.run == RunRunning {
      var marked := db.(rows := db.rows[n := db.rows[n].(status := Failed)]);
      SameWellFormed(db, marked);
      StillQuiet(db.rows, n, marked.rows[n]);
      RunnableIsQuiet(marked);
    }
  }

  lemma StillQuiet(rows: Rows, n: Name, row: Row)
    requires Quiet(rows) && n in rows && row.status == Failed && row.deps == rows[n].deps
    ensures Quiet(rows[n := row])
  {
    var rows' := rows[n := row];
    forall k | k in rows' ensures !CanRun(rows', k) {
      assert !CanRun(rows, k);
      if k != n && rows[k].status == Pending {
        var d :| d in rows[k].deps && !(d in rows && rows[d].status == Success);
      }
    }
  }

  // ----- one sweep ---------------------------------------------------------------------------

  /** Every selected row is charged exactly once, no other row is touched. */
  ghost predicate ChargedOnce(rows: Rows, rows': Rows, run: RunStatus, names: seq<Name>, now: real, delays: Delays) {
    && rows.Keys == rows'.Keys
    && forall n {:trigger rows'[n]} | n in rows :: rows'[n] == if n in names then Charged(rows[n], run, now, delays(n)) else rows[n]
  }

  /** What a sweep leaves as it was. */
  ghost predicate SameRun(db: Db, after: Db) {
    after.names == db.names && (after.run == RunCancelled <==> db.run == RunCancelled)
  }

  lemma {:induction false} SweepChargesOnce(db: Db, order: seq<Name>, names: seq<Name>, now: real, delays: Delays)
    requires DbInv(db) && Topological(DepsOf(db.rows), order)
    requires Distinct(names) && forall n | n in names :: n in db.rows && InFlight(db.rows[n])
    ensures var after := Swept(db, names, now, delays);
            DbInv(after) && SameRun(db, after) && ChargedOnce(db.rows, after.rows, db.run, names, now, delays)
    decreases names
  {
    hide DbInv, Topological, Reported, ChargedOnce;
    if names == [] {
      NoneCharged(db.rows, db.run, now, delays);
    } else {
      var o, rest := Outcome(names[0], false, now, delays(names[0])), names[1..];
      assert names == [names[0]] + rest;
      var next := Reported(db, o);
      FailureChangesOneRow(db, o);
      ReportKeepsInv(db, order, o);
      SameGraph(db.rows, next.rows);
      SweepChargesOnce(next, order, rest, now, delays);
      OneMoreCharged(db.rows, next.rows, Swept(next, rest, now, delays).rows, db.run, next.run, names, now, delays);
    }
  }

  lemma NoneCharged(rows: Rows, run: RunStatus, now: real, delays: Delays)
    ensures ChargedOnce(rows, rows, run, [], now, delays)
  {
  }

  lemma OneMoreCharged(rows: Rows, next: Rows, rows': Rows, run: RunStatus, run': RunStatus, names: seq<Name>, now: real, delays: Delays)
    requires names != [] && Distinct(names) && names[0] in rows && (run == RunCancelled <==> run' == RunCancelled)
    requires next == rows[names[0] := Charged(rows[names[0]], run, now, delays(names[0]))]
    requires ChargedOnce(next, rows', run', names[1..], now, delays)
    ensures ChargedOnce(rows, rows', run, names, now, delays)
  {
    assert names == [names[0]] + names[1..];
    assert names[0] !in names[1..];
  }

  // ----- one visit ---------------------------------------------------------------------------

  /** One visit of the recovery thread: the orphan sweep, then the stuck-queued sweep. `alive` is
      what the first of them takes the living workers to be. */
  datatype Visit = Visit(alive: set<WorkerId>, now: real, orphanDelays: Delays, stuckDelays: Delays)

  /** The backoff drawn for one row, by the sweep that selects it. */
  function Drawn(v: Visit, row: Row, n: Name): real {
    if row.status == Running then v.orphanDelays(n) else v.stuckDelays(n)
  }

  function Orphans(db: Db, alive: set<WorkerId>): seq<Name> {
    Select(db.rows, db.names, (row: Row) => Orphaned(row, alive))
  }

  function Stuck(db: Db, cutoff: real): seq<Name> {
    Select(db.rows, db.names, (row: Row) => StuckQueued(row, cutoff))
  }

  function Visited(db: Db, timeout: real, v: Visit): Db {
    var mid := Swept(db, Orphans(db, v.alive), v.now, v.orphanDelays);
    Swept(mid, Stuck(mid, v.now - timeout), v.now, v.stuckDelays)
  }

  /** Backoff is never negative, and never more than its maximum with the jitter on top. */
  ghost predicate DelaysWithin(v: Visit, longest: real) {
    forall n :: 0.0 <= v.orphanDelays(n) <= longest && 0.0 <= v.stuckDelays(n) <= longest
  }

  /** What a visit makes of one row. */
  function VisitedRow(row: Row, run: RunStatus, timeout: real, v: Visit, n: Name): Row {
    if Orphaned(row, v.alive) || StuckQueued(row, v.now - timeout) then Charged(row, run, v.now, Drawn(v, row, n)) else row
  }

  ghost predicate RowsVisited(rows: Rows, rows': Rows, run: RunStatus, timeout: real, v: Visit) {
    && rows.Keys == rows'.Keys
    && forall n {:trigger rows'[n]} | n in rows :: rows'[n] == VisitedRow(rows[n], run, timeout, v, n)
  }

  /** A row requeued by the first sweep is not overdue for the second. */
  lemma SweptTwiceIsOnce(rows: Rows, mid: Rows, rows': Rows, run: RunStatus, orphans: seq<Name>, stuck: seq<Name>, timeout: real, v: Visit, longest: real)
    requires timeout >= 0.0 && DelaysWithin(v, longest)
    requires forall n :: n in orphans <==> n in rows && Orphaned(rows[n], v.alive)
    requires ChargedOnce(rows, mid, run, orphans, v.now, v.orphanDelays)
    requires forall n :: n in stuck <==> n in mid && StuckQueued(mid[n], v.now - timeout)
    requires ChargedOnce(mid, rows', run, stuck, v.now, v.stuckDelays)
    ensures RowsVisited(rows, rows', run, timeout, v)
  {
    forall n | n in rows ensures rows'[n] == VisitedRow(rows[n], run, timeout, v, n) {
      assert mid[n] == if n in orphans then Charged(rows[n], run, v.now, v.orphanDelays(n)) else rows[n];
      assert v.orphanDelays(n) >= 0.0;
    }
  }

  lemma SweepKeepsTasks(rows: Rows, rows': Rows, run: RunStatus, names: seq<Name>, now: real, delays: Delays)
    requires ChargedOnce(rows, rows', run, names, now, delays)
    ensures SameTasks(rows, rows')
  {
    forall n | n in rows ensures rows'[n].deps == rows[n].deps && rows'[n].maxRetries == rows[n].maxRetries {
      assert rows'[n] == if n in names then Charged(rows[n], run, now, delays(n)) else rows[n];
    }
  }

  lemma OrphansInFlight(db: Db, alive: set<WorkerId>)
    requires DbInv(db)
    ensures Distinct(Orphans(db, alive))
    ensures forall n :: n in Orphans(db, alive) <==> n in db.rows && Orphaned(db.rows[n], alive)
  {
  }

  lemma StuckInFlight(db: Db, cutoff: real)
    requires DbInv(db)
    ensures Distinct(Stuck(db, cutoff))
    ensures forall n :: n in Stuck(db, cutoff) <==> n in db.rows && StuckQueued(db.rows[n], cutoff)
  {
  }

  /** Both sweeps of a visit, one after the other. */
  lemma TwoSweeps(db: Db, order: seq<Name>, timeout: real, v: Visit) returns (orphans: seq<Name>, mid: Db, stuck: seq<Name>)
    requires DbInv(db) && Topological(DepsOf(db.rows), order)
    ensures forall n :: n in orphans <==> n in db.rows && Orphaned(db.rows[n], v.alive)
    ensures forall n :: n in stuck <==> n in mid.rows && StuckQueued(mid.rows[n], v.now - timeout)
    ensures ChargedOnce(db.rows, mid.rows, db.run, orphans, v.now, v.orphanDelays)
    ensures ChargedOnce(mid.rows, Visited(db, timeout, v).rows, db.run, stuck, v.now, v.stuckDelays)
    ensures DbInv(Visited(db, timeout, v)) && SameRun(db, Visited(db, timeout, v))
  {
    hide Topological, DbInv, Swept, Orphans, Stuck, ChargedOnce;
    orphans := Orphans(db, v.alive);
    OrphansInFlight(db, v.alive);
    mid := Swept(db, orphans, v.now, v.orphanDelays);
    SweepChargesOnce(db, order, orphans, v.now, v.orphanDelays);
    SweepKeepsTasks(db.rows, mid.rows, db.run, orphans, v.now, v.orphanDelays);
    SameGraph(db.rows, mid.rows);
    stuck := Stuck(mid, v.now - timeout);
    StuckInFlight(mid, v.now - timeout);
    SweepChargesOnce(mid, order, stuck, v.now, v.stuckDelays);
    SameCharge(mid.rows, Visited(db, timeout, v).rows, mid.run, db.run, stuck, v.now, v.stuckDelays);
  }

  lemma SameCharge(rows: Rows, rows': Rows, run: RunStatus, run': RunStatus, names: seq<Name>, now: real, delays: Delays)
    requires ChargedOnce(rows, rows', run, names, now, delays) && (run == RunCancelled <==> run' == RunCancelled)
    ensures ChargedOnce(rows, rows', run', names, now, delays)
  {
  }

  /** A visit charges one attempt to every running row whose worker is not alive and to every row
      queued for too long, and touches no other row. */
  lemma VisitChargesSelected(db: Db, order: seq<Name>, timeout: real, v: Visit, longest: real)
    requires DbInv(db) && Topological(DepsOf(db.rows), order) && timeout >= 0.0 && DelaysWithin(v, longest)
    ensures var after := Visited(db, timeout, v);
            DbInv(after) && SameRun(db, after) && RowsVisited(db.rows, after.rows, db.run, timeout, v)
  {
    hide Topological, DbInv, Visited, ChargedOnce, RowsVisited, DelaysWithin;
    var orphans, mid, stuck := TwoSweeps(db, order, timeout, v);
    SweptTwiceIsOnce(db.rows, mid.rows, Visited(db, timeout, v).rows, db.run, orphans, stuck, timeout, v, longest);
  }

  lemma NotSelected(rows: Rows, rows': Rows, run: RunStatus, names: seq<Name>, now: real, delays: Delays, n: Name)
    requires ChargedOnce(rows, rows', run, names, now, delays) && n in rows && n !in names
    ensures n in rows' && rows'[n] == rows[n]
  {
  }

  /** A visit leaves alone every running task whose worker has beaten within the timeout. */
  lemma VisitSparesLive(db: Db, order: seq<Name>, workers: Workers, heartbeatTimeout: real, timeout: real, v: Visit, n: Name, w: WorkerId)
    requires DbInv(db) && Topological(DepsOf(db.rows), order) && v.alive == Alive(workers, v.now, heartbeatTimeout)
    requires n in db.rows && db.rows[n].status == Running && db.rows[n].workerId == Some(w)
    requires w in workers && workers[w].Some? && workers[w].value >= v.now - heartbeatTimeout
    ensures n in Visited(db, timeout, v).rows && Visited(db, timeout, v).rows[n] == db.rows[n]
  {
    hide Topological, DbInv, Visited, ChargedOnce;
    var orphans, mid, stuck := TwoSweeps(db, order, timeout, v);
    NotSelected(db.rows, mid.rows, db.run, orphans, v.now, v.orphanDelays, n);
    NotSelected(mid.rows, Visited(db, timeout, v).rows, db.run, stuck, v.now, v.stuckDelays, n);
  }

  /** In a cancelled run a visit fails every orphan, whatever retries it has left, and changes
      nothing else. */
  lemma VisitOfCancelledRun(db: Db, order: seq<Name>, timeout: real, v: Visit)
    requires DbInv(db) && db.run == RunCancelled && Topological(DepsOf(db.rows), order)
    ensures var after := Visited(db, timeout, v);
            && DbInv(after) && after.run == RunCancelled && after.rows.Keys == db.rows.Keys
            && forall n {:trigger after.rows[n]} | n in db.rows ::
                 after.rows[n] == if Orphaned(db.rows[n], v.alive) then db.rows[n].(status := Failed) else db.rows[n]
  {
    hide Topological, RowsInv, WellFormed, Visited;
    var orphans, mid, stuck := TwoSweeps(db, order, timeout, v);
    var after := Visited(db, timeout, v);
    forall n | n in db.rows
      ensures after.rows[n] == if Orphaned(db.rows[n], v.alive) then db.rows[n].(status := Failed) else db.rows[n]
    {
      assert mid.rows[n] == if n in orphans then Charged(db.rows[n], RunCancelled, v.now, v.orphanDelays(n)) else db.rows[n];
    }
  }

  // ----- an abandoned run --------------------------------------------------------------------

  function AfterVisits(db: Db, visits: seq<Visit>, timeout: real): Db
    decreases visits
  {
    if visits == [] then db else AfterVisits(Visited(db, timeout, visits[0]), visits[1..], timeout)
  }

  /** No worker taken to be alive holds a task. */
  ghost predicate Abandoned(rows: Rows, alive: set<WorkerId>) {
    forall n | n in rows && rows[n].status == Running :: rows[n].workerId == None || rows[n].workerId.value !in alive
  }

  /** Every queued row has been waiting for longer than the timeout. */
  ghost predicate Overdue(rows: Rows, now: real, timeout: real) {
    forall n | n in rows && rows[n].status == Queued :: StuckQueued(rows[n], now - timeout)
  }

  /** Every in-flight row is charged one attempt, and nothing else moves. */
  ghost predicate OneAttemptEach(rows: Rows, rows': Rows, run: RunStatus, v: Visit) {
    && rows.Keys == rows'.Keys
    && forall n {:trigger rows'[n]} | n in rows :: rows'[n] == if InFlight(rows[n]) then Charged(rows[n], run, v.now, Drawn(v, rows[n], n)) else rows[n]
  }

  lemma VisitChargesEach(db: Db, order: seq<Name>, timeout: real, v: Visit, longest: real)
    requires DbInv(db) && Topological(DepsOf(db.rows), order) && timeout >= 0.0 && DelaysWithin(v, longest)
    requires Abandoned(db.rows, v.alive) && Overdue(db.rows, v.now, timeout)
    ensures var after := Visited(db, timeout, v);
            DbInv(after) && SameRun(db, after) && OneAttemptEach(db.rows, after.rows, db.run, v)
  {
    hide Topological, DbInv, Visited, DelaysWithin;
    VisitChargesSelected(db, order, timeout, v, longest);
    var after := Visited(db, timeout, v);
    forall n | n in db.rows
      ensures after.rows[n] == if InFlight(db.rows[n]) then Charged(db.rows[n], db.run, v.now, Drawn(v, db.rows[n], n)) else db.rows[n]
    {
      assert after.rows[n] == VisitedRow(db.rows[n], db.run, timeout, v, n);
    }
  }

  lemma VisitKeepsTasks(rows: Rows, rows': Rows, run: RunStatus, timeout: real, v: Visit)
    requires RowsVisited(rows, rows', run, timeout, v)
    ensures SameTasks(rows, rows')
  {
    forall n | n in rows ensures rows'[n].deps == rows[n].deps && rows'[n].maxRetries == rows[n].maxRetries {
      assert rows'[n] == VisitedRow(rows[n], run, timeout, v, n);
    }
  }

  /** Visits far enough apart for everything requeued by one to be overdue at the next. Only the
      first can meet a running task, so only its idea of who is alive matters. */
  ghost predicate Spaced(rows: Rows, visits: seq<Visit>, timeout: real, longest: real) {
    && (forall i {:trigger visits[i]} | 0 <= i < |visits| :: DelaysWithin(visits[i], longest))
    && (forall i {:trigger visits[i]} | 0 < i < |visits| :: visits[i].now > visits[i - 1].now + longest + timeout)
    && (visits != [] ==> Abandoned(rows, visits[0].alive) && Overdue(rows, visits[0].now, timeout))
  }

  /** No in-flight task has `visits` attempts or more left after the current one. */
  ghost predicate BudgetBelow(rows: Rows, visits: nat) {
    forall n | n in rows && InFlight(rows[n]) :: rows[n].maxRetries - rows[n].retryCount < visits
  }

  lemma StaysSpaced(rows: Rows, rows': Rows, run: RunStatus, visits: seq<Visit>, timeout: real, longest: real)
    requires visits != [] && Spaced(rows, visits, timeout, longest) && OneAttemptEach(rows, rows', run, visits[0])
    ensures Spaced(rows', visits[1..], timeout, longest)
  {
    var v, rest := visits[0], visits[1..];
    forall i | 0 < i < |rest| ensures rest[i].now > rest[i - 1].now + longest + timeout {
      assert rest[i] == visits[i + 1] && rest[i - 1] == visits[i];
    }
    if rest != [] {
      assert visits[1].now > v.now + longest + timeout;
      forall n | n in rows' && InFlight(rows'[n]) ensures rows'[n].status == Queued && StuckQueued(rows'[n], visits[1].now - timeout) {
        assert InFlight(rows[n]) && rows'[n] == Charged(rows[n], run, v.now, Drawn(v, rows[n], n));
        assert DelaysWithin(v, longest) && v.orphanDelays(n) <= longest && v.stuckDelays(n) <= longest;
      }
    }
  }

  lemma VisitUsesBudget(rows: Rows, rows': Rows, run: RunStatus, v: Visit, visits: nat)
    requires RowsInv(rows, run) && run != RunCancelled && OneAttemptEach(rows, rows', run, v) && visits > 0
    ensures BudgetBelow(rows, visits) <==> BudgetBelow(rows', visits - 1)
  {
    if BudgetBelow(rows', visits - 1) {
      forall n | n in rows && InFlight(rows[n]) ensures rows[n].maxRetries - rows[n].retryCount < visits {
        assert RowInv(rows, run, n);
        assert rows'[n] == Charged(rows[n], run, v.now, Drawn(v, rows[n], n));
      }
    }
    if BudgetBelow(rows, visits) {
      forall n | n in rows' && InFlight(rows'[n]) ensures rows'[n].maxRetries - rows'[n].retryCount < visits - 1 {
        assert rows'[n] == if InFlight(rows[n]) then Charged(rows[n], run, v.now, Drawn(v, rows[n], n)) else rows[n];
      }
    }
  }

  lemma {:induction false} ClosedRunsStay(db: Db, visits: seq<Visit>, timeout: real)
    requires !AnyInFlight(db.rows)
    ensures AfterVisits(db, visits, timeout) == db && BudgetBelow(db.rows, |visits|)
    decreases visits
  {
    if visits != [] {
      NothingSelected(db, timeout, visits[0]);
      ClosedRunsStay(db, visits[1..], timeout);
    }
  }

  lemma NothingSelected(db: Db, timeout: real, v: Visit)
    requires !AnyInFlight(db.rows)
    ensures Visited(db, timeout, v) == db
  {
    SelectNothing(db.rows, db.names, (row: Row) => Orphaned(row, v.alive));
    SelectNothing(db.rows, db.names, (row: Row) => StuckQueued(row, v.now - timeout));
  }

  lemma {:induction false} SelectNothing(rows: Rows, names: seq<Name>, chosen: Row -> bool)
    requires forall n | n in rows :: !chosen(rows[n])
    ensures Select(rows, names, chosen) == []
  {
    if names != [] {
      SelectNothing(rows, names[1..], chosen);
    }
  }

  /** A visit succeeds with nothing, so it cannot complete a run that still has work in flight. */
  lemma VisitFails(db: Db, after: Db, timeout: real, v: Visit)
    requires DbInv(db) && db.run == RunRunning && DbInv(after) && SameRun(db, after)
    requires RowsVisited(db.rows, after.rows, db.run, timeout, v)
    ensures after.run == RunRunning || (after.run == RunFailed && !AnyInFlight(after.rows))
  {
    var n :| n in db.rows && InFlight(db.rows[n]);
    assert after.rows[n] == VisitedRow(db.rows[n], db.run, timeout, v, n);
  }

  lemma BudgetIsNatural(db: Db, n: Name)
    requires DbInv(db) && n in db.rows
    ensures db.rows[n].maxRetries - db.rows[n].retryCount >= 0
  {
    assert RowInv(db.rows, db.run, n);
  }

  lemma InFlightOfRunning(db: Db) returns (n: Name)
    requires DbInv(db) && db.run == RunRunning
    ensures n in db.rows && InFlight(db.rows[n])
  {
    n :| n in db.rows && InFlight(db.rows[n]);
  }

  /** Abandoned by its workers and with every message lost, a run is ended by visits alone: after k
      of them, far enough apart, it is failed if every in-flight task had fewer than k retries left,
      and otherwise still running. So 1 + max(max_retries - retry_count) visits are enough, and no
      fewer are. */
  lemma {:induction false} RecoverySuffices(db: Db, order: seq<Name>, visits: seq<Visit>, timeout: real, longest: real)
    requires DbInv(db) && db.run == RunRunning && Topological(DepsOf(db.rows), order)
    requires timeout >= 0.0 && Spaced(db.rows, visits, timeout, longest)
    ensures AfterVisits(db, visits, timeout).run == if BudgetBelow(db.rows, |visits|) then RunFailed else RunRunning
    decreases visits
  {
    hide DbInv, Visited, Topological, RowsVisited, OneAttemptEach, DelaysWithin;
    if visits == [] {
      var n := InFlightOfRunning(db);
      BudgetIsNatural(db, n);
    } else {
      var after := Visited(db, timeout, visits[0]);
      VisitChargesSelected(db, order, timeout, visits[0], longest);
      VisitChargesEach(db, order, timeout, visits[0], longest);
      DbInvRows(db);
      VisitUsesBudget(db.rows, after.rows, db.run, visits[0], |visits|);
      VisitFails(db, after, timeout, visits[0]);
      if after.run == RunRunning {
        VisitKeepsTasks(db.rows, after.rows, db.run, timeout, visits[0]);
        SameGraph(db.rows, after.rows);
        StaysSpaced(db.rows, after.rows, db.run, visits, timeout, longest);
        RecoverySuffices(after, order, visits[1..], timeout, longest);
      } else {
        ClosedRunsStay(after, visits[1..], timeout);
      }
    }
  }

  lemma DbInvRows(db: Db)
    requires DbInv(db)
    ensures RowsInv(db.rows, db.run)
  {
  }

  // ----- visits as often as they come --------------------------------------------------------

  /** How often more than `gap` has passed since the last time that was so. */
  function Epochs(visits: seq<Visit>, last: real, gap: real): nat
    decreases visits
  {
    if visits == [] then 0
    else if visits[0].now > last + gap then 1 + Epochs(visits[1..], visits[0].now, gap)
    else Epochs(visits[1..], last, gap)
  }

  ghost predicate InOrder(visits: seq<Visit>, start: real) {
    && (visits != [] ==> visits[0].now >= start)
    && (forall i {:trigger visits[i]} | 0 < i < |visits| :: visits[i].now >= visits[i - 1].now)
  }

  /** Either the row has been charged in this epoch, or it will be when the epoch ends. */
  ghost predicate Waning(row: Row, last: real, latest: real, longest: real, epochs: nat) {
    && (row.status == Queued ==> row.dispatchedAt.Some? && row.dispatchedAt.value <= latest + longest)
    && var left := row.maxRetries - row.retryCount;
       left < epochs - 1 || (left < epochs && (row.status == Running || (row.dispatchedAt.Some? && row.dispatchedAt.value <= last + longest)))
  }

  ghost predicate AllWaning(rows: Rows, last: real, latest: real, longest: real, epochs: nat) {
    forall n {:trigger rows[n]} | n in rows && InFlight(rows[n]) :: Waning(rows[n], last, latest, longest, epochs)
  }

  lemma VisitWanes(rows: Rows, rows': Rows, run: RunStatus, visits: seq<Visit>, timeout: real, longest: real, last: real, latest: real)
    requires visits != [] && run != RunCancelled && RowsVisited(rows, rows', run, timeout, visits[0])
    requires Abandoned(rows, visits[0].alive) && DelaysWithin(visits[0], longest) && visits[0].now >= latest
    requires AllWaning(rows, last, latest, longest, Epochs(visits, last, longest + timeout))
    ensures var v, gap := visits[0], longest + timeout;
            AllWaning(rows', if v.now > last + gap then v.now else last, v.now, longest,
                      Epochs(visits[1..], if v.now > last + gap then v.now else last, gap))
    ensures forall n | n in rows' && InFlight(rows'[n]) :: rows'[n].status == Queued
  {
    var v := visits[0];
    forall n | n in rows' && InFlight(rows'[n])
      ensures rows'[n].status == Queued
      ensures Waning(rows'[n], if v.now > last + longest + timeout then v.now else last, v.now, longest,
                     Epochs(visits[1..], if v.now > last + longest + timeout then v.now else last, longest + timeout))
    {
      assert rows'[n] == VisitedRow(rows[n], run, timeout, v, n);
      assert InFlight(rows[n]) && Waning(rows[n], last, latest, longest, Epochs(visits, last, longest + timeout));
      assert v.orphanDelays(n) <= longest && v.stuckDelays(n) <= longest;
    }
  }

  lemma {:induction false} WaningRunsEnd(db: Db, order: seq<Name>, visits: seq<Visit>, timeout: real, longest: real, last: real, latest: real)
    requires DbInv(db) && db.run == RunRunning && Topological(DepsOf(db.rows), order) && timeout >= 0.0
    requires InOrder(visits, latest) && (visits != [] ==> Abandoned(db.rows, visits[0].alive))
    requires forall i {:trigger visits[i]} | 0 <= i < |visits| :: DelaysWithin(visits[i], longest)
    requires AllWaning(db.rows, last, latest, longest, Epochs(visits, last, longest + timeout))
    ensures AfterVisits(db, visits, timeout).run == RunFailed
    decreases visits
  {
    hide DbInv, Visited, Topological, RowsVisited, DelaysWithin, Waning;
    if visits == [] {
      var n := InFlightOfRunning(db);
      BudgetIsNatural(db, n);
      NothingWanes(db.rows, last, latest, longest, n);
    } else {
      var v := visits[0];
      var after := Visited(db, timeout, v);
      VisitChargesSelected(db, order, timeout, v, longest);
      VisitWanes(db.rows, after.rows, db.run, visits, timeout, longest, last, latest);
      VisitFails(db, after, timeout, v);
      if after.run == RunRunning {
        VisitKeepsTasks(db.rows, after.rows, db.run, timeout, v);
        SameGraph(db.rows, after.rows);
        RestInOrder(visits, latest);
        WaningRunsEnd(after, order, visits[1..], timeout, longest, if v.now > last + (longest + timeout) then v.now else last, v.now);
      } else {
        ClosedRunsStay(after, visits[1..], timeout);
      }
    }
  }

  lemma NothingWanes(rows: Rows, last: real, latest: real, longest: real, n: Name)
    requires n in rows && InFlight(rows[n]) && rows[n].maxRetries - rows[n].retryCount >= 0
    ensures !AllWaning(rows, last, latest, longest, 0)
  {
  }

  lemma RestInOrder(visits: seq<Visit>, start: real)
    requires visits != [] && InOrder(visits, start)
    ensures InOrder(visits[1..], visits[0].now)
  {
    forall i | 0 < i < |visits| - 1 ensures visits[1..][i].now >= visits[1..][i - 1].now {
      assert visits[i + 1].now >= visits[i].now;
    }
    assert |visits| > 1 ==> visits[1].now >= visits[0].now;
  }

  /** However often the visits come: one attempt of every in-flight task is used up each time the
      longest backoff and the timeout have passed, so the run is failed after as many such periods
      as the largest number of retries left, and one more. */
  lemma FrequentVisitsSuffice(db: Db, order: seq<Name>, visits: seq<Visit>, timeout: real, longest: real, start: real)
    requires DbInv(db) && db.run == RunRunning && Topological(DepsOf(db.rows), order) && timeout >= 0.0
    requires InOrder(visits, start) && (visits != [] ==> Abandoned(db.rows, visits[0].alive))
    requires forall i {:trigger visits[i]} | 0 <= i < |visits| :: DelaysWithin(visits[i], longest)
    requires forall n | n in db.rows && db.rows[n].status == Queued :: db.rows[n].dispatchedAt.Some? && db.rows[n].dispatchedAt.value <= start + longest
    ensures BudgetBelow(db.rows, Epochs(visits, start, longest + timeout)) ==> AfterVisits(db, visits, timeout).run == RunFailed
  {
    hide DbInv, Topological, DelaysWithin;
    if BudgetBelow(db.rows, Epochs(visits, start, longest + timeout)) {
      WaningRunsEnd(db, order, visits, timeout, longest, start, start);
    }
  }

  // ----- retries still held back -------------------------------------------------------------

  /** A sweep at the given moment takes the retry while its message is still held back. */
  ghost predicate SweptWhileHeld(db: Db, n: Name, now: real, delay: real, maximum: real, timeout: real, moment: real)
    requires n in db.rows
  {
    && n in Stuck(Apply(db, RequeuePatch(db.rows, n, now, delay)), moment - timeout)
    && moment < now + Held(delay, maximum)
  }

  lemma StuckAfterRetry(db: Db, n: Name, now: real, delay: real, cutoff: real)
    requires WellFormed(db) && n in db.rows
    ensures n in Stuck(Apply(db, RequeuePatch(db.rows, n, now, delay)), cutoff) <==> now + delay < cutoff
  {
  }

  /** Some sweep takes a retry whose message is still held back, exactly when the message is held
      longer than the backoff and the timeout together. */
  lemma SweptEarlyIff(db: Db, n: Name, now: real, delay: real, maximum: real, timeout: real)
    requires WellFormed(db) && n in db.rows
    ensures (exists moment :: SweptWhileHeld(db, n, now, delay, maximum, timeout, moment)) <==>
            Held(delay, maximum) > delay + timeout
  {
    hide Stuck, RequeuePatch, WellFormed;
    forall moment ensures SweptWhileHeld(db, n, now, delay, maximum, timeout, moment) <==>
                          now + delay < moment - timeout && moment < now + Held(delay, maximum) {
      StuckAfterRetry(db, n, now, delay, moment - timeout);
    }
    if Held(delay, maximum) > delay + timeout {
      var gap := Held(delay, maximum) - delay - timeout;
      assert SweptWhileHeld(db, n, now, delay, maximum, timeout, now + delay + timeout + gap / 2.0);
    }
  }

  /** With a timeout of at least the longest holding time, no sweep ever takes a retry before its
      message is back on the queue, whatever the settings and the jitter. */
  lemma HealthyRetriesAreNotSwept(db: Db, n: Name, now: real, base: real, maximum: real, jitter: real, draw: real, timeout: real, moment: real)
    requires WellFormed(db) && n in db.rows && timeout >= Max(1.0, Ceil(maximum) as real)
    ensures !SweptWhileHeld(db, n, now, BackoffDelay(db.rows[n].retryCount + 1, base, maximum, jitter, draw).seconds, maximum, timeout, moment)
  {
    hide Stuck, RequeuePatch, WellFormed;
    var delay := BackoffDelay(db.rows[n].retryCount + 1, base, maximum, jitter, draw).seconds;
    StuckAfterRetry(db, n, now, delay, moment - timeout);
    if delay > 0.0 {
      HeldBounds(delay, maximum);
    }
  }
}
