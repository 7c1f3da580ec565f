/** Every run is finite: each effective step uses up work that is bounded when the run starts. */
module Termination {
  import opened Graphs
  import opened Tables
  import opened Invariant
  import opened Protocol
  import opened Guarantees

  /** Steps a row can still take: two per remaining attempt, one more if not yet dispatched. */
  function Rank(row: Row): int {
    var left := row.maxRetries - row.retryCount + 1;
    match row.status
    case Pending => 2 * left + 1
    case Queued => 2 * left
    case Running => 2 * left - 1
    case _ => 0
  }

  function Work(rows: Rows, names: seq<Name>): int
    requires forall n | n in names :: n in rows
  {
    if names == [] then 0 else Rank(rows[names[0]]) + Work(rows, names[1..])
  }

  function Measure(db: Db): int
    requires forall n | n in db.names :: n in db.rows
  {
    Work(db.rows, db.names) + (if db.run == RunRunning then 1 else 0)
  }

  /** The steps that move a row or the run, as opposed to declined deliveries and broker noise. */
  predicate Effective(s: System, a: Action) {
    match a
    case Deliver(msg, _) => Wins(s.db, msg.task)
    case Report(_) => true
    case Reclaim(_) => true
    case CancelRun => true
    case Repeat(_) => false
    case Lose(_) => false
  }

  function EffectiveSteps(s: System, acts: seq<Action>): nat
    requires Legal(s, acts)
    decreases acts
  {
    if acts == [] then 0
    else (if Effective(s, acts[0]) then 1 else 0) + EffectiveSteps(Next(s, acts[0]), acts[1..])
  }

  lemma {:induction false} WorkDrops(rows: Rows, rows': Rows, names: seq<Name>)
    requires forall n | n in names :: n in rows && n in rows' && Rank(rows'[n]) <= Rank(rows[n])
    ensures Work(rows', names) <= Work(rows, names)
    ensures forall n | n in names :: Work(rows', names) <= Work(rows, names) - (Rank(rows[n]) - Rank(rows'[n]))
  {
    if names != [] {
      WorkDrops(rows, rows', names[1..]);
      assert names == [names[0]] + names[1..];
    }
  }

  lemma {:induction false} WorkIsNatural(rows: Rows, names: seq<Name>)
    requires forall n | n in names :: n in rows && rows[n].retryCount <= rows[n].maxRetries
    ensures Work(rows, names) >= 0
  {
    if names != [] {
      WorkIsNatural(rows, names[1..]);
      assert names == [names[0]] + names[1..];
    }
  }

  lemma MoveLowersRank(row: Row, row': Row, run: RunStatus)
    requires Moves(row, row', run) && row.retryCount <= row.maxRetries && row'.retryCount <= row'.maxRetries
    ensures Rank(row') <= Rank(row)
    ensures row'.status != row.status || row'.retryCount != row.retryCount ==> Rank(row') < Rank(row)
  {
  }

  lemma StepLowersRanks(s: System, order: seq<Name>, a: Action)
    requires SysInv(s) && Topological(DepsOf(s.db.rows), order) && Enabled(s, a)
    ensures Next(s, a).db.names == s.db.names && s.db.rows.Keys == Next(s, a).db.rows.Keys
    ensures forall n | n in s.db.rows :: Rank(Next(s, a).db.rows[n]) <= Rank(s.db.rows[n])
    ensures forall n {:trigger Moved(s, Next(s, a), n)} | n in s.db.rows && Moved(s, Next(s, a), n) ::
              Rank(Next(s, a).db.rows[n]) < Rank(s.db.rows[n])
  {
    StepKeepsInv(s, order, a);
    forall n | n in s.db.rows
      ensures Rank(Next(s, a).db.rows[n]) <= Rank(s.db.rows[n])
      ensures Moved(s, Next(s, a), n) ==> Rank(Next(s, a).db.rows[n]) < Rank(s.db.rows[n])
    {
      StepMoves(s, a, n);
      assert RowInv(s.db.rows, s.db.run, n) && RowInv(Next(s, a).db.rows, Next(s, a).db.run, n);
      MoveLowersRank(s.db.rows[n], Next(s, a).db.rows[n], s.db.run);
    }
  }

  predicate Moved(s: System, s': System, n: Name) {
    n in s.db.rows && n in s'.db.rows
    && (s'.db.rows[n].status != s.db.rows[n].status || s'.db.rows[n].retryCount != s.db.rows[n].retryCount)
  }

  /** The row an effective step is about; a cancellation moves the run instead. */
  lemma EffectiveMoves(s: System, a: Action)
    requires SysInv(s) && Enabled(s, a) && Effective(s, a)
    ensures a.Deliver? ==> Moved(s, Next(s, a), a.msg.task)
    ensures a.Report? || a.Reclaim? ==> Moved(s, Next(s, a), a.outcome.task)
    ensures a.CancelRun? ==> s.db.run == RunRunning && Next(s, a).db.run == RunCancelled
  {
    match a
    case Report(o) => ReportMovesTask(s.db, o);
    case Reclaim(o) => ReportMovesTask(s.db, o);
    case Deliver(_, _) =>
    case CancelRun =>
  }

  lemma ReportMovesTask(db: Db, o: Outcome)
    requires DbInv(db) && o.task in db.rows && InFlight(db.rows[o.task])
    ensures o.task in Reported(db, o).rows
    ensures var row, row' := db.rows[o.task], Reported(db, o).rows[o.task];
            row'.status != row.status || row'.retryCount != row.retryCount
  {
    hide DbInv, ResolvePatch, MarkPatch, Reported, WellFormed;
    RunOfReport(db, o.task);
    if !o.ok && Retries(db, o.task) {
      RetriedReport(db, o);
    } else {
      var marked := SettledReport(db, o);
      ResolveMoves(marked, o.now, o.task);
    }
  }

  lemma StaysClosed(s: System, a: Action)
    requires SysInv(s) && Enabled(s, a) && s.db.run != RunRunning
    ensures Next(s, a).db.run == s.db.run
  {
    hide LogInv, DbInv, ReportPatch;
    match a
    case Report(o) =>
      InFlightMeansOpen(s.db, o.task);
      CancelledReportStays(s.db, o);
    case Reclaim(o) =>
      InFlightMeansOpen(s.db, o.task);
      CancelledReportStays(s.db, o);
    case Deliver(_, _) =>
    case Repeat(_) =>
    case Lose(_) =>
  }

  lemma CancelledReportStays(db: Db, o: Outcome)
    requires o.task in db.rows && db.run == RunCancelled
    ensures Apply(db, ReportPatch(db, o)).run == RunCancelled
  {
  }

  lemma StepDecreases(s: System, order: seq<Name>, a: Action)
    requires SysInv(s) && Topological(DepsOf(s.db.rows), order) && Enabled(s, a)
    ensures SysInv(Next(s, a))
    ensures Measure(Next(s, a).db) + (if Effective(s, a) then 1 else 0) <= Measure(s.db)
  {
    var s' := Next(s, a);
    StepKeepsInv(s, order, a);
    StepLowersRanks(s, order, a);
    if s.db.run != RunRunning {
      StaysClosed(s, a);
    }
    WorkDrops(s.db.rows, s'.db.rows, s.db.names);
    if Effective(s, a) {
      EffectiveMoves(s, a);
    }
  }

  /** However the steps are interleaved, the effective ones are paid for out of the measure. */
  lemma {:induction false} RunsAreFinite(s: System, order: seq<Name>, acts: seq<Action>)
    requires SysInv(s) && Topological(DepsOf(s.db.rows), order) && Legal(s, acts)
    ensures SysInv(Exec(s, acts))
    ensures 0 <= EffectiveSteps(s, acts) <= Measure(s.db) - Measure(Exec(s, acts).db)
    ensures 0 <= Measure(Exec(s, acts).db)
    decreases acts
  {
    if acts == [] {
      forall n | n in s.db.names ensures n in s.db.rows && s.db.rows[n].retryCount <= s.db.rows[n].maxRetries {
        assert RowInv(s.db.rows, s.db.run, n);
      }
      WorkIsNatural(s.db.rows, s.db.names);
    } else {
      var s' := Next(s, acts[0]);
      StepDecreases(s, order, acts[0]);
      StepKeepsInv(s, order, acts[0]);
      SameGraph(s.db.rows, s'.db.rows);
      RunsAreFinite(s', order, acts[1..]);
    }
  }

  /** Attempts and dispatches a workflow allows, two steps each, plus one to close the run. */
  function Budget(rows: Rows, names: seq<Name>): nat
    requires forall n | n in names :: n in rows
  {
    if names == [] then 1 else 2 * rows[names[0]].maxRetries + 3 + Budget(rows, names[1..])
  }

  lemma {:induction false} PendingWork(rows: Rows, names: seq<Name>)
    requires forall n | n in names :: n in rows && rows[n].status == Pending && rows[n].retryCount == 0
    ensures Work(rows, names) + 1 == Budget(rows, names)
  {
    if names != [] {
      PendingWork(rows, names[1..]);
      assert names == [names[0]] + names[1..];
    }
  }

  lemma SysWellFormed(s: System)
    requires SysInv(s)
    ensures WellFormed(s.db)
  {
  }

  lemma PendingRank(row: Row, row': Row, run: RunStatus)
    requires Moves(row, row', run) && row.status == Pending && row.retryCount <= row.maxRetries
    ensures Rank(row') <= Rank(row)
  {
  }

  lemma ResolveDecreases(db: Db, order: seq<Name>, now: real)
    requires Created(db) && Topological(DepsOf(db.rows), order)
    ensures WellFormed(Trigger(db, now).db) && Measure(Trigger(db, now).db) <= Measure(db)
  {
    hide SysInv, Topological, Trigger, ResolvePatch, Rank, Work;
    var after := Trigger(db, now).db;
    TriggerEstablishes(db, order, now);
    SysWellFormed(Trigger(db, now));
    TriggerDb(db, now);
    forall n | n in db.names ensures n in db.rows && n in after.rows && Rank(after.rows[n]) <= Rank(db.rows[n]) {
      ResolveMoves(db, now, n);
      PendingRank(db.rows[n], after.rows[n], db.run);
    }
    assert after.names == db.names;
    WorkDrops(db.rows, after.rows, db.names);
  }

  /** A run triggered on any workflow takes at most sum(2 * max_retries + 3) + 1 effective steps. */
  lemma RunLengthIsBounded(db: Db, order: seq<Name>, now: real, acts: seq<Action>, s: System)
    requires Reaches(db, order, now, acts, s)
    ensures forall n | n in db.names :: n in db.rows
    ensures EffectiveSteps(Trigger(db, now), acts) <= Budget(db.rows, db.names)
  {
    var start := Trigger(db, now);
    TriggerEstablishes(db, order, now);
    SameGraph(db.rows, start.db.rows);
    RunsAreFinite(start, order, acts);
    ResolveDecreases(db, order, now);
    PendingWork(db.rows, db.names);
  }

  /** Execution stops only where it should: no effective step is left exactly when the run is
      closed and no worker still holds a task. */
  lemma StopsOnlyWhenClosed(s: System)
    requires SysInv(s)
    ensures (forall a | Enabled(s, a) :: !Effective(s, a)) <==>
            s.db.run != RunRunning && forall n | n in s.db.rows :: s.db.rows[n].status != Running
  {
    if n :| n in s.db.rows && InFlight(s.db.rows[n]) {
      var a := Reclaim(Outcome(n, false, 0.0, 0.0));
      assert Enabled(s, a) && Effective(s, a);
      if s.db.run != RunRunning {
        InFlightMeansOpen(s.db, n);
      }
    } else {
      forall a | Enabled(s, a) ensures !Effective(s, a) || s.db.run == RunRunning {
      }
    }
  }
}
