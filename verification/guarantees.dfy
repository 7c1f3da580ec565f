/** What every run of the protocol keeps, from the trigger on: no stall, honest closing, dependency
    safety, exactly-once claims within budget, and final cancellation. */
module Guarantees {
  import opened Graphs
  import opened Tables
  import opened Invariant
  import opened Protocol

  /** s is a state some execution reaches from the trigger of a validated workflow. */
  ghost predicate Reaches(db: Db, order: seq<Name>, now: real, acts: seq<Action>, s: System) {
    && Created(db) && Topological(DepsOf(db.rows), order)
    && Legal(Trigger(db, now), acts) && s == Exec(Trigger(db, now), acts)
  }

  lemma ReachedState(db: Db, order: seq<Name>, now: real, acts: seq<Action>, s: System)
    requires Reaches(db, order, now, acts, s)
    ensures SysInv(s) && Topological(DepsOf(s.db.rows), order) && SameTasks(db.rows, s.db.rows)
  {
    var start := Trigger(db, now);
    TriggerEstablishes(db, order, now);
    SameGraph(db.rows, start.db.rows);
    RunKeepsInv(start, order, acts);
    SameGraph(start.db.rows, s.db.rows);
  }

  // ----- how one row moves -------------------------------------------------------------------

  /** The task state machine: what one step may do to one row. */
  ghost predicate Moves(row: Row, row': Row, run: RunStatus) {
    var requeued := row'.status == Queued && row'.retryCount == row.retryCount + 1;
    && row'.deps == row.deps && row'.maxRetries == row.maxRetries
    && (row' == row
        || (row.status == Pending && run == RunRunning && row'.retryCount == row.retryCount && row'.status in {Queued, Cancelled})
        || (row.status == Queued && run == RunRunning && (requeued || (row'.retryCount == row.retryCount && row'.status in {Running, Failed, Cancelled})))
        || (row.status == Running && ((run == RunRunning && requeued) || row' == row.(status := Success) || row' == row.(status := Failed))))
  }

  lemma MarkMoves(db: Db, n: Name, ok: bool, k: Name)
    requires DbInv(db) && n in db.rows && InFlight(db.rows[n]) && k in db.rows
    requires ok ==> db.rows[n].status == Running
    ensures var rows' := Apply(db, MarkPatch(db.rows, n, ok)).rows;
            Moves(db.rows[k], rows'[k], db.run) && (k != n ==> rows'[k] == db.rows[k])
  {
    InFlightMeansOpen(db, n);
  }

  lemma ResolveMoves(db: Db, now: real, k: Name)
    requires WellFormed(db) && k in db.rows
    requires db.run == RunRunning || db.run == RunCancelled
    ensures var rows' := Apply(db, ResolvePatch(db, now)).rows;
            k in rows' && Moves(db.rows[k], rows'[k], db.run) && (rows'[k] == db.rows[k] || db.rows[k].status == Pending)
  {
    RunnableIsQuiet(db);
  }

  lemma ReportMoves(db: Db, o: Outcome, k: Name)
    requires DbInv(db) && o.task in db.rows && InFlight(db.rows[o.task]) && k in db.rows
    requires o.ok ==> db.rows[o.task].status == Running
    ensures k in Reported(db, o).rows && Moves(db.rows[k], Reported(db, o).rows[k], db.run)
    ensures k == o.task ==> Reported(db, o).rows[k] != db.rows[k]
  {
    hide DbInv, ResolvePatch, MarkPatch, Reported, WellFormed;
    RunOfReport(db, o.task);
    if !o.ok && Retries(db, o.task) {
      RetriedReport(db, o);
    } else {
      var marked := SettledReport(db, o);
      MarkMoves(db, o.task, o.ok, k);
      ResolveMoves(marked, o.now, k);
    }
  }

  lemma StepMoves(s: System, a: Action, k: Name)
    requires SysInv(s) && Enabled(s, a) && k in s.db.rows
    ensures k in Next(s, a).db.rows && Moves(s.db.rows[k], Next(s, a).db.rows[k], s.db.run)
  {
    match a
    case Deliver(msg, w) =>
      if Wins(s.db, msg.task) {
        InFlightMeansOpen(s.db, msg.task);
      }
    case Report(o) => ReportMoves(s.db, o, k);
    case Reclaim(o) => ReportMoves(s.db, o, k);
    case CancelRun =>
    case Repeat(_) =>
    case Lose(_) =>
  }

  // ----- closing a run -----------------------------------------------------------------------

  lemma UnmetDependency(rows: Rows, order: seq<Name>, i: nat) returns (d: Name, x: nat)
    requires Topological(DepsOf(rows), order) && i < |order| && Quiet(rows)
    requires order[i] in rows && rows[order[i]].status == Pending
    ensures d in rows[order[i]].deps && d in rows && rows[d].status != Success
    ensures x < i && order[x] == d
  {
    assert !CanRun(rows, order[i]);
    d :| d in rows[order[i]].deps && !(d in rows && rows[d].status == Success);
    assert d in DepsOf(rows)[order[i]];
    assert Within(order, i, d);
    x :| 0 <= x < i && order[x] == d;
    assert d in DepsOf(rows);
  }

  lemma AloneIsChain(rows: Rows, n: Name)
    requires n in rows
    ensures Chain(DepsOf(rows), [n])
  {
  }

  lemma ChainAhead(rows: Rows, n: Name, p: seq<Name>)
    requires Chain(DepsOf(rows), p) && n in rows && p[0] in rows[n].deps
    ensures Chain(DepsOf(rows), [n] + p)
  {
  }

  /** A pending task that nothing can release has a failed ancestor. */
  lemma {:induction false} BlockedByFailure(rows: Rows, order: seq<Name>, i: nat) returns (p: seq<Name>)
    requires Topological(DepsOf(rows), order) && i < |order| && Quiet(rows)
    requires order[i] in rows && rows[order[i]].status == Pending
    requires forall n | n in rows :: rows[n].status in {Pending, Success, Failed}
    ensures |p| > 0 && Chain(DepsOf(rows), p) && p[0] == order[i] && p[|p| - 1] in rows && rows[p[|p| - 1]].status == Failed
    decreases i
  {
    hide Topological, Quiet, Chain;
    var d, x := UnmetDependency(rows, order, i);
    var q := [d];
    if rows[d].status == Pending {
      q := BlockedByFailure(rows, order, x);
    } else {
      AloneIsChain(rows, d);
    }
    ChainAhead(rows, order[i], q);
    p := [order[i]] + q;
  }

  /** Why a run is closed as failed: some task failed, nothing is in flight, and whatever is
      still pending waits, however indirectly, on a failed task. */
  ghost predicate HonestlyFailed(rows: Rows) {
    && AnyFailed(rows) && !AnyInFlight(rows)
    && forall n | n in rows && rows[n].status == Pending :: HasFailedAncestor(rows, n)
  }

  ghost predicate HasFailedAncestor(rows: Rows, n: Name) {
    exists p :: Chain(DepsOf(rows), p) && p[0] == n && FailedEnd(rows, p)
  }

  ghost predicate FailedEnd(rows: Rows, p: seq<Name>) {
    |p| > 0 && p[|p| - 1] in rows && rows[p[|p| - 1]].status == Failed
  }

  lemma FailedHonestly(db: Db, order: seq<Name>)
    requires DbInv(db) && Topological(DepsOf(db.rows), order) && db.run == RunFailed
    ensures HonestlyFailed(db.rows)
  {
    forall n | n in db.rows ensures db.rows[n].status in {Pending, Success, Failed} {
      assert RowInv(db.rows, db.run, n);
    }
    forall n | n in db.rows && db.rows[n].status == Pending ensures HasFailedAncestor(db.rows, n) {
      assert n in DepsOf(db.rows);
      var i :| 0 <= i < |order| && order[i] == n;
      var p := BlockedByFailure(db.rows, order, i);
      assert FailedEnd(db.rows, p);
    }
  }

  /** A cancelled run has nothing waiting. Any other run is completed exactly when every task
      succeeded, failed exactly when some task failed and nothing is left in flight, and otherwise
      still has work in flight and nothing waiting that could start. */
  ghost predicate Honest(db: Db) {
    match db.run
    case RunCancelled => forall n | n in db.rows :: db.rows[n].status !in {Pending, Queued}
    case _ =>
      && (db.run == RunCompleted <==> AllSuccess(db.rows))
      && (db.run == RunFailed <==> AnyFailed(db.rows) && !AnyInFlight(db.rows))
      && (db.run == RunFailed ==> HonestlyFailed(db.rows))
      && (db.run == RunRunning ==> AnyInFlight(db.rows) && Quiet(db.rows))
  }

  lemma RunStatusIsHonest(db: Db, order: seq<Name>, now: real, acts: seq<Action>, s: System)
    requires Reaches(db, order, now, acts, s)
    ensures Honest(s.db)
  {
    hide Reaches, HonestlyFailed;
    ReachedState(db, order, now, acts, s);
    if s.db.run == RunFailed {
      FailedHonestly(s.db, order);
    }
  }

  lemma TriggerDb(db: Db, now: real)
    ensures Trigger(db, now).db == Apply(db, ResolvePatch(db, now))
  {
    hide ResolvePatch;
  }

  lemma NothingFree(db: Db, now: real)
    requires Created(db) && forall n | n in db.rows :: db.rows[n].deps != []
    ensures ResolvePatch(db, now) == NO_CHANGE.(run := Some(RunCompleted))
  {
    hide DispatchPatch, WellFormed, Runnable;
    assert WellFormed(db);
    RunnableIsQuiet(db);
    forall n | n in db.rows ensures !CanRun(db.rows, n) && db.rows[n].status == Pending {
      assert db.rows[n].deps[0] in db.rows[n].deps;
    }
  }

  lemma FreeTaskStarts(db: Db, now: real, n: Name)
    requires Created(db) && n in db.rows && db.rows[n].deps == []
    ensures n in ResolvePatch(db, now).rows && ResolvePatch(db, now).rows[n].status == Queued
    ensures ResolvePatch(db, now).run == None
  {
    RunnableIsQuiet(db);
    assert CanRun(db.rows, n);
  }

  /** Without the check for cycles none of this holds: as soon as it is triggered, a run is closed
      as completed, with every task still pending, exactly when no task is free of dependencies. */
  lemma CompletedUnrunIff(db: Db, now: real)
    requires Created(db)
    ensures (Trigger(db, now).db.run == RunCompleted && Trigger(db, now).db.rows == db.rows) <==>
            forall n | n in db.rows :: db.rows[n].deps != []
  {
    hide ResolvePatch;
    TriggerDb(db, now);
    if n :| n in db.rows && db.rows[n].deps == [] {
      FreeTaskStarts(db, now, n);
    } else {
      NothingFree(db, now);
      assert db.rows + map[] == db.rows;
    }
  }

  lemma FirstIsFree(g: Graph, order: seq<Name>)
    requires Topological(g, order) && order != []
    ensures order[0] in g && g[order[0]] == []
  {
    if g[order[0]] != [] {
      FirstDep(g, order[0]);
      assert false;
    }
  }

  lemma FirstDep(g: Graph, n: Name)
    requires n in g && g[n] != []
    ensures exists d :: d in g[n]
  {
    assert g[n][0] in g[n];
  }

  /** In a validated run with tasks, that never happens: some task is free of dependencies. */
  lemma ValidatedRunsStart(db: Db, order: seq<Name>, now: real)
    requires Created(db) && Topological(DepsOf(db.rows), order) && db.names != []
    ensures Trigger(db, now).db.run == RunRunning && AnyInFlight(Trigger(db, now).db.rows)
  {
    hide ResolvePatch;
    assert db.names[0] in db.names && db.names[0] in DepsOf(db.rows) && db.names[0] in order;
    FirstIsFree(DepsOf(db.rows), order);
    TriggerDb(db, now);
    FreeTaskStarts(db, now, order[0]);
    var started := Trigger(db, now).db;
    assert order[0] in started.rows && InFlight(started.rows[order[0]]);
  }

  // ----- dependency safety -------------------------------------------------------------------

  predicate Dispatched(row: Row) {
    row.dispatchedAt.Some?
  }

  /** Everything a started task depends on, however indirectly, has succeeded. */
  lemma {:induction false} AncestorsSucceeded(db: Db, p: seq<Name>, i: nat)
    requires DbInv(db) && Chain(DepsOf(db.rows), p) && 0 < i < |p|
    requires db.rows[p[0]].status in {Queued, Running, Success, Failed}
    ensures db.rows[p[i]].status == Success
  {
    ChainStep(DepsOf(db.rows), p);
    assert RowInv(db.rows, db.run, p[0]);
    assert p[1] in db.rows[p[0]].deps;
    if i > 1 {
      AncestorsSucceeded(db, p[1..], i - 1);
    }
  }

  predicate Started(rows: Rows, n: Name) {
    n in rows && rows[n].status in {Queued, Running, Success, Failed}
  }

  /** In every reachable state, and for every dependency chain of a started task. */
  lemma DependencySafety(db: Db, order: seq<Name>, now: real, acts: seq<Action>, s: System, p: seq<Name>)
    requires Reaches(db, order, now, acts, s)
    ensures Chain(DepsOf(s.db.rows), p) && Started(s.db.rows, p[0]) ==> forall i | 0 < i < |p| :: s.db.rows[p[i]].status == Success
  {
    hide Reaches;
    ReachedState(db, order, now, acts, s);
    if Chain(DepsOf(s.db.rows), p) && Started(s.db.rows, p[0]) {
      forall i | 0 < i < |p| ensures s.db.rows[p[i]].status == Success {
        AncestorsSucceeded(s.db, p, i);
      }
    }
  }

  lemma {:induction false} SettledRowsStay(s: System, order: seq<Name>, acts: seq<Action>, n: Name)
    requires SysInv(s) && Topological(DepsOf(s.db.rows), order) && Legal(s, acts)
    requires n in s.db.rows && s.db.rows[n].status in {Success, Failed, Cancelled}
    ensures n in Exec(s, acts).db.rows && Exec(s, acts).db.rows[n] == s.db.rows[n]
    decreases acts
  {
    if acts != [] {
      var s' := Next(s, acts[0]);
      StepMoves(s, acts[0], n);
      StepKeepsInv(s, order, acts[0]);
      SameGraph(s.db.rows, s'.db.rows);
      SettledRowsStay(s', order, acts[1..], n);
    }
  }

  /** Once an ancestor has failed, no continuation ever starts the task. */
  lemma FailureBlocksForever(s: System, order: seq<Name>, acts: seq<Action>, p: seq<Name>)
    requires SysInv(s) && Topological(DepsOf(s.db.rows), order) && Legal(s, acts)
    requires Chain(DepsOf(s.db.rows), p) && |p| > 1 && FailedEnd(s.db.rows, p)
    ensures p[0] in Exec(s, acts).db.rows && Exec(s, acts).db.rows[p[0]].status in {Pending, Cancelled}
  {
    hide Topological, Legal, Exec, Chain, RowsInv, WellFormed;
    var t := Exec(s, acts);
    RunKeepsInv(s, order, acts);
    SameGraph(s.db.rows, t.db.rows);
    SettledRowsStay(s, order, acts, p[|p| - 1]);
    FailedEndBlocks(t.db, p);
  }

  lemma FailedEndBlocks(db: Db, p: seq<Name>)
    requires DbInv(db) && Chain(DepsOf(db.rows), p) && |p| > 1 && FailedEnd(db.rows, p)
    ensures p[0] in db.rows && db.rows[p[0]].status in {Pending, Cancelled}
  {
    ChainStep(DepsOf(db.rows), p);
    hide DbInv;
    if db.rows[p[0]].status !in {Pending, Cancelled} {
      AncestorsSucceeded(db, p, |p| - 1);
    }
  }

  // ----- exactly once, within budget ---------------------------------------------------------

  /** Claims won on the first k attempts of a task. */
  function ClaimsBelow(claims: multiset<Message>, n: Name, k: nat): nat {
    if k == 0 then 0 else ClaimsBelow(claims, n, k - 1) + claims[Message(n, k - 1)]
  }

  lemma {:induction false} AtMostOneEach(claims: multiset<Message>, n: Name, k: nat)
    requires forall a: nat | a < k :: claims[Message(n, a)] <= 1
    ensures ClaimsBelow(claims, n, k) <= k
  {
    if k > 0 {
      AtMostOneEach(claims, n, k - 1);
    }
  }

  /** An attempt is claimed at most once, no attempt beyond the current one is ever claimed, a
      task is claimed at most max_retries + 1 times, and retry_count is exactly the number of
      attempts that failed or were lost, one fewer when the task has failed. */
  ghost predicate OncePerAttempt(n: Name, row: Row, log: Log) {
    && (forall a: nat :: log.claims[Message(n, a)] <= if a <= row.retryCount then 1 else 0)
    && ClaimsBelow(log.claims, n, row.retryCount + 1) <= row.retryCount + 1 <= row.maxRetries + 1
    && (row.status in {Running, Success} ==> log.claims[Message(n, row.retryCount)] == 1)
    && log.losses[n] == row.retryCount + (if row.status == Failed then 1 else 0)
  }

  lemma LoggedOnce(n: Name, row: Row, log: Log)
    requires LogOk(n, row, log) && row.retryCount <= row.maxRetries
    ensures OncePerAttempt(n, row, log)
  {
    AtMostOneEach(log.claims, n, row.retryCount + 1);
  }

  /** However deliveries are repeated, lost or reordered. */
  lemma ExactlyOncePerAttempt(db: Db, order: seq<Name>, now: real, acts: seq<Action>, s: System, n: Name)
    requires Reaches(db, order, now, acts, s)
    ensures n in s.db.rows ==> OncePerAttempt(n, s.db.rows[n], s.log)
  {
    hide Reaches;
    ReachedState(db, order, now, acts, s);
    if n in s.db.rows {
      assert LogOk(n, s.db.rows[n], s.log);
      assert RowInv(s.db.rows, s.db.run, n);
      LoggedOnce(n, s.db.rows[n], s.log);
    }
  }

  /** Every message still on the broker announces an attempt that a committed row has reached;
      each attempt of a dispatched task is published once, and a dead letter is parked once,
      exactly for a failed task. */
  lemma PublicationsMatchRows(db: Db, order: seq<Name>, now: real, acts: seq<Action>, s: System)
    requires Reaches(db, order, now, acts, s)
    ensures forall m | m in s.broker ::
              m.task in s.db.rows && s.db.rows[m.task].status != Pending && m.attempt <= s.db.rows[m.task].retryCount
    ensures forall n, a: nat | n in s.db.rows ::
              s.log.published[Message(n, a)] == if Dispatched(s.db.rows[n]) && a <= s.db.rows[n].retryCount then 1 else 0
    ensures forall n, a: nat | n in s.db.rows ::
              s.log.deadLetters[Message(n, a)] == if s.db.rows[n].status == Failed && a == s.db.rows[n].retryCount then 1 else 0
  {
    ReachedState(db, order, now, acts, s);
    forall m | m in s.broker ensures m.task in s.db.rows && s.db.rows[m.task].status != Pending && m.attempt <= s.db.rows[m.task].retryCount {
      assert Traceable(m, s.db.rows);
      assert RowInv(s.db.rows, s.db.run, m.task);
    }
    forall n, a: nat | n in s.db.rows
      ensures s.log.published[Message(n, a)] == if Dispatched(s.db.rows[n]) && a <= s.db.rows[n].retryCount then 1 else 0
      ensures s.log.deadLetters[Message(n, a)] == if s.db.rows[n].status == Failed && a == s.db.rows[n].retryCount then 1 else 0
    {
      assert LogOk(n, s.db.rows[n], s.log);
    }
  }

  // ----- cancellation ------------------------------------------------------------------------

  /** What may still happen to a row after the run was cancelled. */
  predicate Winds(row: Row, row': Row) {
    row' == row || (row.status == Running && (row' == row.(status := Success) || row' == row.(status := Failed)))
  }

  lemma CancelledStep(s: System, a: Action)
    requires SysInv(s) && s.db.run == RunCancelled && Enabled(s, a)
    ensures Next(s, a).db.run == RunCancelled
    ensures Next(s, a).log.claims == s.log.claims && Next(s, a).log.published == s.log.published
  {
    match a
    case Deliver(msg, w) =>
      if Wins(s.db, msg.task) {
        InFlightMeansOpen(s.db, msg.task);
      }
    case Report(o) =>
      assert Messages(ReportPatch(s.db, o).outbox, false) == [];
    case Reclaim(o) =>
      assert Messages(ReportPatch(s.db, o).outbox, false) == [];
    case Repeat(_) =>
    case Lose(_) =>
  }

  /** After the cancellation, whatever messages are still around: the run stays cancelled, nothing
      is claimed, dispatched or requeued, and only the tasks that were running may move, once, to
      success or failed. */
  lemma {:induction false} CancellationIsFinal(s: System, order: seq<Name>, acts: seq<Action>)
    requires SysInv(s) && Topological(DepsOf(s.db.rows), order)
    requires s.db.run == RunCancelled && Legal(s, acts)
    ensures var t := Exec(s, acts);
            && t.db.run == RunCancelled && t.log.claims == s.log.claims && t.log.published == s.log.published
            && t.db.rows.Keys == s.db.rows.Keys
            && forall n | n in s.db.rows :: Winds(s.db.rows[n], t.db.rows[n])
    decreases acts
  {
    if acts != [] {
      var s' := Next(s, acts[0]);
      CancelledStep(s, acts[0]);
      StepKeepsInv(s, order, acts[0]);
      SameGraph(s.db.rows, s'.db.rows);
      CancellationIsFinal(s', order, acts[1..]);
      forall n | n in s.db.rows ensures Winds(s.db.rows[n], Exec(s, acts).db.rows[n]) {
        StepMoves(s, acts[0], n);
        assert RowInv(s.db.rows, s.db.run, n);
        assert Winds(s'.db.rows[n], Exec(s', acts[1..]).db.rows[n]);
      }
    }
  }

  /** The moment of cancellation: everything not running becomes cancelled, the rest is kept. */
  lemma CancelSettlesRows(s: System, order: seq<Name>, n: Name)
    requires SysInv(s) && Topological(DepsOf(s.db.rows), order) && s.db.run == RunRunning && n in s.db.rows
    ensures SysInv(Next(s, CancelRun)) && Next(s, CancelRun).db.run == RunCancelled
    ensures var row, row' := s.db.rows[n], Next(s, CancelRun).db.rows[n];
            row' == if row.status in {Pending, Queued} then row.(status := Cancelled) else row
  {
    StepKeepsInv(s, order, CancelRun);
  }
}
