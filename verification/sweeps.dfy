/** Overlapping sweeps (app/recovery.py). Within one queue timeout, however many sweeps, reports and
    claims overlap, each stranded attempt is charged once, and a task whose worker is alive is left
    to it. */
module Sweeps {
  import opened Graphs
  import opened Tables
  import opened Invariant
  import opened Protocol
  import opened Recovery
  import opened Concurrency

  /** Nobody alive will finish this attempt: its worker is gone, or it was due before `start` and
      has not been claimed. */
  predicate Stranded(row: Row, start: real, live: set<WorkerId>) {
    Orphaned(row, live) || StuckQueued(row, start)
  }

  /** The attempt is over, or the next one is not due before `start`. */
  predicate Settled(row: Row, start: real) {
    row.status == Success || row.status == Failed
    || (row.status == Queued && row.dispatchedAt.Some? && row.dispatchedAt.value >= start)
  }

  // ----- the window --------------------------------------------------------------------------

  /** Only workers that are alive throughout report, and every sweep finds them alive: each of them
      has beaten within the timeout in the heartbeats that the sweep has read. The clocks of the
      sweeps lie within the queue timeout. */
  ghost predicate RoleInWindow(role: Role, start: real, live: set<WorkerId>) {
    match role
    case Owner(w) => w in live
    case Sweeper(now, workers, heartbeatTimeout, queuedTimeout) =>
      && start <= now <= start + queuedTimeout
      && forall w | w in live :: w in workers && workers[w].Some? && workers[w].value >= now - heartbeatTimeout
  }

  ghost predicate JobsInWindow(jobs: seq<Outcome>, start: real) {
    forall i {:trigger jobs[i]} | 0 <= i < |jobs| :: jobs[i].now >= start
  }

  ghost predicate MoveInWindow(m: Move, start: real, live: set<WorkerId>) {
    && (m.Open? ==> RoleInWindow(m.role, start, live))
    && (m.Take? ==> JobsInWindow(m.jobs, start))
    && (m.Atomic? && m.action.Deliver? ==> m.action.worker in live)
  }

  ghost predicate InWindow(ms: seq<Move>, start: real, live: set<WorkerId>) {
    forall i {:trigger ms[i]} | 0 <= i < |ms| :: MoveInWindow(ms[i], start, live)
  }

  /** The jobs of a sweep are stranded attempts. */
  ghost predicate JobsStranded(rows: Rows, jobs: seq<Outcome>, start: real, live: set<WorkerId>) {
    forall i {:trigger jobs[i]} | 0 <= i < |jobs| :: jobs[i].task in rows && Stranded(rows[jobs[i].task], start, live)
  }

  ghost predicate TxInWindow(rows: Rows, tx: Tx, start: real, live: set<WorkerId>) {
    && RoleInWindow(tx.role, start, live) && JobsInWindow(tx.jobs, start)
    && (tx.role.Sweeper? ==> JobsStranded(rows, tx.jobs, start, live))
  }

  /** So it is when no transaction is open, and stays through every move within the window. */
  ghost predicate WindowInv(s: Shared, start: real, live: set<WorkerId>) {
    forall id {:trigger s.txs[id]} | id in s.txs :: TxInWindow(s.sys.db.rows, s.txs[id], start, live)
  }

  // ----- one report --------------------------------------------------------------------------

  lemma ResolveStamps(db: Db, now: real, k: Name)
    requires WellFormed(db) && k in db.rows
    ensures var rows' := Apply(db, ResolvePatch(db, now)).rows;
            k in rows' && (rows'[k] == db.rows[k] || rows'[k] == db.rows[k].(status := Queued, dispatchedAt := Some(now)))
    ensures db.rows[k].status != Pending ==> Apply(db, ResolvePatch(db, now)).rows[k] == db.rows[k]
  {
    RunnableIsQuiet(db);
  }

  /** A report settles its own task, and whatever else it touches it stamps with its time. */
  lemma ReportSettles(db: Db, o: Outcome, k: Name, start: real)
    requires DbInv(db) && o.task in db.rows && InFlight(db.rows[o.task]) && k in db.rows
    requires o.now >= start && o.delay >= 0.0
    ensures k in Reported(db, o).rows
    ensures Reported(db, o).rows[k] == db.rows[k] || Settled(Reported(db, o).rows[k], start)
    ensures k == o.task ==> Settled(Reported(db, o).rows[k], start)
  {
    hide DbInv, ResolvePatch, MarkPatch, Reported, WellFormed;
    RunOfReport(db, o.task);
    if !o.ok && Retries(db, o.task) {
      RetriedReport(db, o);
    } else {
      var marked := SettledReport(db, o);
      ResolveStamps(marked, o.now, k);
    }
  }

  /** What a transaction's first k reports make of the committed rows. */
  ghost predicate RowsSettled(db: Db, view: Db, jobs: seq<Outcome>, k: nat, start: real)
    requires k <= |jobs|
  {
    && view.rows.Keys == db.rows.Keys
    && (forall n {:trigger view.rows[n]} | n in db.rows :: view.rows[n] == db.rows[n] || Settled(view.rows[n], start))
    && (forall i {:trigger jobs[i]} | 0 <= i < k :: jobs[i].task in view.rows && Settled(view.rows[jobs[i].task], start))
  }

  lemma OneMoreSettled(db: Db, view: Db, jobs: seq<Outcome>, k: nat, start: real)
    requires k < |jobs| && RowsSettled(db, view, jobs, k, start)
    requires DbInv(view) && jobs[k].task in view.rows && InFlight(view.rows[jobs[k].task])
    requires SameTasks(view.rows, Reported(view, jobs[k]).rows) && jobs[k].now >= start && jobs[k].delay >= 0.0
    ensures RowsSettled(db, Reported(view, jobs[k]), jobs, k + 1, start)
  {
    hide DbInv, Reported, Settled, SameTasks;
    var after := Reported(view, jobs[k]);
    assert after.rows.Keys == view.rows.Keys by { SameKeys(view.rows, after.rows); }
    forall n | n in db.rows ensures after.rows[n] == db.rows[n] || Settled(after.rows[n], start) {
      ReportSettles(view, jobs[k], n, start);
      assert view.rows[n] == db.rows[n] || Settled(view.rows[n], start);
    }
    forall i | 0 <= i < k + 1 ensures jobs[i].task in after.rows && Settled(after.rows[jobs[i].task], start) {
      if i < k {
        assert Settled(view.rows[jobs[i].task], start);
      }
      ReportSettles(view, jobs[k], jobs[i].task, start);
    }
  }

  lemma SameKeys(rows: Rows, rows': Rows)
    requires SameTasks(rows, rows')
    ensures rows'.Keys == rows.Keys
  {
  }

  lemma {:induction false} CommitSettles(db: Db, order: seq<Name>, role: Role, jobs: seq<Outcome>, writes: seq<Patch>, k: nat, start: real)
    requires DbInv(db) && Topological(DepsOf(db.rows), order) && JobsOk(db.rows, jobs) && RoleOk(db.rows, role, jobs)
    requires k <= |jobs| && k <= |writes| && Faithful(db, jobs, writes, k) && JobsInWindow(jobs, start)
    ensures RowsSettled(db, ViewAt(db, writes, k), jobs, k, start)
  {
    hide ReportPatch, DbInv, Topological, JobsOk, RowsSettled, SameTasks;
    if k == 0 {
      NothingSettled(db, jobs, start);
    } else {
      CommitSettles(db, order, role, jobs, writes, k - 1, start);
      OwnRow(db, order, jobs, writes, k - 1);
      ViewsAreGood(db, order, jobs, writes, k - 1);
      var view := ViewAt(db, writes, k - 1);
      SameGraph(db.rows, view.rows);
      ReportKeepsInv(view, order, jobs[k - 1]);
      assert BatchOk(db, jobs, writes, k - 1);
      assert Reports(role, jobs[k - 1]) && jobs[k - 1].now >= start;
      OneMoreSettled(db, view, jobs, k - 1, start);
    }
  }

  lemma NothingSettled(db: Db, jobs: seq<Outcome>, start: real)
    ensures RowsSettled(db, db, jobs, 0, start)
  {
  }

  // ----- one move ----------------------------------------------------------------------------

  /** A sweep that has taken n commits. */
  ghost predicate SweepCommits(s: Shared, m: Move, n: Name) {
    m.CommitTx? && m.id in s.txs && s.txs[m.id].role.Sweeper? && Locks(s.txs[m.id], n)
  }

  /** The worker that holds n reports on it. */
  ghost predicate OwnerCommits(s: Shared, m: Move, n: Name) {
    m.CommitTx? && m.id in s.txs && s.txs[m.id].role.Owner? && Locks(s.txs[m.id], n)
  }

  /** No move strands an attempt, and a sweep's commit ends the ones it has taken. */
  ghost predicate RowStep(s: Shared, m: Move, s': Shared, n: Name, start: real, live: set<WorkerId>) {
    && n in s'.sys.db.rows
    && (n in s.sys.db.rows && Stranded(s'.sys.db.rows[n], start, live) ==> Stranded(s.sys.db.rows[n], start, live))
    && (SweepCommits(s, m, n) ==> n in s.sys.db.rows && Stranded(s.sys.db.rows[n], start, live) && !Stranded(s'.sys.db.rows[n], start, live))
  }

  lemma LockedStayStranded(db: Db, db': Db, tx: Tx, start: real, live: set<WorkerId>)
    requires SameLocked(db, db', tx.jobs) && TxInWindow(db.rows, tx, start, live)
    ensures TxInWindow(db'.rows, tx, start, live)
  {
    if tx.role.Sweeper? {
      forall i | 0 <= i < |tx.jobs| ensures tx.jobs[i].task in db'.rows && Stranded(db'.rows[tx.jobs[i].task], start, live) {
        assert Stranded(db.rows[tx.jobs[i].task], start, live) && Reportable(db'.rows, tx.jobs[i]);
      }
    }
  }

  lemma CommitDb(s: Shared, order: seq<Name>, id: TxId)
    requires SharedInv(s, order) && Ready(s, CommitTx(id))
    ensures After(s, CommitTx(id)).sys.db == View(s.sys.db, s.txs[id])
  {
    hide DbInv, LogInv, Topological, JobsOk, RoleOk, Faithful, Light, CommitAll;
    assert TxInv(s.sys.db, s.holder == Some(id), s.txs[id]);
    CommitIsReports(s.sys, order, s.txs[id], |s.txs[id].jobs|);
  }

  lemma CommitStep(s: Shared, order: seq<Name>, id: TxId, n: Name, start: real, live: set<WorkerId>)
    requires SharedInv(s, order) && Ready(s, CommitTx(id)) && WindowInv(s, start, live) && n in s.sys.db.rows
    ensures RowStep(s, CommitTx(id), After(s, CommitTx(id)), n, start, live)
  {
    hide DbInv, LogInv, Topological, JobsOk, RoleOk, Faithful, Light, RoleInWindow, After, View, ViewAt, Exclusive, Marked;
    var db, tx := s.sys.db, s.txs[id];
    assert TxInv(db, s.holder == Some(id), tx);
    assert TxInWindow(db.rows, tx, start, live);
    CommitDb(s, order, id);
    CommitSettles(db, order, tx.role, tx.jobs, tx.writes, |tx.jobs|, start);
    IdleView(db, tx);
    if Locks(tx, n) {
      var i :| 0 <= i < |tx.jobs| && tx.jobs[i].task == n;
      assert Settled(View(db, tx).rows[tx.jobs[i].task], start);
      assert tx.role.Sweeper? ==> Stranded(db.rows[tx.jobs[i].task], start, live);
    }
  }

  lemma IdleView(db: Db, tx: Tx)
    requires IsIdle(tx)
    ensures View(db, tx) == ViewAt(db, tx.writes, |tx.jobs|)
  {
  }

  lemma CommitKeepsWindow(s: Shared, order: seq<Name>, id: TxId, start: real, live: set<WorkerId>)
    requires SharedInv(s, order) && Ready(s, CommitTx(id)) && WindowInv(s, start, live)
    ensures WindowInv(After(s, CommitTx(id)), start, live)
  {
    hide DbInv, LogInv, Topological, JobsOk, RoleOk, Faithful, Light, SameLocked, TxInWindow, CommitAll, View, Marked;
    var db, tx, s' := s.sys.db, s.txs[id], After(s, CommitTx(id));
    CommitDb(s, order, id);
    assert TxInv(db, s.holder == Some(id), tx);
    forall i | i in s'.txs ensures TxInWindow(s'.sys.db.rows, s'.txs[i], start, live) {
      assert TxInv(db, s.holder == Some(i), s.txs[i]);
      assert TxInWindow(db.rows, s.txs[i], start, live);
      forall n ensures !(Locks(tx, n) && Locks(s.txs[i], n)) {
        assert !(Locks(s.txs[id], n) && Locks(s.txs[i], n));
      }
      CommitSparesLocked(db, order, tx, s.txs[i]);
      LockedStayStranded(db, s'.sys.db, s.txs[i], start, live);
    }
  }

  lemma ClaimKeepsWindow(s: Shared, order: seq<Name>, msg: Message, w: WorkerId, start: real, live: set<WorkerId>)
    requires SharedInv(s, order) && Ready(s, Atomic(Deliver(msg, w))) && WindowInv(s, start, live)
    ensures WindowInv(After(s, Atomic(Deliver(msg, w))), start, live)
  {
    hide SysInv, Topological, JobsOk, RoleOk, SameLocked, TxInWindow;
    var s' := After(s, Atomic(Deliver(msg, w)));
    forall i | i in s'.txs ensures TxInWindow(s'.sys.db.rows, s'.txs[i], start, live) {
      assert TxInv(s.sys.db, s.holder == Some(i), s.txs[i]);
      assert TxInWindow(s.sys.db.rows, s.txs[i], start, live);
      ClaimSparesLocked(s.sys.db, msg.task, w, s.txs[i]);
      LockedStayStranded(s.sys.db, s'.sys.db, s.txs[i], start, live);
    }
  }

  /** Whatever a sweep within the window selects is stranded. */
  lemma ChosenIsStranded(role: Role, selection: Selection, row: Row, start: real, live: set<WorkerId>)
    requires role.Sweeper? && RoleInWindow(role, start, live) && Chosen(role, selection, row)
    ensures Stranded(row, start, live)
  {
  }

  lemma TakeKeepsWindow(s: Shared, order: seq<Name>, id: TxId, selection: Selection, jobs: seq<Outcome>, start: real, live: set<WorkerId>)
    requires SharedInv(s, order) && Ready(s, Take(id, selection, jobs)) && WindowInv(s, start, live) && JobsInWindow(jobs, start)
    ensures WindowInv(After(s, Take(id, selection, jobs)), start, live)
  {
    hide SharedInv, Picked, View, Reports, IsIdle, RoleInWindow, Stranded, Chosen;
    var s', tx := After(s, Take(id, selection, jobs)), s.txs[id];
    assert TxInWindow(s.sys.db.rows, tx, start, live);
    var all := tx.jobs + jobs;
    forall i | 0 <= i < |all|
      ensures all[i].now >= start
      ensures tx.role.Sweeper? ==> all[i].task in s.sys.db.rows && Stranded(s.sys.db.rows[all[i].task], start, live)
    {
      if i < |tx.jobs| {
        assert all[i] == tx.jobs[i];
      } else {
        var j := i - |tx.jobs|;
        assert all[i] == jobs[j];
        if tx.role.Sweeper? {
          assert Named(jobs, jobs[j].task);
          SweeperAsks(s, id, selection, jobs);
          PickedIsCommitted(s, order, id, selection, jobs[j].task);
          ChosenIsStranded(tx.role, selection, s.sys.db.rows[jobs[j].task], start, live);
        }
      }
    }
    forall i | i in s'.txs ensures TxInWindow(s'.sys.db.rows, s'.txs[i], start, live) {
      if i != id {
        assert TxInWindow(s.sys.db.rows, s.txs[i], start, live);
      }
    }
  }

  /** A sweep never asks for a worker's own row. */
  lemma SweeperAsks(s: Shared, id: TxId, selection: Selection, jobs: seq<Outcome>)
    requires Ready(s, Take(id, selection, jobs)) && s.txs[id].role.Sweeper?
    ensures selection != OwnRows
  {
  }

  lemma NothingInWindow(rows: Rows, role: Role, start: real, live: set<WorkerId>)
    requires RoleInWindow(role, start, live)
    ensures TxInWindow(rows, Tx(role, [], [], false), start, live)
  {
  }

  /** The moves that change no committed row. */
  lemma QuietMove(s: Shared, order: seq<Name>, m: Move, start: real, live: set<WorkerId>)
    requires SharedInv(s, order) && Ready(s, m) && MoveInWindow(m, start, live) && WindowInv(s, start, live)
    requires !m.CommitTx? && !(m.Atomic? && m.action.Deliver?)
    ensures WindowInv(After(s, m), start, live) && After(s, m).sys.db == s.sys.db
  {
    hide SharedInv, MayTake, MayFlush, MayTick, TxInWindow, RoleInWindow, MarkPatch, RequeuePatch, ResolvePatch;
    match m
    case Open(_, role) => NothingInWindow(s.sys.db.rows, role, start, live);
    case Take(id, selection, jobs) => TakeKeepsWindow(s, order, id, selection, jobs, start, live);
    case Flush(id) => SameJobsInWindow(s.sys.db.rows, s.txs[id], Flushed(s.sys.db, s.txs[id]), start, live);
    case Tick(id) => SameJobsInWindow(s.sys.db.rows, s.txs[id], Ticked(s.sys.db, s.txs[id]), start, live);
    case Rollback(_) =>
    case Atomic(_) =>
  }

  lemma SameJobsInWindow(rows: Rows, tx: Tx, tx': Tx, start: real, live: set<WorkerId>)
    requires TxInWindow(rows, tx, start, live) && tx'.role == tx.role && tx'.jobs == tx.jobs
    ensures TxInWindow(rows, tx', start, live)
  {
  }

  lemma WindowStep(s: Shared, order: seq<Name>, m: Move, n: Name, start: real, live: set<WorkerId>)
    requires SharedInv(s, order) && Ready(s, m) && MoveInWindow(m, start, live) && WindowInv(s, start, live) && n in s.sys.db.rows
    ensures WindowInv(After(s, m), start, live) && RowStep(s, m, After(s, m), n, start, live)
  {
    hide SharedInv, WindowInv, Ready;
    if m.CommitTx? {
      CommitKeepsWindow(s, order, m.id, start, live);
      CommitStep(s, order, m.id, n, start, live);
    } else if m.Atomic? && m.action.Deliver? {
      ClaimKeepsWindow(s, order, m.action.msg, m.action.worker, start, live);
    } else {
      QuietMove(s, order, m, start, live);
    }
  }

  // ----- counting charges --------------------------------------------------------------------

  /** How often a sweep charges task n. */
  ghost function SweepCharges(s: Shared, ms: seq<Move>, n: Name): nat
    requires AllReady(s, ms)
    decreases ms
  {
    if ms == [] then 0
    else (if SweepCommits(s, ms[0], n) then 1 else 0) + SweepCharges(After(s, ms[0]), ms[1..], n)
  }

  ghost predicate OwnerFails(s: Shared, m: Move, n: Name) {
    m.CommitTx? && m.id in s.txs && s.txs[m.id].role.Owner? && Fails(s.txs[m.id].jobs, |s.txs[m.id].jobs|, n)
  }

  /** How often the worker that holds n reports a failure. */
  ghost function OwnerFailures(s: Shared, ms: seq<Move>, n: Name): nat
    requires AllReady(s, ms)
    decreases ms
  {
    if ms == [] then 0
    else (if OwnerFails(s, ms[0], n) then 1 else 0) + OwnerFailures(After(s, ms[0]), ms[1..], n)
  }

  predicate Fails(jobs: seq<Outcome>, k: nat, n: Name)
    requires k <= |jobs|
  {
    exists i | 0 <= i < k :: jobs[i].task == n && !jobs[i].ok
  }

  lemma {:induction false} CommitCharges(s: System, tx: Tx, k: nat, n: Name)
    requires k <= |tx.writes| && k <= |tx.jobs| && DistinctTasks(tx.jobs)
    ensures CommitAll(s, tx, k).log.losses[n] == s.log.losses[n] + if Fails(tx.jobs, k, n) then 1 else 0
  {
    hide CommitBatch, Fails;
    if k == 0 {
      NobodyFails(tx.jobs, n);
    } else {
      CommitCharges(s, tx, k - 1, n);
      BatchCharges(CommitAll(s, tx, k - 1), tx.writes[k - 1], tx.jobs[k - 1], n);
      OneMoreFails(tx.jobs, k, n);
    }
  }

  lemma NobodyFails(jobs: seq<Outcome>, n: Name)
    ensures !Fails(jobs, 0, n)
  {
  }

  lemma OneMoreFails(jobs: seq<Outcome>, k: nat, n: Name)
    requires 0 < k <= |jobs| && DistinctTasks(jobs)
    ensures Fails(jobs, k, n) <==> Fails(jobs, k - 1, n) || (jobs[k - 1].task == n && !jobs[k - 1].ok)
    ensures !(Fails(jobs, k - 1, n) && jobs[k - 1].task == n)
  {
  }

  lemma BatchCharges(s: System, p: Patch, o: Outcome, n: Name)
    ensures CommitBatch(s, p, o).log.losses[n] == s.log.losses[n] + if o.task == n && !o.ok then 1 else 0
  {
    hide Sent, Parked;
  }

  lemma SweeperFails(s: Shared, order: seq<Name>, id: TxId, n: Name)
    requires SharedInv(s, order) && id in s.txs && s.txs[id].role.Sweeper?
    ensures Fails(s.txs[id].jobs, |s.txs[id].jobs|, n) <==> Locks(s.txs[id], n)
  {
    hide SysInv, Topological, JobsOk, Faithful, Light, Marked;
    assert TxInv(s.sys.db, s.holder == Some(id), s.txs[id]);
    if i :| 0 <= i < |s.txs[id].jobs| && s.txs[id].jobs[i].task == n {
      assert Reports(s.txs[id].role, s.txs[id].jobs[i]);
    }
  }

  lemma MoveCharges(s: Shared, order: seq<Name>, m: Move, n: Name)
    requires SharedInv(s, order) && Ready(s, m)
    ensures After(s, m).sys.log.losses[n] ==
            s.sys.log.losses[n] + (if SweepCommits(s, m, n) then 1 else 0) + (if OwnerFails(s, m, n) then 1 else 0)
  {
    hide SysInv, Topological, JobsOk, RoleOk, Faithful, Light, Marked, Locks, Fails, CommitAll, MayTake;
    if m.CommitTx? {
      var tx := s.txs[m.id];
      assert TxInv(s.sys.db, s.holder == Some(m.id), tx);
      JobsDistinct(s.sys.db.rows, tx.jobs);
      CommitCharges(s.sys, tx, |tx.jobs|, n);
      if tx.role.Sweeper? {
        SweeperFails(s, order, m.id, n);
      }
    }
  }

  /** The accounts: each attempt given up for lost was charged by a sweep, or reported by its worker. */
  lemma {:induction false} LossesAreCharges(s: Shared, order: seq<Name>, ms: seq<Move>, n: Name)
    requires SharedInv(s, order) && AllReady(s, ms)
    ensures Overlap(s, ms).sys.log.losses[n] == s.sys.log.losses[n] + SweepCharges(s, ms, n) + OwnerFailures(s, ms, n)
    decreases ms
  {
    hide SharedInv, After, Ready, SweepCommits, OwnerFails;
    if ms != [] {
      MoveRefines(s, order, ms[0]);
      MoveCharges(s, order, ms[0], n);
      LossesAreCharges(After(s, ms[0]), order, ms[1..], n);
    }
  }

  lemma RestInWindow(ms: seq<Move>, start: real, live: set<WorkerId>)
    requires ms != [] && InWindow(ms, start, live)
    ensures MoveInWindow(ms[0], start, live) && InWindow(ms[1..], start, live)
  {
    hide MoveInWindow;
    forall i | 0 <= i < |ms| - 1 ensures MoveInWindow(ms[1..][i], start, live) {
      assert ms[1..][i] == ms[i + 1];
    }
  }

  /** Any number of sweeps, reports, claims and rollbacks, overlapping in any way within the queue
      timeout: a task is charged by a sweep at most once, not at all unless it was stranded, and
      once it has been charged it is not stranded any more. */
  lemma {:induction false} OverlappingSweepsChargeOnce(s: Shared, order: seq<Name>, ms: seq<Move>, n: Name, start: real, live: set<WorkerId>)
    requires SharedInv(s, order) && WindowInv(s, start, live) && AllReady(s, ms) && InWindow(ms, start, live)
    requires n in s.sys.db.rows
    ensures SharedInv(Overlap(s, ms), order) && WindowInv(Overlap(s, ms), start, live) && n in Overlap(s, ms).sys.db.rows
    ensures SweepCharges(s, ms, n) + (if Stranded(Overlap(s, ms).sys.db.rows[n], start, live) then 1 else 0)
            <= if Stranded(s.sys.db.rows[n], start, live) then 1 else 0
    decreases ms
  {
    hide SharedInv, WindowInv, After, Ready, SweepCommits, Stranded, MoveInWindow, InWindow;
    if ms != [] {
      RestInWindow(ms, start, live);
      MoveRefines(s, order, ms[0]);
      WindowStep(s, order, ms[0], n, start, live);
      OverlappingSweepsChargeOnce(After(s, ms[0]), order, ms[1..], n, start, live);
    }
  }

  // ----- sweeps are never stuck --------------------------------------------------------------

  ghost function PickedAmong(s: Shared, id: TxId, selection: Selection, names: seq<Name>): (r: seq<Outcome>)
    requires id in s.txs && s.txs[id].role.Sweeper?
    ensures forall n :: Named(r, n) <==> n in names && Picked(s, id, selection, n)
    ensures Distinct(names) ==> DistinctTasks(r)
    ensures forall i {:trigger r[i]} | 0 <= i < |r| :: Reports(s.txs[id].role, r[i])
  {
    if names == [] then []
    else
      var last := |names| - 1;
      var rest := PickedAmong(s, id, selection, names[..last]);
      PickOneMore(s, id, selection, names, rest);
      if Picked(s, id, selection, names[last]) then rest + [Outcome(names[last], false, s.txs[id].role.now, 0.0)] else rest
  }

  lemma PickOneMore(s: Shared, id: TxId, selection: Selection, names: seq<Name>, rest: seq<Outcome>)
    requires id in s.txs && s.txs[id].role.Sweeper? && names != []
    requires forall n :: Named(rest, n) <==> n in names[..|names| - 1] && Picked(s, id, selection, n)
    requires Distinct(names[..|names| - 1]) ==> DistinctTasks(rest)
    requires forall i {:trigger rest[i]} | 0 <= i < |rest| :: Reports(s.txs[id].role, rest[i])
    ensures var last := |names| - 1;
            var r := if Picked(s, id, selection, names[last]) then rest + [Outcome(names[last], false, s.txs[id].role.now, 0.0)] else rest;
            && (forall n :: Named(r, n) <==> n in names && Picked(s, id, selection, n))
            && (Distinct(names) ==> DistinctTasks(r))
            && (forall i {:trigger r[i]} | 0 <= i < |r| :: Reports(s.txs[id].role, r[i]))
  {
    hide Picked;
    var last := |names| - 1;
    assert names == names[..last] + [names[last]];
    var o := Outcome(names[last], false, s.txs[id].role.now, 0.0);
    var r := if Picked(s, id, selection, names[last]) then rest + [o] else rest;
    forall n ensures Named(r, n) <==> n in names && Picked(s, id, selection, n) {
      assert Named(rest, n) <==> n in names[..last] && Picked(s, id, selection, n);
      if Picked(s, id, selection, names[last]) {
        assert r[|rest|] == o;
        assert Named(r, n) <==> Named(rest, n) || n == names[last] by {
          if i :| 0 <= i < |rest| && rest[i].task == n {
            assert r[i] == rest[i];
          }
        }
      }
    }
    if Distinct(names) {
      forall i | 0 <= i < |rest| ensures rest[i].task != names[last] {
        assert Named(rest, rest[i].task);
      }
    }
  }

  /** An idle sweep can always go on: there is a list of rows for its statement to take. */
  lemma SweepsCanAlwaysTake(s: Shared, order: seq<Name>, id: TxId, selection: Selection) returns (jobs: seq<Outcome>)
    requires SharedInv(s, order) && id in s.txs && s.txs[id].role.Sweeper? && IsIdle(s.txs[id]) && selection != OwnRows
    ensures Ready(s, Take(id, selection, jobs))
  {
    jobs := PickedAmong(s, id, selection, s.sys.db.names);
    forall n | Picked(s, id, selection, n) ensures n in s.sys.db.names {
      PickedIsCommitted(s, order, id, selection, n);
    }
  }

  // ----- exactly once ------------------------------------------------------------------------

  ghost predicate SweeperHolds(s: Shared, id: TxId, n: Name) {
    id in s.txs && s.txs[id].role.Sweeper? && Locks(s.txs[id], n)
  }

  ghost predicate NoRollback(ms: seq<Move>) {
    forall i {:trigger ms[i]} | 0 <= i < |ms| :: !ms[i].Rollback?
  }

  lemma HoldsOn(s: Shared, m: Move, id: TxId, n: Name)
    requires Ready(s, m) && SweeperHolds(s, id, n) && !m.Rollback?
    ensures SweepCommits(s, m, n) || SweeperHolds(After(s, m), id, n)
  {
    hide CommitAll, Next, MarkPatch, RequeuePatch, ResolvePatch, View, MayTake;
    if m.Take? && m.id == id {
      var i :| 0 <= i < |s.txs[id].jobs| && s.txs[id].jobs[i].task == n;
      assert (s.txs[id].jobs + m.jobs)[i] == s.txs[id].jobs[i];
    }
  }

  /** A row that a sweep has taken is charged, unless the sweep is rolled back. */
  lemma {:induction false} HeldIsCharged(s: Shared, ms: seq<Move>, id: TxId, n: Name)
    requires AllReady(s, ms) && NoRollback(ms) && SweeperHolds(s, id, n) && Overlap(s, ms).txs == map[]
    ensures SweepCharges(s, ms, n) >= 1
    decreases ms
  {
    hide After, Ready, SweepCommits, Locks;
    if ms != [] {
      assert !ms[0].Rollback?;
      HoldsOn(s, ms[0], id, n);
      assert NoRollback(ms[1..]) by {
        forall i | 0 <= i < |ms| - 1 ensures !ms[1..][i].Rollback? {
          assert !ms[i + 1].Rollback?;
        }
      }
      if SweeperHolds(After(s, ms[0]), id, n) {
        HeldIsCharged(After(s, ms[0]), ms[1..], id, n);
      }
    }
  }

  /** What a sweep's statement selects is taken by it, or already held by another sweep. */
  lemma SelectedIsHeld(s: Shared, order: seq<Name>, id: TxId, selection: Selection, jobs: seq<Outcome>, n: Name, start: real, live: set<WorkerId>)
      returns (holder: TxId)
    requires SharedInv(s, order) && WindowInv(s, start, live) && Ready(s, Take(id, selection, jobs)) && s.txs[id].role.Sweeper?
    requires n in View(s.sys.db, s.txs[id]).rows && Chosen(s.txs[id].role, selection, View(s.sys.db, s.txs[id]).rows[n])
    ensures SweeperHolds(After(s, Take(id, selection, jobs)), holder, n)
  {
    hide SysInv, Topological, JobsOk, RoleOk, Faithful, Light, Marked, View, Reports, RoleInWindow, Stranded;
    var s' := After(s, Take(id, selection, jobs));
    if FreeOfOthers(s, id, n) {
      assert Picked(s, id, selection, n);
      holder := id;
      var i :| 0 <= i < |jobs| && jobs[i].task == n;
      assert s'.txs[id].jobs[|s.txs[id].jobs| + i] == jobs[i];
    } else {
      holder :| holder in s.txs && holder != id && Locks(s.txs[holder], n);
      assert !(Locks(s.txs[holder], n) && Locks(s.txs[id], n));
      SelectedRow(s, order, id, n);
      assert TxInWindow(s.sys.db.rows, s.txs[id], start, live);
      ChosenIsStranded(s.txs[id].role, selection, s.sys.db.rows[n], start, live);
      OwnerHoldsNothingStranded(s, order, holder, n, start, live);
    }
  }

  lemma SelectedRow(s: Shared, order: seq<Name>, id: TxId, n: Name)
    requires SharedInv(s, order) && id in s.txs && IsIdle(s.txs[id]) && s.txs[id].role.Sweeper? && !Locks(s.txs[id], n)
    requires n in View(s.sys.db, s.txs[id]).rows || n in s.sys.db.rows
    ensures n in View(s.sys.db, s.txs[id]).rows && n in s.sys.db.rows && View(s.sys.db, s.txs[id]).rows[n] == s.sys.db.rows[n]
  {
    hide DbInv, LogInv, Topological, JobsOk, RoleOk, Faithful, Light, Marked, View;
    var db, tx := s.sys.db, s.txs[id];
    assert TxInv(db, s.holder == Some(id), tx);
    SweepView(db, order, tx.role, tx.jobs, tx.writes, |tx.jobs|);
    IdleView(db, tx);
  }

  /** What a live worker's transaction holds is not stranded. */
  lemma OwnerHoldsNothingStranded(s: Shared, order: seq<Name>, holder: TxId, n: Name, start: real, live: set<WorkerId>)
    requires SharedInv(s, order) && WindowInv(s, start, live) && holder in s.txs && Locks(s.txs[holder], n) && n in s.sys.db.rows
    ensures s.txs[holder].role.Owner? ==> !Stranded(s.sys.db.rows[n], start, live)
  {
    hide SysInv, Topological, JobsOk, Faithful, Light, Marked;
    assert TxInv(s.sys.db, s.holder == Some(holder), s.txs[holder]);
    assert TxInWindow(s.sys.db.rows, s.txs[holder], start, live);
    var i :| 0 <= i < |s.txs[holder].jobs| && s.txs[holder].jobs[i].task == n;
    assert Reports(s.txs[holder].role, s.txs[holder].jobs[i]);
  }

  lemma {:induction false} ChargesConcat(s: Shared, a: seq<Move>, b: seq<Move>, n: Name)
    requires AllReady(s, a) && AllReady(Overlap(s, a), b)
    ensures AllReady(s, a + b) && Overlap(s, a + b) == Overlap(Overlap(s, a), b)
    ensures SweepCharges(s, a + b, n) == SweepCharges(s, a, n) + SweepCharges(Overlap(s, a), b, n)
    decreases a
  {
    hide After, Ready, SweepCommits;
    if a == [] {
      assert a + b == b;
    } else {
      ChargesConcat(After(s, a[0]), a[1..], b, n);
      assert (a + b)[1..] == a[1..] + b;
    }
  }

  /** If some sweep's statement selects the task, and no transaction is rolled back or left open, the
      stranded attempt is charged by exactly one sweep of all those that overlap. */
  lemma StrandedIsChargedExactlyOnce(s: Shared, order: seq<Name>, before: seq<Move>, after: seq<Move>, n: Name, start: real, live: set<WorkerId>)
    requires SharedInv(s, order) && WindowInv(s, start, live) && n in s.sys.db.rows
    requires AllReady(s, before) && InWindow(before, start, live)
    requires var mid := Overlap(s, before);
             && AllReady(mid, after) && InWindow(after, start, live) && NoRollback(after)
             && after != [] && after[0].Take? && after[0].id in mid.txs && mid.txs[after[0].id].role.Sweeper?
             && var view := View(mid.sys.db, mid.txs[after[0].id]);
             && n in view.rows && Chosen(mid.txs[after[0].id].role, after[0].selection, view.rows[n])
             && Overlap(mid, after).txs == map[]
    ensures AllReady(s, before + after) && SweepCharges(s, before + after, n) == 1
  {
    hide SharedInv, WindowInv, Ready, After, Chosen, View, Stranded, SweepCommits, SweeperHolds, InWindow;
    var mid := Overlap(s, before);
    OverlappingSweepsChargeOnce(s, order, before, n, start, live);
    OverlappingSweepsChargeOnce(mid, order, after, n, start, live);
    var holder := SelectedIsHeld(mid, order, after[0].id, after[0].selection, after[0].jobs, n, start, live);
    assert NoRollback(after[1..]) by {
      forall i | 0 <= i < |after| - 1 ensures !after[1..][i].Rollback? {
        assert !after[i + 1].Rollback?;
      }
    }
    HeldIsCharged(After(mid, after[0]), after[1..], holder, n);
    ChargesConcat(s, before, after, n);
  }

  // ----- live workers ------------------------------------------------------------------------

  ghost predicate HeldByLive(row: Row, live: set<WorkerId>) {
    row.status == Running && row.workerId.Some? && row.workerId.value in live
  }

  /** The worker that holds n has not reported on it. */
  ghost predicate NotReported(s: Shared, ms: seq<Move>, n: Name)
    requires AllReady(s, ms)
    decreases ms
  {
    ms == [] || (!OwnerCommits(s, ms[0], n) && NotReported(After(s, ms[0]), ms[1..], n))
  }

  lemma CommitSparesLive(s: Shared, order: seq<Name>, id: TxId, n: Name, live: set<WorkerId>)
    requires SharedInv(s, order) && Ready(s, CommitTx(id)) && n in s.sys.db.rows && HeldByLive(s.sys.db.rows[n], live)
    requires !Locks(s.txs[id], n)
    ensures n in After(s, CommitTx(id)).sys.db.rows && After(s, CommitTx(id)).sys.db.rows[n] == s.sys.db.rows[n]
  {
    hide DbInv, LogInv, Topological, JobsOk, RoleOk, Faithful, Light, Marked, After, View;
    var db, tx := s.sys.db, s.txs[id];
    assert TxInv(db, s.holder == Some(id), tx);
    CommitDb(s, order, id);
    IdleView(db, tx);
    ViewsAreGood(db, order, tx.jobs, tx.writes, |tx.jobs|);
    assert View(db, tx).rows[n] == db.rows[n];
  }

  lemma LiveStep(s: Shared, order: seq<Name>, m: Move, n: Name, start: real, live: set<WorkerId>)
    requires SharedInv(s, order) && Ready(s, m) && MoveInWindow(m, start, live) && WindowInv(s, start, live)
    requires n in s.sys.db.rows && HeldByLive(s.sys.db.rows[n], live) && !OwnerCommits(s, m, n)
    ensures n in After(s, m).sys.db.rows && After(s, m).sys.db.rows[n] == s.sys.db.rows[n]
  {
    hide SharedInv, WindowInv, MayTake;
    WindowStep(s, order, m, n, start, live);
    if m.CommitTx? {
      CommitSparesLive(s, order, m.id, n, live);
    } else if m.Atomic? && m.action.Deliver? {
      assert After(s, m).sys.db == Claimed(s.sys.db, m.action.msg.task, m.action.worker);
    } else {
      QuietMove(s, order, m, start, live);
    }
  }

  /** A sweep never holds the row of a live worker. */
  lemma LiveIsNotHeld(s: Shared, n: Name, start: real, live: set<WorkerId>)
    requires WindowInv(s, start, live) && n in s.sys.db.rows && HeldByLive(s.sys.db.rows[n], live)
    ensures forall id :: !SweeperHolds(s, id, n)
  {
    forall id | id in s.txs && s.txs[id].role.Sweeper? ensures !Locks(s.txs[id], n) {
      assert TxInWindow(s.sys.db.rows, s.txs[id], start, live);
      forall i | 0 <= i < |s.txs[id].jobs| ensures s.txs[id].jobs[i].task != n {
        assert Stranded(s.sys.db.rows[s.txs[id].jobs[i].task], start, live);
      }
    }
  }

  /** Until its worker reports, a task held by a live worker is never the job of a sweep, is never
      charged, and stays as it is, whatever overlaps. */
  lemma {:induction false} LiveOwnersKeepTheirRows(s: Shared, order: seq<Name>, ms: seq<Move>, n: Name, start: real, live: set<WorkerId>)
    requires SharedInv(s, order) && WindowInv(s, start, live) && AllReady(s, ms) && InWindow(ms, start, live)
    requires n in s.sys.db.rows && HeldByLive(s.sys.db.rows[n], live) && NotReported(s, ms, n)
    ensures n in Overlap(s, ms).sys.db.rows && Overlap(s, ms).sys.db.rows[n] == s.sys.db.rows[n]
    ensures (forall id :: !SweeperHolds(Overlap(s, ms), id, n)) && SweepCharges(s, ms, n) == 0
    decreases ms
  {
    hide SharedInv, WindowInv, After, Ready, SweepCommits, OwnerCommits, MoveInWindow, InWindow, HeldByLive, SweeperHolds, Stranded;
    LiveIsNotHeld(s, n, start, live);
    OverlappingSweepsChargeOnce(s, order, ms, n, start, live);
    LiveIsNotStranded(s.sys.db.rows[n], start, live);
    if ms != [] {
      RestInWindow(ms, start, live);
      MoveRefines(s, order, ms[0]);
      WindowStep(s, order, ms[0], n, start, live);
      LiveStep(s, order, ms[0], n, start, live);
      LiveOwnersKeepTheirRows(After(s, ms[0]), order, ms[1..], n, start, live);
    }
  }

  lemma LiveIsNotStranded(row: Row, start: real, live: set<WorkerId>)
    requires HeldByLive(row, live)
    ensures !Stranded(row, start, live)
  {
  }

  lemma SweepSelects(s: Shared, order: seq<Name>, id: TxId, selection: Selection, n: Name)
    requires SharedInv(s, order) && id in s.txs && IsIdle(s.txs[id]) && s.txs[id].role.Sweeper? && selection != OwnRows
    ensures Picked(s, id, selection, n) <==> n in s.sys.db.rows && Free(s, n) && Chosen(s.txs[id].role, selection, s.sys.db.rows[n])
  {
    hide SharedInv, View, Chosen, IsIdle;
    if Picked(s, id, selection, n) {
      PickedIsCommitted(s, order, id, selection, n);
    } else if n in s.sys.db.rows && Free(s, n) {
      SelectedRow(s, order, id, n);
    }
  }

  /** Either statement of a sweep takes exactly the committed rows that no transaction has locked and
      that meet its condition: running, and without a worker that has beaten within the timeout; or
      queued, and claimable since before the timeout. */
  lemma SweepTakesExactly(s: Shared, order: seq<Name>, id: TxId, selection: Selection, jobs: seq<Outcome>, n: Name)
    requires SharedInv(s, order) && Ready(s, Take(id, selection, jobs)) && s.txs[id].role.Sweeper?
    ensures selection == OrphanedRows || selection == StuckRows
    ensures Named(jobs, n) <==>
            && n in s.sys.db.rows && (forall tx, i | tx in s.txs && 0 <= i < |s.txs[tx].jobs| :: s.txs[tx].jobs[i].task != n)
            && var row, role := s.sys.db.rows[n], s.txs[id].role;
               if selection == OrphanedRows then
                 row.status == Running
                 && (row.workerId == None || row.workerId.value !in role.workers || role.workers[row.workerId.value] == None
                     || role.workers[row.workerId.value].value < role.now - role.heartbeatTimeout)
               else
                 row.status == Queued && row.dispatchedAt.Some? && row.dispatchedAt.value < role.now - role.queuedTimeout
  {
    hide SharedInv, View, Reports, IsIdle;
    SweeperAsks(s, id, selection, jobs);
    SweepSelects(s, order, id, selection, n);
    assert Named(jobs, n) <==> Picked(s, id, selection, n);
    assert Free(s, n) <==> forall tx, i | tx in s.txs && 0 <= i < |s.txs[tx].jobs| :: s.txs[tx].jobs[i].task != n;
  }

  /** The heartbeats a sweep goes by are those it read when it began. A worker that claims a task
      afterwards loses it if and only if that reading knows of no heartbeat of it within the timeout. */
  lemma LateClaimIsTakenIff(s: Shared, order: seq<Name>, id: TxId, msg: Message, w: WorkerId, jobs: seq<Outcome>)
    requires SharedInv(s, order) && id in s.txs && s.txs[id].role.Sweeper? && s.txs[id].jobs == []
    requires Ready(s, Atomic(Deliver(msg, w))) && Wins(s.sys.db, msg.task)
    requires Ready(After(s, Atomic(Deliver(msg, w))), Take(id, OrphanedRows, jobs))
    ensures var role := s.txs[id].role;
            Named(jobs, msg.task) <==>
            w !in role.workers || role.workers[w] == None || role.workers[w].value < role.now - role.heartbeatTimeout
  {
    hide SysInv, Topological, JobsOk, RoleOk, Faithful, Light, Marked;
    assert TxInv(s.sys.db, s.holder == Some(id), s.txs[id]);
    var s' := After(s, Atomic(Deliver(msg, w)));
    assert View(s'.sys.db, s'.txs[id]) == s'.sys.db;
    assert FreeOfOthers(s', id, msg.task);
    assert Named(jobs, msg.task) <==> Picked(s', id, OrphanedRows, msg.task);
  }
}
