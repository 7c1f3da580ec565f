/** Overlapping transactions. Each one holds the row locks of the tasks it reports on, flushes
    privately, waits for the lock of the run before its scheduler tick, reads the committed rows
    under its own writes, and becomes visible only when it commits. Every such execution is one
    of the protocol, whose reports are atomic. */
module Concurrency {
  import opened Graphs
  import opened Tables
  import opened Invariant
  import opened Protocol
  import opened Guarantees
  import opened Recovery

  type TxId = nat

  /** What a transaction is for: a worker reporting the task it holds, or one visit of a recovery
      thread. A visit has one reading of the clock, and the heartbeats as they were when it began. */
  datatype Role =
    | Owner(worker: WorkerId)
    | Sweeper(now: real, workers: Workers, heartbeatTimeout: real, queuedTimeout: real)

  /** The rows a statement asks for: the worker's own task, the orphans, or the stuck ones. */
  datatype Selection = OwnRows | OrphanedRows | StuckRows

  /** One transaction. `writes` are its own uncommitted writes, one batch for each outcome dealt
      with; when waiting, the last batch has been flushed but its tick has not run. */
  datatype Tx = Tx(role: Role, jobs: seq<Outcome>, writes: seq<Patch>, waiting: bool)

  datatype Shared = Shared(sys: System, holder: Option<TxId>, txs: map<TxId, Tx>)

  datatype Move =
    | Open(id: TxId, role: Role)
    | Take(id: TxId, selection: Selection, jobs: seq<Outcome>) // locks rows, to report on them
    | Flush(id: TxId)
    | Tick(id: TxId)
    | CommitTx(id: TxId)
    | Rollback(id: TxId)
    | Atomic(action: Action) // a claim, or the broker repeating or losing a message

  predicate Locks(tx: Tx, n: Name) {
    exists i | 0 <= i < |tx.jobs| :: tx.jobs[i].task == n
  }

  predicate Free(s: Shared, n: Name) {
    forall id | id in s.txs :: !Locks(s.txs[id], n)
  }

  predicate FreeOfOthers(s: Shared, id: TxId, n: Name) {
    forall other | other in s.txs && other != id :: !Locks(s.txs[other], n)
  }

  /** The conditions of the statements that select rows. */
  predicate Chosen(role: Role, selection: Selection, row: Row) {
    match selection
    case OwnRows => role.Owner? && row.status == Running && row.workerId == Some(role.worker)
    case OrphanedRows => role.Sweeper? && Orphaned(row, Alive(role.workers, role.now, role.heartbeatTimeout))
    case StuckRows => role.Sweeper? && StuckQueued(row, role.now - role.queuedTimeout)
  }

  predicate Picked(s: Shared, id: TxId, selection: Selection, n: Name)
    requires id in s.txs
  {
    var tx := s.txs[id];
    n in View(s.sys.db, tx).rows && Chosen(tx.role, selection, View(s.sys.db, tx).rows[n]) && FreeOfOthers(s, id, n)
  }

  predicate Named(jobs: seq<Outcome>, n: Name) {
    exists i | 0 <= i < |jobs| :: jobs[i].task == n
  }

  predicate DistinctTasks(jobs: seq<Outcome>) {
    forall i, j | 0 <= i < j < |jobs| :: jobs[i].task != jobs[j].task
  }

  /** What a transaction of this role reports: a backoff is never negative, and a sweep reports
      failures, all at one time. */
  predicate Reports(role: Role, o: Outcome) {
    o.delay >= 0.0 && (role.Sweeper? ==> !o.ok && o.now == role.now)
  }

  predicate IsIdle(tx: Tx) {
    !tx.waiting && |tx.writes| == |tx.jobs|
  }

  /** A worker takes the row it owns. A sweep takes every row that its statement selects, except
      those locked by other transactions, which it skips. */
  ghost predicate MayTake(s: Shared, id: TxId, selection: Selection, jobs: seq<Outcome>)
    requires id in s.txs
  {
    && IsIdle(s.txs[id]) && DistinctTasks(jobs)
    && (forall i {:trigger jobs[i]} | 0 <= i < |jobs| :: Reports(s.txs[id].role, jobs[i]))
    && (selection == OwnRows ==> s.txs[id].jobs == [] && |jobs| == 1 && Picked(s, id, OwnRows, jobs[0].task))
    && (selection != OwnRows ==> forall n :: Named(jobs, n) <==> Picked(s, id, selection, n))
  }

  predicate Reportable(rows: Rows, o: Outcome) {
    o.task in rows && InFlight(rows[o.task]) && (o.ok ==> rows[o.task].status == Running)
  }

  /** What a transaction reads: the committed rows under its first k batches of writes. */
  function ViewAt(db: Db, writes: seq<Patch>, k: nat): Db
    requires k <= |writes|
  {
    if k == 0 then db else Apply(ViewAt(db, writes, k - 1), writes[k - 1])
  }

  function View(db: Db, tx: Tx): Db {
    ViewAt(db, tx.writes, |tx.writes|)
  }

  predicate MayFlush(db: Db, tx: Tx) {
    !tx.waiting && |tx.writes| < |tx.jobs| && tx.jobs[|tx.writes|].task in View(db, tx).rows
  }

  predicate MayTick(tx: Tx) {
    tx.waiting && 0 < |tx.writes| <= |tx.jobs|
  }

  ghost predicate Ready(s: Shared, m: Move) {
    match m
    case Open(id, role) => id !in s.txs && (role.Sweeper? ==> role.queuedTimeout >= 0.0)
    case Take(id, selection, jobs) => id in s.txs && MayTake(s, id, selection, jobs)
    case Flush(id) => id in s.txs && MayFlush(s.sys.db, s.txs[id])
    case Tick(id) => id in s.txs && MayTick(s.txs[id]) && (s.holder == None || s.holder == Some(id))
    case CommitTx(id) => id in s.txs && IsIdle(s.txs[id])
    case Rollback(id) => id in s.txs
    case Atomic(Deliver(msg, w)) => Enabled(s.sys, Deliver(msg, w)) && Free(s, msg.task)
    case Atomic(Repeat(msg)) => Enabled(s.sys, Repeat(msg))
    case Atomic(Lose(msg)) => Enabled(s.sys, Lose(msg))
    case Atomic(_) => false
  }

  /** A retry is complete as it stands; any other outcome still needs the scheduler tick. */
  function Flushed(db: Db, tx: Tx): Tx
    requires MayFlush(db, tx)
  {
    var view, o := View(db, tx), tx.jobs[|tx.writes|];
    if !o.ok && Retries(view, o.task) then
      tx.(writes := tx.writes + [RequeuePatch(view.rows, o.task, o.now, o.delay)])
    else
      tx.(writes := tx.writes + [MarkPatch(view.rows, o.task, o.ok)], waiting := true)
  }

  function Ticked(db: Db, tx: Tx): Tx
    requires MayTick(tx)
  {
    var last := |tx.writes| - 1;
    var tick := ResolvePatch(View(db, tx), tx.jobs[last].now);
    tx.(writes := tx.writes[last := Then(tx.writes[last], tick)], waiting := false)
  }

  function Release(s: Shared, id: TxId): Shared {
    s.(txs := s.txs - {id}, holder := if s.holder == Some(id) then None else s.holder)
  }

  function CommitBatch(s: System, p: Patch, o: Outcome): System {
    var after := Commit(s, p);
    if o.ok then after else Charge(after, o.task)
  }

  /** Committing makes the batches visible, publishes their messages, and charges the attempts
      declared failed. */
  function CommitAll(s: System, tx: Tx, k: nat): System
    requires k <= |tx.writes| && k <= |tx.jobs|
  {
    if k == 0 then s else CommitBatch(CommitAll(s, tx, k - 1), tx.writes[k - 1], tx.jobs[k - 1])
  }

  function After(s: Shared, m: Move): Shared
    requires Ready(s, m)
  {
    match m
    case Open(id, role) => s.(txs := s.txs[id := Tx(role, [], [], false)])
    case Take(id, _, jobs) => s.(txs := s.txs[id := s.txs[id].(jobs := s.txs[id].jobs + jobs)])
    case Flush(id) => s.(txs := s.txs[id := Flushed(s.sys.db, s.txs[id])])
    case Tick(id) => s.(txs := s.txs[id := Ticked(s.sys.db, s.txs[id])], holder := Some(id))
    case CommitTx(id) => Release(s.(sys := CommitAll(s.sys, s.txs[id], |s.txs[id].jobs|)), id)
    case Rollback(id) => Release(s, id)
    case Atomic(a) => s.(sys := Next(s.sys, a))
  }

  // ----- what a transaction has written ------------------------------------------------------

  ghost predicate JobsOk(rows: Rows, jobs: seq<Outcome>) {
    DistinctTasks(jobs) && forall i {:trigger jobs[i]} | 0 <= i < |jobs| :: Reportable(rows, jobs[i])
  }

  /** A worker's transaction reports on a row it owns, a sweep reports failures at its own time. */
  ghost predicate RoleOk(rows: Rows, role: Role, jobs: seq<Outcome>) {
    && (role.Sweeper? ==> role.queuedTimeout >= 0.0)
    && forall i {:trigger jobs[i]} | 0 <= i < |jobs| ::
         Reports(role, jobs[i]) && (role.Owner? ==> jobs[i].task in rows && Chosen(role, OwnRows, rows[jobs[i].task]))
  }

  /** Batch i is exactly what an atomic report would write after the batches before it. */
  ghost predicate BatchOk(db: Db, jobs: seq<Outcome>, writes: seq<Patch>, i: nat)
    requires i < |jobs| && i < |writes|
  {
    var view := ViewAt(db, writes, i);
    jobs[i].task in view.rows && writes[i] == ReportPatch(view, jobs[i])
  }

  ghost predicate Faithful(db: Db, jobs: seq<Outcome>, writes: seq<Patch>, k: nat)
    requires k <= |jobs| && k <= |writes|
  {
    forall i {:trigger BatchOk(db, jobs, writes, i)} | 0 <= i < k :: BatchOk(db, jobs, writes, i)
  }

  /** A report leaves every other started task alone. */
  lemma ReportLeaves(db: Db, o: Outcome, n: Name)
    requires DbInv(db) && Reportable(db.rows, o)
    requires n in db.rows && n != o.task && db.rows[n].status != Pending
    ensures n in Reported(db, o).rows && Reported(db, o).rows[n] == db.rows[n]
  {
    hide DbInv, ResolvePatch, MarkPatch, RequeuePatch, Reported, WellFormed;
    RunOfReport(db, o.task);
    if !o.ok && Retries(db, o.task) {
      RetriedReport(db, o);
    } else {
      var marked := SettledReport(db, o);
      ResolveMoves(marked, o.now, n);
    }
  }

  ghost predicate Untouched(db: Db, view: Db, jobs: seq<Outcome>, k: nat)
    requires k <= |jobs|
  {
    forall n {:trigger view.rows[n]} | n in db.rows && db.rows[n].status != Pending && (forall i | 0 <= i < k :: jobs[i].task != n) ::
      n in view.rows && view.rows[n] == db.rows[n]
  }

  /** What every view of a transaction keeps from the committed state it was opened on. */
  ghost predicate GoodView(db: Db, view: Db, jobs: seq<Outcome>, k: nat)
    requires k <= |jobs|
  {
    && DbInv(view) && SameTasks(db.rows, view.rows) && view.names == db.names
    && (view.run == RunCancelled <==> db.run == RunCancelled)
    && Untouched(db, view, jobs, k)
  }

  lemma NextUntouched(db: Db, view: Db, jobs: seq<Outcome>, k: nat)
    requires k < |jobs| && DbInv(view) && db.rows.Keys == view.rows.Keys && Untouched(db, view, jobs, k) && Reportable(view.rows, jobs[k])
    ensures Untouched(db, Reported(view, jobs[k]), jobs, k + 1)
  {
    hide DbInv, Reported;
    var after := Reported(view, jobs[k]);
    forall n | n in db.rows && db.rows[n].status != Pending && (forall i | 0 <= i < k + 1 :: jobs[i].task != n)
      ensures n in after.rows && after.rows[n] == db.rows[n]
    {
      assert view.rows[n] == db.rows[n];
      ReportLeaves(view, jobs[k], n);
    }
  }

  lemma ReportedBasics(db: Db, o: Outcome)
    requires o.task in db.rows
    ensures Reported(db, o).names == db.names && (Reported(db, o).run == RunCancelled <==> db.run == RunCancelled)
  {
  }

  lemma NextViewIsGood(db: Db, order: seq<Name>, jobs: seq<Outcome>, k: nat, view: Db)
    requires Topological(DepsOf(db.rows), order) && JobsOk(db.rows, jobs) && k < |jobs|
    requires GoodView(db, view, jobs, k) && jobs[k].task in view.rows
    ensures GoodView(db, Reported(view, jobs[k]), jobs, k + 1)
  {
    hide DbInv, Topological, Reported;
    assert Reportable(db.rows, jobs[k]);
    assert view.rows[jobs[k].task] == db.rows[jobs[k].task];
    hide Untouched, JobsOk;
    SameGraph(db.rows, view.rows);
    ReportKeepsInv(view, order, jobs[k]);
    ReportedBasics(view, jobs[k]);
    NextUntouched(db, view, jobs, k);
  }

  /** Each report finds its own row as it was committed, and leaves a good state. */
  lemma {:induction false} ViewsAreGood(db: Db, order: seq<Name>, jobs: seq<Outcome>, writes: seq<Patch>, k: nat)
    requires DbInv(db) && Topological(DepsOf(db.rows), order) && JobsOk(db.rows, jobs)
    requires k <= |jobs| && k <= |writes| && Faithful(db, jobs, writes, k)
    ensures GoodView(db, ViewAt(db, writes, k), jobs, k)
  {
    hide ReportPatch, DbInv, Topological, JobsOk;
    if k > 0 {
      ViewsAreGood(db, order, jobs, writes, k - 1);
      assert BatchOk(db, jobs, writes, k - 1);
      NextViewIsGood(db, order, jobs, k - 1, ViewAt(db, writes, k - 1));
    }
  }

  lemma OwnRow(db: Db, order: seq<Name>, jobs: seq<Outcome>, writes: seq<Patch>, k: nat)
    requires DbInv(db) && Topological(DepsOf(db.rows), order) && JobsOk(db.rows, jobs)
    requires k < |jobs| && k <= |writes| && Faithful(db, jobs, writes, k)
    ensures var view := ViewAt(db, writes, k);
            && DbInv(view) && jobs[k].task in view.rows && view.rows[jobs[k].task] == db.rows[jobs[k].task]
            && Reportable(view.rows, jobs[k]) && (db.run != RunCancelled ==> view.run == RunRunning)
  {
    hide ReportPatch, Topological;
    ViewsAreGood(db, order, jobs, writes, k);
    assert Reportable(db.rows, jobs[k]);
    InFlightMeansOpen(ViewAt(db, writes, k), jobs[k].task);
  }

  // ----- other transactions do not disturb it ------------------------------------------------

  /** The two states differ only in rows that are in flight in both. */
  ghost predicate Similar(a: Db, b: Db) {
    && a.names == b.names && a.run == b.run && SameTasks(a.rows, b.rows)
    && forall n {:trigger b.rows[n]} | n in a.rows :: b.rows[n] == a.rows[n] || (InFlight(a.rows[n]) && InFlight(b.rows[n]))
  }

  lemma SimilarCanRun(a: Db, b: Db, n: Name)
    requires Similar(a, b)
    ensures CanRun(a.rows, n) <==> CanRun(b.rows, n)
    ensures CanRun(a.rows, n) ==> a.rows[n] == b.rows[n]
  {
    if n in a.rows {
      assert forall d | d in a.rows[n].deps && d in a.rows :: b.rows[d] == a.rows[d] || (InFlight(a.rows[d]) && InFlight(b.rows[d]));
      assert b.rows[n].deps == a.rows[n].deps;
    }
  }

  lemma {:induction false} SimilarRunnable(a: Db, b: Db, names: seq<Name>)
    requires Similar(a, b)
    ensures RunnableAmong(a.rows, names) == RunnableAmong(b.rows, names)
  {
    if names != [] {
      SimilarRunnable(a, b, names[1..]);
      SimilarCanRun(a, b, names[0]);
    }
  }

  lemma {:induction false} SimilarAnnounce(a: Rows, b: Rows, names: seq<Name>)
    requires forall n | n in names :: n in a && n in b && a[n] == b[n]
    ensures Announce(a, names) == Announce(b, names)
  {
    if names != [] {
      SimilarAnnounce(a, b, names[1..]);
    }
  }

  lemma SimilarFinished(a: Db, b: Db)
    requires Similar(a, b)
    ensures FinalizePatch(a) == FinalizePatch(b)
  {
    SimilarRunnable(a, b, a.names);
    forall n | n in a.rows
      ensures InFlight(a.rows[n]) <==> InFlight(b.rows[n])
      ensures a.rows[n].status == Success <==> b.rows[n].status == Success
      ensures a.rows[n].status == Failed <==> b.rows[n].status == Failed
    {
      assert b.rows[n] == a.rows[n] || (InFlight(a.rows[n]) && InFlight(b.rows[n]));
    }
    assert AnyInFlight(a.rows) <==> AnyInFlight(b.rows) by {
      if n :| n in a.rows && InFlight(a.rows[n]) {
        assert InFlight(b.rows[n]);
      }
      if n :| n in b.rows && InFlight(b.rows[n]) {
        assert InFlight(a.rows[n]);
      }
    }
    assert AnyFailed(a.rows) <==> AnyFailed(b.rows) by {
      if n :| n in a.rows && a.rows[n].status == Failed {
        assert b.rows[n].status == Failed;
      }
      if n :| n in b.rows && b.rows[n].status == Failed {
        assert a.rows[n].status == Failed;
      }
    }
  }

  lemma SimilarResolve(a: Db, b: Db, now: real)
    requires Similar(a, b)
    ensures ResolvePatch(a, now) == ResolvePatch(b, now)
  {
    SimilarRunnable(a, b, a.names);
    SimilarFinished(a, b);
    var names := Runnable(a);
    forall n | n in names ensures n in a.rows && n in b.rows && a.rows[n] == b.rows[n] {
      SimilarCanRun(a, b, n);
    }
    SimilarAnnounce(a.rows, b.rows, names);
    assert DispatchPatch(a.rows, names, now).rows == DispatchPatch(b.rows, names, now).rows;
  }

  lemma SimilarApply(a: Db, b: Db, p: Patch)
    requires Similar(a, b)
    requires forall n | n in p.rows :: n in a.rows && p.rows[n].deps == a.rows[n].deps && p.rows[n].maxRetries == a.rows[n].maxRetries
    ensures Similar(Apply(a, p), Apply(b, p))
  {
    var a', b' := Apply(a, p), Apply(b, p);
    forall n | n in a'.rows ensures b'.rows[n] == a'.rows[n] || (InFlight(a'.rows[n]) && InFlight(b'.rows[n])) {
      if n !in p.rows {
        assert b.rows[n] == a.rows[n] || (InFlight(a.rows[n]) && InFlight(b.rows[n]));
      }
    }
  }

  lemma ResolveKeepsTasks(db: Db, now: real)
    ensures forall n | n in ResolvePatch(db, now).rows ::
              n in db.rows && ResolvePatch(db, now).rows[n].deps == db.rows[n].deps && ResolvePatch(db, now).rows[n].maxRetries == db.rows[n].maxRetries
  {
  }

  lemma SimilarRun(a: Db, b: Db)
    requires Similar(a, b)
    ensures a.run == b.run
  {
  }

  lemma RequeueSame(a: Db, b: Db, o: Outcome)
    requires o.task in a.rows && o.task in b.rows && a.rows[o.task] == b.rows[o.task]
    ensures var p := RequeuePatch(a.rows, o.task, o.now, o.delay);
            && p == RequeuePatch(b.rows, o.task, o.now, o.delay)
            && forall n | n in p.rows :: n in a.rows && p.rows[n].deps == a.rows[n].deps && p.rows[n].maxRetries == a.rows[n].maxRetries
  {
  }

  lemma MarkSame(a: Db, b: Db, o: Outcome)
    requires o.task in a.rows && o.task in b.rows && a.rows[o.task] == b.rows[o.task]
    ensures var p := MarkPatch(a.rows, o.task, o.ok);
            && p == MarkPatch(b.rows, o.task, o.ok)
            && forall n | n in p.rows :: n in a.rows && p.rows[n].deps == a.rows[n].deps && p.rows[n].maxRetries == a.rows[n].maxRetries
  {
  }

  /** A report reads nothing that tells similar states apart, except its own row. */
  lemma SimilarReport(a: Db, b: Db, o: Outcome)
    requires Similar(a, b) && o.task in a.rows && o.task in b.rows && a.rows[o.task] == b.rows[o.task]
    ensures ReportPatch(a, o) == ReportPatch(b, o)
    ensures Similar(Reported(a, o), Reported(b, o))
  {
    hide Similar, MarkPatch, RequeuePatch, ResolvePatch;
    SimilarRun(a, b);
    if !o.ok && Retries(a, o.task) {
      RequeueSame(a, b, o);
      SimilarApply(a, b, ReportPatch(a, o));
    } else {
      var mark := MarkPatch(a.rows, o.task, o.ok);
      MarkSame(a, b, o);
      SimilarApply(a, b, mark);
      var a', b' := Apply(a, mark), Apply(b, mark);
      SimilarResolve(a', b', o.now);
      ResolveKeepsTasks(a', o.now);
      SimilarApply(a', b', ResolvePatch(a', o.now));
      ApplyThen(a, mark, ResolvePatch(a', o.now));
      ApplyThen(b, mark, ResolvePatch(b', o.now));
    }
  }

  /** The same rows are locked, and read the same, in both states. */
  ghost predicate SameLocked(db: Db, db': Db, jobs: seq<Outcome>) {
    && JobsOk(db.rows, jobs) && JobsOk(db'.rows, jobs)
    && forall i {:trigger jobs[i]} | 0 <= i < |jobs| :: db'.rows[jobs[i].task] == db.rows[jobs[i].task]
  }

  /** While the run lock is held, what others commit does not change what the holder has written. */
  lemma {:induction false} HolderUndisturbed(db: Db, db': Db, order: seq<Name>, jobs: seq<Outcome>, writes: seq<Patch>, k: nat)
    requires DbInv(db) && DbInv(db') && Topological(DepsOf(db.rows), order)
    requires Similar(db, db') && SameTasks(db.rows, db'.rows) && SameLocked(db, db', jobs)
    requires k <= |jobs| && k <= |writes| && Faithful(db, jobs, writes, k)
    ensures Faithful(db', jobs, writes, k)
    ensures Similar(ViewAt(db, writes, k), ViewAt(db', writes, k))
  {
    hide ReportPatch, DbInv, Similar, SameTasks, Topological, JobsOk, SameLocked, Reportable;
    if k > 0 {
      HolderUndisturbed(db, db', order, jobs, writes, k - 1);
      assert SameTasks(db.rows, db'.rows);
      SameGraph(db.rows, db'.rows);
      LockedRow(db, db', jobs, k - 1);
      OwnRow(db, order, jobs, writes, k - 1);
      OwnRow(db', order, jobs, writes, k - 1);
      assert BatchOk(db, jobs, writes, k - 1);
      SimilarReport(ViewAt(db, writes, k - 1), ViewAt(db', writes, k - 1), jobs[k - 1]);
    }
  }

  lemma LockedRow(db: Db, db': Db, jobs: seq<Outcome>, i: nat)
    requires SameLocked(db, db', jobs) && i < |jobs|
    ensures JobsOk(db.rows, jobs) && JobsOk(db'.rows, jobs)
    ensures jobs[i].task in db.rows && jobs[i].task in db'.rows && db'.rows[jobs[i].task] == db.rows[jobs[i].task]
  {
    assert Reportable(db.rows, jobs[i]) && Reportable(db'.rows, jobs[i]);
  }

  /** Only retries so far: they need no lock and touch no row but their own. */
  ghost predicate Light(db: Db, jobs: seq<Outcome>, k: nat)
    requires k <= |jobs|
  {
    forall i {:trigger jobs[i]} | 0 <= i < k :: jobs[i].task in db.rows && !jobs[i].ok && Retries(db, jobs[i].task)
  }

  lemma LightReport(view: Db, view': Db, o: Outcome)
    requires o.task in view.rows && o.task in view'.rows && view.rows[o.task] == view'.rows[o.task]
    requires view.run == view'.run == RunRunning && !o.ok && view.rows[o.task].retryCount < view.rows[o.task].maxRetries
    ensures ReportPatch(view, o) == ReportPatch(view', o)
  {
  }

  lemma {:induction false} LightUndisturbed(db: Db, db': Db, order: seq<Name>, jobs: seq<Outcome>, writes: seq<Patch>, k: nat)
    requires DbInv(db) && DbInv(db') && Topological(DepsOf(db.rows), order) && SameTasks(db.rows, db'.rows)
    requires db.run != RunCancelled && db'.run != RunCancelled && SameLocked(db, db', jobs)
    requires k <= |jobs| && k <= |writes| && Faithful(db, jobs, writes, k) && Light(db, jobs, k)
    ensures Faithful(db', jobs, writes, k)
  {
    hide ReportPatch, DbInv, Topological;
    if k > 0 {
      LightUndisturbed(db, db', order, jobs, writes, k - 1);
      assert SameTasks(db.rows, db'.rows);
      SameGraph(db.rows, db'.rows);
      OwnRow(db, order, jobs, writes, k - 1);
      OwnRow(db', order, jobs, writes, k - 1);
      assert BatchOk(db, jobs, writes, k - 1);
      assert Reportable(db.rows, jobs[k - 1]) && Retries(db, jobs[k - 1].task);
      LightReport(ViewAt(db, writes, k - 1), ViewAt(db', writes, k - 1), jobs[k - 1]);
    }
  }

  // ----- the invariant -----------------------------------------------------------------------

  /** How many of its reports a transaction has completed. */
  function Completed(tx: Tx): nat
    requires tx.waiting ==> tx.writes != []
  {
    if tx.waiting then |tx.writes| - 1 else |tx.writes|
  }

  /** A waiting transaction has recorded an outcome that needs the scheduler tick. */
  ghost predicate Marked(db: Db, jobs: seq<Outcome>, writes: seq<Patch>, k: nat)
    requires k < |jobs| && k < |writes|
  {
    var view, o := ViewAt(db, writes, k), jobs[k];
    && o.task in view.rows && (o.ok || !Retries(view, o.task))
    && writes[k] == MarkPatch(view.rows, o.task, o.ok)
  }

  ghost predicate TxInv(db: Db, holds: bool, tx: Tx) {
    && JobsOk(db.rows, tx.jobs) && RoleOk(db.rows, tx.role, tx.jobs) && |tx.writes| <= |tx.jobs| && (tx.waiting ==> tx.writes != [])
    && Faithful(db, tx.jobs, tx.writes, Completed(tx))
    && (holds || Light(db, tx.jobs, Completed(tx)))
    && (tx.waiting ==> Marked(db, tx.jobs, tx.writes, Completed(tx)))
  }

  /** No two transactions have locked the same row. */
  ghost predicate Exclusive(txs: map<TxId, Tx>) {
    forall id, id', n {:trigger Locks(txs[id], n), Locks(txs[id'], n)} | id in txs && id' in txs && id != id' ::
      !(Locks(txs[id], n) && Locks(txs[id'], n))
  }

  ghost predicate SharedInv(s: Shared, order: seq<Name>) {
    && SysInv(s.sys) && s.sys.db.run != RunCancelled && Topological(DepsOf(s.sys.db.rows), order)
    && (s.holder.Some? ==> s.holder.value in s.txs)
    && Exclusive(s.txs)
    && forall id {:trigger s.txs[id]} | id in s.txs :: TxInv(s.sys.db, s.holder == Some(id), s.txs[id])
  }

  // ----- a transaction's own steps -----------------------------------------------------------

  lemma {:induction false} ViewPrefix(db: Db, writes: seq<Patch>, writes': seq<Patch>, k: nat)
    requires k <= |writes| && k <= |writes'| && forall i | 0 <= i < k :: writes[i] == writes'[i]
    ensures ViewAt(db, writes, k) == ViewAt(db, writes', k)
  {
    if k > 0 {
      ViewPrefix(db, writes, writes', k - 1);
    }
  }

  lemma FaithfulPrefix(db: Db, jobs: seq<Outcome>, writes: seq<Patch>, writes': seq<Patch>, k: nat)
    requires k <= |jobs| && k <= |writes| && k <= |writes'| && forall i | 0 <= i < k :: writes[i] == writes'[i]
    requires Faithful(db, jobs, writes, k)
    ensures Faithful(db, jobs, writes', k)
  {
    hide ReportPatch;
    forall i | 0 <= i < k ensures BatchOk(db, jobs, writes', i) {
      assert BatchOk(db, jobs, writes, i);
      ViewPrefix(db, writes, writes', i);
    }
  }

  lemma FlushKeepsTx(db: Db, order: seq<Name>, holds: bool, tx: Tx)
    requires DbInv(db) && db.run != RunCancelled && Topological(DepsOf(db.rows), order)
    requires TxInv(db, holds, tx) && MayFlush(db, tx)
    ensures TxInv(db, holds, Flushed(db, tx))
  {
    hide DbInv, Topological, RoleOk, ResolvePatch;
    var k, tx' := |tx.writes|, Flushed(db, tx);
    var o, view := tx.jobs[k], View(db, tx);
    OwnRow(db, order, tx.jobs, tx.writes, k);
    FaithfulPrefix(db, tx.jobs, tx.writes, tx'.writes, k);
    ViewPrefix(db, tx.writes, tx'.writes, k);
    assert !tx'.waiting ==> BatchOk(db, tx.jobs, tx'.writes, k);
  }

  lemma TickKeepsTx(db: Db, holds: bool, tx: Tx)
    requires TxInv(db, holds, tx) && MayTick(tx)
    ensures TxInv(db, true, Ticked(db, tx))
  {
    hide JobsOk, RoleOk, Light, ResolvePatch, MarkPatch, RequeuePatch;
    var k, tx' := |tx.writes| - 1, Ticked(db, tx);
    FaithfulPrefix(db, tx.jobs, tx.writes, tx'.writes, k);
    ViewPrefix(db, tx.writes, tx'.writes, k);
    assert BatchOk(db, tx.jobs, tx'.writes, k);
  }

  // ----- the steps of others -----------------------------------------------------------------

  lemma OthersKeepTx(db: Db, db': Db, order: seq<Name>, holds: bool, tx: Tx)
    requires DbInv(db) && DbInv(db') && Topological(DepsOf(db.rows), order) && SameTasks(db.rows, db'.rows)
    requires db.run != RunCancelled && db'.run != RunCancelled
    requires TxInv(db, holds, tx) && SameLocked(db, db', tx.jobs)
    requires holds ==> Similar(db, db')
    ensures TxInv(db', holds, tx)
  {
    hide DbInv, Topological, ReportPatch, Similar, RoleOk;
    var k := Completed(tx);
    RoleKept(db, db', tx.role, tx.jobs);
    if holds {
      HolderUndisturbed(db, db', order, tx.jobs, tx.writes, k);
    } else {
      LightUndisturbed(db, db', order, tx.jobs, tx.writes, k);
      LightAgrees(db, db', tx.jobs, k);
    }
    if tx.waiting {
      SameGraph(db.rows, db'.rows);
      OwnRow(db, order, tx.jobs, tx.writes, k);
      OwnRow(db', order, tx.jobs, tx.writes, k);
    }
  }

  lemma RoleKept(db: Db, db': Db, role: Role, jobs: seq<Outcome>)
    requires SameLocked(db, db', jobs) && RoleOk(db.rows, role, jobs)
    ensures RoleOk(db'.rows, role, jobs)
  {
    forall i | 0 <= i < |jobs|
      ensures Reports(role, jobs[i]) && (role.Owner? ==> jobs[i].task in db'.rows && Chosen(role, OwnRows, db'.rows[jobs[i].task]))
    {
      assert Reports(role, jobs[i]) && Reportable(db'.rows, jobs[i]);
    }
  }

  lemma LightAgrees(db: Db, db': Db, jobs: seq<Outcome>, k: nat)
    requires SameLocked(db, db', jobs) && k <= |jobs| && Light(db, jobs, k) && db'.run != RunCancelled
    ensures Light(db', jobs, k)
  {
    forall i | 0 <= i < k ensures jobs[i].task in db'.rows && !jobs[i].ok && Retries(db', jobs[i].task) {
      assert Reportable(db'.rows, jobs[i]) && Reportable(db.rows, jobs[i]);
      assert Retries(db, jobs[i].task);
    }
  }

  /** Rows locked elsewhere are started, and not this transaction's: its commit leaves them alone. */
  lemma CommitSparesLocked(db: Db, order: seq<Name>, tx: Tx, other: Tx)
    requires DbInv(db) && Topological(DepsOf(db.rows), order)
    requires JobsOk(db.rows, tx.jobs) && |tx.writes| == |tx.jobs| && Faithful(db, tx.jobs, tx.writes, |tx.jobs|)
    requires JobsOk(db.rows, other.jobs) && forall n :: !(Locks(tx, n) && Locks(other, n))
    ensures SameLocked(db, View(db, tx), other.jobs)
  {
    hide ReportPatch, Topological, DbInv, Faithful, ViewAt;
    ViewsAreGood(db, order, tx.jobs, tx.writes, |tx.jobs|);
    var view := View(db, tx);
    forall i | 0 <= i < |other.jobs| ensures Reportable(view.rows, other.jobs[i]) && view.rows[other.jobs[i].task] == db.rows[other.jobs[i].task] {
      var n := other.jobs[i].task;
      assert Reportable(db.rows, other.jobs[i]);
      assert Locks(other, n) && !Locks(tx, n);
      assert view.rows[n] == db.rows[n];
    }
  }

  lemma SimilarTrans(a: Db, b: Db, c: Db)
    requires Similar(a, b) && Similar(b, c)
    ensures Similar(a, c)
  {
    forall n | n in a.rows ensures c.rows[n] == a.rows[n] || (InFlight(a.rows[n]) && InFlight(c.rows[n])) {
      assert b.rows[n] == a.rows[n] || (InFlight(a.rows[n]) && InFlight(b.rows[n]));
      assert c.rows[n] == b.rows[n] || (InFlight(b.rows[n]) && InFlight(c.rows[n]));
    }
  }

  lemma RequeueIsSimilar(view: Db, o: Outcome)
    requires Reportable(view.rows, o) && !o.ok && Retries(view, o.task)
    ensures Similar(view, Reported(view, o))
  {
  }

  /** A transaction that never took the run lock has only moved rows between in-flight states. */
  lemma {:induction false} LightIsSimilar(db: Db, order: seq<Name>, jobs: seq<Outcome>, writes: seq<Patch>, k: nat)
    requires DbInv(db) && db.run != RunCancelled && Topological(DepsOf(db.rows), order) && JobsOk(db.rows, jobs)
    requires k <= |jobs| && k <= |writes| && Faithful(db, jobs, writes, k) && Light(db, jobs, k)
    ensures Similar(db, ViewAt(db, writes, k))
  {
    hide DbInv, Topological, ReportPatch, Similar, SameTasks;
    if k > 0 {
      LightIsSimilar(db, order, jobs, writes, k - 1);
      OwnRow(db, order, jobs, writes, k - 1);
      assert BatchOk(db, jobs, writes, k - 1);
      assert Retries(db, jobs[k - 1].task);
      RequeueIsSimilar(ViewAt(db, writes, k - 1), jobs[k - 1]);
      SimilarTrans(db, ViewAt(db, writes, k - 1), ViewAt(db, writes, k));
    } else {
      SimilarRefl(db);
    }
  }

  lemma SimilarRefl(db: Db)
    ensures Similar(db, db)
  {
  }

  // ----- a commit is a sequence of reports ---------------------------------------------------

  function AsAction(role: Role, o: Outcome): Action {
    if role.Owner? then Report(o) else Reclaim(o)
  }

  function AsActions(tx: Tx, k: nat): seq<Action>
    requires k <= |tx.jobs|
  {
    if k == 0 then [] else AsActions(tx, k - 1) + [AsAction(tx.role, tx.jobs[k - 1])]
  }

  lemma ReportIsAction(s: System, rows: Rows, tx: Tx, i: nat, p: Patch)
    requires i < |tx.jobs| && RoleOk(rows, tx.role, tx.jobs)
    requires var o := tx.jobs[i]; o.task in rows && o.task in s.db.rows && s.db.rows[o.task] == rows[o.task] && Reportable(s.db.rows, o)
    requires p == ReportPatch(s.db, tx.jobs[i])
    ensures Enabled(s, AsAction(tx.role, tx.jobs[i]))
    ensures Next(s, AsAction(tx.role, tx.jobs[i])) == CommitBatch(s, p, tx.jobs[i])
  {
    hide ReportPatch;
    assert Reports(tx.role, tx.jobs[i]);
  }

  lemma BatchVisible(s: System, p: Patch, o: Outcome)
    ensures CommitBatch(s, p, o).db == Apply(s.db, p)
  {
  }

  /** Making the batches visible at once is the same as making the reports one by one. */
  lemma {:induction false} CommitIsReports(s: System, order: seq<Name>, tx: Tx, k: nat)
    requires DbInv(s.db) && Topological(DepsOf(s.db.rows), order) && JobsOk(s.db.rows, tx.jobs) && RoleOk(s.db.rows, tx.role, tx.jobs)
    requires k <= |tx.writes| && k <= |tx.jobs| && Faithful(s.db, tx.jobs, tx.writes, k)
    ensures Legal(s, AsActions(tx, k))
    ensures Exec(s, AsActions(tx, k)) == CommitAll(s, tx, k)
    ensures CommitAll(s, tx, k).db == ViewAt(s.db, tx.writes, k)
  {
    hide DbInv, Topological, ReportPatch, Next, Enabled, CommitBatch, Apply;
    if k > 0 {
      CommitIsReports(s, order, tx, k - 1);
      OwnRow(s.db, order, tx.jobs, tx.writes, k - 1);
      assert BatchOk(s.db, tx.jobs, tx.writes, k - 1);
      assert Reportable(s.db.rows, tx.jobs[k - 1]);
      BatchVisible(CommitAll(s, tx, k - 1), tx.writes[k - 1], tx.jobs[k - 1]);
      ReportIsAction(CommitAll(s, tx, k - 1), s.db.rows, tx, k - 1, tx.writes[k - 1]);
      ExecAppend(s, AsActions(tx, k - 1), AsAction(tx.role, tx.jobs[k - 1]));
    }
  }

  // ----- taking rows -------------------------------------------------------------------------

  /** The first k reports of a sweep are done with their rows: no statement of this sweep selects
      them again. */
  predicate Done(row: Row, now: real) {
    row.status == Failed || (row.status == Queued && row.dispatchedAt.Some? && row.dispatchedAt.value >= now)
  }

  ghost predicate SweptSoFar(db: Db, view: Db, jobs: seq<Outcome>, now: real, k: nat)
    requires k <= |jobs|
  {
    && view.rows.Keys == db.rows.Keys
    && (forall n {:trigger view.rows[n]} | n in db.rows && (forall i | 0 <= i < k :: jobs[i].task != n) :: view.rows[n] == db.rows[n])
    && (forall i {:trigger jobs[i]} | 0 <= i < k :: jobs[i].task in view.rows && Done(view.rows[jobs[i].task], now))
  }

  lemma ChargedIsDone(row: Row, run: RunStatus, now: real, delay: real)
    requires delay >= 0.0
    ensures Done(Charged(row, run, now, delay), now)
  {
  }

  lemma SweptOneMore(db: Db, view: Db, role: Role, jobs: seq<Outcome>, k: nat)
    requires k < |jobs| && role.Sweeper? && DistinctTasks(jobs) && SweptSoFar(db, view, jobs, role.now, k)
    requires DbInv(view) && Reports(role, jobs[k]) && jobs[k].task in view.rows && InFlight(view.rows[jobs[k].task])
    ensures SweptSoFar(db, Reported(view, jobs[k]), jobs, role.now, k + 1)
  {
    hide DbInv, Reported, Done, Charged, InFlight;
    var after := Reported(view, jobs[k]);
    FailureChangesOneRow(view, jobs[k]);
    ChargedIsDone(view.rows[jobs[k].task], view.run, role.now, jobs[k].delay);
    forall i | 0 <= i < k + 1 ensures jobs[i].task in after.rows && Done(after.rows[jobs[i].task], role.now) {
      if i < k {
        assert Done(view.rows[jobs[i].task], role.now);
      }
    }
    forall n | n in db.rows && (forall i | 0 <= i < k + 1 :: jobs[i].task != n) ensures after.rows[n] == db.rows[n] {
      assert n != jobs[k].task;
      assert view.rows[n] == db.rows[n];
    }
  }

  lemma {:induction false} SweepView(db: Db, order: seq<Name>, role: Role, jobs: seq<Outcome>, writes: seq<Patch>, k: nat)
    requires DbInv(db) && Topological(DepsOf(db.rows), order) && JobsOk(db.rows, jobs) && RoleOk(db.rows, role, jobs) && role.Sweeper?
    requires k <= |jobs| && k <= |writes| && Faithful(db, jobs, writes, k)
    ensures SweptSoFar(db, ViewAt(db, writes, k), jobs, role.now, k)
  {
    hide ReportPatch, DbInv, Topological, JobsOk, SweptSoFar, Apply;
    if k == 0 {
      NothingSwept(db, jobs, role.now);
    } else {
      SweepView(db, order, role, jobs, writes, k - 1);
      OwnRow(db, order, jobs, writes, k - 1);
      assert BatchOk(db, jobs, writes, k - 1);
      assert Reports(role, jobs[k - 1]);
      JobsDistinct(db.rows, jobs);
      SweptOneMore(db, ViewAt(db, writes, k - 1), role, jobs, k - 1);
    }
  }

  lemma NothingSwept(db: Db, jobs: seq<Outcome>, now: real)
    ensures SweptSoFar(db, db, jobs, now, 0)
  {
  }

  lemma JobsDistinct(rows: Rows, jobs: seq<Outcome>)
    requires JobsOk(rows, jobs)
    ensures DistinctTasks(jobs)
  {
  }

  /** What an idle transaction selects is committed, in flight, and not locked by itself. */
  lemma PickedIsCommitted(s: Shared, order: seq<Name>, id: TxId, selection: Selection, n: Name)
    requires SharedInv(s, order) && id in s.txs && IsIdle(s.txs[id]) && Picked(s, id, selection, n)
    requires selection == OwnRows ==> s.txs[id].jobs == []
    ensures n in s.sys.db.rows && View(s.sys.db, s.txs[id]).rows[n] == s.sys.db.rows[n]
    ensures Chosen(s.txs[id].role, selection, s.sys.db.rows[n]) && InFlight(s.sys.db.rows[n])
    ensures !Locks(s.txs[id], n)
  {
    hide DbInv, LogInv, Topological, JobsOk, RoleOk, Faithful, Light, Reported, ReportPatch, SweptSoFar, Alive;
    var db, tx := s.sys.db, s.txs[id];
    assert TxInv(db, s.holder == Some(id), tx);
    if selection != OwnRows {
      SweepView(db, order, tx.role, tx.jobs, tx.writes, |tx.jobs|);
      SweepTimeout(db.rows, tx.role, tx.jobs);
      SelectedAgain(db, View(db, tx), tx, selection, n);
    }
  }

  lemma SweepTimeout(rows: Rows, role: Role, jobs: seq<Outcome>)
    requires RoleOk(rows, role, jobs) && role.Sweeper?
    ensures role.queuedTimeout >= 0.0
  {
  }

  lemma SelectedAgain(db: Db, view: Db, tx: Tx, selection: Selection, n: Name)
    requires tx.role.Sweeper? && tx.role.queuedTimeout >= 0.0 && SweptSoFar(db, view, tx.jobs, tx.role.now, |tx.jobs|)
    requires n in view.rows && Chosen(tx.role, selection, view.rows[n])
    ensures !Locks(tx, n) && n in db.rows && view.rows[n] == db.rows[n]
  {
    forall i | 0 <= i < |tx.jobs| ensures tx.jobs[i].task != n {
      assert Done(view.rows[tx.jobs[i].task], tx.role.now);
    }
  }

  lemma FaithfulJobs(db: Db, jobs: seq<Outcome>, more: seq<Outcome>, writes: seq<Patch>, k: nat)
    requires k <= |jobs| && k <= |writes| && Faithful(db, jobs, writes, k)
    ensures Faithful(db, jobs + more, writes, k)
    ensures Light(db, jobs, k) ==> Light(db, jobs + more, k)
  {
    hide ReportPatch, ViewAt;
    var all := jobs + more;
    forall i | 0 <= i < k ensures BatchOk(db, all, writes, i) {
      assert BatchOk(db, jobs, writes, i) && all[i] == jobs[i];
    }
    if Light(db, jobs, k) {
      forall i | 0 <= i < k ensures all[i].task in db.rows && !all[i].ok && Retries(db, all[i].task) {
        assert all[i] == jobs[i];
      }
    }
  }

  /** The rows taken: in flight, locked by nobody yet, and reported on as the role has it. */
  ghost predicate Takeable(rows: Rows, tx: Tx, jobs: seq<Outcome>) {
    && DistinctTasks(jobs)
    && forall i {:trigger jobs[i]} | 0 <= i < |jobs| ::
         && Reports(tx.role, jobs[i]) && !Locks(tx, jobs[i].task) && Reportable(rows, jobs[i])
         && (tx.role.Owner? ==> Chosen(tx.role, OwnRows, rows[jobs[i].task]))
  }

  lemma TakeKeepsJobs(rows: Rows, tx: Tx, jobs: seq<Outcome>)
    requires JobsOk(rows, tx.jobs) && RoleOk(rows, tx.role, tx.jobs) && Takeable(rows, tx, jobs)
    ensures JobsOk(rows, tx.jobs + jobs) && RoleOk(rows, tx.role, tx.jobs + jobs)
  {
    var all, m := tx.jobs + jobs, |tx.jobs|;
    forall i | 0 <= i < |all|
      ensures Reportable(rows, all[i]) && Reports(tx.role, all[i])
      ensures tx.role.Owner? ==> Chosen(tx.role, OwnRows, rows[all[i].task])
    {
      assert if i < m then all[i] == tx.jobs[i] else all[i] == jobs[i - m];
    }
    forall i, j | 0 <= i < j < |all| ensures all[i].task != all[j].task {
      assert if i < m then all[i] == tx.jobs[i] else all[i] == jobs[i - m];
      assert if j < m then all[j] == tx.jobs[j] else all[j] == jobs[j - m];
      if i < m <= j {
        assert Locks(tx, tx.jobs[i].task);
      }
    }
  }

  lemma TakeKeepsTx(db: Db, holds: bool, tx: Tx, jobs: seq<Outcome>)
    requires TxInv(db, holds, tx) && IsIdle(tx) && Takeable(db.rows, tx, jobs)
    ensures TxInv(db, holds, tx.(jobs := tx.jobs + jobs))
  {
    hide JobsOk, RoleOk, Takeable, Faithful, Light, Marked;
    TakeKeepsJobs(db.rows, tx, jobs);
    FaithfulJobs(db, tx.jobs, jobs, tx.writes, |tx.writes|);
  }

  lemma MayTakeIsTakeable(s: Shared, order: seq<Name>, id: TxId, selection: Selection, jobs: seq<Outcome>)
    requires SharedInv(s, order) && Ready(s, Take(id, selection, jobs))
    ensures Takeable(s.sys.db.rows, s.txs[id], jobs)
    ensures forall i {:trigger jobs[i]} | 0 <= i < |jobs| :: FreeOfOthers(s, id, jobs[i].task)
  {
    hide SharedInv, Picked, Locks, FreeOfOthers, View, Reports, IsIdle, Alive;
    var tx := s.txs[id];
    forall i | 0 <= i < |jobs|
      ensures Reports(tx.role, jobs[i]) && !Locks(tx, jobs[i].task) && Reportable(s.sys.db.rows, jobs[i])
      ensures tx.role.Owner? ==> Chosen(tx.role, OwnRows, s.sys.db.rows[jobs[i].task])
      ensures FreeOfOthers(s, id, jobs[i].task)
    {
      assert Reports(tx.role, jobs[i]) && Named(jobs, jobs[i].task);
      assert Picked(s, id, selection, jobs[i].task);
      PickedIsCommitted(s, order, id, selection, jobs[i].task);
      PickedIsFree(s, id, selection, jobs[i].task);
      FailuresOnly(tx.role, jobs[i]);
    }
  }

  lemma FailuresOnly(role: Role, o: Outcome)
    requires Reports(role, o)
    ensures role.Sweeper? ==> !o.ok
  {
  }

  lemma PickedIsFree(s: Shared, id: TxId, selection: Selection, n: Name)
    requires id in s.txs && Picked(s, id, selection, n)
    ensures FreeOfOthers(s, id, n)
  {
  }

  // ----- refinement --------------------------------------------------------------------------

  lemma OpenRefines(s: Shared, order: seq<Name>, id: TxId, role: Role)
    requires SharedInv(s, order) && Ready(s, Open(id, role))
    ensures SharedInv(After(s, Open(id, role)), order)
  {
    hide SysInv, Topological;
    var s', tx := After(s, Open(id, role)), Tx(role, [], [], false);
    assert TxInv(s.sys.db, s.holder == Some(id), tx);
    forall i, j, n | i in s'.txs && j in s'.txs && i != j ensures !(Locks(s'.txs[i], n) && Locks(s'.txs[j], n)) {
      assert !Locks(tx, n);
    }
  }

  lemma TakeRefines(s: Shared, order: seq<Name>, id: TxId, selection: Selection, jobs: seq<Outcome>)
    requires SharedInv(s, order) && Ready(s, Take(id, selection, jobs))
    ensures SharedInv(After(s, Take(id, selection, jobs)), order)
  {
    hide SysInv, Topological, TxInv, Takeable, View, Picked, Reports, Named, Chosen;
    var tx' := s.txs[id].(jobs := s.txs[id].jobs + jobs);
    MayTakeIsTakeable(s, order, id, selection, jobs);
    assert TxInv(s.sys.db, s.holder == Some(id), s.txs[id]);
    TakeKeepsTx(s.sys.db, s.holder == Some(id), s.txs[id], jobs);
    forall n | Locks(tx', n) ensures Locks(s.txs[id], n) || FreeOfOthers(s, id, n) {
      var i :| 0 <= i < |tx'.jobs| && tx'.jobs[i].task == n;
      if i < |s.txs[id].jobs| {
        assert s.txs[id].jobs[i].task == n;
      } else {
        assert jobs[i - |s.txs[id].jobs|].task == n;
      }
    }
    OwnStepRefines(s, order, id, tx', After(s, Take(id, selection, jobs)));
  }

  /** Only the transaction's own writes change, and perhaps the holder. */
  lemma OwnStepRefines(s: Shared, order: seq<Name>, id: TxId, tx': Tx, s': Shared)
    requires SharedInv(s, order) && id in s.txs
    requires forall n | Locks(tx', n) :: Locks(s.txs[id], n) || FreeOfOthers(s, id, n)
    requires s' == s.(txs := s.txs[id := tx'], holder := s'.holder)
    requires s'.holder == s.holder || (s.holder == None && s'.holder == Some(id))
    requires TxInv(s.sys.db, s'.holder == Some(id), tx')
    ensures SharedInv(s', order)
  {
    hide SysInv, Topological, JobsOk, RoleOk, Faithful, Light, Marked, Locks;
    forall i, j, n | i in s'.txs && j in s'.txs && i != j ensures !(Locks(s'.txs[i], n) && Locks(s'.txs[j], n)) {
      if i == id && Locks(tx', n) {
        assert Locks(s.txs[id], n) || FreeOfOthers(s, id, n);
      } else if j == id && Locks(tx', n) {
        assert Locks(s.txs[id], n) || FreeOfOthers(s, id, n);
      }
    }
    forall i | i in s'.txs ensures TxInv(s'.sys.db, s'.holder == Some(i), s'.txs[i]) {
      if i != id {
        assert TxInv(s.sys.db, s.holder == Some(i), s.txs[i]);
      }
    }
  }

  /** A transaction leaves and the committed rows may change, in a way the others tolerate. */
  lemma SystemStepRefines(s: Shared, order: seq<Name>, s': Shared)
    requires SharedInv(s, order)
    requires SysInv(s'.sys) && s'.sys.db.run != RunCancelled && SameTasks(s.sys.db.rows, s'.sys.db.rows)
    requires s'.txs.Keys <= s.txs.Keys && forall id | id in s'.txs :: s'.txs[id] == s.txs[id]
    requires s'.holder == s.holder || s'.holder == None
    requires s'.holder.Some? ==> s'.holder.value in s'.txs
    requires forall id {:trigger s'.txs[id]} | id in s'.txs :: SameLocked(s.sys.db, s'.sys.db, s.txs[id].jobs)
    requires forall id {:trigger s'.txs[id]} | id in s'.txs && s.holder == Some(id) ::
               s'.holder == s.holder && Similar(s.sys.db, s'.sys.db)
    ensures SharedInv(s', order)
  {
    hide DbInv, LogInv, Topological, JobsOk, Faithful, Light, Marked, SameLocked, Similar, TxInv;
    SameGraph(s.sys.db.rows, s'.sys.db.rows);
    forall i | i in s'.txs ensures TxInv(s'.sys.db, s'.holder == Some(i), s'.txs[i]) {
      assert TxInv(s.sys.db, s.holder == Some(i), s.txs[i]);
      OthersKeepTx(s.sys.db, s'.sys.db, order, s.holder == Some(i), s.txs[i]);
    }
  }

  lemma FlushRefines(s: Shared, order: seq<Name>, id: TxId)
    requires SharedInv(s, order) && Ready(s, Flush(id))
    ensures SharedInv(After(s, Flush(id)), order)
  {
    hide DbInv, LogInv, Topological, TxInv, View;
    assert TxInv(s.sys.db, s.holder == Some(id), s.txs[id]);
    FlushKeepsTx(s.sys.db, order, s.holder == Some(id), s.txs[id]);
    OwnStepRefines(s, order, id, Flushed(s.sys.db, s.txs[id]), After(s, Flush(id)));
  }

  lemma TickRefines(s: Shared, order: seq<Name>, id: TxId)
    requires SharedInv(s, order) && Ready(s, Tick(id))
    ensures SharedInv(After(s, Tick(id)), order)
  {
    hide DbInv, LogInv, Topological, TxInv, View;
    assert TxInv(s.sys.db, s.holder == Some(id), s.txs[id]);
    TickKeepsTx(s.sys.db, s.holder == Some(id), s.txs[id]);
    OwnStepRefines(s, order, id, Ticked(s.sys.db, s.txs[id]), After(s, Tick(id)));
  }

  lemma RollbackRefines(s: Shared, order: seq<Name>, id: TxId)
    requires SharedInv(s, order) && id in s.txs
    ensures SharedInv(Release(s, id), order)
  {
    hide SysInv, Topological, TxInv;
    var s' := Release(s, id);
    forall i | i in s'.txs ensures TxInv(s'.sys.db, s'.holder == Some(i), s'.txs[i]) {
      assert TxInv(s.sys.db, s.holder == Some(i), s.txs[i]);
    }
  }

  /** Committed state after a commit, as the others see it. */
  lemma CommitRefines(s: Shared, order: seq<Name>, id: TxId)
    requires SharedInv(s, order) && Ready(s, CommitTx(id))
    ensures var acts, s' := AsActions(s.txs[id], |s.txs[id].jobs|), After(s, CommitTx(id));
            Legal(s.sys, acts) && s'.sys == Exec(s.sys, acts) && SharedInv(s', order)
  {
    hide DbInv, LogInv, Topological, JobsOk, Faithful, Light, SameLocked, Similar, Next, Enabled;
    var db, tx := s.sys.db, s.txs[id];
    assert TxInv(db, s.holder == Some(id), tx);
    CommitIsReports(s.sys, order, tx, |tx.jobs|);
    RunKeepsInv(s.sys, order, AsActions(tx, |tx.jobs|));
    ViewsAreGood(db, order, tx.jobs, tx.writes, |tx.jobs|);
    if s.holder != Some(id) {
      LightIsSimilar(db, order, tx.jobs, tx.writes, |tx.jobs|);
    }
    var s' := After(s, CommitTx(id));
    forall i | i in s'.txs ensures SameLocked(db, s'.sys.db, s.txs[i].jobs) {
      assert TxInv(db, s.holder == Some(i), s.txs[i]);
      forall n ensures !(Locks(tx, n) && Locks(s.txs[i], n)) {
        assert !(Locks(s.txs[id], n) && Locks(s.txs[i], n));
      }
      CommitSparesLocked(db, order, tx, s.txs[i]);
    }
    SystemStepRefines(s, order, s');
  }

  lemma ClaimIsSimilar(db: Db, n: Name, w: WorkerId)
    ensures Similar(db, Claimed(db, n, w))
  {
  }

  lemma ClaimSparesLocked(db: Db, n: Name, w: WorkerId, tx: Tx)
    requires JobsOk(db.rows, tx.jobs) && !Locks(tx, n)
    ensures SameLocked(db, Claimed(db, n, w), tx.jobs)
  {
    var db' := Claimed(db, n, w);
    forall i | 0 <= i < |tx.jobs| ensures Reportable(db'.rows, tx.jobs[i]) && db'.rows[tx.jobs[i].task] == db.rows[tx.jobs[i].task] {
      assert Reportable(db.rows, tx.jobs[i]);
      assert Locks(tx, tx.jobs[i].task);
    }
  }

  lemma AtomicRefines(s: Shared, order: seq<Name>, a: Action)
    requires SharedInv(s, order) && Ready(s, Atomic(a))
    ensures SharedInv(After(s, Atomic(a)), order)
  {
    hide DbInv, LogInv, Topological, JobsOk, Faithful, Light, Marked, SameLocked, Similar;
    StepKeepsInv(s.sys, order, a);
    var s' := After(s, Atomic(a));
    match a
    case Deliver(msg, w) =>
      ClaimIsSimilar(s.sys.db, msg.task, w);
      forall i | i in s'.txs ensures SameLocked(s.sys.db, s'.sys.db, s.txs[i].jobs) {
        assert TxInv(s.sys.db, s.holder == Some(i), s.txs[i]);
        ClaimSparesLocked(s.sys.db, msg.task, w, s.txs[i]);
      }
      SystemStepRefines(s, order, s');
    case Repeat(_) => NoisyStepRefines(s, order, s');
    case Lose(_) => NoisyStepRefines(s, order, s');
  }

  lemma NoisyStepRefines(s: Shared, order: seq<Name>, s': Shared)
    requires SharedInv(s, order) && SysInv(s'.sys) && s' == s.(sys := s'.sys) && s'.sys.db == s.sys.db
    ensures SharedInv(s', order)
  {
    hide SysInv, Topological, TxInv;
    forall i | i in s'.txs ensures TxInv(s'.sys.db, s'.holder == Some(i), s'.txs[i]) {
      assert TxInv(s.sys.db, s.holder == Some(i), s.txs[i]);
    }
  }

  /** Steps of the protocol that one move amounts to. */
  function Abstract(s: Shared, m: Move): seq<Action>
    requires Ready(s, m)
  {
    match m
    case CommitTx(id) => AsActions(s.txs[id], |s.txs[id].jobs|)
    case Atomic(a) => [a]
    case _ => []
  }

  /** Nothing is visible before a commit; a commit is its reports, made atomically. */
  lemma MoveRefines(s: Shared, order: seq<Name>, m: Move)
    requires SharedInv(s, order) && Ready(s, m)
    ensures Legal(s.sys, Abstract(s, m)) && After(s, m).sys == Exec(s.sys, Abstract(s, m))
    ensures SharedInv(After(s, m), order)
  {
    hide SharedInv, MayTake, MayFlush, MayTick, CommitAll, Next;
    match m
    case Open(id, role) => OpenRefines(s, order, id, role);
    case Take(id, selection, jobs) => TakeRefines(s, order, id, selection, jobs);
    case Flush(id) => FlushRefines(s, order, id);
    case Tick(id) => TickRefines(s, order, id);
    case CommitTx(id) => CommitRefines(s, order, id);
    case Rollback(id) => RollbackRefines(s, order, id);
    case Atomic(a) => AtomicRefines(s, order, a);
  }

  // ----- whole executions --------------------------------------------------------------------

  ghost predicate AllReady(s: Shared, ms: seq<Move>)
    decreases ms
  {
    ms == [] || (Ready(s, ms[0]) && AllReady(After(s, ms[0]), ms[1..]))
  }

  function Overlap(s: Shared, ms: seq<Move>): Shared
    requires AllReady(s, ms)
    decreases ms
  {
    if ms == [] then s else Overlap(After(s, ms[0]), ms[1..])
  }

  function AbstractAll(s: Shared, ms: seq<Move>): seq<Action>
    requires AllReady(s, ms)
    decreases ms
  {
    if ms == [] then [] else Abstract(s, ms[0]) + AbstractAll(After(s, ms[0]), ms[1..])
  }

  lemma {:induction false} MovesConcat(s: Shared, a: seq<Move>, b: seq<Move>)
    requires AllReady(s, a) && AllReady(Overlap(s, a), b)
    ensures AllReady(s, a + b) && Overlap(s, a + b) == Overlap(Overlap(s, a), b)
    decreases a
  {
    hide After, Ready;
    if a == [] {
      assert a + b == b;
    } else {
      MovesConcat(After(s, a[0]), a[1..], b);
      assert (a + b)[1..] == a[1..] + b;
    }
  }

  /** Every execution of overlapping transactions is an execution of the protocol: its committed
      states are among those the protocol reaches with atomic reports. */
  lemma {:induction false} OverlapRefines(s: Shared, order: seq<Name>, ms: seq<Move>)
    requires SharedInv(s, order) && AllReady(s, ms)
    ensures SharedInv(Overlap(s, ms), order)
    ensures Legal(s.sys, AbstractAll(s, ms)) && Overlap(s, ms).sys == Exec(s.sys, AbstractAll(s, ms))
    decreases ms
  {
    hide SharedInv, After, Ready, Abstract;
    if ms != [] {
      var s' := After(s, ms[0]);
      MoveRefines(s, order, ms[0]);
      OverlapRefines(s', order, ms[1..]);
      ExecConcat(s.sys, Abstract(s, ms[0]), AbstractAll(s', ms[1..]));
    }
  }

  /** The trigger has committed, and no transaction is open yet. */
  function Opening(db: Db, now: real): Shared {
    Shared(Trigger(db, now), None, map[])
  }

  lemma OpeningInv(db: Db, order: seq<Name>, now: real)
    requires Created(db) && Topological(DepsOf(db.rows), order)
    ensures SharedInv(Opening(db, now), order)
  {
    TriggerEstablishes(db, order, now);
    SameGraph(db.rows, Trigger(db, now).db.rows);
  }

  /** No lost wake-up: whatever overlaps, each committed state of a running run has nothing
      pending whose dependencies have all succeeded, has something in flight, and no task has been
      dispatched twice. All that the protocol guarantees holds of it as well. */
  lemma NoLostWakeUp(db: Db, order: seq<Name>, now: real, ms: seq<Move>)
    requires Created(db) && Topological(DepsOf(db.rows), order) && AllReady(Opening(db, now), ms)
    ensures var t := Overlap(Opening(db, now), ms).sys;
            && Reaches(db, order, now, AbstractAll(Opening(db, now), ms), t)
            && (t.db.run == RunRunning ==> Quiet(t.db.rows) && AnyInFlight(t.db.rows))
            && (forall n | n in t.db.rows :: t.log.published[Message(n, 0)] == if t.db.rows[n].dispatchedAt.Some? then 1 else 0)
  {
    var s := Opening(db, now);
    OpeningInv(db, order, now);
    OverlapRefines(s, order, ms);
    var t := Overlap(s, ms).sys;
    forall n | n in t.db.rows ensures t.log.published[Message(n, 0)] == if t.db.rows[n].dispatchedAt.Some? then 1 else 0 {
      assert LogOk(n, t.db.rows[n], t.log);
    }
  }

  /** However transactions overlap, each attempt is claimed at most once, and the retry counter of a
      task counts exactly the charges against it. */
  lemma OverlapOncePerAttempt(db: Db, order: seq<Name>, now: real, ms: seq<Move>, n: Name)
    requires Created(db) && Topological(DepsOf(db.rows), order) && AllReady(Opening(db, now), ms)
    ensures var t := Overlap(Opening(db, now), ms).sys;
            n in t.db.rows ==> OncePerAttempt(n, t.db.rows[n], t.log)
  {
    hide Opening, AllReady, Overlap, AbstractAll, Reaches, OncePerAttempt;
    NoLostWakeUp(db, order, now, ms);
    var t := Overlap(Opening(db, now), ms).sys;
    ExactlyOncePerAttempt(db, order, now, AbstractAll(Opening(db, now), ms), t, n);
  }

  /** Two running branches and the task that joins them. */
  function ForkJoin(): Db {
    var branch := Row([], Running, 0, 0, Some("w"), Some(0.0));
    Db(["a", "b", "c"], map["a" := branch, "b" := branch, "c" := Row(["a", "b"], Pending, 0, 0, None, None)], RunRunning)
  }

  lemma ForkJoinInv()
    ensures DbInv(ForkJoin())
  {
    var rows := ForkJoin().rows;
    assert InFlight(rows["a"]);
    assert "a" in rows["c"].deps;
    forall n | n in rows ensures RowInv(rows, RunRunning, n) && !CanRun(rows, n) {
    }
  }

  function Reporting(n: Name): Tx {
    Tx(Owner("w"), [Outcome(n, true, 0.0, 0.0)], [], false)
  }

  /** The run lock is what makes this so. Two workers finish sibling branches, each tick reads the
      committed rows under its own success only, and once both have committed the run is still
      running with nothing in flight, although c could start. */
  lemma WithoutTheLockARunStalls()
    ensures var db, one, two := ForkJoin(), Reporting("a"), Reporting("b");
            && DbInv(db) && JobsOk(db.rows, one.jobs) && JobsOk(db.rows, two.jobs)
            && MayFlush(db, one) && MayTick(Flushed(db, one)) && MayFlush(db, two) && MayTick(Flushed(db, two))
            && var end := ViewAt(db, Ticked(db, Flushed(db, one)).writes + Ticked(db, Flushed(db, two)).writes, 2);
               end.run == RunRunning && !AnyInFlight(end.rows) && CanRun(end.rows, "c")
  {
    hide Flushed, Ticked, MayFlush, MayTick, DbInv, JobsOk, ResolvePatch, WellFormed;
    var db := ForkJoin();
    ForkJoinInv();
    BranchesReport();
    SiblingTick(db, Reporting("a"), "a", "b");
    SiblingTick(db, Reporting("b"), "b", "a");
    var writes := Ticked(db, Flushed(db, Reporting("a"))).writes + Ticked(db, Flushed(db, Reporting("b"))).writes;
    assert writes == [MarkPatch(db.rows, "a", true), MarkPatch(db.rows, "b", true)];
    var first := ViewAt(db, writes, 1);
    assert first == Apply(ViewAt(db, writes, 0), writes[0]);
    assert ViewAt(db, writes, 2) == Apply(first, writes[1]);
    BothDone();
  }

  lemma BranchesReport()
    ensures WellFormed(ForkJoin()) && JobsOk(ForkJoin().rows, Reporting("a").jobs) && JobsOk(ForkJoin().rows, Reporting("b").jobs)
  {
    ForkJoinInv();
  }

  /** Both successes committed, and no tick that has seen both. */
  lemma BothDone()
    ensures var db := ForkJoin();
            var end := Apply(Apply(db, MarkPatch(db.rows, "a", true)), MarkPatch(db.rows, "b", true));
            end.run == RunRunning && !AnyInFlight(end.rows) && CanRun(end.rows, "c")
  {
  }

  lemma SiblingInFlight(view: Db, other: Name)
    requires other in view.rows && InFlight(view.rows[other]) && view.run == RunRunning && Runnable(view) == []
    ensures ResolvePatch(view, 0.0) == NO_CHANGE
  {
  }

  /** One sibling's tick, as long as the other is not seen to have finished. */
  lemma SiblingTick(db: Db, tx: Tx, mine: Name, other: Name)
    requires mine != other && mine in db.rows && other in db.rows && WellFormed(db) && db.run == RunRunning
    requires db.rows[mine].status == Running && db.rows[other].status == Running
    requires tx.jobs == [Outcome(mine, true, 0.0, 0.0)] && tx.writes == [] && !tx.waiting
    requires forall n | n in db.rows && db.rows[n].status == Pending :: other in db.rows[n].deps
    ensures MayFlush(db, tx) && MayTick(Flushed(db, tx))
    ensures Ticked(db, Flushed(db, tx)).writes == [MarkPatch(db.rows, mine, true)]
  {
    hide ResolvePatch, WellFormed;
    var flushed := Flushed(db, tx);
    assert flushed.writes == [MarkPatch(db.rows, mine, true)];
    var view := View(db, flushed);
    assert view == Apply(ViewAt(db, flushed.writes, 0), flushed.writes[0]);
    SiblingView(db, mine, other);
    assert Then(flushed.writes[0], NO_CHANGE) == flushed.writes[0];
  }

  lemma SiblingView(db: Db, mine: Name, other: Name)
    requires mine != other && mine in db.rows && other in db.rows && WellFormed(db) && db.run == RunRunning
    requires db.rows[other].status == Running
    requires forall n | n in db.rows && db.rows[n].status == Pending :: other in db.rows[n].deps
    ensures ResolvePatch(Apply(db, MarkPatch(db.rows, mine, true)), 0.0) == NO_CHANGE
  {
    hide ResolvePatch, Runnable;
    var view := Apply(db, MarkPatch(db.rows, mine, true));
    SameWellFormed(db, view);
    RunnableIsQuiet(view);
    forall n | n in view.rows ensures !CanRun(view.rows, n) {
      assert view.rows[other].status == Running;
    }
    SiblingInFlight(view, other);
  }
}
