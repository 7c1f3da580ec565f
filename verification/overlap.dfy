/** Confluence again, now for transactions that overlap: workers flush, wait for the run lock,
    tick and commit in any interleaving, and the run still ends in one way only. */
module OverlapConfluence {
  import opened Graphs
  import opened Tables
  import opened Invariant
  import opened Protocol
  import opened Confluence
  import opened Concurrency
  import opened Delivery

  /** A worker that holds the task reports how its attempt turned out. */
  predicate AgreesWith(rows: Rows, o: Outcome, f: Oracle) {
    o.task in rows && rows[o.task].status == Running && o.ok == f(o.task, rows[o.task].retryCount)
  }

  ghost predicate ReportsOnly(rows: Rows, jobs: seq<Outcome>, f: Oracle) {
    forall i {:trigger jobs[i]} | 0 <= i < |jobs| :: AgreesWith(rows, jobs[i], f)
  }

  /** No sweeps: every transaction reports attempts its worker has finished. */
  ghost predicate UndisturbedMoves(s: Shared, ms: seq<Move>, f: Oracle)
    requires AllReady(s, ms)
    decreases ms
  {
    ms == [] || (Calm(s, ms[0], f) && UndisturbedMoves(After(s, ms[0]), ms[1..], f))
  }

  /** What each open transaction will report is still how its attempt turned out. */
  ghost predicate OpenReports(s: Shared, f: Oracle) {
    forall id {:trigger s.txs[id]} | id in s.txs :: s.txs[id].role.Owner? && ReportsOnly(s.sys.db.rows, s.txs[id].jobs, f)
  }

  lemma {:induction false} UndisturbedConcat(s: System, a: seq<Action>, b: seq<Action>, f: Oracle)
    requires UndisturbedRun(s, a, f) && Legal(s, a) && UndisturbedRun(Exec(s, a), b, f)
    ensures UndisturbedRun(s, a + b, f)
    decreases a
  {
    hide Next;
    if a == [] {
      assert a + b == b;
    } else {
      UndisturbedConcat(Next(s, a[0]), a[1..], b, f);
      assert (a + b)[1..] == a[1..] + b;
    }
  }

  lemma OneUndisturbed(s: System, a: Action, f: Oracle)
    requires Enabled(s, a) && Undisturbed(s, a, f)
    ensures UndisturbedRun(s, [a], f)
  {
    hide Next;
    assert [a][1..] == [];
  }

  /** A commit is its reports, and each of them turns out as the oracle says. */
  lemma {:induction false} CommitIsUndisturbed(s: System, order: seq<Name>, tx: Tx, k: nat, f: Oracle)
    requires SysInv(s) && Topological(DepsOf(s.db.rows), order)
    requires JobsOk(s.db.rows, tx.jobs) && RoleOk(s.db.rows, tx.role, tx.jobs) && tx.role.Owner?
    requires k <= |tx.jobs| == |tx.writes| && Faithful(s.db, tx.jobs, tx.writes, |tx.jobs|)
    requires ReportsOnly(s.db.rows, tx.jobs, f)
    ensures UndisturbedRun(s, AsActions(tx, k), f)
  {
    hide DbInv, LogInv, Topological, ReportPatch, Next, UndisturbedRun, JobsOk, RoleOk, Faithful, CommitAll, ViewAt, Legal, Exec;
    if k > 0 {
      var acts := AsActions(tx, k - 1);
      CommitIsUndisturbed(s, order, tx, k - 1, f);
      FaithfulBelow(s.db, tx.jobs, tx.writes, |tx.jobs|, k - 1);
      CommitIsReports(s, order, tx, k - 1);
      OwnRow(s.db, order, tx.jobs, tx.writes, k - 1);
      assert AgreesWith(s.db.rows, tx.jobs[k - 1], f);
      OneUndisturbed(Exec(s, acts), Report(tx.jobs[k - 1]), f);
      UndisturbedConcat(s, acts, [Report(tx.jobs[k - 1])], f);
    } else {
      NothingUndisturbed(s, f);
    }
  }

  lemma FaithfulBelow(db: Db, jobs: seq<Outcome>, writes: seq<Patch>, k: nat, l: nat)
    requires l <= k <= |jobs| && k <= |writes| && Faithful(db, jobs, writes, k)
    ensures Faithful(db, jobs, writes, l)
  {
  }

  lemma NothingUndisturbed(s: System, f: Oracle)
    ensures UndisturbedRun(s, [], f)
  {
  }

  lemma LockedAgree(db: Db, db': Db, jobs: seq<Outcome>, f: Oracle)
    requires ReportsOnly(db.rows, jobs, f) && SameLocked(db, db', jobs)
    ensures ReportsOnly(db'.rows, jobs, f)
  {
    forall i | 0 <= i < |jobs| ensures AgreesWith(db'.rows, jobs[i], f) {
      assert AgreesWith(db.rows, jobs[i], f) && Reportable(db'.rows, jobs[i]);
    }
  }

  /** The other open transactions hold their rows, so what they will report stays right. */
  lemma CommitKeepsReports(s: Shared, order: seq<Name>, id: TxId, f: Oracle)
    requires SharedInv(s, order) && Ready(s, CommitTx(id)) && OpenReports(s, f)
    ensures OpenReports(After(s, CommitTx(id)), f)
    ensures UndisturbedRun(s.sys, Abstract(s, CommitTx(id)), f)
  {
    hide DbInv, LogInv, Topological, JobsOk, RoleOk, Faithful, Light, SameLocked, Similar, UndisturbedRun, ReportsOnly, ReportPatch;
    var db, tx, s' := s.sys.db, s.txs[id], After(s, CommitTx(id));
    assert TxInv(db, s.holder == Some(id), tx);
    CommitIsReports(s.sys, order, tx, |tx.jobs|);
    CommitIsUndisturbed(s.sys, order, tx, |tx.jobs|, f);
    forall i | i in s'.txs ensures s'.txs[i].role.Owner? && ReportsOnly(s'.sys.db.rows, s'.txs[i].jobs, f) {
      assert TxInv(db, s.holder == Some(i), s.txs[i]);
      forall n ensures !(Locks(tx, n) && Locks(s.txs[i], n)) {
        assert !(Locks(s.txs[id], n) && Locks(s.txs[i], n));
      }
      CommitSparesLocked(db, order, tx, s.txs[i]);
      LockedAgree(db, s'.sys.db, s.txs[i].jobs, f);
    }
  }

  lemma ClaimKeepsReports(s: Shared, order: seq<Name>, msg: Message, w: WorkerId, f: Oracle)
    requires SharedInv(s, order) && Ready(s, Atomic(Deliver(msg, w))) && OpenReports(s, f)
    ensures OpenReports(After(s, Atomic(Deliver(msg, w))), f)
  {
    hide SysInv, Topological, JobsOk, RoleOk, SameLocked, ReportsOnly;
    var s' := After(s, Atomic(Deliver(msg, w)));
    forall i | i in s'.txs ensures s'.txs[i].role.Owner? && ReportsOnly(s'.sys.db.rows, s'.txs[i].jobs, f) {
      assert TxInv(s.sys.db, s.holder == Some(i), s.txs[i]);
      ClaimSparesLocked(s.sys.db, msg.task, w, s.txs[i]);
      LockedAgree(s.sys.db, s'.sys.db, s.txs[i].jobs, f);
    }
  }

  lemma TakeKeepsReports(rows: Rows, jobs: seq<Outcome>, more: seq<Outcome>, f: Oracle)
    requires ReportsOnly(rows, jobs, f) && ReportsOnly(rows, more, f)
    ensures ReportsOnly(rows, jobs + more, f)
  {
    forall i | 0 <= i < |jobs + more| ensures AgreesWith(rows, (jobs + more)[i], f) {
      assert if i < |jobs| then (jobs + more)[i] == jobs[i] else (jobs + more)[i] == more[i - |jobs|];
    }
  }

  /** An undisturbed move. */
  ghost predicate Calm(s: Shared, m: Move, f: Oracle) {
    (m.Open? ==> m.role.Owner?) && (m.Take? ==> ReportsOnly(s.sys.db.rows, m.jobs, f))
  }

  lemma OwnMoveIsCalm(s: Shared, m: Move, f: Oracle)
    requires Ready(s, m) && OpenReports(s, f) && Calm(s, m, f)
    requires m.Open? || m.Take? || m.Flush? || m.Tick? || m.Rollback?
    ensures OpenReports(After(s, m), f) && UndisturbedRun(s.sys, Abstract(s, m), f)
  {
    hide MayTake, ReportsOnly, MayFlush, MayTick, MarkPatch, RequeuePatch, ResolvePatch;
    match m
    case Open(_, _) => NothingReported(s.sys.db.rows, f);
    case Take(id, _, jobs) => TakeKeepsReports(s.sys.db.rows, s.txs[id].jobs, jobs, f);
    case Flush(_) =>
    case Tick(_) =>
    case Rollback(_) =>
  }

  lemma NothingReported(rows: Rows, f: Oracle)
    ensures ReportsOnly(rows, [], f)
  {
  }

  lemma MoveIsUndisturbed(s: Shared, order: seq<Name>, m: Move, f: Oracle)
    requires SharedInv(s, order) && Ready(s, m) && OpenReports(s, f) && Calm(s, m, f)
    ensures OpenReports(After(s, m), f) && UndisturbedRun(s.sys, Abstract(s, m), f)
  {
    hide SharedInv, OpenReports, UndisturbedRun, After;
    match m
    case CommitTx(id) => CommitKeepsReports(s, order, id, f);
    case Atomic(a) =>
      OneUndisturbed(s.sys, a, f);
      if a.Deliver? {
        ClaimKeepsReports(s, order, a.msg, a.worker, f);
      } else {
        NoiseKeepsReports(s, a, f);
      }
    case _ => OwnMoveIsCalm(s, m, f);
  }

  lemma NoiseKeepsReports(s: Shared, a: Action, f: Oracle)
    requires Ready(s, Atomic(a)) && OpenReports(s, f) && !a.Deliver?
    ensures OpenReports(After(s, Atomic(a)), f)
  {
  }

  lemma {:induction false} OverlapIsUndisturbed(s: Shared, order: seq<Name>, ms: seq<Move>, f: Oracle)
    requires SharedInv(s, order) && AllReady(s, ms) && OpenReports(s, f) && UndisturbedMoves(s, ms, f)
    ensures UndisturbedRun(s.sys, AbstractAll(s, ms), f)
    decreases ms
  {
    hide SharedInv, After, Ready, Abstract, UndisturbedRun, OpenReports, ReportsOnly;
    if ms == [] {
      NothingUndisturbed(s.sys, f);
    } else {
      MoveRefines(s, order, ms[0]);
      MoveIsUndisturbed(s, order, ms[0], f);
      OverlapIsUndisturbed(After(s, ms[0]), order, ms[1..], f);
      UndisturbedConcat(s.sys, Abstract(s, ms[0]), AbstractAll(After(s, ms[0]), ms[1..]), f);
    }
  }

  /** Overlapping report transactions, from the trigger of a validated workflow. */
  ghost predicate OverlapsUndisturbed(db: Db, order: seq<Name>, now: real, ms: seq<Move>, f: Oracle) {
    && Created(db) && Topological(DepsOf(db.rows), order)
    && AllReady(Opening(db, now), ms) && UndisturbedMoves(Opening(db, now), ms, f)
  }

  lemma OverlapRunsUndisturbed(db: Db, order: seq<Name>, now: real, ms: seq<Move>, f: Oracle)
    requires OverlapsUndisturbed(db, order, now, ms, f)
    ensures RunsUndisturbed(db, order, now, AbstractAll(Opening(db, now), ms), f)
    ensures Legal(Trigger(db, now), AbstractAll(Opening(db, now), ms))
    ensures Overlap(Opening(db, now), ms).sys == Exec(Trigger(db, now), AbstractAll(Opening(db, now), ms))
  {
    hide SharedInv, UndisturbedMoves, UndisturbedRun, Created, Topological, Trigger, Legal, Exec;
    var s := Opening(db, now);
    OpeningInv(db, order, now);
    OverlapRefines(s, order, ms);
    OverlapIsUndisturbed(s, order, ms, f);
  }

  /** However the transactions overlap, a run that closes ends every task rightly. */
  lemma OverlappingRunsEndRightly(db: Db, order: seq<Name>, now: real, ms: seq<Move>, f: Oracle)
    requires OverlapsUndisturbed(db, order, now, ms, f)
    ensures var t := Overlap(Opening(db, now), ms).sys;
            t.db.run != RunRunning ==> RightlyEnded(t.db, db.rows, f)
  {
    hide UndisturbedMoves, Created, Topological, AllReady, RunsUndisturbed, RightlyEnded, EndsAs, Trigger, Opening, AbstractAll, Overlap;
    OverlapRunsUndisturbed(db, order, now, ms, f);
    EveryInterleavingIsSequential(db, order, now, AbstractAll(Opening(db, now), ms), f);
  }

  ghost predicate LosslessMoves(ms: seq<Move>) {
    forall i {:trigger ms[i]} | 0 <= i < |ms| :: ms[i].Atomic? ==> !ms[i].action.Lose?
  }

  lemma {:induction false} CommitLosesNothing(tx: Tx, k: nat)
    requires k <= |tx.jobs|
    ensures Lossless(AsActions(tx, k))
  {
    if k > 0 {
      CommitLosesNothing(tx, k - 1);
    }
  }

  lemma MoveLosesNothing(s: Shared, m: Move)
    requires Ready(s, m) && (m.Atomic? ==> !m.action.Lose?)
    ensures Lossless(Abstract(s, m))
  {
    if m.CommitTx? {
      CommitLosesNothing(s.txs[m.id], |s.txs[m.id].jobs|);
    }
  }

  lemma {:induction false} OverlapIsLossless(s: Shared, ms: seq<Move>)
    requires AllReady(s, ms) && LosslessMoves(ms)
    ensures Lossless(AbstractAll(s, ms))
    decreases ms
  {
    hide Ready, After;
    if ms != [] {
      assert ms[0].Atomic? ==> !ms[0].action.Lose?;
      MoveLosesNothing(s, ms[0]);
      assert LosslessMoves(ms[1..]) by {
        forall i | 0 <= i < |ms| - 1 ensures ms[1..][i].Atomic? ==> !ms[1..][i].action.Lose? {
          assert ms[i + 1].Atomic? ==> !ms[i + 1].action.Lose?;
        }
      }
      OverlapIsLossless(After(s, ms[0]), ms[1..]);
      LosslessConcat(Abstract(s, ms[0]), AbstractAll(After(s, ms[0]), ms[1..]));
    }
  }

  lemma LosslessConcat(a: seq<Action>, b: seq<Action>)
    requires Lossless(a) && Lossless(b)
    ensures Lossless(a + b)
  {
  }

  /** Overlapping transactions, messages repeated and reordered but not lost: wherever no message is
      left and nobody executes, the run is closed and every task has ended rightly. */
  lemma LosslessOverlapsEnd(db: Db, order: seq<Name>, now: real, ms: seq<Move>, f: Oracle)
    requires OverlapsUndisturbed(db, order, now, ms, f) && LosslessMoves(ms)
    ensures var t := Overlap(Opening(db, now), ms).sys;
            Exhausted(t) ==> t.db.run != RunRunning && RightlyEnded(t.db, db.rows, f)
  {
    hide RunsUndisturbed, RightlyEnded, EndsAs, Trigger, AbstractAll, Overlap, Exhausted, LosslessMoves, Lossless;
    OverlapRunsUndisturbed(db, order, now, ms, f);
    OverlapIsLossless(Opening(db, now), ms);
    LosslessRunsEnd(db, order, now, AbstractAll(Opening(db, now), ms), f);
  }
}
