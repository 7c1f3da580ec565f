/** Overlapping transactions make progress. The lock of the run is granted to whoever waits for it
    while it is free, so open transactions can always all finish; and a run that loses no message
    can always be brought to its end. */
module Progress {
  import opened Graphs
  import opened Tables
  import opened Invariant
  import opened Protocol
  import opened Termination
  import opened Confluence
  import opened Concurrency
  import opened Delivery
  import opened OverlapConfluence

  // ----- one transaction ---------------------------------------------------------------------

  /** What a transaction does next when left alone: tick, flush, or commit. */
  function NextMove(tx: Tx, id: TxId): Move {
    if tx.waiting then Tick(id) else if |tx.writes| < |tx.jobs| then Flush(id) else CommitTx(id)
  }

  function Remaining(tx: Tx): int {
    2 * (|tx.jobs| - |tx.writes|) + if tx.waiting then 1 else 0
  }

  /** Nobody else holds the lock of the run. */
  predicate LockFor(s: Shared, id: TxId) {
    s.holder == None || s.holder == Some(id)
  }

  lemma NextMoveIsReady(s: Shared, order: seq<Name>, id: TxId)
    requires SharedInv(s, order) && id in s.txs && LockFor(s, id)
    ensures Ready(s, NextMove(s.txs[id], id)) && Remaining(s.txs[id]) >= 0
  {
    hide DbInv, LogInv, Topological, JobsOk, RoleOk, Faithful, Light, Marked;
    var db, tx := s.sys.db, s.txs[id];
    assert TxInv(db, s.holder == Some(id), tx);
    if !tx.waiting && |tx.writes| < |tx.jobs| {
      OwnRow(db, order, tx.jobs, tx.writes, |tx.writes|);
    }
  }

  /** Its own move brings it nearer to its commit, and leaves the others and the system alone. */
  lemma OwnMoveGetsNearer(s: Shared, id: TxId)
    requires id in s.txs && Ready(s, NextMove(s.txs[id], id)) && !NextMove(s.txs[id], id).CommitTx? && LockFor(s, id)
    ensures var m := NextMove(s.txs[id], id);
            var s' := After(s, m);
            && s'.txs.Keys == s.txs.Keys && s'.sys == s.sys && LockFor(s', id)
            && s'.txs[id].jobs == s.txs[id].jobs && s'.txs[id].role == s.txs[id].role
            && Remaining(s'.txs[id]) < Remaining(s.txs[id])
            && s'.txs - {id} == s.txs - {id}
  {
    hide RequeuePatch, MarkPatch, ResolvePatch, Retries;
  }

  ghost predicate Finishing(ms: seq<Move>) {
    forall i {:trigger ms[i]} | 0 <= i < |ms| :: ms[i].Flush? || ms[i].Tick? || ms[i].CommitTx?
  }

  lemma {:induction false} SameActions(tx: Tx, tx': Tx, k: nat)
    requires tx.role == tx'.role && tx.jobs == tx'.jobs && k <= |tx.jobs|
    ensures AsActions(tx, k) == AsActions(tx', k)
  {
    if k > 0 {
      SameActions(tx, tx', k - 1);
    }
  }

  /** A transaction that can have the lock can flush, tick and commit to its end, on its own. */
  lemma {:induction false} OneCanFinish(s: Shared, order: seq<Name>, id: TxId) returns (ms: seq<Move>)
    requires SharedInv(s, order) && id in s.txs && LockFor(s, id)
    ensures AllReady(s, ms) && Finishing(ms) && SharedInv(Overlap(s, ms), order)
    ensures Overlap(s, ms).txs == s.txs - {id} && Overlap(s, ms).holder == None
    ensures Legal(s.sys, AsActions(s.txs[id], |s.txs[id].jobs|))
    ensures Overlap(s, ms).sys == Exec(s.sys, AsActions(s.txs[id], |s.txs[id].jobs|))
    decreases Remaining(s.txs[id])
  {
    hide SharedInv, Ready, After, Legal, Exec, Remaining, AsActions;
    var m := NextMove(s.txs[id], id);
    NextMoveIsReady(s, order, id);
    MoveRefines(s, order, m);
    var rest: seq<Move> := [];
    if m.CommitTx? {
      CommitReleases(s, id);
      CommitIsItsActions(s, id);
    } else {
      OwnMoveGetsNearer(s, id);
      NextMoveIsReady(After(s, m), order, id);
      rest := OneCanFinish(After(s, m), order, id);
      SameActions(s.txs[id], After(s, m).txs[id], |s.txs[id].jobs|);
    }
    ms := [m] + rest;
    assert ms[1..] == rest;
  }

  lemma CommitReleases(s: Shared, id: TxId)
    requires Ready(s, CommitTx(id)) && LockFor(s, id)
    ensures After(s, CommitTx(id)).txs == s.txs - {id} && After(s, CommitTx(id)).holder == None
  {
    hide CommitAll;
  }

  lemma CommitIsItsActions(s: Shared, id: TxId)
    requires Ready(s, CommitTx(id))
    ensures Abstract(s, CommitTx(id)) == AsActions(s.txs[id], |s.txs[id].jobs|)
  {
  }

  // ----- all of them -------------------------------------------------------------------------

  lemma FinishingConcat(a: seq<Move>, b: seq<Move>)
    requires Finishing(a) && Finishing(b)
    ensures Finishing(a + b)
  {
  }

  /** However many transactions are open, whatever they have done and whoever waits for whom: they
      can all finish, the holder of the lock first, and none of them need be rolled back. */
  lemma {:induction false} AllCanFinish(s: Shared, order: seq<Name>) returns (ms: seq<Move>)
    requires SharedInv(s, order)
    ensures AllReady(s, ms) && Finishing(ms) && SharedInv(Overlap(s, ms), order)
    ensures Overlap(s, ms).txs == map[] && Overlap(s, ms).holder == None
    decreases |s.txs|
  {
    hide AllReady, Overlap, Finishing, Legal, Exec;
    if s.txs == map[] {
      ms := [];
      NoMoves(s);
      NobodyHolds(s, order);
    } else {
      var id := PickFirst(s, order);
      var first := OneCanFinish(s, order, id);
      assert |s.txs - {id}| < |s.txs| by { FewerLeft(s.txs, id); }
      var rest := AllCanFinish(Overlap(s, first), order);
      MovesConcat(s, first, rest);
      FinishingConcat(first, rest);
      ms := first + rest;
    }
  }

  lemma NoMoves(s: Shared)
    ensures AllReady(s, []) && Finishing([]) && Overlap(s, []) == s
  {
  }

  lemma NobodyHolds(s: Shared, order: seq<Name>)
    requires SharedInv(s, order) && s.txs == map[]
    ensures s.holder == None
  {
  }

  lemma PickFirst(s: Shared, order: seq<Name>) returns (id: TxId)
    requires SharedInv(s, order) && s.txs != map[]
    ensures id in s.txs && LockFor(s, id)
  {
    if s.holder.Some? {
      id := s.holder.value;
    } else {
      id :| id in s.txs;
    }
  }

  lemma FewerLeft(txs: map<TxId, Tx>, id: TxId)
    requires id in txs
    ensures |txs - {id}| < |txs|
  {
    assert (txs - {id}).Keys == txs.Keys - {id};
    assert |txs.Keys - {id}| == |txs.Keys| - 1;
    assert |(txs - {id}).Keys| == |txs - {id}| && |txs.Keys| == |txs|;
  }

  // ----- to the end of the run ---------------------------------------------------------------

  lemma {:induction false} FinishingIsCalm(s: Shared, ms: seq<Move>, f: Oracle)
    requires AllReady(s, ms) && Finishing(ms)
    ensures UndisturbedMoves(s, ms, f) && LosslessMoves(ms)
    decreases ms
  {
    hide Ready, After;
    if ms != [] {
      assert ms[0].Flush? || ms[0].Tick? || ms[0].CommitTx?;
      assert Finishing(ms[1..]) by {
        forall i | 0 <= i < |ms| - 1 ensures ms[1..][i].Flush? || ms[1..][i].Tick? || ms[1..][i].CommitTx? {
          assert ms[1..][i] == ms[i + 1];
        }
      }
      FinishingIsCalm(After(s, ms[0]), ms[1..], f);
    }
  }

  lemma {:induction false} CalmConcat(s: Shared, a: seq<Move>, b: seq<Move>, f: Oracle)
    requires AllReady(s, a) && UndisturbedMoves(s, a, f) && AllReady(Overlap(s, a), b) && UndisturbedMoves(Overlap(s, a), b, f)
    ensures AllReady(s, a + b) && UndisturbedMoves(s, a + b, f)
    decreases a
  {
    hide After, Ready, Calm;
    MovesConcat(s, a, b);
    if a == [] {
      assert a + b == b;
    } else {
      CalmConcat(After(s, a[0]), a[1..], b, f);
      assert (a + b)[1..] == a[1..] + b;
    }
  }

  lemma LosslessMovesConcat(a: seq<Move>, b: seq<Move>)
    requires LosslessMoves(a) && LosslessMoves(b)
    ensures LosslessMoves(a + b)
  {
  }

  lemma {:induction false} OverlapKeepsReports(s: Shared, order: seq<Name>, ms: seq<Move>, f: Oracle)
    requires SharedInv(s, order) && OpenReports(s, f) && AllReady(s, ms) && UndisturbedMoves(s, ms, f)
    ensures OpenReports(Overlap(s, ms), f)
    decreases ms
  {
    hide SharedInv, OpenReports, After, Ready, Calm;
    if ms != [] {
      MoveRefines(s, order, ms[0]);
      MoveIsUndisturbed(s, order, ms[0], f);
      OverlapKeepsReports(After(s, ms[0]), order, ms[1..], f);
    }
  }

  /** What lossless undisturbed moves keep. */
  ghost predicate Flowing(s: Shared, order: seq<Name>, f: Oracle, rows: Rows) {
    SharedInv(s, order) && OpenReports(s, f) && FlowInv(s.sys, order, f, rows)
  }

  lemma MovesKeepFlowing(s: Shared, order: seq<Name>, ms: seq<Move>, f: Oracle, rows: Rows)
    requires Flowing(s, order, f, rows) && AllReady(s, ms) && UndisturbedMoves(s, ms, f) && LosslessMoves(ms)
    ensures Flowing(Overlap(s, ms), order, f, rows)
  {
    hide SharedInv, OpenReports, FlowInv, UndisturbedMoves, LosslessMoves, Lossless, UndisturbedRun;
    OverlapRefines(s, order, ms);
    OverlapIsUndisturbed(s, order, ms, f);
    OverlapIsLossless(s, ms);
    RunKeepsFlow(s.sys, order, f, rows, AbstractAll(s, ms));
    OverlapKeepsReports(s, order, ms, f);
  }

  lemma TwoMoves(s: Shared, a: Move, b: Move, f: Oracle)
    requires Ready(s, a) && Ready(After(s, a), b) && Calm(s, a, f) && Calm(After(s, a), b, f)
    ensures AllReady(s, [a, b]) && Overlap(s, [a, b]) == After(After(s, a), b) && UndisturbedMoves(s, [a, b], f)
  {
    hide Ready, After, Calm;
    assert [a, b][1..] == [b] && [b][1..] == [];
    assert AllReady(After(s, a), [b]) && Overlap(After(s, a), [b]) == After(After(s, a), b);
    assert UndisturbedMoves(After(s, a), [b], f);
  }

  /** A worker that holds a task can open a transaction and take its row to report on it. */
  lemma OwnerCanReport(s: Shared, order: seq<Name>, f: Oracle, n: Name) returns (ms: seq<Move>, o: Outcome)
    requires SharedInv(s, order) && s.txs == map[] && n in s.sys.db.rows && s.sys.db.rows[n].status == Running
    ensures AllReady(s, ms) && UndisturbedMoves(s, ms, f) && LosslessMoves(ms)
    ensures o.task == n && o.ok == f(n, s.sys.db.rows[n].retryCount)
    ensures var s' := Overlap(s, ms);
            s'.sys == s.sys && s'.holder == s.holder && s'.txs.Keys == {0} && s'.txs[0].role.Owner? && s'.txs[0].jobs == [o]
  {
    hide DbInv, LogInv, Topological, AllReady, Overlap, UndisturbedMoves;
    var row := s.sys.db.rows[n];
    RunningIsOwned(s.sys.db, n);
    o := Outcome(n, f(n, row.retryCount), 0.0, 0.0);
    var open, take := Open(0, Owner(row.workerId.value)), Take(0, OwnRows, [o]);
    var s1 := After(s, open);
    assert View(s1.sys.db, s1.txs[0]) == s.sys.db;
    assert Picked(s1, 0, OwnRows, n);
    assert MayTake(s1, 0, OwnRows, [o]);
    assert ReportsOnly(s.sys.db.rows, [o], f);
    assert s1.txs[0].jobs + [o] == [o];
    ms := [open, take];
    TwoMoves(s, open, take, f);
  }

  lemma RunningIsOwned(db: Db, n: Name)
    requires DbInv(db) && n in db.rows && db.rows[n].status == Running
    ensures db.rows[n].workerId.Some?
  {
    assert RowInv(db.rows, db.run, n);
  }

  lemma OneAction(tx: Tx, o: Outcome)
    requires tx.role.Owner? && tx.jobs == [o]
    ensures AsActions(tx, 1) == [Report(o)]
  {
    assert AsActions(tx, 0) == [];
  }

  lemma ExecOne(s: System, a: Action)
    requires Legal(s, [a])
    ensures Enabled(s, a) && Exec(s, [a]) == Next(s, a)
  {
    hide Next;
    assert [a][1..] == [];
  }

  /** The report can then be made to its end, and uses up work. */
  lemma ReportToEnd(s: Shared, order: seq<Name>, f: Oracle, rows: Rows, n: Name) returns (ms: seq<Move>)
    requires Flowing(s, order, f, rows) && s.txs == map[] && n in s.sys.db.rows && s.sys.db.rows[n].status == Running
    ensures AllReady(s, ms) && UndisturbedMoves(s, ms, f) && LosslessMoves(ms) && Overlap(s, ms).txs == map[]
    ensures WellFormed(s.sys.db) && WellFormed(Overlap(s, ms).sys.db)
    ensures Measure(Overlap(s, ms).sys.db) < Measure(s.sys.db)
  {
    hide SharedInv, FlowInv, Next, Measure, WellFormed, AllReady, UndisturbedMoves, Overlap, OpenReports, LosslessMoves, Finishing;
    NobodyHolds(s, order);
    var start, o := OwnerCanReport(s, order, f, n);
    OverlapRefines(s, order, start);
    var mid := Overlap(s, start);
    var finish := OneCanFinish(mid, order, 0);
    FinishingIsCalm(mid, finish, f);
    MovesConcat(s, start, finish);
    CalmConcat(s, start, finish, f);
    LosslessMovesConcat(start, finish);
    ms := start + finish;
    OneAction(mid.txs[0], o);
    ExecOne(s.sys, Report(o));
    StepKeepsFlow(s.sys, order, f, rows, Report(o));
  }

  /** A message can be delivered when no row is locked: a task is claimed, or a message used up. */
  lemma DeliverOne(s: Shared, order: seq<Name>, f: Oracle, rows: Rows, msg: Message) returns (ms: seq<Move>)
    requires Flowing(s, order, f, rows) && s.txs == map[] && msg in s.sys.broker
    ensures AllReady(s, ms) && UndisturbedMoves(s, ms, f) && LosslessMoves(ms) && Overlap(s, ms).txs == map[]
    ensures WellFormed(s.sys.db) && WellFormed(Overlap(s, ms).sys.db)
    ensures Measure(Overlap(s, ms).sys.db) <= Measure(s.sys.db)
    ensures |Overlap(s, ms).sys.broker| < |s.sys.broker|
  {
    hide SharedInv, FlowInv, Measure, WellFormed, OpenReports, Claimed;
    var a := Deliver(msg, "");
    ms := [Atomic(a)];
    assert ms[1..] == [];
    StepKeepsFlow(s.sys, order, f, rows, a);
  }

  /** With no transaction open, deliver what is left and report what is running. */
  lemma {:induction false} CanWindDown(s: Shared, order: seq<Name>, f: Oracle, rows: Rows) returns (ms: seq<Move>)
    requires Flowing(s, order, f, rows) && s.txs == map[]
    ensures AllReady(s, ms) && UndisturbedMoves(s, ms, f) && LosslessMoves(ms)
    ensures Exhausted(Overlap(s, ms).sys) && Overlap(s, ms).txs == map[]
    decreases WorkLeft(s), |s.sys.broker|
  {
    hide Flowing, AllReady, UndisturbedMoves, LosslessMoves, Overlap, Idle, WorkLeft;
    WorkKnown(s, order, f, rows);
    var first: seq<Move>;
    if n :| n in s.sys.db.rows && s.sys.db.rows[n].status == Running {
      first := ReportToEnd(s, order, f, rows, n);
    } else if m :| m in s.sys.broker {
      first := DeliverOne(s, order, f, rows, m);
    } else {
      ms := [];
      NothingLeftToDo(s, f);
      return;
    }
    MovesKeepFlowing(s, order, first, f, rows);
    WorkKnown(Overlap(s, first), order, f, rows);
    var rest := CanWindDown(Overlap(s, first), order, f, rows);
    MovesConcat(s, first, rest);
    CalmConcat(s, first, rest, f);
    LosslessMovesConcat(first, rest);
    ms := first + rest;
  }

  /** The measure of the run, where it is defined. */
  ghost function WorkLeft(s: Shared): int {
    if forall n | n in s.sys.db.names :: n in s.sys.db.rows then Measure(s.sys.db) else 0
  }

  lemma WorkKnown(s: Shared, order: seq<Name>, f: Oracle, rows: Rows)
    requires Flowing(s, order, f, rows)
    ensures WellFormed(s.sys.db) && WorkLeft(s) == Measure(s.sys.db) >= 0
  {
    hide SharedInv, OpenReports, FlowInv;
    FlowMeasure(s.sys, order, f, rows);
  }

  lemma NothingLeftToDo(s: Shared, f: Oracle)
    requires s.sys.broker == multiset{} && forall n | n in s.sys.db.rows :: s.sys.db.rows[n].status != Running
    ensures AllReady(s, []) && UndisturbedMoves(s, [], f) && LosslessMoves([]) && Overlap(s, []) == s && Exhausted(s.sys)
  {
  }

  /** Wherever a lossless undisturbed execution stands, with any number of transactions open, some
      continuation brings it to its end: no message left, nobody executing, the run closed, and
      every task rightly ended. */
  lemma LosslessOverlapsCanEnd(db: Db, order: seq<Name>, now: real, ms: seq<Move>, f: Oracle) returns (more: seq<Move>)
    requires OverlapsUndisturbed(db, order, now, ms, f) && LosslessMoves(ms)
    ensures OverlapsUndisturbed(db, order, now, ms + more, f) && LosslessMoves(ms + more)
    ensures var t := Overlap(Opening(db, now), ms + more);
            Exhausted(t.sys) && t.txs == map[] && t.sys.db.run != RunRunning && RightlyEnded(t.sys.db, db.rows, f)
  {
    hide SharedInv, FlowInv, Created, Topological, AllReady, UndisturbedMoves, LosslessMoves, Overlap, Trigger, Exhausted, RightlyEnded, Finishing;
    var s := Opening(db, now);
    OpeningInv(db, order, now);
    TriggerFlows(db, order, now, f);
    MovesKeepFlowing(s, order, ms, f, db.rows);
    var mid := Overlap(s, ms);
    var finish := AllCanFinish(mid, order);
    FinishingIsCalm(mid, finish, f);
    MovesKeepFlowing(mid, order, finish, f, db.rows);
    var rest := CanWindDown(Overlap(mid, finish), order, f, db.rows);
    MovesConcat(mid, finish, rest);
    CalmConcat(mid, finish, rest, f);
    LosslessMovesConcat(finish, rest);
    more := finish + rest;
    MovesConcat(s, ms, more);
    CalmConcat(s, ms, more, f);
    LosslessMovesConcat(ms, more);
    LosslessOverlapsEnd(db, order, now, ms + more, f);
  }

  // ----- what needs no lock ------------------------------------------------------------------

  /** A transaction may open or roll back at any time, a message may be repeated or lost, and it is
      delivered unless its task is locked. */
  lemma NothingElseWaits(s: Shared, id: TxId, role: Role, msg: Message, w: WorkerId)
    ensures id !in s.txs && (role.Sweeper? ==> role.queuedTimeout >= 0.0) ==> Ready(s, Open(id, role))
    ensures id in s.txs ==> Ready(s, Rollback(id))
    ensures msg in s.sys.broker ==> Ready(s, Atomic(Repeat(msg))) && Ready(s, Atomic(Lose(msg)))
    ensures msg in s.sys.broker && Free(s, msg.task) ==> Ready(s, Atomic(Deliver(msg, w)))
  {
  }
}
