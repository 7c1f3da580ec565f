/** The outcome of a run does not depend on the interleaving. */
module Confluence {
  import opened Graphs
  import opened Tables
  import opened Invariant
  import opened Protocol

  /** Whether attempt number a of a task succeeds. */
  type Oracle = (Name, nat) -> bool

  /** Steps of an undisturbed run: workers, whose attempts turn out as the oracle says, and a
      broker that may lose, repeat and reorder messages; no sweep and no cancellation. */
  predicate Undisturbed(s: System, a: Action, f: Oracle) {
    match a
    case Report(o) => o.task in s.db.rows && o.ok == f(o.task, s.db.rows[o.task].retryCount)
    case Reclaim(_) => false
    case CancelRun => false
    case _ => true
  }

  ghost predicate UndisturbedRun(s: System, acts: seq<Action>, f: Oracle)
    decreases acts
  {
    acts == [] || (Enabled(s, acts[0]) && Undisturbed(s, acts[0], f) && UndisturbedRun(Next(s, acts[0]), acts[1..], f))
  }

  // ----- the reference: one task at a time ---------------------------------------------------

  datatype End = End(status: TaskStatus, retries: nat)

  /** The first attempt from a on that succeeds, or the last one allowed. */
  function LastAttempt(n: Name, f: Oracle, a: nat, limit: nat): (r: nat)
    requires a <= limit
    ensures a <= r <= limit
    ensures forall b: nat | a <= b < r :: !f(n, b)
    ensures f(n, r) || r == limit
    decreases limit - a
  {
    if f(n, a) || a == limit then a else LastAttempt(n, f, a + 1, limit)
  }

  function RunTask(n: Name, f: Oracle, maxRetries: nat): End {
    var r := LastAttempt(n, f, 0, maxRetries);
    End(if f(n, r) then Success else Failed, r)
  }

  predicate AllEndedWell(ends: map<Name, End>, deps: seq<Name>) {
    forall d | d in deps :: d in ends && ends[d].status == Success
  }

  /** Runs the tasks of `order` one after the other, each to its end, skipping those with a
      dependency that did not succeed. */
  function Sequential(rows: Rows, order: seq<Name>, f: Oracle): map<Name, End>
    requires forall n | n in order :: n in rows
  {
    if order == [] then map[]
    else
      var n := order[|order| - 1];
      var ends := Sequential(rows, order[..|order| - 1], f);
      ends[n := if AllEndedWell(ends, rows[n].deps) then RunTask(n, f, rows[n].maxRetries) else End(Pending, 0)]
  }

  // ----- what the reference says, without an order -------------------------------------------

  /** Some attempt within the task's budget succeeds. */
  ghost predicate CanSucceed(rows: Rows, n: Name, f: Oracle) {
    n in rows && exists a: nat :: a <= rows[n].maxRetries && f(n, a)
  }

  /** Every task on every dependency chain from n can succeed. */
  ghost predicate AncestorsSucceed(rows: Rows, n: Name, f: Oracle) {
    forall p {:trigger Chain(DepsOf(rows), p)} | Chain(DepsOf(rows), p) && p[0] == n && |p| > 1 :: CanSucceed(rows, p[|p| - 1], f)
  }

  /** How a task ends, told from the graph and the outcomes alone. */
  ghost predicate RightEnd(rows: Rows, n: Name, f: Oracle, end: End) {
    && (end.status == Success <==> AncestorsSucceed(rows, n, f) && CanSucceed(rows, n, f))
    && (end.status == Failed <==> AncestorsSucceed(rows, n, f) && !CanSucceed(rows, n, f))
    && (end.status == Pending <==> !AncestorsSucceed(rows, n, f))
    && (end.status == Success ==> f(n, end.retries) && forall a: nat | a < end.retries :: !f(n, a))
    && (end.status == Failed ==> n in rows && end.retries == rows[n].maxRetries)
    && (end.status == Pending ==> end.retries == 0)
  }

  lemma RunTaskRight(rows: Rows, n: Name, f: Oracle)
    requires n in rows
    ensures RunTask(n, f, rows[n].maxRetries).status == if CanSucceed(rows, n, f) then Success else Failed
  {
  }

  /** The ancestors of n are its dependencies and theirs. */
  lemma AncestorsOneUp(rows: Rows, n: Name, f: Oracle)
    requires n in rows && forall d | d in rows[n].deps :: d in rows
    ensures AncestorsSucceed(rows, n, f) <==> forall d | d in rows[n].deps :: AncestorsSucceed(rows, d, f) && CanSucceed(rows, d, f)
  {
    var g := DepsOf(rows);
    if AncestorsSucceed(rows, n, f) {
      forall d | d in rows[n].deps ensures AncestorsSucceed(rows, d, f) && CanSucceed(rows, d, f) {
        assert Chain(g, [n, d]);
        forall p | Chain(g, p) && p[0] == d && |p| > 1 ensures CanSucceed(rows, p[|p| - 1], f) {
          assert Chain(g, [n] + p);
        }
      }
    }
    if forall d | d in rows[n].deps :: AncestorsSucceed(rows, d, f) && CanSucceed(rows, d, f) {
      forall p | Chain(g, p) && p[0] == n && |p| > 1 ensures CanSucceed(rows, p[|p| - 1], f) {
        assert p[1] in rows[n].deps;
        assert |p| > 2 ==> Chain(g, p[1..]) && p[1..][0] == p[1];
      }
    }
  }

  lemma DepsComeFirst(rows: Rows, order: seq<Name>, k: nat)
    requires Topological(DepsOf(rows), order) && k < |order|
    ensures forall n | n in order :: n in rows
    ensures forall d | d in rows[order[k]].deps :: d in rows && Within(order, k, d)
  {
    forall n | n in order ensures n in rows {
      assert n in DepsOf(rows);
    }
    forall d | d in rows[order[k]].deps ensures d in rows && Within(order, k, d) {
      assert d in DepsOf(rows)[order[k]];
      assert Within(order, k, d);
    }
  }

  /** The sequential run gives every task its right end. */
  lemma {:induction false} SequentialIsRight(rows: Rows, order: seq<Name>, k: nat, f: Oracle)
    requires Topological(DepsOf(rows), order) && k <= |order|
    ensures forall n | n in order :: n in rows
    ensures forall x | 0 <= x < k :: order[x] in Sequential(rows, order[..k], f)
                                  && RightEnd(rows, order[x], f, Sequential(rows, order[..k], f)[order[x]])
  {
    hide RightEnd, AllEndedWell, RunTask;
    forall n | n in order ensures n in rows {
      assert n in DepsOf(rows);
    }
    if k > 0 {
      SequentialIsRight(rows, order, k - 1, f);
      DepsComeFirst(rows, order, k - 1);
      var n := order[k - 1];
      var ends := Sequential(rows, order[..k - 1], f);
      assert order[..k][..k - 1] == order[..k - 1];
      OneMoreRight(rows, n, ends, f);
      forall x | 0 <= x < k - 1 ensures order[x] != n {
      }
    }
  }

  /** A closed state in which every task has its right end, and the run the right status. */
  ghost predicate RightlyEnded(db: Db, rows: Rows, f: Oracle) {
    && db.rows.Keys == rows.Keys
    && (forall n {:trigger db.rows[n]} | n in db.rows :: RightEnd(rows, n, f, End(db.rows[n].status, db.rows[n].retryCount)))
    && (db.run == RunCompleted <==> forall n | n in rows :: CanSucceed(rows, n, f))
    && (db.run == RunFailed <==> exists n :: n in rows && !CanSucceed(rows, n, f))
  }

  lemma OneMoreRight(rows: Rows, n: Name, ends: map<Name, End>, f: Oracle)
    requires n in rows && forall d | d in rows[n].deps :: d in rows && d in ends && RightEnd(rows, d, f, ends[d])
    ensures RightEnd(rows, n, f, if AllEndedWell(ends, rows[n].deps) then RunTask(n, f, rows[n].maxRetries) else End(Pending, 0))
  {
    AncestorsOneUp(rows, n, f);
    RunTaskRight(rows, n, f);
    assert AllEndedWell(ends, rows[n].deps) <==> AncestorsSucceed(rows, n, f);
  }

  // ----- the invariant of undisturbed runs ---------------------------------------------------

  /** The retry counter of a row agrees with the oracle. */
  ghost predicate FollowsOracle(n: Name, row: Row, f: Oracle) {
    && (forall a: nat | a < row.retryCount :: !f(n, a))
    && (row.status == Success ==> f(n, row.retryCount))
    && (row.status == Failed ==> !f(n, row.retryCount) && row.retryCount == row.maxRetries)
    && row.status != Cancelled
  }

  ghost predicate OracleInv(rows: Rows, f: Oracle) {
    forall n {:trigger FollowsOracle(n, rows[n], f)} | n in rows :: FollowsOracle(n, rows[n], f)
  }

  lemma ResolveFollows(db: Db, now: real, f: Oracle, k: Name)
    requires WellFormed(db) && k in db.rows && FollowsOracle(k, db.rows[k], f)
    requires db.run == RunRunning
    ensures var rows' := Apply(db, ResolvePatch(db, now)).rows; k in rows' && FollowsOracle(k, rows'[k], f)
  {
    RunnableIsQuiet(db);
  }

  lemma ReportFollows(db: Db, o: Outcome, f: Oracle, k: Name)
    requires DbInv(db) && db.run == RunRunning && o.task in db.rows && db.rows[o.task].status == Running
    requires o.ok == f(o.task, db.rows[o.task].retryCount)
    requires k in db.rows && FollowsOracle(k, db.rows[k], f)
    ensures k in Reported(db, o).rows && FollowsOracle(k, Reported(db, o).rows[k], f)
  {
    hide ResolvePatch, MarkPatch, Reported, WellFormed, RunInv;
    assert RowInv(db.rows, db.run, o.task);
    if !o.ok && Retries(db, o.task) {
      RetriedReport(db, o);
    } else {
      var marked := SettledReport(db, o);
      assert FollowsOracle(k, marked.rows[k], f);
      ResolveFollows(marked, o.now, f, k);
    }
  }

  lemma ReportsFollow(db: Db, o: Outcome, f: Oracle)
    requires DbInv(db) && OracleInv(db.rows, f) && db.run != RunCancelled
    requires o.task in db.rows && db.rows[o.task].status == Running && o.ok == f(o.task, db.rows[o.task].retryCount)
    ensures OracleInv(Reported(db, o).rows, f) && Reported(db, o).run != RunCancelled
  {
    hide DbInv, FollowsOracle, Reported;
    InFlightMeansOpen(db, o.task);
    ReportKeepsOpen(db, o);
    ReportedKeys(db, o);
    var rows' := Reported(db, o).rows;
    forall k | k in rows' ensures FollowsOracle(k, rows'[k], f) {
      assert FollowsOracle(k, db.rows[k], f);
      ReportFollows(db, o, f, k);
    }
  }

  lemma ReportKeepsOpen(db: Db, o: Outcome)
    requires o.task in db.rows && db.run != RunCancelled
    ensures Reported(db, o).run != RunCancelled
  {
  }

  lemma ReportedKeys(db: Db, o: Outcome)
    requires o.task in db.rows
    ensures Reported(db, o).rows.Keys <= db.rows.Keys
  {
  }

  lemma ClaimFollows(db: Db, n: Name, w: WorkerId, f: Oracle)
    requires OracleInv(db.rows, f)
    ensures OracleInv(Claimed(db, n, w).rows, f)
  {
    var rows' := Claimed(db, n, w).rows;
    forall k | k in rows' ensures FollowsOracle(k, rows'[k], f) {
      assert FollowsOracle(k, db.rows[k], f);
    }
  }

  lemma StepFollows(s: System, a: Action, f: Oracle)
    requires SysInv(s) && s.db.run != RunCancelled && OracleInv(s.db.rows, f)
    requires Enabled(s, a) && Undisturbed(s, a, f)
    ensures OracleInv(Next(s, a).db.rows, f) && Next(s, a).db.run != RunCancelled
  {
    match a
    case Deliver(msg, w) => ClaimFollows(s.db, msg.task, w, f);
    case Report(o) => ReportsFollow(s.db, o, f);
    case Repeat(_) =>
    case Lose(_) =>
  }

  lemma {:induction false} RunFollows(s: System, order: seq<Name>, acts: seq<Action>, f: Oracle)
    requires SysInv(s) && Topological(DepsOf(s.db.rows), order)
    requires s.db.run != RunCancelled && OracleInv(s.db.rows, f) && UndisturbedRun(s, acts, f)
    ensures Legal(s, acts)
    ensures SysInv(Exec(s, acts)) && OracleInv(Exec(s, acts).db.rows, f) && Exec(s, acts).db.run != RunCancelled
    ensures SameTasks(s.db.rows, Exec(s, acts).db.rows)
    decreases acts
  {
    if acts != [] {
      var s' := Next(s, acts[0]);
      StepKeepsInv(s, order, acts[0]);
      StepFollows(s, acts[0], f);
      SameGraph(s.db.rows, s'.db.rows);
      RunFollows(s', order, acts[1..], f);
    }
  }

  // ----- the end of a run --------------------------------------------------------------------

  lemma LastAttemptUnique(n: Name, f: Oracle, limit: nat, r: nat)
    requires r <= limit && (f(n, r) || r == limit) && forall a: nat | a < r :: !f(n, a)
    ensures LastAttempt(n, f, 0, limit) == r
  {
  }

  ghost predicate Agree(row: Row, end: End) {
    row.status == end.status && row.retryCount == end.retries
  }

  /** In a closed run, a task whose dependencies all succeeded has run to its own end. */
  lemma ClosedTask(db: Db, f: Oracle, n: Name)
    requires DbInv(db) && OracleInv(db.rows, f) && n in db.rows
    requires db.run == RunCompleted || db.run == RunFailed
    ensures Agree(db.rows[n], if DepsMet(db.rows, db.rows[n].deps) then RunTask(n, f, db.rows[n].maxRetries) else End(Pending, 0))
  {
    var row := db.rows[n];
    assert RowInv(db.rows, db.run, n);
    assert FollowsOracle(n, row, f);
    assert !CanRun(db.rows, n);
    assert !InFlight(row);
    if row.status != Pending {
      LastAttemptUnique(n, f, row.maxRetries, row.retryCount);
    }
  }

  lemma {:induction false} SequentialEnds(rows: Rows, order: seq<Name>, f: Oracle)
    requires forall n | n in order :: n in rows
    ensures forall n :: n in Sequential(rows, order, f) <==> n in order
  {
    if order != [] {
      SequentialEnds(rows, order[..|order| - 1], f);
      assert order == order[..|order| - 1] + [order[|order| - 1]];
    }
  }

  lemma OrderRepeatsNone(rows: Rows, order: seq<Name>)
    requires Topological(DepsOf(rows), order)
    ensures Distinct(order)
  {
  }

  lemma NextEnd(rows: Rows, order: seq<Name>, k: nat, f: Oracle)
    requires k < |order| && forall n | n in order :: n in rows
    ensures forall n | n in order[..k] :: n in rows
    ensures forall n | n in order[..k + 1] :: n in rows
    ensures var ends, n := Sequential(rows, order[..k], f), order[k];
            Sequential(rows, order[..k + 1], f) ==
            ends[n := if AllEndedWell(ends, rows[n].deps) then RunTask(n, f, rows[n].maxRetries) else End(Pending, 0)]
  {
    assert order[..k + 1][..k] == order[..k];
  }

  lemma {:induction false} PrefixAgrees(db: Db, rows: Rows, order: seq<Name>, k: nat, f: Oracle)
    requires DbInv(db) && OracleInv(db.rows, f) && SameTasks(rows, db.rows)
    requires db.run == RunCompleted || db.run == RunFailed
    requires Topological(DepsOf(rows), order) && k <= |order|
    ensures forall n | n in order :: n in rows
    ensures forall x | 0 <= x < k :: order[x] in Sequential(rows, order[..k], f)
                                  && Agree(db.rows[order[x]], Sequential(rows, order[..k], f)[order[x]])
  {
    hide DbInv, OracleInv, RunTask, AllEndedWell, DepsMet, Topological, Sequential;
    OrderHasAll(rows, order);
    if k > 0 {
      PrefixAgrees(db, rows, order, k - 1, f);
      DepsComeFirst(rows, order, k - 1);
      OrderRepeatsNone(rows, order);
      NextEnd(rows, order, k - 1, f);
      SameDepsMet(db.rows, Sequential(rows, order[..k - 1], f), rows[order[k - 1]].deps);
      ClosedTask(db, f, order[k - 1]);
      hide Agree, Distinct;
      forall x | 0 <= x < k - 1 ensures order[x] != order[k - 1] {
        Apart(order, x, k - 1);
      }
    }
  }

  lemma Apart(order: seq<Name>, x: nat, y: nat)
    requires Distinct(order) && x < y < |order|
    ensures order[x] != order[y]
  {
  }

  lemma SameDepsMet(rows: Rows, ends: map<Name, End>, deps: seq<Name>)
    requires forall d | d in deps :: d in rows && d in ends && Agree(rows[d], ends[d])
    ensures AllEndedWell(ends, deps) <==> DepsMet(rows, deps)
  {
    if DepsMet(rows, deps) {
      forall d | d in deps ensures ends[d].status == Success {
        assert Agree(rows[d], ends[d]);
      }
    }
    if AllEndedWell(ends, deps) {
      forall d | d in deps ensures rows[d].status == Success {
        assert Agree(rows[d], ends[d]);
      }
    }
  }

  /** Every task ended as in the reference, and the run was closed accordingly. */
  ghost predicate EndsAs(db: Db, ends: map<Name, End>) {
    && db.rows.Keys == ends.Keys
    && (forall n {:trigger Agree(db.rows[n], ends[n])} | n in db.rows :: Agree(db.rows[n], ends[n]))
    && db.run == if AllEndWell(ends) then RunCompleted else RunFailed
  }

  predicate AllEndWell(ends: map<Name, End>) {
    forall n | n in ends :: ends[n].status == Success
  }

  lemma OrderHasAll(rows: Rows, order: seq<Name>)
    requires Topological(DepsOf(rows), order)
    ensures forall n :: n in order <==> n in rows
  {
    forall n ensures n in order <==> n in rows {
      assert n in DepsOf(rows) <==> n in rows;
    }
  }

  lemma ClosedEnds(db: Db, rows: Rows, order: seq<Name>, f: Oracle)
    requires DbInv(db) && OracleInv(db.rows, f) && SameTasks(rows, db.rows)
    requires db.run == RunCompleted || db.run == RunFailed
    requires Topological(DepsOf(rows), order)
    ensures forall n | n in order :: n in rows
    ensures EndsAs(db, Sequential(rows, order, f))
  {
    hide Topological, OracleInv, Sequential, RowsInv, WellFormed;
    OrderHasAll(rows, order);
    PrefixAgrees(db, rows, order, |order|, f);
    assert order[..|order|] == order;
    SequentialEnds(rows, order, f);
    var ends := Sequential(rows, order, f);
    forall n | n in db.rows ensures n in ends && Agree(db.rows[n], ends[n]) {
      var x :| 0 <= x < |order| && order[x] == n;
    }
    ClosedAsEnded(db, ends);
  }

  lemma ClosedAsEnded(db: Db, ends: map<Name, End>)
    requires RunInv(db.rows, db.run) && (db.run == RunCompleted || db.run == RunFailed)
    requires db.rows.Keys == ends.Keys && forall n {:trigger Agree(db.rows[n], ends[n])} | n in db.rows :: Agree(db.rows[n], ends[n])
    ensures db.run == if AllEndWell(ends) then RunCompleted else RunFailed
  {
    if db.run == RunFailed {
      var n :| n in db.rows && db.rows[n].status == Failed;
      assert Agree(db.rows[n], ends[n]);
    } else {
      forall n | n in ends ensures ends[n].status == Success {
        assert Agree(db.rows[n], ends[n]);
      }
    }
  }

  /** Ending as the reference does is ending rightly: nothing depends on the order chosen. */
  lemma EndsRightly(db: Db, rows: Rows, order: seq<Name>, f: Oracle)
    requires Topological(DepsOf(rows), order)
    requires forall n | n in order :: n in rows
    requires EndsAs(db, Sequential(rows, order, f))
    ensures RightlyEnded(db, rows, f)
  {
    hide Topological, Sequential, RightEnd, CanSucceed;
    var ends := Sequential(rows, order, f);
    OrderHasAll(rows, order);
    SequentialIsRight(rows, order, |order|, f);
    assert order[..|order|] == order;
    SequentialEnds(rows, order, f);
    forall n | n in db.rows ensures RightEnd(rows, n, f, ends[n]) && End(db.rows[n].status, db.rows[n].retryCount) == ends[n] {
      var x :| 0 <= x < |order| && order[x] == n;
      assert Agree(db.rows[n], ends[n]);
    }
    AllSucceedOrNot(rows, ends, f);
  }

  /** All tasks end well exactly when every one of them can succeed. */
  lemma AllSucceedOrNot(rows: Rows, ends: map<Name, End>, f: Oracle)
    requires rows.Keys == ends.Keys && forall n | n in rows :: RightEnd(rows, n, f, ends[n])
    ensures AllEndWell(ends) <==> forall n | n in rows :: CanSucceed(rows, n, f)
  {
    if forall n | n in rows :: CanSucceed(rows, n, f) {
      forall n | n in ends ensures ends[n].status == Success {
        ChainsStayInside(rows, n, f);
      }
    }
  }

  lemma ChainsStayInside(rows: Rows, n: Name, f: Oracle)
    requires forall k | k in rows :: CanSucceed(rows, k, f)
    ensures AncestorsSucceed(rows, n, f)
  {
    forall p | Chain(DepsOf(rows), p) && p[0] == n && |p| > 1 ensures CanSucceed(rows, p[|p| - 1], f) {
      assert p[|p| - 1] in DepsOf(rows);
    }
  }

  lemma TriggerFollows(db: Db, order: seq<Name>, now: real, f: Oracle)
    requires Created(db) && Topological(DepsOf(db.rows), order)
    ensures OracleInv(Trigger(db, now).db.rows, f) && Trigger(db, now).db.run != RunCancelled
  {
    TriggerEstablishes(db, order, now);
    var rows' := Trigger(db, now).db.rows;
    forall n | n in rows' ensures FollowsOracle(n, rows'[n], f) {
      ResolveFollows(db, now, f, n);
    }
  }

  /** An undisturbed run from the trigger of a validated workflow. */
  ghost predicate RunsUndisturbed(db: Db, order: seq<Name>, now: real, acts: seq<Action>, f: Oracle) {
    Created(db) && Topological(DepsOf(db.rows), order) && UndisturbedRun(Trigger(db, now), acts, f)
  }

  lemma UndisturbedInv(db: Db, order: seq<Name>, now: real, acts: seq<Action>, f: Oracle)
    requires RunsUndisturbed(db, order, now, acts, f)
    ensures Legal(Trigger(db, now), acts)
    ensures var s := Exec(Trigger(db, now), acts);
            SysInv(s) && OracleInv(s.db.rows, f) && s.db.run != RunCancelled && SameTasks(db.rows, s.db.rows)
  {
    TriggerEstablishes(db, order, now);
    TriggerFollows(db, order, now, f);
    SameGraph(db.rows, Trigger(db, now).db.rows);
    RunFollows(Trigger(db, now), order, acts, f);
  }

  /** Any interleaving of any number of workers that reaches a closed run ends every task with the
      status and the retry count that running the tasks one at a time, in topological order, gives
      it: success if the task and all its ancestors can succeed, failed if only its ancestors can,
      pending otherwise; and the run is completed exactly when all of them succeed. */
  lemma EveryInterleavingIsSequential(db: Db, order: seq<Name>, now: real, acts: seq<Action>, f: Oracle)
    requires RunsUndisturbed(db, order, now, acts, f)
    ensures Legal(Trigger(db, now), acts)
    ensures forall n | n in order :: n in db.rows
    ensures var s := Exec(Trigger(db, now), acts);
            s.db.run != RunRunning ==> EndsAs(s.db, Sequential(db.rows, order, f)) && RightlyEnded(s.db, db.rows, f)
  {
    UndisturbedInv(db, order, now, acts, f);
    forall n | n in order ensures n in db.rows {
      assert n in DepsOf(db.rows);
    }
    var s := Exec(Trigger(db, now), acts);
    if s.db.run != RunRunning {
      ClosedEnds(s.db, db.rows, order, f);
      EndsRightly(s.db, db.rows, order, f);
    }
  }

  /** The two states agree on everything that lasts. */
  ghost predicate SameEnd(s: System, t: System) {
    && s.db.run == t.db.run && s.db.rows.Keys == t.db.rows.Keys
    && forall n {:trigger SameRowEnd(n, s, t)} | n in s.db.rows :: SameRowEnd(n, s, t)
  }

  ghost predicate SameRowEnd(n: Name, s: System, t: System) {
    && n in s.db.rows && n in t.db.rows
    && s.db.rows[n].status == t.db.rows[n].status && s.db.rows[n].retryCount == t.db.rows[n].retryCount
    && forall a: nat :: s.log.published[Message(n, a)] == t.log.published[Message(n, a)]
  }

  lemma SameHistory(s: System, t: System, n: Name)
    requires SysInv(s) && SysInv(t) && n in s.db.rows && n in t.db.rows
    requires s.db.rows[n].status == t.db.rows[n].status && s.db.rows[n].retryCount == t.db.rows[n].retryCount
    requires s.db.rows[n].status != Cancelled
    ensures SameRowEnd(n, s, t)
  {
    assert LogOk(n, s.db.rows[n], s.log) && LogOk(n, t.db.rows[n], t.log);
    assert RowInv(s.db.rows, s.db.run, n) && RowInv(t.db.rows, t.db.run, n);
  }

  lemma SameReference(s: System, t: System, ends: map<Name, End>, f: Oracle)
    requires SysInv(s) && SysInv(t) && OracleInv(s.db.rows, f) && EndsAs(s.db, ends) && EndsAs(t.db, ends)
    ensures SameEnd(s, t)
  {
    forall n | n in s.db.rows ensures SameRowEnd(n, s, t) {
      assert Agree(s.db.rows[n], ends[n]) && Agree(t.db.rows[n], ends[n]);
      assert FollowsOracle(n, s.db.rows[n], f);
      SameHistory(s, t, n);
    }
  }

  /** Two closed runs of the same workflow with the same attempt outcomes agree on everything that
      lasts: statuses, retry counts, the run's own status, and what was published. */
  lemma RunsAgree(db: Db, order: seq<Name>, now: real, acts: seq<Action>, now': real, acts': seq<Action>, f: Oracle)
    requires RunsUndisturbed(db, order, now, acts, f) && RunsUndisturbed(db, order, now', acts', f)
    ensures Legal(Trigger(db, now), acts) && Legal(Trigger(db, now'), acts')
    ensures var s, t := Exec(Trigger(db, now), acts), Exec(Trigger(db, now'), acts');
            s.db.run != RunRunning && t.db.run != RunRunning ==> SameEnd(s, t)
  {
    UndisturbedInv(db, order, now, acts, f);
    UndisturbedInv(db, order, now', acts', f);
    var s, t := Exec(Trigger(db, now), acts), Exec(Trigger(db, now'), acts');
    if s.db.run != RunRunning && t.db.run != RunRunning {
      ClosedEnds(s.db, db.rows, order, f);
      ClosedEnds(t.db, db.rows, order, f);
      SameReference(s, t, Sequential(db.rows, order, f), f);
    }
  }
}
