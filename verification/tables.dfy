/** The rows of one run, and what each scheduler call writes to them (app/models.py,
    app/scheduler.py). A call never touches the committed rows: it adds to the patch of its
    transaction, which holds the transaction's own writes and its outbox. */
module Tables {
  import opened Graphs

  type WorkerId = string
  datatype Option<+T> = None | Some(value: T)

  datatype TaskStatus = Pending | Queued | Running | Success | Failed | Cancelled
  datatype RunStatus = RunRunning | RunCompleted | RunFailed | RunCancelled

  datatype Row = Row(deps: seq<Name>, status: TaskStatus, retryCount: nat, maxRetries: nat,
                     workerId: Option<WorkerId>, dispatchedAt: Option<real>)

  type Rows = map<Name, Row>

  /** `names` lists the rows in the order in which they are loaded. */
  datatype Db = Db(names: seq<Name>, rows: Rows, run: RunStatus)

  datatype Message = Message(task: Name, attempt: nat)
  datatype Publication = Publication(message: Message, delay: real, deadLetter: bool)

  /** Uncommitted writes of one transaction, and the messages held until it commits. */
  datatype Patch = Patch(rows: Rows, run: Option<RunStatus>, outbox: seq<Publication>)

  const NO_CHANGE := Patch(map[], None, [])

  /** What a transaction sees: the committed rows under its own writes. Committing makes this
      the committed state. */
  function Apply(db: Db, p: Patch): Db {
    db.(rows := db.rows + p.rows, run := if p.run.Some? then p.run.value else db.run)
  }

  function Then(p: Patch, q: Patch): Patch {
    Patch(p.rows + q.rows, if q.run.Some? then q.run else p.run, p.outbox + q.outbox)
  }

  lemma ApplyThen(db: Db, p: Patch, q: Patch)
    ensures Apply(Apply(db, p), q) == Apply(db, Then(p, q))
  {
    assert (db.rows + p.rows) + q.rows == db.rows + (p.rows + q.rows);
  }

  // ----- dag queries over rows ---------------------------------------------------------------

  ghost predicate WellFormed(db: Db) {
    && Distinct(db.names)
    && (forall n :: n in db.names <==> n in db.rows)
    && (forall n, d | n in db.rows && d in db.rows[n].deps :: d in db.rows)
  }

  function DepsOf(rows: Rows): Graph {
    map n | n in rows :: rows[n].deps
  }

  predicate DepsMet(rows: Rows, deps: seq<Name>) {
    forall d | d in deps :: d in rows && rows[d].status == Success
  }

  predicate CanRun(rows: Rows, n: Name) {
    n in rows && rows[n].status == Pending && DepsMet(rows, rows[n].deps)
  }

  predicate InFlight(row: Row) {
    row.status == Queued || row.status == Running
  }

  /** `get_runnable_tasks`: the pending tasks whose dependencies have all succeeded, in row order. */
  function RunnableAmong(rows: Rows, names: seq<Name>): (r: seq<Name>)
    ensures forall n :: n in r <==> n in names && CanRun(rows, n)
    ensures Distinct(names) ==> Distinct(r)
  {
    if names == [] then []
    else
      var rest := RunnableAmong(rows, names[1..]);
      assert names == [names[0]] + names[1..];
      if CanRun(rows, names[0]) then [names[0]] + rest else rest
  }

  /** The runnable tasks stand in row order. */
  lemma {:induction false} RunnableInRowOrder(rows: Rows, names: seq<Name>, n: Name, m: Name)
    ensures Precedes(RunnableAmong(rows, names), n, m) <==> Precedes(names, n, m) && CanRun(rows, n) && CanRun(rows, m)
  {
    if names != [] {
      var rest := RunnableAmong(rows, names[1..]);
      assert names == [names[0]] + names[1..];
      PrecedesCons(names[0], names[1..], n, m);
      PrecedesCons(names[0], rest, n, m);
      RunnableInRowOrder(rows, names[1..], n, m);
      hide Precedes;
    }
  }

  function Runnable(db: Db): seq<Name> {
    RunnableAmong(db.rows, db.names)
  }

  predicate Quiet(rows: Rows) {
    forall n | n in rows :: !CanRun(rows, n)
  }

  predicate AnyInFlight(rows: Rows) {
    exists n | n in rows :: InFlight(rows[n])
  }

  predicate AllSuccess(rows: Rows) {
    forall n | n in rows :: rows[n].status == Success
  }

  predicate AnyFailed(rows: Rows) {
    exists n | n in rows :: rows[n].status == Failed
  }

  /** `is_run_finished` */
  predicate IsRunFinished(db: Db) {
    if AnyInFlight(db.rows) then false
    else if AllSuccess(db.rows) then true
    else Runnable(db) == []
  }

  lemma RunnableIsQuiet(db: Db)
    requires WellFormed(db)
    ensures Runnable(db) == [] <==> Quiet(db.rows)
    ensures forall n :: n in Runnable(db) <==> CanRun(db.rows, n)
    ensures Distinct(Runnable(db))
  {
    if !Quiet(db.rows) {
      var n :| n in db.rows && CanRun(db.rows, n);
      assert n in Runnable(db);
    }
    if Runnable(db) != [] {
      assert Runnable(db)[0] in Runnable(db);
    }
  }

  // ----- scheduler calls ---------------------------------------------------------------------

  /** One message per dispatched task, for its current attempt. */
  function Announce(rows: Rows, names: seq<Name>): seq<Publication>
    requires forall n | n in names :: n in rows
  {
    if names == [] then []
    else [Publication(Message(names[0], rows[names[0]].retryCount), 0.0, false)] + Announce(rows, names[1..])
  }

  /** They are published at once, in the order in which the tasks are dispatched. */
  lemma {:induction false} AnnouncedInOrder(rows: Rows, names: seq<Name>)
    requires forall n | n in names :: n in rows
    ensures |Announce(rows, names)| == |names|
    ensures forall i | 0 <= i < |names| :: Announce(rows, names)[i] == Publication(Message(names[i], rows[names[i]].retryCount), 0.0, false)
  {
    if names != [] {
      AnnouncedInOrder(rows, names[1..]);
    }
  }

  /** `dispatch` */
  function DispatchPatch(rows: Rows, names: seq<Name>, now: real): Patch
    requires forall n | n in names :: n in rows
  {
    Patch(map n | n in names :: rows[n].(status := Queued, dispatchedAt := Some(now)), None, Announce(rows, names))
  }

  /** `finalize_if_done` */
  function FinalizePatch(db: Db): Patch {
    if IsRunFinished(db) then
      NO_CHANGE.(run := Some(if AnyFailed(db.rows) then RunFailed else RunCompleted))
    else NO_CHANGE
  }

  /** `resolve`: the scheduler tick. */
  function ResolvePatch(db: Db, now: real): Patch {
    if db.run == RunCancelled then NO_CHANGE
    else if Runnable(db) != [] then DispatchPatch(db.rows, Runnable(db), now)
    else FinalizePatch(db)
  }

  /** A task leaves the in-flight states for good; an exhausted one is parked as a dead letter. */
  function MarkPatch(rows: Rows, n: Name, ok: bool): Patch
    requires n in rows
  {
    if ok then NO_CHANGE.(rows := map[n := rows[n].(status := Success)])
    else Patch(map[n := rows[n].(status := Failed)], None, [Publication(Message(n, rows[n].retryCount), 0.0, true)])
  }

  /** `_requeue_for_retry`: claimable again once the backoff has passed. */
  function RequeuePatch(rows: Rows, n: Name, now: real, delay: real): Patch
    requires n in rows
  {
    var row := rows[n].(retryCount := rows[n].retryCount + 1, status := Queued, workerId := None,
                        dispatchedAt := Some(now + delay));
    Patch(map[n := row], None, [Publication(Message(n, row.retryCount), delay, false)])
  }

  /** `should_retry`, and only while the run has not been cancelled. */
  predicate Retries(db: Db, n: Name)
    requires n in db.rows
  {
    db.run != RunCancelled && db.rows[n].retryCount < db.rows[n].maxRetries
  }

  /** One reported attempt; `delay` is the backoff drawn if it is retried. */
  datatype Outcome = Outcome(task: Name, ok: bool, now: real, delay: real)

  /** `report_result` */
  function ReportPatch(db: Db, o: Outcome): Patch
    requires o.task in db.rows
  {
    if !o.ok && Retries(db, o.task) then RequeuePatch(db.rows, o.task, o.now, o.delay)
    else
      var mark := MarkPatch(db.rows, o.task, o.ok);
      Then(mark, ResolvePatch(Apply(db, mark), o.now))
  }

  function Reported(db: Db, o: Outcome): Db
    requires o.task in db.rows
  {
    Apply(db, ReportPatch(db, o))
  }

  /** `claim`: a compare-and-set gated on the row being queued. */
  function Claimed(db: Db, n: Name, w: WorkerId): Db {
    if n in db.rows && db.rows[n].status == Queued then
      db.(rows := db.rows[n := db.rows[n].(status := Running, workerId := Some(w))])
    else db
  }

  /** `cancel_run` on a run that is not yet terminal. */
  function CancelPatch(rows: Rows): Patch {
    Patch(map n | n in rows && (rows[n].status == Pending || rows[n].status == Queued) :: rows[n].(status := Cancelled),
          Some(RunCancelled), [])
  }

  function CancelledDb(db: Db): Db {
    Apply(db, CancelPatch(db.rows))
  }
}
