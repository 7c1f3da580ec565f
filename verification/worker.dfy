/** The worker and the drain loop of the in-process queue (app/worker.py, `consume` in
    app/broker.py): each delivery is at most two steps of the protocol, and draining the queue
    brings the run to its end. */
module WorkerLoop {
  import opened Graphs
  import opened Tables
  import opened Invariant
  import opened Protocol
  import opened Guarantees
  import opened Termination
  import opened Confluence
  import opened Delivery
  import opened Dag
  import opened Runs
  import opened Broker
  import opened Patches
  import opened Retry
  import opened Recovery
  import opened SessionLayer

  // ----- one delivery ------------------------------------------------------------------------

  /** The protocol's account of one delivery: claim or decline, and if claimed, report. */
  function Handled(s: System, msg: Message, w: WorkerId, o: Outcome): System
    requires msg in s.broker && (Wins(s.db, msg.task) ==> o.task == msg.task)
  {
    if Wins(s.db, msg.task) then Next(Next(s, Deliver(msg, w)), Report(o)) else Next(s, Deliver(msg, w))
  }

  /** Between two deliveries of a lone worker. */
  ghost predicate DrainInv(s: System, order: seq<Name>, f: Oracle, rows: Rows) {
    FlowInv(s, order, f, rows) && Idle(s.db.rows)
  }

  lemma ReportStartsNothing(db: Db, o: Outcome, n: Name)
    requires DbInv(db) && o.task in db.rows && InFlight(db.rows[o.task]) && n in db.rows
    ensures n in Reported(db, o).rows
    ensures Reported(db, o).rows[n].status == Running ==> n != o.task && db.rows[n].status == Running
  {
    hide DbInv, ResolvePatch, MarkPatch, Reported, WellFormed;
    RunOfReport(db, o.task);
    if !o.ok && Retries(db, o.task) {
      RetriedReport(db, o);
    } else {
      var marked := SettledReport(db, o);
      ResolveMoves(marked, o.now, n);
    }
  }

  lemma ReportStaysIdle(db: Db, o: Outcome)
    requires DbInv(db) && o.task in db.rows && db.rows[o.task].status == Running
    requires forall n | n in db.rows && db.rows[n].status == Running :: n == o.task
    ensures Idle(Reported(db, o).rows)
  {
    hide DbInv, Reported;
    ReportedKeys(db, o);
    var rows' := Reported(db, o).rows;
    forall n | n in rows' ensures rows'[n].status != Running {
      ReportStartsNothing(db, o, n);
    }
  }

  lemma DeclineKeepsDrain(s: System, order: seq<Name>, f: Oracle, rows: Rows, msg: Message, w: WorkerId, o: Outcome)
    requires DrainInv(s, order, f, rows) && msg in s.broker && !Wins(s.db, msg.task)
    ensures DrainInv(Handled(s, msg, w, o), order, f, rows) && Handled(s, msg, w, o).db == s.db
  {
    hide FlowInv;
    StepKeepsFlow(s, order, f, rows, Deliver(msg, w));
  }

  lemma HandledKeepsDrain(s: System, order: seq<Name>, f: Oracle, rows: Rows, msg: Message, w: WorkerId, o: Outcome)
    requires DrainInv(s, order, f, rows) && msg in s.broker && Wins(s.db, msg.task)
    requires o.task == msg.task && o.ok == f(o.task, s.db.rows[o.task].retryCount)
    ensures DrainInv(Handled(s, msg, w, o), order, f, rows)
    ensures WellFormed(s.db) && WellFormed(Handled(s, msg, w, o).db)
    ensures Measure(Handled(s, msg, w, o).db) < Measure(s.db)
  {
    hide FlowInv, ReportPatch, Measure, WellFormed;
    var s1 := Next(s, Deliver(msg, w));
    StepKeepsFlow(s, order, f, rows, Deliver(msg, w));
    StepKeepsFlow(s1, order, f, rows, Report(o));
    FlowDb(s1, order, f, rows);
    ReportStaysIdle(s1.db, o);
  }

  /** A delivery that the queue repeats changes nothing that the drain relies on. */
  lemma RepeatKeepsDrain(s: System, order: seq<Name>, f: Oracle, rows: Rows, msg: Message)
    requires DrainInv(s, order, f, rows) && msg in s.broker
    ensures DrainInv(Next(s, Repeat(msg)), order, f, rows)
  {
    hide FlowInv;
    StepKeepsFlow(s, order, f, rows, Repeat(msg));
  }

  lemma DrainMeasure(s: System, order: seq<Name>, f: Oracle, rows: Rows)
    requires DrainInv(s, order, f, rows)
    ensures WellFormed(s.db) && forall n | n in s.db.names :: n in s.db.rows
    ensures forall n | n in order :: n in rows
    ensures Measure(s.db) >= 0
  {
    hide FlowInv;
    FlowMeasure(s, order, f, rows);
  }

  /** With an empty queue there is nothing left to do: the run is closed, as in the reference. */
  lemma EmptyQueueMeansDone(s: System, order: seq<Name>, f: Oracle, rows: Rows)
    requires DrainInv(s, order, f, rows) && s.broker == multiset{}
    ensures forall n | n in order :: n in rows
    ensures EndsAs(s.db, Sequential(rows, order, f)) && RightlyEnded(s.db, rows, f)
  {
    hide FlowInv;
    ExhaustedMeansDone(s, order, f, rows);
  }

  lemma ClaimCommitted(s: System, p: Patch, msg: Message, w: WorkerId)
    requires msg in s.broker && Wins(s.db, msg.task)
    requires Apply(s.db, p) == Claimed(s.db, msg.task, w) && p.outbox == []
    ensures Committed(System(s.db, s.broker - multiset{msg}, s.log), p, multiset{Message(msg.task, s.db.rows[msg.task].retryCount)}, multiset{})
            == Next(s, Deliver(msg, w))
  {
  }

  lemma ClaimDeclined(s: System, msg: Message, w: WorkerId)
    requires msg in s.broker && !Wins(s.db, msg.task)
    ensures Next(s, Deliver(msg, w)) == s.(broker := s.broker - multiset{msg})
  {
  }

  lemma ClaimedWellFormed(db: Db, n: Name, w: WorkerId)
    requires WellFormed(db)
    ensures WellFormed(Claimed(db, n, w)) && Claimed(db, n, w).rows.Keys == db.rows.Keys
    ensures n in db.rows ==> Claimed(db, n, w).rows[n].retryCount == db.rows[n].retryCount
  {
    SameWellFormed(db, Claimed(db, n, w));
  }

  lemma BeatJoins(workers: Workers, id: WorkerId, now: real)
    ensures workers + map[][id := Some(now)] == workers[id := Some(now)]
  {
  }

  lemma ClaimedNone(db: Db, n: Name, w: WorkerId)
    ensures !Wins(db, n) ==> Claimed(db, n, w) == db
  {
  }

  lemma NothingWaiting()
    ensures Contents([]) == multiset{}
  {
  }

  // ----- a retry is held back ----------------------------------------------------------------

  /** The message of a retry is the only one added to the queue. It is due once the backoff has
      passed, by which the row is stamped to be claimable too, and the backoff is one that the
      settings allow for this retry. */
  ghost predicate HeldBack(n: Name, row: Row, now: real, before: seq<Entry>, after: seq<Entry>, clock: real, s: Settings) {
    && row.dispatchedAt.Some?
    && var backoff := row.dispatchedAt.value - now;
    && (exists draw :: -1.0 <= draw <= 1.0 && BackoffDelay(row.retryCount, s.base, s.maximum, s.jitter, draw) == Delay(backoff))
    && (exists e :: e in after && e !in before)
    && (forall e | e in after :: e in before || (e.message == Message(n, row.retryCount) && e.at >= clock + backoff))
  }

  /** What the queue gains when a report has been committed. A retry is held back, and whatever else
      is published is due at once; nothing that was waiting is lost. */
  ghost predicate QueuedBy(db: Db, db': Db, o: Outcome, before: seq<Entry>, after: seq<Entry>, from: real, to: real, s: Settings) {
    && o.task in db.rows && o.task in db'.rows && (forall e | e in before :: e in after)
    && if !o.ok && db.run != RunCancelled && db.rows[o.task].retryCount < db.rows[o.task].maxRetries
       then HeldBack(o.task, db'.rows[o.task], o.now, before, after, from, s)
            && db'.rows[o.task].retryCount == db.rows[o.task].retryCount + 1
       else forall e | e in after :: e in before || e.at <= to
  }

  lemma ReportQueues(db: Db, db': Db, o: Outcome, outbox: seq<Publication>, before: seq<Entry>, after: seq<Entry>,
                     added: map<nat, Entry>, from: real, to: real, s: Settings, draw: real)
    requires WellFormed(db) && AttemptReported(db, db', o, [], outbox) && outbox == ReportPatch(db, o).outbox
    requires Scheduled(before, after, added, outbox, {}, from, to) && -1.0 <= draw <= 1.0
    requires BackoffDelay(db.rows[o.task].retryCount + 1, s.base, s.maximum, s.jitter, draw) == Delay(o.delay)
    ensures QueuedBy(db, db', o, before, after, from, to, s)
  {
    hide WellFormed, ReportPatch, Scheduled, AtOnce, BackoffDelay;
    if !o.ok && Retries(db, o.task) {
      var p := Publication(Message(o.task, db.rows[o.task].retryCount + 1), o.delay, false);
      assert outbox == [p];
      OneScheduled(before, after, added, p, from, to);
    } else {
      SettlingPublishesAtOnce(db, o);
      AllScheduledAtOnce(before, after, added, outbox, from, to);
    }
  }

  lemma QueuedByEarlier(db: Db, db': Db, o: Outcome, after: seq<Entry>, before: seq<Entry>, earlier: real, from: real, to: real, s: Settings)
    requires QueuedBy(db, db', o, before, after, from, to, s) && earlier <= from
    ensures QueuedBy(db, db', o, before, after, earlier, to, s)
  {
    hide BackoffDelay;
  }

  class Worker {
    const id: WorkerId
    const database: Database
    const broker: InMemoryBroker
    const settings: Settings

    constructor (id: WorkerId, database: Database, broker: InMemoryBroker, settings: Settings)
      ensures this.id == id && this.database == database && this.broker == broker && this.settings == settings
    {
      this.id, this.database, this.broker, this.settings := id, database, broker, settings;
    }

    /** The run as the protocol sees it. */
    ghost function Sys(): System
      reads database, broker
    {
      System(database.committed, Contents(broker.heap), database.log)
    }

    /** The same, with one message taken off the queue and not yet dealt with. */
    ghost function Holding(message: Message): System
      reads database, broker
    {
      System(database.committed, Contents(broker.heap) + multiset{message}, database.log)
    }

    ghost predicate Opened(session: Session)
      reads session
    {
      session.database == database && session.broker == broker && session.settings == settings && session.Clean()
    }

    /** Claims the task in a transaction of its own, or rolls back. */
    method TakeClaim(session: Session, message: Message) returns (won: bool)
      requires Opened(session) && broker.Valid()
      modifies session, database, broker
      ensures Opened(session) && broker.Valid() && broker.clock >= old(broker.clock)
      ensures won <==> Wins(old(database.committed), message.task)
      ensures Sys() == Next(old(Holding(message)), Deliver(message, id))
      ensures broker.heap == old(broker.heap)
      ensures won ==> exists now :: database.workers == old(database.workers)[id := Some(now)]
      ensures !won ==> database.workers == old(database.workers)
    {
      hide Contents, Committed, Next, Claimed, Apply;
      ghost var before := Holding(message);
      assert before.broker - multiset{message} == Contents(broker.heap);
      CommittedView(database.committed);
      won := session.Claim(message.task, id);
      if won {
        var now: real := *;
        session.Heartbeat(id, now);
        assert session.claimed == multiset{Message(message.task, before.db.rows[message.task].retryCount)};
        ClaimCommitted(before, session.patch, message, id);
        BeatJoins(database.workers, id, now);
        var _ := session.CommitWhole();
      } else {
        session.Rollback();
        ClaimDeclined(before, message, id);
      }
    }

    method BeatIfDone(session: Session, ok: bool, now: real)
      modifies session`beats
      ensures session.beats == if ok then old(session.beats)[id := Some(now)] else old(session.beats)
    {
      if ok {
        session.Heartbeat(id, now);
      }
    }

    /** Executes the attempt and reports how it went; nothing is committed yet. */
    method Execute(session: Session, n: Name, f: Oracle) returns (ghost o: Outcome, ghost drawn: real)
      requires Opened(session) && WellFormed(database.committed) && n in database.committed.rows
      modifies session
      ensures o.task == n && o.ok == f(n, database.committed.rows[n].retryCount)
      ensures -1.0 <= drawn <= 1.0
      ensures BackoffDelay(database.committed.rows[n].retryCount + 1, settings.base, settings.maximum, settings.jitter, drawn) == Delay(o.delay)
      ensures session.patch == ReportPatch(database.committed, o) && session.claimed == multiset{}
      ensures session.charged == if o.ok then multiset{} else multiset{n}
      ensures AttemptReported(database.committed, session.View(), o, [], session.patch.outbox)
      ensures session.beats == if o.ok then map[id := Some(o.now)] else map[]
    {
      hide ReportPatch, WellFormed, Then, Apply, AttemptReported, BackoffDelay;
      CommittedView(database.committed);
      var now: real := *;
      var draw: real :| -1.0 <= draw <= 1.0;
      drawn := draw;
      var ok := f(n, session.View().rows[n].retryCount);
      o := session.OutcomeOf(n, ok, now, draw);
      session.ReportResult(n, ok, now, draw);
      PatchAlone(ReportPatch(database.committed, o));
      BeatIfDone(session, ok, now);
    }

    /** Executes the attempt and reports how it went, in a second transaction. */
    method RunAttempt(session: Session, n: Name, f: Oracle) returns (ghost o: Outcome)
      requires Opened(session) && broker.Valid() && WellFormed(database.committed) && n in database.committed.rows
      modifies session, database, broker
      ensures broker.Valid() && broker.clock >= old(broker.clock)
      ensures o.task == n && o.ok == f(n, old(database.committed).rows[n].retryCount)
      ensures Sys() == Finish(old(Sys()), o)
      ensures QueuedBy(old(database.committed), database.committed, o, old(broker.heap), broker.heap, old(broker.clock), broker.clock, settings)
      ensures database.workers == if o.ok then old(database.workers)[id := Some(o.now)] else old(database.workers)
    {
      hide Contents, ReportPatch, WellFormed, Committed, Finish, Apply, Scheduled, AttemptReported, QueuedBy, BackoffDelay;
      ghost var before, heap, clock := Sys(), broker.heap, broker.clock;
      ghost var drawn;
      o, drawn := Execute(session, n, f);
      BeatJoins(database.workers, id, o.now);
      ghost var added := session.CommitWhole();
      ReportCommitted(before, o);
      ReportQueues(before.db, database.committed, o, ReportPatch(before.db, o).outbox, heap, broker.heap, added, clock, broker.clock, settings, drawn);
    }

    /** `handle`: one delivery, already taken off the queue. `f` says how the attempt turns out;
        an exception in the handler is a failed attempt, not a failed delivery. */
    method Handle(message: Message, f: Oracle) returns (acked: bool, ghost o: Outcome)
      requires broker.Valid() && WellFormed(database.committed)
      modifies database, broker
      ensures acked && broker.Valid() && broker.clock >= old(broker.clock)
      ensures var s := old(Holding(message));
              && (Wins(s.db, message.task) ==> o.task == message.task && o.ok == f(o.task, s.db.rows[o.task].retryCount))
              && Sys() == Handled(s, message, id, o)
      ensures if Wins(old(database.committed), message.task)
              then QueuedBy(Claimed(old(database.committed), message.task, id), database.committed, o, old(broker.heap), broker.heap,
                            old(broker.clock), broker.clock, settings)
              else broker.heap == old(broker.heap)
    {
      hide Contents, Finish, Commit, QueuedBy, WellFormed, Claimed, Apply;
      ghost var before := Holding(message);
      acked, o := true, Outcome(message.task, true, 0.0, 0.0);
      var session := new Session(database, broker, settings);
      CommittedView(database.committed);
      ClaimedNone(database.committed, message.task, id);
      if message.task !in session.View().rows {
        assert before.broker - multiset{message} == Contents(broker.heap);
        return;
      }
      var won := TakeClaim(session, message);
      if won {
        ClaimedWellFormed(before.db, message.task, id);
        ghost var claimed, clock := database.committed, broker.clock;
        o := RunAttempt(session, message.task, f);
        QueuedByEarlier(claimed, database.committed, o, broker.heap, old(broker.heap), old(broker.clock), clock, broker.clock, settings);
      }
    }

    /** `consume(handle, wait)`: drains the messages that are due, and those their handling
        publishes; with `wait` it sleeps until the delayed ones are due as well. */
    method Consume(wait: bool, f: Oracle, ghost order: seq<Name>, ghost rows: Rows)
      requires broker.Valid() && DrainInv(Sys(), order, f, rows)
      modifies database, broker
      ensures broker.Valid() && DrainInv(Sys(), order, f, rows)
      ensures wait ==> broker.heap == []
      ensures broker.heap != [] ==> broker.heap[0].at > broker.clock
      ensures forall n | n in order :: n in rows
      ensures broker.heap == [] ==> EndsAs(database.committed, Sequential(rows, order, f)) && RightlyEnded(database.committed, rows, f)
    {
      hide DrainInv, Measure, Handled, Contents, Sequential, EndsAs, RightlyEnded, WellFormed;
      DrainMeasure(Sys(), order, f, rows);
      while true
        invariant broker.Valid() && DrainInv(Sys(), order, f, rows)
        invariant WellFormed(database.committed) && forall n | n in database.committed.names :: n in database.committed.rows
        invariant Measure(database.committed) >= 0
        decreases Measure(database.committed), |broker.heap|, if broker.heap != [] && broker.heap[0].at > broker.clock then 1 else 0
      {
        ghost var before := Sys();
        var next := broker.PopDue();
        if next.Some? {
          var _, o := Handle(next.value, f);
          if Wins(before.db, next.value.task) {
            HandledKeepsDrain(before, order, f, rows, next.value, id, o);
          } else {
            DeclineKeepsDrain(before, order, f, rows, next.value, id, o);
          }
          DrainMeasure(Sys(), order, f, rows);
        } else if broker.heap == [] {
          break;
        } else if !wait {
          break;
        } else {
          var due := broker.heap[0].at;
          var now := broker.Monotonic();
          broker.Sleep(if due > now then due - now else 0.0);
        }
      }
      if broker.heap == [] {
        NothingWaiting();
        EmptyQueueMeansDone(Sys(), order, f, rows);
      }
    }
  }

  // ----- from a definition to the end of its run ---------------------------------------------

  lemma TriggerCommitted(db: Db, now: real)
    ensures Committed(System(db, multiset{}, EMPTY_LOG), ResolvePatch(db, now), multiset{}, multiset{}) == Trigger(db, now)
  {
  }

  lemma TriggerDrains(db: Db, order: seq<Name>, now: real, f: Oracle)
    requires Created(db) && Topological(DepsOf(db.rows), order)
    ensures DrainInv(Trigger(db, now), order, f, db.rows)
  {
    hide FlowInv;
    TriggerFlows(db, order, now, f);
    TriggerAnnounces(db, now);
  }

  /** Creates the run, resolves its first wave, and commits. */
  method TriggerRun(db: Db, broker: InMemoryBroker, settings: Settings) returns (database: Database, ghost now: real)
    requires Created(db) && broker.Valid() && broker.heap == []
    modifies broker
    ensures fresh(database) && broker.Valid() && forall e | e in broker.heap :: e.at <= broker.clock
    ensures System(database.committed, Contents(broker.heap), database.log) == Trigger(db, now)
  {
    hide Contents, ResolvePatch, Trigger, Scheduled, AtOnce, Committed, Apply, Created, WellFormed;
    CommittedView(db);
    CreatedWellFormed(db);
    NothingWaiting();
    var time: real := *;
    now := time;
    database := new Database(db);
    var session := new Session(database, broker, settings);
    var _ := session.Resolve(time);
    PatchAlone(ResolvePatch(db, now));
    ghost var heap, clock := broker.heap, broker.clock;
    ghost var added := session.CommitWhole();
    TriggerCommitted(db, now);
    TickPublishesAtOnce(db, now);
    AllScheduledAtOnce(heap, broker.heap, added, ResolvePatch(db, now).outbox, clock, broker.clock);
  }

  lemma CreatedWellFormed(db: Db)
    requires Created(db)
    ensures WellFormed(db)
  {
  }

  lemma ValidIds(specs: seq<TaskSpec>)
    requires ValidDag(specs)
    ensures UniqueIds(specs)
  {
  }

  /** A definition is rejected, or its run is triggered and drained by one worker. In the second
      case the run ends as the definition and the outcomes of the attempts say, and in no other
      way: not with a task left over, not with a task run too often. */
  method TriggerAndDrain(specs: seq<TaskSpec>, defaultRetries: nat, before: Collation, f: Oracle, settings: Settings)
    returns (v: Verdict, end: Option<Db>, ghost rows: Rows, ghost order: seq<Name>)
    requires Parsed(specs)
    ensures (v.Valid? <==> ValidDag(specs)) && (end.Some? <==> v.Valid?)
    ensures end.Some? ==> OneRowEach(specs, rows, defaultRetries) && Topological(DepsOf(rows), order)
    ensures end.Some? ==> RightlyEnded(end.value, rows, f) && UniqueIds(specs) && EndsByDefinition(specs, defaultRetries, f, end.value)
  {
    hide Contents, Topological, EndsAs, RightlyEnded, EndsByDefinition, UniqueIds, GraphOf, Sequential, OneRowEach, ValidDag, Justified, Created, DrainInv, Trigger;
    rows := map[];
    var run;
    v, run, order := CreateRun(specs, defaultRetries, before);
    if run.None? {
      return v, None, rows, order;
    }
    rows := run.value.rows;
    var broker := new InMemoryBroker();
    var database, now := TriggerRun(run.value, broker, settings);
    TriggerDrains(run.value, order, now, f);
    var worker := new Worker("worker", database, broker, settings);
    worker.Consume(true, f, order, rows);
    ValidIds(specs);
    EndsAsDefined(specs, rows, defaultRetries, f, database.committed);
    end := Some(database.committed);
  }
}
