/** A queue that repeats and reorders messages but loses none: every queued task keeps a message
    that will get it claimed, so a run in which no worker has anything left to do is closed. */
module Delivery {
  import opened Graphs
  import opened Tables
  import opened Invariant
  import opened Protocol
  import opened Guarantees
  import opened Termination
  import opened Confluence
  import opened Patches

  /** Every queued task has its current message on the broker. */
  ghost predicate Announced(rows: Rows, broker: multiset<Message>) {
    forall n {:trigger Waiting(rows, n)} | Waiting(rows, n) :: Message(n, rows[n].retryCount) in broker
  }

  predicate Waiting(rows: Rows, n: Name) {
    n in rows && rows[n].status == Queued
  }

  ghost predicate Idle(rows: Rows) {
    forall n {:trigger rows[n]} | n in rows :: rows[n].status != Running
  }

  lemma DispatchAnnounces(db: Db, now: real, k: Name)
    requires WellFormed(db) && k in db.rows && db.rows[k].status != Queued
    requires k in Apply(db, ResolvePatch(db, now)).rows && Apply(db, ResolvePatch(db, now)).rows[k].status == Queued
    ensures Message(k, Apply(db, ResolvePatch(db, now)).rows[k].retryCount) in Sent(ResolvePatch(db, now).outbox)
  {
    RunnableIsQuiet(db);
    AnnounceCounts(db.rows, Runnable(db), Message(k, db.rows[k].retryCount));
  }

  /** Whatever a report puts in the queue, it announces. */
  lemma ReportAnnounces(db: Db, o: Outcome, k: Name)
    requires DbInv(db) && o.task in db.rows && InFlight(db.rows[o.task])
    requires Waiting(Reported(db, o).rows, k)
    ensures || (k in db.rows && k != o.task && db.rows[k] == Reported(db, o).rows[k])
            || Message(k, Reported(db, o).rows[k].retryCount) in Sent(ReportPatch(db, o).outbox)
  {
    if !o.ok && Retries(db, o.task) {
      SingleMessage(RequeuePatch(db.rows, o.task, o.now, o.delay).outbox[0]);
    } else {
      SettleAnnounces(db, o, k);
    }
  }

  lemma SettleAnnounces(db: Db, o: Outcome, k: Name)
    requires DbInv(db) && o.task in db.rows && InFlight(db.rows[o.task]) && (o.ok || !Retries(db, o.task))
    requires Waiting(Reported(db, o).rows, k)
    ensures || (k in db.rows && k != o.task && db.rows[k] == Reported(db, o).rows[k])
            || Message(k, Reported(db, o).rows[k].retryCount) in Sent(ReportPatch(db, o).outbox)
  {
    hide DbInv, WellFormed, Sent, MarkPatch, ResolvePatch, Reported;
    RunOfReport(db, o.task);
    var marked := SettledReport(db, o);
    var mark, tick := MarkPatch(db.rows, o.task, o.ok), ResolvePatch(marked, o.now);
    SentConcat(mark.outbox, tick.outbox);
    ResolveKeepsKeys(marked, o.now);
    ResolveMoves(marked, o.now, k);
    if marked.rows[k].status != Queued {
      DispatchAnnounces(marked, o.now, k);
      assert Message(k, Apply(marked, tick).rows[k].retryCount) in Sent(mark.outbox) + Sent(tick.outbox);
    }
  }

  lemma ClaimAnnounces(s: System, msg: Message, w: WorkerId)
    requires Announced(s.db.rows, s.broker) && msg in s.broker
    ensures Announced(Next(s, Deliver(msg, w)).db.rows, Next(s, Deliver(msg, w)).broker)
  {
    var s' := Next(s, Deliver(msg, w));
    forall n | Waiting(s'.db.rows, n) ensures Message(n, s'.db.rows[n].retryCount) in s'.broker {
      assert Waiting(s.db.rows, n) && n != msg.task;
    }
  }

  lemma FinishAnnounces(s: System, o: Outcome)
    requires DbInv(s.db) && Announced(s.db.rows, s.broker) && o.task in s.db.rows && InFlight(s.db.rows[o.task])
    ensures Announced(Finish(s, o).db.rows, Finish(s, o).broker)
  {
    hide ReportPatch, DbInv, Sent;
    var s' := Finish(s, o);
    assert s'.db == Reported(s.db, o) && s'.broker == s.broker + Sent(ReportPatch(s.db, o).outbox);
    forall n | Waiting(s'.db.rows, n) ensures Message(n, s'.db.rows[n].retryCount) in s'.broker {
      ReportAnnounces(s.db, o, n);
      if n in s.db.rows && n != o.task && s.db.rows[n] == s'.db.rows[n] {
        assert Waiting(s.db.rows, n);
      }
    }
  }

  /** Every step keeps every queued task announced, unless it loses a message. */
  lemma StepAnnounces(s: System, a: Action)
    requires DbInv(s.db) && Announced(s.db.rows, s.broker) && Enabled(s, a) && !a.Lose?
    ensures Announced(Next(s, a).db.rows, Next(s, a).broker)
  {
    hide DbInv, Finish;
    match a
    case Deliver(msg, w) => ClaimAnnounces(s, msg, w);
    case Report(o) => FinishAnnounces(s, o);
    case Reclaim(o) => FinishAnnounces(s, o);
    case CancelRun => CancelAnnounces(s);
    case Repeat(msg) => RepeatAnnounces(s, msg);
  }

  lemma CancelAnnounces(s: System)
    requires DbInv(s.db) && Enabled(s, CancelRun)
    ensures Announced(Next(s, CancelRun).db.rows, Next(s, CancelRun).broker)
  {
    forall n ensures !Waiting(Next(s, CancelRun).db.rows, n) {
    }
  }

  lemma RepeatAnnounces(s: System, msg: Message)
    requires Announced(s.db.rows, s.broker) && msg in s.broker
    ensures Announced(Next(s, Repeat(msg)).db.rows, Next(s, Repeat(msg)).broker)
  {
    forall n | Waiting(s.db.rows, n) ensures Message(n, s.db.rows[n].retryCount) in s.broker + multiset{msg} {
    }
  }

  lemma TriggerAnnounces(db: Db, now: real)
    requires Created(db)
    ensures Announced(Trigger(db, now).db.rows, Trigger(db, now).broker) && Idle(Trigger(db, now).db.rows)
  {
    var s := Trigger(db, now);
    assert s.db == Apply(db, ResolvePatch(db, now)) && s.broker == Sent(ResolvePatch(db, now).outbox);
    ResolveKeepsKeys(db, now);
    hide ResolvePatch;
    forall n | Waiting(s.db.rows, n) ensures Message(n, s.db.rows[n].retryCount) in s.broker {
      DispatchAnnounces(db, now, n);
    }
    forall n | n in s.db.rows ensures s.db.rows[n].status != Running {
      ResolveMoves(db, now, n);
    }
  }

  // ----- undisturbed runs --------------------------------------------------------------------

  /** What every undisturbed step that loses no message keeps. */
  ghost predicate FlowInv(s: System, order: seq<Name>, f: Oracle, rows: Rows) {
    && SysInv(s) && Topological(DepsOf(s.db.rows), order) && SameTasks(rows, s.db.rows)
    && OracleInv(s.db.rows, f) && s.db.run != RunCancelled
    && Announced(s.db.rows, s.broker)
  }

  lemma FlowDb(s: System, order: seq<Name>, f: Oracle, rows: Rows)
    requires FlowInv(s, order, f, rows)
    ensures DbInv(s.db)
  {
  }

  lemma FlowMeasure(s: System, order: seq<Name>, f: Oracle, rows: Rows)
    requires FlowInv(s, order, f, rows)
    ensures WellFormed(s.db) && (forall n | n in s.db.names :: n in s.db.rows) && (forall n | n in order :: n in rows)
    ensures Measure(s.db) >= 0
  {
    hide OracleInv, LogInv, Announced, RunInv;
    forall n | n in s.db.names ensures n in s.db.rows && s.db.rows[n].retryCount <= s.db.rows[n].maxRetries {
      assert RowInv(s.db.rows, s.db.run, n);
    }
    WorkIsNatural(s.db.rows, s.db.names);
    forall n | n in order ensures n in rows {
      assert n in DepsOf(s.db.rows);
    }
  }

  lemma StepKeepsFlow(s: System, order: seq<Name>, f: Oracle, rows: Rows, a: Action)
    requires FlowInv(s, order, f, rows) && Enabled(s, a) && Undisturbed(s, a, f) && !a.Lose?
    ensures FlowInv(Next(s, a), order, f, rows)
    ensures WellFormed(s.db) && WellFormed(Next(s, a).db)
    ensures Measure(Next(s, a).db) + (if Effective(s, a) then 1 else 0) <= Measure(s.db)
  {
    hide LogInv, Topological, OracleInv, Next, Enabled, Undisturbed, Measure, RowsInv, RunInv, Effective, Announced;
    StepKeepsInv(s, order, a);
    StepDecreases(s, order, a);
    StepFollows(s, a, f);
    StepAnnounces(s, a);
    SameGraph(s.db.rows, Next(s, a).db.rows);
  }

  ghost predicate Lossless(acts: seq<Action>) {
    forall i {:trigger acts[i]} | 0 <= i < |acts| :: !acts[i].Lose?
  }

  lemma {:induction false} RunKeepsFlow(s: System, order: seq<Name>, f: Oracle, rows: Rows, acts: seq<Action>)
    requires FlowInv(s, order, f, rows) && UndisturbedRun(s, acts, f) && Lossless(acts)
    ensures Legal(s, acts) && FlowInv(Exec(s, acts), order, f, rows)
    decreases acts
  {
    hide FlowInv, Next, Enabled, Undisturbed;
    if acts != [] {
      assert !acts[0].Lose?;
      StepKeepsFlow(s, order, f, rows, acts[0]);
      assert Lossless(acts[1..]) by {
        forall i | 0 <= i < |acts| - 1 ensures !acts[1..][i].Lose? {
          assert !acts[i + 1].Lose?;
        }
      }
      RunKeepsFlow(Next(s, acts[0]), order, f, rows, acts[1..]);
    }
  }

  lemma TriggerFlows(db: Db, order: seq<Name>, now: real, f: Oracle)
    requires Created(db) && Topological(DepsOf(db.rows), order)
    ensures FlowInv(Trigger(db, now), order, f, db.rows)
  {
    hide Created, Topological, SysInv, OracleInv, Trigger, Announced, Idle;
    TriggerEstablishes(db, order, now);
    SameGraph(db.rows, Trigger(db, now).db.rows);
    TriggerFollows(db, order, now, f);
    TriggerAnnounces(db, now);
  }

  // ----- nothing left to do ------------------------------------------------------------------

  /** No message to deliver, and nobody executing. */
  ghost predicate Exhausted(s: System) {
    s.broker == multiset{} && Idle(s.db.rows)
  }

  /** That is so exactly when no worker can take a step. */
  lemma ExhaustedIff(s: System)
    ensures Exhausted(s) <==> forall a | Enabled(s, a) :: !a.Deliver? && !a.Report?
  {
    if m :| m in s.broker {
      assert Enabled(s, Deliver(m, ""));
    }
    if n :| n in s.db.rows && s.db.rows[n].status == Running {
      assert Enabled(s, Report(Outcome(n, true, 0.0, 0.0)));
    }
  }

  lemma ExhaustedMeansDone(s: System, order: seq<Name>, f: Oracle, rows: Rows)
    requires FlowInv(s, order, f, rows) && Exhausted(s)
    ensures forall n | n in order :: n in rows
    ensures s.db.run != RunRunning
    ensures EndsAs(s.db, Sequential(rows, order, f)) && RightlyEnded(s.db, rows, f)
  {
    hide LogInv, OracleInv, Topological, RowsInv, WellFormed;
    forall n | n in s.db.rows ensures !InFlight(s.db.rows[n]) {
      assert !Waiting(s.db.rows, n);
    }
    SameGraph(rows, s.db.rows);
    ClosedEnds(s.db, rows, order, f);
    EndsRightly(s.db, rows, order, f);
  }

  /** Any number of workers, messages repeated and reordered but not lost: wherever nobody can take
      another step the run is closed, and every task has ended as the graph and the outcomes say. */
  lemma LosslessRunsEnd(db: Db, order: seq<Name>, now: real, acts: seq<Action>, f: Oracle)
    requires RunsUndisturbed(db, order, now, acts, f) && Lossless(acts)
    ensures Legal(Trigger(db, now), acts)
    ensures forall n | n in order :: n in db.rows
    ensures var s := Exec(Trigger(db, now), acts);
            Exhausted(s) ==> s.db.run != RunRunning && EndsAs(s.db, Sequential(db.rows, order, f)) && RightlyEnded(s.db, db.rows, f)
  {
    hide Created, Trigger, FlowInv, EndsAs, RightlyEnded, Exhausted;
    TriggerFlows(db, order, now, f);
    RunKeepsFlow(Trigger(db, now), order, f, db.rows, acts);
    OrderHasAll(db.rows, order);
    var s := Exec(Trigger(db, now), acts);
    if Exhausted(s) {
      ExhaustedMeansDone(s, order, f, db.rows);
    }
  }
}
