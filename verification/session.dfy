/** Scheduler calls made through a database session (app/scheduler.py, app/recovery.py). A call
    writes to the session's patch; nothing is visible to others, and nothing is published, before
    the session commits. */
module SessionLayer {
  import opened Graphs
  import opened Tables
  import opened Protocol
  import opened Broker
  import opened Retry
  import opened Recovery
  import opened Patches

  /** The committed rows of a run, and the last heartbeat of each worker. The log is what the
      protocol's accounts say about them. */
  class Database {
    var committed: Db
    var workers: Workers
    ghost var log: Log

    constructor (db: Db)
      ensures committed == db && workers == map[] && log == EMPTY_LOG
    {
      committed, workers, log := db, map[], EMPTY_LOG;
    }
  }

  datatype CancelResult = CancelledNow | AlreadyTerminal(status: RunStatus)

  /** RETRY_BASE_DELAY, RETRY_MAX_DELAY and RETRY_JITTER. */
  datatype Settings = Settings(base: real, maximum: real, jitter: real)

  class Session {
    const database: Database
    const broker: InMemoryBroker
    const settings: Settings
    var patch: Patch
    var beats: Workers // heartbeats written in this transaction
    ghost var claimed: multiset<Message> // claims won in this transaction
    ghost var charged: multiset<Name>    // attempts declared failed in this transaction

    constructor (database: Database, broker: InMemoryBroker, settings: Settings)
      ensures this.database == database && this.broker == broker && this.settings == settings
      ensures Clean()
    {
      this.database, this.broker, this.settings := database, broker, settings;
      patch, beats, claimed, charged := NO_CHANGE, map[], multiset{}, multiset{};
    }

    /** Nothing written since the last commit or rollback. */
    ghost predicate Clean()
      reads this
    {
      patch == NO_CHANGE && beats == map[] && claimed == multiset{} && charged == multiset{}
    }

    /** What the session reads: the committed rows under its own writes. */
    function View(): Db
      reads this, database
    {
      Apply(database.committed, patch)
    }

    /** `_publish_on_commit` */
    method PublishOnCommit(message: Message, delay: real, deadLetter: bool)
      modifies this`patch
      ensures patch == old(patch).(outbox := old(patch).outbox + [Publication(message, delay, deadLetter)])
    {
      patch := patch.(outbox := patch.outbox + [Publication(message, delay, deadLetter)]);
    }

    method WriteRow(n: Name, row: Row)
      modifies this`patch
      ensures patch == old(patch).(rows := old(patch).rows[n := row])
    {
      patch := patch.(rows := patch.rows[n := row]);
    }

    /** `dispatch`: the rows are written first, then the messages that announce them. */
    method Dispatch(names: seq<Name>, now: real)
      requires forall n | n in names :: n in View().rows
      modifies this`patch
      ensures patch == Then(old(patch), DispatchPatch(old(View()).rows, names, now))
      ensures DispatchedIn(old(View()).rows, View().rows, names, now, old(patch).outbox, patch.outbox)
    {
      ghost var before, rows := patch, View().rows;
      QueueAll(names, now);
      QueuedView(database.committed.rows, before.rows, names, now);
      hide QueuedAmong;
      AnnounceAll(names, rows);
      DispatchIsBoth(rows, names, now);
      DispatchWrites(database.committed.rows, before, names, now);
    }

    method QueueAll(names: seq<Name>, now: real)
      requires forall n | n in names :: n in View().rows
      modifies this`patch
      ensures patch == old(patch).(rows := old(patch).rows + QueuedAmong(old(View()).rows, names, now))
    {
      ghost var before, rows := patch, View().rows;
      assert before.rows + QueuedAmong(rows, names[..0], now) == before.rows;
      for i := 0 to |names|
        invariant patch == before.(rows := before.rows + QueuedAmong(rows, names[..i], now))
      {
        assert names[i] in names;
        QueuedStep(database.committed.rows, before.rows, names, i, now);
        var row := View().rows[names[i]];
        hide QueuedAmong;
        WriteRow(names[i], row.(status := Queued, dispatchedAt := Some(now)));
      }
      assert names[..|names|] == names;
    }

    method AnnounceAll(names: seq<Name>, ghost rows: Rows)
      requires forall n | n in names :: n in rows && n in View().rows && View().rows[n].retryCount == rows[n].retryCount
      modifies this`patch
      ensures patch == old(patch).(outbox := old(patch).outbox + Announce(rows, names))
    {
      ghost var before := patch;
      for i := 0 to |names|
        invariant forall n | n in names[..i] :: n in rows
        invariant patch == before.(outbox := before.outbox + Announce(rows, names[..i]))
      {
        assert names[i] in names;
        AnnounceStep(rows, names, i);
        hide Announce;
        PublishOnCommit(Message(names[i], View().rows[names[i]].retryCount), 0.0, false);
      }
      assert names[..|names|] == names;
    }

    /** `finalize_if_done` */
    method FinalizeIfDone()
      modifies this`patch
      ensures patch == Then(old(patch), FinalizePatch(old(View())))
    {
      var view := View();
      if IsRunFinished(view) {
        patch := patch.(run := Some(if AnyFailed(view.rows) then RunFailed else RunCompleted));
      }
    }

    /** `resolve`: dispatch what has become runnable, or close the run if nothing is left. */
    method Resolve(now: real) returns (runnable: seq<Name>)
      requires WellFormed(View())
      modifies this`patch
      ensures patch == Then(old(patch), ResolvePatch(old(View()), now))
      ensures runnable == if old(View()).run == RunCancelled then [] else Runnable(old(View()))
    {
      var view := View();
      if view.run == RunCancelled {
        return [];
      }
      runnable := Runnable(view);
      RunnableIsQuiet(view);
      if runnable != [] {
        Dispatch(runnable, now);
      } else {
        FinalizeIfDone();
      }
    }

    /** The backoff before retry number `attempt`, for a given random draw. */
    function Backoff(attempt: int, draw: real): (r: real)
      ensures attempt >= 1 ==> BackoffDelay(attempt, settings.base, settings.maximum, settings.jitter, draw) == Delay(r)
    {
      var r := BackoffDelay(attempt, settings.base, settings.maximum, settings.jitter, draw);
      if r.Delay? then r.seconds else 0.0
    }

    /** `_requeue_for_retry` */
    method RequeueForRetry(n: Name, now: real, draw: real)
      requires n in View().rows
      modifies this`patch
      ensures patch == Then(old(patch), RequeuePatch(old(View()).rows, n, now, Backoff(old(View()).rows[n].retryCount + 1, draw)))
      ensures var row, delay := old(View()).rows[n], Backoff(old(View()).rows[n].retryCount + 1, draw);
              && View().rows == old(View()).rows[n := row.(retryCount := row.retryCount + 1, status := Queued, workerId := None, dispatchedAt := Some(now + delay))]
              && patch.outbox == old(patch).outbox + [Publication(Message(n, row.retryCount + 1), delay, false)]
    {
      var row := View().rows[n];
      row := row.(retryCount := row.retryCount + 1, status := Queued, workerId := None);
      var delay := Backoff(row.retryCount, draw);
      row := row.(dispatchedAt := Some(now + delay));
      WriteRow(n, row);
      PublishOnCommit(Message(n, row.retryCount), delay, false);
    }

    ghost function OutcomeOf(n: Name, ok: bool, now: real, draw: real): Outcome
      requires n in View().rows
      reads this, database
    {
      Outcome(n, ok, now, Backoff(View().rows[n].retryCount + 1, draw))
    }

    /** The outcome is flushed before the tick; a task out of retries leaves a dead letter. */
    method MarkResult(n: Name, ok: bool)
      requires n in View().rows
      modifies this`patch
      ensures patch == Then(old(patch), MarkPatch(old(View()).rows, n, ok))
    {
      var row := View().rows[n];
      WriteRow(n, row.(status := if ok then Success else Failed));
      if !ok {
        PublishOnCommit(Message(n, row.retryCount), 0.0, true);
      }
    }

    /** `report_result`: the one place where a task leaves the in-flight states. */
    method ReportResult(n: Name, ok: bool, now: real, draw: real)
      requires WellFormed(View()) && n in View().rows
      modifies this`patch, this`charged
      ensures patch == Then(old(patch), ReportPatch(old(View()), old(OutcomeOf(n, ok, now, draw))))
      ensures charged == if ok then old(charged) else old(charged) + multiset{n}
      ensures AttemptReported(old(View()), View(), old(OutcomeOf(n, ok, now, draw)), old(patch).outbox, patch.outbox)
    {
      hide ResolvePatch, RequeuePatch, MarkPatch, Then, Apply, WellFormed, Backoff, AttemptReported;
      var view := View();
      ghost var before := patch;
      ApplyThen(database.committed, before, ReportPatch(view, OutcomeOf(n, ok, now, draw)));
      ReportedTask(view, OutcomeOf(n, ok, now, draw), before.outbox);
      ThenPublishes(before, ReportPatch(view, OutcomeOf(n, ok, now, draw)));
      if !ok {
        charged := charged + multiset{n};
        if view.run != RunCancelled && view.rows[n].retryCount < view.rows[n].maxRetries {
          RequeueForRetry(n, now, draw);
          return;
        }
      }
      MarkResult(n, ok);
      ghost var mark := MarkPatch(view.rows, n, ok);
      ApplyThen(database.committed, before, mark);
      MarkKeepsWellFormed(view, n, ok);
      var _ := Resolve(now);
      ThenAssociates(before, mark, ResolvePatch(Apply(view, mark), now));
    }

    /** The backoff drawn for each task of a sweep. */
    ghost function DelaysOf(draws: Name -> real): Delays
      reads this, database
    {
      var rows := View().rows;
      n => if n in rows then Backoff(rows[n].retryCount + 1, draws(n)) else 0.0
    }

    /** Reports one task of a sweep as failed; `rest` are those still to come. */
    method ReportNext(n: Name, ghost rest: seq<Name>, now: real, draw: real, ghost delays: Delays)
      requires WellFormed(View()) && n in View().rows && forall k | k in rest :: k in View().rows
      requires delays(n) == Backoff(View().rows[n].retryCount + 1, draw)
      modifies this`patch, this`charged
      ensures WellFormed(View()) && View().rows.Keys == old(View()).rows.Keys
      ensures forall k | k in View().rows && k != n :: View().rows[k].retryCount == old(View()).rows[k].retryCount
      ensures Then(patch, SweepPatch(View(), rest, now, delays)) == Then(old(patch), SweepPatch(old(View()), [n] + rest, now, delays))
      ensures charged == old(charged) + multiset{n}
    {
      hide SweepPatch, ReportPatch, WellFormed, Backoff, Then, Apply, AttemptReported;
      SweepOneMore(database.committed, patch, n, rest, now, delays);
      ReportResult(n, false, now, draw);
    }

    /** Reports each of the tasks as failed, one after the other, in this transaction. */
    method ReportLost(names: seq<Name>, now: real, draws: Name -> real)
      requires WellFormed(View()) && Distinct(names) && forall n | n in names :: n in View().rows
      modifies this`patch, this`charged
      ensures patch == Then(old(patch), SweepPatch(old(View()), names, now, old(DelaysOf(draws))))
      ensures charged == old(charged) + multiset(names) && WellFormed(View())
    {
      hide SweepPatch, WellFormed, Backoff, Then, Apply, Distinct;
      ghost var start, delays := View(), DelaysOf(draws);
      ghost var before, sweep := patch, SweepPatch(start, names, now, delays);
      assert names[0..] == names && names[..0] == [];
      for i := 0 to |names|
        invariant WellFormed(View()) && View().rows.Keys == start.rows.Keys
        invariant forall n | n in names[i..] :: n in View().rows && View().rows[n].retryCount == start.rows[n].retryCount
        invariant Then(patch, SweepPatch(View(), names[i..], now, delays)) == Then(before, sweep)
        invariant charged == old(charged) + multiset(names[..i])
      {
        NextName(names, i);
        ReportNext(names[i], names[i + 1..], now, draws(names[i]), delays);
      }
      assert names[|names|..] == [] && names[..|names|] == names;
      SweepNothing(View(), now, delays, patch);
    }

    /** `reclaim_orphaned_tasks` */
    method ReclaimOrphanedTasks(workers: Workers, now: real, timeout: real, draws: Name -> real) returns (reclaimed: seq<Name>)
      requires WellFormed(View())
      modifies this`patch, this`charged
      ensures reclaimed == Orphans(old(View()), Alive(workers, now, timeout)) && Distinct(reclaimed)
      ensures forall n :: n in reclaimed <==>
                && n in old(View()).rows && old(View()).rows[n].status == Running
                && var owner := old(View()).rows[n].workerId;
                   owner == None || owner.value !in workers || workers[owner.value] == None || workers[owner.value].value < now - timeout
      ensures patch == Then(old(patch), SweepPatch(old(View()), reclaimed, now, old(DelaysOf(draws))))
      ensures charged == old(charged) + multiset(reclaimed) && WellFormed(View())
    {
      reclaimed := Orphans(View(), Alive(workers, now, timeout));
      ReportLost(reclaimed, now, draws);
    }

    /** `reclaim_stuck_queued_tasks` */
    method ReclaimStuckQueuedTasks(now: real, timeout: real, draws: Name -> real) returns (reclaimed: seq<Name>)
      requires WellFormed(View())
      modifies this`patch, this`charged
      ensures reclaimed == Stuck(old(View()), now - timeout) && Distinct(reclaimed)
      ensures forall n :: n in reclaimed <==>
                && n in old(View()).rows && old(View()).rows[n].status == Queued
                && old(View()).rows[n].dispatchedAt.Some? && old(View()).rows[n].dispatchedAt.value < now - timeout
      ensures patch == Then(old(patch), SweepPatch(old(View()), reclaimed, now, old(DelaysOf(draws))))
      ensures charged == old(charged) + multiset(reclaimed) && WellFormed(View())
    {
      reclaimed := Stuck(View(), now - timeout);
      ReportLost(reclaimed, now, draws);
    }

    /** `claim`: a compare-and-set gated on the row being queued. */
    method Claim(n: Name, worker: WorkerId) returns (won: bool)
      modifies this`patch, this`claimed
      ensures won <==> Wins(old(View()), n)
      ensures View() == Claimed(old(View()), n, worker)
      ensures won ==> View().rows == old(View()).rows[n := old(View()).rows[n].(status := Running, workerId := Some(worker))]
      ensures patch.outbox == old(patch).outbox && patch.run == old(patch).run
      ensures !won ==> patch == old(patch) && claimed == old(claimed)
      ensures won ==> claimed == old(claimed) + multiset{Message(n, old(View()).rows[n].retryCount)}
    {
      var view := View();
      won := n in view.rows && view.rows[n].status == Queued;
      if won {
        claimed := claimed + multiset{Message(n, view.rows[n].retryCount)};
        WriteRow(n, view.rows[n].(status := Running, workerId := Some(worker)));
        assert View().rows == view.rows[n := view.rows[n].(status := Running, workerId := Some(worker))];
      }
    }

    /** `cancel_run` */
    method CancelRun() returns (r: CancelResult)
      requires WellFormed(View())
      modifies this`patch
      ensures r == if old(View()).run == RunRunning then CancelledNow else AlreadyTerminal(old(View()).run)
      ensures patch == if r.CancelledNow? then Then(old(patch), CancelPatch(old(View()).rows)) else old(patch)
    {
      var view := View();
      ghost var before := patch;
      if view.run != RunRunning {
        return AlreadyTerminal(view.run);
      }
      patch := patch.(run := Some(RunCancelled));
      CancelledNone(view, before.rows);
      hide CancelledAmong, CancelPatch, WellFormed;
      for i := 0 to |view.names|
        invariant patch == before.(run := Some(RunCancelled), rows := before.rows + CancelledAmong(view.rows, view.names[..i]))
      {
        var n := view.names[i];
        NamedRow(view, i);
        CancelledStep(view.rows, view.names, i, before.rows);
        if view.rows[n].status == Pending || view.rows[n].status == Queued {
          WriteRow(n, view.rows[n].(status := Cancelled));
        }
      }
      assert view.names[..|view.names|] == view.names;
      CancelledAll(view);
      r := CancelledNow;
    }

    /** `heartbeat`, which registers a worker that is not known yet. */
    method Heartbeat(worker: WorkerId, now: real)
      modifies this`beats
      ensures beats == old(beats)[worker := Some(now)]
    {
      beats := beats[worker := Some(now)];
    }

    /** Commits, then flushes the outbox; the publications numbered in `lost` fail, and the commit
        stands all the same. */
    method Commit(lost: set<nat>) returns (ghost added: map<nat, Entry>)
      requires broker.Valid()
      modifies this, database, broker
      ensures database.committed == old(View()) && broker.Valid()
      ensures database.workers == old(database.workers) + old(beats)
      ensures Contents(broker.heap) == old(Contents(broker.heap)) + Sent(Surviving(old(patch).outbox, lost))
      ensures broker.dead == old(broker.dead) + Messages(Surviving(old(patch).outbox, lost), true)
      ensures broker.clock >= old(broker.clock)
      ensures Scheduled(old(broker.heap), broker.heap, added, old(patch).outbox, lost, old(broker.clock), broker.clock)
      ensures old(patch).outbox == [] ==> broker.heap == old(broker.heap)
      ensures database.log == Log(old(database.log).published + Sent(old(patch).outbox),
                                  old(database.log).deadLetters + Parked(old(patch).outbox),
                                  old(database.log).claims + old(claimed), old(database.log).losses + old(charged))
      ensures Clean()
    {
      hide *;
      var outbox := patch.outbox;
      database.committed := View();
      database.workers := database.workers + beats;
      database.log := Log(database.log.published + Sent(outbox), database.log.deadLetters + Parked(outbox),
                          database.log.claims + claimed, database.log.losses + charged);
      Reset();
      added := FlushOutbox(outbox, lost);
    }

    /** The run as the protocol sees it. */
    ghost function Sys(): System
      reads this, database, broker
    {
      System(database.committed, Contents(broker.heap), database.log)
    }

    /** A commit none of whose publications fails. */
    method CommitWhole() returns (ghost added: map<nat, Entry>)
      requires broker.Valid()
      modifies this, database, broker
      ensures Clean() && broker.Valid() && broker.clock >= old(broker.clock) && database.committed == old(View())
      ensures Sys() == Committed(old(Sys()), old(patch), old(claimed), old(charged))
      ensures Scheduled(old(broker.heap), broker.heap, added, old(patch).outbox, {}, old(broker.clock), broker.clock)
      ensures old(patch).outbox == [] ==> broker.heap == old(broker.heap)
      ensures database.workers == old(database.workers) + old(beats)
    {
      hide Contents, Messages, Sent, Parked, Surviving, Scheduled;
      NothingLost(patch.outbox);
      added := Commit({});
    }

    /** `_flush_outbox` */
    method FlushOutbox(outbox: seq<Publication>, lost: set<nat>) returns (ghost added: map<nat, Entry>)
      requires broker.Valid()
      modifies broker
      ensures broker.Valid() && broker.clock >= old(broker.clock)
      ensures Contents(broker.heap) == old(Contents(broker.heap)) + Sent(Surviving(outbox, lost))
      ensures broker.dead == old(broker.dead) + Messages(Surviving(outbox, lost), true)
      ensures Scheduled(old(broker.heap), broker.heap, added, outbox, lost, old(broker.clock), broker.clock)
      ensures outbox == [] ==> broker.heap == old(broker.heap)
    {
      hide *;
      FlushNothing(outbox, lost);
      NothingScheduled(broker.heap, outbox, lost, broker.clock);
      added := map[];
      ghost var contents, dead := Contents(broker.heap), broker.dead;
      for i := 0 to |outbox|
        invariant broker.Valid() && broker.clock >= old(broker.clock)
        invariant Contents(broker.heap) == contents + Sent(Surviving(outbox[..i], lost))
        invariant broker.dead == dead + Messages(Surviving(outbox[..i], lost), true)
        invariant Scheduled(old(broker.heap), broker.heap, added, outbox[..i], lost, old(broker.clock), broker.clock)
        invariant i == 0 ==> broker.heap == old(broker.heap)
      {
        ghost var heap, clock := broker.heap, broker.clock;
        FlushStep(outbox, i, lost);
        ghost var e;
        if i !in lost {
          e := Send(outbox[i]);
        }
        if i in lost || outbox[i].deadLetter {
          ScheduledLater(old(broker.heap), heap, added, outbox[..i], lost, old(broker.clock), clock, broker.clock);
          ScheduleSkip(old(broker.heap), heap, added, outbox, i, lost, old(broker.clock), broker.clock);
        } else {
          ScheduleStep(old(broker.heap), heap, broker.heap, added, outbox, i, lost, old(broker.clock), clock, broker.clock, e);
          added := added[i := e];
        }
      }
      assert outbox[..|outbox|] == outbox;
    }

    /** A dead letter is parked; anything else is published, to be due after its delay. */
    method Send(p: Publication) returns (ghost e: Entry)
      requires broker.Valid()
      modifies broker
      ensures broker.Valid() && broker.clock >= old(broker.clock)
      ensures Contents(broker.heap) == old(Contents(broker.heap)) + Sent([p])
      ensures broker.dead == old(broker.dead) + Messages([p], true)
      ensures p.deadLetter ==> broker.heap == old(broker.heap)
      ensures !p.deadLetter ==>
                && multiset(broker.heap) == multiset(old(broker.heap)) + multiset{e} && e.message == p.message
                && old(broker.clock) + p.delay <= e.at <= broker.clock + p.delay
                && forall f | f in old(broker.heap) :: f.tick < e.tick
    {
      hide Messages, Sent, Contents, HeapOrdered, TicksBelow;
      SingleMessage(p);
      DeadMessage(p);
      e := Entry(0.0, 0, p.message);
      if p.deadLetter {
        broker.DeadLetter(p.message);
      } else {
        broker.Publish(p.message, p.delay);
        e := Entry(broker.clock + p.delay, broker.counter, p.message);
      }
    }

    method Reset()
      modifies this
      ensures Clean()
    {
      patch, beats, claimed, charged := NO_CHANGE, map[], multiset{}, multiset{};
    }

    /** `_discard_outbox`: a rolled-back transaction leaves no trace. */
    method Rollback()
      modifies this
      ensures Clean() && View() == database.committed
    {
      Reset();
    }
  }
}
