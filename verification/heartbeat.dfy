/** The background thread of a worker (app/recovery.py): it beats, and now and then it sweeps. What
    a tick commits is a sequence of reclaim steps of the protocol. */
module Heartbeats {
  import opened Graphs
  import opened Tables
  import opened Invariant
  import opened Protocol
  import opened Broker
  import opened Recovery
  import opened Retry
  import opened Patches
  import opened SessionLayer
  import opened Concurrency

  /** A sweep's transaction is one reclaim step for each task it selected. */
  function Reclaims(names: seq<Name>, now: real, delays: Delays): seq<Action> {
    if names == [] then [] else [Reclaim(Outcome(names[0], false, now, delays(names[0])))] + Reclaims(names[1..], now, delays)
  }

  lemma {:induction false} SweepIsReclaims(s: System, order: seq<Name>, names: seq<Name>, now: real, delays: Delays)
    requires SysInv(s) && Topological(DepsOf(s.db.rows), order)
    requires Distinct(names) && forall n | n in names :: n in s.db.rows && InFlight(s.db.rows[n])
    ensures Legal(s, Reclaims(names, now, delays))
    ensures Exec(s, Reclaims(names, now, delays)) == Committed(s, SweepPatch(s.db, names, now, delays), multiset{}, multiset(names))
    ensures SysInv(Exec(s, Reclaims(names, now, delays)))
    decreases names
  {
    hide DbInv, LogInv, Topological, ReportPatch, Committed, InFlight;
    if names == [] {
      NothingCommitted(s);
    } else {
      var o, rest := Outcome(names[0], false, now, delays(names[0])), names[1..];
      assert names == [names[0]] + rest;
      var s' := Next(s, Reclaim(o));
      StepKeepsInv(s, order, Reclaim(o));
      SameGraph(s.db.rows, s'.db.rows);
      ReportCommitted(s, o);
      forall n | n in rest ensures n in s'.db.rows && InFlight(s'.db.rows[n]) {
        StillInFlight(s, o, n);
      }
      SweepIsReclaims(s', order, rest, now, delays);
      CommittedThen(s, ReportPatch(s.db, o), multiset{names[0]}, SweepPatch(s'.db, rest, now, delays), multiset(rest));
      assert Reclaims(names, now, delays) == [Reclaim(o)] + Reclaims(rest, now, delays);
      assert ([Reclaim(o)] + Reclaims(rest, now, delays))[1..] == Reclaims(rest, now, delays);
    }
  }

  lemma StillInFlight(s: System, o: Outcome, n: Name)
    requires SysInv(s) && !o.ok && o.task in s.db.rows && InFlight(s.db.rows[o.task])
    requires n in s.db.rows && n != o.task && InFlight(s.db.rows[n])
    ensures n in Next(s, Reclaim(o)).db.rows && InFlight(Next(s, Reclaim(o)).db.rows[n])
  {
    ReportLeaves(s.db, o, n);
  }

  // ----- one tick ----------------------------------------------------------------------------

  /** What both sweeps of a visit write. */
  function VisitPatch(db: Db, timeout: real, v: Visit): Patch {
    var p := SweepPatch(db, Orphans(db, v.alive), v.now, v.orphanDelays);
    Then(p, SweepPatch(Apply(db, p), Stuck(Apply(db, p), v.now - timeout), v.now, v.stuckDelays))
  }

  /** The tasks both sweeps of a visit reclaim, in order. */
  function Reclaimed(db: Db, timeout: real, v: Visit): seq<Name> {
    Orphans(db, v.alive) + Stuck(Swept(db, Orphans(db, v.alive), v.now, v.orphanDelays), v.now - timeout)
  }

  function VisitSteps(db: Db, timeout: real, v: Visit): seq<Action> {
    var orphans := Orphans(db, v.alive);
    var mid := Swept(db, orphans, v.now, v.orphanDelays);
    Reclaims(orphans, v.now, v.orphanDelays) + Reclaims(Stuck(mid, v.now - timeout), v.now, v.stuckDelays)
  }

  /** A tick that sweeps is a run of the protocol made of reclaim steps, and it takes the rows to
      where the visit says. */
  lemma VisitIsReclaims(s: System, order: seq<Name>, timeout: real, v: Visit)
    requires SysInv(s) && Topological(DepsOf(s.db.rows), order)
    ensures var steps, end := VisitSteps(s.db, timeout, v),
                              Committed(s, VisitPatch(s.db, timeout, v), multiset{}, multiset(Reclaimed(s.db, timeout, v)));
            Legal(s, steps) && Exec(s, steps) == end && SysInv(end) && end.db == Visited(s.db, timeout, v)
  {
    hide DbInv, LogInv, Topological, SweepPatch, Swept, Orphans, Stuck, Reclaims, Committed, Legal, Exec, Then, Distinct, InFlight;
    var orphans := Orphans(s.db, v.alive);
    OrphansInFlight(s.db, v.alive);
    var first, steps := SweepPatch(s.db, orphans, v.now, v.orphanDelays), Reclaims(orphans, v.now, v.orphanDelays);
    SelectedInFlight(s.db, orphans);
    SweepIsReclaims(s, order, orphans, v.now, v.orphanDelays);
    RunKeepsInv(s, order, steps);
    var mid := Exec(s, steps);
    SameGraph(s.db.rows, mid.db.rows);
    CommittedDb(s, first, multiset(orphans));
    SweepIsPatch(s.db, orphans, v.now, v.orphanDelays);
    var stuck := Stuck(mid.db, v.now - timeout);
    StuckInFlight(mid.db, v.now - timeout);
    var second, more := SweepPatch(mid.db, stuck, v.now, v.stuckDelays), Reclaims(stuck, v.now, v.stuckDelays);
    SelectedInFlight(mid.db, stuck);
    SweepIsReclaims(mid, order, stuck, v.now, v.stuckDelays);
    ExecConcat(s, steps, more);
    CommittedThen(s, first, multiset(orphans), second, multiset(stuck));
    CommittedDb(mid, second, multiset(stuck));
    SweepIsPatch(mid.db, stuck, v.now, v.stuckDelays);
  }

  lemma VisitPatchVisits(db: Db, timeout: real, v: Visit)
    ensures Apply(db, VisitPatch(db, timeout, v)) == Visited(db, timeout, v)
  {
    hide SweepPatch, Swept, Orphans, Stuck, Then, Apply;
    OrphansKnown(db, v.alive);
    var p := SweepPatch(db, Orphans(db, v.alive), v.now, v.orphanDelays);
    SweepIsPatch(db, Orphans(db, v.alive), v.now, v.orphanDelays);
    StuckKnown(Apply(db, p), v.now - timeout);
    var q := SweepPatch(Apply(db, p), Stuck(Apply(db, p), v.now - timeout), v.now, v.stuckDelays);
    SweepIsPatch(Apply(db, p), Stuck(Apply(db, p), v.now - timeout), v.now, v.stuckDelays);
    ApplyThen(db, p, q);
  }

  lemma SelectedInFlight(db: Db, names: seq<Name>)
    requires forall n | n in names :: n in db.rows && (db.rows[n].status == Running || db.rows[n].status == Queued)
    ensures forall n | n in names :: InFlight(db.rows[n])
  {
  }

  lemma CommittedDb(s: System, p: Patch, charged: multiset<Name>)
    ensures Committed(s, p, multiset{}, charged).db == Apply(s.db, p)
  {
  }

  lemma OrphansKnown(db: Db, alive: set<WorkerId>)
    ensures forall n | n in Orphans(db, alive) :: n in db.rows
  {
  }

  lemma StuckKnown(db: Db, cutoff: real)
    ensures forall n | n in Stuck(db, cutoff) :: n in db.rows
  {
  }

  // ----- the longest backoff -----------------------------------------------------------------

  /** One turn of the thread's loop: the two clocks, and the random draws of its sweeps. */
  datatype Turn = Turn(now: real, reading: real, orphanDraws: Name -> real, stuckDraws: Name -> real)

  ghost predicate Sensible(s: Settings) {
    s.base >= 0.0 && s.maximum >= 0.0 && 0.0 <= s.jitter <= 1.0
  }

  ghost predicate FairDraws(t: Turn) {
    forall n :: -1.0 <= t.orphanDraws(n) <= 1.0 && -1.0 <= t.stuckDraws(n) <= 1.0
  }

  /** No backoff is longer. */
  function Longest(s: Settings): real {
    s.maximum + s.maximum * s.jitter
  }

  lemma BackoffWithin(s: Settings, attempt: nat, draw: real)
    requires Sensible(s) && attempt >= 1 && -1.0 <= draw <= 1.0
    ensures 0.0 <= BackoffDelay(attempt, s.base, s.maximum, s.jitter, draw).seconds <= Longest(s)
  {
    JitterSpreads(attempt, s.base, s.maximum, s.jitter, draw);
  }

  lemma LongestIsNatural(s: Settings)
    requires Sensible(s)
    ensures Longest(s) >= 0.0
  {
    NonNegative(s.maximum, s.jitter);
  }

  // ----- a thread left on its own ------------------------------------------------------------

  /** The turns among these that sweep. */
  function SweepingTurns(turns: seq<Turn>, last: real, interval: real): seq<Turn> {
    if turns == [] then []
    else
      var t, kept := turns[|turns| - 1], SweepingTurns(turns[..|turns| - 1], last, interval);
      if t.reading - LastReading(kept, last) >= interval then kept + [t] else kept
  }

  function LastReading(kept: seq<Turn>, last: real): real {
    if kept == [] then last else kept[|kept| - 1].reading
  }

  /** The visit a sweeping turn makes: the workers taken to be alive are those that have beaten
      within the timeout, and always the sweeping worker itself. */
  ghost predicate VisitOf(v: Visit, t: Turn, workers: Workers, me: WorkerId, heartbeatTimeout: real, s: Settings) {
    && v.now == t.now && v.alive == Alive(workers[me := Some(t.now)], t.now, heartbeatTimeout)
    && (Sensible(s) && FairDraws(t) ==> DelaysWithin(v, Longest(s)))
  }

  ghost predicate VisitsOf(visits: seq<Visit>, turns: seq<Turn>, workers: Workers, me: WorkerId, heartbeatTimeout: real, s: Settings) {
    && |visits| == |turns|
    && forall i {:trigger visits[i]} | 0 <= i < |visits| :: VisitOf(visits[i], turns[i], workers, me, heartbeatTimeout, s)
  }

  /** The sweeper is always alive to itself, so visits never take every worker for dead. */
  lemma SweeperIsAlive(v: Visit, t: Turn, workers: Workers, me: WorkerId, heartbeatTimeout: real, s: Settings)
    requires VisitOf(v, t, workers, me, heartbeatTimeout, s) && heartbeatTimeout >= 0.0
    ensures me in v.alive
  {
  }

  /** Every running task belongs to nobody, or to a worker that is not this one and had stopped
      beating before the first turn. */
  ghost predicate Deserted(rows: Rows, workers: Workers, me: WorkerId, since: real) {
    forall n | n in rows && rows[n].status == Running :: rows[n].workerId == None || Silent(workers, me, rows[n].workerId.value, since)
  }

  /** The task has an owner, whose last heartbeat is no older than the given time. */
  predicate HasBeaten(workers: Workers, owner: Option<WorkerId>, since: real) {
    owner.Some? && owner.value in workers && workers[owner.value].Some? && workers[owner.value].value >= since
  }

  lemma LiveIsNotOrphaned(db: Db, workers: Workers, now: real, heartbeatTimeout: real, n: Name)
    requires n in db.rows && db.rows[n].status == Running && HasBeaten(workers, db.rows[n].workerId, now - heartbeatTimeout)
    ensures n !in Orphans(db, Alive(workers, now, heartbeatTimeout))
  {
  }

  lemma RunningIsNotStuck(db: Db, cutoff: real, n: Name)
    requires n in db.rows && db.rows[n].status == Running
    ensures n !in Stuck(db, cutoff)
  {
  }

  lemma VisitLeaves(db: Db, timeout: real, v: Visit, n: Name)
    requires WellFormed(db) && n in db.rows && db.rows[n].status == Running && n !in Orphans(db, v.alive)
    ensures n in Visited(db, timeout, v).rows && Visited(db, timeout, v).rows[n] == db.rows[n]
  {
    hide Swept, WellFormed, Orphans, Stuck;
    OrphansKnown(db, v.alive);
    var mid := Swept(db, Orphans(db, v.alive), v.now, v.orphanDelays);
    SweepLeavesStarted(db, Orphans(db, v.alive), v.now, v.orphanDelays, n);
    StuckKnown(mid, v.now - timeout);
    RunningIsNotStuck(mid, v.now - timeout, n);
    SweepLeavesStarted(mid, Stuck(mid, v.now - timeout), v.now, v.stuckDelays, n);
  }

  /** A visit leaves the tasks of such owners alone. */
  lemma VisitLeavesLive(db: Db, timeout: real, v: Visit, workers: Workers, heartbeatTimeout: real)
    requires WellFormed(db) && v.alive == Alive(workers, v.now, heartbeatTimeout)
    ensures forall n | n in db.rows && db.rows[n].status == Running && HasBeaten(workers, db.rows[n].workerId, v.now - heartbeatTimeout) ::
              n in Visited(db, timeout, v).rows && Visited(db, timeout, v).rows[n] == db.rows[n]
  {
    hide Visited, WellFormed, Orphans, Alive, HasBeaten;
    forall n | n in db.rows && db.rows[n].status == Running && HasBeaten(workers, db.rows[n].workerId, v.now - heartbeatTimeout)
      ensures n in Visited(db, timeout, v).rows && Visited(db, timeout, v).rows[n] == db.rows[n]
    {
      LiveIsNotOrphaned(db, workers, v.now, heartbeatTimeout, n);
      VisitLeaves(db, timeout, v, n);
    }
  }

  predicate Silent(workers: Workers, me: WorkerId, w: WorkerId, since: real) {
    w != me && (w !in workers || workers[w] == None || workers[w].value < since)
  }

  ghost predicate InOrderFrom(turns: seq<Turn>, start: real) {
    && (forall i {:trigger turns[i]} | 0 <= i < |turns| :: turns[i].now >= start && FairDraws(turns[i]))
    && (forall i {:trigger turns[i]} | 0 < i < |turns| :: turns[i].now >= turns[i - 1].now)
  }

  /** No queued row is claimable later than this. */
  ghost predicate StampedBy(rows: Rows, time: real) {
    forall n | n in rows && rows[n].status == Queued :: rows[n].dispatchedAt.Some? && rows[n].dispatchedAt.value <= time
  }

  lemma NoVisits(db: Db, timeout: real)
    ensures AfterVisits(db, [], timeout) == db
  {
  }

  lemma DesertedIsAbandoned(rows: Rows, workers: Workers, me: WorkerId, since: real, v: Visit, t: Turn, heartbeatTimeout: real, s: Settings)
    requires Deserted(rows, workers, me, since) && VisitOf(v, t, workers, me, heartbeatTimeout, s) && since <= t.now - heartbeatTimeout
    ensures Abandoned(rows, v.alive)
  {
  }

  /** A run that everybody else has deserted is failed by one thread's sweeps alone, however often
      they come, once the longest backoff and the timeout have passed often enough. */
  lemma DesertedRunIsFailed(db: Db, order: seq<Name>, workers: Workers, me: WorkerId, visits: seq<Visit>, turns: seq<Turn>,
                            heartbeatTimeout: real, queuedTimeout: real, s: Settings, start: real)
    requires DbInv(db) && db.run == RunRunning && Topological(DepsOf(db.rows), order)
    requires Sensible(s) && queuedTimeout >= 0.0 && InOrderFrom(turns, start)
    requires VisitsOf(visits, turns, workers, me, heartbeatTimeout, s) && Deserted(db.rows, workers, me, start - heartbeatTimeout)
    requires StampedBy(db.rows, start + Longest(s))
    ensures BudgetBelow(db.rows, Epochs(visits, start, Longest(s) + queuedTimeout)) ==> AfterVisits(db, visits, queuedTimeout).run == RunFailed
  {
    hide DbInv, Topological, DelaysWithin, Abandoned, Deserted, AfterVisits, Epochs, BudgetBelow, Longest;
    if visits != [] {
      assert VisitOf(visits[0], turns[0], workers, me, heartbeatTimeout, s);
      assert turns[0].now >= start;
      DesertedIsAbandoned(db.rows, workers, me, start - heartbeatTimeout, visits[0], turns[0], heartbeatTimeout, s);
    }
    forall i | 0 <= i < |visits| ensures DelaysWithin(visits[i], Longest(s)) && visits[i].now == turns[i].now {
      assert VisitOf(visits[i], turns[i], workers, me, heartbeatTimeout, s) && FairDraws(turns[i]);
    }
    FrequentVisitsSuffice(db, order, visits, queuedTimeout, Longest(s), start);
  }

  lemma {:induction false} AfterVisitsAppend(db: Db, visits: seq<Visit>, v: Visit, timeout: real)
    ensures AfterVisits(db, visits + [v], timeout) == Visited(AfterVisits(db, visits, timeout), timeout, v)
    decreases visits
  {
    hide Visited;
    if visits == [] {
      assert [] + [v] == [v] && [v][1..] == [];
    } else {
      assert (visits + [v])[1..] == visits[1..] + [v];
      AfterVisitsAppend(Visited(db, timeout, visits[0]), visits[1..], v, timeout);
    }
  }

  class HeartbeatThread {
    const worker: WorkerId
    const database: Database
    const broker: InMemoryBroker
    const settings: Settings
    const sweep: bool
    const interval: real         // RECOVERY_INTERVAL
    const heartbeatTimeout: real // HEARTBEAT_TIMEOUT
    const queuedTimeout: real    // QUEUED_TIMEOUT
    var lastSweep: real

    constructor (worker: WorkerId, database: Database, broker: InMemoryBroker, settings: Settings,
                 sweep: bool, interval: real, heartbeatTimeout: real, queuedTimeout: real)
      ensures this.worker == worker && this.database == database && this.broker == broker && this.settings == settings
      ensures this.sweep == sweep && this.interval == interval && this.heartbeatTimeout == heartbeatTimeout
      ensures this.queuedTimeout == queuedTimeout && lastSweep == 0.0
    {
      this.worker, this.database, this.broker, this.settings := worker, database, broker, settings;
      this.sweep, this.interval, this.heartbeatTimeout := sweep, interval, heartbeatTimeout;
      this.queuedTimeout, lastSweep := queuedTimeout, 0.0;
    }

    ghost function Sys(): System
      reads database, broker
    {
      System(database.committed, Contents(broker.heap), database.log)
    }

    /** The two sweeps, in the transaction that has already beaten. */
    method SweepBoth(session: Session, t: Turn) returns (ghost v: Visit)
      requires session.database == database && session.settings == settings
      requires session.patch == NO_CHANGE && session.charged == multiset{}
      requires WellFormed(database.committed)
      modifies session`patch, session`charged
      ensures v.now == t.now && v.alive == Alive(database.workers + session.beats, t.now, heartbeatTimeout)
      ensures Sensible(settings) && FairDraws(t) ==> DelaysWithin(v, Longest(settings))
      ensures session.patch == VisitPatch(database.committed, queuedTimeout, v)
      ensures session.charged == multiset(Reclaimed(database.committed, queuedTimeout, v))
      ensures WellFormed(session.View())
    {
      hide SweepPatch, Swept, Apply, Then, WellFormed, Alive, Orphans, Stuck, BackoffDelay, Longest;
      ghost var db := database.committed;
      CommittedView(db);
      OrphansKnown(db, Alive(database.workers + session.beats, t.now, heartbeatTimeout));
      var workers := database.workers + session.beats;
      ghost var orphanDelays := session.DelaysOf(t.orphanDraws);
      DelaysOfWithin(session, t.orphanDraws);
      var orphans := session.ReclaimOrphanedTasks(workers, t.now, heartbeatTimeout, t.orphanDraws);
      ghost var first := SweepPatch(db, orphans, t.now, orphanDelays);
      PatchAlone(first);
      SweepIsPatch(db, orphans, t.now, orphanDelays);
      v := Visit(Alive(workers, t.now, heartbeatTimeout), t.now, orphanDelays, session.DelaysOf(t.stuckDraws));
      DelaysOfWithin(session, t.stuckDraws);
      var stuck := session.ReclaimStuckQueuedTasks(t.now, queuedTimeout, t.stuckDraws);
      assert session.charged == multiset(orphans + stuck);
    }

    lemma DelaysOfWithin(session: Session, draws: Name -> real)
      requires session.settings == settings
      ensures Sensible(settings) && (forall n :: -1.0 <= draws(n) <= 1.0) ==>
                forall n :: 0.0 <= session.DelaysOf(draws)(n) <= Longest(settings)
    {
      hide BackoffDelay, Longest, Sensible;
      if Sensible(settings) && forall n :: -1.0 <= draws(n) <= 1.0 {
        LongestIsNatural(settings);
        forall n ensures 0.0 <= session.DelaysOf(draws)(n) <= Longest(settings) {
          if n in session.View().rows {
            BackoffWithin(settings, session.View().rows[n].retryCount + 1, draws(n));
          }
        }
      }
    }

    /** One turn of the loop in `run`: the beat and the sweeps are one transaction. */
    method Tick(t: Turn) returns (swept: bool, ghost v: Visit)
      requires broker.Valid() && WellFormed(database.committed)
      modifies this`lastSweep, database, broker
      ensures broker.Valid() && broker.clock >= old(broker.clock) && WellFormed(database.committed)
      ensures database.workers == old(database.workers)[worker := Some(t.now)]
      ensures swept <==> sweep && t.reading - old(lastSweep) >= interval
      ensures lastSweep == if swept then t.reading else old(lastSweep)
      ensures !swept ==> Sys() == old(Sys())
      ensures swept ==>
        && VisitOf(v, t, old(database.workers), worker, heartbeatTimeout, settings)
        && database.committed == Visited(old(database.committed), queuedTimeout, v)
        && Sys() == Committed(old(Sys()), VisitPatch(old(database.committed), queuedTimeout, v), multiset{},
                              multiset(Reclaimed(old(database.committed), queuedTimeout, v)))
      ensures forall n | n in old(database.committed).rows && old(database.committed).rows[n].status == Running
                         && HasBeaten(database.workers, old(database.committed).rows[n].workerId, t.now - heartbeatTimeout) ::
                n in database.committed.rows && database.committed.rows[n] == old(database.committed).rows[n]
    {
      hide Contents, Committed, VisitPatch, Reclaimed, Alive, WellFormed, Visited, Sensible, FairDraws, Longest, DelaysWithin, Apply;
      ghost var before := Sys();
      CommittedView(database.committed);
      v := Visit({}, t.now, _ => 0.0, _ => 0.0);
      var session := new Session(database, broker, settings);
      session.Heartbeat(worker, t.now);
      assert database.workers + session.beats == database.workers[worker := Some(t.now)];
      swept := sweep && t.reading - lastSweep >= interval;
      if swept {
        v := SweepBoth(session, t);
        lastSweep := t.reading;
        VisitPatchVisits(before.db, queuedTimeout, v);
        VisitLeavesLive(before.db, queuedTimeout, v, database.workers + session.beats, heartbeatTimeout);
        CommittedDb(before, session.patch, session.charged);
      } else {
        NothingCommitted(before);
      }
      var _ := session.CommitWhole();
    }

    /** `run`, for any number of turns, with nobody else at work: the rows go through the visits of
        the turns that sweep. If all running tasks have been deserted, the run is failed once enough
        time has passed. */
    method Run(turns: seq<Turn>, ghost order: seq<Name>, ghost start: real) returns (ghost visits: seq<Visit>)
      requires broker.Valid() && WellFormed(database.committed) && sweep
      modifies this`lastSweep, database, broker
      ensures broker.Valid() && database.committed == AfterVisits(old(database.committed), visits, queuedTimeout)
      ensures VisitsOf(visits, SweepingTurns(turns, old(lastSweep), interval), old(database.workers), worker, heartbeatTimeout, settings)
      ensures
        && DbInv(old(database.committed)) && old(database.committed).run == RunRunning
        && Topological(DepsOf(old(database.committed).rows), order) && Sensible(settings) && queuedTimeout >= 0.0
        && InOrderFrom(SweepingTurns(turns, old(lastSweep), interval), start)
        && Deserted(old(database.committed).rows, old(database.workers), worker, start - heartbeatTimeout)
        && StampedBy(old(database.committed).rows, start + Longest(settings))
        && BudgetBelow(old(database.committed).rows, Epochs(visits, start, Longest(settings) + queuedTimeout))
        ==> database.committed.run == RunFailed
    {
      hide Contents, Committed, VisitPatch, Reclaimed, Alive, WellFormed, Visited, VisitOf, DbInv, Topological, Sensible, InOrderFrom, Deserted,
           StampedBy, BudgetBelow, Epochs, AfterVisits;
      ghost var db, workers, first := database.committed, database.workers, lastSweep;
      visits := [];
      NoVisits(db, queuedTimeout);
      for i := 0 to |turns|
        invariant broker.Valid() && WellFormed(database.committed)
        invariant database.committed == AfterVisits(db, visits, queuedTimeout)
        invariant SameButMine(workers, database.workers)
        invariant lastSweep == LastReading(SweepingTurns(turns[..i], first, interval), first)
        invariant VisitsOf(visits, SweepingTurns(turns[..i], first, interval), workers, worker, heartbeatTimeout, settings)
      {
        assert turns[..i + 1][..i] == turns[..i];
        ghost var was := database.workers;
        var swept, v := Tick(turns[i]);
        SameVisit(v, turns[i], workers, was);
        if swept {
          AfterVisitsAppend(db, visits, v, queuedTimeout);
          visits := visits + [v];
        }
      }
      assert turns[..|turns|] == turns;
      ghost var kept := SweepingTurns(turns, first, interval);
      if DbInv(db) && db.run == RunRunning && Topological(DepsOf(db.rows), order) && Sensible(settings) && queuedTimeout >= 0.0
         && InOrderFrom(kept, start) && Deserted(db.rows, workers, worker, start - heartbeatTimeout)
         && StampedBy(db.rows, start + Longest(settings)) {
        DesertedRunIsFailed(db, order, workers, worker, visits, kept, heartbeatTimeout, queuedTimeout, settings, start);
      }
    }

    ghost predicate SameButMine(before: Workers, after: Workers) {
      forall now {:trigger Some(now)} :: before[worker := Some(now)] == after[worker := Some(now)]
    }

    lemma SameVisit(v: Visit, t: Turn, before: Workers, after: Workers)
      requires SameButMine(before, after)
      ensures VisitOf(v, t, after, worker, heartbeatTimeout, settings) ==> VisitOf(v, t, before, worker, heartbeatTimeout, settings)
      ensures SameButMine(before, after[worker := Some(t.now)])
    {
      assert before[worker := Some(t.now)] == after[worker := Some(t.now)];
      forall now ensures before[worker := Some(now)] == after[worker := Some(t.now)][worker := Some(now)] {
        assert before[worker := Some(now)] == after[worker := Some(now)];
      }
    }
  }
}
