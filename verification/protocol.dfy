/** The run as a protocol: any number of workers, sweepers and clients take transactions in any
    order, over a broker that may lose, repeat and reorder messages (app/scheduler.py,
    app/worker.py, app/recovery.py). */
module Protocol {
  import opened Graphs
  import opened Tables
  import opened Invariant

  /** What has happened so far: messages published, tasks parked as dead letters, claims won, and
      attempts that failed or were given up for lost. */
  datatype Log = Log(published: multiset<Message>, deadLetters: multiset<Message>,
                     claims: multiset<Message>, losses: multiset<Name>)

  datatype System = System(db: Db, broker: multiset<Message>, log: Log)

  datatype Action =
    | Deliver(msg: Message, worker: WorkerId) // a delivery reaches a worker, which claims or declines
    | Report(outcome: Outcome)                // the owner of a running task reports
    | Reclaim(outcome: Outcome)               // a sweep fails an orphaned or stuck task
    | CancelRun
    | Repeat(msg: Message)                    // at-least-once delivery
    | Lose(msg: Message)                      // a publish that failed after its commit

  /** The dead letters of an outbox, or its ordinary messages. */
  function Messages(outbox: seq<Publication>, dead: bool): seq<Message> {
    if outbox == [] then []
    else (if outbox[0].deadLetter == dead then [outbox[0].message] else []) + Messages(outbox[1..], dead)
  }

  function Sent(outbox: seq<Publication>): multiset<Message> {
    multiset(Messages(outbox, false))
  }

  function Parked(outbox: seq<Publication>): multiset<Message> {
    multiset(Messages(outbox, true))
  }

  /** Committing a transaction publishes its outbox, and only then. */
  function Commit(s: System, p: Patch): System {
    System(Apply(s.db, p), s.broker + Sent(p.outbox),
           s.log.(published := s.log.published + Sent(p.outbox), deadLetters := s.log.deadLetters + Parked(p.outbox)))
  }

  function Charge(s: System, n: Name): System {
    s.(log := s.log.(losses := s.log.losses + multiset{n}))
  }

  predicate Wins(db: Db, n: Name) {
    n in db.rows && db.rows[n].status == Queued
  }

  predicate Enabled(s: System, a: Action) {
    match a
    case Deliver(msg, _) => msg in s.broker
    case Report(o) => o.task in s.db.rows && s.db.rows[o.task].status == Running
    case Reclaim(o) => o.task in s.db.rows && InFlight(s.db.rows[o.task]) && !o.ok
    case CancelRun => s.db.run == RunRunning
    case Repeat(msg) => msg in s.broker
    case Lose(msg) => msg in s.broker
  }

  function Finish(s: System, o: Outcome): System
    requires o.task in s.db.rows
  {
    var after := Commit(s, ReportPatch(s.db, o));
    if o.ok then after else Charge(after, o.task)
  }

  function Next(s: System, a: Action): System
    requires Enabled(s, a)
  {
    match a
    case Deliver(msg, w) =>
      var claims := if Wins(s.db, msg.task) then multiset{Message(msg.task, s.db.rows[msg.task].retryCount)} else multiset{};
      System(Claimed(s.db, msg.task, w), s.broker - multiset{msg}, s.log.(claims := s.log.claims + claims))
    case Report(o) => Finish(s, o)
    case Reclaim(o) => Finish(s, o)
    case CancelRun => Commit(s, CancelPatch(s.db.rows))
    case Repeat(msg) => s.(broker := s.broker + multiset{msg})
    case Lose(msg) => s.(broker := s.broker - multiset{msg})
  }

  ghost predicate Legal(s: System, acts: seq<Action>)
    decreases acts
  {
    acts == [] || (Enabled(s, acts[0]) && Legal(Next(s, acts[0]), acts[1..]))
  }

  function Exec(s: System, acts: seq<Action>): System
    requires Legal(s, acts)
    decreases acts
  {
    if acts == [] then s else Exec(Next(s, acts[0]), acts[1..])
  }

  lemma {:induction false} ExecAppend(s: System, acts: seq<Action>, a: Action)
    requires Legal(s, acts) && Enabled(Exec(s, acts), a)
    ensures Legal(s, acts + [a]) && Exec(s, acts + [a]) == Next(Exec(s, acts), a)
    decreases acts
  {
    hide Next;
    if acts == [] {
      assert ([] + [a])[1..] == [];
      assert [] + [a] == [a];
    } else {
      ExecAppend(Next(s, acts[0]), acts[1..], a);
      assert (acts + [a])[1..] == acts[1..] + [a];
    }
  }

  lemma {:induction false} ExecConcat(s: System, a: seq<Action>, b: seq<Action>)
    requires Legal(s, a) && Legal(Exec(s, a), b)
    ensures Legal(s, a + b) && Exec(s, a + b) == Exec(Exec(s, a), b)
    decreases a
  {
    hide Next;
    if a == [] {
      assert a + b == b;
    } else {
      ExecConcat(Next(s, a[0]), a[1..], b);
      assert (a + b)[1..] == a[1..] + b;
    }
  }

  // ----- accounting --------------------------------------------------------------------------

  /** What the log says about one row. */
  ghost predicate LogOk(n: Name, row: Row, log: Log) {
    && (forall a: nat :: log.published[Message(n, a)] == if row.dispatchedAt.Some? && a <= row.retryCount then 1 else 0)
    && (forall a: nat :: log.deadLetters[Message(n, a)] == if row.status == Failed && a == row.retryCount then 1 else 0)
    && (forall a: nat :: log.claims[Message(n, a)] <= if a <= row.retryCount && row.dispatchedAt.Some? then 1 else 0)
    && (row.status == Queued ==> log.claims[Message(n, row.retryCount)] == 0)
    && (row.status in {Running, Success} ==> log.claims[Message(n, row.retryCount)] == 1)
    && log.losses[n] == row.retryCount + (if row.status == Failed then 1 else 0)
  }

  ghost predicate Traceable(m: Message, rows: Rows) {
    m.task in rows && rows[m.task].dispatchedAt.Some? && m.attempt <= rows[m.task].retryCount
  }

  ghost predicate Logged(rows: Rows, log: Log) {
    forall n {:trigger LogOk(n, rows[n], log)} | n in rows :: LogOk(n, rows[n], log)
  }

  /** Every message on the broker announces a dispatched attempt of a committed row. */
  ghost predicate Traced(rows: Rows, broker: multiset<Message>) {
    forall m {:trigger Traceable(m, rows)} | m in broker :: Traceable(m, rows)
  }

  ghost predicate LogInv(s: System) {
    Logged(s.db.rows, s.log) && Traced(s.db.rows, s.broker)
  }

  ghost predicate SysInv(s: System) {
    DbInv(s.db) && LogInv(s)
  }

  lemma {:induction false} AnnounceCounts(rows: Rows, names: seq<Name>, m: Message)
    requires Distinct(names) && forall n | n in names :: n in rows
    ensures Sent(Announce(rows, names))[m] == if m.task in names && m.attempt == rows[m.task].retryCount then 1 else 0
    ensures Parked(Announce(rows, names)) == multiset{}
  {
    if names != [] {
      var rest := names[1..];
      AnnounceCounts(rows, rest, m);
      assert names == [names[0]] + rest;
      var head := Publication(Message(names[0], rows[names[0]].retryCount), 0.0, false);
      SentAhead(head, Announce(rows, rest));
    }
  }

  lemma MessagesAhead(p: Publication, rest: seq<Publication>, dead: bool)
    ensures Messages([p] + rest, dead) == (if p.deadLetter == dead then [p.message] else []) + Messages(rest, dead)
  {
    assert ([p] + rest)[1..] == rest;
  }

  lemma SentAhead(p: Publication, rest: seq<Publication>)
    requires !p.deadLetter
    ensures Sent([p] + rest) == multiset{p.message} + Sent(rest) && Parked([p] + rest) == Parked(rest)
  {
    MessagesAhead(p, rest, false);
    MessagesAhead(p, rest, true);
    assert [] + Messages(rest, true) == Messages(rest, true);
  }

  lemma Reassociate<T>(a: seq<T>, b: seq<T>, c: seq<T>)
    ensures (a + b) + c == a + (b + c)
  {
  }

  lemma {:induction false} MessagesConcat(a: seq<Publication>, b: seq<Publication>, dead: bool)
    ensures Messages(a + b, dead) == Messages(a, dead) + Messages(b, dead)
  {
    if a == [] {
      assert a + b == b;
    } else {
      hide Messages;
      var rest := a[1..];
      assert a == [a[0]] + rest;
      MessagesConcat(rest, b, dead);
      Reassociate([a[0]], rest, b);
      MessagesAhead(a[0], rest + b, dead);
      MessagesAhead(a[0], rest, dead);
      Reassociate(if a[0].deadLetter == dead then [a[0].message] else [], Messages(rest, dead), Messages(b, dead));
    }
  }

  lemma SentConcat(a: seq<Publication>, b: seq<Publication>)
    ensures Sent(a + b) == Sent(a) + Sent(b) && Parked(a + b) == Parked(a) + Parked(b)
  {
    MessagesConcat(a, b, false);
    MessagesConcat(a, b, true);
  }

  lemma SingleMessage(p: Publication)
    ensures Sent([p]) == if p.deadLetter then multiset{} else multiset{p.message}
    ensures Parked([p]) == if p.deadLetter then multiset{p.message} else multiset{}
  {
    assert [p][1..] == [];
    assert Messages([p], p.deadLetter) == [p.message];
    assert Messages([p], !p.deadLetter) == [];
  }

  lemma CommitThen(s: System, p: Patch, q: Patch)
    ensures Commit(Commit(s, p), q) == Commit(s, Then(p, q))
  {
    ApplyThen(s.db, p, q);
    SentConcat(p.outbox, q.outbox);
    assert (s.broker + Sent(p.outbox)) + Sent(q.outbox) == s.broker + (Sent(p.outbox) + Sent(q.outbox));
    assert (s.log.published + Sent(p.outbox)) + Sent(q.outbox) == s.log.published + (Sent(p.outbox) + Sent(q.outbox));
    assert (s.log.deadLetters + Parked(p.outbox)) + Parked(q.outbox) == s.log.deadLetters + (Parked(p.outbox) + Parked(q.outbox));
  }

  /** Rows and messages that a step leaves alone stay accounted for. */
  ghost predicate Grows(rows: Rows, rows': Rows) {
    && rows.Keys == rows'.Keys
    && forall n | n in rows :: rows'[n].retryCount >= rows[n].retryCount && (rows[n].dispatchedAt.Some? ==> rows'[n].dispatchedAt.Some?)
  }

  lemma StillTraced(broker: multiset<Message>, rows: Rows, rows': Rows)
    requires Grows(rows, rows') && Traced(rows, broker)
    ensures Traced(rows', broker)
  {
    forall m | m in broker ensures Traceable(m, rows') {
      assert Traceable(m, rows);
    }
  }

  lemma TracedUnion(rows: Rows, a: multiset<Message>, b: multiset<Message>)
    requires Traced(rows, a) && Traced(rows, b)
    ensures Traced(rows, a + b)
  {
    forall m | m in a + b ensures Traceable(m, rows) {
      assert m in a || m in b;
      assert m in a ==> Traceable(m, rows);
      assert m in b ==> Traceable(m, rows);
    }
  }

  /** A pending row has no history; dispatching it publishes attempt 0 once. */
  lemma DispatchLogOk(n: Name, row: Row, log: Log, log': Log, now: real, chosen: bool)
    requires LogOk(n, row, log) && (chosen ==> row.status == Pending && row.retryCount == 0 && row.dispatchedAt == None)
    requires forall a: nat :: log'.published[Message(n, a)] == log.published[Message(n, a)] + if chosen && a == 0 then 1 else 0
    requires log'.deadLetters == log.deadLetters && log'.claims == log.claims && log'.losses == log.losses
    ensures LogOk(n, if chosen then row.(status := Queued, dispatchedAt := Some(now)) else row, log')
  {
  }

  lemma DispatchLogged(rows: Rows, log: Log, names: seq<Name>, now: real)
    requires Logged(rows, log) && RowsInv(rows, RunRunning)
    requires forall n | n in names :: n in rows
    requires Distinct(names) && forall n | n in names :: CanRun(rows, n)
    ensures var p := DispatchPatch(rows, names, now);
            Logged(rows + p.rows, log.(published := log.published + Sent(p.outbox)))
  {
    var p := DispatchPatch(rows, names, now);
    var rows', log' := rows + p.rows, log.(published := log.published + Sent(p.outbox));
    forall n | n in rows' ensures LogOk(n, rows'[n], log') {
      assert LogOk(n, rows[n], log);
      assert RowInv(rows, RunRunning, n);
      forall a: nat ensures Sent(p.outbox)[Message(n, a)] == if n in names && a == 0 then 1 else 0 {
        AnnounceCounts(rows, names, Message(n, a));
      }
      DispatchLogOk(n, rows[n], log, log', now, n in names);
    }
  }

  lemma DispatchTraced(rows: Rows, broker: multiset<Message>, names: seq<Name>, now: real)
    requires Traced(rows, broker)
    requires Distinct(names) && forall n | n in names :: n in rows
    ensures var p := DispatchPatch(rows, names, now); Traced(rows + p.rows, broker + Sent(p.outbox))
  {
    var p := DispatchPatch(rows, names, now);
    StillTraced(broker, rows, rows + p.rows);
    forall m | m in Sent(p.outbox) ensures Traceable(m, rows + p.rows) {
      AnnounceCounts(rows, names, m);
    }
    TracedUnion(rows + p.rows, broker, Sent(p.outbox));
  }

  /** A patch without rows or messages leaves the accounts as they are. */
  lemma SilentCommit(s: System, p: Patch)
    requires p.rows == map[] && p.outbox == []
    ensures Commit(s, p).db.rows == s.db.rows && Commit(s, p).broker == s.broker && Commit(s, p).log == s.log
  {
  }

  lemma ResolveKeepsLog(s: System, now: real)
    requires LogInv(s) && WellFormed(s.db) && RowsInv(s.db.rows, s.db.run)
    requires s.db.run == RunRunning || s.db.run == RunCancelled
    ensures LogInv(Commit(s, ResolvePatch(s.db, now)))
  {
    RunnableIsQuiet(s.db);
    var p, names := ResolvePatch(s.db, now), Runnable(s.db);
    if s.db.run == RunRunning && names != [] {
      DispatchLogged(s.db.rows, s.log, names, now);
      DispatchTraced(s.db.rows, s.broker, names, now);
      AnnounceCounts(s.db.rows, names, Message(names[0], 0));
      assert s.log.deadLetters + Parked(p.outbox) == s.log.deadLetters;
    } else {
      SilentCommit(s, p);
    }
  }

  /** One row and its own log entries change; the log of every other task is untouched. */
  ghost predicate OnlyAbout(n: Name, log: Log, log': Log) {
    && (forall m: Message {:trigger log'.published[m]} | m.task != n :: log'.published[m] == log.published[m])
    && (forall m: Message {:trigger log'.deadLetters[m]} | m.task != n :: log'.deadLetters[m] == log.deadLetters[m])
    && (forall m: Message {:trigger log'.claims[m]} | m.task != n :: log'.claims[m] == log.claims[m])
    && (forall k {:trigger log'.losses[k]} | k != n :: log'.losses[k] == log.losses[k])
  }

  lemma OthersLogOk(n: Name, k: Name, row: Row, log: Log, log': Log)
    requires OnlyAbout(n, log, log') && k != n && LogOk(k, row, log)
    ensures LogOk(k, row, log')
  {
  }

  lemma OneRowLogged(rows: Rows, n: Name, row: Row, log: Log, log': Log)
    requires Logged(rows, log) && n in rows && OnlyAbout(n, log, log') && LogOk(n, row, log')
    ensures Logged(rows[n := row], log')
  {
    var rows' := rows[n := row];
    forall k | k in rows' ensures LogOk(k, rows'[k], log') {
      if k != n {
        assert LogOk(k, rows[k], log);
        OthersLogOk(n, k, rows[k], log, log');
      }
    }
  }

  lemma OneRowTraced(rows: Rows, n: Name, row: Row, broker: multiset<Message>)
    requires Traced(rows, broker) && n in rows && row.retryCount >= rows[n].retryCount
    requires rows[n].dispatchedAt.Some? ==> row.dispatchedAt.Some?
    ensures Traced(rows[n := row], broker)
  {
    StillTraced(broker, rows, rows[n := row]);
  }

  lemma ClaimLogOk(n: Name, row: Row, w: WorkerId, log: Log)
    requires LogOk(n, row, log) && row.status == Queued && row.dispatchedAt.Some?
    ensures var log' := log.(claims := log.claims + multiset{Message(n, row.retryCount)});
            LogOk(n, row.(status := Running, workerId := Some(w)), log') && OnlyAbout(n, log, log')
  {
  }

  lemma ClaimKeepsLog(s: System, msg: Message, w: WorkerId)
    requires SysInv(s) && msg in s.broker
    ensures LogInv(Next(s, Deliver(msg, w)))
  {
    var s', n := Next(s, Deliver(msg, w)), msg.task;
    if Wins(s.db, n) {
      assert LogOk(n, s.db.rows[n], s.log);
      assert RowInv(s.db.rows, s.db.run, n);
      ClaimLogOk(n, s.db.rows[n], w, s.log);
      OneRowLogged(s.db.rows, n, s'.db.rows[n], s.log, s'.log);
      OneRowTraced(s.db.rows, n, s'.db.rows[n], s.broker);
    } else {
      assert s'.log == s.log;
    }
  }

  /** A retry closes the current attempt as lost and publishes the next one. */
  lemma RequeueLogOk(n: Name, row: Row, row': Row, log: Log, log': Log)
    requires LogOk(n, row, log) && InFlight(row) && row.dispatchedAt.Some?
    requires row'.retryCount == row.retryCount + 1 && row'.status == Queued && row'.dispatchedAt.Some?
    requires log' == Log(log.published + multiset{Message(n, row'.retryCount)}, log.deadLetters, log.claims, log.losses + multiset{n})
    ensures LogOk(n, row', log') && OnlyAbout(n, log, log')
  {
  }

  /** What a retry commits. */
  lemma RequeueCommits(s: System, n: Name, now: real, delay: real)
    requires n in s.db.rows
    ensures var row := RequeuePatch(s.db.rows, n, now, delay).rows[n];
            var m := multiset{Message(n, row.retryCount)};
            Charge(Commit(s, RequeuePatch(s.db.rows, n, now, delay)), n) ==
            System(s.db.(rows := s.db.rows[n := row]), s.broker + m,
                   Log(s.log.published + m, s.log.deadLetters, s.log.claims, s.log.losses + multiset{n}))
  {
    hide Sent, Parked;
    SingleMessage(RequeuePatch(s.db.rows, n, now, delay).outbox[0]);
    assert s.log.deadLetters + multiset{} == s.log.deadLetters;
  }

  lemma OneTraced(rows: Rows, m: Message)
    requires Traceable(m, rows)
    ensures Traced(rows, multiset{m})
  {
  }

  lemma RequeueKeepsLog(s: System, n: Name, now: real, delay: real)
    requires SysInv(s) && n in s.db.rows && InFlight(s.db.rows[n])
    ensures LogInv(Charge(Commit(s, RequeuePatch(s.db.rows, n, now, delay)), n))
  {
    hide Commit, Charge, RowInv, LogOk, WellFormed, RunInv;
    var row := RequeuePatch(s.db.rows, n, now, delay).rows[n];
    var s' := Charge(Commit(s, RequeuePatch(s.db.rows, n, now, delay)), n);
    RequeueCommits(s, n, now, delay);
    DispatchedRow(s, n);
    assert LogOk(n, s.db.rows[n], s.log);
    RequeueLogOk(n, s.db.rows[n], row, s.log, s'.log);
    OneRowLogged(s.db.rows, n, row, s.log, s'.log);
    OneRowTraced(s.db.rows, n, row, s.broker);
    OneTraced(s'.db.rows, Message(n, row.retryCount));
    TracedUnion(s'.db.rows, s.broker, multiset{Message(n, row.retryCount)});
  }

  lemma DispatchedRow(s: System, n: Name)
    requires SysInv(s) && n in s.db.rows && InFlight(s.db.rows[n])
    ensures s.db.rows[n].dispatchedAt.Some?
  {
    assert RowInv(s.db.rows, s.db.run, n);
  }

  /** Giving up charges the last attempt and parks one dead letter; succeeding charges nothing. */
  lemma MarkLogOk(n: Name, row: Row, ok: bool, log: Log, log': Log)
    requires LogOk(n, row, log) && InFlight(row) && row.dispatchedAt.Some? && (ok ==> row.status == Running)
    requires log' == if ok then log
                     else Log(log.published, log.deadLetters + multiset{Message(n, row.retryCount)}, log.claims, log.losses + multiset{n})
    ensures LogOk(n, row.(status := if ok then Success else Failed), log') && OnlyAbout(n, log, log')
  {
  }

  lemma SucceedKeepsLog(s: System, n: Name)
    requires SysInv(s) && n in s.db.rows && s.db.rows[n].status == Running
    ensures LogInv(Commit(s, MarkPatch(s.db.rows, n, true)))
  {
    var row := s.db.rows[n].(status := Success);
    assert RowInv(s.db.rows, s.db.run, n);
    assert LogOk(n, s.db.rows[n], s.log);
    MarkLogOk(n, s.db.rows[n], true, s.log, s.log);
    OneRowLogged(s.db.rows, n, row, s.log, s.log);
    OneRowTraced(s.db.rows, n, row, s.broker);
    var s' := Commit(s, MarkPatch(s.db.rows, n, true));
    assert s'.broker == s.broker && s'.log == s.log && s'.db.rows == s.db.rows[n := row];
  }

  lemma FailCommits(s: System, n: Name)
    requires n in s.db.rows
    ensures Charge(Commit(s, MarkPatch(s.db.rows, n, false)), n) ==
            System(s.db.(rows := s.db.rows[n := s.db.rows[n].(status := Failed)]), s.broker,
                   Log(s.log.published, s.log.deadLetters + multiset{Message(n, s.db.rows[n].retryCount)}, s.log.claims,
                       s.log.losses + multiset{n}))
  {
    hide Sent, Parked;
    SingleMessage(Publication(Message(n, s.db.rows[n].retryCount), 0.0, true));
    assert s.broker + multiset{} == s.broker && s.log.published + multiset{} == s.log.published;
  }

  lemma FailKeepsLog(s: System, n: Name)
    requires SysInv(s) && n in s.db.rows && InFlight(s.db.rows[n])
    ensures LogInv(Charge(Commit(s, MarkPatch(s.db.rows, n, false)), n))
  {
    hide Commit, Charge, MarkPatch, RowInv, LogOk, WellFormed, RunInv;
    var row := s.db.rows[n].(status := Failed);
    var s' := Charge(Commit(s, MarkPatch(s.db.rows, n, false)), n);
    FailCommits(s, n);
    DispatchedRow(s, n);
    assert LogOk(n, s.db.rows[n], s.log);
    MarkLogOk(n, s.db.rows[n], false, s.log, s'.log);
    OneRowLogged(s.db.rows, n, row, s.log, s'.log);
    OneRowTraced(s.db.rows, n, row, s.broker);
  }

  lemma FinishKeepsLog(s: System, o: Outcome)
    requires SysInv(s) && o.task in s.db.rows && InFlight(s.db.rows[o.task])
    requires o.ok ==> s.db.rows[o.task].status == Running
    ensures LogInv(Finish(s, o))
  {
    if !o.ok && Retries(s.db, o.task) {
      RequeueKeepsLog(s, o.task, o.now, o.delay);
    } else {
      var mark := MarkPatch(s.db.rows, o.task, o.ok);
      var marked := Commit(s, mark);
      var charged := if o.ok then marked else Charge(marked, o.task);
      if o.ok {
        SucceedKeepsLog(s, o.task);
      } else {
        FailKeepsLog(s, o.task);
      }
      MarkKeepsRows(s.db, o.task, o.ok);
      SameWellFormed(s.db, marked.db);
      InFlightMeansOpen(s.db, o.task);
      ResolveKeepsLog(charged, o.now);
      CommitThen(s, mark, ResolvePatch(marked.db, o.now));
      assert Commit(charged, ResolvePatch(marked.db, o.now)) == Finish(s, o);
    }
  }

  lemma CancelKeepsLog(s: System)
    requires SysInv(s) && s.db.run == RunRunning
    ensures LogInv(Next(s, CancelRun))
  {
    var s' := Next(s, CancelRun);
    assert s'.log == s.log && s'.broker == s.broker;
    forall n | n in s'.db.rows ensures LogOk(n, s'.db.rows[n], s'.log) {
      assert LogOk(n, s.db.rows[n], s.log);
      assert RowInv(s.db.rows, s.db.run, n);
    }
    StillTraced(s.broker, s.db.rows, s'.db.rows);
  }

  // ----- every step, every run ---------------------------------------------------------------

  lemma StepKeepsInv(s: System, order: seq<Name>, a: Action)
    requires SysInv(s) && Topological(DepsOf(s.db.rows), order) && Enabled(s, a)
    ensures SysInv(Next(s, a)) && KeepsSuccess(s.db.rows, Next(s, a).db.rows)
  {
    match a
    case Deliver(msg, w) =>
      ClaimKeepsInv(s.db, msg.task, w);
      ClaimKeepsLog(s, msg, w);
    case Report(o) =>
      ReportKeepsInv(s.db, order, o);
      FinishKeepsLog(s, o);
    case Reclaim(o) =>
      ReportKeepsInv(s.db, order, o);
      FinishKeepsLog(s, o);
    case CancelRun =>
      CancelKeepsInv(s.db);
      CancelKeepsLog(s);
    case Repeat(msg) =>
    case Lose(msg) =>
  }

  /** A run that has just been created: every row pending, nothing sent. */
  ghost predicate Created(db: Db) {
    && WellFormed(db) && db.run == RunRunning
    && forall n | n in db.rows :: db.rows[n] == Row(db.rows[n].deps, Pending, 0, db.rows[n].maxRetries, None, None)
  }

  const EMPTY_LOG := Log(multiset{}, multiset{}, multiset{}, multiset{})

  /** The trigger: create the rows, resolve the first wave, commit. */
  function Trigger(db: Db, now: real): System {
    Commit(System(db, multiset{}, EMPTY_LOG), ResolvePatch(db, now))
  }

  lemma TriggerEstablishes(db: Db, order: seq<Name>, now: real)
    requires Created(db) && Topological(DepsOf(db.rows), order)
    ensures SysInv(Trigger(db, now)) && SameTasks(db.rows, Trigger(db, now).db.rows)
  {
    var start := System(db, multiset{}, EMPTY_LOG);
    forall n | n in db.rows ensures LogOk(n, db.rows[n], EMPTY_LOG) && RowInv(db.rows, db.run, n) {
    }
    ResolveEstablishes(db, order, now);
    ResolveKeepsLog(start, now);
  }

  /** Whatever the interleaving, and whatever the broker does to the messages. */
  lemma {:induction false} RunKeepsInv(s: System, order: seq<Name>, acts: seq<Action>)
    requires SysInv(s) && Topological(DepsOf(s.db.rows), order) && Legal(s, acts)
    ensures SysInv(Exec(s, acts)) && KeepsSuccess(s.db.rows, Exec(s, acts).db.rows)
    decreases acts
  {
    if acts != [] {
      var s' := Next(s, acts[0]);
      StepKeepsInv(s, order, acts[0]);
      SameGraph(s.db.rows, s'.db.rows);
      RunKeepsInv(s', order, acts[1..]);
      SuccessKept(s.db.rows, s'.db.rows, Exec(s', acts[1..]).db.rows);
    }
  }
}
