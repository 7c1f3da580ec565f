/** How the patch of a transaction grows: one row, one message or one report at a time. */
module Patches {
  import opened Graphs
  import opened Tables
  import opened Invariant
  import opened Protocol
  import opened Recovery
  import opened Broker

  /** The publications of an outbox that reach the broker, when those numbered in `lost` fail. */
  function Surviving(outbox: seq<Publication>, lost: set<nat>): seq<Publication> {
    if outbox == [] then []
    else
      var last := |outbox| - 1;
      Surviving(outbox[..last], lost) + (if last in lost then [] else [outbox[last]])
  }

  lemma {:induction false} NothingLost(outbox: seq<Publication>)
    ensures Surviving(outbox, {}) == outbox
  {
    if outbox != [] {
      NothingLost(outbox[..|outbox| - 1]);
    }
  }

  lemma {:induction false} AnnounceConcat(rows: Rows, a: seq<Name>, b: seq<Name>)
    requires forall n | n in a :: n in rows
    requires forall n | n in b :: n in rows
    ensures Announce(rows, a + b) == Announce(rows, a) + Announce(rows, b)
  {
    if a == [] {
      assert a + b == b;
    } else {
      assert (a + b)[1..] == a[1..] + b;
      AnnounceConcat(rows, a[1..], b);
    }
  }

  lemma AnnounceStep(rows: Rows, names: seq<Name>, i: nat)
    requires i < |names| && forall n | n in names :: n in rows
    ensures forall n | n in names[..i + 1] :: n in rows
    ensures forall n | n in names[..i] :: n in rows
    ensures Announce(rows, names[..i + 1]) ==
            Announce(rows, names[..i]) + [Publication(Message(names[i], rows[names[i]].retryCount), 0.0, false)]
  {
    assert names[..i + 1] == names[..i] + [names[i]];
    AnnounceConcat(rows, names[..i], [names[i]]);
    assert [names[i]][1..] == [];
  }

  /** What `dispatch` writes for the first tasks it is given. */
  function QueuedAmong(rows: Rows, names: seq<Name>, now: real): Rows {
    map n | n in names && n in rows :: rows[n].(status := Queued, dispatchedAt := Some(now))
  }

  lemma QueuedStep(committed: Rows, own: Rows, names: seq<Name>, i: nat, now: real)
    requires i < |names| && names[i] in committed + own
    ensures var rows, view := committed + own, committed + (own + QueuedAmong(committed + own, names[..i], now));
            && names[i] in view
            && view[names[i]].(status := Queued, dispatchedAt := Some(now)) == rows[names[i]].(status := Queued, dispatchedAt := Some(now))
            && own + QueuedAmong(rows, names[..i + 1], now) ==
               (own + QueuedAmong(rows, names[..i], now))[names[i] := rows[names[i]].(status := Queued, dispatchedAt := Some(now))]
  {
    assert names[..i + 1] == names[..i] + [names[i]];
  }

  /** Every task given is queued as of now, at its current attempt, and announced in the order given;
      no other row is touched. */
  ghost predicate DispatchedIn(rows: Rows, rows': Rows, names: seq<Name>, now: real, outbox: seq<Publication>, outbox': seq<Publication>) {
    && rows'.Keys == rows.Keys
    && (forall n {:trigger rows'[n]} | n in rows :: rows'[n] == if n in names then rows[n].(status := Queued, dispatchedAt := Some(now)) else rows[n])
    && |outbox'| == |outbox| + |names| && outbox'[..|outbox|] == outbox
    && (forall i {:trigger names[i]} | 0 <= i < |names| ::
          names[i] in rows && outbox'[|outbox| + i] == Publication(Message(names[i], rows[names[i]].retryCount), 0.0, false))
  }

  lemma DispatchIsBoth(rows: Rows, names: seq<Name>, now: real)
    requires forall n | n in names :: n in rows
    ensures DispatchPatch(rows, names, now) == Patch(QueuedAmong(rows, names, now), None, Announce(rows, names))
  {
    assert DispatchPatch(rows, names, now).rows == QueuedAmong(rows, names, now);
  }

  lemma QueuedView(committed: Rows, own: Rows, names: seq<Name>, now: real)
    requires forall n | n in names :: n in committed + own
    ensures var rows, after := committed + own, committed + (own + QueuedAmong(committed + own, names, now));
            && after.Keys == rows.Keys
            && forall n | n in rows :: after[n] == if n in names then rows[n].(status := Queued, dispatchedAt := Some(now)) else rows[n]
  {
  }

  lemma DispatchWrites(committed: Rows, own: Patch, names: seq<Name>, now: real)
    requires forall n | n in names :: n in committed + own.rows
    ensures var rows := committed + own.rows;
            var after := Then(own, DispatchPatch(rows, names, now));
            DispatchedIn(rows, committed + after.rows, names, now, own.outbox, after.outbox)
  {
    AnnouncedInOrder(committed + own.rows, names);
    QueuedView(committed, own.rows, names, now);
    DispatchIsBoth(committed + own.rows, names, now);
    hide Announce, QueuedAmong, DispatchPatch;
  }

  lemma SurvivingStep(outbox: seq<Publication>, i: nat, lost: set<nat>)
    requires i < |outbox|
    ensures Surviving(outbox[..i + 1], lost) == Surviving(outbox[..i], lost) + if i in lost then [] else [outbox[i]]
  {
    assert outbox[..i + 1][..i] == outbox[..i];
  }

  /** One more publication, on the broker's side. */
  lemma FlushStep(outbox: seq<Publication>, i: nat, lost: set<nat>)
    requires i < |outbox|
    ensures i in lost ==> Surviving(outbox[..i + 1], lost) == Surviving(outbox[..i], lost)
    ensures i !in lost ==> Sent(Surviving(outbox[..i + 1], lost)) == Sent(Surviving(outbox[..i], lost)) + Sent([outbox[i]])
    ensures i !in lost ==> Messages(Surviving(outbox[..i + 1], lost), true) == Messages(Surviving(outbox[..i], lost), true) + Messages([outbox[i]], true)
  {
    hide Messages, Sent, Parked;
    SurvivingStep(outbox, i, lost);
    var before := Surviving(outbox[..i], lost);
    assert before + [] == before;
    SentConcat(before, [outbox[i]]);
    MessagesConcat(before, [outbox[i]], true);
  }

  /** What publishing an outbox between two readings of the clock adds to the queue: an entry for
      each publication that has not failed and is no dead letter, due after its delay, and behind
      everything published before. */
  ghost predicate Scheduled(before: seq<Entry>, after: seq<Entry>, added: map<nat, Entry>, outbox: seq<Publication>, lost: set<nat>, from: real, to: real) {
    && (forall e :: e in after <==> e in before || e in added.Values)
    && (forall i: nat :: i in added <==> i < |outbox| && i !in lost && !outbox[i].deadLetter)
    && (forall i | i in added :: added[i].message == outbox[i].message && from + outbox[i].delay <= added[i].at <= to + outbox[i].delay)
    && (forall i, e | i in added && e in before :: e.tick < added[i].tick)
    && (forall i, j | i in added && j in added && i < j :: added[i].tick < added[j].tick)
  }

  lemma NothingScheduled(heap: seq<Entry>, outbox: seq<Publication>, lost: set<nat>, now: real)
    ensures Scheduled(heap, heap, map[], outbox[..0], lost, now, now)
  {
  }

  lemma ScheduleSkip(before: seq<Entry>, heap: seq<Entry>, added: map<nat, Entry>, outbox: seq<Publication>, i: nat, lost: set<nat>, from: real, to: real)
    requires i < |outbox| && Scheduled(before, heap, added, outbox[..i], lost, from, to) && (i in lost || outbox[i].deadLetter)
    ensures Scheduled(before, heap, added, outbox[..i + 1], lost, from, to)
  {
    assert outbox[..i] == outbox[..i + 1][..i];
  }

  lemma OneMoreEntry(before: seq<Entry>, heap: seq<Entry>, after: seq<Entry>, added: map<nat, Entry>, i: nat, e: Entry)
    requires forall f :: f in heap <==> f in before || f in added.Values
    requires i !in added && multiset(after) == multiset(heap) + multiset{e}
    ensures forall f :: f in after <==> f in before || f in added[i := e].Values
  {
    forall f ensures f in after <==> f in before || f in added[i := e].Values {
      assert f in after <==> f in multiset(after);
      assert f in heap <==> f in multiset(heap);
      var all := added[i := e];
      if f in added.Values {
        var k :| k in added && added[k] == f;
        assert all[k] == f;
      }
      assert all[i] == e;
    }
  }

  /** The next publication becomes the entry e. */
  lemma ScheduleStep(before: seq<Entry>, heap: seq<Entry>, after: seq<Entry>, added: map<nat, Entry>, outbox: seq<Publication>, i: nat, lost: set<nat>,
                     from: real, now: real, to: real, e: Entry)
    requires i < |outbox| && i !in lost && !outbox[i].deadLetter
    requires Scheduled(before, heap, added, outbox[..i], lost, from, now) && from <= now <= to
    requires multiset(after) == multiset(heap) + multiset{e} && forall f | f in heap :: f.tick < e.tick
    requires e.message == outbox[i].message && now + outbox[i].delay <= e.at <= to + outbox[i].delay
    ensures Scheduled(before, after, added[i := e], outbox[..i + 1], lost, from, to)
  {
    assert outbox[..i] == outbox[..i + 1][..i];
    OneMoreEntry(before, heap, after, added, i, e);
    forall k | k in added ensures added[k] in heap {
      assert added[k] in added.Values;
    }
  }

  lemma ScheduledLater(before: seq<Entry>, heap: seq<Entry>, added: map<nat, Entry>, outbox: seq<Publication>, lost: set<nat>, from: real, now: real, to: real)
    requires Scheduled(before, heap, added, outbox, lost, from, now) && now <= to
    ensures Scheduled(before, heap, added, outbox, lost, from, to)
  {
  }

  /** A single publication: its message is the only new one, and due after its delay. */
  lemma OneScheduled(before: seq<Entry>, after: seq<Entry>, added: map<nat, Entry>, p: Publication, from: real, to: real)
    requires Scheduled(before, after, added, [p], {}, from, to) && !p.deadLetter
    ensures exists e :: e in after && e !in before
    ensures forall e | e in after :: e in before || (e.message == p.message && from + p.delay <= e.at <= to + p.delay)
    ensures forall e | e in before :: e in after
  {
    assert 0 in added;
    assert added[0] in added.Values;
  }

  /** Without a delay everything is due at once. */
  lemma AllScheduledAtOnce(before: seq<Entry>, after: seq<Entry>, added: map<nat, Entry>, outbox: seq<Publication>, from: real, to: real)
    requires Scheduled(before, after, added, outbox, {}, from, to) && AtOnce(outbox)
    ensures forall e | e in after :: e in before || e.at <= to
    ensures forall e | e in before :: e in after
  {
    forall e | e in after && e !in before ensures e.at <= to {
      assert e in added.Values;
      var i :| i in added && added[i] == e;
      assert outbox[i].delay == 0.0;
    }
  }

  ghost predicate AtOnce(outbox: seq<Publication>) {
    forall i {:trigger outbox[i]} | 0 <= i < |outbox| :: outbox[i].delay == 0.0
  }

  lemma TickPublishesAtOnce(db: Db, now: real)
    requires WellFormed(db)
    ensures AtOnce(ResolvePatch(db, now).outbox)
  {
    if Runnable(db) != [] {
      RunnableIsQuiet(db);
      AnnouncedInOrder(db.rows, Runnable(db));
    }
  }

  /** Only a retry is held back. */
  lemma SettlingPublishesAtOnce(view: Db, o: Outcome)
    requires WellFormed(view) && o.task in view.rows && (o.ok || !Retries(view, o.task))
    ensures AtOnce(ReportPatch(view, o).outbox)
  {
    var mark := MarkPatch(view.rows, o.task, o.ok);
    MarkKeepsWellFormed(view, o.task, o.ok);
    assert AtOnce(mark.outbox);
    hide WellFormed, ResolvePatch;
    TickPublishesAtOnce(Apply(view, mark), o.now);
  }

  lemma FlushNothing(outbox: seq<Publication>, lost: set<nat>)
    ensures Sent(Surviving(outbox[..0], lost)) == multiset{} && Messages(Surviving(outbox[..0], lost), true) == []
  {
  }

  lemma DeadMessage(p: Publication)
    ensures Messages([p], true) == if p.deadLetter then [p.message] else []
  {
    assert [p][1..] == [];
  }

  lemma ThenAssociates(p: Patch, q: Patch, r: Patch)
    ensures Then(Then(p, q), r) == Then(p, Then(q, r))
  {
    assert (p.rows + q.rows) + r.rows == p.rows + (q.rows + r.rows);
  }

  lemma SweepNothing(db: Db, now: real, delays: Delays, p: Patch)
    ensures Then(p, SweepPatch(db, [], now, delays)) == p
  {
  }

  lemma NextName(names: seq<Name>, i: nat)
    requires i < |names| && Distinct(names)
    ensures names[i..] == [names[i]] + names[i + 1..] && names[i] !in names[i + 1..]
    ensures multiset(names[..i + 1]) == multiset(names[..i]) + multiset{names[i]}
  {
    assert names[..i + 1] == names[..i] + [names[i]];
  }

  lemma PatchKeys(db: Db, o: Outcome)
    requires o.task in db.rows
    ensures Apply(db, ReportPatch(db, o)).rows.Keys == db.rows.Keys
  {
    if o.ok || !Retries(db, o.task) {
      var mark := MarkPatch(db.rows, o.task, o.ok);
      hide ReportPatch;
      ResolveRowsKnown(Apply(db, mark), o.now);
    }
  }

  lemma ResolveRowsKnown(db: Db, now: real)
    ensures ResolvePatch(db, now).rows.Keys <= db.rows.Keys
  {
  }

  lemma SweepStep(db: Db, n: Name, rest: seq<Name>, now: real, delays: Delays)
    requires n in db.rows && forall k | k in rest :: k in db.rows
    ensures var p := ReportPatch(db, Outcome(n, false, now, delays(n)));
            && Apply(db, p).rows.Keys == db.rows.Keys
            && SweepPatch(db, [n] + rest, now, delays) == Then(p, SweepPatch(Apply(db, p), rest, now, delays))
  {
    PatchKeys(db, Outcome(n, false, now, delays(n)));
    hide ReportPatch;
    assert ([n] + rest)[1..] == rest;
  }

  lemma MarkKeepsOthers(view: Db, o: Outcome, k: Name)
    requires WellFormed(view) && o.task in view.rows && k in view.rows
    ensures WellFormed(Apply(view, MarkPatch(view.rows, o.task, o.ok)))
    ensures k in Apply(view, MarkPatch(view.rows, o.task, o.ok)).rows
    ensures SameRow(view.rows[k], Apply(view, MarkPatch(view.rows, o.task, o.ok)).rows[k])
  {
    SameWellFormed(view, Apply(view, MarkPatch(view.rows, o.task, o.ok)));
  }

  predicate SameRow(row: Row, row': Row) {
    row'.deps == row.deps && row'.maxRetries == row.maxRetries && row'.retryCount == row.retryCount
  }

  lemma ResolveKeepsOthers(view: Db, now: real, k: Name)
    requires WellFormed(view) && k in view.rows
    ensures k in Apply(view, ResolvePatch(view, now)).rows && SameRow(view.rows[k], Apply(view, ResolvePatch(view, now)).rows[k])
  {
    RunnableIsQuiet(view);
  }

  lemma ResolveKeepsKeys(view: Db, now: real)
    requires WellFormed(view)
    ensures Apply(view, ResolvePatch(view, now)).rows.Keys == view.rows.Keys && Apply(view, ResolvePatch(view, now)).names == view.names
  {
    RunnableIsQuiet(view);
  }

  lemma RequeueKeepsOthers(view: Db, o: Outcome)
    requires WellFormed(view) && o.task in view.rows
    ensures var after := Apply(view, RequeuePatch(view.rows, o.task, o.now, o.delay));
            && WellFormed(after) && after.rows.Keys == view.rows.Keys
            && forall n | n in view.rows && n != o.task :: after.rows[n].retryCount == view.rows[n].retryCount
  {
    SameWellFormed(view, Apply(view, RequeuePatch(view.rows, o.task, o.now, o.delay)));
  }

  /** A report leaves the retry counters of the other tasks alone. */
  lemma ReportKeepsOthers(view: Db, o: Outcome)
    requires WellFormed(view) && o.task in view.rows
    ensures WellFormed(Reported(view, o)) && Reported(view, o).rows.Keys == view.rows.Keys
    ensures forall n | n in view.rows && n != o.task :: Reported(view, o).rows[n].retryCount == view.rows[n].retryCount
  {
    if !o.ok && Retries(view, o.task) {
      RequeueKeepsOthers(view, o);
    } else {
      hide WellFormed, ResolvePatch, MarkPatch;
      var mark := MarkPatch(view.rows, o.task, o.ok);
      var marked := Apply(view, mark);
      ApplyThen(view, mark, ResolvePatch(marked, o.now));
      MarkKeepsOthers(view, o, o.task);
      MarkKeepsKeys(view, o);
      ResolveKeepsKeys(marked, o.now);
      forall n | n in view.rows ensures SameRow(view.rows[n], Reported(view, o).rows[n]) {
        MarkKeepsOthers(view, o, n);
        ResolveKeepsOthers(marked, o.now, n);
      }
      SameWellFormed(view, Reported(view, o));
    }
  }

  /** What a reported attempt makes of its row, and what it publishes for a retry: the row says that
      it is claimable, and the message is due, after one and the same backoff. */
  ghost predicate AttemptReported(view: Db, after: Db, o: Outcome, outbox: seq<Publication>, outbox': seq<Publication>) {
    && o.task in view.rows && o.task in after.rows
    && var row, row' := view.rows[o.task], after.rows[o.task];
       if o.ok then row' == row.(status := Success)
       else if view.run == RunCancelled || row.retryCount >= row.maxRetries then row' == row.(status := Failed)
       else
         && row' == row.(retryCount := row.retryCount + 1, status := Queued, workerId := None, dispatchedAt := Some(o.now + o.delay))
         && outbox' == outbox + [Publication(Message(o.task, row.retryCount + 1), o.delay, false)]
  }

  lemma ThenPublishes(p: Patch, q: Patch)
    ensures Then(p, q).outbox == p.outbox + q.outbox
  {
  }

  lemma ReportedTask(view: Db, o: Outcome, outbox: seq<Publication>)
    requires WellFormed(view) && o.task in view.rows
    ensures AttemptReported(view, Reported(view, o), o, outbox, outbox + ReportPatch(view, o).outbox)
  {
    if o.ok || !Retries(view, o.task) {
      var mark := MarkPatch(view.rows, o.task, o.ok);
      var marked := Apply(view, mark);
      MarkKeepsWellFormed(view, o.task, o.ok);
      hide WellFormed;
      assert marked.rows[o.task] == view.rows[o.task].(status := if o.ok then Success else Failed);
      ResolveLeaves(marked, o.now, o.task);
      hide ResolvePatch, MarkPatch;
      ApplyThen(view, mark, ResolvePatch(marked, o.now));
    }
  }

  /** The tick writes to pending tasks only. */
  lemma ResolveLeaves(view: Db, now: real, k: Name)
    requires WellFormed(view) && k in view.rows && view.rows[k].status != Pending
    ensures k in Apply(view, ResolvePatch(view, now)).rows && Apply(view, ResolvePatch(view, now)).rows[k] == view.rows[k]
  {
    RunnableIsQuiet(view);
  }

  /** A report leaves every other task alone that has started. */
  lemma ReportLeavesStarted(view: Db, o: Outcome, k: Name)
    requires WellFormed(view) && o.task in view.rows && k in view.rows && k != o.task && view.rows[k].status != Pending
    ensures WellFormed(Reported(view, o)) && Reported(view, o).rows.Keys == view.rows.Keys && Reported(view, o).rows[k] == view.rows[k]
  {
    ReportKeepsOthers(view, o);
    if o.ok || !Retries(view, o.task) {
      var mark := MarkPatch(view.rows, o.task, o.ok);
      var marked := Apply(view, mark);
      MarkKeepsWellFormed(view, o.task, o.ok);
      hide WellFormed;
      assert marked.rows[k] == view.rows[k];
      ResolveLeaves(marked, o.now, k);
      hide ResolvePatch, MarkPatch;
      ApplyThen(view, mark, ResolvePatch(marked, o.now));
    }
  }

  lemma {:induction false} SweepLeavesStarted(db: Db, names: seq<Name>, now: real, delays: Delays, k: Name)
    requires WellFormed(db) && (forall n | n in names :: n in db.rows)
    requires k in db.rows && k !in names && db.rows[k].status != Pending
    ensures WellFormed(Swept(db, names, now, delays)) && Swept(db, names, now, delays).rows.Keys == db.rows.Keys
    ensures Swept(db, names, now, delays).rows[k] == db.rows[k]
    decreases names
  {
    if names != [] {
      var o := Outcome(names[0], false, now, delays(names[0]));
      assert names == [names[0]] + names[1..];
      ReportLeavesStarted(db, o, k);
      hide Reported, WellFormed;
      SweepLeavesStarted(Reported(db, o), names[1..], now, delays, k);
    }
  }

  /** A sweep may be continued after each of its reports. */
  lemma SweepOneMore(committed: Db, p: Patch, n: Name, rest: seq<Name>, now: real, delays: Delays)
    requires WellFormed(Apply(committed, p)) && n in Apply(committed, p).rows && forall k | k in rest :: k in Apply(committed, p).rows
    ensures var view := Apply(committed, p);
            var next := Then(p, ReportPatch(view, Outcome(n, false, now, delays(n))));
            var after := Apply(committed, next);
            && WellFormed(after) && after.rows.Keys == view.rows.Keys
            && (forall k | k in view.rows && k != n :: after.rows[k].retryCount == view.rows[k].retryCount)
            && Then(next, SweepPatch(after, rest, now, delays)) == Then(p, SweepPatch(view, [n] + rest, now, delays))
  {
    hide SweepPatch, ReportPatch, WellFormed, Then, Apply;
    var view, o := Apply(committed, p), Outcome(n, false, now, delays(n));
    var report := ReportPatch(view, o);
    ApplyThen(committed, p, report);
    SweepStep(view, n, rest, now, delays);
    ThenAssociates(p, report, SweepPatch(Apply(committed, Then(p, report)), rest, now, delays));
    ReportKeepsOthers(view, o);
  }

  lemma MarkKeepsKeys(view: Db, o: Outcome)
    requires o.task in view.rows
    ensures Apply(view, MarkPatch(view.rows, o.task, o.ok)).rows.Keys == view.rows.Keys
  {
  }

  lemma MarkKeepsWellFormed(view: Db, n: Name, ok: bool)
    requires WellFormed(view) && n in view.rows
    ensures WellFormed(Apply(view, MarkPatch(view.rows, n, ok)))
  {
    SameWellFormed(view, Apply(view, MarkPatch(view.rows, n, ok)));
  }

  /** What `cancel_run` writes to the first tasks of the run. */
  function CancelledAmong(rows: Rows, names: seq<Name>): Rows {
    map n | n in names && n in rows && (rows[n].status == Pending || rows[n].status == Queued) :: rows[n].(status := Cancelled)
  }

  lemma CancelledNone(view: Db, before: Rows)
    ensures before + CancelledAmong(view.rows, view.names[..0]) == before
  {
  }

  lemma CancelledAll(view: Db)
    requires WellFormed(view)
    ensures CancelPatch(view.rows) == Patch(CancelledAmong(view.rows, view.names), Some(RunCancelled), [])
  {
  }

  lemma NamedRow(view: Db, i: nat)
    requires WellFormed(view) && i < |view.names|
    ensures view.names[i] in view.rows
  {
    assert view.names[i] in view.names;
  }

  lemma CancelledStep(rows: Rows, names: seq<Name>, i: nat, before: Rows)
    requires i < |names| && names[i] in rows
    ensures before + CancelledAmong(rows, names[..i + 1])
            == if rows[names[i]].status == Pending || rows[names[i]].status == Queued
               then (before + CancelledAmong(rows, names[..i]))[names[i] := rows[names[i]].(status := Cancelled)]
               else before + CancelledAmong(rows, names[..i])
  {
    assert names[..i + 1] == names[..i] + [names[i]];
  }

  // ----- a commit in the protocol's terms ----------------------------------------------------

  /** A commit that loses none of its publications. */
  function Committed(s: System, p: Patch, claimed: multiset<Message>, charged: multiset<Name>): System {
    var after := Commit(s, p);
    after.(log := after.log.(claims := after.log.claims + claimed, losses := after.log.losses + charged))
  }

  lemma ReportCommitted(s: System, o: Outcome)
    requires o.task in s.db.rows
    ensures Committed(s, ReportPatch(s.db, o), multiset{}, if o.ok then multiset{} else multiset{o.task}) == Finish(s, o)
  {
    hide ReportPatch;
  }

  /** `cancel_run` and its commit are the protocol's cancellation step. */
  lemma CancelCommitted(s: System)
    requires s.db.run == RunRunning
    ensures Enabled(s, CancelRun) && Committed(s, CancelPatch(s.db.rows), multiset{}, multiset{}) == Next(s, CancelRun)
  {
  }

  lemma CommittedThen(s: System, p: Patch, first: multiset<Name>, q: Patch, second: multiset<Name>)
    ensures Committed(Committed(s, p, multiset{}, first), q, multiset{}, second)
            == Committed(s, Then(p, q), multiset{}, first + second)
  {
    CommitThen(s, p, q);
    assert (s.log.losses + first) + second == s.log.losses + (first + second);
    assert (s.log.claims + multiset{}) + multiset{} == s.log.claims + multiset{};
  }

  lemma NothingCommitted(s: System)
    ensures Committed(s, NO_CHANGE, multiset{}, multiset{}) == s
  {
  }

  lemma CommittedView(db: Db)
    ensures Apply(db, NO_CHANGE) == db
  {
  }

  lemma PatchAlone(p: Patch)
    ensures Then(NO_CHANGE, p) == p
  {
  }

  // ----- publications that fail after the commit ---------------------------------------------

  /** The messages of an outbox that never reach the queue, as losses. */
  function Losses(outbox: seq<Publication>, lost: set<nat>): seq<Action> {
    if outbox == [] then []
    else
      var last := |outbox| - 1;
      Losses(outbox[..last], lost) + if last in lost && !outbox[last].deadLetter then [Lose(outbox[last].message)] else []
  }

  /** The queue once the first k publications have been dealt with, and the others have not failed. */
  function Flushing(base: multiset<Message>, outbox: seq<Publication>, lost: set<nat>, k: nat): multiset<Message>
    requires k <= |outbox|
  {
    base + Sent(Surviving(outbox[..k], lost)) + Sent(outbox[k..])
  }

  lemma FlushingStep(base: multiset<Message>, outbox: seq<Publication>, lost: set<nat>, k: nat)
    requires k < |outbox|
    ensures Flushing(base, outbox, lost, k + 1) ==
            if k in lost then Flushing(base, outbox, lost, k) - Sent([outbox[k]]) else Flushing(base, outbox, lost, k)
    ensures Sent([outbox[k]]) <= Flushing(base, outbox, lost, k)
  {
    hide Sent, Parked, Messages, Surviving;
    assert outbox[k..] == [outbox[k]] + outbox[k + 1..];
    SentConcat([outbox[k]], outbox[k + 1..]);
    SurvivingStep(outbox, k, lost);
    var before := Surviving(outbox[..k], lost);
    assert before + [] == before;
    SentConcat(before, [outbox[k]]);
  }

  lemma NoSteps(s: System)
    ensures Legal(s, []) && Exec(s, []) == s
  {
  }

  lemma LoseStep(s: System, m: Message)
    requires m in s.broker
    ensures Enabled(s, Lose(m)) && Next(s, Lose(m)) == s.(broker := s.broker - multiset{m})
  {
  }

  lemma LossesStep(outbox: seq<Publication>, k: nat, lost: set<nat>)
    requires k <= |outbox|
    ensures Losses(outbox[..k], lost) ==
            if k == 0 then []
            else Losses(outbox[..k - 1], lost)
                 + if k - 1 in lost && !outbox[k - 1].deadLetter then [Lose(outbox[k - 1].message)] else []
  {
    if k > 0 {
      assert outbox[..k][..k - 1] == outbox[..k - 1];
    }
  }

  lemma {:induction false} LossesFrom(s: System, base: multiset<Message>, outbox: seq<Publication>, lost: set<nat>, k: nat)
    requires k <= |outbox| && s.broker == Flushing(base, outbox, lost, 0)
    ensures Legal(s, Losses(outbox[..k], lost))
    ensures Exec(s, Losses(outbox[..k], lost)) == s.(broker := Flushing(base, outbox, lost, k))
  {
    hide Flushing, Sent, Surviving, Next, Enabled, Legal, Exec, Losses;
    LossesStep(outbox, k, lost);
    if k == 0 {
      NoSteps(s);
    } else {
      LossesFrom(s, base, outbox, lost, k - 1);
      FlushingStep(base, outbox, lost, k - 1);
      var p, acts := outbox[k - 1], Losses(outbox[..k - 1], lost);
      SingleMessage(p);
      if k - 1 in lost && !p.deadLetter {
        LoseStep(Exec(s, acts), p.message);
        ExecAppend(s, acts, Lose(p.message));
      } else {
        assert acts + [] == acts;
      }
    }
  }

  /** A commit whose publications partly fail is the protocol's commit followed by losses. */
  lemma FailedPublicationsAreLosses(s: System, p: Patch, lost: set<nat>)
    ensures var committed, losses := Commit(s, p), Losses(p.outbox, lost);
            Legal(committed, losses) && Exec(committed, losses) == committed.(broker := s.broker + Sent(Surviving(p.outbox, lost)))
  {
    hide Legal, Exec, Losses, Surviving;
    assert p.outbox[..|p.outbox|] == p.outbox && p.outbox[|p.outbox|..] == [] && p.outbox[0..] == p.outbox;
    FlushNothing(p.outbox, lost);
    LossesFrom(Commit(s, p), s.broker, p.outbox, lost, |p.outbox|);
  }
}
