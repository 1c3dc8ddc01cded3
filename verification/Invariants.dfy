/**
  What every committed database satisfies, and why each transaction of the Runtime keeps it.
 */
module Invariants {
  import opened Prelude
  import opened Matchers
  import opened Tables
  import opened Transactions

  // The Runs of a Session are numbered 1..current_run_id, the first by its first start; only the
  // current Run of a running Session can be running.
  ghost predicate Numbered(db: Db) {
    && (forall s | s in db.sessions ::
          db.sessions[s].current >= 0 && (db.sessions[s].status == SessionRunning ==> db.sessions[s].current >= 1))
    && (forall key | key in db.runs :: key.session in db.sessions && 1 <= key.id <= db.sessions[key.session].current)
    && (forall s, k | s in db.sessions && 1 <= k <= db.sessions[s].current :: RunKey(s, k) in db.runs)
    && (forall key | key in db.runs :: db.runs[key].cause == SessionStart <==> key.id == 1)
    && (forall key | key in db.runs && db.runs[key].status == Running ::
          key.id == db.sessions[key.session].current && db.sessions[key.session].status == SessionRunning)
  }

  // The columns a Run's status promises.
  ghost predicate RunShape(run: Run) {
    && run.modelCalls >= 0 && run.toolCalls >= 0
    && (run.triggers.Some? <==> run.cause == EventCause) && (run.retryAttempt > 0 <==> run.cause == ManualRetry)
    && match run.status
       case Running => run.summary.None? && run.output.None? && run.error.None? && run.ended.None?
       case Completed => run.summary.Some? && run.output.Some? && run.error.None? && run.ended.Some?
       case _ => run.summary.None? && run.output.None? && run.error.Some? && run.ended.Some?
  }

  ghost predicate Shaped(db: Db) {
    forall key | key in db.runs :: RunShape(db.runs[key])
  }

  // A retry is the last of an unbroken chain of failed Runs.
  ghost predicate RetryShape(db: Db, key: RunKey)
    requires key in db.runs
  {
    var run := db.runs[key];
    && 0 <= run.retryAttempt <= MAX_MANUAL_RETRIES
    && run.retryOf == (if run.retryAttempt == 0 then None else Some(key.id - run.retryAttempt))
    && forall j | key.id - run.retryAttempt <= j < key.id ::
         && RunKey(key.session, j) in db.runs
         && db.runs[RunKey(key.session, j)].status == Failed
         && db.runs[RunKey(key.session, j)].retryAttempt == run.retryAttempt - (key.id - j)
  }

  ghost predicate Retries(db: Db) {
    forall key | key in db.runs :: RetryShape(db, key)
  }

  ghost predicate Distinct(events: seq<EventRow>) {
    forall i, j | 0 <= i < j < |events| :: events[i].id != events[j].id
  }

  // Active Events are distinct and belong to running Sessions.
  ghost predicate EventTable(db: Db) {
    && Distinct(db.events)
    && (forall e | e in db.events :: SessionIs(db, e.owner, SessionRunning) && RunKey(e.owner, e.createdRun) in db.runs)
  }

  ghost predicate LogShape(db: Db, row: LogRow) {
    && RunKey(row.event.owner, row.event.createdRun) in db.runs
    && (row.outcomeRun.Some? ==> RunKey(row.event.owner, row.outcomeRun.value) in db.runs)
    && (row.outcome == Fired ==>
          && row.detail.Some? && row.at < row.event.expiresAt
          && (row.event.kind.Timer? ==> row.event.kind.due <= row.at))
    && (row.outcome == Expired ==> row.at >= row.event.expiresAt)
  }

  // Every Event leaves the active table at most once, with the timing its outcome promises.
  ghost predicate LogTable(db: Db) {
    && (forall i, j | 0 <= i < j < |db.log| :: db.log[i].event.id != db.log[j].event.id)
    && (forall row, e | row in db.log && e in db.events :: row.event.id != e.id)
    && (forall row | row in db.log :: LogShape(db, row))
  }

  ghost predicate QueueTable(db: Db) {
    && Increasing(db.pending)
    && (forall r | r in db.pending :: r.id < db.nextPending && SessionIs(db, r.session, SessionRunning))
  }

  // No trigger is lost, duplicated or reordered on its way through the queue.
  ghost predicate Conserved(db: Db) {
    && db.arrived.Keys == db.sessions.Keys == db.taken.Keys
    && (forall s | s in db.sessions :: db.arrived[s] == Flatten(db.taken[s]) + Queue(db, s))
  }

  // The batches taken by Runs are the triggers stored with those Runs, oldest Run first.
  ghost predicate BatchesStored(db: Db) {
    && (forall s, i | s in db.taken && 0 <= i < |db.taken[s]| && db.taken[s][i].TakenBy? ::
          var b := db.taken[s][i];
          && RunKey(s, b.run) in db.runs && db.runs[RunKey(s, b.run)].triggers == Some(b.triggers)
          && 1 <= |b.triggers| <= MAX_TRIGGERS_PER_RUN)
    && (forall s, i, j | s in db.taken && 0 <= i < j < |db.taken[s]| && db.taken[s][i].TakenBy? && db.taken[s][j].TakenBy? ::
          db.taken[s][i].run < db.taken[s][j].run)
    && (forall key | key in db.runs && db.runs[key].triggers.Some? ::
          key.session in db.taken && TakenBy(key.id, db.runs[key].triggers.value) in db.taken[key.session])
  }

  // Each fired row of the log produced exactly one trigger, in log order.
  ghost predicate Accounted(db: Db) {
    forall s | s in db.arrived :: EventTriggers(db.arrived[s]) == FiredTriggers(db.log, s)
  }

  ghost predicate Written(db: Db) {
    && (forall s | s in db.conversations :: s in db.sessions && 1 <= db.conversations[s].run <= db.sessions[s].current)
    && (forall m | m in db.memories :: m.memory > 0 && RunKey(m.session, m.run) in db.runs)
  }

  ghost predicate DbInv(db: Db) {
    && Numbered(db) && Shaped(db) && Retries(db)
    && EventTable(db) && LogTable(db) && QueueTable(db)
    && Conserved(db) && BatchesStored(db) && Accounted(db) && Written(db)
  }

  lemma EmptyDbInv()
    ensures DbInv(EMPTY_DB)
  {
  }

  // ---------------------------------------------------------------------------------------------
  // Frames: what a predicate needs from the tables it does not own
  // ---------------------------------------------------------------------------------------------

  // Runs and Sessions only grow, and no Session leaves the running state.
  ghost predicate Grows(db: Db, db': Db) {
    && db.runs.Keys <= db'.runs.Keys
    && (forall s | SessionIs(db, s, SessionRunning) :: SessionIs(db', s, SessionRunning))
  }

  lemma FrameEvents(db: Db, db': Db)
    requires EventTable(db) && LogTable(db) && Grows(db, db')
    requires db'.events == db.events && db'.log == db.log
    ensures EventTable(db') && LogTable(db')
  {
    assert forall key | key in db.runs :: key in db'.runs;
    forall row | row in db'.log ensures LogShape(db', row) {
      assert LogShape(db, row);
    }
  }

  lemma FrameQueue(db: Db, db': Db)
    requires QueueTable(db) && Grows(db, db')
    requires db'.pending == db.pending && db'.nextPending == db.nextPending
    ensures QueueTable(db')
  {
  }

  lemma FrameConserved(db: Db, db': Db)
    requires Conserved(db) && Accounted(db)
    requires db'.sessions.Keys == db.sessions.Keys && db'.pending == db.pending && db'.log == db.log
    requires db'.arrived == db.arrived && db'.taken == db.taken
    ensures Conserved(db') && Accounted(db')
  {
    forall s | s in db'.sessions ensures db'.arrived[s] == Flatten(db'.taken[s]) + Queue(db', s) {
      assert s in db.sessions;
    }
  }

  lemma FrameWritten(db: Db, db': Db)
    requires Written(db) && Grows(db, db')
    requires forall s | s in db.sessions :: s in db'.sessions && db.sessions[s].current <= db'.sessions[s].current
    requires db'.conversations == db.conversations && db'.memories == db.memories
    ensures Written(db')
  {
  }

  lemma FrameBatches(db: Db, db': Db)
    requires BatchesStored(db) && db'.taken == db.taken
    requires forall key | key in db.runs :: key in db'.runs && db'.runs[key].triggers == db.runs[key].triggers
    requires forall key | key in db'.runs && key !in db.runs :: db'.runs[key].triggers.None?
    ensures BatchesStored(db')
  {
  }

  // ---------------------------------------------------------------------------------------------
  // Sessions and Runs
  // ---------------------------------------------------------------------------------------------

  lemma RowsOfNone(pending: seq<PendingRow>, s: SessionId)
    requires forall r | r in pending :: r.session != s
    ensures RowsOf(pending, s) == []
  {
    RowsOfMembers(pending, s);
    assert RowsOf(pending, s) != [] ==> RowsOf(pending, s)[0] in RowsOf(pending, s);
  }

  function AddSession(db: Db, s: SessionId): Db {
    db.(sessions := db.sessions[s := Session(SessionStopped, 0, None)], arrived := db.arrived[s := []], taken := db.taken[s := []])
  }

  lemma FiredNone(log: seq<LogRow>, s: SessionId)
    requires forall row | row in log :: row.event.owner != s
    ensures FiredTriggers(log, s) == []
  {
    if log != [] {
      assert log[|log| - 1] in log;
      FiredNone(log[..|log| - 1], s);
    }
  }

  // Nothing in the tables refers to a Session that does not exist.
  lemma NoRowsOf(db: Db, s: SessionId)
    requires DbInv(db) && s !in db.sessions
    ensures Queue(db, s) == [] && FiredTriggers(db.log, s) == [] && s !in db.taken
  {
    RowsOfNone(db.pending, s) by {
      assert forall r | r in db.pending :: SessionIs(db, r.session, SessionRunning);
    }
    FiredNone(db.log, s) by {
      assert forall row | row in db.log :: LogShape(db, row);
    }
  }

  lemma AddSessionInv(db: Db, s: SessionId)
    requires DbInv(db) && s !in db.sessions
    ensures DbInv(AddSession(db, s))
  {
    hide Numbered, Shaped, Retries, EventTable, LogTable, QueueTable, Conserved, BatchesStored, Accounted, Written;
    var db' := AddSession(db, s);
    NoRowsOf(db, s);
    FrameEvents(db, db');
    FrameQueue(db, db');
    FrameWritten(db, db');
    AddSessionRuns(db, s);
    AddSessionConserved(db, s);
  }

  lemma AddSessionNumbered(db: Db, s: SessionId)
    requires Numbered(db) && s !in db.sessions
    ensures Numbered(AddSession(db, s))
  {
    var db' := AddSession(db, s);
    forall x, k | x in db'.sessions && 1 <= k <= db'.sessions[x].current ensures RunKey(x, k) in db'.runs {
      assert x in db.sessions;
    }
  }

  lemma AddSessionBatches(db: Db, s: SessionId)
    requires BatchesStored(db) && s !in db.taken
    ensures BatchesStored(AddSession(db, s))
  {
  }

  lemma AddSessionRuns(db: Db, s: SessionId)
    requires Numbered(db) && Shaped(db) && Retries(db) && BatchesStored(db) && s !in db.sessions && s !in db.taken
    ensures var db' := AddSession(db, s); Numbered(db') && Shaped(db') && Retries(db') && BatchesStored(db')
  {
    hide Numbered, BatchesStored, RunShape;
    var db' := AddSession(db, s);
    AddSessionNumbered(db, s);
    AddSessionBatches(db, s);
    forall key | key in db'.runs ensures RetryShape(db', key) {
      assert RetryShape(db, key);
    }
  }

  lemma AddSessionConserved(db: Db, s: SessionId)
    requires Conserved(db) && Accounted(db) && s !in db.sessions
    requires Queue(db, s) == [] && FiredTriggers(db.log, s) == []
    ensures Conserved(AddSession(db, s)) && Accounted(AddSession(db, s))
  {
    hide Queue, EventTriggers, FiredTriggers;
    SamePending(db, AddSession(db, s), s);
    var db' := AddSession(db, s);
    forall x | x in db'.sessions ensures db'.arrived[x] == Flatten(db'.taken[x]) + Queue(db', x) {
      SamePending(db, db', x);
      if x != s {
        assert x in db.sessions;
      }
    }
    assert EventTriggers([]) == [] by { NoEventTriggers(); }
  }

  lemma NoEventTriggers()
    ensures EventTriggers([]) == []
  {
  }

  // The Session has no running Run.
  ghost predicate Idle(db: Db, s: SessionId) {
    forall k :: !IsRunning(db, s, k)
  }

  // A Run inserted with the next number, after its retry chain if it is a retry.
  ghost predicate Insertable(db: Db, s: SessionId, run: Run) {
    && s in db.sessions && Idle(db, s)
    && RunShape(run) && run.status == Running && (run.cause == SessionStart <==> db.sessions[s].current == 0)
    && (if run.retryAttempt == 0 then run.retryOf == None else
          var k := db.sessions[s].current;
          && RunKey(s, k) in db.runs && db.runs[RunKey(s, k)].status == Failed
          && run.retryAttempt == db.runs[RunKey(s, k)].retryAttempt + 1 <= MAX_MANUAL_RETRIES
          && run.retryOf == Some(if db.runs[RunKey(s, k)].retryOf.Some? then db.runs[RunKey(s, k)].retryOf.value else k))
  }

  lemma InsertRunNumbered(db: Db, s: SessionId, run: Run)
    requires Numbered(db) && Insertable(db, s, run)
    ensures Numbered(InsertRun(db, s, run))
    ensures RunKey(s, db.sessions[s].current + 1) !in db.runs
  {
    hide RunShape;
    var db' := InsertRun(db, s, run);
    var k := db.sessions[s].current + 1;
    forall key | key in db'.runs && db'.runs[key].status == Running
      ensures key.id == db'.sessions[key.session].current && db'.sessions[key.session].status == SessionRunning
    {
      if key != RunKey(s, k) {
        assert !IsRunning(db, s, key.id);
      }
    }
  }

  lemma InsertRunRetries(db: Db, s: SessionId, run: Run)
    requires Retries(db) && Insertable(db, s, run)
    requires RunKey(s, db.sessions[s].current + 1) !in db.runs
    ensures Retries(InsertRun(db, s, run))
  {
    hide RunShape, Idle;
    var db' := InsertRun(db, s, run);
    var k := db.sessions[s].current;
    forall key | key in db'.runs ensures RetryShape(db', key) {
      if key != RunKey(s, k + 1) {
        assert RetryShape(db, key);
      } else if run.retryAttempt > 0 {
        assert RetryShape(db, RunKey(s, k));
      }
    }
  }

  /** A Run inserted without triggers: start, restart, retry and recovery. */
  lemma InsertRunInv(db: Db, s: SessionId, run: Run)
    requires DbInv(db) && Insertable(db, s, run) && run.triggers.None?
    ensures DbInv(InsertRun(db, s, run))
  {
    hide Numbered, Retries, EventTable, LogTable, QueueTable, Conserved, BatchesStored, Accounted, Written, RunShape, Idle;
    var db' := InsertRun(db, s, run);
    InsertRunNumbered(db, s, run);
    InsertRunRetries(db, s, run);
    FrameEvents(db, db');
    FrameQueue(db, db');
    FrameConserved(db, db');
    FrameWritten(db, db');
    FrameBatches(db, db');
  }

  // ---------------------------------------------------------------------------------------------
  // The queue
  // ---------------------------------------------------------------------------------------------

  lemma DequeueQueue(db: Db, s: SessionId, n: nat, batch: Batch)
    requires QueueTable(db) && n <= |RowsOf(db.pending, s)|
    ensures QueueTable(Dequeue(db, s, n, batch))
  {
    DeleteIncreasing(db.pending, FirstIds(db.pending, s, n));
    DeleteMembers(db.pending, FirstIds(db.pending, s, n));
  }

  lemma DequeueRows(db: Db, s: SessionId, n: nat, batch: Batch, x: SessionId)
    requires QueueTable(db) && n <= |RowsOf(db.pending, s)|
    ensures Queue(Dequeue(db, s, n, batch), x) == if x == s then Queue(db, s)[n..] else Queue(db, x)
  {
    TakeFirst(db.pending, s, n, x);
    assert Payloads(RowsOf(db.pending, s)[n..]) == Queue(db, s)[n..];
  }

  ghost predicate Balanced(db: Db, s: SessionId) {
    ArrivedOf(db, s) == Flatten(TakenOf(db, s)) + Queue(db, s)
  }

  lemma DequeueBalanced(db: Db, s: SessionId, n: nat, batch: Batch, x: SessionId)
    requires QueueTable(db) && Balanced(db, x)
    requires n <= |RowsOf(db.pending, s)| && batch.triggers == Queue(db, s)[..n]
    ensures Balanced(Dequeue(db, s, n, batch), x)
  {
    hide QueueTable, RowsOf, DeleteIds, FirstIds;
    DequeueRows(db, s, n, batch, x);
    if x == s {
      var q := Queue(db, s);
      var taken := TakenOf(db, s);
      FlattenAppend(taken, batch);
      calc {
        ArrivedOf(db, s);
        Flatten(taken) + q;
        { assert q == q[..n] + q[n..]; }
        Flatten(taken) + (q[..n] + q[n..]);
        (Flatten(taken) + q[..n]) + q[n..];
      }
    }
  }

  lemma DequeueConserved(db: Db, s: SessionId, n: nat, batch: Batch)
    requires QueueTable(db) && Conserved(db) && s in db.sessions
    requires n <= |RowsOf(db.pending, s)| && batch.triggers == Queue(db, s)[..n]
    ensures Conserved(Dequeue(db, s, n, batch))
  {
    hide QueueTable, Queue, RowsOf, DeleteIds, FirstIds, Flatten;
    var db' := Dequeue(db, s, n, batch);
    forall x | x in db'.sessions ensures db'.arrived[x] == Flatten(db'.taken[x]) + Queue(db', x) {
      DequeueBalanced(db, s, n, batch, x);
    }
  }

  lemma TakenEarlier(db: Db, s: SessionId)
    requires BatchesStored(db) && Numbered(db) && s in db.taken && s in db.sessions
    ensures forall i | 0 <= i < |db.taken[s]| && db.taken[s][i].TakenBy? :: db.taken[s][i].run <= db.sessions[s].current
  {
    forall i | 0 <= i < |db.taken[s]| && db.taken[s][i].TakenBy? ensures db.taken[s][i].run <= db.sessions[s].current {
      assert RunKey(s, db.taken[s][i].run) in db.runs;
    }
  }

  lemma StartPendingBatches(db: Db, s: SessionId, now: Time)
    requires BatchesStored(db) && Numbered(db) && HasPending(db, s) && s in db.taken
    requires RunKey(s, db.sessions[s].current + 1) !in db.runs
    ensures BatchesStored(StartPending(db, s, now))
  {
    hide RowsOf, Queue, DeleteIds, FirstIds, Numbered;
    var db' := StartPending(db, s, now);
    var k := db.sessions[s].current + 1;
    var b := NextBatch(db, s);
    assert db'.taken == db.taken[s := db.taken[s] + [TakenBy(k, b)]];
    assert db'.runs == db.runs[RunKey(s, k) := NewRun(EventCause, Some(b), now, None, 0)];
    TakenEarlier(db, s);
    forall key | key in db'.runs && db'.runs[key].triggers.Some?
      ensures key.session in db'.taken && TakenBy(key.id, db'.runs[key].triggers.value) in db'.taken[key.session]
    {
      if key == RunKey(s, k) {
        assert db'.taken[s][|db.taken[s]|] == TakenBy(k, b);
      }
    }
  }

  // Sessions and Runs after startPendingRunTx are those after the INSERT.
  lemma StartPendingRuns(db: Db, s: SessionId, now: Time)
    requires HasPending(db, s) && Numbered(db) && Shaped(db) && Retries(db) && Idle(db, s)
    ensures var db' := StartPending(db, s, now); Numbered(db') && Shaped(db') && Retries(db')
    ensures RunKey(s, db.sessions[s].current + 1) !in db.runs
  {
    assert db.sessions[s].current >= 1;
    hide RowsOf, Queue, DeleteIds, FirstIds, Numbered, Idle;
    var run := NewRun(EventCause, Some(NextBatch(db, s)), now, None, 0);
    InsertRunNumbered(db, s, run);
    InsertRunRetries(db, s, run);
    SameRuns(InsertRun(db, s, run), StartPending(db, s, now));
  }

  lemma SameRuns(db: Db, db': Db)
    requires Numbered(db) && Retries(db)
    requires db'.sessions == db.sessions && db'.runs == db.runs
    ensures Numbered(db') && Retries(db')
  {
    forall key | key in db'.runs ensures RetryShape(db', key) {
      assert RetryShape(db, key);
    }
  }

  lemma CurrentPositive(db: Db, s: SessionId)
    requires DbInv(db) && SessionIs(db, s, SessionRunning)
    ensures db.sessions[s].current >= 1
  {
    hide Shaped, Retries, EventTable, LogTable, QueueTable, Conserved, BatchesStored, Accounted, Written;
  }

  lemma SessionLogged(db: Db, s: SessionId)
    requires DbInv(db) && s in db.sessions
    ensures s in db.arrived && s in db.taken
  {
    hide Numbered, Shaped, Retries, EventTable, LogTable, QueueTable, BatchesStored, Accounted, Written;
  }

  // The queue after startPendingRunTx: the batch has moved to the Run.
  lemma StartPendingQueue(db: Db, s: SessionId, now: Time)
    requires HasPending(db, s) && QueueTable(db) && Conserved(db) && Accounted(db)
    ensures var db' := StartPending(db, s, now); QueueTable(db') && Conserved(db')
  {
    hide QueueTable, Conserved, Accounted, RowsOf, DeleteIds, FirstIds;
    var batch := NextBatch(db, s);
    var mid := InsertRun(db, s, NewRun(EventCause, Some(batch), now, None, 0));
    FrameQueue(db, mid);
    FrameConserved(db, mid);
    assert Queue(mid, s) == Queue(db, s) by { SamePending(db, mid, s); }
    DequeueQueue(mid, s, |batch|, TakenBy(db.sessions[s].current + 1, batch));
    DequeueConserved(mid, s, |batch|, TakenBy(db.sessions[s].current + 1, batch));
  }

  // The tables startPendingRunTx does not touch.
  lemma StartPendingFrame(db: Db, s: SessionId, now: Time)
    requires HasPending(db, s) && EventTable(db) && LogTable(db) && Accounted(db) && Written(db)
    ensures var db' := StartPending(db, s, now); EventTable(db') && LogTable(db') && Accounted(db') && Written(db')
  {
    hide EventTable, LogTable, Accounted, Written, RowsOf, Queue, DeleteIds, FirstIds;
    var db' := StartPending(db, s, now);
    FrameEvents(db, db');
    FrameWritten(db, db');
    FrameAccounted(db, db');
  }

  /** The next batch of an idle running Session becomes a Run. */
  lemma StartPendingInv(db: Db, s: SessionId, now: Time)
    requires DbInv(db) && HasPending(db, s) && Idle(db, s)
    ensures DbInv(StartPending(db, s, now))
  {
    hide Numbered, Shaped, Retries, EventTable, LogTable, QueueTable, BatchesStored, Accounted, Written, Idle, Conserved;
    hide StartPending, Queue;
    SessionLogged(db, s);
    StartPendingRuns(db, s, now);
    StartPendingBatches(db, s, now);
    StartPendingQueue(db, s, now);
    StartPendingFrame(db, s, now);
  }

  lemma SamePending(db: Db, db': Db, s: SessionId)
    requires db'.pending == db.pending
    ensures Queue(db', s) == Queue(db, s)
  {
  }

  lemma FrameAccounted(db: Db, db': Db)
    requires Accounted(db) && db'.arrived == db.arrived && db'.log == db.log
    ensures Accounted(db')
  {
  }

  // ---------------------------------------------------------------------------------------------
  // Writes to a running Run
  // ---------------------------------------------------------------------------------------------

  function PutRun(db: Db, key: RunKey, run: Run): Db {
    db.(runs := db.runs[key := run])
  }

  // A write to a running Run keeps how it started; it may end it.
  ghost predicate Rewrites(db: Db, key: RunKey, run: Run) {
    && key in db.runs && db.runs[key].status == Running && RunShape(run)
    && run.cause == db.runs[key].cause && run.triggers == db.runs[key].triggers
    && run.retryOf == db.runs[key].retryOf && run.retryAttempt == db.runs[key].retryAttempt
  }

  lemma PutRunRuns(db: Db, key: RunKey, run: Run)
    requires Numbered(db) && Retries(db) && Rewrites(db, key, run)
    ensures Numbered(PutRun(db, key, run)) && Retries(PutRun(db, key, run))
  {
    hide RunShape;
    var db' := PutRun(db, key, run);
    forall x | x in db'.runs ensures RetryShape(db', x) {
      assert RetryShape(db, x);
    }
  }

  /** A Run that is still running may be rewritten or ended. */
  lemma PutRunInv(db: Db, key: RunKey, run: Run)
    requires DbInv(db) && Rewrites(db, key, run)
    ensures DbInv(PutRun(db, key, run))
  {
    hide Numbered, Retries, EventTable, LogTable, QueueTable, Conserved, BatchesStored, Accounted, Written, RunShape;
    var db' := PutRun(db, key, run);
    PutRunRuns(db, key, run);
    FrameEvents(db, db');
    FrameQueue(db, db');
    FrameConserved(db, db');
    FrameWritten(db, db');
    FrameBatches(db, db');
  }

  lemma EndedShape(run: Run, e: Ending, now: Time)
    requires RunShape(run) && ValidEnding(e)
    ensures RunShape(run.(status := e.status, summary := e.summary, output := e.output, error := e.error, ended := Some(now)))
  {
  }

  lemma ShapeOf(db: Db, key: RunKey)
    requires DbInv(db) && key in db.runs
    ensures RunShape(db.runs[key])
  {
    hide Numbered, Retries, EventTable, LogTable, QueueTable, Conserved, BatchesStored, Accounted, Written, RunShape;
  }

  lemma EndRunInv(db: Db, key: RunKey, e: Ending, now: Time)
    requires DbInv(db) && key in db.runs && db.runs[key].status == Running && ValidEnding(e)
    ensures DbInv(EndRun(db, key, e, now))
  {
    hide DbInv, RunShape, ValidEnding;
    var run := db.runs[key].(status := e.status, summary := e.summary, output := e.output,
                             error := e.error, ended := Some(now));
    ShapeOf(db, key);
    EndedShape(db.runs[key], e, now);
    PutRunInv(db, key, run);
  }

  // ---------------------------------------------------------------------------------------------
  // Events
  // ---------------------------------------------------------------------------------------------

  lemma DeleteDistinct(events: seq<EventRow>, id: EventId)
    requires Distinct(events)
    ensures Distinct(DeleteEvent(events, id))
  {
    if events != [] {
      var n := |events| - 1;
      DeleteDistinct(events[..n], id);
      var d := DeleteEvent(events[..n], id);
      assert forall i | 0 <= i < |d| :: d[i] in d;
    }
  }

  // The row that leaves the active table, and what the log will say about it.
  ghost predicate Removable(db: Db, row: LogRow) {
    row.event in db.events && LogShape(db, row)
  }

  function Logged(db: Db, row: LogRow): Db {
    RemoveRecord(db, row.event, row.outcome, row.outcomeRun, row.detail, row.at)
  }

  lemma LoggedEvents(db: Db, row: LogRow)
    requires EventTable(db) && LogTable(db) && Removable(db, row)
    ensures EventTable(Logged(db, row)) && LogTable(Logged(db, row))
  {
    var db' := Logged(db, row);
    DeleteDistinct(db.events, row.event.id);
    hide Distinct, LogShape;
    forall x | x in db'.log ensures LogShape(db', x) {
      assert LogShape(db, x) by { assert x in db.log || x == row; }
      SameLogShape(db, db', x);
    }
    forall x, e | x in db'.log && e in db'.events ensures x.event.id != e.id {
      assert x in db.log || x == row;
    }
    forall i, j | 0 <= i < j < |db'.log| ensures db'.log[i].event.id != db'.log[j].event.id {
      assert db'.log[i] in db.log;
    }
  }

  lemma SameLogShape(db: Db, db': Db, row: LogRow)
    requires LogShape(db, row) && db'.runs == db.runs
    ensures LogShape(db', row)
  {
  }

  // Who owns an active Event.
  lemma OwnerOf(db: Db, e: EventRow)
    requires DbInv(db) && e in db.events
    ensures SessionIs(db, e.owner, SessionRunning) && e.owner in db.arrived && e.owner in db.taken
    ensures RunKey(e.owner, e.createdRun) in db.runs
  {
    hide Numbered, Shaped, Retries, LogTable, QueueTable, BatchesStored, Accounted, Written;
  }

  lemma LoggedAccounted(db: Db, row: LogRow)
    requires Accounted(db) && row.outcome != Fired
    ensures Accounted(Logged(db, row))
  {
    forall s | s in db.arrived ensures EventTriggers(db.arrived[s]) == FiredTriggers(Logged(db, row).log, s) {
      FiredAppend(db.log, row, s);
    }
  }

  // Statements that leave Sessions and Runs alone.
  lemma FrameRuns(db: Db, db': Db)
    requires Numbered(db) && Shaped(db) && Retries(db) && BatchesStored(db)
    requires db'.sessions == db.sessions && db'.runs == db.runs && db'.taken == db.taken
    ensures Numbered(db') && Shaped(db') && Retries(db') && BatchesStored(db')
  {
    hide BatchesStored, Numbered, Retries;
    SameRuns(db, db');
    FrameBatches(db, db');
  }

  lemma FrameBalance(db: Db, db': Db)
    requires Conserved(db) && db'.sessions == db.sessions
    requires db'.pending == db.pending && db'.arrived == db.arrived && db'.taken == db.taken
    ensures Conserved(db')
  {
    forall s | s in db'.sessions ensures db'.arrived[s] == Flatten(db'.taken[s]) + Queue(db', s) {
      assert s in db.sessions;
    }
  }

  /** An active Event that expires, is deleted or is cleared. */
  lemma LoggedInv(db: Db, row: LogRow)
    requires DbInv(db) && Removable(db, row) && row.outcome != Fired
    ensures DbInv(Logged(db, row))
  {
    hide Numbered, Shaped, Retries, EventTable, LogTable, QueueTable, Conserved, BatchesStored, Accounted, Written, LogShape;
    var db' := Logged(db, row);
    LoggedEvents(db, row);
    LoggedAccounted(db, row);
    FrameRuns(db, db');
    FrameQueue(db, db');
    FrameBalance(db, db');
    FrameWritten(db, db');
  }

  lemma EnqueueQueue(db: Db, s: SessionId, t: Trigger)
    requires QueueTable(db) && SessionIs(db, s, SessionRunning)
    ensures QueueTable(Enqueue(db, s, t))
  {
    var db' := Enqueue(db, s, t);
    forall i, j | 0 <= i < j < |db'.pending| ensures db'.pending[i].id < db'.pending[j].id {
      assert db'.pending[i] in db.pending;
    }
  }

  lemma EnqueueRows(db: Db, s: SessionId, t: Trigger, x: SessionId)
    ensures Queue(Enqueue(db, s, t), x) == Queue(db, x) + if x == s then [t] else []
  {
    RowsOfAppend(db.pending, PendingRow(db.nextPending, s, t), x);
  }

  lemma EnqueueConserved(db: Db, s: SessionId, t: Trigger)
    requires Conserved(db) && s in db.sessions
    ensures Conserved(Enqueue(db, s, t))
  {
    hide Queue, Flatten;
    var db' := Enqueue(db, s, t);
    forall x | x in db'.sessions ensures db'.arrived[x] == Flatten(db'.taken[x]) + Queue(db', x) {
      EnqueueRows(db, s, t, x);
      assert db.arrived[x] == Flatten(db.taken[x]) + Queue(db, x);
    }
  }

  // The tables a queue insert does not own.
  lemma EnqueueFrame(db: Db, s: SessionId, t: Trigger)
    requires Numbered(db) && Shaped(db) && Retries(db) && BatchesStored(db) && EventTable(db) && LogTable(db) && Written(db)
    ensures var db' := Enqueue(db, s, t);
      Numbered(db') && Shaped(db') && Retries(db') && BatchesStored(db') && EventTable(db') && LogTable(db') && Written(db')
  {
    hide Numbered, Shaped, Retries, BatchesStored, EventTable, LogTable, Written;
    var db' := Enqueue(db, s, t);
    FrameRuns(db, db');
    FrameEvents(db, db');
    FrameWritten(db, db');
  }

  /** A chat wake-up joins the queue of a running Session. */
  lemma EnqueueInv(db: Db, s: SessionId, t: Trigger)
    requires DbInv(db) && SessionIs(db, s, SessionRunning) && t.ChatMention?
    ensures DbInv(Enqueue(db, s, t))
  {
    assert s in db.arrived;
    hide Numbered, Shaped, Retries, EventTable, LogTable, QueueTable, Conserved, BatchesStored, Written;
    EnqueueFrame(db, s, t);
    EnqueueQueue(db, s, t);
    EnqueueConserved(db, s, t);
    EventTriggersAppend(db.arrived[s], t);
  }

  lemma FireAccounted(db: Db, row: LogRow)
    requires Accounted(db) && row.outcome == Fired && row.detail.Some? && row.event.owner in db.arrived
    ensures Accounted(Enqueue(Logged(db, row), row.event.owner, FiredTrigger(row)))
  {
    hide EventTriggers, FiredTriggers;
    var s := row.event.owner;
    var db' := Enqueue(Logged(db, row), s, FiredTrigger(row));
    forall x | x in db'.arrived ensures EventTriggers(db'.arrived[x]) == FiredTriggers(db'.log, x) {
      FiredAppend(db.log, row, x);
      if x == s {
        EventTriggersAppend(db.arrived[s], FiredTrigger(row));
      }
    }
  }

  /** An Event that fires leaves the active table and joins the queue in one step. */
  lemma FireInv(db: Db, row: EventRow, facts: Match, now: Time)
    requires DbInv(db) && row in db.events && now < row.expiresAt && (row.kind.Timer? ==> row.kind.due <= now)
    ensures DbInv(FireEvent(db, row, facts, now))
  {
    hide Numbered, Shaped, Retries, EventTable, LogTable, QueueTable, Conserved, BatchesStored, Accounted, Written;
    var logged := LogRow(row, Fired, None, Some(facts), now);
    var mid := Logged(db, logged);
    OwnerOf(db, row);
    assert LogShape(db, logged);
    hide LogShape;
    LoggedEvents(db, logged);
    FrameRuns(db, mid);
    FrameQueue(db, mid);
    FrameBalance(db, mid);
    FrameWritten(db, mid);
    EnqueueFrame(mid, row.owner, FiredTrigger(logged));
    EnqueueQueue(mid, row.owner, FiredTrigger(logged));
    EnqueueConserved(mid, row.owner, FiredTrigger(logged));
    FireAccounted(db, logged);
  }
}
