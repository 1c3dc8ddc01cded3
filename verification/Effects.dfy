/**
  What each committed action writes, row by row, in terms of its arguments: the partner of the invariants,
  which say what no action may write.
 */
module Effects {
  import opened Prelude
  import opened Matchers
  import opened Tables
  import opened Transactions
  import opened History
  import opened Invariants
  import opened Preservation
  import opened World
  import opened Safety
  import opened Restarts

  // Every table but that of the Runs, and every other Run, is as it was.
  ghost predicate OnlyRun(db: Db, db': Db, key: RunKey) {
    && db'.sessions == db.sessions && db'.events == db.events && db'.pending == db.pending && db'.log == db.log
    && db'.conversations == db.conversations && db'.memories == db.memories
    && db'.runs.Keys == db.runs.Keys && forall x | x in db.runs && x != key :: db'.runs[x] == db.runs[x]
  }

  /** A progress write sets the counters and the trace of the Run, and nothing else. */
  lemma ProgressWritten(w: World, s: SessionId, k: RunId, modelCalls: nat, toolCalls: nat, progress: seq<string>)
    requires IsRunning(w.db, s, k)
    ensures var w' := Step(w, Progress(s, k, modelCalls, toolCalls, progress));
      && OnlyRun(w.db, w'.db, RunKey(s, k)) && w'.files == w.files && w'.active == w.active
      && var run, run' := w.db.runs[RunKey(s, k)], w'.db.runs[RunKey(s, k)];
         && run'.modelCalls == modelCalls && run'.toolCalls == toolCalls && run'.progress == progress
         && run'.(modelCalls := run.modelCalls, toolCalls := run.toolCalls, progress := run.progress) == run
  {
  }

  /** The initial context is written once. */
  lemma ContextWritten(w: World, s: SessionId, k: RunId, context: string)
    requires IsRunning(w.db, s, k)
    ensures var w' := Step(w, InitialContext(s, k, context));
      && OnlyRun(w.db, w'.db, RunKey(s, k))
      && var run, run' := w.db.runs[RunKey(s, k)], w'.db.runs[RunKey(s, k)];
         && run'.initialContext == Some(if run.initialContext.Some? then run.initialContext.value else context)
         && run'.(initialContext := run.initialContext) == run
  {
  }

  /** The conversation of the Session becomes the one given, under the Run that saved it. */
  lemma ConversationWritten(w: World, s: SessionId, k: RunId, messages: seq<string>)
    requires IsRunning(w.db, s, k)
    ensures var db := Step(w, SaveConversation(s, k, messages)).db;
      && s in db.conversations && db.conversations[s].run == k && db.conversations[s].messages == messages
      && (forall x | x != s :: (x in db.conversations <==> x in w.db.conversations) && (x in db.conversations ==> db.conversations[x] == w.db.conversations[x]))
      && db.(conversations := w.db.conversations) == w.db
  {
  }

  /** A Run ends with exactly the status, summary, output and error it is given, at the time given. */
  lemma RunEnded(w: World, s: SessionId, k: RunId, ending: Ending, now: Time)
    requires IsRunning(w.db, s, k) && ValidEnding(ending) && (ending.status == Completed ==> Open(w))
    ensures var w' := Step(w, FinishRun(s, k, ending, now, Commit));
      && OnlyRun(w.db, w'.db, RunKey(s, k)) && w'.active == w.active && w'.fault == w.fault
      && var run, run' := w.db.runs[RunKey(s, k)], w'.db.runs[RunKey(s, k)];
         && run'.status == ending.status && run'.summary == ending.summary && run'.output == ending.output
         && run'.error == ending.error && run'.ended == Some(now)
         && run'.(status := run.status, summary := run.summary, output := run.output, error := run.error, ended := run.ended) == run
  {
    hide RunTargets, Staged, StageFiles;
  }

  /** A new Event is active as it was asked for, with nothing remembered; ten at a time is the limit. */
  lemma EventCreated(w: World, row: EventRow)
    requires Open(w) && IsRunning(w.db, row.owner, row.createdRun) && !UsedId(w.db, row.id)
    ensures var db := Step(w, CreateEvent(row, Commit)).db;
      && db.(events := w.db.events) == w.db
      && forall x :: x in db.events <==> x in w.db.events || (x == row.(memo := Nothing) && |OwnedRows(w.db.events, row.owner)| < 10)
  {
    hide UsedId;
  }

  // One Event has left the active table for the log.
  ghost predicate Resolved(db: Db, db': Db, e: EventRow, outcome: Outcome, run: Option<RunId>, now: Time) {
    && (forall x :: x in db'.events <==> x in db.events && x.id != e.id)
    && db'.log == db.log + [LogRow(e, outcome, run, None, now)]
    && db'.sessions == db.sessions && db'.runs == db.runs && db'.pending == db.pending && db'.conversations == db.conversations
  }

  lemma RemovedRow(db: Db, e: EventRow, outcome: Outcome, run: Option<RunId>, now: Time, targets: set<ShardKey>)
    ensures Resolved(db, StageIndex(RemoveRecord(db, e, outcome, run, None, now), targets), e, outcome, run, now)
  {
    hide Staged;
  }

  lemma InstalledDb(w: World, db: Db, targets: set<ShardKey>)
    ensures Install(w, db, targets).db == StageIndex(db, targets) && Install(w, db, targets).active == w.active
  {
  }

  lemma UserDeletes(w: World, s: SessionId, event: EventId, now: Time, row: EventRow)
    requires Open(w) && s in w.db.sessions && Find(w.db.events, event, s) == Some(row)
    ensures var db := RemoveRecord(w.db, row, DeletedByUser, None, None, now);
      Step(w, DeleteByUser(s, event, now, Commit)) == Install(w, db, LogTargets(Since(db.log, |w.db.log|)))
  {
    hide Find, LogTargets, RemoveRecord, Install, Since, AbortedStage;
  }

  lemma AgentDeletes(w: World, s: SessionId, k: RunId, event: EventId, now: Time, row: EventRow)
    requires Open(w) && IsRunning(w.db, s, k) && Find(w.db.events, event, s) == Some(row)
    ensures var db := RemoveRecord(w.db, row, DeletedByAgent, Some(k), None, now);
      Step(w, DeleteByAgent(s, k, event, now, Commit)) == Install(w, db, LogTargets(Since(db.log, |w.db.log|)))
  {
    hide Find, LogTargets, RemoveRecord, Install, Since, Stuck;
  }

  /** A deletion by the user moves exactly that Event to the log. */
  lemma DeletedForUser(w: World, e: EventRow, now: Time)
    requires WorldInv(w) && Open(w) && e in w.db.events
    ensures Resolved(w.db, Step(w, DeleteByUser(e.owner, e.id, now, Commit)).db, e, DeletedByUser, None, now)
  {
    hide WorldInv, Find, LogTargets, Resolved, RemoveRecord, Install, StageIndex, Since, Step;
    ActiveRow(w, e);
    UserDeletes(w, e.owner, e.id, now, e);
    var db := RemoveRecord(w.db, e, DeletedByUser, None, None, now);
    RemovedRow(w.db, e, DeletedByUser, None, now, LogTargets(Since(db.log, |w.db.log|)));
    InstalledDb(w, db, LogTargets(Since(db.log, |w.db.log|)));
  }

  /** A deletion by a running Run does the same, and records the Run. */
  lemma DeletedForAgent(w: World, e: EventRow, k: RunId, now: Time)
    requires WorldInv(w) && Open(w) && e in w.db.events && IsRunning(w.db, e.owner, k)
    ensures Resolved(w.db, Step(w, DeleteByAgent(e.owner, k, e.id, now, Commit)).db, e, DeletedByAgent, Some(k), now)
  {
    hide WorldInv, Find, LogTargets, Resolved, RemoveRecord, Install, StageIndex, Since, Step;
    ActiveRow(w, e);
    AgentDeletes(w, e.owner, k, e.id, now, e);
    var db := RemoveRecord(w.db, e, DeletedByAgent, Some(k), None, now);
    RemovedRow(w.db, e, DeletedByAgent, Some(k), now, LogTargets(Since(db.log, |w.db.log|)));
    InstalledDb(w, db, LogTargets(Since(db.log, |w.db.log|)));
  }

  lemma ActiveRow(w: World, e: EventRow)
    requires WorldInv(w) && e in w.db.events
    ensures e.owner in w.db.sessions && Find(w.db.events, e.id, e.owner) == Some(e)
  {
    hide DbInv, Agrees, Registered, NothingStranded, Find;
    EventIds(w.db);
    FindsIt(w.db, e);
  }

  lemma FindsIt(db: Db, e: EventRow)
    requires EventTable(db) && e in db.events
    ensures Find(db.events, e.id, e.owner) == Some(e)
  {
    var found := Find(db.events, e.id, e.owner);
    assert found.Some?;
    SameIdSameRow(db, found.value, e);
  }

  // A Run that has just been inserted.
  ghost predicate Inserted(db: Db, db': Db, s: SessionId, cause: Cause, triggers: Option<seq<Trigger>>, now: Time, retryOf: Option<RunId>, attempt: int)
    requires s in db.sessions
  {
    var k := db.sessions[s].current + 1;
    && s in db'.sessions && db'.sessions[s].status == SessionRunning && db'.sessions[s].current == k && db'.sessions[s].restart == db.sessions[s].restart
    && (forall x | x != s :: (x in db'.sessions <==> x in db.sessions) && (x in db'.sessions ==> db'.sessions[x] == db.sessions[x]))
    && db'.runs.Keys == db.runs.Keys + {RunKey(s, k)} && (forall x | x in db.runs && x != RunKey(s, k) :: db'.runs[x] == db.runs[x])
    && var run := db'.runs[RunKey(s, k)];
       && run.status == Running && run.cause == cause && run.triggers == triggers && run.started == now
       && run.retryOf == retryOf && run.retryAttempt == attempt && run.ended.None? && run.error.None? && run.summary.None? && run.output.None?
       && run.modelCalls == 0 && run.toolCalls == 0 && run.progress == [] && run.initialContext.None?
  }

  /** A start inserts and registers the next Run of a stopped Session, as a restart if there was one before. */
  lemma SessionStarted(w: World, s: SessionId, now: Time)
    requires Open(w) && SessionIs(w.db, s, SessionStopped) && s !in w.active
    ensures var w' := Step(w, StartSession(s, now, Commit));
      && Inserted(w.db, w'.db, s, if w.db.sessions[s].current == 0 then SessionStart else SessionRestart, None, now, None, 0)
      && s in w'.active && w'.active[s] == ActiveRun(w.db.sessions[s].current + 1, false)
      && w'.db.events == w.db.events && w'.db.pending == w.db.pending && w'.db.log == w.db.log
  {
  }

  /** A retry inserts and registers the next attempt, which names the first Run of its chain. */
  lemma RunRetried(w: World, s: SessionId, k: RunId, now: Time)
    requires WorldInv(w) && Open(w) && Retryable(w, s, k)
    ensures var w', failed := Step(w, RetryRun(s, k, now, Commit)), w.db.runs[RunKey(s, k)];
      && Inserted(w.db, w'.db, s, ManualRetry, None, now, Some(if failed.retryOf.Some? then failed.retryOf.value else k), failed.retryAttempt + 1)
      && s in w'.active && w'.active[s] == ActiveRun(k + 1, false)
      && w'.db.events == w.db.events && w'.db.pending == w.db.pending && w'.db.log == w.db.log
  {
    hide WorldInv;
  }

  lemma BatchQueue(db: Db, s: SessionId, n: nat)
    requires Increasing(db.pending) && n <= |RowsOf(db.pending, s)|
    ensures Payloads(RowsOf(DeleteIds(db.pending, FirstIds(db.pending, s, n)), s)) == Queue(db, s)[n..]
  {
    TakeFirst(db.pending, s, n, s);
    hide RowsOf, DeleteIds, FirstIds;
  }

  lemma BatchInserted(db: Db, s: SessionId, batch: seq<Trigger>, now: Time, pending: seq<PendingRow>, taken: map<SessionId, seq<Batch>>)
    requires s in db.sessions
    ensures Inserted(db, InsertRun(db, s, NewRun(EventCause, Some(batch), now, None, 0)).(pending := pending, taken := taken), s, EventCause, Some(batch), now, None, 0)
  {
  }

  /** The next batch: the oldest ten triggers, or all of them, leave the queue and start the next Run. */
  lemma BatchStarted(db: Db, s: SessionId, now: Time)
    requires DbInv(db) && HasPending(db, s)
    ensures var db', q := StartPending(db, s, now), Queue(db, s);
      var n := if |q| <= 10 then |q| else 10;
      && Inserted(db, db', s, EventCause, Some(q[..n]), now, None, 0) && Queue(db', s) == q[n..]
      && db'.events == db.events && db'.log == db.log
  {
    QueueIds(db);
    hide DbInv, RowsOf, DeleteIds, FirstIds, Inserted, Increasing;
    var q := Queue(db, s);
    var n := if |q| <= 10 then |q| else 10;
    assert NextBatch(db, s) == q[..n] && |q[..n]| == n;
    var db' := StartPending(db, s, now);
    BatchQueue(db, s, n);
    BatchInserted(db, s, q[..n], now, db'.pending, db'.taken);
    hide NextBatch;
  }

  lemma QueueIds(db: Db)
    requires DbInv(db)
    ensures Increasing(db.pending)
  {
    hide Numbered, Shaped, Retries, EventTable, LogTable, Conserved, BatchesStored, Accounted, Written;
  }

  // What a stop or delete does to the Sessions and the Runs.
  ghost predicate Halted(db: Db, db': Db, s: SessionId, deleting: bool, now: Time)
    requires s in db.sessions
  {
    var k := db.sessions[s].current;
    && s in db'.sessions && db'.sessions[s].status == (if deleting then SessionDeleted else SessionStopped) && db'.sessions[s].current == k
    && (forall x | x in db.sessions && x != s :: x in db'.sessions && db'.sessions[x] == db.sessions[x])
    && (IsRunning(db, s, k) ==>
          && RunKey(s, k) in db'.runs && db'.runs[RunKey(s, k)].status == Interrupted && db'.runs[RunKey(s, k)].ended == Some(now)
          && db'.runs[RunKey(s, k)].error == Some("HARD_STOP: interrupted by user"))
    && (forall key | key in db.runs && !(key == RunKey(s, k) && IsRunning(db, s, k)) :: key in db'.runs && db'.runs[key] == db.runs[key])
  }

  lemma ChangeHalts(db: Db, db': Db, s: SessionId, deleting: bool, now: Time)
    requires s in db.sessions && ChangeEffect(db, db', s, deleting, now)
    requires IsRunning(db, s, db.sessions[s].current) ==> db.sessions[s].status == SessionRunning
    ensures Halted(db, db', s, deleting, now)
  {
    hide ClearEffect;
  }

  lemma ChangeLogs(db: Db, db': Db, s: SessionId, deleting: bool, now: Time, e: EventRow)
    requires s in db.sessions && ChangeEffect(db, db', s, deleting, now) && e in db.events && e.owner == s
    ensures LogRow(e, if deleting then ClearedByDelete else ClearedByStop, None, None, now) in db'.log
  {
    hide CurrentEnded, KnownIn, RowsOf, TakenOf, Queue;
    var rows, outcome := OwnedRows(db.events, s), if deleting then ClearedByDelete else ClearedByStop;
    assert e in rows;
    var i :| 0 <= i < |rows| && rows[i] == e;
    assert LogRows(rows, outcome, now)[i] == LogRow(e, outcome, None, None, now);
  }

  lemma ChangeQueues(db: Db, db': Db, s: SessionId, deleting: bool, now: Time, x: SessionId)
    requires s in db.sessions && ChangeEffect(db, db', s, deleting, now) && x != s
    ensures Queue(db', x) == Queue(db, x)
  {
    hide CurrentEnded, KnownIn, RowsOf, TakenOf, LogRows, OwnedRows;
  }

  lemma StagedHalted(db: Db, db': Db, s: SessionId, deleting: bool, now: Time, targets: set<ShardKey>)
    requires s in db.sessions && Halted(db, db', s, deleting, now) && Quiet(db', s)
    ensures Halted(db, StageIndex(db', targets), s, deleting, now) && Quiet(StageIndex(db', targets), s)
  {
    hide RowsOf, Staged;
    forall k ensures !IsRunning(StageIndex(db', targets), s, k) {
      assert !IsRunning(db', s, k);
    }
  }

  /**
    A stop or delete sets the status, interrupts the Run that runs, moves every Event of the Session to the
    log, empties its queue and cancels its goroutine; other Sessions keep what they have.
   */
  lemma SessionChanged(w: World, s: SessionId, deleting: bool, now: Time)
    requires WorldInv(w) && Open(w) && s in w.db.sessions && (deleting || w.db.sessions[s].status != SessionDeleted)
    ensures var w' := Step(w, ChangeSession(s, deleting, now, Commit));
      && Halted(w.db, w'.db, s, deleting, now) && Quiet(w'.db, s)
      && (forall e | e in w.db.events && e.owner == s ::
            LogRow(e, if deleting then ClearedByDelete else ClearedByStop, None, None, now) in w'.db.log)
      && (forall x | x != s :: Queue(w'.db, x) == Queue(w.db, x))
      && (s in w.active ==> s in w'.active && w'.active[s].canceled)
  {
    hide WorldInv, ChangeState, ChangeEffect, Cleared, Quiet, Halted, StageIndex, StageFiles, Queue, Step;
    var after, targets := ChangeState(w.db, s, deleting, now), Cleared(w.db, s);
    ChangedState(w, s, deleting, now);
    StateChanges(w, s, deleting, now);
    ChangeHalts(w.db, after, s, deleting, now);
    StagedHalted(w.db, after, s, deleting, now, targets);
    InstalledDb(w, after, targets);
    forall e | e in w.db.events && e.owner == s
      ensures LogRow(e, if deleting then ClearedByDelete else ClearedByStop, None, None, now) in StageIndex(after, targets).log
    {
      ChangeLogs(w.db, after, s, deleting, now, e);
      StagedQueue(after, s, targets);
    }
    forall x | x != s ensures Queue(StageIndex(after, targets), x) == Queue(w.db, x) {
      ChangeQueues(w.db, after, s, deleting, now, x);
      StagedQueue(after, x, targets);
    }
  }

  lemma StateChanges(w: World, s: SessionId, deleting: bool, now: Time)
    requires Open(w) && s in w.db.sessions && (deleting || w.db.sessions[s].status != SessionDeleted)
    ensures Step(w, ChangeSession(s, deleting, now, Commit)) == CancelOne(Install(w, ChangeState(w.db, s, deleting, now), Cleared(w.db, s)), s)
  {
    hide ChangeState, ClearanceTargets, StageIndex, StageFiles, Staged, AbortedStage;
  }

  lemma ChangedState(w: World, s: SessionId, deleting: bool, now: Time)
    requires WorldInv(w) && s in w.db.sessions
    ensures var after := ChangeState(w.db, s, deleting, now);
      && ChangeEffect(w.db, after, s, deleting, now) && Quiet(after, s)
      && (IsRunning(w.db, s, w.db.sessions[s].current) ==> w.db.sessions[s].status == SessionRunning)
  {
    hide DbInv, Agrees, Registered, NothingStranded, ChangeState, ChangeEffect, Quiet;
    ChangeStateInv(w.db, s, deleting, now);
    ChangeStateEffect(w.db, s, deleting, now);
    OnlyRunning(w, s);
  }

  lemma StagedQueue(db: Db, x: SessionId, targets: set<ShardKey>)
    ensures Queue(StageIndex(db, targets), x) == Queue(db, x) && StageIndex(db, targets).log == db.log
  {
    hide Staged, RowsOf;
  }

  lemma OnlyRunning(w: World, s: SessionId)
    requires WorldInv(w) && s in w.db.sessions
    ensures IsRunning(w.db, s, w.db.sessions[s].current) ==> w.db.sessions[s].status == SessionRunning
  {
    hide Agrees, Registered, NothingStranded, Shaped, Retries, EventTable, LogTable, QueueTable, Conserved, BatchesStored, Accounted, Written;
  }

  // What recovery does to a Run that was there, and to a running Session.
  ghost predicate EndedByCrash(db: Db, db': Db, key: RunKey, now: Time)
    requires key in db.runs
  {
    && key in db'.runs
    && if db.runs[key].status == Running then
         db'.runs[key].status == Interrupted && db'.runs[key].ended == Some(now)
         && db'.runs[key].error == Some("CRASH_RECOVERY: Agent Server exited before the Run reached a terminal state")
       else db'.runs[key] == db.runs[key]
  }

  lemma InterruptEnds(db: Db, mid: Db, db': Db, key: RunKey, now: Time)
    requires key in db.runs && mid.runs == InterruptAll(db, now).runs && key in db'.runs && db'.runs[key] == mid.runs[key]
    ensures EndedByCrash(db, db', key, now)
  {
  }

  lemma RecoveryRuns(db: Db, order: seq<SessionId>, now: Time)
    requires DbInv(db) && RunningOrder(db, order)
    ensures var mid := InterruptAll(db, now);
      var r := RecoverFrom(mid, order, now, map[]);
      && SessionsLaunched(mid, r.db, r.launches) && RunsLaunched(mid, r.db, r.launches) && mid.sessions == db.sessions
      && forall s | SessionIs(db, s, SessionRunning) :: s in r.launches
  {
    hide DbInv, RecoverFrom, RowsOf, InterruptAll, SessionsLaunched, RunsLaunched;
    var mid := InterruptAll(db, now);
    InterruptAllInv(db, now);
    assert mid.sessions == db.sessions by { InterruptKeeps(db, now); }
    RecoverInv(mid, order, now);
    var r := RecoverFrom(mid, order, now, map[]);
    LaunchedParts(mid, r.db, r.launches);
    hide Launched;
    forall s | SessionIs(db, s, SessionRunning) ensures s in r.launches {
      assert s in order;
    }
  }

  lemma InterruptKeeps(db: Db, now: Time)
    ensures InterruptAll(db, now).sessions == db.sessions
  {
  }

  lemma SameOrder(db: Db, db': Db, order: seq<SessionId>)
    requires RunningOrder(db, order) && db'.sessions == db.sessions
    ensures RunningOrder(db', order)
  {
    forall s | s in order ensures SessionIs(db', s, SessionRunning) {
      assert SessionIs(db, s, SessionRunning);
    }
  }

  // The state that repair starts recovery from.
  function Repaired(db: Db): Db {
    StageIndex(StageIndex(db, {}), StatusTargets(StageIndex(db, {}), false))
  }

  lemma RepairedInv(db: Db, order: seq<SessionId>)
    requires DbInv(db) && RunningOrder(db, order)
    ensures DbInv(Repaired(db)) && RunningOrder(Repaired(db), order) && Repaired(db).runs == db.runs && Repaired(db).sessions == db.sessions
  {
    hide DbInv, StatusTargets, Staged, RunningOrder;
    IndexInv(db, {});
    IndexInv(StageIndex(db, {}), StatusTargets(StageIndex(db, {}), false));
    SameOrder(db, Repaired(db), order);
  }

  lemma ReopenIs(w: World, files: Files, order: seq<SessionId>, now: Time)
    requires RunningOrder(w.db, order)
    ensures var w' := Step(w, Reopen(files, {}, order, now));
      var r := RecoverFrom(InterruptAll(Repaired(w.db), now), order, now, map[]);
      && w'.db.runs == r.db.runs && w'.active == map[] + map s | s in r.launches :: ActiveRun(r.launches[s], false)
  {
    hide RunningOrder, StatusTargets, Staged, StageFiles, RecoverFrom, InterruptAll;
    assert {} <= StatusTargets(w.db, false);
  }

  /** A crash ends every Run that ran, with the reason, and starts the next Run of every running Session. */
  lemma Recovered(w: World, files: Files, order: seq<SessionId>, now: Time)
    requires WorldInv(w) && RunningOrder(w.db, order)
    ensures var w' := Step(w, Reopen(files, {}, order, now));
      && (forall key | key in w.db.runs :: EndedByCrash(w.db, w'.db, key, now))
      && (forall s | SessionIs(w.db, s, SessionRunning) ::
            s in w'.active && !w'.active[s].canceled && w'.active[s].run == w.db.sessions[s].current + 1 && IsRunning(w'.db, s, w'.active[s].run))
  {
    assert DbInv(w.db) by { hide DbInv, Agrees, Registered, NothingStranded; }
    hide WorldInv, DbInv, RecoverFrom, InterruptAll, RunningOrder, RowsOf, Repaired, Step, EndedByCrash;
    RepairedInv(w.db, order);
    RecoveryRuns(Repaired(w.db), order, now);
    ReopenIs(w, files, order, now);
    var mid := InterruptAll(Repaired(w.db), now);
    var w' := Step(w, Reopen(files, {}, order, now));
    SameInterrupts(w.db, Repaired(w.db), now);
    SameKeys(w.db, now);
    forall key | key in w.db.runs ensures EndedByCrash(w.db, w'.db, key, now) {
      InterruptEnds(w.db, mid, w'.db, key, now);
    }
  }

  lemma SameInterrupts(db: Db, db': Db, now: Time)
    requires db'.runs == db.runs
    ensures InterruptAll(db', now).runs == InterruptAll(db, now).runs
  {
  }

  lemma SameKeys(db: Db, now: Time)
    ensures InterruptAll(db, now).runs.Keys == db.runs.Keys
  {
  }

  /** A new Session is stopped and has no Run. */
  lemma SessionCreated(w: World, s: SessionId)
    requires Open(w) && s !in w.db.sessions
    ensures var db := Step(w, CreateSession(s, Commit)).db;
      && s in db.sessions && db.sessions[s] == Session(SessionStopped, 0, None) && db.runs == w.db.runs && db.events == w.db.events
      && forall x | x in w.db.sessions :: x in db.sessions && db.sessions[x] == w.db.sessions[x]
  {
  }

  /** A memory is recorded under the Run that saved it. */
  lemma MemoryWritten(w: World, s: SessionId, k: RunId, memory: nat)
    requires Open(w) && IsRunning(w.db, s, k) && memory > 0
    ensures var db := Step(w, SaveMemory(s, k, memory, Commit)).db;
      db.memories == w.db.memories + [MemoryRow(s, k, memory)] && db.(memories := w.db.memories) == w.db
  {
  }

  // The world after a goroutine has left, and its Session's next Run, if any, has started.
  lemma LeaveIs(w: World, s: SessionId, now: Time)
    requires MayLeave(w, s)
    ensures var w' := Step(w, LeaveRun(s, now, Commit));
      if Open(w) && HasPending(w.db, s)
      then w'.db == StartPending(w.db, s, now) && w'.active == (w.active - {s})[s := ActiveRun(w.db.sessions[s].current + 1, false)]
      else w' == w.(active := w.active - {s})
  {
    hide MayLeave, StartPending, Queue;
    if Open(w) && HasPending(w.db, s) {
      var k := w.db.sessions[s].current + 1;
      var launched := w.active - {s} + map x | x in map[s := k] :: ActiveRun(map[s := k][x], false);
      assert launched == (w.active - {s})[s := ActiveRun(k, false)];
    }
  }

  /** A goroutine that leaves gives up its entry; if triggers wait, the next batch starts in its place. */
  lemma RunLeft(w: World, s: SessionId, now: Time)
    requires WorldInv(w) && MayLeave(w, s)
    ensures var w', q := Step(w, LeaveRun(s, now, Commit)), Queue(w.db, s);
      var n := if |q| <= 10 then |q| else 10;
      && (forall x | x != s :: (x in w'.active <==> x in w.active) && (x in w'.active ==> w'.active[x] == w.active[x]))
      && if Open(w) && SessionIs(w.db, s, SessionRunning) && q != [] then
           && Inserted(w.db, w'.db, s, EventCause, Some(q[..n]), now, None, 0) && Queue(w'.db, s) == q[n..]
           && s in w'.active && w'.active[s] == ActiveRun(w.db.sessions[s].current + 1, false)
         else s !in w'.active && w'.db == w.db
  {
    assert DbInv(w.db) by { hide DbInv, Agrees, Registered, NothingStranded; }
    hide WorldInv, DbInv, Queue, StartPending, Inserted, MayLeave, Step;
    LeaveIs(w, s, now);
    if HasPending(w.db, s) {
      BatchStarted(w.db, s, now);
    }
  }

  // A Run that a shutdown has interrupted.
  ghost predicate ShutDown(db: Db, s: SessionId, k: RunId, now: Time) {
    && RunKey(s, k) in db.runs && db.runs[RunKey(s, k)].status == Interrupted && db.runs[RunKey(s, k)].ended == Some(now)
    && db.runs[RunKey(s, k)].error == Some("SERVER_SHUTDOWN: interrupted by graceful Agent Server shutdown")
  }

  lemma InterruptedOne(w: World, s: SessionId, now: Time)
    ensures var w' := InterruptOne(w, s, now, Commit);
      && (s in w.active ==> s in w'.active && w'.active[s] == w.active[s].(canceled := true))
      && (forall x | x != s :: (x in w'.active <==> x in w.active) && (x in w.active ==> w'.active[x] == w.active[x]))
      && (s in w.active && IsRunning(w.db, s, w.active[s].run) ==> ShutDown(w'.db, s, w.active[s].run, now))
      && (forall key | key in w.db.runs && w.db.runs[key].status != Running :: key in w'.db.runs && w'.db.runs[key] == w.db.runs[key])
      && (forall key | key in w.db.runs && key.session != s :: key in w'.db.runs && w'.db.runs[key] == w.db.runs[key])
  {
    hide RunTargets, Staged, StageFiles;
  }

  lemma {:induction false} InterruptedAll(w: World, order: seq<SessionId>, now: Time, s: SessionId)
    requires s in order && s in w.active
    requires forall i, j | 0 <= i < j < |order| :: order[i] != order[j]
    ensures var w' := InterruptEach(w, order, map[], now);
      && s in w'.active && w'.active[s] == w.active[s].(canceled := true)
      && (IsRunning(w.db, s, w.active[s].run) ==> ShutDown(w'.db, s, w.active[s].run, now))
    decreases |order|
  {
    hide InterruptOne, ShutDown;
    var first, rest := order[0], order[1..];
    var w1 := InterruptOne(w, first, now, Commit);
    InterruptedOne(w, first, now);
    assert InterruptEach(w, order, map[], now) == InterruptEach(w1, rest, map[], now);
    if s == first {
      assert s !in rest;
      InterruptedKept(w1, rest, now, s, w.active[s].run);
    } else {
      assert s in rest;
      RunKept(w, w1, s);
      InterruptedAll(w1, rest, now, s);
    }
  }

  lemma RunKept(w: World, w1: World, s: SessionId)
    requires s in w.active && s in w1.active && w1.active[s] == w.active[s]
    requires forall key | key in w.db.runs && key.session == s :: key in w1.db.runs && w1.db.runs[key] == w.db.runs[key]
    ensures IsRunning(w.db, s, w.active[s].run) ==> IsRunning(w1.db, s, w1.active[s].run)
  {
  }

  lemma {:induction false} InterruptedKept(w: World, order: seq<SessionId>, now: Time, s: SessionId, k: RunId)
    requires s !in order && s in w.active
    ensures var w' := InterruptEach(w, order, map[], now);
      s in w'.active && w'.active[s] == w.active[s] && (ShutDown(w.db, s, k, now) ==> ShutDown(w'.db, s, k, now))
    decreases |order|
  {
    hide InterruptOne;
    if order != [] {
      var w1 := InterruptOne(w, order[0], now, Commit);
      InterruptedOne(w, order[0], now);
      assert s != order[0] && s !in order[1..];
      InterruptedKept(w1, order[1..], now, s, k);
    }
  }

  /** A shutdown in which nothing fails interrupts every active Run that runs, with the reason, and cancels every goroutine. */
  lemma Quiesced(w: World, order: seq<SessionId>, now: Time, s: SessionId)
    requires !w.closed && w.active.Keys == (set x | x in order) && s in w.active
    requires forall i, j | 0 <= i < j < |order| :: order[i] != order[j]
    ensures var w' := Step(w, Quiesce(order, map[], now));
      && s in w'.active && w'.active[s].canceled
      && (IsRunning(w.db, s, w.active[s].run) ==> ShutDown(w'.db, s, w.active[s].run, now))
  {
    hide InterruptEach, ShutDown;
    InterruptedAll(w.(closed := true), order, now, s);
  }
}
