/**
  Safety of the Runtime over every run: the invariants each action keeps, and what no action undoes.
 */
module Safety {
  import opened Prelude
  import opened Matchers
  import opened Tables
  import opened Transactions
  import opened History
  import opened Invariants
  import opened Preservation
  import opened World

  // The in-memory registry follows the database.
  ghost predicate Registered(w: World) {
    && (forall s | s in w.active :: s in w.db.sessions && w.active[s].run == w.db.sessions[s].current)
    && (forall s, k | IsRunning(w.db, s, k) :: w.fault || (s in w.active && w.active[s].run == k))
    && (forall s | s in w.active && w.active[s].canceled :: w.fault || !IsRunning(w.db, s, w.active[s].run))
  }

  // No trigger waits for a Session that nothing will wake.
  ghost predicate NothingStranded(w: World) {
    Open(w) ==> forall s | SessionIs(w.db, s, SessionRunning) && s !in w.active :: RowsOf(w.db.pending, s) == []
  }

  // Only Sessions about to be launched have triggers waiting.
  ghost predicate StrandedOnly(w: World, excused: set<SessionId>) {
    Open(w) ==> forall s | SessionIs(w.db, s, SessionRunning) && s !in w.active && s !in excused ::
      RowsOf(w.db.pending, s) == []
  }

  ghost predicate WorldInv(w: World) {
    DbInv(w.db) && Agrees(w.db, w.files, w.damaged) && Registered(w) && NothingStranded(w)
  }

  lemma InitialInv()
    ensures WorldInv(INITIAL)
  {
    EmptyDbInv();
  }

  // ---------------------------------------------------------------------------------------------
  // Committing a candidate
  // ---------------------------------------------------------------------------------------------

  // The index is not part of the database invariant.
  lemma IndexInv(db: Db, targets: set<ShardKey>)
    requires DbInv(db)
    ensures DbInv(StageIndex(db, targets))
  {
    hide Numbered, Shaped, Retries, EventTable, LogTable, QueueTable, Conserved, BatchesStored, Accounted, Written;
    var db' := StageIndex(db, targets);
    FrameRuns(db, db');
    FrameEvents(db, db');
    FrameQueue(db, db');
    FrameConserved(db, db');
    FrameWritten(db, db');
  }

  lemma PositiveIds(db: Db)
    requires DbInv(db)
    ensures forall key | key in db.runs :: key.id >= 1
  {
    hide Shaped, Retries, EventTable, LogTable, QueueTable, Conserved, BatchesStored, Accounted, Written;
  }

  lemma InstallInv(w: World, db: Db, targets: set<ShardKey>)
    requires Agrees(w.db, w.files, w.damaged) && DbInv(db) && db.index == w.db.index && Covers(w.db, db, targets) && Aligned(targets)
    ensures var w' := Install(w, db, targets); DbInv(w'.db) && Agrees(w'.db, w'.files, w'.damaged)
  {
    hide DbInv, Agrees, Covers, Aligned;
    IndexInv(db, targets);
    PositiveIds(db);
    StagingAgrees(w.db, db, w.files, targets, w.damaged);
  }

  // Every target a transaction names starts a range.
  lemma LogAligned(rows: seq<LogRow>)
    ensures Aligned(LogTargets(rows))
  {
    hide KeyOf;
    forall key | key in LogTargets(rows) ensures key.start % SHARD_SIZE == 1 {
      if r :| r in rows && key == KeyOf(r.event.owner, r.event.createdRun) {
        KeyAligned(r.event.owner, r.event.createdRun);
      } else {
        var r :| r in rows && r.outcomeRun.Some? && key == KeyOf(r.event.owner, r.outcomeRun.value);
        KeyAligned(r.event.owner, r.outcomeRun.value);
      }
    }
  }

  lemma TriggersAligned(s: SessionId, triggers: seq<Trigger>)
    ensures Aligned(TriggerTargets(s, triggers))
  {
  }

  lemma RunAligned(db: Db, s: SessionId, k: RunId)
    ensures Aligned(RunTargets(db, s, k))
  {
    hide KeyOf;
    forall key | key in RunTargets(db, s, k) ensures key.start % SHARD_SIZE == 1 {
      KeyAligned(s, k);
      if RunKey(s, k) in db.runs && db.runs[RunKey(s, k)].triggers.Some? {
        TriggersAligned(s, db.runs[RunKey(s, k)].triggers.value);
      }
      if r :| r in db.log && key == KeyOf(s, r.event.createdRun) {
        KeyAligned(s, r.event.createdRun);
      }
    }
  }

  lemma ClearanceAligned(db: Db, s: SessionId)
    requires s in db.sessions
    ensures Aligned(ClearanceTargets(db, s))
  {
    hide KeyOf, Queue;
    forall key | key in ClearanceTargets(db, s) ensures key.start % SHARD_SIZE == 1 {
      KeyAligned(s, db.sessions[s].current);
      TriggersAligned(s, Queue(db, s));
      if e :| e in OwnedRows(db.events, s) && key == KeyOf(s, e.createdRun) {
        KeyAligned(s, e.createdRun);
      }
    }
  }

  lemma StatusAligned(db: Db, running: bool)
    ensures Aligned(StatusTargets(db, running))
  {
  }

  // Staging shards is invisible to everything but the files.
  lemma StagedRegistry(w: World, targets: set<ShardKey>)
    requires Registered(w) && NothingStranded(w)
    ensures Registered(Install(w, w.db, targets)) && NothingStranded(Install(w, w.db, targets))
  {
    hide RowsOf, StageFiles, Staged;
    forall s, k | IsRunning(StageIndex(w.db, targets), s, k) ensures IsRunning(w.db, s, k) {
    }
  }

  lemma StagedEvolves(a: Db, db: Db, targets: set<ShardKey>)
    requires Evolves(a, db)
    ensures Evolves(a, StageIndex(db, targets))
  {
  }

  // A commit without history staging: no terminal Run looks different.
  ghost predicate SameViews(db: Db, db': Db) {
    forall s, k :: View(db, s, k) == View(db', s, k)
  }

  lemma PlainAgrees(db: Db, db': Db, files: Files, damaged: set<ShardKey>)
    requires Agrees(db, files, damaged) && db'.index == db.index && SameViews(db, db')
    ensures Agrees(db', files, damaged)
  {
    forall s, k | View(db', s, k).Some?
      ensures k >= 1 && Indexed(db', KeyOf(s, k)) && (KeyOf(s, k) in damaged || Mirrored(db', files, KeyOf(s, k)))
    {
      assert View(db, s, k) == View(db', s, k);
      var key := KeyOf(s, k);
      assert Indexed(db, key) && (key in damaged || Mirrored(db, files, key));
      RecordsSame(db, db', key.session, key.start, SHARD_SIZE);
    }
  }

  // A rollback that cannot restore some of its shards: they are damaged, and nothing else has changed.
  lemma StuckSound(w: World, candidate: Db, targets: set<ShardKey>, left: set<ShardKey>)
    requires WorldInv(w)
    ensures Sound(w, Stuck(w, candidate, targets, left)) && Sound(w, Latch(Stuck(w, candidate, targets, left)))
  {
    hide DbInv, Agrees, Registered, NothingStranded, Evolves, Overwritten, Staged;
    var after := Stuck(w, candidate, targets, left);
    LeftAgrees(w.db, candidate, w.files, w.damaged, left * Staged(candidate, targets));
    assert Registered(after) && NothingStranded(after) by { FilesUnregistered(w, after.files, after.damaged); }
    LatchRegistry(after);
    EvolvesReflexive(w.db);
  }

  lemma FilesUnregistered(w: World, files: Files, damaged: set<ShardKey>)
    requires Registered(w) && NothingStranded(w)
    ensures var w' := w.(files := files, damaged := damaged); Registered(w') && NothingStranded(w')
  {
    hide RowsOf;
  }

  lemma AbortSound(w: World, candidate: Db, targets: set<ShardKey>, fate: Fate)
    requires WorldInv(w)
    ensures Sound(w, AbortedStage(w, candidate, targets, fate))
  {
    hide WorldInv, Sound, Stuck, Latch;
    Unchanged(w);
    if !fate.Commit? {
      StuckSound(w, candidate, targets, fate.left);
    }
  }

  // ---------------------------------------------------------------------------------------------
  // Views
  // ---------------------------------------------------------------------------------------------

  lemma {:induction false} EventsOfExtends(log: seq<LogRow>, more: seq<LogRow>, s: SessionId, k: RunId)
    requires forall r | r in more :: !Touches(r, s, k)
    ensures EventsOf(log + more, s, k) == EventsOf(log, s, k)
    decreases |more|
  {
    if more == [] {
      assert log + more == log;
    } else {
      var n := |more| - 1;
      assert more[n] in more;
      assert log + more == (log + more[..n]) + [more[n]];
      EventsOfAppend(log + more[..n], more[n], s, k);
      EventsOfExtends(log, more[..n], s, k);
    }
  }

  // Which terminal Runs there are, and their rows.
  ghost predicate SameTerminal(db: Db, db': Db, s: SessionId, k: RunId) {
    var key := RunKey(s, k);
    if key in db.runs && Terminal(db.runs[key].status) then key in db'.runs && db'.runs[key] == db.runs[key]
    else key !in db'.runs || db'.runs[key].status == Running
  }

  lemma TouchedTargets(rows: seq<LogRow>, row: LogRow, s: SessionId, k: RunId)
    requires row in rows && Touches(row, s, k)
    ensures KeyOf(s, k) in LogTargets(rows)
  {
  }

  // Writing log rows changes only the views of the Runs they name.
  lemma LogCovers(db: Db, db': Db, targets: set<ShardKey>)
    requires db.log <= db'.log && db'.memories == db.memories
    requires forall s, k :: SameTerminal(db, db', s, k) || KeyOf(s, k) in targets
    requires LogTargets(Since(db'.log, |db.log|)) <= targets
    ensures Covers(db, db', targets)
  {
    var more := db'.log[|db.log|..];
    assert db'.log == db.log + more;
    forall s, k | k >= 1 && View(db, s, k) != View(db', s, k) ensures KeyOf(s, k) in targets {
      assert SameTerminal(db, db', s, k) || KeyOf(s, k) in targets;
      if row :| row in more && Touches(row, s, k) {
        TouchedTargets(more, row, s, k);
      } else {
        EventsOfExtends(db.log, more, s, k);
      }
    }
  }

  // ... and without log rows, nothing.
  lemma QuietViews(db: Db, db': Db)
    requires db'.log == db.log && db'.memories == db.memories
    requires forall s, k :: SameTerminal(db, db', s, k)
    ensures SameViews(db, db')
  {
    forall s, k ensures View(db, s, k) == View(db', s, k) {
      assert SameTerminal(db, db', s, k);
    }
  }

  // ---------------------------------------------------------------------------------------------
  // The registry
  // ---------------------------------------------------------------------------------------------

  // A step that starts and ends no Run, stops no Session and adds no trigger outside `woken`.
  lemma RegistryFrame(w: World, db: Db, files: Files, damaged: set<ShardKey>)
    requires Registered(w) && NothingStranded(w)
    requires db.sessions == w.db.sessions
    requires forall s, k | IsRunning(db, s, k) :: IsRunning(w.db, s, k)
    requires forall s | s !in w.active :: RowsOf(db.pending, s) == RowsOf(w.db.pending, s)
    ensures var w' := w.(db := db, files := files, damaged := damaged); Registered(w') && NothingStranded(w')
  {
    hide RowsOf;
  }

  lemma IdleUnlessActive(w: World, s: SessionId)
    requires Registered(w) && !w.fault && s !in w.active
    ensures Idle(w.db, s)
  {
  }

  // Runs launched for Sessions that are not active.
  lemma LaunchRegistered(w: World, db: Db, launches: map<SessionId, RunId>)
    requires Registered(w) && !w.fault && SessionsLaunched(w.db, db, launches) && RunsLaunched(w.db, db, launches)
    requires forall s | s in launches :: s !in w.active
    ensures Registered(Launch(w.(db := db), launches))
  {
    hide RowsOf;
    var w' := Launch(w.(db := db), launches);
    forall s, k | IsRunning(db, s, k) ensures s in w'.active && w'.active[s].run == k {
      if RunKey(s, k) in w.db.runs {
        assert IsRunning(w.db, s, k);
      }
    }
    forall s | s in w.active ensures !IsRunning(db, s, w.active[s].run) || IsRunning(w.db, s, w.active[s].run) {
    }
  }

  lemma LaunchStranded(w: World, db: Db, launches: map<SessionId, RunId>)
    requires StrandedOnly(w, launches.Keys) && SessionsLaunched(w.db, db, launches)
    ensures NothingStranded(Launch(w.(db := db), launches))
  {
    hide RowsOf;
  }

  lemma LaunchRegistry(w: World, db: Db, launches: map<SessionId, RunId>)
    requires Registered(w) && StrandedOnly(w, launches.Keys) && !w.fault
    requires Launched(w.db, db, launches) && forall s | s in launches :: s !in w.active
    ensures var w' := Launch(w.(db := db), launches); Registered(w') && NothingStranded(w')
  {
    hide Registered, StrandedOnly, NothingStranded, SessionsLaunched, RunsLaunched, Launched;
    LaunchedParts(w.db, db, launches);
    LaunchRegistered(w, db, launches);
    LaunchStranded(w, db, launches);
  }

  lemma LaunchViews(db: Db, db': Db, launches: map<SessionId, RunId>)
    requires Launched(db, db', launches)
    ensures forall s, k :: SameTerminal(db, db', s, k)
    ensures db'.index == db.index && db'.log == db.log && db'.memories == db.memories
  {
    hide SessionsLaunched, Extends;
    forall s, k ensures SameTerminal(db, db', s, k) {
      var key := RunKey(s, k);
      if key in db'.runs && key !in db.runs {
        assert key.session in launches && key.id == launches[key.session];
        assert IsRunning(db', key.session, launches[key.session]);
      }
    }
  }

  lemma LaunchEvolves(db: Db, db': Db, launches: map<SessionId, RunId>)
    requires Launched(db, db', launches)
    requires forall s | s in launches :: s in db.sessions && db.sessions[s].status != SessionDeleted
    ensures Evolves(db, db')
  {
    hide RowsOf;
  }

  // A launch that commits without staging: start, retry, and the next batch of a Session.
  lemma PlainLaunch(w: World, db: Db, launches: map<SessionId, RunId>)
    requires Agrees(w.db, w.files, w.damaged) && Registered(w) && StrandedOnly(w, launches.Keys) && !w.fault
    requires DbInv(db) && Launched(w.db, db, launches)
    requires forall s | s in launches :: s !in w.active && w.db.sessions[s].status != SessionDeleted
    ensures WorldInv(Launch(w.(db := db), launches)) && Evolves(w.db, db)
  {
    hide DbInv, Agrees, Launched, Registered, NothingStranded, Evolves, StrandedOnly;
    assert forall s | s in launches :: s in w.db.sessions by {
      LaunchedParts(w.db, db, launches);
    }
    LaunchViews(w.db, db, launches);
    QuietViews(w.db, db);
    PlainAgrees(w.db, db, w.files, w.damaged);
    LaunchRegistry(w, db, launches);
    LaunchEvolves(w.db, db, launches);
  }

  // ---------------------------------------------------------------------------------------------
  // One lemma per action
  // ---------------------------------------------------------------------------------------------

  // What every action guarantees.
  ghost predicate Sound(w: World, w': World) {
    WorldInv(w') && Evolves(w.db, w'.db)
  }

  lemma Unchanged(w: World)
    requires WorldInv(w)
    ensures Sound(w, w) && Sound(w, Latch(w))
  {
    hide DbInv, Agrees, Registered, NothingStranded;
    LatchRegistry(w);
    EvolvesReflexive(w.db);
  }

  lemma EvolvesReflexive(db: Db)
    ensures Evolves(db, db)
  {
  }

  lemma CreateSessionSound(w: World, s: SessionId)
    requires WorldInv(w) && s !in w.db.sessions
    ensures Sound(w, w.(db := AddSession(w.db, s)))
  {
    hide DbInv, Agrees;
    var db := AddSession(w.db, s);
    AddSessionInv(w.db, s);
    QuietViews(w.db, db);
    PlainAgrees(w.db, db, w.files, w.damaged);
    CreateSessionRegistry(w, s);
    hide Registered, NothingStranded;
    AddSessionEvolves(w.db, s);
  }

  lemma CreateSessionRegistry(w: World, s: SessionId)
    requires Registered(w) && NothingStranded(w) && s !in w.db.sessions
    ensures var w' := w.(db := AddSession(w.db, s)); Registered(w') && NothingStranded(w')
  {
    hide RowsOf;
    forall x, k | IsRunning(AddSession(w.db, s), x, k) ensures IsRunning(w.db, x, k) {
    }
  }

  lemma AddSessionEvolves(db: Db, s: SessionId)
    requires DbInv(db) && s !in db.sessions
    ensures Evolves(db, AddSession(db, s))
  {
    hide Numbered, Shaped, Retries, EventTable, LogTable, QueueTable, BatchesStored, Accounted, Written;
  }

  // A new Run for a Session without one.
  lemma NewRunSound(w: World, s: SessionId, run: Run)
    requires WorldInv(w) && Open(w) && s !in w.active && Insertable(w.db, s, run) && run.triggers.None?
    requires w.db.sessions[s].status != SessionDeleted
    ensures Sound(w, Launch(w.(db := InsertRun(w.db, s, run)), map[s := w.db.sessions[s].current + 1]))
  {
    hide DbInv, Agrees, NothingStranded, StrandedOnly, Registered, RunShape, Idle;
    InsertRunInv(w.db, s, run);
    NextIsNew(w.db, s);
    InsertRunLaunches(w.db, s, run);
    hide Launched, InsertRun, Evolves, Insertable;
    var launches := map[s := w.db.sessions[s].current + 1];
    NoneStranded(w, launches.Keys);
    PlainLaunch(w, InsertRun(w.db, s, run), launches);
  }

  lemma StartSessionSound(w: World, s: SessionId, now: Time)
    requires WorldInv(w) && Open(w) && SessionIs(w.db, s, SessionStopped) && s !in w.active
    ensures Sound(w, Step(w, StartSession(s, now, Commit)))
  {
    hide DbInv, Agrees, NothingStranded, Registered, Evolves;
    var cause := if w.db.sessions[s].current == 0 then SessionStart else SessionRestart;
    IdleUnlessActive(w, s);
    NewRunSound(w, s, NewRun(cause, None, now, None, 0));
  }

  function RetryOfRun(failed: Run, k: RunId, now: Time): Run {
    NewRun(ManualRetry, None, now, Some(RetryOf(failed, k)), failed.retryAttempt + 1)
  }

  lemma RetryInsertable(w: World, s: SessionId, k: RunId, now: Time)
    requires WorldInv(w) && Open(w) && Retryable(w, s, k)
    ensures Insertable(w.db, s, RetryOfRun(w.db.runs[RunKey(s, k)], k, now))
  {
    hide DbInv, Agrees, NothingStranded, Registered;
    IdleUnlessActive(w, s);
    RetryCount(w.db, RunKey(s, k));
    PositiveIds(w.db);
    hide Idle;
  }

  lemma RetryRunSound(w: World, s: SessionId, k: RunId, now: Time)
    requires WorldInv(w) && Open(w) && Retryable(w, s, k)
    ensures Sound(w, Step(w, RetryRun(s, k, now, Commit)))
  {
    hide WorldInv, Evolves, Sound;
    RetryInsertable(w, s, k, now);
    NewRunSound(w, s, RetryOfRun(w.db.runs[RunKey(s, k)], k, now));
    hide Insertable, InsertRun;
  }

  lemma RetryCount(db: Db, key: RunKey)
    requires DbInv(db) && key in db.runs
    ensures 0 <= db.runs[key].retryAttempt
  {
    hide Numbered, Shaped, EventTable, LogTable, QueueTable, Conserved, BatchesStored, Accounted, Written;
    assert RetryShape(db, key);
  }

  // The Events and the log change; Sessions, Runs and queues do not.
  lemma LoggedSound(w: World, row: LogRow)
    requires WorldInv(w) && Removable(w.db, row) && row.outcome != Fired
    ensures var db := Logged(w.db, row); Sound(w, Install(w, db, LogTargets(Since(db.log, |w.db.log|))))
  {
    hide DbInv, Agrees, RowsOf, Registered, NothingStranded, Evolves, LogTargets, LogShape, EventTable, Covers;
    var db := Logged(w.db, row);
    var targets := LogTargets(Since(db.log, |w.db.log|));
    LoggedInv(w.db, row);
    LogAligned(Since(db.log, |w.db.log|));
    LogCovers(w.db, db, targets);
    InstallInv(w, db, targets);
    RegistryFrame(w, db, w.files, w.damaged);
    StagedRegistry(w.(db := db), targets);
    EventIds(w.db);
    LoggedEvolves(w.db, row);
    StagedEvolves(w.db, db, targets);
    hide StageIndex, StageFiles;
  }

  lemma LoggedEvolves(db: Db, row: LogRow)
    requires EventTable(db) && row.event in db.events
    ensures Evolves(db, Logged(db, row))
  {
    hide EventTable, KnownIn;
    LoggedKnown(db, row);
  }

  // Deleting an Event that is there.
  lemma DeleteSound(w: World, row: EventRow, outcome: Outcome, run: Option<RunId>, now: Time)
    requires WorldInv(w) && row in w.db.events && outcome != Fired && outcome != Expired
    requires run.Some? ==> RunKey(row.owner, run.value) in w.db.runs
    ensures var db := RemoveRecord(w.db, row, outcome, run, None, now);
      Sound(w, Install(w, db, LogTargets(Since(db.log, |w.db.log|))))
  {
    hide DbInv, Agrees, Registered, NothingStranded, Evolves, Install, LogTargets;
    OwnerOf(w.db, row);
    LoggedSound(w, LogRow(row, outcome, run, None, now));
  }

  lemma DeleteByAgentSound(w: World, s: SessionId, k: RunId, event: EventId, now: Time)
    requires WorldInv(w) && Open(w) && IsRunning(w.db, s, k)
    ensures Sound(w, Step(w, DeleteByAgent(s, k, event, now, Commit)))
  {
    hide WorldInv, Sound, Evolves, Install, LogTargets, RemoveRecord, Find;
    Unchanged(w);
    var found := Find(w.db.events, event, s);
    if found.Some? {
      DeleteSound(w, found.value, DeletedByAgent, Some(k), now);
    }
  }

  lemma DeleteByUserSound(w: World, s: SessionId, event: EventId, now: Time)
    requires WorldInv(w) && Open(w)
    ensures Sound(w, Step(w, DeleteByUser(s, event, now, Commit)))
  {
    hide WorldInv, Sound, Evolves, Install, LogTargets, RemoveRecord, Find;
    Unchanged(w);
    var found := Find(w.db.events, event, s);
    if found.Some? {
      DeleteSound(w, found.value, DeletedByUser, None, now);
    }
  }

  lemma InsertDistinct(events: seq<EventRow>, e: EventRow)
    requires Distinct(events) && forall x | x in events :: x.id != e.id
    ensures Distinct(InsertEvent(events, e))
  {
    if events != [] {
      var n := |events| - 1;
      assert events[n] in events;
      if Before(e, events[n]) {
        InsertDistinct(events[..n], e);
        var d := InsertEvent(events[..n], e);
        assert forall i | 0 <= i < |d| :: d[i] in d;
        assert forall x | x in events[..n] :: x.id != events[n].id;
      }
    }
  }

  lemma CreateEventTables(db: Db, row: EventRow)
    requires EventTable(db) && LogTable(db) && !UsedId(db, row.id)
    requires SessionIs(db, row.owner, SessionRunning) && RunKey(row.owner, row.createdRun) in db.runs
    ensures var db' := db.(events := InsertEvent(db.events, row)); EventTable(db') && LogTable(db')
  {
    var db' := db.(events := InsertEvent(db.events, row));
    InsertDistinct(db.events, row);
    hide Distinct;
    forall x | x in db'.log ensures LogShape(db', x) {
      SameLogShape(db, db', x);
    }
  }

  lemma CreateEventDb(db: Db, row: EventRow)
    requires DbInv(db) && IsRunning(db, row.owner, row.createdRun) && !UsedId(db, row.id)
    ensures DbInv(db.(events := InsertEvent(db.events, row)))
  {
    var db' := db.(events := InsertEvent(db.events, row));
    RunningSession(db, row.owner, row.createdRun);
    hide Numbered, Shaped, Retries, EventTable, LogTable, QueueTable, Conserved, BatchesStored, Accounted, Written, UsedId;
    CreateEventTables(db, row);
    FrameRuns(db, db');
    FrameQueue(db, db');
    FrameConserved(db, db');
    FrameWritten(db, db');
  }

  lemma RunningSession(db: Db, s: SessionId, k: RunId)
    requires DbInv(db) && IsRunning(db, s, k)
    ensures SessionIs(db, s, SessionRunning) && db.sessions[s].current == k && k >= 1
  {
    hide Shaped, Retries, EventTable, LogTable, QueueTable, Conserved, BatchesStored, Accounted, Written;
  }

  // A write that leaves Sessions, Runs, queues, log and memories alone.
  lemma QuietSound(w: World, db: Db)
    requires WorldInv(w) && DbInv(db)
    requires db.sessions == w.db.sessions && db.runs == w.db.runs && db.pending == w.db.pending
    requires db.log == w.db.log && db.memories == w.db.memories && db.index == w.db.index
    requires EventsEvolve(w.db, db)
    requires db.arrived == w.db.arrived && db.taken == w.db.taken
    requires ConversationsEvolve(w.db.conversations, db.conversations)
    ensures Sound(w, w.(db := db))
  {
    hide DbInv, Agrees, EventsEvolve;
    QuietViews(w.db, db);
    PlainAgrees(w.db, db, w.files, w.damaged);
    RegistryFrame(w, db, w.files, w.damaged);
    hide Registered, NothingStranded;
  }

  lemma CreateEventSound(w: World, row: EventRow)
    requires WorldInv(w) && IsRunning(w.db, row.owner, row.createdRun) && !UsedId(w.db, row.id)
    ensures Sound(w, w.(db := w.db.(events := InsertEvent(w.db.events, row))))
  {
    hide DbInv, Agrees, Registered, NothingStranded, UsedId;
    CreateEventDb(w.db, row);
    QuietSound(w, w.db.(events := InsertEvent(w.db.events, row)));
  }

  lemma SaveConversationDb(db: Db, s: SessionId, k: RunId, messages: seq<string>)
    requires DbInv(db) && IsRunning(db, s, k)
    ensures var db' := db.(conversations := db.conversations[s := Conversation(k, messages)]);
      DbInv(db') && ConversationsEvolve(db.conversations, db'.conversations)
  {
    hide Numbered, Shaped, Retries, EventTable, LogTable, QueueTable, Conserved, BatchesStored, Accounted;
    var db' := db.(conversations := db.conversations[s := Conversation(k, messages)]);
    RunningSession(db, s, k);
    assert Written(db');
    hide Written;
    FrameRuns(db, db');
    FrameEvents(db, db');
    FrameQueue(db, db');
    FrameConserved(db, db');
  }

  lemma SaveConversationSound(w: World, s: SessionId, k: RunId, messages: seq<string>)
    requires WorldInv(w) && IsRunning(w.db, s, k)
    ensures Sound(w, w.(db := w.db.(conversations := w.db.conversations[s := Conversation(k, messages)])))
  {
    hide DbInv, Agrees, Registered, NothingStranded;
    SaveConversationDb(w.db, s, k, messages);
    QuietSound(w, w.db.(conversations := w.db.conversations[s := Conversation(k, messages)]));
  }

  lemma SaveMemoryDb(db: Db, s: SessionId, k: RunId, memory: nat)
    requires DbInv(db) && IsRunning(db, s, k) && memory > 0
    ensures DbInv(db.(memories := db.memories + [MemoryRow(s, k, memory)]))
  {
    hide Numbered, Shaped, Retries, EventTable, LogTable, QueueTable, Conserved, BatchesStored, Accounted;
    var db' := db.(memories := db.memories + [MemoryRow(s, k, memory)]);
    assert Written(db');
    hide Written;
    FrameRuns(db, db');
    FrameEvents(db, db');
    FrameQueue(db, db');
    FrameConserved(db, db');
  }

  // A running Run has no view yet, so its memories are not mirrored yet.
  lemma SaveMemoryViews(db: Db, s: SessionId, k: RunId, memory: nat)
    requires IsRunning(db, s, k)
    ensures SameViews(db, db.(memories := db.memories + [MemoryRow(s, k, memory)]))
  {
    var db' := db.(memories := db.memories + [MemoryRow(s, k, memory)]);
    forall x, j ensures View(db, x, j) == View(db', x, j) {
      MemoriesOfAppend(db.memories, MemoryRow(s, k, memory), x, j);
      assert (x == s && j == k) || MemoriesOf(db'.memories, x, j) == MemoriesOf(db.memories, x, j);
    }
  }

  lemma SaveMemorySound(w: World, s: SessionId, k: RunId, memory: nat)
    requires WorldInv(w) && IsRunning(w.db, s, k) && memory > 0
    ensures Sound(w, w.(db := w.db.(memories := w.db.memories + [MemoryRow(s, k, memory)])))
  {
    hide DbInv, Agrees, SameViews, RowsOf;
    var db := w.db.(memories := w.db.memories + [MemoryRow(s, k, memory)]);
    SaveMemoryDb(w.db, s, k, memory);
    SaveMemoryViews(w.db, s, k, memory);
    PlainAgrees(w.db, db, w.files, w.damaged);
    RegistryFrame(w, db, w.files, w.damaged);
    hide Registered, NothingStranded;
  }

  lemma PutRunEvolves(db: Db, key: RunKey, run: Run)
    requires Rewrites(db, key, run)
    ensures Evolves(db, PutRun(db, key, run))
  {
    hide RunShape;
  }

  // A running Run rewritten without ending it.
  lemma PutRunSound(w: World, key: RunKey, run: Run)
    requires WorldInv(w) && Rewrites(w.db, key, run) && run.status == Running
    ensures Sound(w, w.(db := PutRun(w.db, key, run)))
  {
    hide DbInv, Agrees, RowsOf, RunShape;
    var db := PutRun(w.db, key, run);
    PutRunInv(w.db, key, run);
    QuietViews(w.db, db);
    hide SameViews;
    PlainAgrees(w.db, db, w.files, w.damaged);
    RegistryFrame(w, db, w.files, w.damaged);
    hide Registered, NothingStranded;
    PutRunEvolves(w.db, key, run);
  }

  lemma RunningShape(db: Db, s: SessionId, k: RunId)
    requires DbInv(db) && IsRunning(db, s, k)
    ensures RunShape(db.runs[RunKey(s, k)])
  {
    hide Numbered, Retries, EventTable, LogTable, QueueTable, Conserved, BatchesStored, Accounted, Written;
  }

  lemma ProgressSound(w: World, s: SessionId, k: RunId, modelCalls: nat, toolCalls: nat, progress: seq<string>)
    requires WorldInv(w)
    ensures Sound(w, Step(w, Progress(s, k, modelCalls, toolCalls, progress)))
  {
    hide DbInv, Agrees, Registered, NothingStranded;
    Unchanged(w);
    if IsRunning(w.db, s, k) {
      RunningShape(w.db, s, k);
      PutRunSound(w, RunKey(s, k),
        w.db.runs[RunKey(s, k)].(modelCalls := modelCalls, toolCalls := toolCalls, progress := progress));
    }
  }

  lemma InitialContextSound(w: World, s: SessionId, k: RunId, context: string)
    requires WorldInv(w)
    ensures Sound(w, Step(w, InitialContext(s, k, context)))
  {
    hide DbInv, Agrees, Registered, NothingStranded;
    Unchanged(w);
    if IsRunning(w.db, s, k) {
      RunningShape(w.db, s, k);
      PutRunSound(w, RunKey(s, k), w.db.runs[RunKey(s, k)].(initialContext := Some(context)));
    }
  }

  // ---------------------------------------------------------------------------------------------
  // Ending Runs
  // ---------------------------------------------------------------------------------------------

  lemma EndRunCovers(db: Db, key: RunKey, e: Ending, now: Time, targets: set<ShardKey>)
    requires key in db.runs && db.runs[key].status == Running && KeyOf(key.session, key.id) in targets
    ensures Covers(db, EndRun(db, key, e, now), targets)
  {
    var db' := EndRun(db, key, e, now);
    forall s, k | k >= 1 && View(db, s, k) != View(db', s, k) ensures KeyOf(s, k) in targets {
      assert RunKey(s, k) == key;
    }
  }

  lemma EndRunEvolves(db: Db, key: RunKey, e: Ending, now: Time)
    requires key in db.runs && db.runs[key].status == Running
    ensures Evolves(db, EndRun(db, key, e, now))
  {
  }

  lemma EndSound(w: World, s: SessionId, k: RunId, ending: Ending, now: Time)
    requires WorldInv(w) && IsRunning(w.db, s, k) && ValidEnding(ending)
    ensures var w' := Install(w, EndRun(w.db, RunKey(s, k), ending, now), RunTargets(w.db, s, k));
      Sound(w, w') && !IsRunning(w'.db, s, k)
  {
    hide DbInv, Agrees, RunTargets, Registered, NothingStranded, Evolves, Covers, Aligned;
    var key := RunKey(s, k);
    var db := EndRun(w.db, key, ending, now);
    var targets := RunTargets(w.db, s, k);
    EndRunInv(w.db, key, ending, now);
    OwnTarget(w.db, s, k);
    RunAligned(w.db, s, k);
    EndRunCovers(w.db, key, ending, now, targets);
    InstallInv(w, db, targets);
    EndRunEvolves(w.db, key, ending, now);
    StagedEvolves(w.db, db, targets);
    FinishRegistry(w, key, ending, now, targets);
    hide StageIndex, StageFiles;
  }

  lemma FinishSound(w: World, s: SessionId, k: RunId, ending: Ending, now: Time, fate: Fate)
    requires WorldInv(w)
    ensures Sound(w, Finish(w, s, k, ending, now, fate))
    ensures fate == Commit && ValidEnding(ending) && ending.status != Completed ==>
      !IsRunning(Finish(w, s, k, ending, now, fate).db, s, k)
  {
    hide WorldInv, Sound, RunTargets, Install, EndRun, Stuck, Latch;
    Unchanged(w);
    if IsRunning(w.db, s, k) && ValidEnding(ending) {
      EndSound(w, s, k, ending, now);
      if fate != Commit {
        StuckSound(w, EndRun(w.db, RunKey(s, k), ending, now), RunTargets(w.db, s, k), fate.left);
      }
    }
  }

  lemma OwnTarget(db: Db, s: SessionId, k: RunId)
    ensures KeyOf(s, k) in RunTargets(db, s, k)
  {
  }

  lemma FinishRegistry(w: World, key: RunKey, e: Ending, now: Time, targets: set<ShardKey>)
    requires Registered(w) && NothingStranded(w) && key in w.db.runs && e.status != Running
    ensures var w' := Install(w, EndRun(w.db, key, e, now), targets);
      Registered(w') && NothingStranded(w') && !IsRunning(w'.db, key.session, key.id)
  {
    hide RowsOf, Staged;
    var w' := Install(w, EndRun(w.db, key, e, now), targets);
    RegistryFrame(w, w'.db, w'.files, w'.damaged);
  }

  // ---------------------------------------------------------------------------------------------
  // Leaving, stopping, shutting down
  // ---------------------------------------------------------------------------------------------

  lemma NoneStranded(w: World, excused: set<SessionId>)
    requires NothingStranded(w)
    ensures StrandedOnly(w, excused)
  {
    hide RowsOf;
  }

  // The registry after a goroutine left, before its Session is dispatched again.
  lemma LeftRegistry(w: World, s: SessionId)
    requires Registered(w) && NothingStranded(w) && MayLeave(w, s)
    ensures var left := w.(active := w.active - {s});
      && Registered(left) && StrandedOnly(left, {s}) && NothingStranded(Latch(left))
      && ((Open(left) && HasPending(left.db, s)) || NothingStranded(left))
  {
    hide RowsOf;
    var left := w.(active := w.active - {s});
    assert Open(left) && !HasPending(left.db, s) && SessionIs(left.db, s, SessionRunning) ==>
      RowsOf(left.db.pending, s) == [];
  }

  lemma LatchRegistry(w: World)
    requires Registered(w)
    ensures Registered(Latch(w)) && NothingStranded(Latch(w))
  {
    hide RowsOf;
  }

  // The next batch of a Session whose goroutine has just left.
  lemma NextBatchSound(left: World, s: SessionId, now: Time)
    requires DbInv(left.db) && Agrees(left.db, left.files, left.damaged) && Registered(left) && StrandedOnly(left, {s})
    requires Open(left) && HasPending(left.db, s) && s !in left.active
    ensures Sound(left, Launch(left.(db := StartPending(left.db, s, now)), map[s := left.db.sessions[s].current + 1]))
  {
    hide DbInv, Agrees, RowsOf, DeleteIds, FirstIds, Registered, NothingStranded, StrandedOnly, StartPending, Launched, Evolves;
    IdleUnlessActive(left, s);
    StartPendingInv(left.db, s, now);
    StartPendingLaunches(left.db, s, now);
    var launches := map[s := left.db.sessions[s].current + 1];
    assert launches.Keys == {s};
    PlainLaunch(left, StartPending(left.db, s, now), launches);
  }

  lemma LeaveRunSound(w: World, s: SessionId, now: Time, fate: Fate)
    requires WorldInv(w)
    ensures Sound(w, Step(w, LeaveRun(s, now, fate)))
  {
    hide DbInv, Agrees, Registered, NothingStranded, StrandedOnly, StartPending, HasPending, Evolves;
    Unchanged(w);
    if MayLeave(w, s) {
      var left := w.(active := w.active - {s});
      LeftRegistry(w, s);
      LatchRegistry(left);
      if Open(left) && HasPending(left.db, s) {
        NextBatchSound(left, s, now);
      }
    }
  }

  function Cleared(db: Db, s: SessionId): set<ShardKey>
    requires s in db.sessions
  {
    if SessionIs(db, s, SessionRunning) then ClearanceTargets(db, s) else {}
  }

  lemma ClearedLog(db: Db, s: SessionId, outcome: Outcome, now: Time)
    requires EventTable(db) && s in db.sessions
    ensures LogTargets(LogRows(OwnedRows(db.events, s), outcome, now)) <= Cleared(db, s)
  {
    hide Distinct;
    var rows := OwnedRows(db.events, s);
    var logged := LogRows(rows, outcome, now);
    forall r | r in logged ensures r.outcomeRun.None? && KeyOf(r.event.owner, r.event.createdRun) in Cleared(db, s) {
      var i :| 0 <= i < |rows| && logged[i] == r;
      assert rows[i] in rows;
    }
  }

  lemma ChangeCovers(db: Db, db': Db, s: SessionId, deleting: bool, now: Time)
    requires EventTable(db) && s in db.sessions && ChangeEffect(db, db', s, deleting, now)
    ensures Covers(db, db', Cleared(db, s))
  {
    hide EventTable, RowsOf, Queue, Covers, LogTargets, LogRows, KnownIn;
    var outcome := if deleting then ClearedByDelete else ClearedByStop;
    ClearedLog(db, s, outcome, now);
    assert Since(db'.log, |db.log|) == LogRows(OwnedRows(db.events, s), outcome, now);
    forall x, k ensures SameTerminal(db, db', x, k) || KeyOf(x, k) in Cleared(db, s) {
    }
    LogCovers(db, db', Cleared(db, s));
  }

  lemma ChangeEvolves(db: Db, db': Db, s: SessionId, deleting: bool, now: Time)
    requires s in db.sessions && s in db.taken && ChangeEffect(db, db', s, deleting, now)
    requires deleting || db.sessions[s].status != SessionDeleted
    ensures Evolves(db, db')
  {
    hide RowsOf, Queue, LogRows, KnownIn, OwnedRows;
  }

  // The active entry of the Session, if any, is canceled.
  function CancelOne(w: World, s: SessionId): World {
    if s in w.active then w.(active := w.active[s := w.active[s].(canceled := true)]) else w
  }

  lemma ChangeRuns(db: Db, db': Db, s: SessionId, deleting: bool, now: Time)
    requires s in db.sessions && Idle(db', s) && ChangeEffect(db, db', s, deleting, now)
    ensures forall x, k | IsRunning(db', x, k) :: x != s && IsRunning(db, x, k)
    ensures forall x | SessionIs(db', x, SessionRunning) :: x != s && SessionIs(db, x, SessionRunning)
    ensures forall x | x != s :: RowsOf(db'.pending, x) == RowsOf(db.pending, x)
    ensures db'.sessions.Keys == db.sessions.Keys
    ensures forall x | x in db.sessions :: db'.sessions[x].current == db.sessions[x].current
  {
    hide RowsOf, Queue, LogRows, KnownIn, OwnedRows, TakenOf;
    forall x, k | IsRunning(db', x, k) ensures x != s && IsRunning(db, x, k) {
      assert !IsRunning(db', s, k);
    }
  }

  lemma ChangeRegistry(w: World, db: Db, s: SessionId, deleting: bool, now: Time)
    requires Registered(w) && NothingStranded(w) && s in w.db.sessions && Idle(db, s)
    requires ChangeEffect(w.db, db, s, deleting, now)
    ensures var w' := CancelOne(w.(db := db), s); Registered(w') && NothingStranded(w')
  {
    hide RowsOf, ChangeEffect, Idle;
    ChangeRuns(w.db, db, s, deleting, now);
    assert s !in w.active || !IsRunning(db, s, w.active[s].run);
  }

  lemma ChangeSessionSound(w: World, s: SessionId, deleting: bool, now: Time)
    requires WorldInv(w) && Open(w) && s in w.db.sessions && (deleting || !SessionIs(w.db, s, SessionDeleted))
    ensures Sound(w, Step(w, ChangeSession(s, deleting, now, Commit)))
  {
    hide WorldInv, Sound, Evolves, ChangeState, ClearanceTargets, StageIndex, StageFiles;
    ChangeCommit(w, s, deleting, now);
  }

  lemma ChangeCommit(w: World, s: SessionId, deleting: bool, now: Time)
    requires WorldInv(w) && Open(w) && s in w.db.sessions && (deleting || !SessionIs(w.db, s, SessionDeleted))
    ensures Sound(w, CancelOne(Install(w, ChangeState(w.db, s, deleting, now), Cleared(w.db, s)), s))
  {
    hide DbInv, Agrees, Registered, NothingStranded, EventTable, ChangeState, ClearanceTargets, Evolves, ChangeEffect, Idle;
    hide RowsOf, Covers;
    var db := ChangeState(w.db, s, deleting, now);
    var targets := Cleared(w.db, s);
    ClearanceAligned(w.db, s);
    hide Cleared;
    ChangeStateInv(w.db, s, deleting, now);
    ChangeStateEffect(w.db, s, deleting, now);
    assert db.index == w.db.index by { ChangeIndex(w.db, db, s, deleting, now); }
    EventIds(w.db);
    SessionLogged(w.db, s);
    ChangeCovers(w.db, db, s, deleting, now);
    InstallInv(w, db, targets);
    ChangeEvolves(w.db, db, s, deleting, now);
    StagedEvolves(w.db, db, targets);
    ChangeRegistry(w, db, s, deleting, now);
    hide Quiet;
    StagedRegistry(CancelOne(w.(db := db), s), targets);
    hide StageIndex, StageFiles;
  }

  lemma ChangeIndex(db: Db, db': Db, s: SessionId, deleting: bool, now: Time)
    requires s in db.sessions && ChangeEffect(db, db', s, deleting, now)
    ensures db'.index == db.index
  {
  }
}
