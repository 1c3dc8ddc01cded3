/**
  The Agent Runtime: the object whose methods are the server's critical sections. Each method is
  proved to take exactly the step of the state machine in module World, so that every invariant and
  every theorem about runs holds of it.
 */
module Runtime {
  import opened Prelude
  import opened Matchers
  import opened Tables
  import opened Transactions
  import opened History
  import opened Invariants
  import opened Preservation
  import opened World
  import opened Staging
  import opened Safety
  import opened Rounds
  import opened Statements
  import opened Restarts
  import opened Behaviours

  // What may go wrong in one transaction: shard I/O, also while undoing it, a refused commit, a canceled
  // request.
  datatype Weather = Weather(io: Io, commits: bool, canceled: bool)

  class AgentRuntime {
    var db: Db
    const directory: Directory
    var active: map<SessionId, ActiveRun>
    var closed: bool
    var fault: bool
    ghost var damaged: set<ShardKey>

    ghost function State(): World
      reads this, directory
    {
      World(db, directory.files, active, closed, fault, damaged)
    }

    ghost predicate Valid()
      reads this, directory
    {
      !directory.locked && WorldInv(State())
    }

    // A new server over an empty database.
    constructor ()
      ensures Valid() && fresh(directory) && State() == INITIAL
    {
      db, active, closed, fault, damaged := EMPTY_DB, map[], false, false, {};
      directory := new Directory(map[]);
      new;
      InitialInv();
    }

    // A server over a recovered database; nothing is active until its Runs are launched.
    constructor Resume(db: Db, directory: Directory, launches: map<SessionId, RunId>)
      requires !directory.locked
      ensures this.directory == directory
      ensures State() == Launch(World(db, directory.files, map[], false, false, {}), launches)
    {
      this.db, this.directory, closed, fault, damaged := db, directory, false, false, {};
      active := map[] + map s | s in launches :: ActiveRun(launches[s], false);
    }

    // -------------------------------------------------------------------------------------------
    // Transactions
    // -------------------------------------------------------------------------------------------

    method LatchPersistenceFault()
      requires !directory.locked
      modifies this
      ensures State() == Latch(old(State())) && !directory.locked
    {
      fault := true;
      active := CancelAll(active);
    }

    // A failed transaction latches the fault unless the caller's own request was canceled; then a shard
    // that could not be restored goes unnoticed.
    method Fail(weather: Weather, ghost left: set<ShardKey>) returns (ghost fate: Fate)
      requires !directory.locked
      modifies this
      ensures fate == (if weather.canceled then Canceled(left) else Fault(left))
      ensures State() == Aborted(old(State()), fate) && !directory.locked
    {
      fate := if weather.canceled then Canceled(left) else Fault(left);
      if !weather.canceled {
        LatchPersistenceFault();
      }
    }

    // Commits a candidate with its history shards, or leaves no trace but the shards it could not restore.
    method CommitStaged(candidate: Db, targets: seq<ShardKey>, weather: Weather)
      returns (ok: bool, staged: bool, restored: bool, ghost left: set<ShardKey>)
      requires !directory.locked
      modifies this, directory
      ensures !directory.locked
      ensures staged <==> Staged(candidate, TargetSet(targets)) !! Broken(weather.io)
      ensures ok <==> weather.commits && staged
      ensures State() == if ok then Install(old(State()), candidate, TargetSet(targets)) else Stuck(old(State()), candidate, TargetSet(targets), left)
      ensures !ok ==> left <= Staged(candidate, TargetSet(targets)) * weather.io.stuck
      ensures !ok && staged ==> left == Staged(candidate, TargetSet(targets)) * weather.io.stuck && (restored <==> left == {})
    {
      hide Staged, Project, Overwritten;
      var next;
      ok, next, staged, restored, left := Transact(directory, db, candidate, targets, weather.io, weather.commits);
      db := next;
      ghost var keys := Staged(candidate, TargetSet(targets));
      damaged := if ok then damaged - keys else damaged + left;
      assert !ok ==> left * keys == left;
    }

    // -------------------------------------------------------------------------------------------
    // Sessions
    // -------------------------------------------------------------------------------------------

    /** createSession, past the validation of its request */
    method CreateSession(s: SessionId, weather: Weather) returns (ok: bool, ghost fate: Fate)
      requires Valid()
      modifies this
      ensures Valid() && Evolves(old(db), db)
      ensures State() == Step(old(State()), Action.CreateSession(s, fate))
      ensures ok <==> fate == Commit
      ensures !ok ==> fate == if weather.canceled then Canceled({}) else Fault({})
    {
      hide WorldInv, Evolves;
      ghost var before := State();
      ok, fate := true, Commit;
      if !closed && !fault && s !in db.sessions {
        if !weather.commits {
          ok := false;
          fate := Fail(weather, {});
        } else {
          db := db.(sessions := db.sessions[s := Session(SessionStopped, 0, None)],
                    arrived := db.arrived[s := []], taken := db.taken[s := []]);
        }
      }
      StepSound(before, Action.CreateSession(s, fate));
    }

    /** startSession */
    method StartSession(s: SessionId, now: Time, weather: Weather) returns (ok: bool, ghost fate: Fate)
      requires Valid()
      modifies this
      ensures Valid() && Evolves(old(db), db)
      ensures State() == Step(old(State()), Action.StartSession(s, now, fate))
      ensures ok <==> fate == Commit
      ensures !ok ==> fate == if weather.canceled then Canceled({}) else Fault({})
    {
      hide WorldInv, Evolves;
      ghost var before := State();
      ok, fate := true, Commit;
      if !closed && !fault && s in db.sessions && db.sessions[s].status == SessionStopped && s !in active {
        if !weather.commits {
          ok := false;
          fate := Fail(weather, {});
        } else {
          var session := db.sessions[s];
          var k := session.current + 1;
          var cause := if session.current != 0 then SessionRestart else SessionStart;
          var tx := db.(sessions := db.sessions[s := session.(status := SessionRunning, current := k)]);
          tx := tx.(runs := tx.runs[RunKey(s, k) := NewRun(cause, None, now, None, 0)]);
          assert tx == InsertRun(db, s, NewRun(cause, None, now, None, 0));
          db := tx;
          active := active[s := ActiveRun(k, false)];
          Registers(before, s, k);
        }
      }
      hide InsertRun, Latch;
      StepSound(before, Action.StartSession(s, now, fate));
    }

    /** retryRun */
    method RetryRun(s: SessionId, k: RunId, now: Time, weather: Weather) returns (ok: bool, ghost fate: Fate)
      requires Valid()
      modifies this
      ensures Valid() && Evolves(old(db), db)
      ensures State() == Step(old(State()), Action.RetryRun(s, k, now, fate))
      ensures ok <==> fate == Commit
      ensures !ok ==> fate == if weather.canceled then Canceled({}) else Fault({})
    {
      hide WorldInv, Evolves, InsertRun, Launch, Latch;
      ghost var before := State();
      ok, fate := true, Commit;
      if !closed && !fault && s !in active && SessionIs(db, s, SessionRunning) && RunKey(s, k) in db.runs {
        var failed := db.runs[RunKey(s, k)];
        if failed.status == RunStatus.Failed && db.sessions[s].current == k && failed.retryAttempt < MAX_MANUAL_RETRIES {
          if !weather.commits {
            ok := false;
            fate := Fail(weather, {});
          } else {
            var retryOf := if failed.retryOf.Some? then failed.retryOf.value else k;
            var run := NewRun(ManualRetry, None, now, Some(retryOf), failed.retryAttempt + 1);
            var tx := db.(runs := db.runs[RunKey(s, k + 1) := run]);
            tx := tx.(sessions := tx.sessions[s := tx.sessions[s].(current := k + 1)]);
            Bumps(db, s, run);
            db := tx;
            active := active[s := ActiveRun(k + 1, false)];
            Registers(before.(db := db), s, k + 1);
          }
        }
      }
      StepSound(before, Action.RetryRun(s, k, now, fate));
    }

    /** changeSessionState: stop, or delete */
    method ChangeSessionState(s: SessionId, deleting: bool, now: Time, weather: Weather) returns (ok: bool, ghost fate: Fate)
      requires Valid()
      modifies this, directory
      ensures Valid() && Evolves(old(db), db)
      ensures State() == Step(old(State()), Action.ChangeSession(s, deleting, now, fate))
      ensures ok <==> fate == Commit
      ensures !ok ==> (fate.Canceled? ==> weather.canceled) && fate.left <= weather.io.stuck
    {
      hide Evolves, DbInv, Agrees, Registered, NothingStranded, StageIndex, StageFiles, ClearanceTargets, TargetSet, ChangeState, Stuck, Staged;
      ghost var before := State();
      ok, fate := true, Commit;
      if !closed && !fault && s in db.sessions && (deleting || db.sessions[s].status != SessionDeleted) {
        var targets := ClearedTargets(db, s);
        var tx := ClearAndEnd(db, s, deleting, now);
        var staged, restored;
        ghost var left;
        ok, staged, restored, left := CommitStaged(tx, targets, weather);
        if !ok && staged && !restored {
          LatchPersistenceFault();
          fate := Fault(left);
        } else if !ok {
          fate := Fail(weather, left);
        } else if s in active {
          active := active[s := active[s].(canceled := true)];
        }
      }
      hide WorldInv, Latch;
      StepSound(before, Action.ChangeSession(s, deleting, now, fate));
    }

    // -------------------------------------------------------------------------------------------
    // Events
    // -------------------------------------------------------------------------------------------

    /** eventToolTransaction around CreateForRun */
    method CreateEvent(row: EventRow, weather: Weather) returns (ok: bool, ghost fate: Fate)
      requires Valid()
      modifies this
      ensures Valid() && Evolves(old(db), db)
      ensures State() == Step(old(State()), Action.CreateEvent(row, fate))
      ensures ok <==> fate == Commit
      ensures !ok ==> fate == Fault({})
    {
      hide WorldInv, Evolves, UsedId;
      ghost var before := State();
      ok, fate := true, Commit;
      if !closed && !fault && IsRunning(db, row.owner, row.createdRun) && !UsedId(db, row.id) {
        if !weather.commits {
          LatchPersistenceFault();
          ok, fate := false, Fault({});
        } else if |OwnedRows(db.events, row.owner)| < MAX_ACTIVE_EVENTS {
          db := db.(events := InsertEvent(db.events, row.(memo := Nothing)));
        }
      }
      StepSound(before, Action.CreateEvent(row, fate));
    }

    /** eventToolTransaction around the deletion tool */
    method DeleteEventByAgent(s: SessionId, k: RunId, event: EventId, now: Time, weather: Weather) returns (ok: bool, ghost fate: Fate)
      requires Valid()
      modifies this, directory
      ensures Valid() && Evolves(old(db), db)
      ensures State() == Step(old(State()), Action.DeleteByAgent(s, k, event, now, fate))
      ensures ok <==> fate == Commit
      ensures !ok ==> fate.Fault? && fate.left <= weather.io.stuck
    {
      hide Evolves, DbInv, Agrees, Registered, NothingStranded, Install, Stuck, LogTargets, Affected;
      ghost var before := State();
      ok, fate := true, Commit;
      if !closed && !fault && IsRunning(db, s, k) {
        var found := Find(db.events, event, s);
        if found.None? {
          if !weather.commits {
            LatchPersistenceFault();
            ok, fate := false, Fault({});
          }
        } else {
          OneRow(db, found.value);
          ghost var left;
          ok, left := RemoveStaged(found.value, DeletedByAgent, Some(k), now, weather);
          if !ok {
            LatchPersistenceFault();
            fate := Fault(left);
          }
        }
      }
      hide WorldInv;
      StepSound(before, Action.DeleteByAgent(s, k, event, now, fate));
    }

    // Removes an active Event and stages the shards of its log row.
    method RemoveStaged(row: EventRow, outcome: Outcome, run: Option<RunId>, now: Time, weather: Weather)
      returns (ok: bool, ghost left: set<ShardKey>)
      requires !directory.locked && Affected(db.events, row.id) == 1
      modifies this, directory
      ensures !directory.locked && (!ok ==> left <= weather.io.stuck)
      ensures var removed := RemoveRecord(old(db), row, outcome, run, None, now);
        var targets := LogTargets(Since(removed.log, |old(db).log|));
        State() == if ok then Install(old(State()), removed, targets) else Stuck(old(State()), removed, targets, left)
    {
      hide Install, Stuck, LogTargets, Affected;
      var after := |db.log|;
      var removed, tx := RemoveRecordTx(db, row, outcome, run, None, now);
      var targets := TargetsSince(tx.log, after);
      var staged, restored;
      ok, staged, restored, left := CommitStaged(tx, targets, weather);
    }

    /** deleteEventByUser */
    method DeleteEventByUser(s: SessionId, event: EventId, now: Time, weather: Weather) returns (ok: bool, ghost fate: Fate)
      requires Valid()
      modifies this, directory
      ensures Valid() && Evolves(old(db), db)
      ensures State() == Step(old(State()), Action.DeleteByUser(s, event, now, fate))
      ensures ok <==> fate == Commit
      ensures !ok ==> (fate.Canceled? <==> weather.canceled) && fate.left <= weather.io.stuck
    {
      hide Evolves, DbInv, Agrees, Registered, NothingStranded, Install, Stuck, LogTargets, Affected;
      ghost var before := State();
      ok, fate := true, Commit;
      if !closed && !fault && s in db.sessions {
        var found := Find(db.events, event, s);
        if found.Some? {
          OneRow(db, found.value);
          ghost var left;
          ok, left := RemoveStaged(found.value, DeletedByUser, None, now, weather);
          if !ok {
            fate := Fail(weather, left);
          }
        }
      }
      hide WorldInv;
      StepSound(before, Action.DeleteByUser(s, event, now, fate));
    }

    /** dispatchEventRound: claim, admit, stage, commit, launch */
    method DispatchEventRound(claim: Claim, now: Time, weather: Weather) returns (ok: bool, ghost fate: Fate)
      requires Valid()
      modifies this, directory
      ensures Valid() && Evolves(old(db), db)
      ensures State() == Step(old(State()), Action.Round(claim, now, fate))
      ensures ok <==> fate == Commit
      ensures !ok ==> (fate.Canceled? <==> weather.canceled) && fate.left <= weather.io.stuck
    {
      hide Evolves, DbInv, Agrees, Registered, NothingStranded, LogTargets, ClaimOf, AdmitFrom, StageIndex, StageFiles;
      ghost var before := State();
      ok, fate := true, Commit;
      if !closed && !fault {
        var after := |db.log|;
        var claimed, fired := ClaimRound(db, claim, active.Keys, now);
        var tx, launches := AdmitTx(claimed, fired, active.Keys, now);
        var targets := TargetsSince(tx.log, after);
        var staged, restored;
        ghost var left;
        ok, staged, restored, left := CommitStaged(tx, targets, weather);
        if !ok {
          fate := Fail(weather, left);
        } else {
          active := active + map s | s in launches :: ActiveRun(launches[s], false);
        }
      }
      hide WorldInv;
      StepSound(before, Action.Round(claim, now, fate));
    }

    // -------------------------------------------------------------------------------------------
    // Runs
    // -------------------------------------------------------------------------------------------

    /** updateRunProgress */
    method UpdateProgress(s: SessionId, k: RunId, modelCalls: nat, toolCalls: nat, progress: seq<string>) returns (updated: bool)
      requires Valid()
      modifies this
      ensures Valid() && Evolves(old(db), db)
      ensures State() == Step(old(State()), Action.Progress(s, k, modelCalls, toolCalls, progress))
      ensures updated <==> IsRunning(old(db), s, k)
    {
      hide WorldInv, Evolves;
      ghost var before := State();
      updated := IsRunning(db, s, k);
      if updated {
        var run := db.runs[RunKey(s, k)].(modelCalls := modelCalls, toolCalls := toolCalls, progress := progress);
        db := db.(runs := db.runs[RunKey(s, k) := run]);
      }
      StepSound(before, Action.Progress(s, k, modelCalls, toolCalls, progress));
    }

    /** persistInitialContext: once per Run */
    method PersistInitialContext(s: SessionId, k: RunId, context: string) returns (updated: bool)
      requires Valid()
      modifies this
      ensures Valid() && Evolves(old(db), db)
      ensures State() == Step(old(State()), Action.InitialContext(s, k, context))
      ensures updated <==> IsRunning(old(db), s, k) && old(db).runs[RunKey(s, k)].initialContext.None?
    {
      hide WorldInv, Evolves;
      ghost var before := State();
      updated := IsRunning(db, s, k) && db.runs[RunKey(s, k)].initialContext.None?;
      if updated {
        db := db.(runs := db.runs[RunKey(s, k) := db.runs[RunKey(s, k)].(initialContext := Some(context))]);
      }
      StepSound(before, Action.InitialContext(s, k, context));
    }

    /** saveConversation */
    method SaveConversation(s: SessionId, k: RunId, messages: seq<string>) returns (updated: bool)
      requires Valid()
      modifies this
      ensures Valid() && Evolves(old(db), db)
      ensures State() == Step(old(State()), Action.SaveConversation(s, k, messages))
      ensures updated <==> IsRunning(old(db), s, k)
    {
      hide WorldInv, Evolves;
      ghost var before := State();
      updated := IsRunning(db, s, k);
      if updated {
        db := db.(conversations := db.conversations[s := Conversation(k, messages)]);
      }
      StepSound(before, Action.SaveConversation(s, k, messages));
    }

    /** memoryWrite */
    method SaveMemory(s: SessionId, k: RunId, memory: nat, weather: Weather) returns (ok: bool, ghost fate: Fate)
      requires Valid()
      modifies this
      ensures Valid() && Evolves(old(db), db)
      ensures State() == Step(old(State()), Action.SaveMemory(s, k, memory, fate))
      ensures ok <==> fate == Commit
      ensures !ok ==> fate == Fault({})
    {
      hide WorldInv, Evolves;
      ghost var before := State();
      ok, fate := true, Commit;
      if !closed && !fault && IsRunning(db, s, k) && memory > 0 {
        if weather.commits {
          db := db.(memories := db.memories + [MemoryRow(s, k, memory)]);
        } else {
          LatchPersistenceFault();
          ok, fate := false, Fault({});
        }
      }
      StepSound(before, Action.SaveMemory(s, k, memory, fate));
    }

    // persistTerminalRunLocked, for a Run that is still running.
    method PersistTerminal(s: SessionId, k: RunId, ending: Ending, now: Time, weather: Weather)
      returns (ok: bool, ghost left: set<ShardKey>)
      requires Valid() && ValidEnding(ending)
      modifies this, directory
      ensures !directory.locked && (!ok ==> left <= weather.io.stuck)
      ensures State() == if !IsRunning(old(db), s, k) then old(State())
        else if ok then Install(old(State()), EndRun(old(db), RunKey(s, k), ending, now), RunTargets(old(db), s, k))
        else Stuck(old(State()), EndRun(old(db), RunKey(s, k), ending, now), RunTargets(old(db), s, k), left)
      ensures !IsRunning(old(db), s, k) ==> ok == weather.commits
    {
      hide DbInv, Agrees, Registered, NothingStranded, Install, Stuck, RunTargets, EndRun, RunKeys;
      ok, left := weather.commits, {};
      if !IsRunning(db, s, k) {
        return;
      }
      RunningSession(db, s, k);
      EndRunInv(db, RunKey(s, k), ending, now);
      var tx := EndRun(db, RunKey(s, k), ending, now);
      var ids := RelatedRunIDs(tx, s, k);
      var targets := TargetsOf(s, ids);
      SameRunTargets(db, s, k, ending, now);
      var staged, restored;
      ok, staged, restored, left := CommitStaged(tx, targets, weather);
    }

    /** failRun, completeFinalizedRun and the interruption of a Run */
    method FinishRun(s: SessionId, k: RunId, ending: Ending, now: Time, weather: Weather) returns (ok: bool, ghost fate: Fate)
      requires Valid() && ValidEnding(ending)
      modifies this, directory
      ensures Valid() && Evolves(old(db), db)
      ensures State() == Step(old(State()), Action.FinishRun(s, k, ending, now, fate))
      ensures ok <==> fate == Commit
      ensures !ok ==> fate.Fault? && fate.left <= weather.io.stuck
      ensures State() == Finish(old(State()), s, k, ending, now, fate) && !fate.Canceled?
    {
      hide Evolves, DbInv, Agrees, Registered, NothingStranded, Install, Stuck, RunTargets, EndRun, ValidEnding;
      ghost var before := State();
      ok, fate := true, Commit;
      if ending.status != Completed || (!closed && !fault) {
        ghost var left;
        ok, left := PersistTerminal(s, k, ending, now, weather);
        if !ok {
          fate := Fault(left);
          if ending.status != Completed {
            LatchPersistenceFault();
          }
        }
      }
      hide WorldInv;
      StepSound(before, Action.FinishRun(s, k, ending, now, fate));
    }

    /** finishActive and dispatchPendingLocked: the goroutine leaves and the next batch starts */
    method FinishActive(s: SessionId, now: Time, weather: Weather) returns (ok: bool, ghost fate: Fate)
      requires Valid() && MayLeave(State(), s)
      modifies this
      ensures Valid() && Evolves(old(db), db)
      ensures State() == Step(old(State()), Action.LeaveRun(s, now, fate))
      ensures ok <==> fate == Commit
      ensures !ok ==> fate == Fault({})
    {
      hide WorldInv, Evolves, StartPending, HasPending;
      ghost var before := State();
      ok, fate := true, Commit;
      active := active - {s};
      if !closed && !fault {
        var launched, tx := StartPendingRunTx(db, s, now);
        if launched {
          if !weather.commits {
            LatchPersistenceFault();
            ok, fate := false, Fault({});
          } else {
            StartedCurrent(db, s, now);
            var k := tx.sessions[s].current;
            db := tx;
            active := active[s := ActiveRun(k, false)];
            Registers(before.(active := before.active - {s}), s, k);
          }
        }
      }
      hide MayLeave, Latch, NextBatch, Queue;
      StepSound(before, Action.LeaveRun(s, now, fate));
    }

    // -------------------------------------------------------------------------------------------
    // Shutdown
    // -------------------------------------------------------------------------------------------

    // One iteration of Quiesce.
    method Interrupt(s: SessionId, now: Time, weather: Weather) returns (ok: bool, ghost fate: Fate)
      requires Valid()
      modifies this, directory
      ensures !directory.locked && !fate.Canceled? && (ok <==> fate == Commit)
      ensures State() == InterruptOne(old(State()), s, now, fate)
    {
      hide WorldInv, Evolves, Finish;
      ok, fate := true, Commit;
      if s in active {
        var entry := active[s];
        ok, fate := FinishRun(s, entry.run, SHUTDOWN, now, weather);
        active := active[s := entry.(canceled := true)];
      }
    }

    /** Quiesce: closes admission, then interrupts and cancels every active Run */
    method Quiesce(order: seq<SessionId>, now: Time, weathers: map<SessionId, Weather>)
      returns (ok: bool, ghost failing: map<SessionId, set<ShardKey>>)
      requires Valid() && !closed && active.Keys == (set s | s in order)
      requires forall i, j | 0 <= i < j < |order| :: order[i] != order[j]
      requires forall s | s in order :: s in weathers
      modifies this, directory
      ensures Valid() && Evolves(old(db), db) && closed
      ensures State() == Step(old(State()), Action.Quiesce(order, failing, now))
      ensures ok <==> !old(fault) && failing == map[]
    {
      hide WorldInv, Evolves, InterruptOne, InterruptEach, Step;
      ghost var before := State();
      assert before.active.Keys <= (set s | s in order);
      ClosedInv(before);
      closed := true;
      ok, failing := !fault, map[];
      ghost var start := State();
      var i := 0;
      EachNone(start, order, now);
      while i < |order|
        invariant 0 <= i <= |order| && Valid() && (ok <==> !old(fault) && failing == map[])
        invariant forall s | s in failing :: s in order[..i]
        invariant State() == InterruptEach(start, order[..i], failing, now)
      {
        assert order[i] in order;
        NotBefore(order, i);
        ghost var mid := State();
        var done;
        ghost var fate;
        done, fate := Interrupt(order[i], now, weathers[order[i]]);
        InterruptOneSound(mid, order[i], now, fate);
        EachNext(start, order, i, failing, fate, now);
        if !done {
          ok := false;
          failing := failing[order[i] := fate.left];
        }
        assert order[..i + 1] == order[..i] + [order[i]];
        i := i + 1;
      }
      assert order[..|order|] == order;
      EachClosed(start, order, failing, now);
      QuiesceStep(before, order, failing, now);
      StepSound(before, Action.Quiesce(order, failing, now));
    }
  }

  lemma NotBefore(order: seq<SessionId>, i: nat)
    requires i < |order| && forall a, b | 0 <= a < b < |order| :: order[a] != order[b]
    ensures order[i] !in order[..i]
  {
  }

  lemma QuiesceStep(w: World, order: seq<SessionId>, failing: map<SessionId, set<ShardKey>>, now: Time)
    requires !w.closed && w.active.Keys <= (set s | s in order)
    ensures Step(w, Action.Quiesce(order, failing, now)) == InterruptEach(w.(closed := true), order, failing, now)
  {
    hide InterruptEach;
  }

  lemma Registers(w: World, s: SessionId, k: RunId)
    ensures Launch(w, map[s := k]) == w.(active := w.active[s := ActiveRun(k, false)])
  {
    assert Launch(w, map[s := k]).active == w.active[s := ActiveRun(k, false)];
  }

  // For a Session that is running, the INSERT and the UPDATE of current_run_id are InsertRun.
  lemma Bumps(db: Db, s: SessionId, run: Run)
    requires SessionIs(db, s, SessionRunning)
    ensures var k := db.sessions[s].current + 1;
      InsertRun(db, s, run) == db.(runs := db.runs[RunKey(s, k) := run], sessions := db.sessions[s := db.sessions[s].(current := k)])
  {
    var k := db.sessions[s].current + 1;
    assert db.sessions[s].(status := SessionRunning, current := k) == db.sessions[s].(current := k);
  }

  // The shards a stop or delete stages.
  method ClearedTargets(db: Db, s: SessionId) returns (targets: seq<ShardKey>)
    requires DbInv(db) && s in db.sessions
    ensures TargetSet(targets) == Cleared(db, s)
  {
    hide DbInv, ClearanceTargets, RunKeys;
    targets := [];
    if db.sessions[s].status == SessionRunning {
      var ids := ClearanceRunIDs(db, s);
      targets := TargetsOf(s, ids);
    }
  }

  // The statements of changeSessionState.
  method ClearAndEnd(db: Db, s: SessionId, deleting: bool, now: Time) returns (tx: Db)
    requires DbInv(db) && s in db.sessions
    ensures tx == ChangeState(db, s, deleting, now)
  {
    hide DbInv, RemovableAll, RemoveAll, RestartFor, EventTable, DeleteIds, FirstIds, RowsOf;
    var session := db.sessions[s];
    var outcome := if deleting then ClearedByDelete else ClearedByStop;
    EventIds(db);
    OwnedRemovable(db, s, outcome, now);
    var _, cleared := RemoveAllTx(db, OwnedRows(db.events, s), outcome, now);
    tx := cleared.(pending := DeleteIds(cleared.pending, FirstIds(cleared.pending, s, |RowsOf(cleared.pending, s)|)),
                   taken := cleared.taken[s := TakenOf(cleared, s) + [Drained(Queue(cleared, s))]]);
    var restart := session.restart;
    if session.status == SessionRunning {
      restart := RestartFor(db, s);
      if IsRunning(tx, s, session.current) {
        tx := EndRun(tx, RunKey(s, session.current), HARD_STOP, now);
      }
    }
    tx := tx.(sessions := tx.sessions[s := session.(status := if deleting then SessionDeleted else SessionStopped, restart := restart)]);
  }

  // The claim of one round.
  method ClaimRound(db: Db, claim: Claim, busy: set<SessionId>, now: Time) returns (tx: Db, fired: seq<SessionId>)
    requires DbInv(db)
    ensures Claimed(tx, fired) == ClaimOf(db, claim, busy, now)
  {
    hide DbInv, ClaimFrom, RemoveAll, EventTable, RemovableAll, Enqueue;
    match claim {
      case Local =>
        EventIds(db);
        ExpiredRemovable(db, now);
        var _, expired := RemoveAllTx(db, ExpiredRows(db.events, now), Expired, now);
        var _, claimed, woken := ClaimTx(expired, Timers, now);
        tx, fired := claimed, woken;
      case Watch(probe) =>
        var _, claimed, woken := ClaimTx(db, probe, now);
        tx, fired := claimed, woken;
      case ChatWake(s, messages) =>
        tx, fired := db, [];
        if SessionIs(db, s, SessionRunning) && s !in busy {
          fired := [s];
          if messages != [] {
            tx := Enqueue(db, s, ChatMention(messages));
          }
        }
    }
  }

  // Ending a Run does not change which Runs it is related to.
  lemma SameRunTargets(db: Db, s: SessionId, k: RunId, ending: Ending, now: Time)
    requires RunKey(s, k) in db.runs
    ensures RunTargets(EndRun(db, RunKey(s, k), ending, now), s, k) == RunTargets(db, s, k)
  {
    hide KeyOf, TriggerTargets;
  }

  lemma EachNone(w: World, order: seq<SessionId>, now: Time)
    ensures InterruptEach(w, order[..0], map[], now) == w
  {
  }

  lemma {:induction false} EachAppend(w: World, order: seq<SessionId>, s: SessionId, failing: map<SessionId, set<ShardKey>>, now: Time)
    ensures InterruptEach(w, order + [s], failing, now)
         == InterruptOne(InterruptEach(w, order, failing, now), s, now, FateOf(failing, s))
    decreases |order|
  {
    hide InterruptOne;
    if order == [] {
      var fate := FateOf(failing, s);
      assert ([s])[1..] == [];
      assert InterruptEach(InterruptOne(w, s, now, fate), [], failing, now) == InterruptOne(w, s, now, fate);
    } else {
      assert (order + [s])[1..] == order[1..] + [s];
      EachAppend(InterruptOne(w, order[0], now, FateOf(failing, order[0])), order[1..], s, failing, now);
    }
  }

  // Which other Sessions fail does not matter.
  lemma {:induction false} EachFrame(w: World, order: seq<SessionId>, failing: map<SessionId, set<ShardKey>>, more: map<SessionId, set<ShardKey>>, now: Time)
    requires forall s | s in order :: FateOf(failing, s) == FateOf(more, s)
    ensures InterruptEach(w, order, failing, now) == InterruptEach(w, order, more, now)
    decreases |order|
  {
    hide InterruptOne;
    if order != [] {
      assert order[0] in order;
      EachFrame(InterruptOne(w, order[0], now, FateOf(failing, order[0])), order[1..], failing, more, now);
    }
  }

  lemma EachNext(w: World, order: seq<SessionId>, i: nat, failing: map<SessionId, set<ShardKey>>, fate: Fate, now: Time)
    requires i < |order| && (forall a, b | 0 <= a < b < |order| :: order[a] != order[b])
    requires !fate.Canceled? && order[i] !in failing
    ensures var more := if fate == Commit then failing else failing[order[i] := fate.left];
      InterruptEach(w, order[..i + 1], more, now) == InterruptOne(InterruptEach(w, order[..i], failing, now), order[i], now, fate)
  {
    hide InterruptOne, InterruptEach;
    var more := if fate == Commit then failing else failing[order[i] := fate.left];
    assert order[..i + 1] == order[..i] + [order[i]];
    EachAppend(w, order[..i], order[i], more, now);
    EachFrame(w, order[..i], failing, more, now);
  }

  lemma {:induction false} EachClosed(w: World, order: seq<SessionId>, failing: map<SessionId, set<ShardKey>>, now: Time)
    ensures InterruptEach(w, order, failing, now).closed == w.closed
    decreases |order|
  {
    hide StageIndex, StageFiles, RunTargets, EndRun;
    if order != [] {
      EachClosed(InterruptOne(w, order[0], now, FateOf(failing, order[0])), order[1..], failing, now);
    }
  }

  // ---------------------------------------------------------------------------------------------
  // Startup
  // ---------------------------------------------------------------------------------------------

  // SELECT session_id, run_id FROM runs WHERE status ... : every Run with the wanted status.
  predicate Lists(db: Db, runs: seq<RunKey>, running: bool) {
    && (forall key | key in runs :: key in db.runs && (db.runs[key].status == Running) == running)
    && (forall key | key in db.runs && (db.runs[key].status == Running) == running :: key in runs)
  }

  /** The shards of a list of Runs, each once: the first loop of repairRunHistory, and runningRunTargetsTx. */
  method ShardsOf(db: Db, runs: seq<RunKey>, running: bool) returns (keys: seq<ShardKey>)
    requires Lists(db, runs, running)
    ensures TargetSet(keys) == StatusTargets(db, running)
  {
    hide KeyOf;
    keys := [];
    for i := 0 to |runs|
      invariant forall key :: key in keys <==> exists j | 0 <= j < i :: KeyOf(runs[j].session, runs[j].id) == key
    {
      var key := KeyOf(runs[i].session, runs[i].id);
      if key !in keys {
        keys := keys + [key];
      }
    }
    forall key ensures key in keys <==> key in StatusTargets(db, running) {
      if key in StatusTargets(db, running) {
        var run :| run in db.runs && (db.runs[run].status == Running) == running && KeyOf(run.session, run.id) == key;
        assert run in runs;
        var j :| 0 <= j < |runs| && runs[j] == run;
      }
      if key in keys {
        var j :| 0 <= j < |runs| && KeyOf(runs[j].session, runs[j].id) == key;
        assert runs[j] in runs;
      }
    }
  }

  lemma StagedMore(db: Db, done: set<ShardKey>, key: ShardKey)
    ensures Staged(StageIndex(db, done), {key}) == Staged(db, {key})
    ensures Staged(db, done + {key}) == Staged(db, done) + Staged(db, {key})
    ensures Staged(db, {key}) == {} || Staged(db, {key}) == {key}
    ensures Project(StageIndex(db, done), key) == Project(db, key)
  {
    IndexIsNotViewed(db, done, key);
    hide Project;
  }

  // Shards may be staged one transaction at a time.
  lemma StageMore(db: Db, files: Files, done: set<ShardKey>, key: ShardKey)
    ensures StageIndex(StageIndex(db, done), {key}) == StageIndex(db, done + {key})
    ensures StageFiles(StageIndex(db, done), StageFiles(db, files, done), {key}) == StageFiles(db, files, done + {key})
  {
    hide Project, Staged, Overwritten;
    var mid := StageIndex(db, done);
    StagedMore(db, done, key);
    if Staged(db, {key}) == {key} {
      WriteNext(db, files, Staged(db, done), key);
      IndexNext(db, Staged(db, done), key);
      StageOne(mid, StageFiles(db, files, done), key);
    } else {
      NothingWritten(mid, StageFiles(db, files, done));
      assert Staged(db, done) + {} == Staged(db, done);
    }
  }

  lemma StageOne(db: Db, files: Files, key: ShardKey)
    requires Staged(db, {key}) == {key}
    ensures StageFiles(db, files, {key}) == files[key := Project(db, key)]
    ensures StageIndex(db, {key}) == db.(index := db.index[key := key.start + SHARD_SIZE - 1])
  {
    hide Project, Staged;
    assert StageIndex(db, {key}).index == db.index[key := key.start + SHARD_SIZE - 1];
  }

  lemma StageNone(db: Db, files: Files)
    ensures StageIndex(db, {}) == db && StageFiles(db, files, {}) == files
  {
    assert StageIndex(db, {}).index == db.index;
  }

  /**
    repairRunHistory: one transaction per shard. A repair that is cut short has staged some shards,
    and nothing else has changed in the database.
   */
  method RepairRunHistory(directory: Directory, db: Db, runs: seq<RunKey>, weather: Weather)
    returns (ok: bool, db': Db, ghost repaired: set<ShardKey>)
    requires !directory.locked && Lists(db, runs, false)
    modifies directory
    ensures !directory.locked && repaired <= StatusTargets(db, false) && db' == StageIndex(db, repaired)
    ensures ok ==> repaired == StatusTargets(db, false) && directory.files == StageFiles(db, old(directory.files), repaired)
  {
    hide StatusTargets, StageIndex, StageFiles, Staged;
    var keys := ShardsOf(db, runs, false);
    repaired, db', ok := {}, db, true;
    StageNone(db, directory.files);
    var i := 0;
    while i < |keys|
      invariant 0 <= i <= |keys| && !directory.locked && ok && repaired == TargetSet(keys[..i])
      invariant repaired <= StatusTargets(db, false)
      invariant db' == StageIndex(db, repaired) && directory.files == StageFiles(db, old(directory.files), repaired)
    {
      assert keys[..i + 1] == keys[..i] + [keys[i]];
      TargetAppend(keys[..i], keys[i]);
      StageMore(db, old(directory.files), repaired, keys[i]);
      assert TargetSet([keys[i]]) == {keys[i]};
      assert keys[i] in TargetSet(keys);
      var staged, restored;
      ghost var left;
      ok, db', staged, restored, left := Transact(directory, db', db', [keys[i]], weather.io, weather.commits);
      if !ok {
        return;
      }
      repaired := repaired + {keys[i]};
      i := i + 1;
    }
    assert keys[..|keys|] == keys;
  }

  lemma RepairKeeps(db: Db, repaired: set<ShardKey>, order: seq<SessionId>, running: seq<RunKey>)
    requires RunningOrder(db, order) && Lists(db, running, true)
    ensures RunningOrder(StageIndex(db, repaired), order) && Lists(StageIndex(db, repaired), running, true)
  {
    hide Staged;
    var db' := StageIndex(db, repaired);
    forall s | s in order ensures SessionIs(db', s, SessionRunning) {
      assert SessionIs(db, s, SessionRunning);
    }
  }

  /**
    Startup after any exit: repair, interrupt, relaunch. A server that opens is the state machine's
    Reopen; one that does not has changed nothing but repaired shards.
   */
  method OpenRuntime(persisted: Db, directory: Directory, ended: seq<RunKey>, running: seq<RunKey>,
                     order: seq<SessionId>, now: Time, weather: Weather)
    returns (server: Option<AgentRuntime>, db: Db, ghost repaired: set<ShardKey>)
    requires DbInv(persisted) && IndexShape(persisted.index) && !directory.locked
    requires Lists(persisted, ended, false) && Lists(persisted, running, true) && RunningOrder(persisted, order)
    modifies directory
    ensures !directory.locked
    ensures server.Some? ==> server.value.directory == directory && server.value.Valid() && server.value.db == db
    ensures server.Some? ==> server.value.State() == Reopened(persisted, old(directory.files), order, now)
    ensures server.None? ==> repaired <= StatusTargets(persisted, false) && db == StageIndex(persisted, repaired)
  {
    hide DbInv, IndexShape, Lists, RunningOrder, StatusTargets, Staged, StageIndex, StageFiles, WorldInv, RecoverFrom, InterruptAll;
    server := None;
    var ok;
    ok, db, repaired := RepairRunHistory(directory, persisted, ended, weather);
    if !ok {
      return;
    }
    ReopenedInv(persisted, old(directory.files), order, now);
    RepairKeeps(persisted, repaired, order, running);
    var targets := ShardsOf(db, running, true);
    var tx, launches := RecoverTx(InterruptAll(db, now), order, now);
    var staged, restored;
    ghost var left;
    ok, db, staged, restored, left := Transact(directory, db, tx, targets, weather.io, weather.commits);
    if ok {
      assert forall keys: set<ShardKey> :: {} - keys == {};
      var runtime := new AgentRuntime.Resume(db, directory, launches);
      server := Some(runtime);
    }
  }
}
