/**
  Whole runs of the Runtime: what holds in every reachable state, and what stays true forever.
 */
module Behaviours {
  import opened Prelude
  import opened Matchers
  import opened Tables
  import opened Transactions
  import opened History
  import opened Invariants
  import opened Preservation
  import opened World
  import opened Safety
  import opened Rounds
  import opened Restarts
  import opened Reading

  lemma SessionActionSound(w: World, a: Action)
    requires WorldInv(w) && (a.CreateSession? || a.StartSession? || a.RetryRun? || a.ChangeSession?)
    ensures Sound(w, Step(w, a))
  {
    hide WorldInv, Evolves, Sound, ChangeState, ClearanceTargets, Install, AddSession, InsertRun, Latch, AbortedStage;
    Unchanged(w);
    if a.ChangeSession? && a.s in w.db.sessions {
      AbortSound(w, ChangeState(w.db, a.s, a.deleting, a.now), Cleared(w.db, a.s), a.fate);
    }
    if a.fate == Commit && Open(w) {
      if a.CreateSession? && a.s !in w.db.sessions {
        CreateSessionSound(w, a.s);
      } else if a.StartSession? && SessionIs(w.db, a.s, SessionStopped) && a.s !in w.active {
        StartSessionSound(w, a.s, a.now);
      } else if a.RetryRun? && Retryable(w, a.s, a.k) {
        RetryRunSound(w, a.s, a.k, a.now);
      } else if a.ChangeSession? && a.s in w.db.sessions && (a.deleting || !SessionIs(w.db, a.s, SessionDeleted)) {
        ChangeSessionSound(w, a.s, a.deleting, a.now);
      }
    }
  }

  lemma EventActionSound(w: World, a: Action)
    requires WorldInv(w) && (a.CreateEvent? || a.DeleteByAgent? || a.DeleteByUser? || a.Round?)
    ensures Sound(w, Step(w, a))
  {
    hide WorldInv, Evolves, Sound, ClaimOf, AdmitFrom, Install, Launch, Latch, UsedId, InsertEvent, OwnedRows, AbortedStage, Stuck, LogTargets, RemoveRecord;
    Unchanged(w);
    if a.fate != Commit {
      EventAbortSound(w, a);
    } else if Open(w) {
      if a.CreateEvent? && IsRunning(w.db, a.row.owner, a.row.createdRun) && !UsedId(w.db, a.row.id) {
        CreateEventSound(w, a.row.(memo := Nothing));
      } else if a.DeleteByAgent? && IsRunning(w.db, a.s, a.k) {
        DeleteByAgentSound(w, a.s, a.k, a.event, a.now);
      } else if a.DeleteByUser? {
        DeleteByUserSound(w, a.s, a.event, a.now);
      } else if a.Round? {
        RoundSound(w, a.claim, a.now);
      }
    }
  }

  lemma EventAbortSound(w: World, a: Action)
    requires WorldInv(w) && (a.CreateEvent? || a.DeleteByAgent? || a.DeleteByUser? || a.Round?) && a.fate != Commit
    ensures Sound(w, Step(w, a))
  {
    hide WorldInv, Evolves, Sound, ClaimOf, AdmitFrom, Install, Launch, Latch, UsedId, InsertEvent, OwnedRows, AbortedStage, Stuck, LogTargets, RemoveRecord;
    Unchanged(w);
    if a.Round? {
      var claimed := ClaimOf(w.db, a.claim, w.active.Keys, a.now);
      var db := AdmitFrom(claimed.db, claimed.fired, w.active.Keys, a.now, map[]).db;
      AbortSound(w, db, LogTargets(Since(db.log, |w.db.log|)), a.fate);
    } else if a.DeleteByAgent? || a.DeleteByUser? {
      var found := Find(w.db.events, a.event, a.s);
      if found.Some? {
        var db := if a.DeleteByAgent? then RemoveRecord(w.db, found.value, DeletedByAgent, Some(a.k), None, a.now)
                  else RemoveRecord(w.db, found.value, DeletedByUser, None, None, a.now);
        AbortSound(w, db, LogTargets(Since(db.log, |w.db.log|)), a.fate);
        StuckSound(w, db, LogTargets(Since(db.log, |w.db.log|)), a.fate.left);
      }
    }
  }

  lemma RunActionSound(w: World, a: Action)
    requires WorldInv(w)
    requires a.Progress? || a.InitialContext? || a.SaveConversation? || a.SaveMemory? || a.FinishRun? || a.LeaveRun?
    ensures Sound(w, Step(w, a))
  {
    hide WorldInv, Evolves, Sound, Finish, Install, Launch, Latch, StartPending, MayLeave, HasPending;
    Unchanged(w);
    if a.Progress? {
      ProgressSound(w, a.s, a.k, a.modelCalls, a.toolCalls, a.progress);
    } else if a.InitialContext? {
      InitialContextSound(w, a.s, a.k, a.context);
    } else if a.SaveConversation? && IsRunning(w.db, a.s, a.k) {
      SaveConversationSound(w, a.s, a.k, a.messages);
    } else if a.SaveMemory? && IsRunning(w.db, a.s, a.k) && a.memory > 0 {
      SaveMemorySound(w, a.s, a.k, a.memory);
    } else if a.FinishRun? {
      FinishSound(w, a.s, a.k, a.ending, a.now, a.fate);
    } else if a.LeaveRun? {
      LeaveRunSound(w, a.s, a.now, a.fate);
    }
  }

  /** Every action, whatever the fate of its transaction, keeps the invariant and undoes nothing final. */
  lemma StepSound(w: World, a: Action)
    requires WorldInv(w)
    ensures Sound(w, Step(w, a))
  {
    hide WorldInv, Evolves, Sound, Latch, Reopened, InterruptEach;
    Unchanged(w);
    if a.CreateSession? || a.StartSession? || a.RetryRun? || a.ChangeSession? {
      SessionActionSound(w, a);
    } else if a.CreateEvent? || a.DeleteByAgent? || a.DeleteByUser? || a.Round? {
      EventActionSound(w, a);
    } else if a.Quiesce? {
      QuiesceSound(w, a.order, a.failing, a.now);
    } else if a.Reopen? {
      if RunningOrder(w.db, a.order) && a.aborted <= StatusTargets(w.db, false) {
        ReopenSound(w, a.files, a.aborted, a.order, a.now);
      }
    } else if a.LatchFault? {
    } else {
      RunActionSound(w, a);
    }
  }

  // ---------------------------------------------------------------------------------------------
  // Runs of the machine
  // ---------------------------------------------------------------------------------------------

  // The state after a sequence of actions.
  ghost function After(w: World, actions: seq<Action>): World
    decreases |actions|
  {
    if actions == [] then w else Step(After(w, actions[..|actions| - 1]), actions[|actions| - 1])
  }

  /** Safety: any sequence of actions from a good state ends in a good state that extends it. */
  lemma {:induction false} RunsAreSound(w: World, actions: seq<Action>)
    requires WorldInv(w)
    ensures Sound(w, After(w, actions))
    decreases |actions|
  {
    hide WorldInv, Evolves, Step;
    if actions == [] {
      Unchanged(w);
    } else {
      var n := |actions| - 1;
      var before := After(w, actions[..n]);
      RunsAreSound(w, actions[..n]);
      StepSound(before, actions[n]);
      EvolvesTransitive(w.db, before.db, Step(before, actions[n]).db);
    }
  }

  lemma {:induction false} AfterAppend(w: World, a: seq<Action>, b: seq<Action>)
    ensures After(w, a + b) == After(After(w, a), b)
    decreases |b|
  {
    hide Step;
    if b == [] {
      assert a + b == a;
    } else {
      var n := |b| - 1;
      assert (a + b)[..|a| + n] == a + b[..n];
      AfterAppend(w, a, b[..n]);
    }
  }

  /** What is final in a reachable state is final in every state after it. */
  lemma LaterEvolves(before: seq<Action>, after: seq<Action>)
    ensures WorldInv(After(INITIAL, before)) && Evolves(After(INITIAL, before).db, After(INITIAL, before + after).db)
  {
    hide WorldInv, Evolves, After;
    ReachableInv(before);
    AfterAppend(INITIAL, before, after);
    RunsAreSound(After(INITIAL, before), after);
  }

  /** Every state reachable from an empty server satisfies the invariant. */
  lemma ReachableInv(actions: seq<Action>)
    ensures WorldInv(After(INITIAL, actions))
  {
    hide WorldInv, Evolves;
    InitialInv();
    RunsAreSound(INITIAL, actions);
  }

  // ---------------------------------------------------------------------------------------------
  // What the invariant says, in the terms of the product
  // ---------------------------------------------------------------------------------------------

  /**
    The Runs of a Session are numbered without gaps, at most the current one runs, and the registry
    knows exactly the Runs that run unless persistence has failed.
   */
  lemma OneRunPerSession(actions: seq<Action>, s: SessionId, k: RunId)
    ensures var w := After(INITIAL, actions);
      && (s in w.db.sessions ==> (RunKey(s, k) in w.db.runs <==> 1 <= k <= w.db.sessions[s].current))
      && (IsRunning(w.db, s, k) ==>
            && SessionIs(w.db, s, SessionRunning) && w.db.sessions[s].current == k
            && (w.fault || (s in w.active && w.active[s].run == k)))
      && (s in w.active ==> s in w.db.sessions && w.active[s].run == w.db.sessions[s].current)
  {
    ReachableInv(actions);
    var w := After(INITIAL, actions);
    hide Shaped, Retries, EventTable, LogTable, QueueTable, Conserved, BatchesStored, Accounted, Written, Agrees, NothingStranded, After;
    assert IsRunning(w.db, s, k) ==> RunKey(s, k) in w.db.runs;
  }

  /** A stopped or deleted Session has no running Run, no active Event and no queued trigger. */
  lemma StoppedIsQuiet(actions: seq<Action>, s: SessionId)
    ensures var w := After(INITIAL, actions);
      s in w.db.sessions && w.db.sessions[s].status != SessionRunning ==> Quiet(w.db, s)
  {
    ReachableInv(actions);
    var w := After(INITIAL, actions);
    hide Shaped, Retries, LogTable, Conserved, BatchesStored, Accounted, Written, Agrees, NothingStranded, Registered, After, Distinct, Increasing;
    if s in w.db.sessions && w.db.sessions[s].status != SessionRunning {
      assert forall k :: IsRunning(w.db, s, k) ==> RunKey(s, k) in w.db.runs;
      RowsOfNone(w.db.pending, s);
    }
  }

  /** Deletion is final. */
  lemma DeletedForever(before: seq<Action>, after: seq<Action>, s: SessionId)
    ensures SessionIs(After(INITIAL, before).db, s, SessionDeleted) ==> SessionIs(After(INITIAL, before + after).db, s, SessionDeleted)
  {
    hide WorldInv, After, EventsEvolve, MemoriesEvolve, RunsEvolve;
    LaterEvolves(before, after);
  }

  // The Run on whose behalf an action writes.
  function Writer(a: Action): Option<RunKey> {
    match a
    case CreateEvent(row, _) => Some(RunKey(row.owner, row.createdRun))
    case DeleteByAgent(s, k, _, _, _) => Some(RunKey(s, k))
    case Progress(s, k, _, _, _) => Some(RunKey(s, k))
    case InitialContext(s, k, _) => Some(RunKey(s, k))
    case SaveConversation(s, k, _) => Some(RunKey(s, k))
    case SaveMemory(s, k, _, _) => Some(RunKey(s, k))
    case FinishRun(s, k, _, _, _) => Some(RunKey(s, k))
    case _ => None
  }

  lemma EndedWritesNothing(w: World, a: Action)
    requires Writer(a).Some? && Ended(w.db, Writer(a).value.session, Writer(a).value.id)
    ensures Step(w, a).db == w.db && Step(w, a).files == w.files
  {
  }

  /**
    A Run that has ended is frozen: its row, its memories and the Events it created never change in
    any future, and nothing it still attempts is committed.
   */
  lemma NoLateWrites(before: seq<Action>, after: seq<Action>, s: SessionId, k: RunId)
    ensures var w, later := After(INITIAL, before), After(INITIAL, before + after);
      Ended(w.db, s, k) ==>
        && Ended(later.db, s, k) && later.db.runs[RunKey(s, k)] == w.db.runs[RunKey(s, k)]
        && MemoriesOf(later.db.memories, s, k) == MemoriesOf(w.db.memories, s, k)
        && (forall e: EventRow | e.owner == s && e.createdRun == k :: e in Known(later.db) <==> e in Known(w.db))
        && (forall a | Writer(a) == Some(RunKey(s, k)) ::
              Step(later, a).db == later.db && Step(later, a).files == later.files)
  {
    hide WorldInv, After, KnownIn, Step, SessionsEvolve;
    LaterEvolves(before, after);
    var w, later := After(INITIAL, before), After(INITIAL, before + after);
    if Ended(w.db, s, k) {
      FrozenMemories(w.db, later.db.memories, s, k);
      forall a | Writer(a) == Some(RunKey(s, k))
        ensures Step(later, a).db == later.db && Step(later, a).files == later.files
      {
        EndedWritesNothing(later, a);
      }
    }
  }

  lemma {:induction false} FrozenMemories(db: Db, memories: seq<MemoryRow>, s: SessionId, k: RunId)
    requires Ended(db, s, k) && db.memories <= memories
    requires forall i | |db.memories| <= i < |memories| :: !Ended(db, memories[i].session, memories[i].run)
    ensures MemoriesOf(memories, s, k) == MemoriesOf(db.memories, s, k)
    decreases |memories|
  {
    if |memories| > |db.memories| {
      var n := |memories| - 1;
      assert memories == memories[..n] + [memories[n]];
      FrozenMemories(db, memories[..n], s, k);
      MemoriesOfAppend(memories[..n], memories[n], s, k);
    } else {
      assert memories == db.memories;
    }
  }

  /** A Session's stored conversation never goes back to an earlier Run. */
  lemma ConversationAdvances(before: seq<Action>, after: seq<Action>, s: SessionId)
    ensures var db, later := After(INITIAL, before).db, After(INITIAL, before + after).db;
      s in db.conversations ==> s in later.conversations && db.conversations[s].run <= later.conversations[s].run
  {
    hide WorldInv, After, EventsEvolve, MemoriesEvolve, RunsEvolve, SessionsEvolve;
    LaterEvolves(before, after);
  }

  /**
    Every trigger that ever arrived for a Session is accounted for, in arrival order: in the batches
    that left the queue (each taken by one Run, or drained by a stop or delete), then in the queue.
    A Run's batch has one to ten triggers and is what that Run was started with.
   */
  lemma TriggersConserved(actions: seq<Action>, s: SessionId)
    ensures var db := After(INITIAL, actions).db;
      s in db.sessions ==>
        && s in db.arrived && s in db.taken
        && db.arrived[s] == Flatten(db.taken[s]) + Queue(db, s)
        && EventTriggers(db.arrived[s]) == FiredTriggers(db.log, s)
        && (forall i | 0 <= i < |db.taken[s]| && db.taken[s][i].TakenBy? ::
              && 1 <= |db.taken[s][i].triggers| <= MAX_TRIGGERS_PER_RUN
              && RunKey(s, db.taken[s][i].run) in db.runs
              && db.runs[RunKey(s, db.taken[s][i].run)].triggers == Some(db.taken[s][i].triggers))
  {
    ReachableInv(actions);
    hide Numbered, Shaped, Retries, LogTable, EventTable, QueueTable, Written, Agrees, NothingStranded, Registered, After;
    hide Queue, Flatten, EventTriggers, FiredTriggers;
  }

  /** What has arrived and what has been taken is never rewritten. */
  lemma QueueHistoryGrows(before: seq<Action>, after: seq<Action>, s: SessionId)
    ensures var db, later := After(INITIAL, before).db, After(INITIAL, before + after).db;
      && (s in db.arrived ==> s in later.arrived && db.arrived[s] <= later.arrived[s])
      && (s in db.taken ==> s in later.taken && db.taken[s] <= later.taken[s])
  {
    hide WorldInv, After, EventsEvolve, MemoriesEvolve, RunsEvolve, SessionsEvolve;
    LaterEvolves(before, after);
  }

  /** While the server is healthy, triggers wait only for Sessions that already have a Run. */
  lemma NoStrandedWork(actions: seq<Action>, s: SessionId)
    ensures var w := After(INITIAL, actions);
      Open(w) && SessionIs(w.db, s, SessionRunning) && s !in w.active ==> Queue(w.db, s) == []
  {
    ReachableInv(actions);
    hide DbInv, Agrees, Registered, After, RowsOf;
  }

  /**
    Events are one-shot: one id is active or resolved, never both, and is resolved at most once. What
    fired did so before its expiry (and, for a timer, not before it was due); what expired, after.
   */
  lemma EventsResolveOnce(actions: seq<Action>)
    ensures var db := After(INITIAL, actions).db;
      && (forall i, j | 0 <= i < j < |db.events| :: db.events[i].id != db.events[j].id)
      && (forall i, j | 0 <= i < j < |db.log| :: db.log[i].event.id != db.log[j].event.id)
      && (forall row, e | row in db.log && e in db.events :: row.event.id != e.id)
      && (forall row | row in db.log && row.outcome == Fired ::
            row.at < row.event.expiresAt && (row.event.kind.Timer? ==> row.event.kind.due <= row.at))
      && (forall row | row in db.log && row.outcome == Expired :: row.event.expiresAt <= row.at)
  {
    ReachableInv(actions);
    hide Numbered, Shaped, Retries, QueueTable, Written, Agrees, NothingStranded, Registered, After;
    hide Conserved, BatchesStored, Accounted;
    var db := After(INITIAL, actions).db;
    assert forall row | row in db.log :: LogShape(db, row);
  }

  /** An Event once created stays active or is in the log, in every future. */
  lemma EventsAreNotForgotten(before: seq<Action>, after: seq<Action>, e: EventRow)
    ensures var db, later := After(INITIAL, before).db, After(INITIAL, before + after).db;
      e in db.events ==>
        (exists x :: x in later.events && Core(x) == Core(e)) || (exists r :: r in later.log && Core(r.event) == Core(e))
  {
    hide WorldInv, After, MemoriesEvolve, RunsEvolve, SessionsEvolve;
    LaterEvolves(before, after);
    var db := After(INITIAL, before).db;
    if e in db.events {
      assert Core(e) in Known(db);
      assert Core(e) in Known(After(INITIAL, before + after).db);
    }
  }

  /** A manual retry is the end of an unbroken chain of failed attempts, at most three long. */
  lemma RetryChain(actions: seq<Action>, s: SessionId, k: RunId, j: RunId)
    ensures var db := After(INITIAL, actions).db;
      RunKey(s, k) in db.runs && db.runs[RunKey(s, k)].retryAttempt > 0 ==>
        var run := db.runs[RunKey(s, k)];
        && run.retryAttempt <= MAX_MANUAL_RETRIES && run.retryOf == Some(k - run.retryAttempt)
        && (k - run.retryAttempt <= j < k ==>
              && RunKey(s, j) in db.runs && db.runs[RunKey(s, j)].status == RunStatus.Failed
              && db.runs[RunKey(s, j)].retryAttempt == j - (k - run.retryAttempt))
  {
    ReachableInv(actions);
    hide Numbered, Shaped, EventTable, LogTable, QueueTable, Written, Agrees, NothingStranded, Registered, After;
    hide Conserved, BatchesStored, Accounted;
    var db := After(INITIAL, actions).db;
    assert RunKey(s, k) in db.runs ==> RetryShape(db, RunKey(s, k));
  }

  /**
    In every reachable state an ended Run is indexed under its range. Its shard is the projection of the
    database, passes validation and records exactly that Run, unless a rollback could not restore it.
   */
  lemma HistoryMirrors(actions: seq<Action>, s: SessionId, k: RunId)
    ensures var w := After(INITIAL, actions);
      Ended(w.db, s, k) ==>
        var key := KeyOf(s, k);
        && k >= 1 && key in w.db.index && w.db.index[key] == key.start + SHARD_SIZE - 1
        && (key !in w.damaged ==>
              && key in w.files && w.files[key] == Project(w.db, key)
              && WellFormed(w.files[key], s, key.start, key.start + SHARD_SIZE - 1, k)
              && (forall r | r in w.files[key].runs && r.id == k :: View(w.db, s, k) == Some(r)))
  {
    hide DbInv, After, Registered, NothingStranded, WellFormed, Agrees, Project;
    ReachableInv(actions);
    var w := After(INITIAL, actions);
    if Ended(w.db, s, k) {
      IndexedKey(w.db, w.files, w.damaged, s, k);
      if KeyOf(s, k) !in w.damaged {
        MirroredKey(w.db, w.files, w.damaged, s, k);
        ProjectionIsValid(w.db, s, k);
        forall r | r in w.files[KeyOf(s, k)].runs && r.id == k ensures View(w.db, s, k) == Some(r) {
          ViewedRecord(w.db, w.files, w.damaged, s, k, r);
        }
      }
    }
  }

  lemma IndexedKey(db: Db, files: Files, damaged: set<ShardKey>, s: SessionId, k: RunId)
    requires Agrees(db, files, damaged) && View(db, s, k).Some?
    ensures Indexed(db, KeyOf(s, k)) && k >= 1
  {
    hide View;
  }
}
