/**
  Shutting down and coming back: graceful quiescence, and recovery from a crash that lost the
  in-memory state and may have left any shard file in any condition.
 */
module Restarts {
  import opened Prelude
  import opened Tables
  import opened Transactions
  import opened History
  import opened Invariants
  import opened Preservation
  import opened World
  import opened Safety

  // ---------------------------------------------------------------------------------------------
  // Quiesce
  // ---------------------------------------------------------------------------------------------

  lemma ClosedInv(w: World)
    requires WorldInv(w)
    ensures Sound(w, w.(closed := true))
  {
    hide DbInv, Agrees, Evolves;
    EvolvesReflexive(w.db);
  }

  lemma CancelRegistry(w: World, s: SessionId)
    requires Registered(w) && NothingStranded(w) && s in w.active
    requires w.fault || !IsRunning(w.db, s, w.active[s].run)
    ensures Registered(CancelOne(w, s)) && NothingStranded(CancelOne(w, s))
  {
    hide RowsOf;
  }

  lemma FinishActive(w: World, s: SessionId, k: RunId, now: Time, fate: Fate)
    requires WorldInv(w)
    ensures var done := Finish(w, s, k, SHUTDOWN, now, fate);
      && done.active.Keys == w.active.Keys && done.closed == w.closed
      && (forall x | x in w.active :: done.active[x].run == w.active[x].run)
      && (fate == Commit ==> done.active == w.active && !IsRunning(done.db, s, k))
      && (fate != Commit ==> done.fault)
  {
    hide DbInv, Agrees, RunTargets, Staged;
  }

  lemma InterruptOneSound(w: World, s: SessionId, now: Time, fate: Fate)
    requires WorldInv(w)
    ensures Sound(w, InterruptOne(w, s, now, fate))
    ensures InterruptOne(w, s, now, fate).closed == w.closed
    ensures InterruptOne(w, s, now, fate).active.Keys == w.active.Keys
  {
    hide DbInv, Agrees, Registered, NothingStranded, Evolves, Finish;
    if s !in w.active {
      Unchanged(w);
    } else {
      var k := w.active[s].run;
      var done := Finish(w, s, k, SHUTDOWN, now, fate);
      FinishSound(w, s, k, SHUTDOWN, now, fate);
      FinishActive(w, s, k, now, fate);
      CancelRegistry(done, s);
    }
  }

  lemma {:induction false} InterruptEachSound(w: World, order: seq<SessionId>, failing: map<SessionId, set<ShardKey>>, now: Time)
    requires WorldInv(w)
    ensures Sound(w, InterruptEach(w, order, failing, now))
    decreases |order|
  {
    hide WorldInv, InterruptOne, Evolves;
    if order == [] {
      Unchanged(w);
    } else {
      var fate := FateOf(failing, order[0]);
      var next := InterruptOne(w, order[0], now, fate);
      InterruptOneSound(w, order[0], now, fate);
      InterruptEachSound(next, order[1..], failing, now);
      EvolvesTransitive(w.db, next.db, InterruptEach(next, order[1..], failing, now).db);
    }
  }

  lemma QuiesceSound(w: World, order: seq<SessionId>, failing: map<SessionId, set<ShardKey>>, now: Time)
    requires WorldInv(w)
    ensures Sound(w, Step(w, Quiesce(order, failing, now)))
  {
    hide WorldInv, InterruptEach, Evolves;
    Unchanged(w);
    ClosedInv(w);
    InterruptEachSound(w.(closed := true), order, failing, now);
  }

  // ---------------------------------------------------------------------------------------------
  // Crash and recovery
  // ---------------------------------------------------------------------------------------------

  /** Repair makes the files agree again, whatever the crash left of them. */
  lemma RepairAgrees(db: Db, files: Files)
    requires DbInv(db) && IndexShape(db.index)
    ensures var targets := StatusTargets(db, false);
      DbInv(StageIndex(db, targets)) && Agrees(StageIndex(db, targets), StageFiles(db, files, targets), {})
  {
    hide DbInv, Project, Staged;
    var targets := StatusTargets(db, false);
    IndexInv(db, targets);
    PositiveIds(db);
    StatusAligned(db, false);
    StagedShape(db, targets);
    var after, files' := StageIndex(db, targets), StageFiles(db, files, targets);
    forall s, k | View(after, s, k).Some? ensures k >= 1 && Mirrored(after, files', KeyOf(s, k)) {
      var key := KeyOf(s, k);
      IndexIsNotViewed(db, targets, key);
      assert RunKey(s, k) in db.runs;
      assert key in targets;
      StagedShard(db, files, targets, s, k);
    }
  }

  lemma RecoveryCovers(db: Db, db': Db, now: Time, launches: map<SessionId, RunId>)
    requires Launched(InterruptAll(db, now), db', launches)
    ensures Covers(db, db', StatusTargets(db, true)) && db'.index == db.index
  {
    hide Launched, Covers;
    var mid := InterruptAll(db, now);
    LaunchViews(mid, db', launches);
    var targets := StatusTargets(db, true);
    forall s, k ensures SameTerminal(db, db', s, k) || KeyOf(s, k) in targets {
      assert SameTerminal(mid, db', s, k);
      if IsRunning(db, s, k) {
        assert RunKey(s, k) in db.runs;
        assert KeyOf(s, k) in targets;
      }
    }
    assert Since(db'.log, |db.log|) == [];
    LogCovers(db, db', targets);
  }

  lemma InterruptEvolves(db: Db, now: Time)
    ensures Evolves(db, InterruptAll(db, now))
  {
  }

  // Nothing runs and nothing is registered between the crash and the relaunch.
  lemma CrashRegistry(db: Db, files: Files, launches: map<SessionId, RunId>)
    requires forall s :: Idle(db, s)
    requires forall s | SessionIs(db, s, SessionRunning) :: s in launches
    ensures var w := World(db, files, map[], false, false, {}); Registered(w) && StrandedOnly(w, launches.Keys)
  {
    hide RowsOf;
    forall s, k ensures !IsRunning(db, s, k) {
      assert Idle(db, s);
    }
  }

  lemma RecoverySound(db: Db, files: Files, order: seq<SessionId>, now: Time)
    requires DbInv(db) && Agrees(db, files, {}) && RunningOrder(db, order)
    ensures var recovered := RecoverFrom(InterruptAll(db, now), order, now, map[]);
      var w := Launch(Install(World(db, files, map[], false, false, {}), recovered.db, StatusTargets(db, true)), recovered.launches);
      WorldInv(w) && Evolves(db, w.db)
  {
    hide DbInv, Agrees, RowsOf, Registered, NothingStranded, StrandedOnly, Launched, Evolves, Covers, StatusTargets, RecoverFrom;
    var mid := InterruptAll(db, now);
    InterruptAllInv(db, now);
    InterruptEvolves(db, now);
    assert mid.sessions == db.sessions;
    RecoverInv(mid, order, now);
    var recovered := RecoverFrom(mid, order, now, map[]);
    var targets := StatusTargets(db, true);
    RecoveryCovers(db, recovered.db, now, recovered.launches);
    StatusAligned(db, true);
    hide InterruptAll;
    var base := World(db, files, map[], false, false, {});
    InstallInv(base, recovered.db, targets);
    CrashRegistry(mid, files, recovered.launches);
    LaunchRegistry(base.(db := mid), recovered.db, recovered.launches);
    StagedRegistry(Launch(base.(db := recovered.db), recovered.launches), targets);
    LaunchEvolves(mid, recovered.db, recovered.launches);
    EvolvesTransitive(db, mid, recovered.db);
    StagedEvolves(db, recovered.db, targets);
    hide StageIndex, StageFiles;
  }

  lemma ReopenedInv(db: Db, files: Files, order: seq<SessionId>, now: Time)
    requires DbInv(db) && IndexShape(db.index) && RunningOrder(db, order)
    ensures WorldInv(Reopened(db, files, order, now)) && Evolves(db, Reopened(db, files, order, now).db)
  {
    hide DbInv, WorldInv, Evolves, RecoverFrom, InterruptAll, StatusTargets, Agrees;
    var targets := StatusTargets(db, false);
    var db1, files1 := StageIndex(db, targets), StageFiles(db, files, targets);
    RepairAgrees(db, files);
    EvolvesReflexive(db);
    StagedEvolves(db, db, targets);
    RecoverySound(db1, files1, order, now);
    hide StageFiles, Install, Launch;
    EvolvesTransitive(db, db1, Reopened(db, files, order, now).db);
  }

  /**
    A crash followed by repair and recovery restores every invariant: from any file contents, and
    after any number of attempts that were themselves cut short.
   */
  lemma ReopenSound(w: World, files: Files, aborted: set<ShardKey>, order: seq<SessionId>, now: Time)
    requires WorldInv(w) && RunningOrder(w.db, order) && aborted <= StatusTargets(w.db, false)
    ensures Sound(w, Reopened(StageIndex(w.db, aborted), files, order, now))
  {
    hide DbInv, Registered, NothingStranded, Evolves, Reopened, Mirrored, View;
    var db := StageIndex(w.db, aborted);
    IndexInv(w.db, aborted);
    StatusAligned(w.db, false);
    StagedShape(w.db, aborted);
    hide StatusTargets;
    EvolvesReflexive(w.db);
    StagedEvolves(w.db, w.db, aborted);
    ReopenedInv(db, files, order, now);
    EvolvesTransitive(w.db, db, Reopened(db, files, order, now).db);
  }
}
