/**
  Rollbacks that cannot restore a shard: which shards they damage, when the history then disagrees with
  the database, and that a canceled request can leave an open server in that state.
 */
module Damage {
  import opened Prelude
  import opened Matchers
  import opened Tables
  import opened Transactions
  import opened History
  import opened Invariants
  import opened Preservation
  import opened World
  import opened Safety
  import opened Restarts
  import opened Behaviours

  // ---------------------------------------------------------------------------------------------
  // What an action may damage
  // ---------------------------------------------------------------------------------------------

  function LeftBy(fate: Fate): set<ShardKey> {
    if fate.Commit? then {} else fate.left
  }

  // The shards an action's rollback could not restore.
  function Leaves(a: Action): set<ShardKey> {
    match a
    case ChangeSession(_, _, _, fate) => LeftBy(fate)
    case DeleteByAgent(_, _, _, _, fate) => LeftBy(fate)
    case DeleteByUser(_, _, _, fate) => LeftBy(fate)
    case Round(_, _, fate) => LeftBy(fate)
    case FinishRun(_, _, _, _, fate) => LeftBy(fate)
    case Quiesce(_, failing, _) => LeftOver(failing)
    case _ => {}
  }

  function LeftOver(failing: map<SessionId, set<ShardKey>>): set<ShardKey> {
    set s, key | s in failing && key in failing[s] :: key
  }

  lemma {:induction false} InterruptDamage(w: World, order: seq<SessionId>, failing: map<SessionId, set<ShardKey>>, now: Time)
    ensures InterruptEach(w, order, failing, now).damaged <= w.damaged + LeftOver(failing)
    decreases |order|
  {
    hide Staged, EndRun, RunTargets, Overwritten, StageIndex, StageFiles;
    if order != [] {
      var s := order[0];
      var next := InterruptOne(w, s, now, FateOf(failing, s));
      assert forall key | s in failing && key in failing[s] :: key in LeftOver(failing);
      InterruptDamage(next, order[1..], failing, now);
    }
  }

  /** An action damages at most what it could not restore; a restart leaves nothing damaged. */
  lemma {:induction false} StepDamage(w: World, a: Action)
    ensures Step(w, a).damaged <= w.damaged + Leaves(a)
    ensures a.Reopen? && Step(w, a) != w ==> Step(w, a).damaged == {}
  {
    hide Staged, Overwritten, StageIndex, StageFiles, ChangeState, ClearanceTargets, LogTargets, RunTargets, EndRun, ClaimOf, AdmitFrom;
    hide RemoveRecord, RecoverFrom, InterruptAll, StatusTargets, Find, UsedId, InterruptEach, StartPending, InsertRun, OwnedRows, HasPending;
    if a.Quiesce? {
      InterruptDamage(w.(closed := true), a.order, a.failing, a.now);
    }
  }

  /** While every rollback restores its shards, every ended Run has its shard, equal to the projection. */
  lemma {:induction false} UndamagedAgrees(actions: seq<Action>)
    requires forall a | a in actions :: Leaves(a) == {}
    ensures var w := After(INITIAL, actions); w.damaged == {} && Agrees(w.db, w.files, {})
    decreases |actions|
  {
    hide Step, Leaves, Agrees;
    ReachableInv(actions);
    assert Agrees(After(INITIAL, actions).db, After(INITIAL, actions).files, After(INITIAL, actions).damaged);
    hide WorldInv;
    if actions != [] {
      var n := |actions| - 1;
      assert actions[n] in actions;
      UndamagedAgrees(actions[..n]);
      StepDamage(After(INITIAL, actions[..n]), actions[n]);
    }
  }

  /**
    An abort in a server whose files agree leaves them agreeing, if and only if each shard that was
    staged and stuck looks the same to the aborted candidate, or records no ended Run.
   */
  lemma AbortMirrorsIff(w: World, candidate: Db, targets: set<ShardKey>, fate: Fate)
    requires WorldInv(w) && w.damaged == {} && Aligned(targets) && fate != Commit
    ensures var after := AbortedStage(w, candidate, targets, fate);
      Agrees(after.db, after.files, {}) <==>
      forall key | key in fate.left * Staged(candidate, targets) && Recorded(w.db, key) :: Project(candidate, key) == Project(w.db, key)
  {
    hide DbInv, Registered, NothingStranded, Agrees, Project, Recorded, Overwritten;
    AbortAgreesIff(w.db, candidate, w.files, fate.left * Staged(candidate, targets));
  }

  // ---------------------------------------------------------------------------------------------
  // An open server with a stale shard
  // ---------------------------------------------------------------------------------------------

  lemma DeletionTargets(db: Db, row: EventRow, now: Time)
    ensures var after := RemoveRecord(db, row, DeletedByUser, None, None, now);
      KeyOf(row.owner, row.createdRun) in LogTargets(Since(after.log, |db.log|))
  {
    hide KeyOf;
    var after := RemoveRecord(db, row, DeletedByUser, None, None, now);
    var logged := LogRow(row, DeletedByUser, None, None, now);
    assert Since(after.log, |db.log|) == [logged];
    assert logged in [logged];
  }

  // Deleting an Event changes the record of the Run that created it.
  lemma DeletionChanges(db: Db, row: EventRow, now: Time)
    requires row.createdRun >= 1 && Ended(db, row.owner, row.createdRun)
    ensures var after := RemoveRecord(db, row, DeletedByUser, None, None, now);
      var key := KeyOf(row.owner, row.createdRun);
      Recorded(db, key) && Project(after, key).runs != [] && Project(after, key) != Project(db, key)
  {
    var s, k := row.owner, row.createdRun;
    var after := RemoveRecord(db, row, DeletedByUser, None, None, now);
    var start := ShardStart(k);
    RangePartitions(k, start);
    EventsOfAppend(db.log, LogRow(row, DeletedByUser, None, None, now), s, k);
    var was, next := View(db, s, k), View(after, s, k);
    assert was.Some? && next.Some? && |next.value.events| == |was.value.events| + 1;
    hide View, RemoveRecord;
    RecordsHold(after, s, start, SHARD_SIZE, k);
    assert next.value in Project(after, KeyOf(s, k)).runs;
    RecordsOrdered(db, s, start, SHARD_SIZE);
    ViewId(after, s, k);
    hide Records;
    assert forall r | r in Records(db, s, start, SHARD_SIZE) :: View(db, s, r.id) == Some(r);
  }

  lemma ViewId(db: Db, s: SessionId, k: RunId)
    ensures View(db, s, k).Some? ==> View(db, s, k).value.id == k
  {
  }

  /**
    A user deletes an Event whose Run has ended; the request is canceled and the shard cannot be
    restored. The server stays open, the Event stays active, and the shard records its deletion.
   */
  lemma CanceledDeletion(w: World, row: EventRow, now: Time)
    requires WorldInv(w) && Open(w) && w.damaged == {} && row.owner in w.db.sessions
    requires Find(w.db.events, row.id, row.owner) == Some(row) && Ended(w.db, row.owner, row.createdRun)
    ensures var key := KeyOf(row.owner, row.createdRun);
      var w' := Step(w, DeleteByUser(row.owner, row.id, now, Canceled({key})));
      && Open(w') && w'.db == w.db && !Agrees(w'.db, w'.files, {}) && w'.damaged == {key}
      && key in w'.files && w'.files[key] == Project(RemoveRecord(w.db, row, DeletedByUser, None, None, now), key)
  {
    hide DbInv, Registered, NothingStranded, Agrees, LogTargets, Find, RemoveRecord, Project, Recorded, Ended;
    var key := KeyOf(row.owner, row.createdRun);
    var fate := Canceled({key});
    var candidate := RemoveRecord(w.db, row, DeletedByUser, None, None, now);
    var targets := LogTargets(Since(candidate.log, |w.db.log|));
    assert row.createdRun >= 1 by { EndedPositive(w.db, row.owner, row.createdRun); }
    RangePartitions(row.createdRun, key.start);
    DeletionTargets(w.db, row, now);
    DeletionChanges(w.db, row, now);
    LogAligned(Since(candidate.log, |w.db.log|));
    hide KeyOf;
    assert key in Staged(candidate, targets);
    assert fate.left * Staged(candidate, targets) == {key};
    AbortMirrorsIff(w, candidate, targets, fate);
  }

  lemma EndedPositive(db: Db, s: SessionId, k: RunId)
    requires DbInv(db) && Ended(db, s, k)
    ensures k >= 1
  {
    PositiveIds(db);
  }

  const ROW := EventRow(0, 0, 1, Timer(10), Nothing, 0, 20)

  const STOPPED := Ending(Interrupted, None, None, Some("stopped"))

  // A Session starts, its Run creates an Event and ends; the Event waits.
  function Scene(): seq<Action> {
    [CreateSession(0, Commit), StartSession(0, 0, Commit), CreateEvent(ROW, Commit), FinishRun(0, 1, STOPPED, 1, Commit)]
  }

  // A new Session, with nothing in it.
  ghost predicate Untouched(w: World) {
    && Open(w) && w.damaged == {} && w.db.events == [] && w.db.log == [] && w.active == map[]
    && SessionIs(w.db, 0, SessionStopped) && w.db.sessions[0].current == 0
  }

  lemma SceneStarts(w: World)
    requires Untouched(w)
    ensures var w' := Step(w, StartSession(0, 0, Commit));
      Open(w') && w'.damaged == {} && w'.db.events == [] && w'.db.log == [] && IsRunning(w'.db, 0, 1) && 0 in w'.db.sessions
  {
  }

  lemma SceneWaits(w: World)
    requires Open(w) && w.damaged == {} && w.db.events == [] && w.db.log == [] && IsRunning(w.db, 0, 1) && 0 in w.db.sessions
    ensures var w' := Step(w, CreateEvent(ROW, Commit));
      Open(w') && w'.damaged == {} && 0 in w'.db.sessions && w'.db.events == [ROW] && IsRunning(w'.db, 0, 1)
  {
    assert OwnedRows(w.db.events, 0) == [];
    assert InsertEvent(w.db.events, ROW) == [ROW];
  }

  lemma SceneRuns()
    ensures var w := After(INITIAL, Scene()[..3]);
      Open(w) && w.damaged == {} && 0 in w.db.sessions && w.db.events == [ROW] && IsRunning(w.db, 0, 1)
  {
    var actions := Scene()[..3];
    var w := Step(INITIAL, CreateSession(0, Commit));
    assert Untouched(w);
    assert After(INITIAL, []) == INITIAL;
    hide After, Step, Untouched;
    assert actions[..2][..1] == actions[..1] && actions[..1][..0] == [];
    AfterNext(actions[..1]);
    AfterNext(actions[..2]);
    AfterNext(actions);
    SceneStarts(w);
    SceneWaits(Step(w, StartSession(0, 0, Commit)));
  }

  lemma AfterNext(actions: seq<Action>)
    requires actions != []
    ensures After(INITIAL, actions) == Step(After(INITIAL, actions[..|actions| - 1]), actions[|actions| - 1])
  {
  }

  lemma SceneSet()
    ensures var w := After(INITIAL, Scene());
      Open(w) && w.damaged == {} && 0 in w.db.sessions && w.db.events == [ROW] && Ended(w.db, 0, 1)
  {
    SceneRuns();
    AfterNext(Scene());
    hide After, RunTargets, Staged, StageFiles;
    assert ValidEnding(STOPPED);
  }

  /** There is a run of the server that ends with it open, and with a shard that contradicts its database. */
  lemma OpenAndStale()
    ensures exists actions :: var w := After(INITIAL, actions);
      Open(w) && !Agrees(w.db, w.files, {}) && w.damaged != {}
  {
    hide After, Step, Agrees;
    var w := After(INITIAL, Scene());
    SceneSet();
    ReachableInv(Scene());
    hide WorldInv;
    assert Find([ROW], 0, 0) == Some(ROW) by { assert [ROW][0] == ROW; }
    CanceledDeletion(w, ROW, 2);
    var actions := Scene() + [DeleteByUser(0, 0, 2, Canceled({KeyOf(0, 1)}))];
    assert actions[..|Scene()|] == Scene();
    AfterNext(actions);
  }
}
