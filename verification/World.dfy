/**
  The Agent Runtime as a state machine: the committed database, the history files, and the memory
  that a crash loses. Every action is one critical section of the server, with the fate of its
  transaction as a parameter.
 */
module World {
  import opened Prelude
  import opened Matchers
  import opened Tables
  import opened Transactions
  import opened History
  import opened Invariants

  // How a transaction ended: committed, rolled back with the persistence fault latched, or rolled back
  // because the caller's own request was canceled. A rollback may leave shards it could not restore.
  datatype Fate = Commit | Fault(left: set<ShardKey>) | Canceled(left: set<ShardKey>)

  datatype ActiveRun = ActiveRun(run: RunId, canceled: bool)

  // damaged only observes: the shards that a rollback could not restore and nothing has rewritten since.
  datatype World = World(
    db: Db, files: Files, active: map<SessionId, ActiveRun>, closed: bool, fault: bool, damaged: set<ShardKey>)

  const INITIAL := World(EMPTY_DB, map[], map[], false, false, {})

  predicate Open(w: World) {
    !w.closed && !w.fault
  }

  function CancelAll(active: map<SessionId, ActiveRun>): map<SessionId, ActiveRun> {
    map s | s in active :: active[s].(canceled := true)
  }

  // latchPersistenceFaultLocked
  function Latch(w: World): World {
    w.(fault := true, active := CancelAll(w.active))
  }

  // A failed transaction without history leaves only its fault behind.
  function Aborted(w: World, fate: Fate): World {
    if fate.Fault? then Latch(w) else w
  }

  // The stuck shards among the staged ones keep the content of the candidate.
  function Stuck(w: World, candidate: Db, targets: set<ShardKey>, left: set<ShardKey>): World {
    var keys := left * Staged(candidate, targets);
    w.(files := Overwritten(candidate, w.files, keys), damaged := w.damaged + keys)
  }

  // A failed transaction with history.
  function AbortedStage(w: World, candidate: Db, targets: set<ShardKey>, fate: Fate): World {
    if fate.Commit? then w else Aborted(Stuck(w, candidate, targets, fate.left), fate)
  }

  // Commit a candidate together with the history shards staged for it.
  function Install(w: World, db: Db, targets: set<ShardKey>): World {
    w.(db := StageIndex(db, targets), files := StageFiles(db, w.files, targets), damaged := w.damaged - Staged(db, targets))
  }

  function Launch(w: World, launches: map<SessionId, RunId>): World {
    w.(active := w.active + map s | s in launches :: ActiveRun(launches[s], false))
  }

  // ---------------------------------------------------------------------------------------------
  // Staging targets
  // ---------------------------------------------------------------------------------------------

  // StageEventSince
  function LogTargets(rows: seq<LogRow>): set<ShardKey> {
    (set r | r in rows :: KeyOf(r.event.owner, r.event.createdRun)) +
    (set r | r in rows && r.outcomeRun.Some? :: KeyOf(r.event.owner, r.outcomeRun.value))
  }

  // RelatedRunIDsTx
  function RunTargets(db: Db, s: SessionId, k: RunId): set<ShardKey> {
    {KeyOf(s, k)} +
    (set r | r in db.log && r.event.owner == s && r.outcomeRun == Some(k) :: KeyOf(s, r.event.createdRun)) +
    (if RunKey(s, k) in db.runs && db.runs[RunKey(s, k)].triggers.Some?
     then TriggerTargets(s, db.runs[RunKey(s, k)].triggers.value) else {})
  }

  function TriggerTargets(s: SessionId, triggers: seq<Trigger>): set<ShardKey> {
    set t | t in triggers && t.EventTrigger? && t.createdRun > 0 :: KeyOf(s, t.createdRun)
  }

  // ClearanceRunIDs
  function ClearanceTargets(db: Db, s: SessionId): set<ShardKey>
    requires s in db.sessions
  {
    {KeyOf(s, db.sessions[s].current)} +
    (set e | e in OwnedRows(db.events, s) :: KeyOf(s, e.createdRun)) +
    TriggerTargets(s, Queue(db, s))
  }

  // repairRunHistory and runningRunTargetsTx
  function StatusTargets(db: Db, running: bool): set<ShardKey> {
    set key | key in db.runs && (db.runs[key].status == Running) == running :: KeyOf(key.session, key.id)
  }

  // ---------------------------------------------------------------------------------------------
  // Actions
  // ---------------------------------------------------------------------------------------------

  datatype Claim =
    | Local
    | Watch(probe: Probe)
    | ChatWake(session: SessionId, messages: seq<nat>)

  datatype Action =
    | CreateSession(s: SessionId, fate: Fate)
    | StartSession(s: SessionId, now: Time, fate: Fate)
    | RetryRun(s: SessionId, k: RunId, now: Time, fate: Fate)
    | ChangeSession(s: SessionId, deleting: bool, now: Time, fate: Fate)
    | CreateEvent(row: EventRow, fate: Fate)
    | DeleteByAgent(s: SessionId, k: RunId, event: EventId, now: Time, fate: Fate)
    | DeleteByUser(s: SessionId, event: EventId, now: Time, fate: Fate)
    | Round(claim: Claim, now: Time, fate: Fate)
    | Progress(s: SessionId, k: RunId, modelCalls: nat, toolCalls: nat, progress: seq<string>)
    | InitialContext(s: SessionId, k: RunId, context: string)
    | SaveConversation(s: SessionId, k: RunId, messages: seq<string>)
    | SaveMemory(s: SessionId, k: RunId, memory: nat, fate: Fate)
    | FinishRun(s: SessionId, k: RunId, ending: Ending, now: Time, fate: Fate)
    | LeaveRun(s: SessionId, now: Time, fate: Fate)
    | Quiesce(order: seq<SessionId>, failing: map<SessionId, set<ShardKey>>, now: Time)
    | LatchFault
    | Reopen(files: Files, aborted: set<ShardKey>, order: seq<SessionId>, now: Time)

  // SELECT ... FROM events WHERE id = ? AND owner_session_id = ?
  function Find(events: seq<EventRow>, id: EventId, owner: SessionId): (r: Option<EventRow>)
    ensures r.Some? ==> r.value in events && r.value.id == id && r.value.owner == owner
    ensures r.None? ==> forall e | e in events :: e.id != id || e.owner != owner
  {
    if events == [] then None
    else
      var n := |events| - 1;
      if events[n].id == id && events[n].owner == owner then Some(events[n]) else Find(events[..n], id, owner)
  }

  predicate UsedId(db: Db, id: EventId) {
    (exists e | e in db.events :: e.id == id) || (exists r | r in db.log :: r.event.id == id)
  }

  // The claim of one round: the Events it removes, the triggers it enqueues, the Sessions it wakes.
  function ClaimOf(db: Db, claim: Claim, active: set<SessionId>, now: Time): Claimed {
    match claim
    case Local =>
      var expired := RemoveAll(db, ExpiredRows(db.events, now), Expired, now);
      ClaimFrom(expired, Timers, now, Select(expired.events, Timers, now), [])
    case Watch(probe) => ClaimFrom(db, probe, now, Select(db.events, probe, now), [])
    case ChatWake(s, messages) =>
      if !SessionIs(db, s, SessionRunning) || s in active then Claimed(db, [])
      else Claimed(if messages == [] then db else Enqueue(db, s, ChatMention(messages)), [s])
  }

  function RetryOf(run: Run, k: RunId): RunId {
    if run.retryOf.Some? then run.retryOf.value else k
  }

  predicate Retryable(w: World, s: SessionId, k: RunId) {
    && s !in w.active && SessionIs(w.db, s, SessionRunning)
    && RunKey(s, k) in w.db.runs && w.db.runs[RunKey(s, k)].status == RunStatus.Failed
    && w.db.sessions[s].current == k
    && w.db.runs[RunKey(s, k)].retryAttempt < MAX_MANUAL_RETRIES
  }

  // The Run goroutine may leave once its Run is over, its context is canceled, or persistence failed.
  predicate MayLeave(w: World, s: SessionId) {
    s in w.active && (w.active[s].canceled || w.fault || !IsRunning(w.db, s, w.active[s].run))
  }

  // persistTerminalRunLocked; a completed Run additionally needs an open Runtime.
  function Finish(w: World, s: SessionId, k: RunId, ending: Ending, now: Time, fate: Fate): World {
    if !ValidEnding(ending) || (ending.status == Completed && !Open(w)) then w
    else if fate != Commit then
      var left := if IsRunning(w.db, s, k) then Stuck(w, EndRun(w.db, RunKey(s, k), ending, now), RunTargets(w.db, s, k), fate.left) else w;
      if ending.status == Completed then left else Latch(left)
    else if !IsRunning(w.db, s, k) then w
    else Install(w, EndRun(w.db, RunKey(s, k), ending, now), RunTargets(w.db, s, k))
  }

  // One round of Quiesce over a single active Run: interrupt it, then cancel it.
  function InterruptOne(w: World, s: SessionId, now: Time, fate: Fate): World {
    if s !in w.active then w
    else
      var done := Finish(w, s, w.active[s].run, SHUTDOWN, now, fate);
      done.(active := done.active[s := w.active[s].(canceled := true)])
  }

  // The Sessions whose interruption fails, with the shards each leaves.
  function FateOf(failing: map<SessionId, set<ShardKey>>, s: SessionId): Fate {
    if s in failing then Fault(failing[s]) else Commit
  }

  function InterruptEach(w: World, order: seq<SessionId>, failing: map<SessionId, set<ShardKey>>, now: Time): World
    decreases |order|
  {
    if order == [] then w
    else InterruptEach(InterruptOne(w, order[0], now, FateOf(failing, order[0])), order[1..], failing, now)
  }

  // The running Sessions, each once.
  predicate RunningOrder(db: Db, order: seq<SessionId>) {
    && (forall i, j | 0 <= i < j < |order| :: order[i] != order[j])
    && (forall s | s in order :: SessionIs(db, s, SessionRunning))
    && (forall s | s in db.sessions && db.sessions[s].status == SessionRunning :: s in order)
  }

  // A crash leaves the committed database and whatever the files have become; reopening repairs the
  // shards, then interrupts and relaunches. Earlier attempts to reopen may have been aborted after
  // repairing some shards.
  function Reopened(db: Db, files: Files, order: seq<SessionId>, now: Time): World {
    var repaired := StatusTargets(db, false);
    var db1, files1 := StageIndex(db, repaired), StageFiles(db, files, repaired);
    var recovered := RecoverFrom(InterruptAll(db1, now), order, now, map[]);
    Launch(Install(World(db1, files1, map[], false, false, {}), recovered.db, StatusTargets(db1, true)), recovered.launches)
  }

  function Step(w: World, a: Action): World {
    match a
    case CreateSession(s, fate) =>
      if !Open(w) || s in w.db.sessions then w
      else if fate == Commit then w.(db := AddSession(w.db, s)) else Aborted(w, fate)

    case StartSession(s, now, fate) =>
      if !Open(w) || !SessionIs(w.db, s, SessionStopped) || s in w.active then w
      else if fate != Commit then Aborted(w, fate)
      else
        var cause := if w.db.sessions[s].current == 0 then SessionStart else SessionRestart;
        var db := InsertRun(w.db, s, NewRun(cause, None, now, None, 0));
        Launch(w.(db := db), map[s := db.sessions[s].current])

    case RetryRun(s, k, now, fate) =>
      if !Open(w) || !Retryable(w, s, k) then w
      else if fate != Commit then Aborted(w, fate)
      else
        var failed := w.db.runs[RunKey(s, k)];
        var run := NewRun(ManualRetry, None, now, Some(RetryOf(failed, k)), failed.retryAttempt + 1);
        Launch(w.(db := InsertRun(w.db, s, run)), map[s := k + 1])

    case ChangeSession(s, deleting, now, fate) =>
      if !Open(w) || s !in w.db.sessions || (!deleting && SessionIs(w.db, s, SessionDeleted)) then w
      else
        var db := ChangeState(w.db, s, deleting, now);
        var targets := if SessionIs(w.db, s, SessionRunning) then ClearanceTargets(w.db, s) else {};
        var done := Install(w, db, targets);
        if fate != Commit then AbortedStage(w, db, targets, fate)
        else if s in w.active then done.(active := w.active[s := w.active[s].(canceled := true)]) else done

    case CreateEvent(row, fate) =>
      if !Open(w) || !IsRunning(w.db, row.owner, row.createdRun) || UsedId(w.db, row.id) then w
      else if fate != Commit then Latch(w)
      else if |OwnedRows(w.db.events, row.owner)| >= MAX_ACTIVE_EVENTS then w
      else w.(db := w.db.(events := InsertEvent(w.db.events, row.(memo := Nothing))))

    case DeleteByAgent(s, k, event, now, fate) =>
      if !Open(w) || !IsRunning(w.db, s, k) then w
      else
        var row := Find(w.db.events, event, s);
        if row.None? then if fate == Commit then w else Latch(w)
        else
          var db := RemoveRecord(w.db, row.value, DeletedByAgent, Some(k), None, now);
          var targets := LogTargets(Since(db.log, |w.db.log|));
          if fate == Commit then Install(w, db, targets) else Latch(Stuck(w, db, targets, fate.left))

    case DeleteByUser(s, event, now, fate) =>
      var row := Find(w.db.events, event, s);
      if !Open(w) || s !in w.db.sessions || row.None? then w
      else
        var db := RemoveRecord(w.db, row.value, DeletedByUser, None, None, now);
        var targets := LogTargets(Since(db.log, |w.db.log|));
        if fate == Commit then Install(w, db, targets) else AbortedStage(w, db, targets, fate)

    case Round(claim, now, fate) =>
      if !Open(w) then w
      else
        var claimed := ClaimOf(w.db, claim, w.active.Keys, now);
        var admitted := AdmitFrom(claimed.db, claimed.fired, w.active.Keys, now, map[]);
        var targets := LogTargets(Since(admitted.db.log, |w.db.log|));
        if fate == Commit then Launch(Install(w, admitted.db, targets), admitted.launches)
        else AbortedStage(w, admitted.db, targets, fate)

    case Progress(s, k, modelCalls, toolCalls, progress) =>
      if !IsRunning(w.db, s, k) then w
      else
        var run := w.db.runs[RunKey(s, k)].(modelCalls := modelCalls, toolCalls := toolCalls, progress := progress);
        w.(db := PutRun(w.db, RunKey(s, k), run))

    case InitialContext(s, k, context) =>
      if !IsRunning(w.db, s, k) || w.db.runs[RunKey(s, k)].initialContext.Some? then w
      else w.(db := PutRun(w.db, RunKey(s, k), w.db.runs[RunKey(s, k)].(initialContext := Some(context))))

    case SaveConversation(s, k, messages) =>
      if !IsRunning(w.db, s, k) then w
      else w.(db := w.db.(conversations := w.db.conversations[s := Conversation(k, messages)]))

    case SaveMemory(s, k, memory, fate) =>
      if !Open(w) || !IsRunning(w.db, s, k) || memory == 0 then w
      else if fate != Commit then Latch(w)
      else w.(db := w.db.(memories := w.db.memories + [MemoryRow(s, k, memory)]))

    case FinishRun(s, k, ending, now, fate) => Finish(w, s, k, ending, now, fate)

    case LeaveRun(s, now, fate) =>
      if !MayLeave(w, s) then w
      else
        var left := w.(active := w.active - {s});
        if !Open(left) || !HasPending(left.db, s) then left
        else if fate != Commit then Latch(left)
        else Launch(left.(db := StartPending(left.db, s, now)), map[s := left.db.sessions[s].current + 1])

    case Quiesce(order, failing, now) =>
      if w.closed || !(w.active.Keys <= (set s | s in order)) then w
      else InterruptEach(w.(closed := true), order, failing, now)

    case LatchFault => Latch(w)

    case Reopen(files, aborted, order, now) =>
      if !RunningOrder(w.db, order) || !(aborted <= StatusTargets(w.db, false)) then w else Reopened(StageIndex(w.db, aborted), files, order, now)
  }
}
