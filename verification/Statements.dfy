/**
  The loops of the Runtime's transactions, statement by statement, on a candidate database. Each is
  proved to compute the transaction function that the rest of the project reasons about.
 */
module Statements {
  import opened Prelude
  import opened Matchers
  import opened Tables
  import opened Transactions
  import opened History
  import opened Invariants
  import opened Preservation
  import opened World
  import opened Staging
  import opened Safety
  import opened Rounds

  // The RowsAffected of DELETE FROM events WHERE id = ?
  function Affected(events: seq<EventRow>, id: EventId): nat {
    |events| - |DeleteEvent(events, id)|
  }

  lemma DeleteNone(events: seq<EventRow>, id: EventId)
    requires forall e | e in events :: e.id != id
    ensures DeleteEvent(events, id) == events
  {
    if events != [] {
      var n := |events| - 1;
      assert events[n] in events;
      DeleteNone(events[..n], id);
      assert events == events[..n] + [events[n]];
    }
  }

  /** An active Event is one row: claiming it affects exactly that row. */
  lemma {:induction false} ClaimedOnce(events: seq<EventRow>, e: EventRow)
    requires Distinct(events) && e in events
    ensures Affected(events, e.id) == 1
    decreases |events|
  {
    var n := |events| - 1;
    assert events == events[..n] + [events[n]];
    if events[n] == e {
      DeleteNone(events[..n], e.id);
    } else {
      ClaimedOnce(events[..n], e);
    }
  }

  method RemoveRecordTx(tx: Db, row: EventRow, outcome: Outcome, run: Option<RunId>, detail: Option<Match>, at: Time)
    returns (ok: bool, tx': Db)
    ensures ok <==> Affected(tx.events, row.id) == 1
    ensures ok ==> tx' == RemoveRecord(tx, row, outcome, run, detail, at)
  {
    var kept := DeleteEvent(tx.events, row.id);
    if |tx.events| - |kept| != 1 {
      return false, tx;
    }
    tx' := tx.(events := kept);
    tx' := tx'.(log := tx'.log + [LogRow(row, outcome, run, detail, at)]);
    return true, tx';
  }

  method FireEventTx(tx: Db, row: EventRow, facts: Match, now: Time) returns (ok: bool, tx': Db)
    ensures ok <==> Affected(tx.events, row.id) == 1
    ensures ok ==> tx' == FireEvent(tx, row, facts, now)
  {
    ok, tx' := RemoveRecordTx(tx, row, Fired, None, Some(facts), now);
    if ok {
      tx' := Enqueue(tx', row.owner, EventTrigger(row.id, row.createdRun, row.kind, row.expiresAt, now, facts));
    }
  }

  lemma OneRow(db: Db, e: EventRow)
    requires DbInv(db) && e in db.events
    ensures Affected(db.events, e.id) == 1
  {
    hide DbInv, Affected;
    EventIds(db);
    ClaimedOnce(db.events, e);
  }

  lemma FirstClaimable(db: Db, probe: Probe, now: Time, rows: seq<EventRow>)
    requires rows != [] && Claimable(db, probe, now, rows)
    ensures rows[0] in db.events
  {
    assert rows[0] in rows;
  }

  /** FireTimersTx, MatchPriceTx and MatchPositionCloseTx: no claim of an active row can be refused. */
  method ClaimTx(tx: Db, probe: Probe, now: Time) returns (ok: bool, tx': Db, fired: seq<SessionId>)
    requires DbInv(tx)
    ensures ok
    ensures Claimed(tx', fired) == ClaimFrom(tx, probe, now, Select(tx.events, probe, now), [])
    ensures DbInv(tx')
  {
    hide DbInv, Claimable, ClaimEffect, NoRepeats, Selects, Affected, FireEvent, EventTable;
    var rows := Select(tx.events, probe, now);
    EventIds(tx);
    SelectClaimable(tx, probe, now);
    tx', fired := tx, [];
    var i := 0;
    assert rows[0..] == rows;
    while i < |rows|
      invariant 0 <= i <= |rows| && DbInv(tx') && Claimable(tx', probe, now, rows[i..])
      invariant ClaimFrom(tx', probe, now, rows[i..], fired) == ClaimFrom(tx, probe, now, rows, [])
    {
      var row := rows[i];
      assert rows[i..][0] == row && rows[i..][1..] == rows[i + 1..];
      FirstClaimable(tx', probe, now, rows[i..]);
      match Decide(probe, row) {
        case Skip =>
          RestClaimable(tx', tx', probe, now, rows[i..]);
        case Remember(memo) =>
          SetMemoInv(tx', row.id, memo);
          KeepsOthers(tx', row.id, memo);
          var next := tx'.(events := SetMemo(tx'.events, row.id, memo));
          RestClaimable(tx', next, probe, now, rows[i..]);
          tx' := next;
        case Fire(facts) =>
          OneRow(tx', row);
          FireStep(tx', probe, now, rows[i..], facts);
          var won, next := FireEventTx(tx', row, facts, now);
          if !won {
            return false, tx', fired;
          }
          tx' := next;
          fired := AppendUnique(fired, row.owner);
      }
      i := i + 1;
    }
    return true, tx', fired;
  }

  /** The loops of ExpireTx and ClearSessionTx: every row is still there when its turn comes. */
  method RemoveAllTx(tx: Db, rows: seq<EventRow>, outcome: Outcome, at: Time) returns (ok: bool, tx': Db)
    requires DbInv(tx) && RemovableAll(tx, rows, outcome, at) && outcome != Fired
    ensures ok && tx' == RemoveAll(tx, rows, outcome, at) && DbInv(tx')
  {
    hide DbInv, RemovableAll, Affected, RemoveRecord;
    tx' := tx;
    assert rows[0..] == rows;
    for i := 0 to |rows|
      invariant DbInv(tx') && RemovableAll(tx', rows[i..], outcome, at)
      invariant RemoveAll(tx', rows[i..], outcome, at) == RemoveAll(tx, rows, outcome, at)
    {
      assert rows[i..][0] == rows[i] && rows[i..][1..] == rows[i + 1..];
      RemoveFirst(tx', rows[i..], outcome, at);
      var removed, next := RemoveRecordTx(tx', rows[i], outcome, None, None, at);
      if !removed {
        return false, tx';
      }
      tx' := next;
    }
    return true, tx';
  }

  lemma RemoveFirst(db: Db, rows: seq<EventRow>, outcome: Outcome, at: Time)
    requires DbInv(db) && rows != [] && RemovableAll(db, rows, outcome, at) && outcome != Fired
    ensures Affected(db.events, rows[0].id) == 1
    ensures var next := RemoveRecord(db, rows[0], outcome, None, None, at);
      DbInv(next) && RemovableAll(next, rows[1..], outcome, at)
  {
    hide DbInv, Affected;
    assert rows[0] in rows;
    OneRow(db, rows[0]);
    OneRemovable(db, rows, outcome, at);
    LoggedInv(db, LogRow(rows[0], outcome, None, None, at));
    RestRemovable(db, rows, outcome, at);
  }

  /** startPendingRunTx: at most ten triggers, the oldest first, and exactly those rows go. */
  method StartPendingRunTx(tx: Db, s: SessionId, now: Time) returns (launched: bool, tx': Db)
    ensures launched <==> HasPending(tx, s)
    ensures tx' == if launched then StartPending(tx, s, now) else tx
  {
    if !SessionIs(tx, s, SessionRunning) {
      return false, tx;
    }
    var rows := RowsOf(tx.pending, s);
    var limit := if |rows| <= MAX_TRIGGERS_PER_RUN then |rows| else MAX_TRIGGERS_PER_RUN;
    var payloads := Payloads(rows[..limit]);
    if |payloads| == 0 {
      return false, tx;
    }
    assert payloads == NextBatch(tx, s);
    var k := tx.sessions[s].current + 1;
    tx' := tx.(runs := tx.runs[RunKey(s, k) := NewRun(EventCause, Some(payloads), now, None, 0)]);
    tx' := tx'.(sessions := tx'.sessions[s := tx'.sessions[s].(current := k)]);
    tx' := tx'.(pending := DeleteIds(tx'.pending, FirstIds(tx'.pending, s, |payloads|)),
                taken := tx'.taken[s := TakenOf(tx', s) + [TakenBy(k, payloads)]]);
    assert tx.sessions[s].(status := SessionRunning, current := k) == tx.sessions[s].(current := k);
    return true, tx';
  }

  /** admitFiredSessionsTx */
  method AdmitTx(tx: Db, fired: seq<SessionId>, busy: set<SessionId>, now: Time)
    returns (tx': Db, launches: map<SessionId, RunId>)
    ensures Admitted(tx', launches) == AdmitFrom(tx, fired, busy, now, map[])
  {
    hide HasPending, StartPending;
    tx', launches := tx, map[];
    assert fired[0..] == fired;
    for i := 0 to |fired|
      invariant AdmitFrom(tx', fired[i..], busy, now, launches) == AdmitFrom(tx, fired, busy, now, map[])
    {
      var s := fired[i];
      assert fired[i..][0] == s && fired[i..][1..] == fired[i + 1..];
      if s !in busy {
        var launched, next := StartPendingRunTx(tx', s, now);
        if launched {
          StartedCurrent(tx', s, now);
          tx' := next;
          launches := launches[s := tx'.sessions[s].current];
        }
      }
    }
  }

  /** createRecoveryRunsTx */
  method RecoverTx(tx: Db, order: seq<SessionId>, now: Time) returns (tx': Db, launches: map<SessionId, RunId>)
    ensures Admitted(tx', launches) == RecoverFrom(tx, order, now, map[])
  {
    tx', launches := tx, map[];
    assert order[0..] == order;
    for i := 0 to |order|
      invariant RecoverFrom(tx', order[i..], now, launches) == RecoverFrom(tx, order, now, map[])
    {
      var s := order[i];
      assert order[i..][0] == s && order[i..][1..] == order[i + 1..];
      if s in tx'.sessions {
        tx' := InsertRun(tx', s, NewRun(ServerRecovery, None, now, None, 0));
        launches := launches[s := tx'.sessions[s].current];
      }
    }
  }

  // ---------------------------------------------------------------------------------------------
  // Staging targets
  // ---------------------------------------------------------------------------------------------

  /** StageEventSince: the shards of the rows logged after a point. */
  method TargetsSince(log: seq<LogRow>, after: nat) returns (targets: seq<ShardKey>)
    ensures TargetSet(targets) == LogTargets(Since(log, after))
  {
    hide KeyOf;
    targets := [];
    var rows := Since(log, after);
    for i := 0 to |rows|
      invariant TargetSet(targets) == LogTargets(rows[..i])
    {
      assert rows[..i + 1] == rows[..i] + [rows[i]];
      LogTargetsAppend(rows[..i], rows[i]);
      TargetAppend(targets, KeyOf(rows[i].event.owner, rows[i].event.createdRun));
      targets := targets + [KeyOf(rows[i].event.owner, rows[i].event.createdRun)];
      if rows[i].outcomeRun.Some? {
        TargetAppend(targets, KeyOf(rows[i].event.owner, rows[i].outcomeRun.value));
        targets := targets + [KeyOf(rows[i].event.owner, rows[i].outcomeRun.value)];
      }
    }
    assert rows[..|rows|] == rows;
  }

  lemma TargetAppend(targets: seq<ShardKey>, key: ShardKey)
    ensures TargetSet(targets + [key]) == TargetSet(targets) + {key}
  {
  }

  lemma LogTargetsAppend(rows: seq<LogRow>, row: LogRow)
    ensures LogTargets(rows + [row]) == LogTargets(rows) + {KeyOf(row.event.owner, row.event.createdRun)} +
      (if row.outcomeRun.Some? then {KeyOf(row.event.owner, row.outcomeRun.value)} else {})
  {
    hide KeyOf;
    assert forall r :: r in rows + [row] <==> r in rows || r == row;
  }

  function RunKeys(s: SessionId, ids: seq<RunId>): set<ShardKey> {
    set k | k in ids && k > 0 :: KeyOf(s, k)
  }

  /** StageRunIDs: the distinct shards of the positive ids. */
  method TargetsOf(s: SessionId, ids: seq<RunId>) returns (targets: seq<ShardKey>)
    ensures TargetSet(targets) == RunKeys(s, ids)
  {
    hide KeyOf;
    targets := [];
    var seen: set<RunId> := {};
    for i := 0 to |ids|
      invariant TargetSet(targets) == RunKeys(s, ids[..i])
      invariant seen == set key | key in TargetSet(targets) :: key.start
      invariant forall key | key in TargetSet(targets) :: key.session == s
    {
      assert ids[..i + 1] == ids[..i] + [ids[i]];
      RunKeysAppend(s, ids[..i], ids[i]);
      if ids[i] > 0 {
        var key := KeyOf(s, ids[i]);
        KeyParts(s, ids[i]);
        TargetAppend(targets, key);
        if key.start !in seen {
          seen := seen + {key.start};
          targets := targets + [key];
        } else {
          var other :| other in TargetSet(targets) && other.start == key.start;
          assert other == key;
        }
      }
    }
    assert ids[..|ids|] == ids;
  }

  lemma KeyParts(s: SessionId, k: RunId)
    ensures KeyOf(s, k) == ShardKey(s, ShardStart(k))
  {
  }

  lemma RunKeysAppend(s: SessionId, ids: seq<RunId>, k: RunId)
    ensures RunKeys(s, ids + [k]) == RunKeys(s, ids) + if k > 0 then {KeyOf(s, k)} else {}
  {
    hide KeyOf;
    assert forall x :: x in ids + [k] <==> x in ids || x == k;
  }

  // The Runs that created the Events of a list of triggers.
  function CreatedRuns(triggers: seq<Trigger>): seq<RunId> {
    if triggers == [] then []
    else
      var t := triggers[|triggers| - 1];
      CreatedRuns(triggers[..|triggers| - 1]) + if t.EventTrigger? then [t.createdRun] else [0]
  }

  lemma {:induction false} CreatedTargets(s: SessionId, triggers: seq<Trigger>)
    ensures RunKeys(s, CreatedRuns(triggers)) == TriggerTargets(s, triggers)
    decreases |triggers|
  {
    hide KeyOf;
    if triggers != [] {
      var n := |triggers| - 1;
      var k := if triggers[n].EventTrigger? then triggers[n].createdRun else 0;
      CreatedTargets(s, triggers[..n]);
      RunKeysAppend(s, CreatedRuns(triggers[..n]), k);
      assert triggers == triggers[..n] + [triggers[n]];
      assert forall t :: t in triggers <==> t in triggers[..n] || t == triggers[n];
    }
  }

  // The Runs whose Events a Run resolved.
  function ResolvedRuns(log: seq<LogRow>, s: SessionId, k: RunId): seq<RunId> {
    if log == [] then []
    else
      var row := log[|log| - 1];
      ResolvedRuns(log[..|log| - 1], s, k) +
      if row.event.owner == s && row.outcomeRun == Some(k) then [row.event.createdRun] else []
  }

  lemma {:induction false} ResolvedMembers(log: seq<LogRow>, s: SessionId, k: RunId, j: RunId)
    ensures j in ResolvedRuns(log, s, k) <==>
      exists r :: r in log && r.event.owner == s && r.outcomeRun == Some(k) && r.event.createdRun == j
    decreases |log|
  {
    if log != [] {
      var n := |log| - 1;
      ResolvedMembers(log[..n], s, k, j);
      assert log == log[..n] + [log[n]];
      assert forall r :: r in log <==> r in log[..n] || r == log[n];
    }
  }

  lemma RunKeysConcat(s: SessionId, a: seq<RunId>, b: seq<RunId>)
    ensures RunKeys(s, a + b) == RunKeys(s, a) + RunKeys(s, b)
  {
    hide KeyOf;
    assert forall x :: x in a + b <==> x in a || x in b;
  }

  lemma LoggedRunsPositive(db: Db)
    requires DbInv(db)
    ensures forall r | r in db.log :: r.event.createdRun > 0
    ensures forall e | e in db.events :: e.createdRun > 0
  {
    hide Shaped, Retries, QueueTable, Conserved, BatchesStored, Accounted, Written, Distinct;
    forall r | r in db.log ensures r.event.createdRun > 0 {
      assert LogShape(db, r);
    }
  }

  lemma ResolvedTargets(db: Db, s: SessionId, k: RunId)
    requires DbInv(db)
    ensures RunKeys(s, ResolvedRuns(db.log, s, k))
         == set r | r in db.log && r.event.owner == s && r.outcomeRun == Some(k) :: KeyOf(s, r.event.createdRun)
  {
    hide DbInv, KeyOf, ResolvedRuns;
    LoggedRunsPositive(db);
    var keys := set r | r in db.log && r.event.owner == s && r.outcomeRun == Some(k) :: KeyOf(s, r.event.createdRun);
    forall key | key in RunKeys(s, ResolvedRuns(db.log, s, k)) ensures key in keys {
      var j :| j in ResolvedRuns(db.log, s, k) && j > 0 && KeyOf(s, j) == key;
      ResolvedMembers(db.log, s, k, j);
    }
    forall r | r in db.log && r.event.owner == s && r.outcomeRun == Some(k)
      ensures KeyOf(s, r.event.createdRun) in RunKeys(s, ResolvedRuns(db.log, s, k))
    {
      ResolvedMembers(db.log, s, k, r.event.createdRun);
    }
  }

  /** RelatedRunIDsTx: the Run, the Runs whose Events it resolved, and those whose Events started it. */
  method RelatedRunIDs(tx: Db, s: SessionId, k: RunId) returns (ids: seq<RunId>)
    requires DbInv(tx) && k > 0
    ensures RunKeys(s, ids) == RunTargets(tx, s, k)
  {
    hide DbInv, KeyOf, TriggerTargets, RunKeys;
    ids := [k] + ResolvedRuns(tx.log, s, k);
    assert RunKeys(s, ids) == {KeyOf(s, k)} + RunKeys(s, ResolvedRuns(tx.log, s, k)) by {
      RunKeysConcat(s, [k], ResolvedRuns(tx.log, s, k));
      SingleKey(s, k);
    }
    ResolvedTargets(tx, s, k);
    if RunKey(s, k) in tx.runs && tx.runs[RunKey(s, k)].triggers.Some? {
      CreatedTargets(s, tx.runs[RunKey(s, k)].triggers.value);
      RunKeysConcat(s, ids, CreatedRuns(tx.runs[RunKey(s, k)].triggers.value));
      ids := ids + CreatedRuns(tx.runs[RunKey(s, k)].triggers.value);
    }
  }

  lemma SingleKey(s: SessionId, k: RunId)
    requires k > 0
    ensures RunKeys(s, [k]) == {KeyOf(s, k)}
  {
    hide KeyOf;
    assert k in [k];
  }

  lemma OwnedKeys(s: SessionId, rows: seq<EventRow>)
    requires forall e | e in rows :: e.createdRun > 0
    ensures RunKeys(s, seq(|rows|, i requires 0 <= i < |rows| => rows[i].createdRun)) == set e | e in rows :: KeyOf(s, e.createdRun)
  {
    hide KeyOf;
    var ids := seq(|rows|, i requires 0 <= i < |rows| => rows[i].createdRun);
    forall e | e in rows ensures e.createdRun in ids {
      var i :| 0 <= i < |rows| && rows[i] == e;
      assert ids[i] == e.createdRun;
    }
    forall j | j in ids ensures exists e :: e in rows && e.createdRun == j {
      var i :| 0 <= i < |ids| && ids[i] == j;
      assert rows[i] in rows;
    }
  }

  /** ClearanceRunIDs: the current Run and the Runs behind what a stop clears. */
  method ClearanceRunIDs(tx: Db, s: SessionId) returns (ids: seq<RunId>)
    requires DbInv(tx) && SessionIs(tx, s, SessionRunning)
    ensures RunKeys(s, ids) == ClearanceTargets(tx, s)
  {
    hide DbInv, KeyOf, TriggerTargets, RunKeys, Queue;
    var rows := OwnedRows(tx.events, s);
    var created := seq(|rows|, i requires 0 <= i < |rows| => rows[i].createdRun);
    LoggedRunsPositive(tx);
    CurrentPositive(tx, s);
    SingleKey(s, tx.sessions[s].current);
    OwnedKeys(s, rows);
    CreatedTargets(s, Queue(tx, s));
    RunKeysConcat(s, [tx.sessions[s].current], created);
    RunKeysConcat(s, [tx.sessions[s].current] + created, CreatedRuns(Queue(tx, s)));
    ids := [tx.sessions[s].current] + created + CreatedRuns(Queue(tx, s));
  }
}
