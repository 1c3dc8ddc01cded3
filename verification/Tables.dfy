/**
  The tables of the Agent database, as one value. A transaction works on a candidate value that
  either replaces the committed one or is dropped.
 */
module Tables {
  import opened Prelude
  import opened Matchers

  const MAX_TRIGGERS_PER_RUN := 10
  const MAX_ACTIVE_EVENTS := 10
  const MAX_MANUAL_RETRIES := 3
  const SHARD_SIZE := 20

  datatype SessionStatus = SessionStopped | SessionRunning | SessionDeleted

  datatype RunStatus = Running | Completed | Failed | Interrupted

  datatype Cause = SessionStart | SessionRestart | EventCause | ManualRetry | ServerRecovery

  // A queued wake-up: a fired Event, or chat messages that tag an idle Session.
  datatype Trigger =
    | EventTrigger(event: EventId, createdRun: RunId, kind: Kind, expiresAt: Time, firedAt: Time, facts: Match)
    | ChatMention(messages: seq<nat>)

  datatype EventRow = EventRow(
    id: EventId, owner: SessionId, createdRun: RunId, kind: Kind, memo: Memo, createdAt: Time, expiresAt: Time)

  // What a stop saves for the next start.
  datatype Restart = Restart(previousRun: RunId, status: RunStatus, cleared: seq<EventRow>, pending: seq<Trigger>)

  datatype Session = Session(status: SessionStatus, current: RunId, restart: Option<Restart>)

  datatype RunKey = RunKey(session: SessionId, id: RunId)

  datatype Run = Run(
    status: RunStatus, cause: Cause, triggers: Option<seq<Trigger>>,
    summary: Option<string>, output: Option<string>, error: Option<string>,
    progress: seq<string>, initialContext: Option<string>, modelCalls: int, toolCalls: int,
    started: Time, ended: Option<Time>, retryOf: Option<RunId>, retryAttempt: int)

  datatype Outcome = Fired | Expired | DeletedByAgent | DeletedByUser | ClearedByStop | ClearedByDelete

  datatype LogRow = LogRow(event: EventRow, outcome: Outcome, outcomeRun: Option<RunId>, detail: Option<Match>, at: Time)

  datatype PendingRow = PendingRow(id: nat, session: SessionId, trigger: Trigger)

  datatype Conversation = Conversation(run: RunId, messages: seq<string>)

  datatype MemoryRow = MemoryRow(session: SessionId, run: RunId, memory: nat)

  datatype ShardKey = ShardKey(session: SessionId, start: RunId)

  // Where the triggers of a Session went: into a Run, or drained by a stop or delete.
  datatype Batch = TakenBy(run: RunId, triggers: seq<Trigger>) | Drained(triggers: seq<Trigger>)

  /**
    arrived and taken are history variables: they record, per Session, every trigger ever enqueued
    and every batch that left the queue. Nothing below reads them to decide what to do.
   */
  datatype Db = Db(
    sessions: map<SessionId, Session>,
    runs: map<RunKey, Run>,
    events: seq<EventRow>,
    pending: seq<PendingRow>,
    nextPending: nat,
    log: seq<LogRow>,
    conversations: map<SessionId, Conversation>,
    memories: seq<MemoryRow>,
    index: map<ShardKey, RunId>,
    arrived: map<SessionId, seq<Trigger>>,
    taken: map<SessionId, seq<Batch>>)

  const EMPTY_DB := Db(map[], map[], [], [], 0, [], map[], [], map[], map[], map[])

  // ---------------------------------------------------------------------------------------------
  // Queries
  // ---------------------------------------------------------------------------------------------

  predicate Terminal(status: RunStatus) {
    status != Running
  }

  predicate IsRunning(db: Db, s: SessionId, k: RunId) {
    RunKey(s, k) in db.runs && db.runs[RunKey(s, k)].status == Running
  }

  predicate SessionIs(db: Db, s: SessionId, status: SessionStatus) {
    s in db.sessions && db.sessions[s].status == status
  }

  // SELECT ... FROM pending_triggers WHERE session_id = ? ORDER BY id
  function RowsOf(pending: seq<PendingRow>, s: SessionId): seq<PendingRow> {
    if pending == [] then []
    else
      var n := |pending| - 1;
      RowsOf(pending[..n], s) + if pending[n].session == s then [pending[n]] else []
  }

  function Payloads(rows: seq<PendingRow>): (p: seq<Trigger>)
    ensures |p| == |rows|
    ensures forall i | 0 <= i < |rows| :: p[i] == rows[i].trigger
  {
    seq(|rows|, i requires 0 <= i < |rows| => rows[i].trigger)
  }

  // The trigger queue of a Session, in arrival order.
  function Queue(db: Db, s: SessionId): seq<Trigger> {
    Payloads(RowsOf(db.pending, s))
  }

  // DELETE FROM pending_triggers WHERE id IN ids
  function DeleteIds(pending: seq<PendingRow>, ids: set<nat>): seq<PendingRow> {
    if pending == [] then []
    else
      var n := |pending| - 1;
      DeleteIds(pending[..n], ids) + if pending[n].id in ids then [] else [pending[n]]
  }

  // SELECT id FROM pending_triggers WHERE session_id = ? ORDER BY id LIMIT limit
  function FirstIds(pending: seq<PendingRow>, s: SessionId, limit: nat): set<nat>
    requires limit <= |RowsOf(pending, s)|
  {
    Ids(RowsOf(pending, s)[..limit])
  }

  function Ids(rows: seq<PendingRow>): set<nat> {
    set r | r in rows :: r.id
  }

  // DELETE FROM events WHERE id = ?
  function DeleteEvent(events: seq<EventRow>, id: EventId): (r: seq<EventRow>)
    ensures forall e :: e in r <==> e in events && e.id != id
    ensures |r| <= |events|
  {
    if events == [] then []
    else
      var n := |events| - 1;
      DeleteEvent(events[..n], id) + if events[n].id == id then [] else [events[n]]
  }

  // ORDER BY created_at, id
  predicate Before(a: EventRow, b: EventRow) {
    a.createdAt < b.createdAt || (a.createdAt == b.createdAt && a.id < b.id)
  }

  function InsertEvent(events: seq<EventRow>, e: EventRow): (r: seq<EventRow>)
    ensures forall x :: x in r <==> x in events || x == e
    ensures |r| == |events| + 1
  {
    if events == [] then [e]
    else
      var n := |events| - 1;
      if Before(e, events[n]) then InsertEvent(events[..n], e) + [events[n]] else events + [e]
  }

  // UPDATE events SET state_json = ? WHERE id = ?
  function SetMemo(events: seq<EventRow>, id: EventId, memo: Memo): (r: seq<EventRow>)
    ensures |r| == |events|
    ensures forall i | 0 <= i < |events| ::
      r[i] == if events[i].id == id then events[i].(memo := memo) else events[i]
  {
    seq(|events|, i requires 0 <= i < |events| =>
      if events[i].id == id then events[i].(memo := memo) else events[i])
  }

  function Flatten(batches: seq<Batch>): seq<Trigger> {
    if batches == [] then []
    else Flatten(batches[..|batches| - 1]) + batches[|batches| - 1].triggers
  }

  // The trigger a fired Event enqueues.
  function FiredTrigger(row: LogRow): Trigger
    requires row.detail.Some?
  {
    EventTrigger(row.event.id, row.event.createdRun, row.event.kind, row.event.expiresAt, row.at, row.detail.value)
  }

  // The triggers owed by the log to a Session: one per row that fired, in log order.
  function FiredTriggers(log: seq<LogRow>, s: SessionId): seq<Trigger> {
    if log == [] then []
    else
      var row := log[|log| - 1];
      FiredTriggers(log[..|log| - 1], s) +
      if row.outcome == Fired && row.event.owner == s && row.detail.Some? then [FiredTrigger(row)] else []
  }

  function EventTriggers(triggers: seq<Trigger>): seq<Trigger> {
    if triggers == [] then []
    else
      var t := triggers[|triggers| - 1];
      EventTriggers(triggers[..|triggers| - 1]) + if t.EventTrigger? then [t] else []
  }

  // The event_log rows a Run created or resolved, in log order.
  predicate Touches(row: LogRow, s: SessionId, k: RunId) {
    row.event.owner == s && (row.event.createdRun == k || row.outcomeRun == Some(k))
  }

  function EventsOf(log: seq<LogRow>, s: SessionId, k: RunId): seq<LogRow> {
    if log == [] then []
    else
      var row := log[|log| - 1];
      EventsOf(log[..|log| - 1], s, k) + if Touches(row, s, k) then [row] else []
  }

  // The rows logged after a point of the log.
  function Since(log: seq<LogRow>, n: nat): seq<LogRow> {
    if n <= |log| then log[n..] else []
  }

  function MemoriesOf(memories: seq<MemoryRow>, s: SessionId, k: RunId): seq<nat> {
    if memories == [] then []
    else
      var row := memories[|memories| - 1];
      MemoriesOf(memories[..|memories| - 1], s, k) + if row.session == s && row.run == k then [row.memory] else []
  }

  // ---------------------------------------------------------------------------------------------
  // Queue lemmas: the rows deleted are exactly the rows read
  // ---------------------------------------------------------------------------------------------

  ghost predicate Increasing(pending: seq<PendingRow>) {
    forall i, j | 0 <= i < j < |pending| :: pending[i].id < pending[j].id
  }

  lemma RowsOfAppend(pending: seq<PendingRow>, row: PendingRow, s: SessionId)
    ensures RowsOf(pending + [row], s) == RowsOf(pending, s) + if row.session == s then [row] else []
  {
    assert (pending + [row])[..|pending|] == pending;
  }

  lemma RowsOfMembers(pending: seq<PendingRow>, s: SessionId)
    ensures forall r :: r in RowsOf(pending, s) <==> r in pending && r.session == s
  {
    if pending != [] {
      var n := |pending| - 1;
      RowsOfMembers(pending[..n], s);
      assert pending == pending[..n] + [pending[n]];
    }
  }

  lemma DeleteMembers(pending: seq<PendingRow>, ids: set<nat>)
    ensures forall r :: r in DeleteIds(pending, ids) <==> r in pending && r.id !in ids
  {
    if pending != [] {
      var n := |pending| - 1;
      DeleteMembers(pending[..n], ids);
      assert pending == pending[..n] + [pending[n]];
    }
  }

  lemma DeleteIncreasing(pending: seq<PendingRow>, ids: set<nat>)
    requires Increasing(pending)
    ensures Increasing(DeleteIds(pending, ids))
  {
    if pending != [] {
      var n := |pending| - 1;
      DeleteIncreasing(pending[..n], ids);
      DeleteMembers(pending[..n], ids);
      var d := DeleteIds(pending[..n], ids);
      assert forall r | r in d :: r.id < pending[n].id;
      assert forall i | 0 <= i < |d| :: d[i] in d;
    }
  }

  // An id that no row carries can be dropped from the deletion set.
  lemma DeleteUnused(pending: seq<PendingRow>, ids: set<nat>, id: nat)
    requires forall r | r in pending :: r.id != id
    ensures DeleteIds(pending, ids + {id}) == DeleteIds(pending, ids)
  {
    if pending != [] {
      var n := |pending| - 1;
      assert pending[n] in pending;
      DeleteUnused(pending[..n], ids, id);
    }
  }

  lemma IdsAppend(rows: seq<PendingRow>, r: PendingRow)
    ensures Ids(rows + [r]) == Ids(rows) + {r.id}
  {
    forall id | id in Ids(rows) + {r.id} ensures id in Ids(rows + [r]) {
      var x :| (x in rows || x == r) && x.id == id;
      assert x in rows + [r];
    }
  }

  lemma DeleteLast(q: seq<PendingRow>, r: PendingRow, ids: set<nat>, s: SessionId)
    ensures RowsOf(DeleteIds(q + [r], ids), s)
         == RowsOf(DeleteIds(q, ids), s) + if r.session == s && r.id !in ids then [r] else []
  {
    var d := DeleteIds(q, ids);
    assert (q + [r])[..|q|] == q;
    if r.id in ids {
      assert DeleteIds(q + [r], ids) == d;
    } else {
      RowsOfAppend(d, r, s);
    }
  }

  // No row of q carries the id of the row after it.
  lemma FreshLast(q: seq<PendingRow>, r: PendingRow, s: SessionId, n: nat)
    requires Increasing(q + [r]) && n <= |RowsOf(q, s)|
    ensures forall x | x in q :: x.id != r.id
    ensures r.id !in FirstIds(q, s, n)
  {
    var p := q + [r];
    forall x | x in q ensures x.id < r.id {
      var i :| 0 <= i < |q| && q[i] == x;
      assert p[i] == x && p[|q|] == r;
    }
    RowsOfMembers(q, s);
    assert forall x | x in RowsOf(q, s)[..n] :: x in RowsOf(q, s);
  }

  // The rows of a Session after the last row r of q + [r]: kept when only n rows of q are taken.
  lemma TakeBefore(q: seq<PendingRow>, r: PendingRow, s: SessionId, n: nat, other: SessionId)
    requires Increasing(q + [r]) && n <= |RowsOf(q, s)| <= |RowsOf(q + [r], s)|
    ensures RowsOf(DeleteIds(q + [r], FirstIds(q + [r], s, n)), other)
         == RowsOf(DeleteIds(q, FirstIds(q, s, n)), other) + if r.session == other then [r] else []
  {
    RowsOfAppend(q, r, s);
    assert RowsOf(q + [r], s)[..n] == RowsOf(q, s)[..n];
    FreshLast(q, r, s, n);
    DeleteLast(q, r, FirstIds(q, s, n), other);
  }

  // ... and dropped when it is the n-th row itself.
  lemma TakeLast(q: seq<PendingRow>, r: PendingRow, s: SessionId, other: SessionId)
    requires Increasing(q + [r]) && r.session == s
    requires |RowsOf(q + [r], s)| == |RowsOf(q, s)| + 1
    ensures RowsOf(DeleteIds(q + [r], FirstIds(q + [r], s, |RowsOf(q, s)| + 1)), other)
         == RowsOf(DeleteIds(q, FirstIds(q, s, |RowsOf(q, s)|)), other)
  {
    var front := RowsOf(q, s);
    var n := |front|;
    RowsOfAppend(q, r, s);
    FreshLast(q, r, s, n);
    assert RowsOf(q + [r], s)[..n + 1] == front[..n] + [r];
    IdsAppend(front[..n], r);
    DeleteUnused(q, FirstIds(q, s, n), r.id);
    DeleteLast(q, r, FirstIds(q + [r], s, n + 1), other);
  }

  /** Reading the first n rows of a Session and deleting them by id removes them and nothing else. */
  lemma {:induction false} TakeFirst(pending: seq<PendingRow>, s: SessionId, n: nat, other: SessionId)
    requires Increasing(pending) && n <= |RowsOf(pending, s)|
    ensures RowsOf(DeleteIds(pending, FirstIds(pending, s, n)), other)
         == if other == s then RowsOf(pending, s)[n..] else RowsOf(pending, other)
    decreases |pending|, 1
  {
    if pending != [] {
      var m := |pending| - 1;
      var q, r := pending[..m], pending[m];
      assert pending == q + [r];
      TakeStep(q, r, s, n, other);
    }
  }

  lemma {:induction false} TakeStep(q: seq<PendingRow>, r: PendingRow, s: SessionId, n: nat, other: SessionId)
    requires Increasing(q + [r]) && n <= |RowsOf(q + [r], s)|
    ensures RowsOf(DeleteIds(q + [r], FirstIds(q + [r], s, n)), other)
         == if other == s then RowsOf(q + [r], s)[n..] else RowsOf(q + [r], other)
    decreases |q| + 1, 0
  {
    var front := RowsOf(q, s);
    assert Increasing(q) by {
      assert forall i | 0 <= i < |q| :: q[i] == (q + [r])[i];
    }
    var left := RowsOf(DeleteIds(q + [r], FirstIds(q + [r], s, n)), other);
    if n <= |front| {
      var tail := if r.session == other then [r] else [];
      assert left == RowsOf(DeleteIds(q, FirstIds(q, s, n)), other) + tail by {
        RowsOfAppend(q, r, s);
        TakeBefore(q, r, s, n, other);
      }
      assert left == (if other == s then front[n..] else RowsOf(q, other)) + tail by {
        TakeFirst(q, s, n, other);
      }
      RowsOfAppend(q, r, other);
      if other == s {
        assert (front + tail)[n..] == front[n..] + tail;
      }
    } else {
      RowsOfAppend(q, r, s);
      assert left == RowsOf(DeleteIds(q, FirstIds(q, s, |front|)), other) by {
        TakeLast(q, r, s, other);
      }
      assert left == if other == s then front[|front|..] else RowsOf(q, other) by {
        TakeFirst(q, s, |front|, other);
      }
      RowsOfAppend(q, r, other);
    }
  }

  lemma FlattenAppend(batches: seq<Batch>, b: Batch)
    ensures Flatten(batches + [b]) == Flatten(batches) + b.triggers
  {
    assert (batches + [b])[..|batches|] == batches;
  }

  lemma FiredAppend(log: seq<LogRow>, row: LogRow, s: SessionId)
    ensures FiredTriggers(log + [row], s) == FiredTriggers(log, s) +
      if row.outcome == Fired && row.event.owner == s && row.detail.Some? then [FiredTrigger(row)] else []
  {
    assert (log + [row])[..|log|] == log;
  }

  lemma EventTriggersAppend(triggers: seq<Trigger>, t: Trigger)
    ensures EventTriggers(triggers + [t]) == EventTriggers(triggers) + if t.EventTrigger? then [t] else []
  {
    assert (triggers + [t])[..|triggers|] == triggers;
  }

  lemma EventsOfAppend(log: seq<LogRow>, row: LogRow, s: SessionId, k: RunId)
    ensures EventsOf(log + [row], s, k) == EventsOf(log, s, k) + if Touches(row, s, k) then [row] else []
  {
    assert (log + [row])[..|log|] == log;
  }

  lemma MemoriesOfAppend(memories: seq<MemoryRow>, row: MemoryRow, s: SessionId, k: RunId)
    ensures MemoriesOf(memories + [row], s, k)
         == MemoriesOf(memories, s, k) + if row.session == s && row.run == k then [row.memory] else []
  {
    assert (memories + [row])[..|memories|] == memories;
  }
}
