/**
  The loops and composite transactions of the Runtime keep the database invariant, and only ever
  extend what is already final.
 */
module Preservation {
  import opened Prelude
  import opened Matchers
  import opened Tables
  import opened Transactions
  import opened Invariants

  // ---------------------------------------------------------------------------------------------
  // What no committed step undoes
  // ---------------------------------------------------------------------------------------------

  ghost predicate SessionsEvolve(a: map<SessionId, Session>, b: map<SessionId, Session>) {
    forall s | s in a ::
      s in b && a[s].current <= b[s].current && (a[s].status == SessionDeleted ==> b[s].status == SessionDeleted)
  }

  // A terminal Run is frozen; a running one keeps how it started.
  ghost predicate RunsEvolve(a: map<RunKey, Run>, b: map<RunKey, Run>) {
    forall key | key in a ::
      && key in b && (Terminal(a[key].status) ==> b[key] == a[key])
      && b[key].cause == a[key].cause && b[key].triggers == a[key].triggers
      && b[key].retryOf == a[key].retryOf && b[key].retryAttempt == a[key].retryAttempt
  }

  ghost predicate Extends<T>(a: map<SessionId, seq<T>>, b: map<SessionId, seq<T>>) {
    forall s | s in a :: s in b && a[s] <= b[s]
  }

  ghost predicate ConversationsEvolve(a: map<SessionId, Conversation>, b: map<SessionId, Conversation>) {
    forall s | s in a :: s in b && a[s].run <= b[s].run
  }

  // An Event without what its matcher remembers.
  function Core(e: EventRow): EventRow {
    e.(memo := Nothing)
  }

  // Every Event that was ever created: still active, or in the log.
  ghost function Known(db: Db): set<EventRow> {
    KnownIn(db.events, db.log)
  }

  ghost function KnownIn(events: seq<EventRow>, log: seq<LogRow>): set<EventRow> {
    (set e | e in events :: Core(e)) + (set r | r in log :: Core(r.event))
  }

  ghost predicate Ended(db: Db, s: SessionId, k: RunId) {
    RunKey(s, k) in db.runs && Terminal(db.runs[RunKey(s, k)].status)
  }

  // No Event is forgotten, and none is created by a Run that has ended.
  ghost predicate EventsEvolve(db: Db, db': Db) {
    && Known(db) <= Known(db')
    && (forall e | e in Known(db') && e !in Known(db) :: !Ended(db, e.owner, e.createdRun))
  }

  // Memories are only appended, and only by Runs that have not ended.
  ghost predicate MemoriesEvolve(db: Db, db': Db) {
    && db.memories <= db'.memories
    && (forall i | |db.memories| <= i < |db'.memories| :: !Ended(db, db'.memories[i].session, db'.memories[i].run))
  }

  ghost predicate Evolves(db: Db, db': Db) {
    && EventsEvolve(db, db') && MemoriesEvolve(db, db')
    && SessionsEvolve(db.sessions, db'.sessions)
    && RunsEvolve(db.runs, db'.runs)
    && Extends(db.arrived, db'.arrived)
    && Extends(db.taken, db'.taken)
    && ConversationsEvolve(db.conversations, db'.conversations)
    && db.log <= db'.log
  }

  lemma WritesTransitive(a: Db, b: Db, c: Db)
    requires RunsEvolve(a.runs, b.runs)
    requires EventsEvolve(a, b) && EventsEvolve(b, c) && MemoriesEvolve(a, b) && MemoriesEvolve(b, c)
    ensures EventsEvolve(a, c) && MemoriesEvolve(a, c)
  {
    hide KnownIn;
    assert forall s, k | Ended(a, s, k) :: Ended(b, s, k);
    assert forall i | 0 <= i < |b.memories| :: b.memories[i] == c.memories[i];
  }

  lemma EvolvesTransitive(a: Db, b: Db, c: Db)
    requires Evolves(a, b) && Evolves(b, c)
    ensures Evolves(a, c)
  {
    WritesTransitive(a, b, c);
    hide EventsEvolve, MemoriesEvolve;
    assert a.log <= c.log;
    forall s | s in a.arrived ensures s in c.arrived && a.arrived[s] <= c.arrived[s] {
      assert a.arrived[s] <= b.arrived[s];
    }
    forall s | s in a.taken ensures s in c.taken && a.taken[s] <= c.taken[s] {
      assert a.taken[s] <= b.taken[s];
    }
  }

  // ---------------------------------------------------------------------------------------------
  // Claims
  // ---------------------------------------------------------------------------------------------

  lemma SetMemoEvents(db: Db, id: EventId, memo: Memo)
    requires EventTable(db) && LogTable(db)
    ensures var db' := db.(events := SetMemo(db.events, id, memo)); EventTable(db') && LogTable(db')
  {
    var db' := db.(events := SetMemo(db.events, id, memo));
    forall e | e in db'.events ensures exists x :: x in db.events && x.id == e.id && x.owner == e.owner && x.createdRun == e.createdRun {
      var i :| 0 <= i < |db'.events| && db'.events[i] == e;
      assert db.events[i] in db.events;
    }
    forall row | row in db'.log ensures LogShape(db', row) {
      SameLogShape(db, db', row);
    }
  }

  lemma SetMemoInv(db: Db, id: EventId, memo: Memo)
    requires DbInv(db)
    ensures DbInv(db.(events := SetMemo(db.events, id, memo)))
  {
    hide Numbered, Shaped, Retries, EventTable, LogTable, QueueTable, Conserved, BatchesStored, Accounted, Written;
    var db' := db.(events := SetMemo(db.events, id, memo));
    SetMemoEvents(db, id, memo);
    FrameRuns(db, db');
    FrameQueue(db, db');
    FrameBalance(db, db');
    FrameAccounted(db, db');
    FrameWritten(db, db');
  }

  // The rows still to be visited are active and distinct.
  ghost predicate Claimable(db: Db, probe: Probe, now: Time, rows: seq<EventRow>) {
    && Distinct(rows)
    && forall e | e in rows :: e in db.events && Selects(probe, e, now)
  }

  // What a claim changes: Events, the log and the queues of the Sessions it reports.
  ghost predicate ClaimEffect(db: Db, db': Db, fired: seq<SessionId>) {
    && db'.sessions == db.sessions && db'.runs == db.runs && db'.conversations == db.conversations
    && db'.memories == db.memories && db'.index == db.index && db'.taken == db.taken
    && db.log <= db'.log && Extends(db.arrived, db'.arrived) && Known(db') == Known(db)
    && (forall s | s !in fired :: RowsOf(db'.pending, s) == RowsOf(db.pending, s))
  }

  lemma ClaimEffectTransitive(a: Db, b: Db, c: Db, some: seq<SessionId>, fired: seq<SessionId>)
    requires ClaimEffect(a, b, some) && ClaimEffect(b, c, fired) && (forall s | s in some :: s in fired)
    ensures ClaimEffect(a, c, fired)
  {
    hide KnownIn, RowsOf;
    forall s | s in a.arrived ensures s in c.arrived && a.arrived[s] <= c.arrived[s] {
      assert a.arrived[s] <= b.arrived[s];
    }
  }

  // An Event that leaves the active table is still known.
  lemma LoggedKnown(db: Db, row: LogRow)
    requires EventTable(db) && row.event in db.events
    ensures Known(Logged(db, row)) == Known(db)
  {
    var db' := Logged(db, row);
    forall e | e in db.events ensures Core(e) in Known(db') {
      if e.id == row.event.id {
        SameIdSameRow(db, e, row.event);
        assert row in db'.log;
      } else {
        assert e in db'.events;
      }
    }
    forall r | r in db.log ensures Core(r.event) in Known(db') {
      assert r in db'.log;
    }
    forall r | r in db'.log ensures Core(r.event) in Known(db) {
      assert r in db.log || r == row;
    }
  }

  lemma MemoKnown(db: Db, id: EventId, memo: Memo)
    ensures Known(db.(events := SetMemo(db.events, id, memo))) == Known(db)
  {
    var db' := db.(events := SetMemo(db.events, id, memo));
    forall e | e in db.events ensures Core(e) in Known(db') {
      var i :| 0 <= i < |db.events| && db.events[i] == e;
      assert db'.events[i] in db'.events && Core(db'.events[i]) == Core(e);
    }
    forall e | e in db'.events ensures Core(e) in Known(db) {
      var i :| 0 <= i < |db.events| && db'.events[i] == e;
      assert db.events[i] in db.events && Core(db.events[i]) == Core(e);
    }
  }

  lemma FireEffect(db: Db, row: EventRow, facts: Match, now: Time, fired: seq<SessionId>)
    requires row.owner in fired && EventTable(db) && row in db.events
    ensures ClaimEffect(db, FireEvent(db, row, facts, now), fired)
  {
    hide EventTable;
    LoggedKnown(db, LogRow(row, Fired, None, Some(facts), now));
    assert Known(FireEvent(db, row, facts, now)) == Known(Logged(db, LogRow(row, Fired, None, Some(facts), now)));
    hide KnownIn;
    var db' := FireEvent(db, row, facts, now);
    var t := EventTrigger(row.id, row.createdRun, row.kind, row.expiresAt, now, facts);
    forall s | s !in fired ensures RowsOf(db'.pending, s) == RowsOf(db.pending, s) {
      RowsOfAppend(db.pending, PendingRow(db.nextPending, row.owner, t), s);
    }
  }

  ghost predicate NoRepeats(fired: seq<SessionId>) {
    forall i, j | 0 <= i < j < |fired| :: fired[i] != fired[j]
  }

  lemma RestClaimable(db: Db, db': Db, probe: Probe, now: Time, rows: seq<EventRow>)
    requires rows != [] && Claimable(db, probe, now, rows)
    requires forall e | e in db.events && e.id != rows[0].id :: e in db'.events
    ensures Claimable(db', probe, now, rows[1..])
  {
    forall e | e in rows[1..] ensures e in db'.events && Selects(probe, e, now) {
      var i :| 0 <= i < |rows[1..]| && rows[1..][i] == e;
      assert rows[i + 1] == e;
      assert e in rows;
    }
  }

  lemma KeepsOthers(db: Db, id: EventId, memo: Memo)
    ensures forall e | e in db.events && e.id != id :: e in SetMemo(db.events, id, memo)
  {
    forall e | e in db.events && e.id != id ensures e in SetMemo(db.events, id, memo) {
      var i :| 0 <= i < |db.events| && db.events[i] == e;
      assert SetMemo(db.events, id, memo)[i] == e;
    }
  }

  /**
    A claim loop keeps the invariant, never reports a Session twice, reports every Session whose
    queue it extends, and reports only running Sessions.
   */
  lemma {:induction false} ClaimInv(db: Db, probe: Probe, now: Time, rows: seq<EventRow>, fired: seq<SessionId>)
    requires DbInv(db) && Claimable(db, probe, now, rows) && NoRepeats(fired)
    ensures var c := ClaimFrom(db, probe, now, rows, fired);
      && DbInv(c.db) && ClaimEffect(db, c.db, c.fired)
      && NoRepeats(c.fired) && (forall s | s in fired :: s in c.fired)
    decreases |rows|
  {
    hide DbInv, Selects, RowsOf, ClaimEffect, Claimable, NoRepeats;
    if rows == [] {
      NoEffect(db, fired);
    } else {
      var row := rows[0];
      var c := ClaimFrom(db, probe, now, rows, fired);
      match Decide(probe, row)
      case Skip =>
        RestClaimable(db, db, probe, now, rows);
        ClaimInv(db, probe, now, rows[1..], fired);
      case Remember(memo) =>
        var next := db.(events := SetMemo(db.events, row.id, memo));
        SetMemoInv(db, row.id, memo);
        KeepsOthers(db, row.id, memo);
        RestClaimable(db, next, probe, now, rows);
        ClaimInv(next, probe, now, rows[1..], fired);
        MemoEffect(db, row.id, memo, c.fired);
        ClaimEffectTransitive(db, next, c.db, c.fired, c.fired);
      case Fire(facts) =>
        var next := FireEvent(db, row, facts, now);
        FireStep(db, probe, now, rows, facts);
        UniqueAppend(fired, row.owner);
        hide FireEvent;
        ClaimInv(next, probe, now, rows[1..], AppendUnique(fired, row.owner));
        FireEffect(db, row, facts, now, c.fired);
        ClaimEffectTransitive(db, next, c.db, c.fired, c.fired);
    }
  }

  lemma NoEffect(db: Db, fired: seq<SessionId>)
    ensures ClaimEffect(db, db, fired)
  {
    hide RowsOf;
  }

  lemma MemoEffect(db: Db, id: EventId, memo: Memo, fired: seq<SessionId>)
    ensures ClaimEffect(db, db.(events := SetMemo(db.events, id, memo)), fired)
  {
    hide RowsOf, KnownIn;
    MemoKnown(db, id, memo);
  }

  lemma UniqueAppend(fired: seq<SessionId>, s: SessionId)
    requires NoRepeats(fired)
    ensures NoRepeats(AppendUnique(fired, s)) && s in AppendUnique(fired, s)
    ensures forall x | x in fired :: x in AppendUnique(fired, s)
  {
  }

  // Firing the first row selected.
  lemma FireStep(db: Db, probe: Probe, now: Time, rows: seq<EventRow>, facts: Match)
    requires DbInv(db) && rows != [] && Claimable(db, probe, now, rows)
    ensures var next := FireEvent(db, rows[0], facts, now);
      DbInv(next) && Claimable(next, probe, now, rows[1..]) && EventTable(db) && rows[0] in db.events
  {
    hide DbInv, Selects, EventTable, Distinct;
    assert rows[0] in rows;
    SelectedTiming(probe, rows[0], now);
    FireInv(db, rows[0], facts, now);
    RestClaimable(db, FireEvent(db, rows[0], facts, now), probe, now, rows);
    EventIds(db);
  }

  lemma SelectedTiming(probe: Probe, row: EventRow, now: Time)
    requires Selects(probe, row, now)
    ensures now < row.expiresAt && (row.kind.Timer? ==> row.kind.due <= now)
  {
  }

  // ---------------------------------------------------------------------------------------------
  // Removing Events: expiry, stop and delete
  // ---------------------------------------------------------------------------------------------

  ghost predicate RemovableAll(db: Db, rows: seq<EventRow>, outcome: Outcome, at: Time) {
    && Distinct(rows)
    && forall e | e in rows :: e in db.events && (outcome == Expired ==> at >= e.expiresAt)
  }

  lemma RestRemovable(db: Db, rows: seq<EventRow>, outcome: Outcome, at: Time)
    requires rows != [] && RemovableAll(db, rows, outcome, at)
    ensures RemovableAll(RemoveRecord(db, rows[0], outcome, None, None, at), rows[1..], outcome, at)
  {
    forall e | e in rows[1..] ensures e in rows && e.id != rows[0].id {
      var i :| 0 <= i < |rows[1..]| && rows[1..][i] == e;
      assert rows[i + 1] == e;
    }
  }

  /** Expiring or clearing a list of active Events touches nothing but the Events and the log. */
  lemma {:induction false} RemoveAllInv(db: Db, rows: seq<EventRow>, outcome: Outcome, at: Time)
    requires DbInv(db) && RemovableAll(db, rows, outcome, at) && outcome != Fired
    ensures var db' := RemoveAll(db, rows, outcome, at);
      && DbInv(db') && ClaimEffect(db, db', []) && db'.pending == db.pending && db'.arrived == db.arrived
      && (forall e :: e in db'.events <==> e in db.events && e !in rows)
    decreases |rows|
  {
    hide DbInv, RowsOf, KnownIn, EventTable;
    if rows != [] {
      var row := LogRow(rows[0], outcome, None, None, at);
      var next := RemoveRecord(db, rows[0], outcome, None, None, at);
      OneRemovable(db, rows, outcome, at);
      LoggedInv(db, row);
      RestRemovable(db, rows, outcome, at);
      RemoveAllInv(next, rows[1..], outcome, at);
      var db' := RemoveAll(db, rows, outcome, at);
      EventIds(db);
      LoggedKnown(db, row);
      assert ClaimEffect(db, next, []);
      ClaimEffectTransitive(db, next, db', [], []);
      RemovedMembers(db, db', rows, outcome, at);
    }
  }

  // The log rows written for a list of Events.
  function LogRows(rows: seq<EventRow>, outcome: Outcome, at: Time): seq<LogRow> {
    seq(|rows|, i requires 0 <= i < |rows| => LogRow(rows[i], outcome, None, None, at))
  }

  lemma {:induction false} RemoveAllLog(db: Db, rows: seq<EventRow>, outcome: Outcome, at: Time)
    ensures RemoveAll(db, rows, outcome, at).log == db.log + LogRows(rows, outcome, at)
    decreases |rows|
  {
    if rows != [] {
      RemoveAllLog(RemoveRecord(db, rows[0], outcome, None, None, at), rows[1..], outcome, at);
      assert LogRows(rows, outcome, at) == [LogRow(rows[0], outcome, None, None, at)] + LogRows(rows[1..], outcome, at);
    }
  }

  lemma OneRemovable(db: Db, rows: seq<EventRow>, outcome: Outcome, at: Time)
    requires DbInv(db) && rows != [] && RemovableAll(db, rows, outcome, at) && outcome != Fired
    ensures Removable(db, LogRow(rows[0], outcome, None, None, at))
  {
    hide DbInv;
    assert rows[0] in rows;
    OwnerOf(db, rows[0]);
  }

  lemma SameIdSameRow(db: Db, a: EventRow, b: EventRow)
    requires EventTable(db) && a in db.events && b in db.events && a.id == b.id
    ensures a == b
  {
  }

  lemma EventIds(db: Db)
    requires DbInv(db)
    ensures EventTable(db)
  {
    hide Numbered, Shaped, Retries, EventTable, LogTable, QueueTable, BatchesStored, Accounted, Written, Conserved;
  }

  lemma RemovedMembers(db: Db, db': Db, rows: seq<EventRow>, outcome: Outcome, at: Time)
    requires EventTable(db) && rows != [] && RemovableAll(db, rows, outcome, at)
    requires forall e :: e in db'.events <==>
      e in RemoveRecord(db, rows[0], outcome, None, None, at).events && e !in rows[1..]
    ensures forall e :: e in db'.events <==> e in db.events && e !in rows
  {
    hide EventTable, Distinct;
    assert rows == [rows[0]] + rows[1..];
    forall e ensures e in db'.events <==> e in db.events && e !in rows {
      if e in db.events && e.id == rows[0].id {
        assert rows[0] in rows;
        SameIdSameRow(db, e, rows[0]);
      }
    }
  }

  // ---------------------------------------------------------------------------------------------
  // Stop and delete
  // ---------------------------------------------------------------------------------------------

  function Drain(db: Db, s: SessionId): Db {
    Dequeue(db, s, |RowsOf(db.pending, s)|, Drained(Queue(db, s)))
  }

  lemma DrainBatches(db: Db, s: SessionId)
    requires BatchesStored(db) && s in db.taken
    ensures BatchesStored(Drain(db, s))
  {
    hide RowsOf, Queue, DeleteIds, FirstIds;
    var db' := Drain(db, s);
    assert db'.taken == db.taken[s := db.taken[s] + [Drained(Queue(db, s))]];
    forall key | key in db'.runs && db'.runs[key].triggers.Some?
      ensures key.session in db'.taken && TakenBy(key.id, db'.runs[key].triggers.value) in db'.taken[key.session]
    {
      assert TakenBy(key.id, db.runs[key].triggers.value) in db.taken[key.session];
    }
  }

  lemma DrainRows(db: Db, s: SessionId)
    requires QueueTable(db)
    ensures RowsOf(Drain(db, s).pending, s) == []
    ensures forall x | x != s :: RowsOf(Drain(db, s).pending, x) == RowsOf(db.pending, x)
  {
    hide RowsOf, DeleteIds, FirstIds;
    forall x ensures RowsOf(Drain(db, s).pending, x) == if x == s then [] else RowsOf(db.pending, x) {
      TakeFirst(db.pending, s, |RowsOf(db.pending, s)|, x);
    }
  }

  /** Draining the queue of a Session records everything that was waiting. */
  lemma DrainInv(db: Db, s: SessionId)
    requires DbInv(db) && s in db.sessions
    ensures DbInv(Drain(db, s)) && RowsOf(Drain(db, s).pending, s) == []
    ensures forall x | x != s :: RowsOf(Drain(db, s).pending, x) == RowsOf(db.pending, x)
  {
    hide Numbered, Shaped, Retries, EventTable, LogTable, QueueTable, Conserved, BatchesStored, Accounted, Written;
    hide RowsOf, DeleteIds, FirstIds;
    SessionLogged(db, s);
    DrainRows(db, s);
    var db' := Drain(db, s);
    DrainBatches(db, s);
    SameRuns(db, db');
    SameRetries(db, db');
    FrameEvents(db, db');
    DequeueQueue(db, s, |RowsOf(db.pending, s)|, Drained(Queue(db, s)));
    DequeueConserved(db, s, |RowsOf(db.pending, s)|, Drained(Queue(db, s)));
    FrameAccounted(db, db');
    FrameWritten(db, db');
  }

  function SetStatus(db: Db, s: SessionId, status: SessionStatus, restart: Option<Restart>): Db
    requires s in db.sessions
  {
    db.(sessions := db.sessions[s := db.sessions[s].(status := status, restart := restart)])
  }

  // Nothing of the Session is alive.
  ghost predicate Quiet(db: Db, s: SessionId) {
    Idle(db, s) && (forall e | e in db.events :: e.owner != s) && RowsOf(db.pending, s) == []
  }

  lemma SetStatusTables(db: Db, s: SessionId, status: SessionStatus, restart: Option<Restart>)
    requires EventTable(db) && LogTable(db) && QueueTable(db) && Quiet(db, s) && s in db.sessions
    ensures var db' := SetStatus(db, s, status, restart); EventTable(db') && LogTable(db') && QueueTable(db')
  {
    hide Distinct, Increasing;
    var db' := SetStatus(db, s, status, restart);
    RowsOfMembers(db.pending, s);
    forall row | row in db'.log ensures LogShape(db', row) {
      SameLogShape(db, db', row);
    }
  }

  lemma SetStatusNumbered(db: Db, s: SessionId, status: SessionStatus, restart: Option<Restart>)
    requires Numbered(db) && Idle(db, s) && s in db.sessions && status != SessionRunning
    ensures Numbered(SetStatus(db, s, status, restart))
  {
    forall key | key in db.runs && db.runs[key].status == Running ensures key.session != s {
      assert !IsRunning(db, s, key.id);
    }
  }

  /** A Session with nothing alive may leave the running state. */
  lemma SetStatusInv(db: Db, s: SessionId, status: SessionStatus, restart: Option<Restart>)
    requires DbInv(db) && Quiet(db, s) && s in db.sessions && status != SessionRunning
    ensures DbInv(SetStatus(db, s, status, restart))
  {
    hide Numbered, Shaped, Retries, EventTable, LogTable, QueueTable, Conserved, BatchesStored, Accounted, Written;
    var db' := SetStatus(db, s, status, restart);
    assert Idle(db, s);
    SetStatusNumbered(db, s, status, restart);
    SetStatusTables(db, s, status, restart);
    hide Quiet, Idle;
    SameRetries(db, db');
    FrameBatches(db, db');
    FrameConserved(db, db');
    SetStatusWritten(db, s, status, restart);
  }

  lemma SameRetries(db: Db, db': Db)
    requires Shaped(db) && Retries(db) && db'.runs == db.runs
    ensures Shaped(db') && Retries(db')
  {
    forall key | key in db'.runs ensures RetryShape(db', key) {
      assert RetryShape(db, key);
    }
  }

  lemma SetStatusWritten(db: Db, s: SessionId, status: SessionStatus, restart: Option<Restart>)
    requires Written(db) && s in db.sessions
    ensures Written(SetStatus(db, s, status, restart))
  {
  }

  lemma SetStatusQuiet(db: Db, s: SessionId, status: SessionStatus, restart: Option<Restart>)
    requires Quiet(db, s) && s in db.sessions
    ensures Quiet(SetStatus(db, s, status, restart), s)
  {
    var db' := SetStatus(db, s, status, restart);
    forall k ensures !IsRunning(db', s, k) {
      assert !IsRunning(db, s, k);
    }
  }

  lemma OwnedDistinct(events: seq<EventRow>, s: SessionId)
    requires Distinct(events)
    ensures Distinct(OwnedRows(events, s))
  {
    if events != [] {
      var n := |events| - 1;
      OwnedDistinct(events[..n], s);
      var d := OwnedRows(events[..n], s);
      assert forall i | 0 <= i < |d| :: d[i] in d;
    }
  }

  lemma OwnedRemovable(db: Db, s: SessionId, outcome: Outcome, at: Time)
    requires EventTable(db) && outcome != Expired
    ensures RemovableAll(db, OwnedRows(db.events, s), outcome, at)
  {
    OwnedDistinct(db.events, s);
  }

  /** Clearing a Session leaves it no Event and no queued trigger, and touches no other queue. */
  lemma ClearSessionInv(db: Db, s: SessionId, outcome: Outcome, now: Time)
    requires DbInv(db) && s in db.sessions && outcome != Fired && outcome != Expired
    ensures var db' := ClearSession(db, s, outcome, now);
      && DbInv(db') && ClearEffect(db, db', s, outcome, now)
      && (forall e | e in db'.events :: e.owner != s) && RowsOf(db'.pending, s) == []
  {
    hide DbInv, RowsOf, EventTable, DeleteIds, FirstIds;
    EventIds(db);
    OwnedRemovable(db, s, outcome, now);
    var rows := OwnedRows(db.events, s);
    var mid := RemoveAll(db, rows, outcome, now);
    RemoveAllInv(db, rows, outcome, now);
    RemoveAllLog(db, rows, outcome, now);
    hide RemoveAll, RemovableAll, ClaimEffect, LogRows, OwnedRows, Drain;
    assert mid.sessions == db.sessions by { ClaimSessions(db, mid, []); }
    DrainInv(mid, s);
    DrainEffect(db, mid, s, outcome, now);
    assert ClearSession(db, s, outcome, now) == Drain(mid, s) by { ClearIsDrain(db, s, outcome, now); }
    hide ClearSession;
    assert Drain(mid, s).events == mid.events by { DrainEvents(mid, s); }
  }

  lemma ClaimSessions(db: Db, db': Db, fired: seq<SessionId>)
    requires ClaimEffect(db, db', fired)
    ensures db'.sessions == db.sessions
  {
  }

  lemma ClearIsDrain(db: Db, s: SessionId, outcome: Outcome, now: Time)
    ensures ClearSession(db, s, outcome, now) == Drain(RemoveAll(db, OwnedRows(db.events, s), outcome, now), s)
  {
  }

  lemma DrainEvents(db: Db, s: SessionId)
    ensures Drain(db, s).events == db.events
  {
  }

  lemma DrainEffect(db: Db, mid: Db, s: SessionId, outcome: Outcome, now: Time)
    requires ClaimEffect(db, mid, []) && mid.pending == db.pending && mid.arrived == db.arrived
    requires mid.log == db.log + LogRows(OwnedRows(db.events, s), outcome, now)
    requires forall x | x != s :: RowsOf(Drain(mid, s).pending, x) == RowsOf(mid.pending, x)
    ensures ClearEffect(db, Drain(mid, s), s, outcome, now)
  {
    hide RowsOf, DeleteIds, FirstIds, KnownIn, LogRows, OwnedRows;
  }

  lemma OnlyCurrentRuns(db: Db, s: SessionId)
    requires DbInv(db) && s in db.sessions
    ensures forall k | IsRunning(db, s, k) :: k == db.sessions[s].current && db.sessions[s].status == SessionRunning
  {
    hide Shaped, Retries, EventTable, LogTable, QueueTable, Conserved, BatchesStored, Accounted, Written;
  }

  // The Session after the clearance and the end of its Run, before its status changes.
  function CurrentEnded(db: Db, s: SessionId, now: Time): Db
    requires s in db.sessions
  {
    var key := RunKey(s, db.sessions[s].current);
    if db.sessions[s].status == SessionRunning && IsRunning(db, s, key.id) then EndRun(db, key, HARD_STOP, now) else db
  }

  lemma EndedIdle(db: Db, s: SessionId, now: Time)
    requires forall k | IsRunning(db, s, k) :: s in db.sessions && k == db.sessions[s].current && db.sessions[s].status == SessionRunning
    requires s in db.sessions
    ensures Idle(CurrentEnded(db, s, now), s)
  {
    forall k ensures !IsRunning(CurrentEnded(db, s, now), s, k) {
      assert IsRunning(db, s, k) ==> k == db.sessions[s].current;
    }
  }

  lemma InterruptedInv(db: Db, s: SessionId, now: Time)
    requires DbInv(db) && s in db.sessions
    ensures DbInv(CurrentEnded(db, s, now)) && Idle(CurrentEnded(db, s, now), s)
  {
    hide DbInv, Idle;
    OnlyCurrentRuns(db, s);
    EndedIdle(db, s, now);
    var key := RunKey(s, db.sessions[s].current);
    if db.sessions[s].status == SessionRunning && IsRunning(db, s, key.id) {
      EndRunInv(db, key, HARD_STOP, now);
    }
  }

  /** A stopped or deleted Session has no running Run, no Event and no queued trigger. */
  lemma ChangeStateInv(db: Db, s: SessionId, deleting: bool, now: Time)
    requires DbInv(db) && s in db.sessions
    ensures var db' := ChangeState(db, s, deleting, now); DbInv(db') && Quiet(db', s)
  {
    hide DbInv, RowsOf, DeleteIds, FirstIds;
    var outcome := if deleting then ClearedByDelete else ClearedByStop;
    var cleared := ClearSession(db, s, outcome, now);
    ClearSessionInv(db, s, outcome, now);
    InterruptedInv(cleared, s, now);
    var ended := CurrentEnded(cleared, s, now);
    var status := if deleting then SessionDeleted else SessionStopped;
    var restart := NextRestart(db, s);
    hide ClearSession, NextRestart;
    assert Quiet(ended, s);
    SetStatusInv(ended, s, status, restart);
    SetStatusQuiet(ended, s, status, restart);
    hide Quiet;
    assert ChangeState(db, s, deleting, now) == SetStatus(ended, s, status, restart);
  }

  // What clearing a Session changes.
  ghost predicate ClearEffect(db: Db, db': Db, s: SessionId, outcome: Outcome, now: Time) {
    && db'.sessions == db.sessions && db'.runs == db.runs && db'.index == db.index
    && db'.memories == db.memories && db'.conversations == db.conversations && db'.arrived == db.arrived
    && db'.taken == db.taken[s := TakenOf(db, s) + [Drained(Queue(db, s))]]
    && (forall x | x != s :: RowsOf(db'.pending, x) == RowsOf(db.pending, x))
    && db'.log == db.log + LogRows(OwnedRows(db.events, s), outcome, now) && Known(db') == Known(db)
  }

  // What a stop or delete changes.
  ghost predicate ChangeEffect(db: Db, db': Db, s: SessionId, deleting: bool, now: Time)
    requires s in db.sessions
  {
    var k := db.sessions[s].current;
    && db'.sessions.Keys == db.sessions.Keys && db'.sessions[s].current == k
    && db'.sessions[s].status == (if deleting then SessionDeleted else SessionStopped)
    && (forall x | x in db.sessions && x != s :: db'.sessions[x] == db.sessions[x])
    && db'.runs == CurrentEnded(db, s, now).runs
    && ClearEffect(db, db'.(sessions := db.sessions, runs := db.runs), s, if deleting then ClearedByDelete else ClearedByStop, now)
  }

  // Ending the Run and changing the status of a cleared Session touches only those two tables.
  lemma StatusEffect(db: Db, s: SessionId, status: SessionStatus, restart: Option<Restart>, now: Time)
    requires s in db.sessions
    ensures var db' := SetStatus(CurrentEnded(db, s, now), s, status, restart);
      && db' == db.(sessions := db'.sessions, runs := db'.runs)
      && db'.sessions == db.sessions[s := db.sessions[s].(status := status, restart := restart)]
      && db'.runs == CurrentEnded(db, s, now).runs
  {
  }

  lemma ChangeIs(db: Db, s: SessionId, deleting: bool, now: Time)
    requires s in db.sessions
    requires ClearSession(db, s, if deleting then ClearedByDelete else ClearedByStop, now).sessions == db.sessions
    ensures ChangeState(db, s, deleting, now)
         == SetStatus(CurrentEnded(ClearSession(db, s, if deleting then ClearedByDelete else ClearedByStop, now), s, now),
                      s, if deleting then SessionDeleted else SessionStopped, NextRestart(db, s))
  {
    hide ClearSession, NextRestart;
  }

  lemma SameInterruption(db: Db, db': Db, s: SessionId, now: Time)
    requires s in db.sessions && db'.sessions == db.sessions && db'.runs == db.runs
    ensures CurrentEnded(db', s, now).runs == CurrentEnded(db, s, now).runs
  {
  }

  lemma ChangeFrom(db: Db, cleared: Db, s: SessionId, deleting: bool, restart: Option<Restart>, now: Time)
    requires s in db.sessions && ClearEffect(db, cleared, s, if deleting then ClearedByDelete else ClearedByStop, now)
    ensures s in cleared.sessions
    ensures ChangeEffect(db, SetStatus(CurrentEnded(cleared, s, now), s, if deleting then SessionDeleted else SessionStopped, restart),
                         s, deleting, now)
  {
    hide RowsOf, Queue, LogRows, OwnedRows, KnownIn, TakenOf;
    var status := if deleting then SessionDeleted else SessionStopped;
    StatusEffect(cleared, s, status, restart, now);
    SameInterruption(db, cleared, s, now);
    var db' := SetStatus(CurrentEnded(cleared, s, now), s, status, restart);
    hide SetStatus, CurrentEnded;
    assert db'.(sessions := db.sessions, runs := db.runs) == cleared;
    hide ClearEffect;
  }

  lemma ChangeStateEffect(db: Db, s: SessionId, deleting: bool, now: Time)
    requires DbInv(db) && s in db.sessions
    ensures ChangeEffect(db, ChangeState(db, s, deleting, now), s, deleting, now)
  {
    hide DbInv, RowsOf, Queue, LogRows, OwnedRows, KnownIn, TakenOf, ChangeState, ClearSession, ChangeEffect, NextRestart;
    var outcome := if deleting then ClearedByDelete else ClearedByStop;
    ClearSessionInv(db, s, outcome, now);
    var cleared := ClearSession(db, s, outcome, now);
    ChangeIs(db, s, deleting, now);
    ChangeFrom(db, cleared, s, deleting, NextRestart(db, s), now);
  }

  /**
    What a stop saves for the next start is what it cleared: the Events whose log rows it wrote and the
    triggers it drained, with the state the last Run was left in. It saves nothing only after a completed
    Run with nothing cleared, and a stop of a Session that is not running keeps what was saved before.
   */
  lemma StopRemembers(db: Db, s: SessionId, deleting: bool, now: Time)
    requires DbInv(db) && s in db.sessions
    ensures var db', k := ChangeState(db, s, deleting, now), db.sessions[s].current;
      && s in db'.sessions
      && (db.sessions[s].status != SessionRunning ==> db'.sessions[s].restart == db.sessions[s].restart)
      && (db.sessions[s].status == SessionRunning ==>
            && RunKey(s, k) in db'.runs
            && var cleared, drained, saved := Since(db'.log, |db.log|), Queue(db, s), db'.sessions[s].restart;
               && (saved.None? <==> db'.runs[RunKey(s, k)].status == Completed && cleared == [] && drained == [])
               && (saved.Some? ==>
                     && saved.value.previousRun == k && saved.value.status == db'.runs[RunKey(s, k)].status
                     && saved.value.pending == drained
                     && cleared == LogRows(saved.value.cleared, if deleting then ClearedByDelete else ClearedByStop, now)))
  {
    ChangeStateEffect(db, s, deleting, now);
    if db.sessions[s].status == SessionRunning {
      CurrentPositive(db, s);
      assert RunKey(s, db.sessions[s].current) in db.runs by { CurrentExists(db, s); }
    }
    ChangeRestart(db, s, deleting, now);
    hide DbInv, RowsOf, Queue, KnownIn, TakenOf, ChangeState;
    var outcome := if deleting then ClearedByDelete else ClearedByStop;
    assert Since(ChangeState(db, s, deleting, now).log, |db.log|) == LogRows(OwnedRows(db.events, s), outcome, now);
    assert OwnedRows(db.events, s) == [] <==> LogRows(OwnedRows(db.events, s), outcome, now) == [];
  }

  lemma CurrentExists(db: Db, s: SessionId)
    requires DbInv(db) && SessionIs(db, s, SessionRunning)
    ensures RunKey(s, db.sessions[s].current) in db.runs
  {
    hide Shaped, Retries, EventTable, LogTable, QueueTable, Conserved, BatchesStored, Accounted, Written;
  }

  lemma ChangeRestart(db: Db, s: SessionId, deleting: bool, now: Time)
    requires s in db.sessions
    ensures s in ChangeState(db, s, deleting, now).sessions
    ensures ChangeState(db, s, deleting, now).sessions[s].restart == NextRestart(db, s)
  {
    hide ClearSession, NextRestart, EndRun;
  }

  // ---------------------------------------------------------------------------------------------
  // Launching Runs
  // ---------------------------------------------------------------------------------------------

  // Every Session of the launch list runs with the next Run id; the others are untouched.
  ghost predicate SessionsLaunched(db: Db, db': Db, launches: map<SessionId, RunId>) {
    && db'.sessions.Keys == db.sessions.Keys
    && (forall s | s in db.sessions && s !in launches ::
          db'.sessions[s] == db.sessions[s] && RowsOf(db'.pending, s) == RowsOf(db.pending, s))
    && (forall s | s in launches ::
          && s in db.sessions && launches[s] == db.sessions[s].current + 1 == db'.sessions[s].current
          && db'.sessions[s].status == SessionRunning)
  }

  // The Runs of the launch list are new and running; the others are untouched.
  ghost predicate RunsLaunched(db: Db, db': Db, launches: map<SessionId, RunId>) {
    && (forall s | s in launches :: IsRunning(db', s, launches[s]))
    && (forall key | key in db.runs :: key in db'.runs && db'.runs[key] == db.runs[key])
    && (forall key | key in db'.runs && key !in db.runs :: key.session in launches && key.id == launches[key.session])
  }

  // db' is db with one more running Run for each Session of the launch list.
  ghost predicate Launched(db: Db, db': Db, launches: map<SessionId, RunId>) {
    && SessionsLaunched(db, db', launches) && RunsLaunched(db, db', launches)
    && db'.log == db.log && db'.conversations == db.conversations && db'.memories == db.memories
    && db'.index == db.index && db'.arrived == db.arrived && db'.events == db.events
    && Extends(db.taken, db'.taken)
  }

  lemma SessionsCompose(a: Db, b: Db, c: Db, s: SessionId, rest: map<SessionId, RunId>)
    requires s in b.sessions && s !in rest
    requires SessionsLaunched(a, b, map[s := b.sessions[s].current]) && SessionsLaunched(b, c, rest)
    ensures SessionsLaunched(a, c, rest[s := b.sessions[s].current])
  {
    hide RowsOf;
  }

  lemma RunsCompose(a: Db, b: Db, c: Db, s: SessionId, k: RunId, rest: map<SessionId, RunId>)
    requires s !in rest
    requires RunsLaunched(a, b, map[s := k]) && RunsLaunched(b, c, rest)
    ensures RunsLaunched(a, c, rest[s := k])
  {
    var one, both := map[s := k], rest[s := k];
    assert s in one && one[s] == k;
    assert IsRunning(b, s, k);
    forall x | x in both ensures IsRunning(c, x, both[x]) {
      if x == s {
        assert c.runs[RunKey(s, k)] == b.runs[RunKey(s, k)];
      }
    }
    forall key | key in c.runs && key !in a.runs ensures key.session in both && key.id == both[key.session] {
      if key in b.runs {
        assert key.session in one;
      } else {
        assert key.session != s;
      }
    }
  }

  lemma ExtendsTransitive<T>(a: map<SessionId, seq<T>>, b: map<SessionId, seq<T>>, c: map<SessionId, seq<T>>)
    requires Extends(a, b) && Extends(b, c)
    ensures Extends(a, c)
  {
    forall x | x in a ensures x in c && a[x] <= c[x] {
      assert a[x] <= b[x];
    }
  }

  lemma LaunchedCompose(a: Db, b: Db, c: Db, s: SessionId, rest: map<SessionId, RunId>)
    requires s in b.sessions && s !in rest
    requires Launched(a, b, map[s := b.sessions[s].current]) && Launched(b, c, rest)
    ensures Launched(a, c, rest[s := b.sessions[s].current])
  {
    hide SessionsLaunched, RunsLaunched, Extends;
    SessionsCompose(a, b, c, s, rest);
    RunsCompose(a, b, c, s, b.sessions[s].current, rest);
    ExtendsTransitive(a.taken, b.taken, c.taken);
  }

  lemma InsertRunLaunches(db: Db, s: SessionId, run: Run)
    requires s in db.sessions && run.status == Running && RunKey(s, db.sessions[s].current + 1) !in db.runs
    ensures Launched(db, InsertRun(db, s, run), map[s := db.sessions[s].current + 1])
  {
    hide RowsOf;
  }

  lemma NextIsNew(db: Db, s: SessionId)
    requires DbInv(db) && s in db.sessions
    ensures RunKey(s, db.sessions[s].current + 1) !in db.runs
  {
    hide Shaped, Retries, EventTable, LogTable, QueueTable, Conserved, BatchesStored, Accounted, Written;
  }

  lemma OtherQueues(db: Db, s: SessionId, now: Time)
    requires DbInv(db) && HasPending(db, s)
    ensures forall x | x != s :: RowsOf(StartPending(db, s, now).pending, x) == RowsOf(db.pending, x)
  {
    hide Numbered, Shaped, Retries, EventTable, LogTable, Conserved, BatchesStored, Accounted, Written;
    hide RowsOf, DeleteIds, FirstIds, Increasing;
    var db' := StartPending(db, s, now);
    forall x | x != s ensures RowsOf(db'.pending, x) == RowsOf(db.pending, x) {
      TakeFirst(db.pending, s, |NextBatch(db, s)|, x);
    }
  }

  lemma StartPendingLaunches(db: Db, s: SessionId, now: Time)
    requires DbInv(db) && HasPending(db, s)
    ensures Launched(db, StartPending(db, s, now), map[s := db.sessions[s].current + 1])
  {
    hide DbInv, RowsOf, DeleteIds, FirstIds;
    NextIsNew(db, s);
    OtherQueues(db, s, now);
  }

  lemma MergeOne(launches: map<SessionId, RunId>, s: SessionId, k: RunId, rest: map<SessionId, RunId>)
    ensures launches[s := k] + rest == launches + (map[s := k] + rest)
    ensures s !in rest ==> map[s := k] + rest == rest[s := k]
  {
  }

  lemma {:induction false} AdmitAccumulates(db: Db, fired: seq<SessionId>, busy: set<SessionId>, now: Time, launches: map<SessionId, RunId>)
    ensures AdmitFrom(db, fired, busy, now, launches)
         == Admitted(AdmitFrom(db, fired, busy, now, map[]).db, launches + AdmitFrom(db, fired, busy, now, map[]).launches)
    decreases |fired|
  {
    hide HasPending;
    if fired != [] {
      if fired[0] in busy || !HasPending(db, fired[0]) {
        AdmitAccumulates(db, fired[1..], busy, now, launches);
      } else {
        var next := StartPending(db, fired[0], now);
        hide StartPending;
        var k := next.sessions[fired[0]].current;
        assert AdmitFrom(db, fired, busy, now, launches) == AdmitFrom(next, fired[1..], busy, now, launches[fired[0] := k]);
        assert AdmitFrom(db, fired, busy, now, map[]) == AdmitFrom(next, fired[1..], busy, now, map[fired[0] := k]);
        AdmitAccumulates(next, fired[1..], busy, now, launches[fired[0] := k]);
        AdmitAccumulates(next, fired[1..], busy, now, map[fired[0] := k]);
        hide AdmitFrom;
        MergeOne(launches, fired[0], k, AdmitFrom(next, fired[1..], busy, now, map[]).launches);
      }
    }
  }

  // The Sessions a round may launch have no running Run yet.
  ghost predicate Admissible(db: Db, fired: seq<SessionId>, busy: set<SessionId>) {
    NoRepeats(fired) && forall s | s in fired && s !in busy :: Idle(db, s)
  }

  lemma RestAdmissible(db: Db, db': Db, fired: seq<SessionId>, busy: set<SessionId>, launches: map<SessionId, RunId>)
    requires fired != [] && Admissible(db, fired, busy)
    requires RunsLaunched(db, db', launches) && launches.Keys <= {fired[0]}
    ensures Admissible(db', fired[1..], busy)
  {
    forall s | s in fired[1..] && s !in busy ensures Idle(db', s) {
      var i :| 0 <= i < |fired[1..]| && fired[1..][i] == s;
      assert fired[i + 1] == s;
      assert Idle(db, s);
      forall k ensures !IsRunning(db', s, k) {
        assert !IsRunning(db, s, k);
      }
    }
  }

  lemma LaunchedNone(db: Db)
    ensures Launched(db, db, map[])
  {
    hide RowsOf;
  }

  /** Admission launches exactly the fired, idle Sessions that have something queued. */
  lemma {:induction false} AdmitInv(db: Db, fired: seq<SessionId>, busy: set<SessionId>, now: Time)
    requires DbInv(db) && Admissible(db, fired, busy)
    ensures var r := AdmitFrom(db, fired, busy, now, map[]);
      && DbInv(r.db) && Launched(db, r.db, r.launches)
      && (forall s :: s in r.launches <==> s in fired && s !in busy && HasPending(db, s))
    decreases |fired|
  {
    hide DbInv, RowsOf, HasPending, Launched, RunsLaunched;
    LaunchedNone(db);
    if fired != [] {
      var s := fired[0];
      assert fired == [s] + fired[1..];
      if s in busy || !HasPending(db, s) {
        assert RunsLaunched(db, db, map[]) by { LaunchedParts(db, db, map[]); }
        RestAdmissible(db, db, fired, busy, map[]);
        AdmitInv(db, fired[1..], busy, now);
      } else {
        AdmitStep(db, fired, busy, now);
      }
    }
  }

  lemma LaunchedParts(db: Db, db': Db, launches: map<SessionId, RunId>)
    requires Launched(db, db', launches)
    ensures SessionsLaunched(db, db', launches) && RunsLaunched(db, db', launches)
  {
  }

  lemma StartedCurrent(db: Db, s: SessionId, now: Time)
    requires HasPending(db, s)
    ensures s in StartPending(db, s, now).sessions
    ensures StartPending(db, s, now).sessions[s].current == db.sessions[s].current + 1
  {
  }

  lemma StillPending(db: Db, db': Db, x: SessionId, launches: map<SessionId, RunId>)
    requires SessionsLaunched(db, db', launches) && x !in launches
    ensures HasPending(db', x) <==> HasPending(db, x)
  {
  }

  // Who is launched by a round whose first Session is.
  lemma AdmitMembers(db: Db, next: Db, fired: seq<SessionId>, busy: set<SessionId>, k: RunId, rest: map<SessionId, RunId>)
    requires fired != [] && fired[0] !in busy && HasPending(db, fired[0]) && NoRepeats(fired)
    requires SessionsLaunched(db, next, map[fired[0] := k])
    requires forall x :: x in rest <==> x in fired[1..] && x !in busy && HasPending(next, x)
    ensures fired[0] !in rest
    ensures forall x :: x in rest[fired[0] := k] <==> x in fired && x !in busy && HasPending(db, x)
  {
    hide HasPending, SessionsLaunched;
    var s := fired[0];
    assert fired == [s] + fired[1..];
    assert s !in fired[1..];
    forall x ensures x in rest[s := k] <==> x in fired && x !in busy && HasPending(db, x) {
      if x != s {
        StillPending(db, next, x, map[s := k]);
      }
    }
  }

  lemma {:induction false} AdmitStep(db: Db, fired: seq<SessionId>, busy: set<SessionId>, now: Time)
    requires DbInv(db) && Admissible(db, fired, busy) && fired != []
    requires fired[0] !in busy && HasPending(db, fired[0])
    ensures var r := AdmitFrom(db, fired, busy, now, map[]);
      && DbInv(r.db) && Launched(db, r.db, r.launches)
      && (forall s :: s in r.launches <==> s in fired && s !in busy && HasPending(db, s))
    decreases |fired|, 0
  {
    hide DbInv, RowsOf, HasPending, Launched, RunsLaunched, SessionsLaunched, Idle;
    var s := fired[0];
    assert s in fired;
    var next := StartPending(db, s, now);
    StartPendingInv(db, s, now);
    StartPendingLaunches(db, s, now);
    StartedCurrent(db, s, now);
    hide StartPending;
    var one := map[s := next.sessions[s].current];
    LaunchedParts(db, next, one);
    RestAdmissible(db, next, fired, busy, one);
    assert NoRepeats(fired);
    hide Admissible, NoRepeats;
    AdmitInv(next, fired[1..], busy, now);
    var rest := AdmitFrom(next, fired[1..], busy, now, map[]);
    AdmitMembers(db, next, fired, busy, next.sessions[s].current, rest.launches);
    AdmitUnfold(db, fired, busy, now);
    hide AdmitFrom;
    MergeOne(map[], s, next.sessions[s].current, rest.launches);
    LaunchedCompose(db, next, rest.db, s, rest.launches);
  }

  lemma AdmitUnfold(db: Db, fired: seq<SessionId>, busy: set<SessionId>, now: Time)
    requires fired != [] && fired[0] !in busy && HasPending(db, fired[0])
    ensures var next := StartPending(db, fired[0], now);
      var rest := AdmitFrom(next, fired[1..], busy, now, map[]);
      && fired[0] in next.sessions
      && AdmitFrom(db, fired, busy, now, map[])
         == Admitted(rest.db, map[fired[0] := next.sessions[fired[0]].current] + rest.launches)
  {
    hide HasPending;
    StartedCurrent(db, fired[0], now);
    var next := StartPending(db, fired[0], now);
    hide StartPending;
    var one := map[fired[0] := next.sessions[fired[0]].current];
    assert map[][fired[0] := next.sessions[fired[0]].current] == one;
    assert AdmitFrom(db, fired, busy, now, map[]) == AdmitFrom(next, fired[1..], busy, now, one);
    AdmitAccumulates(next, fired[1..], busy, now, one);
  }

  // ---------------------------------------------------------------------------------------------
  // Recovery
  // ---------------------------------------------------------------------------------------------

  lemma InterruptAllRuns(db: Db, now: Time)
    requires Numbered(db) && Retries(db)
    ensures Numbered(InterruptAll(db, now)) && Retries(InterruptAll(db, now))
  {
    InterruptAllNumbered(db, now);
    InterruptAllRetries(db, now);
  }

  lemma InterruptAllNumbered(db: Db, now: Time)
    requires Numbered(db)
    ensures Numbered(InterruptAll(db, now))
  {
    var db' := InterruptAll(db, now);
    assert forall key | key in db'.runs :: key in db.runs && db'.runs[key].status != Running;
    assert forall key | key in db.runs :: key in db'.runs;
  }

  lemma InterruptAllRetries(db: Db, now: Time)
    requires Retries(db)
    ensures Retries(InterruptAll(db, now))
  {
    var db' := InterruptAll(db, now);
    forall x | x in db'.runs ensures RetryShape(db', x) {
      assert RetryShape(db, x);
    }
  }

  lemma InterruptAllShaped(db: Db, now: Time)
    requires Shaped(db)
    ensures Shaped(InterruptAll(db, now))
  {
    var db' := InterruptAll(db, now);
    forall x | x in db'.runs ensures RunShape(db'.runs[x]) {
      assert RunShape(db.runs[x]);
    }
  }

  /** After a crash every Run that was running is interrupted. */
  lemma InterruptAllInv(db: Db, now: Time)
    requires DbInv(db)
    ensures DbInv(InterruptAll(db, now)) && forall s :: Idle(InterruptAll(db, now), s)
  {
    hide Numbered, Shaped, Retries, EventTable, LogTable, QueueTable, Conserved, BatchesStored, Accounted, Written;
    var db' := InterruptAll(db, now);
    InterruptAllRuns(db, now);
    InterruptAllShaped(db, now);
    assert db'.runs.Keys == db.runs.Keys;
    FrameEvents(db, db');
    FrameQueue(db, db');
    FrameConserved(db, db');
    FrameWritten(db, db');
    FrameBatches(db, db');
  }

  lemma {:induction false} RecoverAccumulates(db: Db, order: seq<SessionId>, now: Time, launches: map<SessionId, RunId>)
    ensures RecoverFrom(db, order, now, launches)
         == Admitted(RecoverFrom(db, order, now, map[]).db, launches + RecoverFrom(db, order, now, map[]).launches)
    decreases |order|
  {
    if order != [] {
      if order[0] !in db.sessions {
        RecoverAccumulates(db, order[1..], now, launches);
      } else {
        var next := InsertRun(db, order[0], NewRun(ServerRecovery, None, now, None, 0));
        hide InsertRun;
        var k := next.sessions[order[0]].current;
        assert RecoverFrom(db, order, now, launches) == RecoverFrom(next, order[1..], now, launches[order[0] := k]);
        assert RecoverFrom(db, order, now, map[]) == RecoverFrom(next, order[1..], now, map[order[0] := k]);
        RecoverAccumulates(next, order[1..], now, launches[order[0] := k]);
        RecoverAccumulates(next, order[1..], now, map[order[0] := k]);
        hide RecoverFrom;
        MergeOne(launches, order[0], k, RecoverFrom(next, order[1..], now, map[]).launches);
      }
    }
  }

  /** Recovery launches one Run for each Session of the list. */
  lemma {:induction false} RecoverInv(db: Db, order: seq<SessionId>, now: Time)
    requires DbInv(db) && Admissible(db, order, {}) && forall s | s in order :: SessionIs(db, s, SessionRunning)
    ensures var r := RecoverFrom(db, order, now, map[]);
      && DbInv(r.db) && Launched(db, r.db, r.launches)
      && (forall s :: s in r.launches <==> s in order)
    decreases |order|
  {
    hide DbInv, RowsOf, Launched, RunsLaunched, SessionsLaunched, InsertRun;
    LaunchedNone(db);
    if order != [] {
      var s := order[0];
      assert order == [s] + order[1..];
      assert SessionIs(db, s, SessionRunning) by { assert s in order; }
      var run := NewRun(ServerRecovery, None, now, None, 0);
      var next := InsertRun(db, s, run);
      CurrentPositive(db, s);
      InsertRunInv(db, s, run);
      NextIsNew(db, s);
      InsertRunLaunches(db, s, run);
      hide Idle;
      assert s !in order[1..];
      var one := map[s := db.sessions[s].current + 1];
      LaunchedParts(db, next, one);
      NextSession(db, next, s);
      StillRunning(db, next, s, order[1..]);
      RestAdmissible(db, next, order, {}, one);
      RecoverInv(next, order[1..], now);
      var rest := RecoverFrom(next, order[1..], now, map[]);
      RecoverAccumulates(next, order[1..], now, one);
      MergeOne(map[], s, db.sessions[s].current + 1, rest.launches);
      assert RecoverFrom(db, order, now, map[]).launches == rest.launches[s := next.sessions[s].current];
      hide RecoverFrom, Admissible;
      LaunchedCompose(db, next, rest.db, s, rest.launches);
    }
  }

  lemma StillRunning(db: Db, next: Db, s: SessionId, rest: seq<SessionId>)
    requires s in db.sessions && SessionsLaunched(db, next, map[s := db.sessions[s].current + 1]) && s !in rest
    requires forall x | x in rest :: SessionIs(db, x, SessionRunning)
    ensures forall x | x in rest :: SessionIs(next, x, SessionRunning)
  {
    hide RowsOf;
  }

  lemma NextSession(db: Db, next: Db, s: SessionId)
    requires s in db.sessions && SessionsLaunched(db, next, map[s := db.sessions[s].current + 1])
    ensures next.sessions.Keys == db.sessions.Keys && next.sessions[s].current == db.sessions[s].current + 1
  {
  }
}
