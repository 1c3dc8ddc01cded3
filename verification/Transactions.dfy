/**
  The statements of each Runtime transaction, on a candidate Db: one-shot Events, the trigger queue,
  and the Runs of a Session.
 */
module Transactions {
  import opened Prelude
  import opened Matchers
  import opened Tables

  // ---------------------------------------------------------------------------------------------
  // Events
  // ---------------------------------------------------------------------------------------------

  // RemoveRecordTx after its row count check: the active row goes, its snapshot joins the log.
  function RemoveRecord(db: Db, row: EventRow, outcome: Outcome, run: Option<RunId>, detail: Option<Match>, at: Time): Db {
    db.(events := DeleteEvent(db.events, row.id), log := db.log + [LogRow(row, outcome, run, detail, at)])
  }

  // enqueueTriggerTx: the AUTOINCREMENT id is the arrival sequence.
  function Enqueue(db: Db, s: SessionId, t: Trigger): Db {
    db.(pending := db.pending + [PendingRow(db.nextPending, s, t)],
        nextPending := db.nextPending + 1,
        arrived := db.arrived[s := ArrivedOf(db, s) + [t]])
  }

  function ArrivedOf(db: Db, s: SessionId): seq<Trigger> {
    if s in db.arrived then db.arrived[s] else []
  }

  function TakenOf(db: Db, s: SessionId): seq<Batch> {
    if s in db.taken then db.taken[s] else []
  }

  // fireEventTx
  function FireEvent(db: Db, row: EventRow, facts: Match, now: Time): Db {
    Enqueue(RemoveRecord(db, row, Fired, None, Some(facts), now), row.owner,
            EventTrigger(row.id, row.createdRun, row.kind, row.expiresAt, now, facts))
  }

  // What one claim round looks at.
  datatype Probe =
    | Timers
    | Prices(samples: map<Instrument, Sample>)
    | Positions(polls: map<SessionId, Snapshot>)

  // The WHERE clause of the claim query; every claim skips Events whose expiry has arrived.
  predicate Selects(probe: Probe, row: EventRow, now: Time) {
    row.expiresAt > now &&
    match probe
    case Timers => row.kind.Timer? && row.kind.due <= now
    case Prices(_) => IsPrice(row.kind)
    case Positions(_) => row.kind.PositionClose?
  }

  function Select(events: seq<EventRow>, probe: Probe, now: Time): (rows: seq<EventRow>)
    ensures forall e :: e in rows <==> e in events && Selects(probe, e, now)
  {
    if events == [] then []
    else
      var n := |events| - 1;
      Select(events[..n], probe, now) + if Selects(probe, events[n], now) then [events[n]] else []
  }

  function Decide(probe: Probe, row: EventRow): Verdict {
    match probe
    case Timers => if row.kind.Timer? then Fire(Due(row.kind.due)) else Skip
    case Prices(samples) =>
      if IsPrice(row.kind) && row.kind.on in samples
      then EvaluatePrice(row.kind, row.memo, samples[row.kind.on]) else Skip
    case Positions(polls) =>
      if row.kind.PositionClose? && row.owner in polls
      then EvaluatePosition(row.kind.position, row.memo, polls[row.owner]) else Skip
  }

  function AppendUnique(values: seq<SessionId>, wanted: SessionId): seq<SessionId> {
    if wanted in values then values else values + [wanted]
  }

  datatype Claimed = Claimed(db: Db, fired: seq<SessionId>)

  // The claim loop of FireTimersTx, MatchPriceTx and MatchPositionCloseTx over the rows selected.
  function ClaimFrom(db: Db, probe: Probe, now: Time, rows: seq<EventRow>, fired: seq<SessionId>): Claimed
    decreases |rows|
  {
    if rows == [] then Claimed(db, fired)
    else match Decide(probe, rows[0])
      case Skip => ClaimFrom(db, probe, now, rows[1..], fired)
      case Remember(memo) =>
        ClaimFrom(db.(events := SetMemo(db.events, rows[0].id, memo)), probe, now, rows[1..], fired)
      case Fire(facts) =>
        ClaimFrom(FireEvent(db, rows[0], facts, now), probe, now, rows[1..], AppendUnique(fired, rows[0].owner))
  }

  // RemoveRecordTx over a list of rows: the loops of ExpireTx and ClearSessionTx.
  function RemoveAll(db: Db, rows: seq<EventRow>, outcome: Outcome, at: Time): Db
    decreases |rows|
  {
    if rows == [] then db
    else RemoveAll(RemoveRecord(db, rows[0], outcome, None, None, at), rows[1..], outcome, at)
  }

  function ExpiredRows(events: seq<EventRow>, now: Time): (rows: seq<EventRow>)
    ensures forall e :: e in rows <==> e in events && e.expiresAt <= now
  {
    if events == [] then []
    else
      var n := |events| - 1;
      ExpiredRows(events[..n], now) + if events[n].expiresAt <= now then [events[n]] else []
  }

  function OwnedRows(events: seq<EventRow>, s: SessionId): (rows: seq<EventRow>)
    ensures forall e :: e in rows <==> e in events && e.owner == s
  {
    if events == [] then []
    else
      var n := |events| - 1;
      OwnedRows(events[..n], s) + if events[n].owner == s then [events[n]] else []
  }

  // ---------------------------------------------------------------------------------------------
  // Runs
  // ---------------------------------------------------------------------------------------------

  function NewRun(cause: Cause, triggers: Option<seq<Trigger>>, now: Time, retryOf: Option<RunId>, attempt: int): Run {
    Run(Running, cause, triggers, None, None, None, [], None, 0, 0, now, None, retryOf, attempt)
  }

  // INSERT INTO runs with the next id, and bump current_run_id; the Session is running afterwards.
  function InsertRun(db: Db, s: SessionId, run: Run): Db
    requires s in db.sessions
  {
    var k := db.sessions[s].current + 1;
    db.(runs := db.runs[RunKey(s, k) := run], 
        sessions := db.sessions[s := db.sessions[s].(status := SessionRunning, current := k)])
  }

  // The next batch of a Session's queue.
  function NextBatch(db: Db, s: SessionId): (batch: seq<Trigger>)
    ensures |batch| <= MAX_TRIGGERS_PER_RUN && batch <= Queue(db, s)
    ensures batch == [] <==> Queue(db, s) == []
  {
    var q := Queue(db, s);
    if |q| <= MAX_TRIGGERS_PER_RUN then q else q[..MAX_TRIGGERS_PER_RUN]
  }

  // DELETE the first n queued rows of a Session, read under the same transaction.
  function Dequeue(db: Db, s: SessionId, n: nat, batch: Batch): Db
    requires n <= |RowsOf(db.pending, s)|
  {
    db.(pending := DeleteIds(db.pending, FirstIds(db.pending, s, n)),
        taken := db.taken[s := TakenOf(db, s) + [batch]])
  }

  predicate HasPending(db: Db, s: SessionId) {
    SessionIs(db, s, SessionRunning) && Queue(db, s) != []
  }

  /** startPendingRunTx for a running Session with a nonempty queue. */
  function StartPending(db: Db, s: SessionId, now: Time): Db
    requires HasPending(db, s)
  {
    var batch := NextBatch(db, s);
    var inserted := InsertRun(db, s, NewRun(EventCause, Some(batch), now, None, 0));
    Dequeue(inserted, s, |batch|, TakenBy(db.sessions[s].current + 1, batch))
  }

  datatype Admitted = Admitted(db: Db, launches: map<SessionId, RunId>)

  // admitFiredSessionsTx: the next Run for every fired Session that is not busy.
  function AdmitFrom(db: Db, fired: seq<SessionId>, busy: set<SessionId>, now: Time, launches: map<SessionId, RunId>): Admitted
    decreases |fired|
  {
    if fired == [] then Admitted(db, launches)
    else if fired[0] in busy || !HasPending(db, fired[0]) then AdmitFrom(db, fired[1..], busy, now, launches)
    else
      var next := StartPending(db, fired[0], now);
      AdmitFrom(next, fired[1..], busy, now, launches[fired[0] := next.sessions[fired[0]].current])
  }

  // UPDATE runs SET status, ... WHERE status = 'running', after its row count check.
  datatype Ending = Ending(status: RunStatus, summary: Option<string>, output: Option<string>, error: Option<string>)

  predicate ValidEnding(e: Ending) {
    match e.status
    case Running => false
    case Completed => e.summary.Some? && e.output.Some? && e.error.None?
    case _ => e.summary.None? && e.output.None? && e.error.Some?
  }

  function EndRun(db: Db, key: RunKey, e: Ending, now: Time): Db
    requires key in db.runs
  {
    db.(runs := db.runs[key := db.runs[key].(status := e.status, summary := e.summary, output := e.output,
                                            error := e.error, ended := Some(now))])
  }

  const HARD_STOP := Ending(Interrupted, None, None, Some("HARD_STOP: interrupted by user"))
  const SHUTDOWN := Ending(Interrupted, None, None, Some("SERVER_SHUTDOWN: interrupted by graceful Agent Server shutdown"))
  const CRASH := Ending(Interrupted, None, None,
                        Some("CRASH_RECOVERY: Agent Server exited before the Run reached a terminal state"))

  // ---------------------------------------------------------------------------------------------
  // Stop and delete
  // ---------------------------------------------------------------------------------------------

  /** ClearSessionTx: every active Event of the Session goes to the log, then its queue is drained. */
  function ClearSession(db: Db, s: SessionId, outcome: Outcome, now: Time): Db {
    var cleared := RemoveAll(db, OwnedRows(db.events, s), outcome, now);
    Dequeue(cleared, s, |RowsOf(cleared.pending, s)|, Drained(Queue(cleared, s)))
  }

  /** restartContextFor a running Session: nothing to remember only after a clean completed Run. */
  function RestartFor(db: Db, s: SessionId): Option<Restart>
    requires s in db.sessions
  {
    var k := db.sessions[s].current;
    if k == 0 || RunKey(s, k) !in db.runs then None
    else
      var run := db.runs[RunKey(s, k)];
      var status := if run.status == Running then Interrupted else run.status;
      var cleared, pending := OwnedRows(db.events, s), Queue(db, s);
      if status == Completed && cleared == [] && pending == [] then None
      else Some(Restart(k, status, cleared, pending))
  }

  // Only a running Session has something new to remember.
  function NextRestart(db: Db, s: SessionId): Option<Restart>
    requires s in db.sessions
  {
    if db.sessions[s].status == SessionRunning then RestartFor(db, s) else db.sessions[s].restart
  }

  /** changeSessionState, past its checks. */
  function ChangeState(db: Db, s: SessionId, deleting: bool, now: Time): Db
    requires s in db.sessions
  {
    var session := db.sessions[s];
    var restart := NextRestart(db, s);
    var cleared := ClearSession(db, s, if deleting then ClearedByDelete else ClearedByStop, now);
    var key := RunKey(s, session.current);
    var ended := if session.status == SessionRunning && IsRunning(cleared, s, session.current)
                 then EndRun(cleared, key, HARD_STOP, now) else cleared;
    var status := if deleting then SessionDeleted else SessionStopped;
    ended.(sessions := ended.sessions[s := session.(status := status, restart := restart)])
  }

  // ---------------------------------------------------------------------------------------------
  // Recovery
  // ---------------------------------------------------------------------------------------------

  // UPDATE runs SET status = 'interrupted', ... WHERE status = 'running'
  function InterruptAll(db: Db, now: Time): Db {
    db.(runs := map key | key in db.runs ::
      if db.runs[key].status == Running
      then db.runs[key].(status := CRASH.status, summary := CRASH.summary, output := CRASH.output,
                         error := CRASH.error, ended := Some(now))
      else db.runs[key])
  }

  // createRecoveryRunsTx over the running Sessions.
  function RecoverFrom(db: Db, order: seq<SessionId>, now: Time, launches: map<SessionId, RunId>): Admitted
    decreases |order|
  {
    if order == [] then Admitted(db, launches)
    else if order[0] !in db.sessions then RecoverFrom(db, order[1..], now, launches)
    else
      var next := InsertRun(db, order[0], NewRun(ServerRecovery, None, now, None, 0));
      RecoverFrom(next, order[1..], now, launches[order[0] := next.sessions[order[0]].current])
  }
}
