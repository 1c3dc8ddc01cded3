/**
  What a committed round does to every Event: the ones whose time has come are resolved, and only those.
 */
module ClaimLaws {
  import opened Prelude
  import opened Matchers
  import opened Tables
  import opened Transactions
  import opened History
  import opened Invariants
  import opened Preservation
  import opened World
  import opened Safety
  import opened Rounds

  // ---------------------------------------------------------------------------------------------
  // What must happen to an Event
  // ---------------------------------------------------------------------------------------------

  // The Event is not expired and its condition holds now: a timer that is due, a price whose instrument
  // was sampled, a position whose Session was polled.
  ghost predicate MustFire(probe: Probe, e: EventRow, now: Time, facts: Match) {
    && now < e.expiresAt
    && match probe
       case Timers => e.kind.Timer? && e.kind.due <= now && facts == Due(e.kind.due)
       case Prices(samples) =>
         !e.kind.Timer? && !e.kind.PositionClose? && e.kind.on in samples && PriceFires(e.kind, e.memo, samples[e.kind.on], facts)
       case Positions(polls) => e.kind.PositionClose? && e.owner in polls && PositionFires(e.kind.position, e.memo, polls[e.owner], facts)
  }

  // What an Event that does not fire remembers.
  function MemoAfter(probe: Probe, e: EventRow, now: Time): Memo {
    if e.expiresAt <= now then e.memo
    else match probe
      case Timers => e.memo
      case Prices(samples) =>
        if !e.kind.Timer? && !e.kind.PositionClose? && e.kind.on in samples then PriceMemo(e.kind, e.memo, samples[e.kind.on]) else e.memo
      case Positions(polls) =>
        if e.kind.PositionClose? && e.owner in polls then PositionMemo(e.kind.position, e.memo, polls[e.owner]) else e.memo
  }

  lemma {:induction false} DecisionIsDue(probe: Probe, e: EventRow, now: Time, facts: Match)
    ensures MustFire(probe, e, now, facts) <==> Selects(probe, e, now) && Decide(probe, e) == Fire(facts)
    ensures Selects(probe, e, now) && !Decide(probe, e).Fire? ==> NextMemo(e.memo, Decide(probe, e)) == MemoAfter(probe, e, now)
    ensures !Selects(probe, e, now) ==> MemoAfter(probe, e, now) == e.memo
  {
    hide EvaluatePrice, EvaluatePosition, PriceFires, PositionFires, PriceMemo, PositionMemo;
    if probe.Prices? && !e.kind.Timer? && !e.kind.PositionClose? && e.kind.on in probe.samples {
      PriceVerdict(e.kind, e.memo, probe.samples[e.kind.on], facts);
    } else if probe.Positions? && e.kind.PositionClose? && e.owner in probe.polls {
      PositionVerdict(e.kind.position, e.memo, probe.polls[e.owner], facts);
    }
  }

  // The Event is no longer active, its log row says how it ended, and a fired one has its trigger among
  // the arrivals of its Session.
  ghost predicate Gone(db: Db, e: EventRow) {
    forall x | x in db.events :: x.id != e.id
  }

  ghost predicate FiredWith(db: Db, e: EventRow, facts: Match, now: Time) {
    && Gone(db, e) && LogRow(e, Fired, None, Some(facts), now) in db.log
    && e.owner in db.arrived && EventTrigger(e.id, e.createdRun, e.kind, e.expiresAt, now, facts) in db.arrived[e.owner]
  }

  ghost predicate ExpiredAt(db: Db, e: EventRow, now: Time) {
    Gone(db, e) && LogRow(e, Expired, None, None, now) in db.log
  }

  // ---------------------------------------------------------------------------------------------
  // The claim loop
  // ---------------------------------------------------------------------------------------------

  // What later steps of a round leave as it is.
  ghost predicate Keeps(db: Db, db': Db) {
    && (forall row | row in db.log :: row in db'.log)
    && (forall s, t | s in db.arrived && t in db.arrived[s] :: s in db'.arrived && t in db'.arrived[s])
    && (forall x | x in db'.events :: WasThere(db.events, x))
  }

  // The Event, up to what it remembers.
  ghost predicate WasThere(events: seq<EventRow>, x: EventRow) {
    exists y :: y in events && x == y.(memo := x.memo)
  }

  lemma {:induction false} KeepsTogether(a: Db, b: Db, c: Db)
    requires Keeps(a, b) && Keeps(b, c)
    ensures Keeps(a, c)
  {
    forall x | x in c.events ensures WasThere(a.events, x) {
      var y :| y in b.events && x == y.(memo := x.memo);
      assert WasThere(a.events, y);
      var z :| z in a.events && y == z.(memo := y.memo);
    }
  }

  lemma {:induction false} ThereItself(events: seq<EventRow>, x: EventRow)
    requires x in events
    ensures WasThere(events, x)
  {
    assert x == x.(memo := x.memo);
  }

  lemma {:induction false} FiredStays(db: Db, db': Db, e: EventRow, facts: Match, now: Time)
    requires FiredWith(db, e, facts, now) && Keeps(db, db')
    ensures FiredWith(db', e, facts, now)
  {
    forall x | x in db'.events ensures x.id != e.id {
      assert WasThere(db.events, x);
    }
  }

  lemma {:induction false} ExpiredStays(db: Db, db': Db, e: EventRow, now: Time)
    requires ExpiredAt(db, e, now) && Keeps(db, db')
    ensures ExpiredAt(db', e, now)
  {
    forall x | x in db'.events ensures x.id != e.id {
      assert WasThere(db.events, x);
    }
  }

  lemma {:induction false} FireKeeps(db: Db, row: EventRow, facts: Match, now: Time)
    ensures var db' := FireEvent(db, row, facts, now);
      && Keeps(db, db') && FiredWith(db', row, facts, now)
      && forall x | x in db.events && x.id != row.id :: x in db'.events
  {
    forall x | x in db.events ensures WasThere(db.events, x) {
      ThereItself(db.events, x);
    }
  }

  lemma {:induction false} MemoMembers(events: seq<EventRow>, row: EventRow, memo: Memo)
    requires row in events
    ensures var after := SetMemo(events, row.id, memo);
      && row.(memo := memo) in after
      && (forall x | x in events && x.id != row.id :: x in after)
      && (forall x | x in after :: WasThere(events, x))
  {
    var after := SetMemo(events, row.id, memo);
    forall x | x in events && x.id != row.id ensures x in after {
      var i :| 0 <= i < |events| && events[i] == x;
      assert after[i] == x;
    }
    forall x | x in after ensures WasThere(events, x) {
      var i :| 0 <= i < |after| && after[i] == x;
      assert events[i] in events && x == events[i].(memo := x.memo);
    }
    var i :| 0 <= i < |events| && events[i] == row;
    assert after[i] == row.(memo := memo);
  }

  lemma {:induction false} MemoDistinct(events: seq<EventRow>, id: EventId, memo: Memo)
    requires Distinct(events)
    ensures Distinct(SetMemo(events, id, memo))
  {
    var after := SetMemo(events, id, memo);
    forall i, j | 0 <= i < j < |after| ensures after[i].id != after[j].id {
      assert after[i].id == events[i].id && after[j].id == events[j].id;
    }
  }

  lemma {:induction false} MemoKeeps(db: Db, row: EventRow, memo: Memo)
    requires Distinct(db.events) && row in db.events
    ensures var db' := db.(events := SetMemo(db.events, row.id, memo));
      && Keeps(db, db') && Distinct(db'.events) && row.(memo := memo) in db'.events
      && forall x | x in db.events && x.id != row.id :: x in db'.events
  {
    hide SetMemo, Distinct, WasThere;
    MemoMembers(db.events, row, memo);
    MemoDistinct(db.events, row.id, memo);
  }

  // The state after the first row of a claim.
  function ClaimOne(db: Db, probe: Probe, now: Time, row: EventRow): Db {
    match Decide(probe, row)
    case Skip => db
    case Remember(memo) => db.(events := SetMemo(db.events, row.id, memo))
    case Fire(facts) => FireEvent(db, row, facts, now)
  }

  lemma {:induction false} ClaimStep(db: Db, probe: Probe, now: Time, rows: seq<EventRow>, fired: seq<SessionId>)
    requires rows != []
    ensures ClaimFrom(db, probe, now, rows, fired).db == ClaimFrom(ClaimOne(db, probe, now, rows[0]), probe, now, rows[1..], Woken(probe, rows[0], fired)).db
  {
    hide Decide, FireEvent;
  }

  function Woken(probe: Probe, row: EventRow, fired: seq<SessionId>): seq<SessionId> {
    if Decide(probe, row).Fire? then AppendUnique(fired, row.owner) else fired
  }

  // The rows still to be claimed are active, each once.
  ghost predicate Waiting(db: Db, probe: Probe, now: Time, rows: seq<EventRow>) {
    Distinct(db.events) && Distinct(rows) && forall e | e in rows :: e in db.events && Selects(probe, e, now)
  }

  // What one row leaves behind.
  ghost predicate Settled(db: Db, probe: Probe, e: EventRow, now: Time) {
    (forall facts | MustFire(probe, e, now, facts) :: FiredWith(db, e, facts, now))
    && ((forall facts :: !MustFire(probe, e, now, facts)) ==> e.(memo := MemoAfter(probe, e, now)) in db.events)
  }

  // The rows after the first one.
  lemma {:induction false} WaitingTail(db: Db, db': Db, probe: Probe, now: Time, rows: seq<EventRow>)
    requires rows != [] && Waiting(db, probe, now, rows) && Distinct(db'.events)
    requires forall x | x in db.events && x.id != rows[0].id :: x in db'.events
    ensures Waiting(db', probe, now, rows[1..])
  {
    hide Selects;
    var tail := rows[1..];
    forall i | 0 <= i < |tail| ensures tail[i] in db'.events && Selects(probe, tail[i], now) {
      assert rows[i + 1] == tail[i] && rows[i + 1] in rows;
    }
    forall i, j | 0 <= i < j < |tail| ensures tail[i].id != tail[j].id {
      assert tail[i] == rows[i + 1] && tail[j] == rows[j + 1];
    }
  }

  lemma {:induction false} FireDistinct(db: Db, row: EventRow, facts: Match, now: Time)
    requires Distinct(db.events)
    ensures Distinct(FireEvent(db, row, facts, now).events)
  {
    hide Distinct;
    DeleteDistinct(db.events, row.id);
  }

  lemma {:induction false} RowSettles(db: Db, probe: Probe, now: Time, row: EventRow)
    requires Distinct(db.events) && row in db.events && Selects(probe, row, now)
    ensures var db' := ClaimOne(db, probe, now, row);
      && Keeps(db, db') && Distinct(db'.events) && Settled(db', probe, row, now)
      && forall x | x in db.events && x.id != row.id :: x in db'.events
  {
    var v := Decide(probe, row);
    forall facts ensures MustFire(probe, row, now, facts) <==> v == Fire(facts) {
      DecisionIsDue(probe, row, now, facts);
    }
    DecisionIsDue(probe, row, now, Due(0));
    hide MustFire, MemoAfter, Decide, Selects, FiredWith, Keeps, Distinct, FireEvent, SetMemo;
    if v.Fire? {
      FireKeeps(db, row, v.facts, now);
      FireDistinct(db, row, v.facts, now);
    } else if v.Remember? {
      MemoKeeps(db, row, v.memo);
    } else {
      assert Keeps(db, db) by { KeepsItself(db); }
      assert row.(memo := row.memo) == row;
    }
  }

  lemma {:induction false} OneSettles(db: Db, probe: Probe, now: Time, rows: seq<EventRow>)
    requires rows != [] && Waiting(db, probe, now, rows)
    ensures var db' := ClaimOne(db, probe, now, rows[0]);
      && Keeps(db, db') && Waiting(db', probe, now, rows[1..]) && Settled(db', probe, rows[0], now)
      && forall x | x in db.events && x.id != rows[0].id :: x in db'.events
  {
    hide ClaimOne, Settled, Keeps, Selects;
    assert rows[0] in rows;
    RowSettles(db, probe, now, rows[0]);
    WaitingTail(db, ClaimOne(db, probe, now, rows[0]), probe, now, rows);
  }

  lemma {:induction false} KeepsItself(db: Db)
    ensures Keeps(db, db)
  {
    forall x | x in db.events ensures WasThere(db.events, x) {
      ThereItself(db.events, x);
    }
  }

  lemma {:induction false} ClaimSettles(db: Db, probe: Probe, now: Time, rows: seq<EventRow>, fired: seq<SessionId>)
    requires Waiting(db, probe, now, rows)
    ensures var db' := ClaimFrom(db, probe, now, rows, fired).db;
      && Keeps(db, db')
      && (forall e | e in rows :: Settled(db', probe, e, now))
      && (forall e | e in db.events && (forall x | x in rows :: x.id != e.id) :: e in db'.events)
    decreases |rows|
  {
    hide Keeps, MustFire, MemoAfter, FiredWith, Selects;
    if rows == [] {
      assert Keeps(db, db) by { KeepsItself(db); }
    } else {
      OneSettles(db, probe, now, rows);
      ClaimStep(db, probe, now, rows, fired);
      var mid, tail := ClaimOne(db, probe, now, rows[0]), rows[1..];
      var more := Woken(probe, rows[0], fired);
      hide ClaimFrom, ClaimOne, Woken;
      ClaimSettles(mid, probe, now, tail, more);
      var db' := ClaimFrom(mid, probe, now, tail, more).db;
      KeepsTogether(db, mid, db');
      assert forall x | x in tail :: x in rows;
      forall e | e in rows ensures Settled(db', probe, e, now) {
        if e !in tail {
          assert e == rows[0];
          SettledLater(mid, db', probe, e, now, tail, rows);
        }
      }
    }
  }

  // The first row keeps what it got while the others are claimed.
  lemma {:induction false} SettledLater(mid: Db, db': Db, probe: Probe, e: EventRow, now: Time, tail: seq<EventRow>, rows: seq<EventRow>)
    requires Settled(mid, probe, e, now) && Keeps(mid, db') && rows != [] && e == rows[0] && tail == rows[1..] && Distinct(rows)
    requires forall x | x in mid.events && (forall y | y in tail :: y.id != x.id) :: x in db'.events
    ensures Settled(db', probe, e, now)
  {
    hide Keeps, MustFire, MemoAfter, FiredWith;
    forall facts | MustFire(probe, e, now, facts) ensures FiredWith(db', e, facts, now) {
      FiredStays(mid, db', e, facts, now);
    }
    if forall facts :: !MustFire(probe, e, now, facts) {
      var after := e.(memo := MemoAfter(probe, e, now));
      forall y | y in tail ensures y.id != after.id {
        var i :| 0 <= i < |tail| && tail[i] == y;
        assert rows[i + 1] == y;
      }
    }
  }

  /** A claim resolves exactly the Events whose condition holds now; the others stay, and remember what they must. */
  lemma {:induction false} ClaimResolves(db: Db, probe: Probe, now: Time)
    requires Distinct(db.events)
    ensures var db' := ClaimFrom(db, probe, now, Select(db.events, probe, now), []).db;
      Keeps(db, db') && forall e | e in db.events :: Settled(db', probe, e, now)
  {
    hide Keeps, MustFire, MemoAfter, FiredWith, Selects, ClaimFrom;
    var rows := Select(db.events, probe, now);
    SelectDistinct(db.events, probe, now);
    ClaimSettles(db, probe, now, rows, []);
    var db' := ClaimFrom(db, probe, now, rows, []).db;
    forall e | e in db.events ensures Settled(db', probe, e, now) {
      if e !in rows {
        forall x | x in rows ensures x.id != e.id {
          OnlyOne(db.events, x, e);
        }
        forall facts ensures !MustFire(probe, e, now, facts) {
          DecisionIsDue(probe, e, now, facts);
        }
        DecisionIsDue(probe, e, now, Due(0));
        assert e.(memo := e.memo) == e;
      }
    }
  }

  lemma {:induction false} OnlyOne(events: seq<EventRow>, x: EventRow, e: EventRow)
    requires Distinct(events) && x in events && e in events && x != e
    ensures x.id != e.id
  {
    var i :| 0 <= i < |events| && events[i] == x;
    var j :| 0 <= j < |events| && events[j] == e;
  }

  // ---------------------------------------------------------------------------------------------
  // Expiry
  // ---------------------------------------------------------------------------------------------

  lemma {:induction false} RemoveKeeps(db: Db, row: EventRow, now: Time)
    ensures var db' := RemoveRecord(db, row, Expired, None, None, now);
      && Keeps(db, db') && ExpiredAt(db', row, now)
      && forall x | x in db.events && x.id != row.id :: x in db'.events
  {
    forall x | x in db.events ensures WasThere(db.events, x) {
      ThereItself(db.events, x);
    }
  }

  lemma {:induction false} ExpirySettles(db: Db, rows: seq<EventRow>, now: Time)
    requires Distinct(db.events)
    ensures var db' := RemoveAll(db, rows, Expired, now);
      && Keeps(db, db') && Distinct(db'.events) && db'.arrived == db.arrived
      && (forall e | e in rows :: ExpiredAt(db', e, now))
      && (forall e | e in db.events && (forall x | x in rows :: x.id != e.id) :: e in db'.events)
    decreases |rows|
  {
    hide Keeps, ExpiredAt;
    if rows == [] {
      assert Keeps(db, db) by { KeepsItself(db); }
    } else {
      var row, tail := rows[0], rows[1..];
      var mid := RemoveRecord(db, row, Expired, None, None, now);
      RemoveKeeps(db, row, now);
      DeleteDistinct(db.events, row.id);
      assert mid.arrived == db.arrived;
      ExpirySettles(mid, tail, now);
      hide RemoveRecord;
      var db' := RemoveAll(mid, tail, Expired, now);
      KeepsTogether(db, mid, db');
      ExpiredStays(mid, db', row, now);
      assert forall x | x in tail :: x in rows;
      assert row in rows;
      forall e | e in rows ensures ExpiredAt(db', e, now) {
        assert e == row || e in tail;
      }
    }
  }

  /**
    The claim of a local round. Every Event whose expiry has arrived expires; every other timer that is
    due fires with its due time; everything else is as it was.
   */
  ghost predicate LocalDone(db: Db, db': Db, now: Time) {
    && (forall e | e in db.events :: DoneLocally(db', e, now))
    && (forall e | e in db'.events :: now < e.expiresAt && !(e.kind.Timer? && e.kind.due <= now))
  }

  ghost predicate DoneLocally(db: Db, e: EventRow, now: Time) {
    if e.expiresAt <= now then ExpiredAt(db, e, now)
    else if e.kind.Timer? && e.kind.due <= now then FiredWith(db, e, Due(e.kind.due), now)
    else e in db.events
  }

  // Of a timer round, for an Event that has not expired.
  lemma {:induction false} TimerDone(db: Db, e: EventRow, now: Time)
    requires Settled(db, Timers, e, now) && now < e.expiresAt
    ensures DoneLocally(db, e, now)
  {
    hide FiredWith, ExpiredAt;
    if e.kind.Timer? && e.kind.due <= now {
      assert MustFire(Timers, e, now, Due(e.kind.due));
    } else {
      assert e.(memo := e.memo) == e;
    }
  }

  lemma {:induction false} NothingLeft(db: Db, db': Db, now: Time)
    requires Keeps(db, db') && forall e | e in db.events :: DoneLocally(db', e, now)
    ensures LocalDone(db, db', now)
  {
    forall e | e in db'.events ensures now < e.expiresAt && !(e.kind.Timer? && e.kind.due <= now) {
      assert WasThere(db.events, e);
      var x :| x in db.events && e == x.(memo := e.memo);
      assert DoneLocally(db', x, now);
    }
  }

  lemma {:induction false} LocalResolves(db: Db, active: set<SessionId>, now: Time)
    requires Distinct(db.events)
    ensures LocalDone(db, ClaimOf(db, Local, active, now).db, now)
  {
    var rows := ExpiredRows(db.events, now);
    var mid := RemoveAll(db, rows, Expired, now);
    var db' := ClaimFrom(mid, Timers, now, Select(mid.events, Timers, now), []).db;
    hide ClaimFrom, RemoveAll, Keeps, ExpiredAt, FiredWith, Distinct, Settled, DoneLocally, LocalDone, Select;
    ExpirySettles(db, rows, now);
    ClaimResolves(mid, Timers, now);
    KeepsTogether(db, mid, db');
    forall e | e in db.events ensures DoneLocally(db', e, now) {
      if e.expiresAt <= now {
        ExpiredStays(mid, db', e, now);
        assert DoneLocally(db', e, now) by { ExpiredIsDone(db', e, now); }
      } else {
        forall x | x in rows ensures x.id != e.id {
          OnlyOne(db.events, x, e);
        }
        TimerDone(db', e, now);
      }
    }
    NothingLeft(db, db', now);
  }

  lemma {:induction false} ExpiredIsDone(db: Db, e: EventRow, now: Time)
    requires ExpiredAt(db, e, now) && e.expiresAt <= now
    ensures DoneLocally(db, e, now)
  {
  }

  // ---------------------------------------------------------------------------------------------
  // A committed round
  // ---------------------------------------------------------------------------------------------

  // What a round with a probe leaves of every Event.
  ghost predicate WatchDone(db: Db, db': Db, probe: Probe, now: Time) {
    forall e | e in db.events :: Settled(db', probe, e, now)
  }

  ghost predicate RoundDone(db: Db, db': Db, claim: Claim, now: Time) {
    match claim
    case Local => LocalDone(db, db', now)
    case Watch(probe) => WatchDone(db, db', probe, now)
    case ChatWake(_, _) => db'.events == db.events
  }

  lemma {:induction false} ClaimDone(db: Db, claim: Claim, active: set<SessionId>, now: Time)
    requires Distinct(db.events)
    ensures var db' := ClaimOf(db, claim, active, now).db; RoundDone(db, db', claim, now)
  {
    hide ClaimFrom, RemoveAll, LocalDone, Settled, Keeps, Distinct;
    match claim
    case Local => LocalResolves(db, active, now);
    case Watch(probe) => ClaimResolves(db, probe, now);
    case ChatWake(_, _) =>
  }

  lemma {:induction false} SameTables(db: Db, mid: Db, db': Db, claim: Claim, now: Time)
    requires RoundDone(db, mid, claim, now) && db'.events == mid.events && db'.log == mid.log && db'.arrived == mid.arrived
    ensures RoundDone(db, db', claim, now)
  {
  }

  lemma {:induction false} DistinctEvents(db: Db)
    requires DbInv(db)
    ensures Distinct(db.events)
  {
    hide Numbered, Shaped, Retries, LogTable, QueueTable, Conserved, BatchesStored, Accounted, Written;
  }

  /**
    A round that commits does to every Event what it must: after a local round nothing expired and no due
    timer is left active, and each is in the log with its outcome, the fired ones with their trigger among
    the arrivals; after a watch an Event has fired exactly when its condition held of what was sampled.
   */
  lemma RoundResolves(w: World, claim: Claim, now: Time)
    requires WorldInv(w) && Open(w)
    ensures RoundDone(w.db, Step(w, Round(claim, now, Commit)).db, claim, now)
  {
    hide DbInv, Agrees, Registered, NothingStranded, Launched, ClaimOf, AdmitFrom, HasPending, RowsOf, RoundDone, LogTargets, Staged;
    var claimed := ClaimOf(w.db, claim, w.active.Keys, now);
    DistinctEvents(w.db);
    ClaimDone(w.db, claim, w.active.Keys, now);
    ClaimOfInv(w.db, claim, w.active.Keys, now);
    ClaimAdmissible(w, claimed.db, claimed.fired);
    hide ClaimEffect, Admissible, NoRepeats, Distinct;
    AdmitInv(claimed.db, claimed.fired, w.active.Keys, now);
    var admitted := AdmitFrom(claimed.db, claimed.fired, w.active.Keys, now, map[]);
    AdmittedTables(claimed.db, admitted.db, admitted.launches);
    SameTables(w.db, claimed.db, Step(w, Round(claim, now, Commit)).db, claim, now);
  }

  lemma {:induction false} AdmittedTables(db: Db, db': Db, launches: map<SessionId, RunId>)
    requires Launched(db, db', launches)
    ensures db'.events == db.events && db'.log == db.log && db'.arrived == db.arrived
  {
    hide SessionsLaunched, RunsLaunched, Extends;
  }

  // ---------------------------------------------------------------------------------------------
  // A fired Event wakes its Session
  // ---------------------------------------------------------------------------------------------

  ghost predicate Queued(pending: seq<PendingRow>, s: SessionId) {
    exists row :: row in pending && row.session == s
  }

  lemma {:induction false} QueuedRows(pending: seq<PendingRow>, s: SessionId)
    requires Queued(pending, s)
    ensures RowsOf(pending, s) != []
    decreases |pending|
  {
    var row :| row in pending && row.session == s;
    var n := |pending| - 1;
    if pending[n].session != s {
      assert row in pending[..n];
      QueuedRows(pending[..n], s);
    }
  }

  // What a claim has queued and whom it reports only grows.
  lemma {:induction false} ClaimGrows(db: Db, probe: Probe, now: Time, rows: seq<EventRow>, fired: seq<SessionId>)
    ensures var c := ClaimFrom(db, probe, now, rows, fired);
      (forall row | row in db.pending :: row in c.db.pending) && (forall s | s in fired :: s in c.fired)
    decreases |rows|
  {
    hide Decide;
    if rows != [] {
      ClaimNext(db, probe, now, rows, fired);
      ClaimGrows(ClaimOne(db, probe, now, rows[0]), probe, now, rows[1..], Woken(probe, rows[0], fired));
    }
  }

  lemma {:induction false} ClaimNext(db: Db, probe: Probe, now: Time, rows: seq<EventRow>, fired: seq<SessionId>)
    requires rows != []
    ensures ClaimFrom(db, probe, now, rows, fired) == ClaimFrom(ClaimOne(db, probe, now, rows[0]), probe, now, rows[1..], Woken(probe, rows[0], fired))
  {
    hide Decide, FireEvent;
  }

  lemma {:induction false} ClaimWakes(db: Db, probe: Probe, now: Time, rows: seq<EventRow>, fired: seq<SessionId>, e: EventRow)
    requires e in rows && Decide(probe, e).Fire?
    ensures var c := ClaimFrom(db, probe, now, rows, fired); e.owner in c.fired && Queued(c.db.pending, e.owner)
    decreases |rows|
  {
    hide Decide;
    var next, more := ClaimOne(db, probe, now, rows[0]), Woken(probe, rows[0], fired);
    ClaimNext(db, probe, now, rows, fired);
    hide ClaimFrom;
    if e == rows[0] {
      ClaimGrows(next, probe, now, rows[1..], more);
      var t := EventTrigger(e.id, e.createdRun, e.kind, e.expiresAt, now, Decide(probe, e).facts);
      assert PendingRow(db.nextPending, e.owner, t) in next.pending;
      assert e.owner in more;
    } else {
      ClaimWakes(next, probe, now, rows[1..], more, e);
    }
  }

  // The Event fires in a round with this claim.
  ghost predicate FiresIn(claim: Claim, e: EventRow, now: Time) {
    match claim
    case Local => exists facts :: MustFire(Timers, e, now, facts)
    case Watch(probe) => exists facts :: MustFire(probe, e, now, facts)
    case ChatWake(_, _) => false
  }

  lemma {:induction false} ClaimReports(db: Db, claim: Claim, active: set<SessionId>, now: Time, e: EventRow)
    requires Distinct(db.events) && e in db.events && FiresIn(claim, e, now)
    ensures var c := ClaimOf(db, claim, active, now); e.owner in c.fired && Queued(c.db.pending, e.owner)
  {
    var probe := if claim.Watch? then claim.probe else Timers;
    var facts :| MustFire(probe, e, now, facts);
    assert now < e.expiresAt;
    DecisionIsDue(probe, e, now, facts);
    hide MustFire, Decide, Selects, ClaimFrom, RemoveAll, Keeps, Queued;
    if claim.Local? {
      var rows := ExpiredRows(db.events, now);
      ExpirySettles(db, rows, now);
      var mid := RemoveAll(db, rows, Expired, now);
      forall x | x in rows ensures x.id != e.id {
        OnlyOne(db.events, x, e);
      }
      ClaimWakes(mid, Timers, now, Select(mid.events, Timers, now), [], e);
    } else {
      ClaimWakes(db, probe, now, Select(db.events, probe, now), [], e);
    }
  }

  /** An Event that fires starts the next Run of its Session in the same round, unless the Session already has one. */
  lemma RoundWakes(w: World, claim: Claim, now: Time, e: EventRow)
    requires WorldInv(w) && Open(w) && e in w.db.events && FiresIn(claim, e, now) && e.owner !in w.active
    ensures var w' := Step(w, Round(claim, now, Commit));
      && e.owner in w.db.sessions && e.owner in w'.active && w'.active[e.owner].run == w.db.sessions[e.owner].current + 1
      && IsRunning(w'.db, e.owner, w'.active[e.owner].run)
  {
    hide DbInv, Agrees, Registered, NothingStranded, Launched, ClaimOf, AdmitFrom, RowsOf, LogTargets, Staged, FiresIn, Queued;
    var claimed := ClaimOf(w.db, claim, w.active.Keys, now);
    DistinctEvents(w.db);
    EventIds(w.db);
    assert SessionIs(w.db, e.owner, SessionRunning) by { OwnerRuns(w.db, e); }
    ClaimReports(w.db, claim, w.active.Keys, now, e);
    QueuedRows(claimed.db.pending, e.owner);
    ClaimOfInv(w.db, claim, w.active.Keys, now);
    assert claimed.db.sessions == w.db.sessions by { hide RowsOf, Extends; }
    ClaimAdmissible(w, claimed.db, claimed.fired);
    hide ClaimEffect, Admissible, NoRepeats, Distinct, EventTable;
    AdmitInv(claimed.db, claimed.fired, w.active.Keys, now);
    var admitted := AdmitFrom(claimed.db, claimed.fired, w.active.Keys, now, map[]);
    assert HasPending(claimed.db, e.owner);
    LaunchedParts(claimed.db, admitted.db, admitted.launches);
    assert e.owner in admitted.launches;
  }

  lemma {:induction false} OwnerRuns(db: Db, e: EventRow)
    requires EventTable(db) && e in db.events
    ensures SessionIs(db, e.owner, SessionRunning)
  {
  }
}
