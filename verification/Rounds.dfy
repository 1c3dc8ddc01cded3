/**
  Claim rounds: Events expire and fire, their triggers queue up, and every woken Session without a
  Run gets exactly one.
 */
module Rounds {
  import opened Prelude
  import opened Matchers
  import opened Tables
  import opened Transactions
  import opened History
  import opened Invariants
  import opened Preservation
  import opened World
  import opened Safety

  lemma ExpiredDistinct(events: seq<EventRow>, now: Time)
    requires Distinct(events)
    ensures Distinct(ExpiredRows(events, now))
  {
    if events != [] {
      var n := |events| - 1;
      ExpiredDistinct(events[..n], now);
      var d := ExpiredRows(events[..n], now);
      assert forall i | 0 <= i < |d| :: d[i] in d;
    }
  }

  lemma SelectDistinct(events: seq<EventRow>, probe: Probe, now: Time)
    requires Distinct(events)
    ensures Distinct(Select(events, probe, now))
  {
    hide Selects;
    if events != [] {
      var n := |events| - 1;
      SelectDistinct(events[..n], probe, now);
      var d := Select(events[..n], probe, now);
      assert forall i | 0 <= i < |d| :: d[i] in d;
    }
  }

  lemma SelectClaimable(db: Db, probe: Probe, now: Time)
    requires EventTable(db)
    ensures Claimable(db, probe, now, Select(db.events, probe, now))
  {
    SelectDistinct(db.events, probe, now);
  }

  lemma ExpiredRemovable(db: Db, now: Time)
    requires EventTable(db)
    ensures RemovableAll(db, ExpiredRows(db.events, now), Expired, now)
  {
    ExpiredDistinct(db.events, now);
  }

  lemma WatchInv(db: Db, probe: Probe, now: Time)
    requires DbInv(db)
    ensures var c := ClaimFrom(db, probe, now, Select(db.events, probe, now), []);
      DbInv(c.db) && ClaimEffect(db, c.db, c.fired) && NoRepeats(c.fired)
  {
    hide DbInv, EventTable, Selects, RowsOf, ClaimEffect;
    EventIds(db);
    SelectClaimable(db, probe, now);
    ClaimInv(db, probe, now, Select(db.events, probe, now), []);
  }

  /** A local round expires first; an Event that expires cannot fire in the same round. */
  lemma LocalInv(db: Db, now: Time)
    requires DbInv(db)
    ensures var c := ClaimOf(db, Local, {}, now);
      DbInv(c.db) && ClaimEffect(db, c.db, c.fired) && NoRepeats(c.fired)
  {
    hide DbInv, EventTable, RowsOf, ClaimEffect, RemoveAll;
    EventIds(db);
    ExpiredRemovable(db, now);
    RemoveAllInv(db, ExpiredRows(db.events, now), Expired, now);
    var expired := RemoveAll(db, ExpiredRows(db.events, now), Expired, now);
    WatchInv(expired, Timers, now);
    var c := ClaimFrom(expired, Timers, now, Select(expired.events, Timers, now), []);
    hide ClaimFrom;
    ClaimEffectTransitive(db, expired, c.db, [], c.fired);
  }

  lemma ChatWakeInv(db: Db, s: SessionId, messages: seq<nat>)
    requires DbInv(db) && SessionIs(db, s, SessionRunning)
    ensures DbInv(Enqueue(db, s, ChatMention(messages))) && ClaimEffect(db, Enqueue(db, s, ChatMention(messages)), [s])
  {
    hide DbInv;
    EnqueueInv(db, s, ChatMention(messages));
    var db' := Enqueue(db, s, ChatMention(messages));
    forall x | x !in [s] ensures RowsOf(db'.pending, x) == RowsOf(db.pending, x) {
      assert s in [s];
      RowsOfAppend(db.pending, PendingRow(db.nextPending, s, ChatMention(messages)), x);
    }
  }

  lemma ClaimOfInv(db: Db, claim: Claim, active: set<SessionId>, now: Time)
    requires DbInv(db)
    ensures var c := ClaimOf(db, claim, active, now);
      DbInv(c.db) && ClaimEffect(db, c.db, c.fired) && NoRepeats(c.fired)
  {
    hide DbInv, RowsOf, ClaimEffect, Enqueue, ClaimFrom, RemoveAll;
    match claim
    case Local => LocalInv(db, now);
    case Watch(probe) => WatchInv(db, probe, now);
    case ChatWake(s, messages) =>
      NoEffect(db, []);
      NoEffect(db, [s]);
      if SessionIs(db, s, SessionRunning) {
        ChatWakeInv(db, s, messages);
      }
  }

  lemma ClaimAdmissible(w: World, db: Db, fired: seq<SessionId>)
    requires Registered(w) && !w.fault && ClaimEffect(w.db, db, fired) && NoRepeats(fired)
    ensures Admissible(db, fired, w.active.Keys)
  {
    hide RowsOf, Registered;
    forall s | s in fired && s !in w.active.Keys ensures Idle(db, s) {
      IdleUnlessActive(w, s);
      forall k ensures !IsRunning(db, s, k) {
        assert !IsRunning(w.db, s, k);
      }
    }
  }

  // After the claim only the Sessions about to be launched have triggers waiting.
  lemma ClaimRegistry(w: World, db: Db, fired: seq<SessionId>, launches: set<SessionId>)
    requires Registered(w) && NothingStranded(w) && ClaimEffect(w.db, db, fired)
    requires forall s :: s in launches <==> s in fired && s !in w.active.Keys && HasPending(db, s)
    ensures Registered(w.(db := db)) && StrandedOnly(w.(db := db), launches)
  {
    hide RowsOf, Extends;
    forall s, k | IsRunning(db, s, k) ensures IsRunning(w.db, s, k) {
    }
    forall s | Open(w) && SessionIs(db, s, SessionRunning) && s !in w.active && s !in launches
      ensures RowsOf(db.pending, s) == []
    {
      assert SessionIs(w.db, s, SessionRunning);
      if s in fired {
        assert !HasPending(db, s);
      }
    }
  }

  lemma ClaimEvolves(db: Db, db': Db, fired: seq<SessionId>)
    requires ClaimEffect(db, db', fired)
    ensures Evolves(db, db')
  {
    hide RowsOf;
  }

  lemma ClaimCovers(db: Db, mid: Db, db': Db, fired: seq<SessionId>, launches: map<SessionId, RunId>)
    requires ClaimEffect(db, mid, fired) && Launched(mid, db', launches)
    ensures Covers(db, db', LogTargets(Since(db'.log, |db.log|))) && db'.index == db.index
  {
    hide RowsOf, Launched, Covers, LogTargets, Extends;
    LaunchViews(mid, db', launches);
    forall s, k ensures SameTerminal(db, db', s, k) {
      assert SameTerminal(mid, db', s, k);
    }
    LogCovers(db, db', LogTargets(Since(db'.log, |db.log|)));
  }

  // The commit of a round, from its claim and its admission.
  lemma RoundCommit(w: World, mid: Db, fired: seq<SessionId>, db: Db, launches: map<SessionId, RunId>)
    requires WorldInv(w) && Open(w) && ClaimEffect(w.db, mid, fired)
    requires DbInv(db) && Launched(mid, db, launches)
    requires forall s :: s in launches <==> s in fired && s !in w.active.Keys && HasPending(mid, s)
    ensures Sound(w, Launch(Install(w, db, LogTargets(Since(db.log, |w.db.log|))), launches))
  {
    hide DbInv, Agrees, RowsOf, Registered, NothingStranded, StrandedOnly, Launched, Evolves, ClaimEffect, LogTargets, Covers;
    var targets := LogTargets(Since(db.log, |w.db.log|));
    ClaimCovers(w.db, mid, db, fired, launches);
    LogAligned(Since(db.log, |w.db.log|));
    InstallInv(w, db, targets);
    ClaimRegistry(w, mid, fired, launches.Keys);
    LaunchRegistry(w.(db := mid), db, launches);
    StagedRegistry(Launch(w.(db := db), launches), targets);
    ClaimEvolves(w.db, mid, fired);
    assert forall s | s in launches :: s in mid.sessions && mid.sessions[s].status != SessionDeleted;
    hide HasPending;
    LaunchEvolves(mid, db, launches);
    EvolvesTransitive(w.db, mid, db);
    StagedEvolves(w.db, db, targets);
    hide StageIndex, StageFiles;
  }

  /** A round wakes every Session it queued work for, once, unless that Session already runs. */
  lemma RoundSound(w: World, claim: Claim, now: Time)
    requires WorldInv(w) && Open(w)
    ensures Sound(w, Step(w, Round(claim, now, Commit)))
  {
    hide DbInv, Agrees, RowsOf, Registered, NothingStranded, Launched, Evolves, ClaimOf, AdmitFrom, HasPending;
    var claimed := ClaimOf(w.db, claim, w.active.Keys, now);
    ClaimOfInv(w.db, claim, w.active.Keys, now);
    ClaimAdmissible(w, claimed.db, claimed.fired);
    hide ClaimEffect, Admissible, NoRepeats;
    AdmitInv(claimed.db, claimed.fired, w.active.Keys, now);
    var admitted := AdmitFrom(claimed.db, claimed.fired, w.active.Keys, now, map[]);
    RoundCommit(w, claimed.db, claimed.fired, admitted.db, admitted.launches);
    hide Install, Launch, LogTargets;
  }
}
