/**
  Reading a Run back from its shard: through the Run status, the history index and the file. A file
  is untrusted input here; what is returned has been validated, and on files that agree with the
  database it is exactly the recorded view.
 */
module Reading {
  import opened Prelude
  import opened Tables
  import opened Transactions
  import opened History
  import opened Invariants

  datatype ReadResult = Found(record: Record) | NoRows | IndexUnavailable | IndexInvalid

  predicate ValidEvent(row: LogRow) {
    row.event.createdRun > 0 && (row.outcomeRun.Some? ==> row.outcomeRun.value > 0)
  }

  // validRun, on the decoded document.
  predicate ValidRun(r: Record, start: RunId, end: RunId) {
    && start <= r.id <= end
    && Terminal(r.run.status) && r.run.modelCalls >= 0 && r.run.toolCalls >= 0 && r.run.ended.Some?
    && (if r.run.status == Completed then r.run.summary.Some? && r.run.output.Some? && r.run.error.None?
        else r.run.summary.None? && r.run.output.None? && r.run.error.Some?)
    && (forall i | 0 <= i < |r.memories| :: r.memories[i] > 0)
    && (forall i | 0 <= i < |r.events| :: ValidEvent(r.events[i]))
  }

  predicate Ascending(runs: seq<Record>) {
    forall i, j | 0 <= i < j < |runs| :: runs[i].id < runs[j].id
  }

  // What a shard must be to answer for Run k.
  predicate WellFormed(shard: Shard, s: SessionId, start: RunId, end: RunId, k: RunId) {
    && shard.session == s && shard.start == start == ShardStart(k) && shard.end == end == start + SHARD_SIZE - 1
    && (forall i | 0 <= i < |shard.runs| :: ValidRun(shard.runs[i], start, end) && shard.runs[i].id > 0)
    && Ascending(shard.runs)
    && (exists i | 0 <= i < |shard.runs| :: shard.runs[i].id == k)
  }

  /** The validation loop accepts exactly the well-formed shards. */
  method ValidBody(shard: Shard, s: SessionId, start: RunId, end: RunId, k: RunId) returns (valid: bool)
    ensures valid <==> WellFormed(shard, s, start, end, k)
  {
    hide ValidRun;
    if shard.session != s || shard.start != start || shard.end != end
       || start != ShardStart(k) || end != ShardStart(k) + SHARD_SIZE - 1 {
      return false;
    }
    var found, previous := false, 0;
    for i := 0 to |shard.runs|
      invariant Ascending(shard.runs[..i])
      invariant forall j | 0 <= j < i :: ValidRun(shard.runs[j], start, end) && 0 < shard.runs[j].id <= previous
      invariant previous == if i > 0 then shard.runs[i - 1].id else 0
      invariant found <==> exists j | 0 <= j < i :: shard.runs[j].id == k
    {
      var run := shard.runs[i];
      if !ValidRun(run, start, end) {
        return false;
      }
      if run.id <= previous || run.id < start || run.id > end {
        assert WellFormed(shard, s, start, end, k) ==> 0 < shard.runs[i].id && (i > 0 ==> shard.runs[i - 1].id < shard.runs[i].id);
        InRange(run, start, end);
        return false;
      }
      assert shard.runs[..i + 1] == shard.runs[..i] + [run];
      previous := run.id;
      if run.id == k {
        found := true;
      }
    }
    assert shard.runs[..|shard.runs|] == shard.runs;
    return found;
  }

  lemma InRange(r: Record, start: RunId, end: RunId)
    requires ValidRun(r, start, end)
    ensures start <= r.id <= end
  {
  }

  /** The record of Run k, from a shard that has one. */
  method ParseRun(shard: Shard, k: RunId) returns (r: Option<Record>)
    ensures r.Some? <==> exists i | 0 <= i < |shard.runs| :: shard.runs[i].id == k
    ensures r.Some? ==> r.value in shard.runs && r.value.id == k
  {
    for i := 0 to |shard.runs|
      invariant forall j | 0 <= j < i :: shard.runs[j].id != k
    {
      if shard.runs[i].id == k {
        return Some(shard.runs[i]);
      }
    }
    return None;
  }

  predicate Covering(index: map<ShardKey, RunId>, s: SessionId, k: RunId, key: ShardKey) {
    key in index && key.session == s && key.start <= k <= index[key]
  }

  /**
    Whatever the files hold, a Run is only returned when it has ended and its own well-formed shard
    records it; an ended Run whose shard is not damaged is returned as recorded.
   */
  method ReadRun(db: Db, files: Files, s: SessionId, k: RunId, ghost damaged: set<ShardKey>) returns (r: ReadResult)
    ensures r == NoRows <==> !(RunKey(s, k) in db.runs && Terminal(db.runs[RunKey(s, k)].status))
    ensures r.Found? ==>
      && KeyOf(s, k) in files && r.record in files[KeyOf(s, k)].runs && r.record.id == k
      && WellFormed(files[KeyOf(s, k)], s, ShardStart(k), ShardStart(k) + SHARD_SIZE - 1, k)
    ensures DbInv(db) && Agrees(db, files, damaged) && KeyOf(s, k) !in damaged && View(db, s, k).Some? ==> r == Found(View(db, s, k).value)
  {
    hide DbInv, Agrees, WellFormed, View;
    if RunKey(s, k) !in db.runs || !Terminal(db.runs[RunKey(s, k)].status) {
      NotViewed(db, s, k);
      return NoRows;
    }
    if !(exists key | key in db.index :: Covering(db.index, s, k, key)) {
      if DbInv(db) && Agrees(db, files, damaged) && KeyOf(s, k) !in damaged && View(db, s, k).Some? {
        MirroredKey(db, files, damaged, s, k);
      }
      return IndexUnavailable;
    }
    var key :| key in db.index && Covering(db.index, s, k, key);
    if DbInv(db) && Agrees(db, files, damaged) && KeyOf(s, k) !in damaged && View(db, s, k).Some? {
      OnlyKey(db, files, damaged, s, k, key);
    }
    if key.start != ShardStart(k) || db.index[key] != ShardStart(k) + SHARD_SIZE - 1 {
      return IndexInvalid;
    }
    assert key == KeyOf(s, k);
    if key !in files {
      return IndexInvalid;
    }
    var valid := ValidBody(files[key], s, key.start, db.index[key], k);
    if !valid {
      return IndexInvalid;
    }
    Answers(files[key], s, key.start, db.index[key], k);
    var record := ParseRun(files[key], k);
    if DbInv(db) && Agrees(db, files, damaged) && KeyOf(s, k) !in damaged && View(db, s, k).Some? {
      ViewedRecord(db, files, damaged, s, k, record.value);
    }
    return if record.Some? then Found(record.value) else NoRows;
  }

  lemma Answers(shard: Shard, s: SessionId, start: RunId, end: RunId, k: RunId)
    requires WellFormed(shard, s, start, end, k)
    ensures exists i | 0 <= i < |shard.runs| :: shard.runs[i].id == k
  {
  }

  lemma NotViewed(db: Db, s: SessionId, k: RunId)
    requires !(RunKey(s, k) in db.runs && Terminal(db.runs[RunKey(s, k)].status))
    ensures View(db, s, k).None?
  {
  }

  lemma MirroredKey(db: Db, files: Files, damaged: set<ShardKey>, s: SessionId, k: RunId)
    requires Agrees(db, files, damaged) && KeyOf(s, k) !in damaged && View(db, s, k).Some?
    ensures Covering(db.index, s, k, KeyOf(s, k)) && Mirrored(db, files, KeyOf(s, k)) && k >= 1
  {
    hide View, Project;
    RangePartitions(k, ShardStart(k));
  }

  // The query by range finds the one shard of the Run.
  lemma OnlyKey(db: Db, files: Files, damaged: set<ShardKey>, s: SessionId, k: RunId, key: ShardKey)
    requires DbInv(db) && Agrees(db, files, damaged) && KeyOf(s, k) !in damaged && View(db, s, k).Some? && Covering(db.index, s, k, key)
    ensures key == KeyOf(s, k) && db.index[key] == ShardStart(k) + SHARD_SIZE - 1
    ensures key in files && WellFormed(files[key], s, key.start, db.index[key], k)
  {
    hide DbInv, View, Project, WellFormed;
    MirroredKey(db, files, damaged, s, k);
    RangePartitions(k, key.start);
    ProjectionIsValid(db, s, k);
  }

  lemma ViewedRecord(db: Db, files: Files, damaged: set<ShardKey>, s: SessionId, k: RunId, r: Record)
    requires Agrees(db, files, damaged) && KeyOf(s, k) !in damaged && View(db, s, k).Some? && KeyOf(s, k) in files
    requires r in files[KeyOf(s, k)].runs && r.id == k
    ensures View(db, s, k) == Some(r)
  {
    hide View, Records, Agrees;
    MirroredKey(db, files, damaged, s, k);
    RecordsOrdered(db, s, ShardStart(k), SHARD_SIZE);
  }

  // ---------------------------------------------------------------------------------------------
  // What the writer projects, the reader accepts
  // ---------------------------------------------------------------------------------------------

  lemma {:induction false} ValidEvents(db: Db, log: seq<LogRow>, s: SessionId, k: RunId)
    requires forall row | row in log :: ValidEvent(row)
    ensures forall i | 0 <= i < |EventsOf(log, s, k)| :: ValidEvent(EventsOf(log, s, k)[i])
    decreases |log|
  {
    if log != [] {
      assert log[|log| - 1] in log;
      ValidEvents(db, log[..|log| - 1], s, k);
    }
  }

  lemma {:induction false} ValidMemories(memories: seq<MemoryRow>, s: SessionId, k: RunId)
    requires forall m | m in memories :: m.memory > 0
    ensures forall i | 0 <= i < |MemoriesOf(memories, s, k)| :: MemoriesOf(memories, s, k)[i] > 0
    decreases |memories|
  {
    if memories != [] {
      assert memories[|memories| - 1] in memories;
      ValidMemories(memories[..|memories| - 1], s, k);
    }
  }

  lemma LogIsValid(db: Db)
    requires DbInv(db)
    ensures forall row | row in db.log :: ValidEvent(row)
  {
    hide Shaped, Retries, EventTable, QueueTable, Conserved, BatchesStored, Accounted, Written;
    forall row | row in db.log ensures ValidEvent(row) {
      assert LogShape(db, row);
    }
  }

  lemma MemoriesArePositive(db: Db)
    requires DbInv(db)
    ensures forall m | m in db.memories :: m.memory > 0
  {
    hide Numbered, Shaped, Retries, EventTable, LogTable, QueueTable, Conserved, BatchesStored, Accounted;
  }

  lemma ViewIsValid(db: Db, s: SessionId, k: RunId, start: RunId, end: RunId)
    requires DbInv(db) && View(db, s, k).Some? && start <= k <= end
    ensures ValidRun(View(db, s, k).value, start, end)
  {
    hide DbInv;
    ShapeOf(db, RunKey(s, k));
    LogIsValid(db);
    MemoriesArePositive(db);
    hide ValidEvent;
    ValidEvents(db, db.log, s, k);
    ValidMemories(db.memories, s, k);
  }

  /** The projection of a range is well formed for every ended Run in it. */
  lemma ProjectionIsValid(db: Db, s: SessionId, k: RunId)
    requires DbInv(db) && View(db, s, k).Some? && k >= 1
    ensures WellFormed(Project(db, KeyOf(s, k)), s, ShardStart(k), ShardStart(k) + SHARD_SIZE - 1, k)
  {
    hide DbInv, View, Records, ValidRun;
    var start := ShardStart(k);
    RangePartitions(k, start);
    RecordsOrdered(db, s, start, SHARD_SIZE);
    RecordsHold(db, s, start, SHARD_SIZE, k);
    ViewId(db, s, k);
    var runs := Records(db, s, start, SHARD_SIZE);
    forall i | 0 <= i < |runs| ensures ValidRun(runs[i], start, start + SHARD_SIZE - 1) && runs[i].id > 0 {
      ViewIsValid(db, s, runs[i].id, start, start + SHARD_SIZE - 1);
    }
  }

  lemma ViewId(db: Db, s: SessionId, k: RunId)
    requires View(db, s, k).Some?
    ensures View(db, s, k).value.id == k
  {
  }

  // ---------------------------------------------------------------------------------------------
  // What a record holds
  // ---------------------------------------------------------------------------------------------

  lemma {:induction false} MemoriesAre(memories: seq<MemoryRow>, s: SessionId, k: RunId, memory: nat)
    ensures memory in MemoriesOf(memories, s, k) <==> MemoryRow(s, k, memory) in memories
    decreases |memories|
  {
    if memories != [] {
      var n := |memories| - 1;
      assert memories == memories[..n] + [memories[n]];
      MemoriesAre(memories[..n], s, k, memory);
    }
  }

  lemma {:induction false} EventsAre(log: seq<LogRow>, s: SessionId, k: RunId, row: LogRow)
    ensures row in EventsOf(log, s, k) <==> row in log && row.event.owner == s && (row.event.createdRun == k || row.outcomeRun == Some(k))
    decreases |log|
  {
    if log != [] {
      var n := |log| - 1;
      assert log == log[..n] + [log[n]];
      EventsAre(log[..n], s, k, row);
    }
  }

  /** The record of an ended Run: its row, exactly the memories it saved, and exactly the Events it created or resolved. */
  lemma {:induction false} RecordTells(db: Db, s: SessionId, k: RunId)
    ensures View(db, s, k).Some? <==> RunKey(s, k) in db.runs && db.runs[RunKey(s, k)].status != Running
    ensures View(db, s, k).Some? ==>
      var r := View(db, s, k).value;
      && r.id == k && r.run == db.runs[RunKey(s, k)]
      && (forall memory :: memory in r.memories <==> MemoryRow(s, k, memory) in db.memories)
      && (forall row :: row in r.events <==> row in db.log && row.event.owner == s && (row.event.createdRun == k || row.outcomeRun == Some(k)))
  {
    hide MemoriesOf, EventsOf;
    forall memory ensures memory in MemoriesOf(db.memories, s, k) <==> MemoryRow(s, k, memory) in db.memories {
      MemoriesAre(db.memories, s, k, memory);
    }
    forall row ensures row in EventsOf(db.log, s, k) <==> row in db.log && row.event.owner == s && (row.event.createdRun == k || row.outcomeRun == Some(k)) {
      EventsAre(db.log, s, k, row);
    }
  }
}
