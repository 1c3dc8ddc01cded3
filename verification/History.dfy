/**
  Run History: shard files of twenty Runs that mirror the terminal Runs of the database. The files
  are a cache of a view; this module defines the view, what it means for the files to agree with
  it, and what a reader gets back.
 */
module History {
  import opened Prelude
  import opened Tables

  // The recorded form of one terminal Run.
  datatype Record = Record(id: RunId, run: Run, memories: seq<nat>, events: seq<LogRow>)

  datatype Shard = Shard(session: SessionId, start: RunId, end: RunId, runs: seq<Record>)

  type Files = map<ShardKey, Shard>

  function ShardStart(k: RunId): RunId {
    (k - 1) / SHARD_SIZE * SHARD_SIZE + 1
  }

  function KeyOf(s: SessionId, k: RunId): ShardKey {
    ShardKey(s, ShardStart(k))
  }

  /** The shards partition the Run ids: k lies in exactly one range, the one Range returns. */
  lemma RangePartitions(k: RunId, start: RunId)
    requires k >= 1
    ensures 1 <= ShardStart(k) <= k < ShardStart(k) + SHARD_SIZE
    ensures start % SHARD_SIZE == 1 && start <= k < start + SHARD_SIZE ==> start == ShardStart(k)
  {
  }

  // ---------------------------------------------------------------------------------------------
  // The view
  // ---------------------------------------------------------------------------------------------

  function View(db: Db, s: SessionId, k: RunId): Option<Record> {
    if RunKey(s, k) in db.runs && Terminal(db.runs[RunKey(s, k)].status)
    then Some(Record(k, db.runs[RunKey(s, k)], MemoriesOf(db.memories, s, k), EventsOf(db.log, s, k)))
    else None
  }

  // RunsInTx over the first n ids of a range.
  function Records(db: Db, s: SessionId, start: RunId, n: nat): seq<Record> {
    if n == 0 then []
    else
      var last := View(db, s, start + n - 1);
      Records(db, s, start, n - 1) + if last.Some? then [last.value] else []
  }

  function Project(db: Db, key: ShardKey): Shard {
    Shard(key.session, key.start, key.start + SHARD_SIZE - 1, Records(db, key.session, key.start, SHARD_SIZE))
  }

  lemma RecordsSame(db: Db, db': Db, s: SessionId, start: RunId, n: nat)
    requires forall k | start <= k < start + n :: View(db, s, k) == View(db', s, k)
    ensures Records(db, s, start, n) == Records(db', s, start, n)
  {
  }

  lemma RecordsHold(db: Db, s: SessionId, start: RunId, n: nat, k: RunId)
    requires start <= k < start + n && View(db, s, k).Some?
    ensures View(db, s, k).value in Records(db, s, start, n)
  {
  }

  // Records are the view of their own ids, in increasing order.
  lemma RecordsOrdered(db: Db, s: SessionId, start: RunId, n: nat)
    ensures forall i | 0 <= i < |Records(db, s, start, n)| ::
      var r := Records(db, s, start, n)[i];
      start <= r.id < start + n && View(db, s, r.id) == Some(r)
    ensures forall i, j | 0 <= i < j < |Records(db, s, start, n)| ::
      Records(db, s, start, n)[i].id < Records(db, s, start, n)[j].id
  {
  }

  // ---------------------------------------------------------------------------------------------
  // Agreement
  // ---------------------------------------------------------------------------------------------

  ghost predicate Indexed(db: Db, key: ShardKey) {
    key in db.index && db.index[key] == key.start + SHARD_SIZE - 1
  }

  ghost predicate Mirrored(db: Db, files: Files, key: ShardKey) {
    Indexed(db, key) && key in files && files[key] == Project(db, key)
  }

  // The index names only whole ranges.
  ghost predicate IndexShape(index: map<ShardKey, RunId>) {
    forall key | key in index :: key.start > 0 && key.start % SHARD_SIZE == 1 && index[key] == key.start + SHARD_SIZE - 1
  }

  /** Every terminal Run is indexed, and its shard is the projection of the database unless it is damaged. */
  ghost predicate Agrees(db: Db, files: Files, damaged: set<ShardKey>) {
    && IndexShape(db.index)
    && (forall s, k | View(db, s, k).Some? ::
          k >= 1 && Indexed(db, KeyOf(s, k)) && (KeyOf(s, k) in damaged || Mirrored(db, files, KeyOf(s, k))))
  }

  // Targets that start a range, as Range computes them.
  ghost predicate Aligned(targets: set<ShardKey>) {
    forall key | key in targets :: key.start % SHARD_SIZE == 1
  }

  lemma KeyAligned(s: SessionId, k: RunId)
    ensures KeyOf(s, k).start % SHARD_SIZE == 1
  {
  }

  lemma StagedShape(db: Db, targets: set<ShardKey>)
    requires IndexShape(db.index) && Aligned(targets)
    ensures IndexShape(StageIndex(db, targets).index)
  {
    hide Project;
  }

  // The shards StageTargets writes: the valid targets with something to record.
  function Staged(db: Db, targets: set<ShardKey>): set<ShardKey> {
    set key | key in targets && key.start > 0 && Project(db, key).runs != []
  }

  function StageIndex(db: Db, targets: set<ShardKey>): Db {
    db.(index := db.index + map key | key in Staged(db, targets) :: key.start + SHARD_SIZE - 1)
  }

  // The files with some shards overwritten by the projection of a database.
  function Overwritten(db: Db, files: Files, keys: set<ShardKey>): Files {
    files + map key | key in keys :: Project(db, key)
  }

  function StageFiles(db: Db, files: Files, targets: set<ShardKey>): Files {
    Overwritten(db, files, Staged(db, targets))
  }

  lemma IndexIsNotViewed(db: Db, targets: set<ShardKey>, key: ShardKey)
    ensures Project(StageIndex(db, targets), key) == Project(db, key)
    ensures forall s, k :: View(StageIndex(db, targets), s, k) == View(db, s, k)
  {
    RecordsSame(db, StageIndex(db, targets), key.session, key.start, SHARD_SIZE);
  }

  // A transaction must stage every shard whose view it changes.
  ghost predicate Covers(db: Db, db': Db, targets: set<ShardKey>) {
    forall s, k | k >= 1 && View(db, s, k) != View(db', s, k) :: KeyOf(s, k) in targets
  }

  lemma CleanShard(db: Db, db': Db, targets: set<ShardKey>, s: SessionId, k: RunId)
    requires Covers(db, db', targets) && k >= 1 && KeyOf(s, k) !in targets
    ensures Project(db, KeyOf(s, k)) == Project(db', KeyOf(s, k))
  {
    var start := ShardStart(k);
    RangePartitions(k, start);
    forall j | start <= j < start + SHARD_SIZE ensures View(db, s, j) == View(db', s, j) {
      RangePartitions(j, start);
    }
    RecordsSame(db, db', s, start, SHARD_SIZE);
  }

  lemma StagedShard(db: Db, files: Files, targets: set<ShardKey>, s: SessionId, k: RunId)
    requires k >= 1 && View(db, s, k).Some? && KeyOf(s, k) in targets
    ensures KeyOf(s, k) in Staged(db, targets)
  {
    RangePartitions(k, ShardStart(k));
    RecordsHold(db, s, ShardStart(k), SHARD_SIZE, k);
  }

  /** Staging the shards a transaction touches keeps the files in agreement, and repairs those it writes. */
  lemma StagingAgrees(db: Db, db': Db, files: Files, targets: set<ShardKey>, damaged: set<ShardKey>)
    requires Agrees(db, files, damaged) && db'.index == db.index && Covers(db, db', targets) && Aligned(targets)
    requires forall key | key in db'.runs :: key.id >= 1
    ensures Agrees(StageIndex(db', targets), StageFiles(db', files, targets), damaged - Staged(db', targets))
  {
    var after, files' := StageIndex(db', targets), StageFiles(db', files, targets);
    StagedShape(db', targets);
    forall s, k | View(after, s, k).Some?
      ensures k >= 1 && Indexed(after, KeyOf(s, k))
      ensures KeyOf(s, k) in damaged - Staged(db', targets) || Mirrored(after, files', KeyOf(s, k))
    {
      var key := KeyOf(s, k);
      IndexIsNotViewed(db', targets, key);
      assert RunKey(s, k) in db'.runs;
      if key in targets {
        StagedShard(db', files, targets, s, k);
      } else {
        CleanShard(db, db', targets, s, k);
        assert View(db, s, k) == View(db', s, k);
        assert Indexed(db, key) && (key in damaged || Mirrored(db, files, key));
      }
    }
  }

  // ---------------------------------------------------------------------------------------------
  // Damage
  // ---------------------------------------------------------------------------------------------

  // An aborted transaction damages no shard but those it could not restore.
  lemma LeftAgrees(db: Db, candidate: Db, files: Files, damaged: set<ShardKey>, left: set<ShardKey>)
    requires Agrees(db, files, damaged)
    ensures Agrees(db, Overwritten(candidate, files, left), damaged + left)
  {
    hide Project, View;
    var after := Overwritten(candidate, files, left);
    forall s, k | View(db, s, k).Some? && KeyOf(s, k) !in damaged + left ensures Mirrored(db, after, KeyOf(s, k)) {
      assert Mirrored(db, files, KeyOf(s, k));
    }
  }

  // An ended Run is recorded in the shard.
  predicate Recorded(db: Db, key: ShardKey) {
    exists k | key.start <= k < key.start + SHARD_SIZE :: View(db, key.session, k).Some?
  }

  /**
    After an abort the files still agree, if and only if every shard that was staged and could not be
    restored looks the same to the aborted candidate, or records no ended Run.
   */
  lemma AbortAgreesIff(db: Db, candidate: Db, files: Files, left: set<ShardKey>)
    requires Agrees(db, files, {}) && Aligned(left)
    ensures Agrees(db, Overwritten(candidate, files, left), {}) <==>
      forall key | key in left && Recorded(db, key) :: Project(candidate, key) == Project(db, key)
  {
    hide Project, View;
    var after := Overwritten(candidate, files, left);
    if forall key | key in left && Recorded(db, key) :: Project(candidate, key) == Project(db, key) {
      forall s, k | View(db, s, k).Some? ensures Mirrored(db, after, KeyOf(s, k)) {
        var key := KeyOf(s, k);
        assert Mirrored(db, files, key) && k >= 1;
        RangePartitions(k, key.start);
        assert Recorded(db, key);
      }
    }
    if Agrees(db, after, {}) {
      forall key | key in left && Recorded(db, key) ensures Project(candidate, key) == Project(db, key) {
        var k :| key.start <= k < key.start + SHARD_SIZE && View(db, key.session, k).Some?;
        assert k >= 1;
        RangePartitions(k, key.start);
        assert KeyOf(key.session, k) == key;
        assert Mirrored(db, after, key);
      }
    }
  }
}
