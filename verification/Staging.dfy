/**
  Writing the history shards of a transaction: every file is written before the transaction commits
  and is undone in reverse order when it does not. Each I/O operation may fail.
 */
module Staging {
  import opened Prelude
  import opened Tables
  import opened History

  // The shards on which each kind of operation fails.
  datatype Io = Io(unreadable: set<ShardKey>, unwritable: set<ShardKey>, rejected: set<ShardKey>, stuck: set<ShardKey>)

  // A file that was written, and what it held before (nothing if it did not exist).
  datatype StagedFile = StagedFile(key: ShardKey, previous: Option<Shard>)

  datatype Projection = Projection(key: ShardKey, body: Shard)

  // The history directory, with its lock. The counters only observe the lock.
  class Directory {
    var files: Files
    var locked: bool
    ghost var acquired: nat
    ghost var released: nat

    constructor (files: Files)
      ensures this.files == files && !locked && acquired == released == 0
    {
      this.files, locked, acquired, released := files, false, 0, 0;
    }

    method Lock()
      requires !locked
      modifies this
      ensures locked && acquired == old(acquired) + 1 && released == old(released) && files == old(files)
    {
      locked, acquired := true, acquired + 1;
    }

    method Unlock()
      requires locked
      modifies this
      ensures !locked && released == old(released) + 1 && acquired == old(acquired) && files == old(files)
    {
      locked, released := false, released + 1;
    }
  }

  function RestoreOne(files: Files, file: StagedFile): Files {
    if file.previous.Some? then files[file.key := file.previous.value] else files - {file.key}
  }

  // The files after undoing the staged ones, last first; a stuck shard keeps what was written.
  function Undone(files: Files, staged: seq<StagedFile>, stuck: set<ShardKey>): Files
    decreases |staged|
  {
    if staged == [] then files
    else
      var n := |staged| - 1;
      Undone(if staged[n].key in stuck then files else RestoreOne(files, staged[n]), staged[..n], stuck)
  }

  /** Undoing a write that was just made gives back the files before it, unless its shard is stuck. */
  lemma {:induction false} UndoneWrite(files: Files, staged: seq<StagedFile>, key: ShardKey, body: Shard, stuck: set<ShardKey>)
    ensures var file := StagedFile(key, if key in files then Some(files[key]) else None);
      Undone(files[key := body], staged + [file], stuck) == Undone(if key in stuck then files[key := body] else files, staged, stuck)
  {
    var file := StagedFile(key, if key in files then Some(files[key]) else None);
    assert (staged + [file])[..|staged|] == staged;
    assert RestoreOne(files[key := body], file) == files;
  }

  // Undoing the writes of other shards does not touch a shard.
  lemma {:induction false} UndoneElsewhere(files: Files, staged: seq<StagedFile>, key: ShardKey, body: Shard, stuck: set<ShardKey>)
    requires forall f | f in staged :: f.key != key
    ensures Undone(files[key := body], staged, stuck) == Undone(files, staged, stuck)[key := body]
    decreases |staged|
  {
    if staged != [] {
      var n := |staged| - 1;
      assert staged[n] in staged;
      assert RestoreOne(files[key := body], staged[n]) == RestoreOne(files, staged[n])[key := body];
      UndoneElsewhere(if staged[n].key in stuck then files else RestoreOne(files, staged[n]), staged[..n], key, body, stuck);
    }
  }

  class Stage {
    var closed: bool
    var staged: seq<StagedFile>

    constructor (closed: bool)
      ensures this.closed == closed && staged == []
    {
      this.closed, staged := closed, [];
    }

    /**
      Releases the directory lock, once however often it is called, and undoes the staged files when
      the transaction did not commit.
     */
    method Finish(directory: Directory, committed: bool, io: Io) returns (ok: bool)
      requires !closed ==> directory.locked
      modifies this, directory
      ensures closed && staged == old(staged)
      ensures old(closed) ==> directory.locked == old(directory.locked)
      ensures !old(closed) ==> !directory.locked
      ensures directory.acquired == old(directory.acquired)
      ensures directory.released == old(directory.released) + if old(closed) then 0 else 1
      ensures old(closed) || committed ==> ok && directory.files == old(directory.files)
      ensures !old(closed) && !committed ==> directory.files == Undone(old(directory.files), staged, io.stuck)
      ensures !old(closed) && !committed ==> (ok <==> forall f | f in staged :: f.key !in io.stuck)
    {
      if closed {
        return true;
      }
      closed := true;
      ok := true;
      if !committed {
        hide Undone;
        var i := |staged|;
        assert staged[..i] == staged;
        while i > 0
          invariant 0 <= i <= |staged| && staged == old(staged) && closed
          invariant directory.locked && directory.acquired == old(directory.acquired) && directory.released == old(directory.released)
          invariant Undone(directory.files, staged[..i], io.stuck) == Undone(old(directory.files), staged, io.stuck)
          invariant ok <==> forall j | i <= j < |staged| :: staged[j].key !in io.stuck
        {
          i := i - 1;
          var file := staged[i];
          UndoneStep(directory.files, staged, i, io.stuck);
          if file.key in io.stuck {
            ok := false;
          } else {
            directory.files := RestoreOne(directory.files, file);
          }
        }
        assert staged[..0] == [];
        NothingUndone(directory.files, io.stuck);
      }
      directory.Unlock();
    }
  }

  lemma {:induction false} UndoneStep(files: Files, staged: seq<StagedFile>, i: nat, stuck: set<ShardKey>)
    requires i < |staged|
    ensures Undone(files, staged[..i + 1], stuck)
         == Undone(if staged[i].key in stuck then files else RestoreOne(files, staged[i]), staged[..i], stuck)
  {
    assert staged[..i + 1][..i] == staged[..i];
  }

  function TargetSet(targets: seq<ShardKey>): set<ShardKey> {
    set key | key in targets
  }

  // The valid targets, each once.
  method Deduplicate(targets: seq<ShardKey>) returns (unique: seq<ShardKey>)
    ensures forall key :: key in unique <==> key in targets && key.start > 0
    ensures forall i, j | 0 <= i < j < |unique| :: unique[i] != unique[j]
  {
    unique := [];
    var seen: set<ShardKey> := {};
    for i := 0 to |targets|
      invariant forall key :: key in unique <==> key in targets[..i] && key.start > 0
      invariant forall key :: key in seen <==> key in unique
      invariant forall i, j | 0 <= i < j < |unique| :: unique[i] != unique[j]
    {
      var target := targets[i];
      if target.start > 0 && target !in seen {
        seen := seen + {target};
        unique := unique + [target];
      }
    }
    assert targets[..|targets|] == targets;
  }

  ghost predicate Projects(tx: Db, targets: seq<ShardKey>, projections: seq<Projection>) {
    && (forall i | 0 <= i < |projections| :: projections[i].body == Project(tx, projections[i].key))
    && (forall i, j | 0 <= i < j < |projections| :: projections[i].key != projections[j].key)
    && (forall key :: key in Staged(tx, TargetSet(targets)) <==> exists p :: p in projections && p.key == key)
  }

  method ProjectAll(tx: Db, targets: seq<ShardKey>) returns (projections: seq<Projection>)
    ensures Projects(tx, targets, projections)
  {
    hide Project;
    var unique := Deduplicate(targets);
    projections := [];
    for i := 0 to |unique|
      invariant forall j | 0 <= j < |projections| :: projections[j].body == Project(tx, projections[j].key) && projections[j].key in unique[..i]
      invariant forall a, b | 0 <= a < b < |projections| :: projections[a].key != projections[b].key
      invariant forall p | p in projections :: p.key in unique[..i] && Project(tx, p.key).runs != []
      invariant forall key | key in unique[..i] && Project(tx, key).runs != [] :: Projection(key, Project(tx, key)) in projections
    {
      var body := Project(tx, unique[i]);
      assert unique[..i + 1] == unique[..i] + [unique[i]];
      if body.runs != [] {
        projections := projections + [Projection(unique[i], body)];
      }
    }
    assert unique[..|unique|] == unique;
    forall key ensures key in Staged(tx, TargetSet(targets)) <==> exists p :: p in projections && p.key == key {
      if key in unique && Project(tx, key).runs != [] {
        assert Projection(key, Project(tx, key)) in projections;
      }
    }
  }

  // The keys of the first n projections.
  ghost function Done(projections: seq<Projection>, n: nat): set<ShardKey>
    requires n <= |projections|
  {
    set i | 0 <= i < n :: projections[i].key
  }

  lemma DoneNext(projections: seq<Projection>, n: nat)
    requires n < |projections|
    ensures Done(projections, n + 1) == Done(projections, n) + {projections[n].key}
  {
  }

  ghost function WrittenIndex(tx: Db, done: set<ShardKey>): Db {
    tx.(index := tx.index + map key | key in done :: key.start + SHARD_SIZE - 1)
  }

  lemma WriteNext(tx: Db, files: Files, done: set<ShardKey>, key: ShardKey)
    ensures Overwritten(tx, files, done + {key}) == Overwritten(tx, files, done)[key := Project(tx, key)]
  {
    hide Project;
    var a, b := Overwritten(tx, files, done + {key}), Overwritten(tx, files, done)[key := Project(tx, key)];
    assert forall k :: k in a <==> k in b;
    assert forall k | k in a :: a[k] == b[k];
  }

  lemma IndexNext(tx: Db, done: set<ShardKey>, key: ShardKey)
    ensures WrittenIndex(tx, done + {key})
         == WrittenIndex(tx, done).(index := WrittenIndex(tx, done).index[key := key.start + SHARD_SIZE - 1])
  {
    var a, b := WrittenIndex(tx, done + {key}).index, WrittenIndex(tx, done).index[key := key.start + SHARD_SIZE - 1];
    assert forall k :: k in a <==> k in b;
    assert forall k | k in a :: a[k] == b[k];
  }

  lemma NothingWritten(tx: Db, files: Files)
    ensures Overwritten(tx, files, {}) == files && WrittenIndex(tx, {}) == tx
  {
    assert WrittenIndex(tx, {}).index == tx.index;
  }

  lemma AllDone(tx: Db, files: Files, targets: seq<ShardKey>, projections: seq<Projection>)
    requires Projects(tx, targets, projections)
    ensures Done(projections, |projections|) == Staged(tx, TargetSet(targets))
  {
    var all := Done(projections, |projections|);
    forall key | key in Staged(tx, TargetSet(targets)) ensures key in all {
      var p :| p in projections && p.key == key;
      var i :| 0 <= i < |projections| && projections[i] == p;
    }
    forall key | key in all ensures key in Staged(tx, TargetSet(targets)) {
      var i :| 0 <= i < |projections| && projections[i].key == key;
      assert projections[i] in projections;
    }
  }

  // The shards whose staging cannot go through.
  function Broken(io: Io): set<ShardKey> {
    io.unreadable + io.unwritable + io.rejected
  }

  // How many shards are written before staging is over or fails; a shard whose index row is rejected
  // has been written.
  function Reached(projections: seq<Projection>, io: Io): (n: nat)
    ensures n <= |projections|
  {
    if projections == [] then 0
    else if projections[0].key in io.unreadable + io.unwritable then 0
    else if projections[0].key in io.rejected then 1
    else 1 + Reached(projections[1..], io)
  }

  lemma {:induction false} ReachedFrom(projections: seq<Projection>, i: nat, io: Io)
    requires i <= |projections| && Done(projections, i) !! Broken(io)
    ensures Reached(projections, io) == i + Reached(projections[i..], io)
    decreases i
  {
    if i == 0 {
      assert projections[0..] == projections;
    } else {
      var rest := projections[i - 1..];
      assert projections[i - 1].key in Done(projections, i);
      assert rest[0] == projections[i - 1] && rest[1..] == projections[i..];
      assert Done(projections, i - 1) <= Done(projections, i);
      ReachedFrom(projections, i - 1, io);
    }
  }

  // What undoing the first n writes leaves: the stuck ones among them.
  ghost predicate Undoes(tx: Db, before: Files, directory: Files, staged: seq<StagedFile>, projections: seq<Projection>, n: nat, stuck: set<ShardKey>)
    requires n <= |projections|
  {
    && Undone(directory, staged, stuck) == Overwritten(tx, before, Done(projections, n) * stuck)
    && (forall f | f in staged :: f.key in Done(projections, n))
    && (forall key | key in Done(projections, n) :: exists f :: f in staged && f.key == key)
  }

  lemma {:induction false} UndoesNext(tx: Db, before: Files, directory: Files, staged: seq<StagedFile>, projections: seq<Projection>, n: nat, stuck: set<ShardKey>)
    requires n < |projections| && Undoes(tx, before, directory, staged, projections, n, stuck)
    requires projections[n].body == Project(tx, projections[n].key) && projections[n].key !in Done(projections, n)
    ensures var key, body := projections[n].key, projections[n].body;
      var file := StagedFile(key, if key in directory then Some(directory[key]) else None);
      Undoes(tx, before, directory[key := body], staged + [file], projections, n + 1, stuck)
  {
    hide Undone, Overwritten;
    var key, body := projections[n].key, projections[n].body;
    var done := Done(projections, n);
    var file := StagedFile(key, if key in directory then Some(directory[key]) else None);
    DoneNext(projections, n);
    UndoneWrite(directory, staged, key, body, stuck);
    if key in stuck {
      UndoneElsewhere(directory, staged, key, body, stuck);
      WriteNext(tx, before, done * stuck, key);
      assert (done + {key}) * stuck == done * stuck + {key};
    } else {
      assert (done + {key}) * stuck == done * stuck;
    }
    hide Done;
    forall k | k in done + {key} ensures exists f :: f in staged + [file] && f.key == k {
      if k == key {
        assert file in staged + [file];
      } else {
        var f :| f in staged && f.key == k;
        assert f in staged + [file];
      }
    }
  }

  // Writes the projections in order; the first failure undoes what was written, except for the stuck
  // shards, and closes the stage.
  method WriteAll(directory: Directory, stage: Stage, tx: Db, projections: seq<Projection>, io: Io)
    returns (ok: bool, tx': Db)
    requires directory.locked && !stage.closed && stage.staged == []
    requires forall i | 0 <= i < |projections| :: projections[i].body == Project(tx, projections[i].key)
    requires forall i, j | 0 <= i < j < |projections| :: projections[i].key != projections[j].key
    modifies directory, stage
    ensures directory.acquired == old(directory.acquired)
    ensures ok <==> Done(projections, |projections|) !! Broken(io)
    ensures ok ==> tx' == WrittenIndex(tx, Done(projections, |projections|))
    ensures ok ==> directory.files == Overwritten(tx, old(directory.files), Done(projections, |projections|))
    ensures ok ==> Undoes(tx, old(directory.files), directory.files, stage.staged, projections, |projections|, io.stuck)
    ensures ok ==> directory.locked && !stage.closed && directory.released == old(directory.released)
    ensures !ok ==> !directory.locked && stage.closed && directory.released == old(directory.released) + 1
    ensures !ok ==> directory.files == Overwritten(tx, old(directory.files), Done(projections, Reached(projections, io)) * io.stuck)
  {
    hide Project, Overwritten, WrittenIndex, Undone;
    tx' := tx;
    ok := true;
    var i := 0;
    NothingUndone(directory.files, io.stuck);
    NothingWritten(tx, directory.files);
    assert Done(projections, 0) == {} && Done(projections, 0) * io.stuck == {};
    while i < |projections|
      invariant 0 <= i <= |projections| && !stage.closed && directory.locked && ok
      invariant directory.released == old(directory.released) && directory.acquired == old(directory.acquired)
      invariant Undoes(tx, old(directory.files), directory.files, stage.staged, projections, i, io.stuck)
      invariant directory.files == Overwritten(tx, old(directory.files), Done(projections, i))
      invariant tx' == WrittenIndex(tx, Done(projections, i))
      invariant Done(projections, i) !! Broken(io)
    {
      var key, body := projections[i].key, projections[i].body;
      DoneNext(projections, i);
      ReachedFrom(projections, i, io);
      assert projections[i..][0] == projections[i];
      assert key in Done(projections, |projections|);
      hide Done, Undoes;
      if key in io.unreadable || key in io.unwritable {
        assert Undone(directory.files, stage.staged, io.stuck) == Overwritten(tx, old(directory.files), Done(projections, i) * io.stuck) by {
          UndoesFiles(tx, old(directory.files), directory.files, stage.staged, projections, i, io.stuck);
        }
        var _ := stage.Finish(directory, false, io);
        ok := false;
        return;
      }
      NotDone(projections, i);
      UndoesNext(tx, old(directory.files), directory.files, stage.staged, projections, i, io.stuck);
      WriteNext(tx, old(directory.files), Done(projections, i), key);
      IndexNext(tx, Done(projections, i), key);
      var previous := if key in directory.files then Some(directory.files[key]) else None;
      directory.files := directory.files[key := body];
      stage.staged := stage.staged + [StagedFile(key, previous)];
      if key in io.rejected {
        UndoesFiles(tx, old(directory.files), directory.files, stage.staged, projections, i + 1, io.stuck);
        var _ := stage.Finish(directory, false, io);
        ok := false;
        return;
      }
      tx' := tx'.(index := tx'.index[key := key.start + SHARD_SIZE - 1]);
      i := i + 1;
    }
  }

  lemma NotDone(projections: seq<Projection>, n: nat)
    requires n < |projections| && forall i, j | 0 <= i < j < |projections| :: projections[i].key != projections[j].key
    ensures projections[n].key !in Done(projections, n)
  {
  }

  lemma UndoesFiles(tx: Db, before: Files, directory: Files, staged: seq<StagedFile>, projections: seq<Projection>, n: nat, stuck: set<ShardKey>)
    requires n <= |projections| && Undoes(tx, before, directory, staged, projections, n, stuck)
    ensures Undone(directory, staged, stuck) == Overwritten(tx, before, Done(projections, n) * stuck)
  {
  }

  lemma NothingUndone(files: Files, stuck: set<ShardKey>)
    ensures Undone(files, [], stuck) == files
  {
  }

  /**
    Stages the shards of a transaction. On success the directory and the candidate are the staged ones,
    the lock is held until Finish, and undoing gives back the files there were, except that the stuck
    shards keep the candidate's content. On failure that has been done: `left` are the shards that were
    written and could not be restored.
   */
  method StageTargets(directory: Directory, tx: Db, targets: seq<ShardKey>, io: Io)
    returns (ok: bool, stage: Stage, tx': Db, ghost left: set<ShardKey>)
    requires !directory.locked
    modifies directory
    ensures fresh(stage)
    ensures ok <==> Staged(tx, TargetSet(targets)) !! Broken(io)
    ensures ok ==> tx' == StageIndex(tx, TargetSet(targets))
    ensures ok ==> directory.files == StageFiles(tx, old(directory.files), TargetSet(targets))
    ensures ok ==> Undone(directory.files, stage.staged, io.stuck) == Overwritten(tx, old(directory.files), left)
    ensures ok ==> left == Staged(tx, TargetSet(targets)) * io.stuck
    ensures ok ==> (left == {} <==> forall f | f in stage.staged :: f.key !in io.stuck)
    ensures ok ==> directory.locked == !stage.closed && directory.released == old(directory.released)
    ensures ok && stage.closed ==> directory.files == old(directory.files) && left == {}
    ensures ok ==> directory.acquired == old(directory.acquired) + if stage.closed then 0 else 1
    ensures !ok ==> stage.closed && !directory.locked
    ensures !ok ==> directory.acquired == old(directory.acquired) + 1 && directory.released == old(directory.released) + 1
    ensures !ok ==> left <= Staged(tx, TargetSet(targets)) * io.stuck && directory.files == Overwritten(tx, old(directory.files), left)
  {
    hide Project, Staged, Undone, Overwritten, Done, Undoes;
    var projections := ProjectAll(tx, targets);
    AllDone(tx, directory.files, targets, projections);
    stage := new Stage(projections == []);
    if projections == [] {
      ok, tx', left := true, tx, {};
      NothingDone();
      NothingUndone(directory.files, io.stuck);
      NothingWritten(tx, directory.files);
      return;
    }
    directory.Lock();
    ok, tx' := WriteAll(directory, stage, tx, projections, io);
    left := Done(projections, if ok then |projections| else Reached(projections, io)) * io.stuck;
    DoneWithin(projections, Reached(projections, io));
    if ok {
      StagedStuck(tx, old(directory.files), directory.files, stage.staged, projections, io.stuck);
    }
  }

  lemma NothingDone()
    ensures Done([], 0) == {}
  {
  }

  lemma DoneWithin(projections: seq<Projection>, n: nat)
    requires n <= |projections|
    ensures Done(projections, n) <= Done(projections, |projections|)
  {
  }

  lemma StagedStuck(tx: Db, before: Files, directory: Files, staged: seq<StagedFile>, projections: seq<Projection>, stuck: set<ShardKey>)
    requires Undoes(tx, before, directory, staged, projections, |projections|, stuck)
    ensures Undone(directory, staged, stuck) == Overwritten(tx, before, Done(projections, |projections|) * stuck)
    ensures Done(projections, |projections|) * stuck == {} <==> forall f | f in staged :: f.key !in stuck
  {
    hide Done, Undone, Overwritten;
    var all := Done(projections, |projections|);
    forall key | key in all * stuck ensures exists f :: f in staged && f.key in stuck {
      var f :| f in staged && f.key == key;
    }
    forall f | f in staged && f.key in stuck ensures all * stuck != {} {
      assert f.key in all * stuck;
    }
  }

  /**
    A transaction with history: stage, commit, finish. Either both the database and the files move to
    the candidate, or neither does, except that the files in `left` keep the content of the candidate:
    shards that were written and could not be restored. When staging went through and the commit did
    not, these are all its stuck shards.
   */
  method Transact(directory: Directory, db: Db, candidate: Db, targets: seq<ShardKey>, io: Io, commits: bool)
    returns (ok: bool, db': Db, staged: bool, restored: bool, ghost left: set<ShardKey>)
    requires !directory.locked
    modifies directory
    ensures !directory.locked
    ensures directory.acquired - old(directory.acquired) == directory.released - old(directory.released)
    ensures staged <==> Staged(candidate, TargetSet(targets)) !! Broken(io)
    ensures ok <==> commits && staged
    ensures ok ==> db' == StageIndex(candidate, TargetSet(targets)) && left == {}
    ensures ok ==> directory.files == StageFiles(candidate, old(directory.files), TargetSet(targets))
    ensures !ok ==> db' == db && directory.files == Overwritten(candidate, old(directory.files), left)
    ensures !ok ==> left <= Staged(candidate, TargetSet(targets)) * io.stuck
    ensures !ok && staged ==> left == Staged(candidate, TargetSet(targets)) * io.stuck && (restored <==> left == {})
  {
    hide Project, Staged, Undone, StageFiles, StageIndex, Overwritten;
    NothingLeft(candidate, directory.files);
    var stage, tx;
    staged, stage, tx, left := StageTargets(directory, candidate, targets, io);
    db' := db;
    ok := staged && commits;
    if ok {
      db', left := tx, {};
    }
    restored := stage.Finish(directory, ok, io);
  }

  lemma NothingLeft(db: Db, files: Files)
    ensures Overwritten(db, files, {}) == files
  {
  }
}
