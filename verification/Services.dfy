/** The application services around the store and the database: upload with compensation, deletion and
    its resumption, and boot recovery. Each method runs without interference; interleavings of their steps
    are in module World. */
module Services {
  import opened Prelude
  import opened Lifecycle
  import opened Bytes
  import opened Uuid
  import opened Utf8
  import opened Tables
  import opened Backing
  import opened Invariant
  import opened BatchReset
  import opened Database
  import opened Queries
  import opened FileStore
  import opened CancelTable

  // ---- Upload ----

  datatype UploadReply =
    | Accepted(rec: Id, task: Id)
    | ReusedExisting(rec: Id, task: Id, status: Status)
    | Refused(error: StoreError)
    | DatabaseUnavailable
    | StorageUnavailable

  class UploadService {
    const store: Store
    const sql: MySql
    var notified: nat

    constructor (store: Store, sql: MySql)
      ensures this.store == store && this.sql == sql && notified == 0
    {
      this.store, this.sql, notified := store, sql, 0;
    }

    /** Refused exactly when the content or the storage is at fault, with the verdict on the content unless the
        storage was. Otherwise the file is safe before its row is tried, and goes again unless the row may be
        there: after a rollback and after a reuse it is deleted, after an unknown commit it is kept. The pool
        is notified exactly when new rows were created. */
    method Upload(
        calls: seq<Chunk>, name: Text, extension: string, rec: Id, task: Id, tmpId: string, finalId: string,
        now: Time, trouble: Trouble, txFault: Fault, deleteFails: bool)
      returns (reply: UploadReply)
      requires sql.Valid() && Backed(sql.recordings, store.files, Hasher(store.alg))
      requires Ends(calls) && Canonical(finalId) && extension != ""
      requires TmpFor(tmpId) !in store.files && FinalFor(finalId, extension) !in store.files
      requires rec !in sql.recordings && task !in sql.tasks
      requires forall r :: r in sql.recordings ==> sql.recordings[r].path != FinalFor(finalId, extension)
      modifies this, store, sql
      ensures sql.Valid() && Backed(sql.recordings, store.files, Hasher(store.alg))
      ensures notified == old(notified) + (if reply.Accepted? then 1 else 0)
      ensures reply.Refused? <==> Judged(store.alg, calls, store.limit).Err? || Strikes(trouble, calls)
      ensures reply.Refused? ==> Err(reply.error) == Judged(store.alg, calls, store.limit) || Strikes(trouble, calls)
      ensures reply.Refused? ==>
          sql.View() == old(sql.View()) && (!trouble.removeFails ==> store.files == old(store.files))
      ensures !reply.Refused? ==>
        && 0 < |Stream(calls)| <= store.limit
        && var input := NewRecording(rec, task, Column(Sanitized(name)), FinalFor(finalId, extension), extension,
            |Stream(calls)|, Digest(store.alg, Stream(calls)), now);
        UploadEnds(old(sql.View()), old(store.files), input, Stream(calls), txFault, deleteFails, reply,
            sql.View(), store.files)
      ensures reply.Accepted? ==>
        && rec in sql.recordings && sql.recordings[rec].path == finalId + "." + extension
        && sql.recordings[rec].size == |Stream(calls)| && Hashes(store.alg, Stream(calls), sql.recordings[rec].hash)
      ensures reply.ReusedExisting? ==>
        && reply.rec in sql.recordings && sql.recordings[reply.rec].deletingAt.None?
        && Hashes(store.alg, Stream(calls), sql.recordings[reply.rec].hash)
    {
      VerdictAccepts(store.alg, Stream(calls), calls[|calls| - 1].status, store.limit);
      var saved := store.Save(calls, extension, tmpId, finalId, trouble);
      if saved.Err? {
        StillBacked(sql.recordings, old(store.files), store.files, Hasher(store.alg), TmpFor(tmpId));
        return Refused(saved.error);
      }
      var file := saved.value;
      var display := SanitizeFilename(name);
      var input := NewRecording(rec, task, Column(display), file.path, extension, file.size, file.hash, now);
      reply := Commit(input, old(store.files), Stream(calls), txFault, deleteFails);
    }

    /** The creating transaction, and what becomes of the stored file. */
    method Commit(
        input: NewRecording, ghost before: map<string, seq<byte>>, ghost content: seq<byte>,
        txFault: Fault, deleteFails: bool)
      returns (reply: UploadReply)
      requires sql.Valid() && Lawful(sql.View(), Create(input))
      requires Backed(sql.recordings, before, Hasher(store.alg))
      requires FinalName(input.path) && input.path !in before && store.files == before[input.path := content]
      requires input.size == |content| && input.hash == Digest(store.alg, content)
      modifies this, store, sql
      ensures sql.Valid() && Backed(sql.recordings, store.files, Hasher(store.alg)) && !reply.Refused?
      ensures notified == old(notified) + (if reply.Accepted? then 1 else 0)
      ensures UploadEnds(old(sql.View()), before, input, content, txFault, deleteFails, reply, sql.View(), store.files)
    {
      assert before[input.path := content] - {input.path} == before;
      NewFileBacked(sql.recordings, before, input, content, Hasher(store.alg));
      if txFault.CommitUnknown? { LockedCreate(sql.View(), input, txFault.applied); }
      var created := sql.CreateOrReuse(input, txFault);
      match created {
        case CreateUnknown =>
          return DatabaseUnavailable;
        case CreateRolledBack =>
          var deleted := store.Delete(input.path, deleteFails);
          return DatabaseUnavailable;
        case Reused(r, t, status) =>
          var deleted := store.Delete(input.path, deleteFails);
          if !deleted {
            return StorageUnavailable;
          }
          return ReusedExisting(r, t, status);
        case Created =>
          notified := notified + 1;
          return Accepted(input.rec, input.task);
      }
    }
  }

  /** How an upload whose file was stored ends: in rows, in files, and in what it reports. Without a fault
      it is accepted if no active recording has the content, and otherwise reuses the one that has. */
  ghost predicate UploadEnds(
      db: Db, files: Disk, input: NewRecording, content: seq<byte>, txFault: Fault, deleteFails: bool,
      reply: UploadReply, db': Db, files': Disk) {
    var stored := files[input.path := content];
    match reply
    case Accepted(r, t) =>
      r == input.rec && t == input.task && CreatedRows(db, input, db') && files' == stored
    case ReusedExisting(r, t, status) =>
      && SameRows(db, db') && files' == files
      && Reusable(db, t, input.hash) && r == db.tasks[t].recordingId && status == db.tasks[t].status
    case StorageUnavailable =>
      deleteFails && SameRows(db, db') && Taken(db, input.hash) && files' == stored
    case DatabaseUnavailable =>
      if txFault.CommitUnknown? then
        && files' == stored
        && if txFault.applied && !Taken(db, input.hash) then CreatedRows(db, input, db') else SameRows(db, db')
      else
        txFault.Statement? && SameRows(db, db') && files' == if deleteFails then stored else files
    case Refused(_) => false
  }

  /** An active recording has the content already. */
  ghost predicate Taken(db: Db, h: Hash) {
    exists t :: Reusable(db, t, h)
  }

  /** The rows of the upload are there, and nothing else changed. */
  ghost predicate CreatedRows(db: Db, input: NewRecording, n: Db) {
    && !Taken(db, input.hash)
    && n.recordings == db.recordings[input.rec := Recording(input.filename, input.path, input.extension, input.size,
        input.hash, None, input.now, input.now)]
    && n.tasks == db.tasks[input.task := Task(input.rec, Pending, 1, 1, "", None, None, "", input.now, input.now,
        None, None, None)]
    && n.events == db.events[EventKey(input.task, 1) := Event(input.rec, 1, TaskCreated, input.now, Info, None,
        Pending, None, None, "", NoDetails)]
  }

  /** The creating transaction behind its hash lock, in terms of the tables before. */
  lemma LockedCreate(db: Db, input: NewRecording, applied: bool)
    ensures var n := Attempt(WithLock(db, input.hash), Create(input), applied);
      if applied && !Taken(db, input.hash) then CreatedRows(db, input, n) else SameRows(db, n)
  {
    assert forall t :: Reusable(WithLock(db, input.hash), t, input.hash) <==> Reusable(db, t, input.hash);
  }

  lemma StillBacked(recs: map<Id, Recording>, a: Disk, b: Disk, digest: seq<byte> -> Hash, tmp: string)
    requires Backed(recs, a, digest) && b - {tmp} == a
    ensures Backed(recs, b, digest)
  {
    forall p | p in a ensures p in b && b[p] == a[p] {
      assert p in b - {tmp} && (b - {tmp})[p] == b[p];
    }
  }

  lemma NewFileBacked(
      recs: map<Id, Recording>, files: Disk, input: NewRecording, content: seq<byte>,
      digest: seq<byte> -> Hash)
    requires Backed(recs, files, digest) && input.path !in files && input.rec !in recs
    requires FinalName(input.path)
    requires input.size == |content| && input.hash == digest(content)
    ensures Backed(recs, files[input.path := content], digest)
    ensures Backed(recs[input.rec := NewRow(input)], files[input.path := content], digest)
  {
  }

  // ---- Deletion ----

  /** What can go wrong with one row of a cleanup. */
  datatype RowTrouble = RowTrouble(readFails: bool, removeFails: bool, purge: Fault)

  /** A mark rewrites its recording, the row of its task and one free event of that task. */
  lemma MarkWrites(db: Db, op: Op)
    requires Sound(db) && op.Mark? && Guard(db, op)
    ensures var n := Effect(db, op);
      && n.recordings == db.recordings[op.rec := n.recordings[op.rec]]
      && if op.of.None? then n.tasks == db.tasks && n.events == db.events
         else
           var t := op.of.value; var key := EventKey(t, db.tasks[t].eventSeq + 1);
           && n.tasks == db.tasks[t := n.tasks[t]] && n.tasks[t].recordingId == db.tasks[t].recordingId == op.rec
           && key !in db.events && n.events == db.events[key := n.events[key]] && n.events[key].recordingId == op.rec
  {
    if op.of.Some? { NextNumberFree(db, op.of.value); }
  }

  lemma OneMarkInside(db: Db, op: Op, applied: bool)
    requires Sound(db) && op.Mark?
    ensures SameRows(Drop(Attempt(db, op, applied), op.rec), Drop(db, op.rec))
  {
    if applied && Guard(db, op) {
      MarkWrites(db, op);
      DropsAlike(db, Effect(db, op), op.rec, op.of);
    }
  }

  lemma DropsAlike(db: Db, n: Db, r: Id, of: Option<Id>)
    requires r in n.recordings && n.recordings == db.recordings[r := n.recordings[r]]
    requires of.None? ==> n.tasks == db.tasks && n.events == db.events
    requires of.Some? ==>
      && of.value in db.tasks && of.value in n.tasks && n.tasks == db.tasks[of.value := n.tasks[of.value]]
      && n.tasks[of.value].recordingId == db.tasks[of.value].recordingId == r
      && var key := EventKey(of.value, db.tasks[of.value].eventSeq + 1);
      && key !in db.events && key in n.events && n.events[key].recordingId == r
      && n.events == db.events[key := n.events[key]]
    ensures SameRows(Drop(n, r), Drop(db, r))
  {
    assert Drop(n, r).recordings == Drop(db, r).recordings;
    assert Drop(n, r).tasks == Drop(db, r).tasks;
    assert Drop(n, r).events == Drop(db, r).events;
  }

  /** What a mark writes belongs to its recording. */
  lemma MarkStaysInside(db: Db, r: Id, now: Time)
    requires Sound(db)
    ensures r in db.recordings ==> forall of: Option<Id>, applied: bool ::
      SameRows(Drop(Attempt(WithLock(db, db.recordings[r].hash), Mark(r, of, now), applied), r), Drop(db, r))
  {
    if r in db.recordings {
      var locked := WithLock(db, db.recordings[r].hash);
      LocksDoNotMatter(db, db.hashLocks + {db.recordings[r].hash});
      forall of: Option<Id>, applied: bool
        ensures SameRows(Drop(Attempt(locked, Mark(r, of, now), applied), r), Drop(db, r))
      {
        OneMarkInside(locked, Mark(r, of, now), applied);
      }
    }
  }

  datatype FinalizeReply = Finalized | StillPending

  datatype DeleteReply = Deleted | NotFoundReply | DeletePending | DeleteUnavailable

  class DeleteService {
    const store: Store
    const sql: MySql
    const table: Table

    constructor (store: Store, sql: MySql, table: Table)
      ensures this.store == store && this.sql == sql && this.table == table
    {
      this.store, this.sql, this.table := store, sql, table;
    }

    /** Handles that cancelling may touch. */
    ghost function Handles(): set<CancelHandle>
      reads this, table
    {
      set key | key in table.cancels :: table.cancels[key]
    }

    /** finalize: cancel the live executions of the task, delete the file, purge the rows. On success rows
        and file are gone; on failure the recording stays marked, and the rows are intact unless only the
        reply of their purge was lost. */
    method Finalize(row: DeletingRow, trouble: RowTrouble) returns (r: FinalizeReply, ghost purged: bool)
      requires sql.Valid()
      modifies store, sql, Handles()
      ensures sql.Valid()
      ensures sql.View() == if purged then Drop(old(sql.View()), row.rec) else old(sql.View())
      ensures store.files == if row.path != "" && Removable(row.path, old(store.files), trouble)
                             then old(store.files) - {row.path} else old(store.files)
      ensures purged <==> Removable(row.path, old(store.files), trouble) && Takes(trouble.purge)
      ensures r.Finalized? ==> purged
      ensures purged ==> r.Finalized? || trouble.purge.CommitUnknown?
      ensures row.task.Some? ==>
          forall key :: key in table.cancels && key.task == row.task.value ==> table.cancels[key].cancelled
    {
      if row.task.Some? {
        table.CancelTask(row.task.value);
      }
      var removed := store.Delete(row.path, trouble.removeFails);
      if !removed {
        return StillPending, false;
      }
      var reply := sql.PurgeRecording(row.rec, trouble.purge);
      purged := reply.Committed? || (reply.OutcomeUnknown? && trouble.purge.applied);
      return if reply.Committed? then Finalized else StillPending, purged;
    }

    /** The mark, as far as the rest of Delete depends on it. */
    method Mark(rec: Id, now: Time, f: Fault) returns (reply: MarkReply)
      requires sql.Valid()
      modifies sql
      ensures sql.Valid() && SameRows(Drop(sql.View(), rec), Drop(old(sql.View()), rec))
      ensures reply.Marked? ==>
          rec in old(sql.recordings) && Deleting(sql.View(), rec)
              && sql.recordings[rec].path == old(sql.recordings)[rec].path
      ensures reply.RecordingNotFound? ==>
          sql.View() == old(sql.View()) && (rec !in sql.recordings || sql.recordings[rec].hash == "")
      ensures f.NoFault? ==> reply.Marked? || reply.RecordingNotFound?
    {
      MarkStaysInside(sql.View(), rec, now);
      reply := sql.MarkDeleting(rec, now, f);
    }

    /** Delete: mark, then finalize what is found marked; a recording that is gone by then counts as
        deleted. Deleted means its rows and its file are gone; whatever is reported after the mark, the
        recording is no longer active; and nothing that belongs to another recording changes. */
    method Delete(rec: Id, now: Time, markFault: Fault, trouble: RowTrouble) returns (r: DeleteReply)
      requires sql.Valid()
      modifies store, sql, Handles()
      ensures sql.Valid()
      ensures r.Deleted? ==> rec !in sql.recordings && rec in old(sql.recordings)
      ensures r.Deleted? ==> var path := old(sql.recordings)[rec].path; path == "" || path !in store.files
      ensures r.DeletePending? ==> !Active(sql.View(), rec)
      ensures r.NotFoundReply? ==>
          sql.View() == old(sql.View()) && (rec !in sql.recordings || sql.recordings[rec].hash == "")
      ensures SameRows(Drop(sql.View(), rec), Drop(old(sql.View()), rec))
      ensures markFault.NoFault? && !trouble.removeFails && trouble.purge.NoFault? ==>
          (rec in old(sql.recordings) && old(sql.recordings)[rec].hash != "" ==> r.Deleted?)
    {
      var marked := Mark(rec, now, markFault);
      if marked.MarkFailed? || marked.MarkUnknown? {
        return DeleteUnavailable;
      }
      if marked.RecordingNotFound? {
        return NotFoundReply;
      }
      var row := GetDeleting(sql.View(), rec, trouble.readFails);
      if row.None? {
        return Deleted;
      }
      var finalized, purged := Finalize(row.value, trouble);
      return if finalized.Finalized? then Deleted else DeletePending;
    }

    /** CleanupPending: finalize every marked recording in turn, whatever happens to the others. The pass
        removes exactly the marked recordings whose file could be deleted and whose purge committed; the
        rest stay marked as they were, for a later pass. */
    method CleanupPending(listFails: bool, readFails: set<Id>, trouble: Id -> RowTrouble)
      requires sql.Valid()
      modifies store, sql, Handles()
      ensures sql.Valid()
      ensures listFails ==> sql.View() == old(sql.View()) && store.files == old(store.files)
      ensures !listFails ==>
        && sql.View() ==
            DropAll(old(sql.View()), Cleared(old(sql.View()), old(store.files), trouble, MarkedIn(old(sql.View()))))
        && store.files ==
            old(store.files) - RemovedPaths(old(sql.View()), old(store.files), trouble, MarkedIn(old(sql.View())))
    {
      if listFails {
        return;
      }
      ghost var db, files := sql.View(), store.files;
      var rows := ListDeleting(sql.View(), readFails);
      ghost var seen: set<Id> := {};
      NothingCleared(db, files, trouble);
      for i := 0 to |rows|
        invariant sql.Valid() && seen == set r | r in Recs(rows)[..i]
        invariant sql.View() == DropAll(db, Cleared(db, files, trouble, seen))
        invariant store.files == files - RemovedPaths(db, files, trouble, seen)
      {
        var row := rows[i];
        assert Recs(rows)[i] == row.rec;
        assert row.rec in Recs(rows) && Describes(db, row);
        assert row.rec !in seen by { NotYetSeen(db, rows, i); }
        OneMoreFile(db, files, trouble, seen, row.rec);
        OneMoreCleared(db, files, trouble, seen, row.rec);
        var finalized, purged := Finalize(row, trouble(row.rec));
        seen := seen + {row.rec};
      }
      assert Recs(rows)[..|rows|] == Recs(rows);
      assert seen == MarkedIn(db);
    }
  }

  lemma NotYetSeen(db: Db, rows: seq<DeletingRow>, i: nat)
    requires InOrder(db, rows) && i < |rows|
    ensures rows[i].rec !in Recs(rows)[..i]
  {
  }

  predicate Takes(f: Fault) {
    f.NoFault? || (f.CommitUnknown? && f.applied)
  }

  predicate Removable(path: Path, files: map<string, seq<byte>>, trouble: RowTrouble) {
    path == "" || path !in files || !trouble.removeFails
  }

  /** Those of the marked recordings in `seen` that a cleanup pass gets rid of. */
  function Cleared(db: Db, files: map<string, seq<byte>>, trouble: Id -> RowTrouble, seen: set<Id>): set<Id> {
    set r | r in seen && r in db.recordings && Removable(db.recordings[r].path, files, trouble(r))
        && Takes(trouble(r).purge)
  }

  function RemovedPaths(
      db: Db, files: map<string, seq<byte>>, trouble: Id -> RowTrouble, seen: set<Id>): set<Path> {
    set r | r in seen && r in db.recordings && db.recordings[r].path != ""
        && Removable(db.recordings[r].path, files, trouble(r)) :: db.recordings[r].path
  }

  lemma NothingCleared(db: Db, files: map<string, seq<byte>>, trouble: Id -> RowTrouble)
    ensures DropAll(db, Cleared(db, files, trouble, {})) == db
    ensures files - RemovedPaths(db, files, trouble, {}) == files
  {
    DropNone(db);
    assert Cleared(db, files, trouble, {}) == {};
    assert RemovedPaths(db, files, trouble, {}) == {};
  }

  /** What one more row adds to the files; no other marked recording shares its path. */
  lemma OneMoreFile(db: Db, files: map<string, seq<byte>>, trouble: Id -> RowTrouble, seen: set<Id>, r: Id)
    requires Sound(db) && r in MarkedIn(db) && r !in seen
    ensures var path := db.recordings[r].path; var left := files - RemovedPaths(db, files, trouble, seen);
      && (path in left <==> path in files)
      && files - RemovedPaths(db, files, trouble, seen + {r}) ==
          (if path != "" && Removable(path, files, trouble(r)) then left - {path} else left)
  {
    var path := db.recordings[r].path;
    PathsDiffer(db, r);
    assert RemovedPaths(db, files, trouble, seen + {r})
           == RemovedPaths(db, files, trouble, seen)
              + (if path != "" && Removable(path, files, trouble(r)) then {path} else {});
  }

  /** What one more row takes from the tables. */
  lemma OneMoreCleared(db: Db, files: map<string, seq<byte>>, trouble: Id -> RowTrouble, seen: set<Id>, r: Id)
    requires r in MarkedIn(db) && r !in seen
    ensures var rows := DropAll(db, Cleared(db, files, trouble, seen));
      && !Active(rows, r)
      && DropAll(db, Cleared(db, files, trouble, seen + {r}))
         == if Removable(db.recordings[r].path, files, trouble(r)) && Takes(trouble(r).purge)
            then Drop(rows, r) else rows
  {
    var takes := Removable(db.recordings[r].path, files, trouble(r)) && Takes(trouble(r).purge);
    assert Cleared(db, files, trouble, seen + {r}) == Cleared(db, files, trouble, seen) + (if takes then {r} else {});
    DropOneMore(db, Cleared(db, files, trouble, seen), r);
  }

  lemma PathsDiffer(db: Db, r: Id)
    requires Sound(db) && r in db.recordings
    ensures forall s :: s in db.recordings && s != r ==> db.recordings[s].path != db.recordings[r].path
  {
    assert Inv(db);
  }

  /** A pass without trouble removes every marked recording and its file. */
  lemma CleanPassClearsAll(db: Db, files: map<string, seq<byte>>, trouble: Id -> RowTrouble)
    requires forall r :: r in MarkedIn(db) ==> !trouble(r).removeFails && trouble(r).purge.NoFault?
    ensures var n := DropAll(db, Cleared(db, files, trouble, MarkedIn(db)));
      && MarkedIn(n) == {} && (forall r :: r in n.recordings <==> Active(db, r))
    ensures forall r :: r in MarkedIn(db) && db.recordings[r].path != "" ==>
        db.recordings[r].path !in files - RemovedPaths(db, files, trouble, MarkedIn(db))
  {
  }

  /** Whatever the trouble, recordings in use keep row, task, log and file. */
  lemma CleanupSparesActive(db: Db, files: map<string, seq<byte>>, trouble: Id -> RowTrouble, t: Id)
    requires Sound(db) && Live(db, t)
    ensures var r := db.tasks[t].recordingId; var n := DropAll(db, Cleared(db, files, trouble, MarkedIn(db)));
      && r in n.recordings && n.recordings[r] == db.recordings[r] && t in n.tasks && n.tasks[t] == db.tasks[t]
      && (forall k: EventKey :: k.task == t ==>
          (k in n.events <==> k in db.events) && (k in n.events ==> n.events[k] == db.events[k]))
      && db.recordings[r].path !in RemovedPaths(db, files, trouble, MarkedIn(db))
  {
    assert Inv(db);
    PathsDiffer(db, db.tasks[t].recordingId);
  }

  /** What a pass leaves marked is exactly what it could not finish, and a later pass without trouble ends, in
      tables and in files, where one without trouble would have ended in the first place. */
  lemma LaterPassFinishes(
      db: Db, files: Disk, trouble: Id -> RowTrouble, files2: Disk, trouble2: Id -> RowTrouble)
    requires forall r :: r in MarkedIn(db) ==> !trouble2(r).removeFails && trouble2(r).purge.NoFault?
    ensures var n := DropAll(db, Cleared(db, files, trouble, MarkedIn(db)));
      && MarkedIn(n) == MarkedIn(db) - Cleared(db, files, trouble, MarkedIn(db))
      && (forall r :: r in MarkedIn(n) ==> n.recordings[r] == db.recordings[r])
      && DropAll(n, Cleared(n, files2, trouble2, MarkedIn(n))) == DropAll(db, MarkedIn(db))
      && (files2 == files - RemovedPaths(db, files, trouble, MarkedIn(db)) ==>
            files2 - RemovedPaths(n, files2, trouble2, MarkedIn(n))
              == files - RemovedPaths(db, files, trouble2, MarkedIn(db)))
  {
    var gone := Cleared(db, files, trouble, MarkedIn(db));
    var n := DropAll(db, gone);
    assert MarkedIn(n) == MarkedIn(db) - gone;
    assert Cleared(n, files2, trouble2, MarkedIn(n)) == MarkedIn(n);
    DropTwice(db, gone, MarkedIn(n));
    assert gone + MarkedIn(n) == MarkedIn(db);
    if files2 == files - RemovedPaths(db, files, trouble, MarkedIn(db)) {
      PathsAdd(db, files, trouble, files2, trouble2);
    }
  }

  /** The paths of two passes together are those of a clean one. */
  lemma PathsAdd(db: Db, files: Disk, trouble: Id -> RowTrouble, files2: Disk, trouble2: Id -> RowTrouble)
    requires forall r :: r in MarkedIn(db) ==> !trouble2(r).removeFails && trouble2(r).purge.NoFault?
    requires files2 == files - RemovedPaths(db, files, trouble, MarkedIn(db))
    ensures var n := DropAll(db, Cleared(db, files, trouble, MarkedIn(db)));
      files2 - RemovedPaths(n, files2, trouble2, MarkedIn(n)) == files - RemovedPaths(db, files, trouble2, MarkedIn(db))
  {
    var n := DropAll(db, Cleared(db, files, trouble, MarkedIn(db)));
    var first, second := RemovedPaths(db, files, trouble, MarkedIn(db)), RemovedPaths(n, files2, trouble2, MarkedIn(n));
    var clean := RemovedPaths(db, files, trouble2, MarkedIn(db));
    forall p | p in files ensures p in first + second <==> p in clean {
      if p in clean {
        var r :| r in MarkedIn(db) && db.recordings[r].path == p && p != "";
        if p !in first {
          assert r in MarkedIn(n) && n.recordings[r].path == p;
        }
      }
    }
  }

  // ---- Boot recovery ----

  class RecoverService {
    const deletions: DeleteService
    const interrupt: bool

    constructor (deletions: DeleteService, interrupt: bool)
      ensures this.deletions == deletions && this.interrupt == interrupt
    {
      this.deletions, this.interrupt := deletions, interrupt;
    }

    /** RemoveOrphanFiles: temporary files and files no recording references go; None when the directory
        or the references cannot be read, and then nothing is deleted. */
    method RemoveOrphanFiles(listFails: bool, refsFail: bool, removeFails: string -> bool)
      returns (removed: Option<nat>)
      requires "" !in deletions.store.files
      modifies deletions.store
      ensures removed.None? <==> listFails || refsFail
      ensures removed.None? ==> deletions.store.files == old(deletions.store.files)
      ensures removed.Some? ==>
        deletions.store.files ==
            Swept(old(deletions.store.files), ReferencedPaths(deletions.sql.recordings), removeFails)
        && removed.value == |old(deletions.store.files)| - |deletions.store.files|
      ensures removed.Some? ==>
        && deletions.store.files.Keys <= old(deletions.store.files).Keys
        && (forall p :: p in old(deletions.store.files) ==>
              (p in deletions.store.files <==>
                 removeFails(p)
                 || (!("tmp-" <= p)
                     && exists r :: r in deletions.sql.recordings && deletions.sql.recordings[r].path == p)))
        && (forall p :: p in deletions.store.files ==> deletions.store.files[p] == old(deletions.store.files)[p])
    {
      var store := deletions.store;
      var stored := store.ListStored(listFails);
      if stored.None? || refsFail {
        return None;
      }
      var names := stored.value;
      var paths := deletions.sql.ListStoragePaths();
      var refs := set p | p in paths;
      assert refs == ReferencedPaths(deletions.sql.recordings);
      ghost var found := store.files;
      var count := 0;
      SweepBegins(found, refs, removeFails);
      for i := 0 to |names|
        invariant Sweeping(found, refs, removeFails, names[..i], store.files, count)
      {
        var name := names[i];
        assert names[..i] + [name] == names[..i + 1] && name !in names[..i] && name in names;
        if TmpName(name) || name !in refs {
          ghost var left := store.files;
          StillThere(found, refs, removeFails, names[..i], left, count, name);
          var ok := store.Delete(name, removeFails(name));
          if ok {
            SweepDeletesOne(found, refs, removeFails, names[..i], left, count, name);
            count := count + 1;
            continue;
          }
        }
        SweepKeepsOne(found, refs, removeFails, names[..i], store.files, count, name);
      }
      assert names[..|names|] == names;
      SweepEnds(found, refs, removeFails, names, store.files, count);
      return Some(count);
    }

    /** The boot sequence: inspect, resume deletions, reset what is in flight, sweep. An inspection that can
        read the tables never stops it, and then it becomes ready when the reset commits. Ready means: nothing
        is in flight, the deletions that could be finished are finished, and a sweep that ran left only what
        it had to. */
    method Boot(
        now: Time, inspectFails: bool, listFails: bool, readFails: set<Id>, trouble: Id -> RowTrouble,
        resetFault: Fault, dirFails: bool, refsFail: bool, removeFails: string -> bool)
      returns (ready: bool, ghost ids: seq<Id>)
      requires deletions.sql.Valid() && "" !in deletions.store.files
      modifies deletions.store, deletions.sql, deletions.Handles()
      ensures deletions.sql.Valid()
      ensures !inspectFails && resetFault.NoFault? ==> ready
      ensures inspectFails ==>
          !ready && deletions.sql.View() == old(deletions.sql.View())
              && deletions.store.files == old(deletions.store.files)
      ensures ready ==>
        && var db := old(deletions.sql.View());
        && var cleaned := if listFails then db
            else DropAll(db, Cleared(db, old(deletions.store.files), trouble, MarkedIn(db)));
        && var files := if listFails then old(deletions.store.files)
            else old(deletions.store.files) - RemovedPaths(db, old(deletions.store.files), trouble, MarkedIn(db));
        && Lists(cleaned.tasks, ids)
        && deletions.sql.View() == Run(cleaned, ResetOps(ids, interrupt, now))
        && ResetLeaves(cleaned, interrupt, now, deletions.sql.View())
        && InFlightTasks(deletions.sql.tasks) == {}
        && (dirFails || refsFail ==> deletions.store.files == files)
        && (!dirFails && !refsFail ==>
              deletions.store.files == Swept(files, ReferencedPaths(cleaned.recordings), removeFails))
    {
      ids := [];
      var orphans, missing := deletions.sql.InspectIntegrity();
      if inspectFails || orphans != {} || missing != {} {
        return false, ids;
      }
      deletions.CleanupPending(listFails, readFails, trouble);
      ghost var cleaned := deletions.sql.View();
      var reset;
      reset, ids := deletions.sql.ResetInFlight(interrupt, now, resetFault);
      BatchKeeps(cleaned, ids, interrupt, now);
      if !reset.ResetDone? {
        return false, ids;
      }
      var removed := RemoveOrphanFiles(dirFails, refsFail, removeFails);
      return true, ids;
    }
  }

  /** How far a sweep has come: `names` are dealt with, `count` of them deleted. */
  predicate SweptSoFar(
      found: map<string, seq<byte>>, refs: set<Path>, removeFails: string -> bool,
      names: seq<string>, files: map<string, seq<byte>>, count: int) {
    files == SweptFrom(found, refs, removeFails, names) && count == |found| - |files|
  }

  /** SweptSoFar kept folded: it unfolds only in proofs that mention it. */
  ghost predicate Sweeping(
      found: map<string, seq<byte>>, refs: set<Path>, removeFails: string -> bool,
      names: seq<string>, files: map<string, seq<byte>>, count: int) {
    forall x {:trigger SweptSoFar(found, refs, removeFails, names, x, count)} :: x == files ==>
        SweptSoFar(found, refs, removeFails, names, x, count)
  }

  lemma StillThere(
      found: map<string, seq<byte>>, refs: set<Path>, removeFails: string -> bool,
      names: seq<string>, files: map<string, seq<byte>>, count: int, name: string)
    requires Sweeping(found, refs, removeFails, names, files, count) && name in found && name !in names
    ensures name in files
  {
    assert SweptSoFar(found, refs, removeFails, names, files, count);
  }

  lemma SweepBegins(found: map<string, seq<byte>>, refs: set<Path>, removeFails: string -> bool)
    ensures Sweeping(found, refs, removeFails, [], found, 0)
  {
    assert SweptFrom(found, refs, removeFails, []) == found;
  }

  lemma SweepEnds(
      found: map<string, seq<byte>>, refs: set<Path>, removeFails: string -> bool,
      names: seq<string>, files: map<string, seq<byte>>, count: int)
    requires Sweeping(found, refs, removeFails, names, files, count) && forall p :: p in names <==> p in found
    ensures files == Swept(found, refs, removeFails) && count == |found| - |files|
  {
    assert SweptSoFar(found, refs, removeFails, names, files, count);
  }

  lemma SweepKeepsOne(
      found: map<string, seq<byte>>, refs: set<Path>, removeFails: string -> bool,
      names: seq<string>, files: map<string, seq<byte>>, count: int, name: string)
    requires Sweeping(found, refs, removeFails, names, files, count)
    requires ((!TmpName(name) && name in refs) || removeFails(name))
    ensures Sweeping(found, refs, removeFails, names + [name], files, count)
  {
    assert SweptSoFar(found, refs, removeFails, names, files, count);
    assert SweptFrom(found, refs, removeFails, names + [name]) == SweptFrom(found, refs, removeFails, names);
  }

  lemma SweepDeletesOne(
      found: map<string, seq<byte>>, refs: set<Path>, removeFails: string -> bool,
      names: seq<string>, files: map<string, seq<byte>>, count: int, name: string)
    requires Sweeping(found, refs, removeFails, names, files, count) && name in found && name !in names
    requires (TmpName(name) || name !in refs) && !removeFails(name)
    ensures Sweeping(found, refs, removeFails, names + [name], files - {name}, count + 1)
  {
    assert SweptSoFar(found, refs, removeFails, names, files, count);
    var n := SweptFrom(found, refs, removeFails, names + [name]);
    assert name in files && n.Keys == files.Keys - {name};
    assert n == files - {name};
    assert files.Keys == n.Keys + {name};
    assert |files.Keys| == |n.Keys| + 1;
  }

  /** The files a sweep keeps: final names that are referenced, and those whose deletion failed. */
  function Swept(
      files: map<string, seq<byte>>, refs: set<Path>, removeFails: string -> bool): map<string, seq<byte>> {
    map p | p in files && ((!TmpName(p) && p in refs) || removeFails(p)) :: files[p]
  }

  function SweptFrom(
      files: map<string, seq<byte>>, refs: set<Path>, removeFails: string -> bool,
      names: seq<string>): map<string, seq<byte>> {
    map p | p in files && (p !in names || (!TmpName(p) && p in refs) || removeFails(p)) :: files[p]
  }
}
