/** Steps of deletions keep the invariant of the service. */
module WorldDeletions {
  import opened Prelude
  import opened Bytes
  import opened Tables
  import opened Backing
  import opened Invariant
  import opened World
  import opened WorldInv
  import opened WorldUploads

  /** Recordings are marked or removed, nothing else. */
  ghost predicate Shrinks(a: Recordings, b: Recordings) {
    forall r :: r in b ==> && r in a && b[r].path == a[r].path && b[r].size == a[r].size && b[r].hash == a[r].hash
                           && (InUse(b, r) ==> InUse(a, r))
  }

  /** Task rows are removed or keep everything their products depend on. */
  ghost predicate Alike(a: Tasks, b: Tasks) {
    forall t :: t in b ==>
      && t in a && b[t].recordingId == a[t].recordingId && b[t].attempt == a[t].attempt
      && b[t].status == a[t].status
      && b[t].transcript == a[t].transcript && b[t].summary == a[t].summary
  }

  lemma AlikeRows(db: Db, n: Db, past: History)
    requires RowsOk(db, past) && Alike(db.tasks, n.tasks) && Sound(n)
    ensures RowsOk(n, past)
  {
    forall t | t in n.tasks ensures RowOk(t, n.tasks[t], past.claimant, past.heard, past.made) {
      assert RowOk(t, db.tasks[t], past.claimant, past.heard, past.made);
    }
    forall k | k in past.claimant ensures KeyPast(k, n.tasks, past.recOf, past.tried) {
      assert KeyPast(k, db.tasks, past.recOf, past.tried);
    }
  }

  lemma ShrinkFiles(
      recs: Recordings, newRecs: Recordings, uploads: map<Id, Upload>, disk: Disk,
      digest: seq<byte> -> Hash, past: History)
    requires FilesOk(recs, uploads, disk, digest, past) && Shrinks(recs, newRecs)
    ensures FilesOk(newRecs, uploads, disk, digest, past)
  {
    forall r | InUse(newRecs, r) ensures HasContent(disk, newRecs[r].path, newRecs[r].size, newRecs[r].hash, digest) {
      assert HasContent(disk, recs[r].path, recs[r].size, recs[r].hash, digest);
    }
    forall r | r in uploads ensures UploadOk(r, uploads[r], newRecs, disk, digest, past) {
      assert UploadOk(r, uploads[r], recs, disk, digest, past);
    }
  }

  lemma ShrinkDeletions(
      deleters: map<nat, Deleter>, recs: Recordings, newRecs: Recordings, past: History,
      rounds: map<nat, Pc>, cancelled: set<nat>)
    requires DeletionsOk(deleters, recs, past, rounds, cancelled) && Shrinks(recs, newRecs)
    ensures DeletionsOk(deleters, newRecs, past, rounds, cancelled)
  {
    forall d | d in deleters ensures DeleterOk(deleters[d], newRecs, past.owner, past.recOf, past.tried) {
      assert DeleterOk(deleters[d], recs, past.owner, past.recOf, past.tried);
    }
  }

  lemma MarkShrinks(db: Db, op: Op, applied: bool)
    requires op.Mark? || op.Purge?
    ensures Shrinks(db.recordings, Attempt(db, op, applied).recordings)
    ensures Alike(db.tasks, Attempt(db, op, applied).tasks)
  {
  }

  /** A mark or a purge, without any other change. */
  lemma TablesShrink(w: World, op: Op, db: Db, applied: bool, n: World)
    requires WorldOk(w) && (op.Mark? || op.Purge?) && Lawful(db, op)
    requires Sound(db) && db.tasks == w.db.tasks && db.recordings == w.db.recordings && Finalizing(w.mode)
    requires n == w.(db := Attempt(db, op, applied))
    ensures WorldOk(n)
  {
    Keeps(db, op, applied);
    MarkShrinks(db, op, applied);
    AlikeRows(w.db, n.db, w.past);
    ShrinkFiles(w.db.recordings, n.db.recordings, w.uploads, w.disk, w.digest, w.past);
    ShrinkDeletions(w.deleters, w.db.recordings, n.db.recordings, w.past, w.rounds, w.cancelled);
  }

  lemma MarkKeeps(w: World, d: nat, a: DeleteStep, n: World)
    requires WorldOk(w) && a.MarkDeleting? && DeleteMoves(w, d, a, n)
    ensures WorldOk(n)
  {
    var h := w.db.recordings[a.rec].hash;
    LockRows(w.db, h, w.past);
    TablesShrink(w, Mark(a.rec, a.of, a.now), WithLock(w.db, h), a.applied, n);
  }

  /** The parts of the state that cancelling touches. */
  lemma CancellingKeeps(w: World, n: World)
    requires WorldOk(w) && Finalizing(w.mode)
    requires n == w.(deleters := n.deleters, cancelled := n.cancelled, past := w.past.(silenced := n.past.silenced))
    requires DeletionsOk(n.deleters, n.db.recordings, n.past, n.rounds, n.cancelled)
    ensures WorldOk(n)
  {
    forall i | i in w.rounds ensures RoundOk(i, w.rounds[i], w.table, n.past) {
      assert RoundOk(i, w.rounds[i], w.table, w.past);
    }
    forall r | r in w.uploads ensures UploadOk(r, w.uploads[r], w.db.recordings, w.disk, w.digest, n.past) {
      assert UploadOk(r, w.uploads[r], w.db.recordings, w.disk, w.digest, w.past);
    }
  }

  lemma FindDeletions(w: World, d: nat, a: DeleteStep, n: World)
    requires WorldOk(w) && (a.Find? || a.Skip?) && DeleteMoves(w, d, a, n)
    ensures DeletionsOk(n.deleters, n.db.recordings, n.past, n.rounds, n.cancelled)
  {
    assert d in w.deleters ==> DeleterOk(w.deleters[d], w.db.recordings, w.past.owner, w.past.recOf, w.past.tried);
    assert DeleterOk(n.deleters[d], w.db.recordings, w.past.owner, w.past.recOf, w.past.tried);
    forall e | e in n.deleters && e != d
      ensures DeleterOk(n.deleters[e], w.db.recordings, w.past.owner, w.past.recOf, w.past.tried)
    {
      assert DeleterOk(w.deleters[e], w.db.recordings, w.past.owner, w.past.recOf, w.past.tried);
    }
  }

  /** Everybody in a call for the task is in the table when its entries are collected. */
  lemma CollectCovers(w: World, t: Id, i: nat)
    requires RoundsOk(w.rounds, w.table, w.past) && InCallFor(w.rounds, i, t)
    ensures i in RegisteredFor(w.table, t)
  {
    assert RoundOk(i, w.rounds[i], w.table, w.past);
    assert w.rounds[i].key in w.table;
  }

  lemma CollectDeletions(w: World, d: nat, a: DeleteStep, n: World)
    requires WorldOk(w) && a.Collect? && DeleteMoves(w, d, a, n)
    ensures DeletionsOk(n.deleters, n.db.recordings, n.past, n.rounds, n.cancelled)
  {
    assert DeleterOk(w.deleters[d], w.db.recordings, w.past.owner, w.past.recOf, w.past.tried);
    forall e | e in n.deleters && e != d
      ensures DeleterOk(n.deleters[e], w.db.recordings, w.past.owner, w.past.recOf, w.past.tried)
    {
      assert DeleterOk(w.deleters[e], w.db.recordings, w.past.owner, w.past.recOf, w.past.tried);
    }
    forall i | InCallFor(n.rounds, i, n.deleters[d].task) ensures i in n.deleters[d].pending {
      CollectCovers(w, n.deleters[d].task, i);
    }
  }

  lemma CancelDeletions(w: World, d: nat, a: DeleteStep, n: World)
    requires WorldOk(w) && (a.CancelOne? || a.Silence?) && DeleteMoves(w, d, a, n)
    ensures DeletionsOk(n.deleters, n.db.recordings, n.past, n.rounds, n.cancelled)
  {
    assert DeleterOk(w.deleters[d], w.db.recordings, w.past.owner, w.past.recOf, w.past.tried);
    forall e | e in n.deleters && e != d
      ensures DeleterOk(n.deleters[e], w.db.recordings, w.past.owner, w.past.recOf, w.past.tried)
    {
      assert DeleterOk(w.deleters[e], w.db.recordings, w.past.owner, w.past.recOf, w.past.tried);
    }
  }

  /** Ending or moving on a deletion that is past cancelling. */
  lemma ForgetDeletion(w: World, d: nat, deleters: map<nat, Deleter>)
    requires DeletionsOk(w.deleters, w.db.recordings, w.past, w.rounds, w.cancelled) && d in w.deleters
    requires deleters == w.deleters - {d} || deleters == w.deleters[d := Purging(w.deleters[d].rec, w.deleters[d].path)]
    ensures DeletionsOk(deleters, w.db.recordings, w.past, w.rounds, w.cancelled)
  {
    forall e | e in deleters ensures DeleterOk(deleters[e], w.db.recordings, w.past.owner, w.past.recOf, w.past.tried) {
      assert DeleterOk(w.deleters[e], w.db.recordings, w.past.owner, w.past.recOf, w.past.tried);
    }
  }

  /** The file of a recording marked or gone is nobody else's. */
  lemma RemoveFiles(w: World, d: nat, disk: Disk)
    requires FilesOk(w.db.recordings, w.uploads, w.disk, w.digest, w.past) && d in w.deleters
    requires DeleterOk(w.deleters[d], w.db.recordings, w.past.owner, w.past.recOf, w.past.tried)
    requires disk == w.disk || disk == w.disk - {w.deleters[d].path}
    ensures FilesOk(w.db.recordings, w.uploads, disk, w.digest, w.past)
  {
    var r := w.deleters[d].rec;
    OthersBacked(w.db.recordings, w.disk, disk, r, w.digest, w.past.tried, w.past.owner);
    forall s | s in w.uploads ensures UploadOk(s, w.uploads[s], w.db.recordings, disk, w.digest, w.past) {
      assert UploadOk(s, w.uploads[s], w.db.recordings, w.disk, w.digest, w.past);
    }
  }

  lemma RemoveFrame(w: World, d: nat, a: DeleteStep, n: World)
    requires a.Remove? && DeleteMoves(w, d, a, n)
    ensures d in w.deleters && n == w.(disk := n.disk, deleters := n.deleters)
    ensures n.disk == w.disk || n.disk == w.disk - {w.deleters[d].path}
    ensures n.deleters == w.deleters - {d}
        || n.deleters == w.deleters[d := Purging(w.deleters[d].rec, w.deleters[d].path)]
    ensures WorldOk(w) ==> Finalizing(w.mode)
  {
  }

  lemma RemoveKeeps(w: World, d: nat, a: DeleteStep, n: World)
    requires WorldOk(w) && a.Remove? && DeleteMoves(w, d, a, n)
    ensures WorldOk(n)
  {
    assert DeleterOk(w.deleters[d], w.db.recordings, w.past.owner, w.past.recOf, w.past.tried);
    RemoveFrame(w, d, a, n);
    RemoveFiles(w, d, n.disk);
    ForgetDeletion(w, d, n.deleters);
  }

  lemma PurgeStepKeeps(w: World, d: nat, a: DeleteStep, n: World)
    requires WorldOk(w) && a.PurgeRows? && DeleteMoves(w, d, a, n)
    ensures WorldOk(n)
  {
    assert DeleterOk(w.deleters[d], w.db.recordings, w.past.owner, w.past.recOf, w.past.tried);
    var m := w.(deleters := n.deleters);
    ForgetDeletion(w, d, n.deleters);
    CancellingKeeps(w, m);
    TablesShrink(m, Purge(w.deleters[d].rec), w.db, a.applied, n);
  }

  lemma DeletionKeeps(w: World, d: nat, a: DeleteStep, n: World)
    requires WorldOk(w) && DeleteMoves(w, d, a, n)
    ensures WorldOk(n)
  {
    if a.MarkDeleting? { MarkKeeps(w, d, a, n); }
    else if a.Remove? { RemoveKeeps(w, d, a, n); }
    else if a.PurgeRows? { PurgeStepKeeps(w, d, a, n); }
    else {
      if a.Find? || a.Skip? { FindDeletions(w, d, a, n); }
      else if a.Collect? { CollectDeletions(w, d, a, n); }
      else { CancelDeletions(w, d, a, n); }
      CancellingKeeps(w, n);
    }
  }
}
