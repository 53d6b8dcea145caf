/** Steps of uploads keep the invariant of the service. */
module WorldUploads {
  import opened Prelude
  import opened Lifecycle
  import opened Bytes
  import opened Tables
  import opened Backing
  import opened Invariant
  import opened World
  import opened WorldInv

  /** The directory changes at most under names generated for upload r, or under new names. */
  ghost predicate OwnNames(a: Disk, b: Disk, r: Id, owner: map<Path, Id>) {
    forall p :: p in owner && owner[p] != r ==> (p in a <==> p in b) && (p in a ==> a[p] == b[p])
  }

  lemma OthersBacked(
      recs: Recordings, a: Disk, b: Disk, r: Id, digest: seq<byte> -> Hash, tried: set<Id>,
      owner: map<Path, Id>)
    requires RecsKnown(recs, tried, owner) && Backed(recs, a, digest) && OwnNames(a, b, r, owner)
    requires !InUse(recs, r)
    ensures Backed(recs, b, digest)
  {
    forall s | InUse(recs, s) ensures HasContent(b, recs[s].path, recs[s].size, recs[s].hash, digest) {
      assert Owns(owner, recs[s].path, s);
      assert HasContent(a, recs[s].path, recs[s].size, recs[s].hash, digest);
    }
  }

  /** Histories only grow, and only upload r's creation is newly tried. */
  ghost predicate Grows(past: History, after: History, r: Id) {
    && past.begun <= after.begun <= past.begun + {r} && past.tried <= after.tried <= past.tried + {r}
    && (forall p :: p in past.owner ==> Owns(after.owner, p, past.owner[p]))
    && (forall t :: t in past.recOf ==> Drawn(after.recOf, t, past.recOf[t]))
    && after.claimant == past.claimant && after.heard == past.heard && after.made == past.made
    && after.silenced == past.silenced && after.nextRound == past.nextRound
  }

  lemma OtherUpload(
      s: Id, up: Upload, recs: Recordings, a: Disk, past: History, r: Id, newRecs: Recordings,
      b: Disk, after: History, digest: seq<byte> -> Hash)
    requires UploadOk(s, up, recs, a, digest, past) && s != r
    requires OwnNames(a, b, r, past.owner) && Grows(past, after, r) && newRecs.Keys <= recs.Keys + {r}
    ensures UploadOk(s, up, newRecs, b, digest, after)
  {
  }

  lemma OtherUploads(w: World, r: Id, n: World)
    requires UploadsOk(w.uploads, w.db.recordings, w.disk, w.digest, w.past)
    requires OwnNames(w.disk, n.disk, r, w.past.owner) && Grows(w.past, n.past, r)
    requires n.db.recordings.Keys <= w.db.recordings.Keys + {r}
    requires n.digest == w.digest && n.past.tried <= n.past.begun && (r in n.uploads ==> r in n.past.begun)
    requires n.uploads == w.uploads - {r}
        || (r in n.uploads && n.uploads == w.uploads[r := n.uploads[r]]
            && UploadOk(r, n.uploads[r], n.db.recordings, n.disk, n.digest, n.past))
    ensures UploadsOk(n.uploads, n.db.recordings, n.disk, n.digest, n.past)
  {
    forall s | s in n.uploads && s != r
      ensures s in n.past.begun && UploadOk(s, n.uploads[s], n.db.recordings, n.disk, n.digest, n.past)
    {
      assert UploadOk(s, w.uploads[s], w.db.recordings, w.disk, w.digest, w.past);
      OtherUpload(s, w.uploads[s], w.db.recordings, w.disk, w.past, r, n.db.recordings, n.disk, n.past, w.digest);
    }
  }

  lemma KnownGrows(recs: Recordings, past: History, after: History, r: Id)
    requires RecsKnown(recs, past.tried, past.owner) && Grows(past, after, r)
    ensures RecsKnown(recs, after.tried, after.owner)
  {
    forall s | s in recs ensures s in after.tried && Owns(after.owner, recs[s].path, s) {
      assert Owns(past.owner, recs[s].path, s);
    }
  }

  lemma RowsGrow(db: Db, past: History, after: History, r: Id)
    requires RowsOk(db, past) && Grows(past, after, r)
    ensures RowsOk(db, after)
  {
    forall t | t in db.tasks
      ensures Drawn(after.recOf, t, db.tasks[t].recordingId) && db.tasks[t].recordingId in after.tried
    {
      assert Drawn(past.recOf, t, db.tasks[t].recordingId);
    }
    forall k | k in after.claimant ensures KeyPast(k, db.tasks, after.recOf, after.tried) {
      assert KeyPast(k, db.tasks, past.recOf, past.tried);
      assert Drawn(after.recOf, k.task, past.recOf[k.task]);
    }
  }

  lemma RoundsGrow(rounds: map<nat, Pc>, table: map<Key, nat>, past: History, after: History, r: Id)
    requires RoundsOk(rounds, table, past) && Grows(past, after, r)
    ensures RoundsOk(rounds, table, after)
  {
    forall i | i in rounds ensures RoundOk(i, rounds[i], table, after) {
      assert RoundOk(i, rounds[i], table, past);
    }
  }

  /** Deletions do not look at the files or rows of a recording not created before. */
  lemma DeletionsGrow(w: World, r: Id, n: World)
    requires DeletionsOk(w.deleters, w.db.recordings, w.past, w.rounds, w.cancelled)
    requires Grows(w.past, n.past, r)
    requires n.deleters == w.deleters && n.rounds == w.rounds && n.cancelled == w.cancelled
    requires n.db.recordings == w.db.recordings
        || (r !in w.past.tried && r in n.db.recordings
            && n.db.recordings == w.db.recordings[r := n.db.recordings[r]])
    ensures DeletionsOk(n.deleters, n.db.recordings, n.past, n.rounds, n.cancelled)
  {
    forall d | d in w.deleters
      ensures DeleterOk(w.deleters[d], n.db.recordings, n.past.owner, n.past.recOf, n.past.tried)
    {
      assert DeleterOk(w.deleters[d], w.db.recordings, w.past.owner, w.past.recOf, w.past.tried);
    }
    forall t | t in w.past.silenced
      ensures t in n.past.recOf && n.past.recOf[t] in n.past.tried && !InUse(n.db.recordings, n.past.recOf[t])
    {
      assert Drawn(n.past.recOf, t, w.past.recOf[t]);
    }
  }

  /** The parts of the state no upload touches. */
  ghost predicate OnlyUploads(w: World, r: Id, n: World) {
    && n == w.(db := n.db, disk := n.disk, uploads := n.uploads, past := n.past)
    && Grows(w.past, n.past, r) && OwnNames(w.disk, n.disk, r, w.past.owner)
  }

  /** Upload r moves to a state in order, or ends, before its creation is tried. */
  ghost predicate Saved(w: World, r: Id, n: World) {
    && OnlyUploads(w, r, n) && n.db == w.db && n.past.tried == w.past.tried && r !in w.past.tried
    && (n.uploads == w.uploads - {r}
        || (r in n.uploads && n.uploads == w.uploads[r := n.uploads[r]] && r in n.past.begun
            && UploadOk(r, n.uploads[r], n.db.recordings, n.disk, n.digest, n.past)))
  }

  lemma OpenSaved(w: World, r: Id, a: UploadStep, n: World)
    requires a.Open? && UploadsOk(w.uploads, w.db.recordings, w.disk, w.digest, w.past)
    requires SaveMoves(w, r, a, n)
    ensures Saved(w, r, n)
  {
  }

  lemma ReceiveSaved(w: World, r: Id, a: UploadStep, n: World)
    requires a.Receive? && UploadsOk(w.uploads, w.db.recordings, w.disk, w.digest, w.past)
    requires SaveMoves(w, r, a, n)
    ensures Saved(w, r, n)
  {
    assert UploadOk(r, w.uploads[r], w.db.recordings, w.disk, w.digest, w.past);
  }

  lemma DiscardSaved(w: World, r: Id, a: UploadStep, n: World)
    requires a.Discard? && UploadsOk(w.uploads, w.db.recordings, w.disk, w.digest, w.past)
    requires SaveMoves(w, r, a, n)
    ensures Saved(w, r, n)
  {
    assert UploadOk(r, w.uploads[r], w.db.recordings, w.disk, w.digest, w.past);
  }

  lemma RenameSaved(w: World, r: Id, a: UploadStep, n: World)
    requires a.Rename? && UploadsOk(w.uploads, w.db.recordings, w.disk, w.digest, w.past)
    requires SaveMoves(w, r, a, n)
    ensures Saved(w, r, n)
  {
    assert UploadOk(r, w.uploads[r], w.db.recordings, w.disk, w.digest, w.past);
  }

  lemma SavedKeeps(w: World, r: Id, n: World)
    requires WorldOk(w) && w.mode.Serving? && Saved(w, r, n)
    ensures WorldOk(n)
  {
    assert !InUse(w.db.recordings, r);
    OthersBacked(w.db.recordings, w.disk, n.disk, r, w.digest, w.past.tried, w.past.owner);
    KnownGrows(w.db.recordings, w.past, n.past, r);
    OtherUploads(w, r, n);
    RowsGrow(w.db, w.past, n.past, r);
    RoundsGrow(w.rounds, w.table, w.past, n.past, r);
    DeletionsGrow(w, r, n);
  }

  lemma SaveSaved(w: World, r: Id, a: UploadStep, n: World)
    requires UploadsOk(w.uploads, w.db.recordings, w.disk, w.digest, w.past) && SaveMoves(w, r, a, n)
    ensures Saved(w, r, n)
  {
    if a.Open? { OpenSaved(w, r, a, n); }
    else if a.Receive? { ReceiveSaved(w, r, a, n); }
    else if a.Discard? { DiscardSaved(w, r, a, n); }
    else { RenameSaved(w, r, a, n); }
  }

  lemma SaveKeeps(w: World, r: Id, a: UploadStep, n: World)
    requires WorldOk(w) && w.mode.Serving? && SaveMoves(w, r, a, n)
    ensures WorldOk(n)
  {
    SaveSaved(w, r, a, n);
    SavedKeeps(w, r, n);
  }

  // ---- The creating transaction ----

  lemma CreateLawful(db: Db, input: NewRecording, past: History)
    requires TasksKnown(db.tasks, past.recOf, past.tried) && RecsKnown(db.recordings, past.tried, past.owner)
    requires input.rec !in past.tried && Owns(past.owner, input.path, input.rec)
    requires Drawn(past.recOf, input.task, input.rec)
    ensures Lawful(db, Create(input))
  {
    assert forall r :: r in db.recordings ==> Owns(past.owner, db.recordings[r].path, r);
  }

  lemma InsertRows(db: Db, input: NewRecording, past: History, after: History)
    requires RowsOk(db, past) && Lawful(db, Create(input)) && input.rec !in past.tried
    requires Drawn(past.recOf, input.task, input.rec)
    requires after == past.(tried := past.tried + {input.rec})
    ensures TasksKnown(Insert(db, input).tasks, after.recOf, after.tried)
    ensures Provenance(Insert(db, input).tasks, after.claimant, after.heard, after.made)
    ensures KeysPast(Insert(db, input).tasks, after.claimant, after.recOf, after.tried)
  {
    var n := Insert(db, input);
    forall t | t in n.tasks && t != input.task ensures RowOk(t, n.tasks[t], past.claimant, past.heard, past.made) {
      assert RowOk(t, db.tasks[t], past.claimant, past.heard, past.made);
    }
    forall k | k in past.claimant ensures KeyPast(k, n.tasks, after.recOf, after.tried) {
      assert KeyPast(k, db.tasks, past.recOf, past.tried);
    }
  }

  /** The tables after the creating transaction: as before, with the hash lock, or with the new rows. */
  ghost predicate CreateLeaves(w: World, input: NewRecording, n: Db) {
    n == w.db || n == WithLock(w.db, input.hash)
        || (Guard(WithLock(w.db, input.hash), Create(input)) && n == Insert(WithLock(w.db, input.hash), input))
  }

  lemma LockRows(db: Db, h: Hash, past: History)
    requires RowsOk(db, past)
    ensures RowsOk(WithLock(db, h), past)
  {
    LocksDoNotMatter(db, db.hashLocks + {h});
  }

  lemma CreateRows(w: World, input: NewRecording, after: History, n: Db)
    requires RowsOk(w.db, w.past) && RecsKnown(w.db.recordings, w.past.tried, w.past.owner)
    requires CreateLeaves(w, input, n)
    requires input.rec !in w.past.tried && Owns(w.past.owner, input.path, input.rec)
    requires Drawn(w.past.recOf, input.task, input.rec)
    requires after == w.past.(tried := w.past.tried + {input.rec}) && Grows(w.past, after, input.rec)
    ensures RowsOk(n, after)
  {
    var locked := WithLock(w.db, input.hash);
    LockRows(w.db, input.hash, w.past);
    RowsGrow(w.db, w.past, after, input.rec);
    RowsGrow(locked, w.past, after, input.rec);
    if n != w.db && n != locked {
      CreateLawful(locked, input, w.past);
      Keeps(locked, Create(input), true);
      InsertRows(locked, input, w.past, after);
    }
  }

  /** What the creating step of upload r leaves behind. */
  ghost predicate Settled(w: World, r: Id, input: NewRecording, n: World) {
    && input.rec == r
    && n == Tried(w, r).(db := n.db, uploads := n.uploads)
    && CreateLeaves(w, input, n.db)
    && (n.uploads == w.uploads - {r}
        || (n.uploads == w.uploads[r := Compensating(input.path)] && n.db.recordings == w.db.recordings))
  }

  lemma CreateSettles(w: World, r: Id, a: UploadStep, n: World)
    requires r in w.uploads && w.uploads[r].Stored? && w.uploads[r].input.rec == r && CreateMoves(w, r, a, n)
    requires !a.Vanish?
    ensures Settled(w, r, w.uploads[r].input, n)
  {
  }

  lemma SettledFiles(w: World, r: Id, input: NewRecording, n: World)
    requires FilesOk(w.db.recordings, w.uploads, w.disk, w.digest, w.past) && Settled(w, r, input, n)
    requires r in w.uploads && w.uploads[r] == Stored(input)
    ensures FilesOk(n.db.recordings, n.uploads, n.disk, n.digest, n.past)
    ensures n.db.recordings == w.db.recordings
        || (r in n.db.recordings && n.db.recordings == w.db.recordings[r := n.db.recordings[r]])
  {
    assert UploadOk(r, w.uploads[r], w.db.recordings, w.disk, w.digest, w.past);
    KnownGrows(w.db.recordings, w.past, n.past, r);
    OtherUploads(w, r, n);
  }

  lemma SettledKeeps(w: World, r: Id, input: NewRecording, n: World)
    requires WorldOk(w) && w.mode.Serving? && Settled(w, r, input, n) && r in w.uploads
    requires w.uploads[r] == Stored(input)
    ensures WorldOk(n)
  {
    assert UploadOk(r, w.uploads[r], w.db.recordings, w.disk, w.digest, w.past);
    CreateRows(w, input, n.past, n.db);
    SettledFiles(w, r, input, n);
    RoundsGrow(w.rounds, w.table, w.past, n.past, r);
    DeletionsGrow(w, r, n);
  }

  /** Compensation deletes a file no recording was created for; an upload may also just end. */
  lemma EndKeeps(w: World, r: Id, a: UploadStep, n: World)
    requires WorldOk(w) && w.mode.Serving? && CreateMoves(w, r, a, n) && (a.Compensate? || a.Vanish?)
    ensures WorldOk(n)
  {
    assert UploadOk(r, w.uploads[r], w.db.recordings, w.disk, w.digest, w.past);
    CompensateDisk(w, r, a, n);
    OtherUploads(w, r, n);
  }

  lemma CompensateDisk(w: World, r: Id, a: UploadStep, n: World)
    requires WorldOk(w) && CreateMoves(w, r, a, n) && (a.Compensate? || a.Vanish?)
    ensures OwnNames(w.disk, n.disk, r, w.past.owner) && Backed(n.db.recordings, n.disk, n.digest)
  {
    assert UploadOk(r, w.uploads[r], w.db.recordings, w.disk, w.digest, w.past);
    if a.Compensate? { OthersBacked(w.db.recordings, w.disk, n.disk, r, w.digest, w.past.tried, w.past.owner); }
  }

  lemma UploadKeeps(w: World, r: Id, a: UploadStep, n: World)
    requires WorldOk(w) && w.mode.Serving? && (SaveMoves(w, r, a, n) || CreateMoves(w, r, a, n))
    ensures WorldOk(n)
  {
    if SaveMoves(w, r, a, n) {
      SaveKeeps(w, r, a, n);
    } else if a.Compensate? || a.Vanish? {
      EndKeeps(w, r, a, n);
    } else {
      assert UploadOk(r, w.uploads[r], w.db.recordings, w.disk, w.digest, w.past);
      CreateSettles(w, r, a, n);
      SettledKeeps(w, r, w.uploads[r].input, n);
    }
  }
}
