/** Boot, service and crash steps keep the invariant, which therefore holds in every reachable state. */
module WorldRuns {
  import opened Prelude
  import opened Bytes
  import opened Uuid
  import opened Tables
  import opened Backing
  import opened Invariant
  import opened BatchReset
  import opened World
  import opened WorldInv
  import opened WorldRounds
  import opened WorldUploads
  import opened WorldDeletions

  /** What the running process can change on its own. */
  lemma ServiceTouches(w: World, a: ProcessStep, n: World)
    requires ServiceMoves(w, a, n)
    ensures n.past == w.past.(nextRound := n.past.nextRound) && n.disk == w.disk && n.digest == w.digest
    ensures !a.ManualRetry? ==> n.db == w.db
  {
  }

  /** A process that is gone leaves tables and files as they are. */
  lemma WipeKeeps(w: World)
    requires WorldOk(w)
    ensures WorldOk(Wiped(w))
  {
  }

  /** Rows that a batch reset moved carry no products of a claimed attempt any more. */
  lemma ResetRows(db: Db, ids: seq<Id>, interrupt: bool, now: Time, past: History)
    requires RowsOk(db, past) && Lists(db.tasks, ids)
    ensures var n := Run(db, ResetOps(ids, interrupt, now));
      RowsOk(n, past) && n.recordings == db.recordings && InFlightTasks(n.tasks) == {}
  {
    var n := Run(db, ResetOps(ids, interrupt, now));
    BatchIsPointwise(db, ids, interrupt, now);
    BatchKeeps(db, ids, interrupt, now);
    BulkRowsOk(db.tasks, interrupt, now, past);
    assert n.tasks == BulkRows(db.tasks, interrupt, now);
  }

  lemma BulkRowsOk(tasks: Tasks, interrupt: bool, now: Time, past: History)
    requires TasksKnown(tasks, past.recOf, past.tried)
    requires Provenance(tasks, past.claimant, past.heard, past.made)
    requires KeysPast(tasks, past.claimant, past.recOf, past.tried)
    ensures var rows := BulkRows(tasks, interrupt, now);
      && TasksKnown(rows, past.recOf, past.tried) && Provenance(rows, past.claimant, past.heard, past.made)
      && KeysPast(rows, past.claimant, past.recOf, past.tried)
  {
    var rows := BulkRows(tasks, interrupt, now);
    forall t | t in rows ensures RowOk(t, rows[t], past.claimant, past.heard, past.made) {
      assert RowOk(t, tasks[t], past.claimant, past.heard, past.made);
    }
    forall k | k in past.claimant ensures KeyPast(k, rows, past.recOf, past.tried) {
      assert KeyPast(k, tasks, past.recOf, past.tried);
    }
  }

  /** What the reset step of the boot sequence leaves: rows reset and the boot going on, or no process. */
  ghost predicate Resets(w: World, ids: seq<Id>, interrupt: bool, now: Time, n: World) {
    && w.mode.Resetting? && Lists(w.db.tasks, ids)
    && ((n == w.(db := n.db, mode := Listing) && n.db == Run(w.db, ResetOps(ids, interrupt, now)))
        || (n == Wiped(w).(db := n.db) && (n.db == w.db || n.db == Run(w.db, ResetOps(ids, interrupt, now)))))
  }

  lemma ResetKeeps(w: World, ids: seq<Id>, interrupt: bool, now: Time, n: World)
    requires WorldOk(w) && Resets(w, ids, interrupt, now, n)
    ensures WorldOk(n)
  {
    ResetRows(w.db, ids, interrupt, now, w.past);
    if n.mode.Down? { ResetStops(w, ids, interrupt, now, n); } else { ListingKeeps(w, n); }
  }

  lemma ResetStops(w: World, ids: seq<Id>, interrupt: bool, now: Time, n: World)
    requires WorldOk(w) && n == Wiped(w).(db := n.db) && Lists(w.db.tasks, ids)
    requires n.db == w.db || n.db == Run(w.db, ResetOps(ids, interrupt, now))
    ensures WorldOk(n)
  {
    ResetRows(w.db, ids, interrupt, now, w.past);
    WipedKeeps(w, n);
  }

  lemma ResetFrame(w: World, a: ProcessStep, n: World)
    requires a.ResetInFlight? && BootMoves(w, a, n)
    ensures Resets(w, a.ids, a.interrupt, a.now, n)
  {
  }

  lemma WipedKeeps(w: World, n: World)
    requires WorldOk(w) && n == Wiped(w).(db := n.db) && RowsOk(n.db, w.past)
    requires n.db.recordings == w.db.recordings
    ensures WorldOk(n)
  {
    WipeKeeps(w);
  }

  lemma ListingKeeps(w: World, n: World)
    requires WorldOk(w) && w.mode.Resetting? && n == w.(db := n.db, mode := Listing)
    requires RowsOk(n.db, w.past) && n.db.recordings == w.db.recordings && InFlightTasks(n.db.tasks) == {}
    ensures WorldOk(n)
  {
  }

  /** Only what the inspection rules out would block the start, and the invariant rules it out too. */
  lemma InspectionNeverFails(db: Db)
    requires Sound(db)
    ensures InspectionPasses(db)
  {
    assert Inv(db);
  }

  lemma SweepFrame(w: World, a: ProcessStep, n: World)
    requires a.Sweep? && BootMoves(w, a, n)
    ensures w.mode.Sweeping? && n.mode.Sweeping? && n == w.(disk := n.disk, mode := n.mode)
    ensures n.disk == w.disk || (n.disk == w.disk - {a.name} && (TmpName(a.name) || a.name !in w.mode.refs))
    ensures SweepOk(w.mode, w.disk, w.db) ==> SweepOk(n.mode, n.disk, n.db)
  {
  }

  lemma SweepKeeps(w: World, a: ProcessStep, n: World)
    requires WorldOk(w) && a.Sweep? && BootMoves(w, a, n)
    ensures WorldOk(n)
  {
    SweepFrame(w, a, n);
    if n.disk != w.disk { SweptFiles(w.db, w.disk, a.name, w.digest); }
  }

  lemma ListFrame(w: World, a: ProcessStep, n: World)
    requires (a.ListFiles? || a.EndSweep?) && BootMoves(w, a, n)
    ensures w.mode.Listing? || (w.mode.Sweeping? && w.mode.rest == {})
    ensures n == StartServing(w)
        || (n == w.(mode := n.mode) && n.mode == Sweeping(w.disk.Keys, w.disk.Keys, Referenced(w.db), {}))
  {
  }

  lemma ListKeeps(w: World, a: ProcessStep, n: World)
    requires WorldOk(w) && (a.ListFiles? || a.EndSweep?) && BootMoves(w, a, n)
    ensures WorldOk(n)
  {
    ListFrame(w, a, n);
  }

  /** The sweep deletes no file of a recording in use. */
  lemma SweptFiles(db: Db, disk: Disk, name: Path, digest: seq<byte> -> Hash)
    requires Backed(db.recordings, disk, digest) && (TmpName(name) || name !in Referenced(db))
    ensures Backed(db.recordings, disk - {name}, digest)
  {
    forall r | InUse(db.recordings, r)
      ensures HasContent(disk - {name}, db.recordings[r].path, db.recordings[r].size, db.recordings[r].hash, digest)
    {
      assert HasContent(disk, db.recordings[r].path, db.recordings[r].size, db.recordings[r].hash, digest);
      FinalIsNotTmp(db.recordings[r].path);
      assert db.recordings[r].path in Referenced(db);
    }
  }

  lemma EarlyFrame(w: World, a: ProcessStep, n: World)
    requires (a.Boot? || a.Inspect? || a.EndResume?) && BootMoves(w, a, n)
    ensures n == w.(mode := n.mode) && !n.mode.Serving?
  {
  }

  /** What the boot sequence can change. */
  lemma BootTouches(w: World, a: ProcessStep, n: World)
    requires BootMoves(w, a, n)
    ensures n.past == w.past && n.digest == w.digest
    ensures !a.ResetInFlight? ==> n.db == w.db
    ensures !a.Sweep? ==> n.disk == w.disk
  {
    if a.ResetInFlight? { ResetFrame(w, a, n); }
    else if a.Sweep? { SweepFrame(w, a, n); }
    else if a.ListFiles? || a.EndSweep? { ListFrame(w, a, n); }
    else { EarlyFrame(w, a, n); }
  }

  lemma BootKeeps(w: World, a: ProcessStep, n: World)
    requires WorldOk(w) && BootMoves(w, a, n)
    ensures WorldOk(n)
  {
    if a.ResetInFlight? { ResetFrame(w, a, n); ResetKeeps(w, a.ids, a.interrupt, a.now, n); }
    else if a.Sweep? { SweepKeeps(w, a, n); }
    else if a.ListFiles? || a.EndSweep? { ListKeeps(w, a, n); }
  }

  lemma RetryKeeps(w: World, a: ProcessStep, n: World)
    requires WorldOk(w) && a.ManualRetry? && ServiceMoves(w, a, n)
    ensures WorldOk(n)
  {
    Keeps(w.db, Retry(a.task, a.now), a.applied);
    RetryRows(w.db, a.task, a.now, a.applied, w.past);
  }

  lemma RetryRows(db: Db, t: Id, now: Time, applied: bool, past: History)
    requires RowsOk(db, past) && Sound(Attempt(db, Retry(t, now), applied))
    ensures RowsOk(Attempt(db, Retry(t, now), applied), past)
    ensures Attempt(db, Retry(t, now), applied).recordings == db.recordings
  {
    var n := Attempt(db, Retry(t, now), applied);
    forall u | u in n.tasks ensures RowOk(u, n.tasks[u], past.claimant, past.heard, past.made) {
      assert RowOk(u, db.tasks[u], past.claimant, past.heard, past.made);
    }
    forall k | k in past.claimant ensures KeyPast(k, n.tasks, past.recOf, past.tried) {
      assert KeyPast(k, db.tasks, past.recOf, past.tried);
    }
  }

  function Begun(w: World): World {
    Enter(w, w.past.nextRound, Claiming).(past := w.past.(nextRound := w.past.nextRound + 1))
  }

  lemma BegunRounds(w: World)
    requires RoundsOk(w.rounds, w.table, w.past)
    ensures RoundsOk(Begun(w).rounds, w.table, Begun(w).past)
  {
    var n := Begun(w);
    assert RoundOk(w.past.nextRound, Claiming, w.table, n.past);
    forall j | j in w.rounds ensures RoundOk(j, w.rounds[j], w.table, n.past) {
      assert RoundOk(j, w.rounds[j], w.table, w.past);
    }
  }

  lemma BegunFiles(w: World)
    requires FilesOk(w.db.recordings, w.uploads, w.disk, w.digest, w.past)
    ensures FilesOk(w.db.recordings, w.uploads, w.disk, w.digest, Begun(w).past)
  {
    forall r | r in w.uploads ensures UploadOk(r, w.uploads[r], w.db.recordings, w.disk, w.digest, Begun(w).past) {
      assert UploadOk(r, w.uploads[r], w.db.recordings, w.disk, w.digest, w.past);
    }
  }

  lemma BeginKeeps(w: World)
    requires WorldOk(w) && w.mode.Serving?
    ensures WorldOk(Begun(w))
  {
    BegunRounds(w);
    BegunFiles(w);
  }

  lemma ServiceKeeps(w: World, a: ProcessStep, n: World)
    requires WorldOk(w) && ServiceMoves(w, a, n)
    ensures WorldOk(n)
  {
    if a.Crash? { WipeKeeps(w); }
    else if a.ManualRetry? { RetryKeeps(w, a, n); }
    else if a.BeginRound? { BeginKeeps(w); }
  }

  lemma StepKeeps(w: World, a: Action, n: World)
    requires WorldOk(w) && Step(w, a, n)
    ensures WorldOk(n)
  {
    match a
    case Round(i, step) => RoundKeeps(w, i, step, n);
    case Uploading(r, step) => UploadKeeps(w, r, step, n);
    case Deletion(d, step) => DeletionKeeps(w, d, step, n);
    case Process(step) => if BootMoves(w, step, n) { BootKeeps(w, step, n); } else { ServiceKeeps(w, step, n); }
  }

  lemma InitOk(w: World)
    requires Init(w)
    ensures WorldOk(w)
  {
    assert Inv(w.db);
  }
}
