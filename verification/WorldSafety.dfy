/** Whole-run safety: fencing, deletion, files and cancellation. */
module WorldSafety {
  import opened Prelude
  import opened Lifecycle
  import opened Uuid
  import opened Tables
  import opened Backing
  import opened EventLog
  import opened Invariant
  import opened BatchReset
  import opened Fencing
  import opened World
  import opened WorldInv
  import opened WorldRounds
  import opened WorldUploads
  import opened WorldDeletions
  import opened WorldRuns
  import opened WorldHistory

  // ---- How a step may change the tables ----

  /** A recording row stays, is marked, or is new under an identifier never tried before. */
  predicate RecordingStep(w: World, n: World, r: Id)
    requires r in n.db.recordings
  {
    var b := n.db.recordings[r];
    if r in w.db.recordings then
      var a := w.db.recordings[r];
      b == a || (a.deletingAt.None? && b == a.(deletingAt := b.deletingAt, updatedAt := b.updatedAt)
          && b.deletingAt.Some?)
    else r !in w.past.tried
  }

  /** A task row stays with its recording and only moves forward, or is new for a recording never tried before. */
  predicate TaskStep(w: World, n: World, t: Id)
    requires t in n.db.tasks
  {
    var b := n.db.tasks[t];
    if t in w.db.tasks then b.recordingId == w.db.tasks[t].recordingId && Progress(b) >= Progress(w.db.tasks[t])
    else b.recordingId !in w.past.tried
  }

  ghost predicate TablesStep(w: World, n: World) {
    && (forall r :: r in n.db.recordings ==> RecordingStep(w, n, r))
    && (forall t :: t in n.db.tasks ==> TaskStep(w, n, t))
    && w.past.tried <= n.past.tried
    && (forall t :: t in w.past.recOf ==> Drawn(n.past.recOf, t, w.past.recOf[t]))
  }

  lemma CommitsTables(db: Db, op: Option<Op>, n: Db)
    requires RoundWrites(db, op, n)
    ensures n.recordings == db.recordings && n.tasks.Keys == db.tasks.Keys
    ensures forall t :: t in db.tasks ==>
        n.tasks[t].recordingId == db.tasks[t].recordingId && Progress(n.tasks[t]) >= Progress(db.tasks[t])
  {
    if op.Some? { WriteFrame(db, op.value); }
  }

  lemma RoundTables(w: World, i: nat, a: RoundStep, n: World)
    requires RoundMoves(w, i, a, n)
    ensures TablesStep(w, n)
  {
    MoveFrame(w, i, a, n);
    var op := RoundCommits(w, i, a, n);
    CommitsTables(w.db, op, n.db);
  }

  lemma UploadTables(w: World, r: Id, a: UploadStep, n: World)
    requires WorldOk(w) && (SaveMoves(w, r, a, n) || CreateMoves(w, r, a, n))
    ensures TablesStep(w, n)
  {
    if SaveMoves(w, r, a, n) {
      SaveSaved(w, r, a, n);
    } else if !a.Compensate? && !a.Vanish? {
      assert UploadOk(r, w.uploads[r], w.db.recordings, w.disk, w.digest, w.past);
      CreateSettles(w, r, a, n);
      SettledTables(w, r, w.uploads[r].input, n);
    }
  }

  lemma SettledTables(w: World, r: Id, input: NewRecording, n: World)
    requires TasksKnown(w.db.tasks, w.past.recOf, w.past.tried)
    requires RecsKnown(w.db.recordings, w.past.tried, w.past.owner)
    requires Settled(w, r, input, n) && r !in w.past.tried && Drawn(w.past.recOf, input.task, r)
    ensures TablesStep(w, n)
  {
  }

  lemma DeletionTables(w: World, d: nat, a: DeleteStep, n: World)
    requires DeleteMoves(w, d, a, n)
    ensures TablesStep(w, n)
  {
    if a.MarkDeleting? { MarkedTables(w, WithLock(w.db, w.db.recordings[a.rec].hash), Mark(a.rec, a.of, a.now),
        a.applied, n); }
    else if a.PurgeRows? { MarkedTables(w, w.db, Purge(w.deleters[d].rec), a.applied, n); }
  }

  lemma MarkedTables(w: World, db: Db, op: Op, applied: bool, n: World)
    requires (op.Mark? || op.Purge?) && db.tasks == w.db.tasks && db.recordings == w.db.recordings
    requires n.db == Attempt(db, op, applied) && n.past == w.past
    ensures TablesStep(w, n)
  {
  }

  lemma ResetTables(w: World, ids: seq<Id>, interrupt: bool, now: Time, n: World)
    requires Resets(w, ids, interrupt, now, n)
    ensures TablesStep(w, n)
  {
    BatchIsPointwise(w.db, ids, interrupt, now);
  }

  lemma RetryTables(w: World, t: Id, now: Time, applied: bool, n: World)
    requires n == w.(db := Attempt(w.db, Retry(t, now), applied))
    ensures TablesStep(w, n)
  {
  }

  lemma OtherProcessSteps(w: World, a: ProcessStep, n: World)
    requires (BootMoves(w, a, n) || ServiceMoves(w, a, n)) && !a.ResetInFlight? && !a.ManualRetry?
    ensures n.db == w.db && n.past.tried == w.past.tried && n.past.recOf == w.past.recOf
  {
    if BootMoves(w, a, n) { BootTouches(w, a, n); } else { ServiceTouches(w, a, n); }
  }

  lemma SameTables(w: World, n: World)
    requires n.db == w.db && n.past.tried == w.past.tried && n.past.recOf == w.past.recOf
    ensures TablesStep(w, n)
  {
  }

  lemma RetryFrame(w: World, a: ProcessStep, n: World)
    requires a.ManualRetry? && ServiceMoves(w, a, n)
    ensures n == w.(db := Attempt(w.db, Retry(a.task, a.now), a.applied))
  {
  }

  lemma ProcessTables(w: World, a: ProcessStep, n: World)
    requires BootMoves(w, a, n) || ServiceMoves(w, a, n)
    ensures TablesStep(w, n)
  {
    if a.ResetInFlight? { ResetFrame(w, a, n); ResetTables(w, a.ids, a.interrupt, a.now, n); }
    else if a.ManualRetry? { RetryFrame(w, a, n); RetryTables(w, a.task, a.now, a.applied, n); }
    else { OtherProcessSteps(w, a, n); SameTables(w, n); }
  }

  lemma StepTables(w: World, a: Action, n: World)
    requires WorldOk(w) && Taken(w, a, n)
    ensures TablesStep(w, n)
  {
    assert Step(w, a, n);
    match a
    case Round(i, step) => RoundTables(w, i, step, n);
    case Uploading(r, step) => UploadTables(w, r, step, n);
    case Deletion(d, step) => DeletionTables(w, d, step, n);
    case Process(step) => ProcessTables(w, step, n);
  }

  lemma RunTables(run: seq<World>, i: nat)
    requires IsRun(run) && i + 1 < |run|
    ensures TablesStep(run[i], run[i + 1])
  {
    AlwaysOk(run, i);
    assert Leads(run[i], run[i + 1]);
    var a :| Taken(run[i], a, run[i + 1]);
    StepTables(run[i], a, run[i + 1]);
  }

  // ---- Fencing over whole runs ----

  /** As long as a task's row is there it never moves back: attempts never decrease. */
  lemma {:induction false} RowsNeverMoveBack(run: seq<World>, i: nat, j: nat, t: Id)
    requires IsRun(run) && i <= j < |run| && t in run[i].db.tasks && t in run[j].db.tasks
    ensures run[j].db.tasks[t].attempt >= run[i].db.tasks[t].attempt
    ensures Progress(run[j].db.tasks[t]) >= Progress(run[i].db.tasks[t])
  {
    if i < j {
      TaskThroughout(run, i, j - 1, j, t);
      RowsNeverMoveBack(run, i, j - 1, t);
      RunTables(run, j - 1);
      assert TaskStep(run[j - 1], run[j], t);
    }
  }

  /** The identifiers of a task and its recording belong together for ever. */
  lemma {:induction false} PairStays(run: seq<World>, i: nat, j: nat, t: Id)
    requires IsRun(run) && i <= j < |run| && t in run[i].db.tasks
    ensures Drawn(run[j].past.recOf, t, run[i].db.tasks[t].recordingId)
    ensures run[i].db.tasks[t].recordingId in run[j].past.tried
  {
    if i < j {
      PairStays(run, i, j - 1, t);
      RunTables(run, j - 1);
    } else {
      AlwaysOk(run, i);
    }
  }

  /** A task that is there at two moments was there all the time between them. */
  lemma {:induction false} TaskThroughout(run: seq<World>, i: nat, m: nat, j: nat, t: Id)
    requires IsRun(run) && i <= m <= j < |run| && t in run[i].db.tasks && t in run[j].db.tasks
    ensures t in run[m].db.tasks
    decreases j - m
  {
    if m < j {
      TaskThroughout(run, i, m + 1, j, t);
      PairStays(run, i, m, t);
      PairStays(run, i, m + 1, t);
      RunTables(run, m);
      AlwaysOk(run, m + 1);
      assert TaskStep(run[m], run[m + 1], t);
      assert Drawn(run[m + 1].past.recOf, t, run[m + 1].db.tasks[t].recordingId);
    }
  }

  /** An attempt of a task is claimed by at most one round in the whole history, crashes included. */
  lemma ClaimedAtMostOnce(run: seq<World>, i: nat, j: nat, r: nat, s: nat, key: Key)
    requires IsRun(run) && i < j && j + 1 < |run|
    requires ClaimsIn(run[i], r, key, run[i + 1])
    ensures !ClaimsIn(run[j], s, key, run[j + 1])
  {
    if ClaimsIn(run[j], s, key, run[j + 1]) {
      ClaimAdvances(run[i], r, key, run[i + 1]);
      ClaimAdvances(run[j], s, key, run[j + 1]);
      RowsNeverMoveBack(run, i + 1, j, key.task);
    }
  }

  lemma ClaimAdvances(w: World, i: nat, key: Key, n: World)
    requires ClaimsIn(w, i, key, n)
    ensures key.task in w.db.tasks && Progress(w.db.tasks[key.task]) == 5 * key.attempt
    ensures key.task in n.db.tasks && Progress(n.db.tasks[key.task]) > 5 * key.attempt
  {
    var op :| ClaimOf(w.db, op, key, n.db);
    WriteFrame(w.db, op);
  }

  /** At any moment each attempt is held by at most one round. */
  lemma OneRoundPerAttempt(run: seq<World>, i: nat, r: nat, s: nat)
    requires IsRun(run) && i < |run| && r in run[i].rounds && s in run[i].rounds
    requires !run[i].rounds[r].Claiming? && !run[i].rounds[s].Claiming?
    requires run[i].rounds[r].key == run[i].rounds[s].key
    ensures r == s
  {
    AlwaysOk(run, i);
    assert RoundOk(r, run[i].rounds[r], run[i].table, run[i].past);
    assert RoundOk(s, run[i].rounds[s], run[i].table, run[i].past);
  }

  // ---- Deletion ----

  /** A recording that was ever created and is marked or gone stays marked or gone; once gone it stays gone,
      and a marked row never changes again. */
  lemma {:induction false} DeletionIsForever(run: seq<World>, i: nat, j: nat, r: Id)
    requires IsRun(run) && i <= j < |run| && r in run[i].past.tried && !InUse(run[i].db.recordings, r)
    ensures r in run[j].past.tried && !InUse(run[j].db.recordings, r)
    ensures r !in run[i].db.recordings ==> r !in run[j].db.recordings
    ensures r in run[j].db.recordings ==>
        r in run[i].db.recordings && run[j].db.recordings[r] == run[i].db.recordings[r]
  {
    if i < j {
      DeletionIsForever(run, i, j - 1, r);
      RunTables(run, j - 1);
      if r in run[j].db.recordings { assert RecordingStep(run[j - 1], run[j], r); }
    }
  }

  /** The task identifiers of a purged recording never reappear either. */
  lemma PurgedTasksStayGone(run: seq<World>, i: nat, m: nat, j: nat, t: Id)
    requires IsRun(run) && i <= m <= j < |run| && t in run[i].db.tasks && t !in run[m].db.tasks
    ensures t !in run[j].db.tasks
  {
    if t in run[j].db.tasks { TaskThroughout(run, i, m, j, t); }
  }

  /** Row and log of task t are what they were. */
  ghost predicate SameTask(db: Db, n: Db, t: Id)
    requires t in db.tasks
  {
    && t in n.tasks && n.tasks[t] == db.tasks[t]
    && (forall k: EventKey :: k.task == t ==> (k in n.events <==> k in db.events))
    && (forall k: EventKey :: k.task == t && k in db.events ==> n.events[k] == db.events[k])
  }

  lemma CommitShields(db: Db, op: Option<Op>, n: Db, t: Id)
    requires RoundWrites(db, op, n) && t in db.tasks && !Active(db, db.tasks[t].recordingId)
    ensures SameTask(db, n, t)
  {
    if op.Some? { DeletionShields(db, op.value, t); }
  }

  lemma RoundShields(w: World, i: nat, a: RoundStep, n: World, t: Id)
    requires RoundMoves(w, i, a, n) && t in w.db.tasks && !Active(w.db, w.db.tasks[t].recordingId)
    ensures SameTask(w.db, n.db, t)
  {
    var op := RoundCommits(w, i, a, n);
    CommitShields(w.db, op, n.db, t);
  }

  lemma CreateShields(w: World, input: NewRecording, n: Db, t: Id)
    requires CreateLeaves(w, input, n) && t in w.db.tasks && input.task !in w.db.tasks
    ensures SameTask(w.db, n, t)
  {
  }

  lemma UploadShields(w: World, r: Id, a: UploadStep, n: World, t: Id)
    requires WorldOk(w) && (SaveMoves(w, r, a, n) || CreateMoves(w, r, a, n)) && t in w.db.tasks
    ensures SameTask(w.db, n.db, t)
  {
    if SaveMoves(w, r, a, n) {
      SaveSaved(w, r, a, n);
    } else if !a.Compensate? && !a.Vanish? {
      assert UploadOk(r, w.uploads[r], w.db.recordings, w.disk, w.digest, w.past);
      CreateSettles(w, r, a, n);
      CreateShields(w, w.uploads[r].input, n.db, t);
    }
  }

  lemma MarkShields(db: Db, op: Op, applied: bool, t: Id)
    requires op.Mark? && t in db.tasks && !Active(db, db.tasks[t].recordingId)
    ensures SameTask(db, Attempt(db, op, applied), t)
  {
  }

  lemma PurgeShields(db: Db, r: Id, applied: bool, t: Id)
    requires Sound(db) && t in db.tasks && r != db.tasks[t].recordingId
    ensures SameTask(db, Attempt(db, Purge(r), applied), t)
  {
    assert Inv(db);
    PurgeExact(db, r);
  }

  lemma DeletionShieldsTask(w: World, d: nat, a: DeleteStep, n: World, t: Id)
    requires Sound(w.db) && DeleteMoves(w, d, a, n) && t in w.db.tasks
    requires !Active(w.db, w.db.tasks[t].recordingId)
    ensures t in n.db.tasks ==> SameTask(w.db, n.db, t)
  {
    if a.MarkDeleting? {
      var h := w.db.recordings[a.rec].hash;
      MarkShields(WithLock(w.db, h), Mark(a.rec, a.of, a.now), a.applied, t);
    } else if a.PurgeRows? && w.deleters[d].rec != w.db.tasks[t].recordingId {
      PurgeShields(w.db, w.deleters[d].rec, a.applied, t);
    }
  }

  lemma ProcessShields(w: World, a: ProcessStep, n: World, t: Id)
    requires (BootMoves(w, a, n) || ServiceMoves(w, a, n)) && !a.ResetInFlight? && t in w.db.tasks
    requires !Active(w.db, w.db.tasks[t].recordingId)
    ensures SameTask(w.db, n.db, t)
  {
    if a.ManualRetry? {
      RetryFrame(w, a, n);
      if a.applied { DeletionShields(w.db, Retry(a.task, a.now), t); }
    } else {
      OtherProcessSteps(w, a, n);
    }
  }

  /** After the deletion mark, no round and no retry alters row, products or log of the task: they stay as
      they are until they are purged, or until a boot resets a row found in flight. */
  lemma MarkedTasksStand(w: World, a: Action, n: World, t: Id)
    requires WorldOk(w) && Taken(w, a, n) && t in w.db.tasks && !Active(w.db, w.db.tasks[t].recordingId)
    requires !(a.Process? && a.process.ResetInFlight?)
    ensures t in n.db.tasks ==> SameTask(w.db, n.db, t)
  {
    assert Step(w, a, n);
    match a
    case Round(i, step) => RoundShields(w, i, step, n, t);
    case Uploading(r, step) => UploadShields(w, r, step, n, t);
    case Deletion(d, step) => DeletionShieldsTask(w, d, step, n, t);
    case Process(step) => ProcessShields(w, step, n, t);
  }

  // ---- Files ----

  /** At every reachable state, each recording not being deleted has its file with the recorded size and
      hash, and no two recordings share a path. */
  lemma FilesMatchRows(run: seq<World>, i: nat, r: Id)
    requires IsRun(run) && i < |run| && Active(run[i].db, r)
    ensures var rec := run[i].db.recordings[r]; var disk := run[i].disk;
      rec.path in disk && |disk[rec.path]| == rec.size && run[i].digest(disk[rec.path]) == rec.hash
    ensures forall s | s in run[i].db.recordings ::
              run[i].db.recordings[s].path == run[i].db.recordings[r].path ==> s == r
  {
    AlwaysOk(run, i);
    assert HasContent(run[i].disk, run[i].db.recordings[r].path, run[i].db.recordings[r].size,
        run[i].db.recordings[r].hash, run[i].digest);
    assert Inv(run[i].db);
  }

  /** No step changes both the directory and the recordings, and a file that goes or changes belongs to no
      recording in use, before or after the step. */
  lemma LiveFilesStay(w: World, a: Action, n: World, r: Id)
    requires WorldOk(w) && Taken(w, a, n) && Active(w.db, r)
    ensures w.db.recordings[r].path in w.disk
    ensures w.db.recordings[r].path in n.disk
    ensures n.disk[w.db.recordings[r].path] == w.disk[w.db.recordings[r].path]
  {
    assert Step(w, a, n);
    assert HasContent(w.disk, w.db.recordings[r].path, w.db.recordings[r].size, w.db.recordings[r].hash, w.digest);
    match a
    case Round(i, step) => MoveFrame(w, i, step, n);
    case Uploading(u, step) => UploadLeavesFile(w, u, step, n, r);
    case Deletion(d, step) => DeletionLeavesFile(w, d, step, n, r);
    case Process(step) => ProcessLeavesFile(w, step, n, r);
  }

  lemma UploadLeavesFile(w: World, u: Id, a: UploadStep, n: World, r: Id)
    requires WorldOk(w) && (SaveMoves(w, u, a, n) || CreateMoves(w, u, a, n)) && Active(w.db, r)
    ensures var p := w.db.recordings[r].path; p in w.disk ==> p in n.disk && n.disk[p] == w.disk[p]
  {
    assert Owns(w.past.owner, w.db.recordings[r].path, r);
    if SaveMoves(w, u, a, n) { SaveSaved(w, u, a, n); } else { CreateLeavesFile(w, u, a, n, r); }
  }

  lemma CreateLeavesFile(w: World, u: Id, a: UploadStep, n: World, r: Id)
    requires WorldOk(w) && CreateMoves(w, u, a, n) && Active(w.db, r)
    ensures var p := w.db.recordings[r].path; p in w.disk ==> p in n.disk && n.disk[p] == w.disk[p]
  {
    CreateDisk(w, u, a, n);
    assert Owns(w.past.owner, w.db.recordings[r].path, r);
    assert UploadOk(u, w.uploads[u], w.db.recordings, w.disk, w.digest, w.past);
  }

  lemma CreateDisk(w: World, u: Id, a: UploadStep, n: World)
    requires CreateMoves(w, u, a, n)
    ensures n.disk == w.disk || (w.uploads[u].Compensating? && n.disk == w.disk - {w.uploads[u].path})
  {
  }

  lemma DeletionLeavesFile(w: World, d: nat, a: DeleteStep, n: World, r: Id)
    requires WorldOk(w) && DeleteMoves(w, d, a, n) && Active(w.db, r)
    ensures var p := w.db.recordings[r].path; p in w.disk ==> p in n.disk && n.disk[p] == w.disk[p]
  {
    assert Owns(w.past.owner, w.db.recordings[r].path, r);
    if a.Remove? {
      RemoveFrame(w, d, a, n);
      assert DeleterOk(w.deleters[d], w.db.recordings, w.past.owner, w.past.recOf, w.past.tried);
    }
  }

  lemma ProcessLeavesFile(w: World, a: ProcessStep, n: World, r: Id)
    requires WorldOk(w) && (BootMoves(w, a, n) || ServiceMoves(w, a, n)) && Active(w.db, r)
    ensures var p := w.db.recordings[r].path; p in w.disk ==> p in n.disk && n.disk[p] == w.disk[p]
  {
    if a.Sweep? {
      SweepFrame(w, a, n);
      assert HasContent(w.disk, w.db.recordings[r].path, w.db.recordings[r].size, w.db.recordings[r].hash, w.digest);
      FinalIsNotTmp(w.db.recordings[r].path);
    } else {
      NoSweepNoChange(w, a, n);
    }
  }

  lemma NoSweepNoChange(w: World, a: ProcessStep, n: World)
    requires (BootMoves(w, a, n) || ServiceMoves(w, a, n)) && !a.Sweep?
    ensures n.disk == w.disk
  {
    if BootMoves(w, a, n) { BootTouches(w, a, n); } else { ServiceTouches(w, a, n); }
  }

  // ---- Cancellation ----

  lemma SilencedGrows(w: World, a: Action, n: World)
    requires Taken(w, a, n)
    ensures w.past.silenced <= n.past.silenced
    ensures forall t :: t in n.past.silenced && t !in w.past.silenced ==>
      a.Deletion? && a.d in w.deleters && w.deleters[a.d].Cancelling? && w.deleters[a.d].task == t
          && w.deleters[a.d].pending == {}
  {
    assert Step(w, a, n);
    match a
    case Round(i, step) => MoveFrame(w, i, step, n);
    case Uploading(r, step) => UploadSilences(w, r, step, n);
    case Deletion(d, step) => DeletionSilences(w, d, step, n);
    case Process(step) => ProcessSilences(w, step, n);
  }

  lemma UploadSilences(w: World, r: Id, a: UploadStep, n: World)
    requires SaveMoves(w, r, a, n) || CreateMoves(w, r, a, n)
    ensures n.past.silenced == w.past.silenced
  {
  }

  lemma DeletionSilences(w: World, d: nat, a: DeleteStep, n: World)
    requires DeleteMoves(w, d, a, n)
    ensures n.past.silenced == w.past.silenced
            || (d in w.deleters && w.deleters[d].Cancelling? && w.deleters[d].pending == {}
                && n.past.silenced == w.past.silenced + {w.deleters[d].task})
  {
  }

  lemma ProcessSilences(w: World, a: ProcessStep, n: World)
    requires BootMoves(w, a, n) || ServiceMoves(w, a, n)
    ensures n.past.silenced == w.past.silenced
  {
    if BootMoves(w, a, n) { BootTouches(w, a, n); } else { ServiceTouches(w, a, n); }
  }

  /** Once a deletion has marked its recording and run CancelTask to its end, at no later moment is a round
      in a transcription or summary call for the task, or on its way into one, with a live context. */
  lemma {:induction false} SilencedForEver(run: seq<World>, i: nat, j: nat, t: Id, r: nat)
    requires IsRun(run) && i <= j < |run| && t in run[i].past.silenced
    ensures t in run[j].past.silenced
    ensures InCallFor(run[j].rounds, r, t) ==> r in run[j].cancelled
  {
    if i < j {
      SilencedForEver(run, i, j - 1, t, r);
      assert Leads(run[j - 1], run[j]);
      var a :| Taken(run[j - 1], a, run[j]);
      SilencedGrows(run[j - 1], a, run[j]);
    }
    AlwaysOk(run, j);
  }

  // ---- Rows, logs and summaries ----

  /** The stored events of t are numbered 1 to event_seq. */
  ghost predicate NumberedFromOne(db: Db, t: Id)
    requires t in db.tasks
  {
    forall k: EventKey :: k.task == t ==> (k in db.events <==> 1 <= k.seqNo <= db.tasks[t].eventSeq)
  }

  lemma SoundRows(db: Db, t: Id)
    requires Sound(db) && t in db.tasks
    ensures NumberedFromOne(db, t) && Shape(db.tasks[t]) && LoggedAt(db, t, REPLAYS)
  {
    assert Inv(db);
  }

  /** In every reachable state a task row has the shape of its status, its stored events are numbered 1 to
      event_seq, it is the replay of that log, and it agrees with the last event. */
  lemma RowsAreTheirLogs(run: seq<World>, i: nat, t: Id)
    requires IsRun(run) && i < |run| && t in run[i].db.tasks
    ensures NumberedFromOne(run[i].db, t) && Shape(run[i].db.tasks[t]) && LoggedAt(run[i].db, t, REPLAYS)
    ensures EventKey(t, run[i].db.tasks[t].eventSeq) in run[i].db.events
    ensures var task := run[i].db.tasks[t]; var e := run[i].db.events[EventKey(t, task.eventSeq)];
      task.status == e.to && task.attempt == e.attempt + (if e.kind.TaskAutoRetryScheduled? then 1 else 0)
  {
    AlwaysOk(run, i);
    SoundRows(run[i].db, t);
    RowMatchesLastEvent(run[i].db, t);
  }

  /** In every reachable state, however long its log: if all stored events of a task after number k are worker
      events or the deletion request, at most nine of them are worker events. */
  lemma AtMostNineStored(run: seq<World>, i: nat, t: Id, k: nat)
    requires IsRun(run) && i < |run| && t in run[i].db.tasks && 1 <= k <= run[i].db.tasks[t].eventSeq
    requires WorkersAfter(run[i].db, t, k)
    ensures WorkerEvents(LogOf(run[i].db, t), k) <= 9
  {
    AlwaysOk(run, i);
    StoredTransitions(run[i].db, t, k);
  }

  // ---- Halting ----

  predicate Writing(pc: Pc) {
    pc.Saving? || pc.Completing? || pc.Failing?
  }

  /** The last try of a write, with an error. */
  predicate LastTryErrs(w: World, a: Action) {
    && a.Round? && a.i in w.rounds && Writing(w.rounds[a.i]) && w.rounds[a.i].tries + 1 >= 3
    && a.round.Write? && !a.round.reply.Written? && !a.round.reply.Stale?
  }

  /** The early end of the loop in a stopped run, after an error. */
  predicate EndsEarly(w: World, a: Action) {
    && a.Round? && a.i in w.rounds && Writing(w.rounds[a.i]) && w.rounds[a.i].tries > 0
    && a.round.GiveUp? && !w.running
  }

  /** The steps that halt the service: the loop of a write ends with an error, and not because a stopped run
      cancelled it. */
  predicate Halts(w: World, a: Action) {
    (LastTryErrs(w, a) || EndsEarly(w, a)) && !(!w.running && a.round.canceled)
  }

  lemma RoundHalts(w: World, i: nat, a: RoundStep, n: World)
    requires RoundMoves(w, i, a, n)
    ensures n.halted <==> w.halted || Halts(w, Round(i, a))
  {
    var pc := w.rounds[i];
    if pc.Claiming? { var op := ClaimFrame(w, i, a, n); }
    else if a.Register? || a.ReadTask? || a.ReadRecording? { RecheckFrame(w, i, pc, a, n); }
    else if a.Hear? || a.Make? || a.CallFails? || a.CallCancelled? { CallFrame(w, i, pc, a, n); }
    else if !a.Write? && !a.GiveUp? { var op := LeaveFrame(w, i, pc, a, n); }
  }

  lemma OthersHalt(w: World, a: Action, n: World)
    requires Step(w, a, n) && !a.Round?
    ensures n.halted ==> w.halted
  {
    match a
    case Uploading(r, step) => UploadHalts(w, r, step, n);
    case Deletion(d, step) => DeletionHalts(w, d, step, n);
    case Process(step) => if BootMoves(w, step, n) { BootHalts(w, step, n); }
  }

  lemma UploadHalts(w: World, r: Id, a: UploadStep, n: World)
    requires SaveMoves(w, r, a, n) || CreateMoves(w, r, a, n)
    ensures n.halted == w.halted
  {
  }

  lemma DeletionHalts(w: World, d: nat, a: DeleteStep, n: World)
    requires DeleteMoves(w, d, a, n)
    ensures n.halted == w.halted
  {
  }

  lemma BootHalts(w: World, a: ProcessStep, n: World)
    requires BootMoves(w, a, n)
    ensures n.halted ==> w.halted
  {
    if a.ResetInFlight? { ResetFrame(w, a, n); }
    else if a.Sweep? { SweepFrame(w, a, n); }
    else if a.ListFiles? || a.EndSweep? { ListFrame(w, a, n); }
    else { EarlyFrame(w, a, n); }
  }

  /** A step turns a service that is not halted into a halted one exactly if it is one of those; while the
      run goes on, exactly if it is an error at the last try of a write, whatever the error. */
  lemma HaltsExactly(w: World, a: Action, n: World)
    requires Taken(w, a, n) && !w.halted
    ensures n.halted <==> Halts(w, a)
    ensures w.running ==> (n.halted <==> LastTryErrs(w, a))
  {
    assert Step(w, a, n);
    if a.Round? { RoundHalts(w, a.i, a.round, n); } else { OthersHalt(w, a, n); }
  }

  ghost predicate HaltsAt(run: seq<World>, j: nat)
    requires j + 1 < |run|
  {
    exists a :: Taken(run[j], a, run[j + 1]) && Halts(run[j], a) && (run[j].running ==> LastTryErrs(run[j], a))
  }

  lemma NotHaltedAtFirst(run: seq<World>)
    requires IsRun(run)
    ensures !run[0].halted
  {
  }

  /** A halted service halted at an earlier step of the run that halts, at an error of a last try if the run
      was going on, and was halted ever since. */
  lemma {:induction false} HaltedSince(run: seq<World>, i: nat) returns (j: nat)
    requires IsRun(run) && i < |run| && run[i].halted
    ensures j < i && HaltsAt(run, j) && forall k :: j < k <= i ==> run[k].halted
  {
    NotHaltedAtFirst(run);
    if i > 0 {
      assert Leads(run[i - 1], run[i]);
      if run[i - 1].halted {
        j := HaltedSince(run, i - 1);
      } else {
        var a :| Taken(run[i - 1], a, run[i]);
        HaltsExactly(run[i - 1], a, run[i]);
        j := i - 1;
      }
    }
  }
}
