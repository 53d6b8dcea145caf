/** Boot recovery from any state a crash can leave. */
module WorldBoot {
  import opened Prelude
  import opened Lifecycle
  import opened Uuid
  import opened Tables
  import opened Backing
  import opened Invariant
  import opened BatchReset
  import opened Database
  import opened World
  import opened WorldInv
  import opened WorldRuns
  import opened WorldHistory
  import opened WorldSafety

  // ---- What the boot sequence leaves alone ----

  predicate SameAt(a: map<EventKey, Event>, b: map<EventKey, Event>, k: EventKey) {
    (k in b <==> k in a) && (k in a ==> b[k] == a[k])
  }

  lemma {:induction false} BatchEventsElsewhere(
      tasks: Tasks, events: map<EventKey, Event>, ids: seq<Id>, interrupt: bool, now: Time, k: EventKey)
    requires (forall t :: t in ids ==> t in tasks) && k.task !in ids
    ensures SameAt(events, BulkEvents(tasks, events, ids, interrupt, now), k)
    decreases |ids|
  {
    if ids != [] {
      assert ids[|ids| - 1] in ids;
      BatchEventsElsewhere(tasks, events, ids[..|ids| - 1], interrupt, now, k);
    }
  }

  lemma ResetElsewhere(db: Db, ids: seq<Id>, interrupt: bool, now: Time, t: Id)
    requires Lists(db.tasks, ids) && t in db.tasks && !InFlight(db.tasks[t].status)
    ensures SameTask(db, Run(db, ResetOps(ids, interrupt, now)), t)
  {
    BatchIsPointwise(db, ids, interrupt, now);
    forall k: EventKey | k.task == t
      ensures SameAt(db.events, Run(db, ResetOps(ids, interrupt, now)).events, k)
    {
      BatchEventsElsewhere(db.tasks, db.events, ids, interrupt, now, k);
    }
  }

  lemma ProcessLeavesTask(w: World, a: ProcessStep, n: World, t: Id)
    requires (BootMoves(w, a, n) || ServiceMoves(w, a, n)) && !a.ManualRetry?
    requires t in w.db.tasks && !InFlight(w.db.tasks[t].status)
    ensures SameTask(w.db, n.db, t)
  {
    if a.ResetInFlight? {
      ResetFrame(w, a, n);
      ResetElsewhere(w.db, a.ids, a.interrupt, a.now, t);
    } else {
      OtherProcessSteps(w, a, n);
    }
  }

  lemma DeletionLeavesTask(w: World, d: nat, a: DeleteStep, n: World, t: Id)
    requires DeleteMoves(w, d, a, n) && !a.MarkDeleting? && t in w.db.tasks
    requires Active(w.db, w.db.tasks[t].recordingId) && Sound(w.db)
    requires d in w.deleters ==> !InUse(w.db.recordings, w.deleters[d].rec)
    ensures SameTask(w.db, n.db, t)
  {
    if a.PurgeRows? { PurgeShields(w.db, w.deleters[d].rec, a.applied, t); }
  }

  /** Every step of a boot is one of the process or of a deletion being resumed. */
  lemma WhileBooting(w: World, a: Action, n: World)
    requires Step(w, a, n) && !Answering(w.mode)
    ensures (a.Process? && !a.process.ManualRetry?) || (a.Deletion? && !a.deletion.MarkDeleting?)
  {
  }

  /** No step taken while the boot sequence runs touches row or log of a task that is pending, done or failed
      and whose recording is in use. */
  lemma BootLeavesAlone(w: World, a: Action, n: World, t: Id)
    requires WorldOk(w) && Taken(w, a, n) && Booting(w.mode)
    requires t in w.db.tasks && Active(w.db, w.db.tasks[t].recordingId) && !InFlight(w.db.tasks[t].status)
    ensures SameTask(w.db, n.db, t)
  {
    assert Step(w, a, n);
    WhileBooting(w, a, n);
    if a.Process? {
      ProcessLeavesTask(w, a.process, n, t);
    } else {
      BootDeletionLeaves(w, a.d, a.deletion, n, t);
    }
  }

  lemma BootDeletionLeaves(w: World, d: nat, a: DeleteStep, n: World, t: Id)
    requires WorldOk(w) && DeleteMoves(w, d, a, n)
    requires t in w.db.tasks && Active(w.db, w.db.tasks[t].recordingId) && !a.MarkDeleting?
    ensures SameTask(w.db, n.db, t)
  {
    assert d in w.deleters ==>
        DeleterOk(w.deleters[d], w.db.recordings, w.past.owner, w.past.recOf, w.past.tried);
    DeletionLeavesTask(w, d, a, n, t);
  }

  /** When the boot starts serving, no row is in flight, and after a sweep that ran the directory holds
      exactly the files that were found and are referenced under a final name, or whose deletion failed. */
  lemma BootEndsClean(run: seq<World>, i: nat)
    requires IsRun(run) && i + 1 < |run| && !run[i].mode.Serving? && run[i + 1].mode.Serving?
    ensures InFlightTasks(run[i + 1].db.tasks) == {}
    ensures run[i].mode.Listing? || run[i].mode.Sweeping?
    ensures run[i].mode.Sweeping? ==>
      forall p :: p in run[i + 1].disk <==>
        p in run[i].mode.found && (p in run[i].mode.kept || (!TmpName(p) && p in Referenced(run[i + 1].db)))
  {
    AlwaysOk(run, i);
    assert Leads(run[i], run[i + 1]);
    var a :| Taken(run[i], a, run[i + 1]);
    assert Step(run[i], a, run[i + 1]);
    EntersService(run[i], a, run[i + 1]);
  }

  lemma ServiceDoesNotStart(w: World, a: ProcessStep, n: World)
    requires ServiceMoves(w, a, n) && !w.mode.Serving?
    ensures !n.mode.Serving?
  {
  }

  lemma BootEntersService(w: World, a: ProcessStep, n: World)
    requires BootMoves(w, a, n) && n.mode.Serving?
    ensures n.db == w.db && n.disk == w.disk && (w.mode.Listing? || (w.mode.Sweeping? && w.mode.rest == {}))
  {
    if a.ListFiles? || a.EndSweep? { ListFrame(w, a, n); }
    else if a.ResetInFlight? { ResetFrame(w, a, n); }
    else if a.Sweep? { SweepFrame(w, a, n); }
    else { EarlyFrame(w, a, n); }
  }

  lemma DeletionKeepsMode(w: World, d: nat, a: DeleteStep, n: World)
    requires DeleteMoves(w, d, a, n)
    ensures n.mode == w.mode
  {
  }

  lemma EntersService(w: World, a: Action, n: World)
    requires Step(w, a, n) && !w.mode.Serving? && n.mode.Serving?
    ensures n.db == w.db && n.disk == w.disk && (w.mode.Listing? || (w.mode.Sweeping? && w.mode.rest == {}))
  {
    match a
    case Process(step) =>
      if BootMoves(w, step, n) { BootEntersService(w, step, n); } else { ServiceDoesNotStart(w, step, n); }
    case Deletion(d, step) => DeletionKeepsMode(w, d, step, n);
    case _ =>
  }

  /** An inspection that can read the tables finds nothing and lets the boot go on. */
  lemma InspectionPassesAlways(run: seq<World>, i: nat, n: World)
    requires IsRun(run) && i < |run| && run[i].mode.Inspecting? && Step(run[i], Process(Inspect(true)), n)
    ensures InspectionPasses(run[i].db) && n.mode.Resuming?
  {
    AlwaysOk(run, i);
    InspectionNeverFails(run[i].db);
  }

  // ---- The boot sequence always gets through ----

  /** A list of the in-flight rows, each once, always exists. */
  lemma {:induction false} Listed(tasks: Tasks, some: set<Id>) returns (ids: seq<Id>)
    ensures Distinct(ids) && forall t :: t in ids <==> t in some
  {
    if some == {} {
      ids := [];
    } else {
      var t :| t in some;
      ids := Listed(tasks, some - {t});
      ids := ids + [t];
    }
  }

  /** path leads from w to n, one step at a time. */
  ghost predicate LeadsAlong(path: seq<World>, w: World, n: World) {
    && |path| > 0 && path[0] == w && path[|path| - 1] == n
    && forall i :: 0 <= i < |path| - 1 ==> Leads(path[i], path[i + 1])
  }

  lemma Extend(path: seq<World>, w: World, m: World, a: ProcessStep, n: World) returns (longer: seq<World>)
    requires LeadsAlong(path, w, m) && BootMoves(m, a, n)
    ensures LeadsAlong(longer, w, n)
  {
    assert Taken(m, Process(a), n);
    longer := path + [n];
  }

  /** The file the sweep looks at next, when deleting it succeeds. */
  function SweepNext(m: World, name: Path): World
    requires m.mode.Sweeping?
  {
    m.(disk := if !TmpName(name) && name in m.mode.refs then m.disk else m.disk - {name},
       mode := m.mode.(rest := m.mode.rest - {name}))
  }

  lemma SweepsOne(m: World, name: Path)
    requires m.mode.Sweeping? && name in m.mode.rest && SweepOk(m.mode, m.disk, m.db)
    ensures BootMoves(m, Sweep(name, true), SweepNext(m, name))
    ensures SweepOk(SweepNext(m, name).mode, SweepNext(m, name).disk, m.db)
  {
  }

  /** The sweep goes through all it found. */
  lemma {:induction false} SweepsThrough(w: World, path: seq<World>, m: World)
    returns (longer: seq<World>, n: World)
    requires LeadsAlong(path, w, m) && m.mode.Sweeping? && SweepOk(m.mode, m.disk, m.db)
    ensures LeadsAlong(longer, w, n) && n.mode == m.mode.(rest := {})
    ensures n == m.(disk := n.disk, mode := n.mode)
    ensures SweepOk(n.mode, n.disk, n.db)
    decreases |m.mode.rest|
  {
    if m.mode.rest == {} {
      return path, m;
    }
    var name :| name in m.mode.rest;
    SweepsOne(m, name);
    var further := Extend(path, w, m, Sweep(name, true), SweepNext(m, name));
    longer, n := SweepsThrough(w, further, SweepNext(m, name));
  }

  /** From the listing to service, with every deletion of the sweep succeeding. */
  lemma SweepsToService(w: World, path: seq<World>, m: World) returns (longer: seq<World>, n: World)
    requires LeadsAlong(path, w, m) && m.mode.Listing?
    ensures LeadsAlong(longer, w, n) && n.mode.Serving? && n.db == m.db
    ensures n.disk.Keys == set p | p in m.disk && !TmpName(p) && p in Referenced(m.db)
  {
    var listing := m.(mode := Sweeping(m.disk.Keys, m.disk.Keys, Referenced(m.db), {}));
    var listed := Extend(path, w, m, ListFiles(true), listing);
    var swept;
    longer, swept := SweepsThrough(w, listed, listing);
    n := StartServing(swept);
    longer := Extend(longer, w, swept, EndSweep, n);
  }

  // ---- Deletions are finished on the way ----

  lemma ExtendBy(path: seq<World>, w: World, m: World, a: Action, n: World) returns (longer: seq<World>)
    requires LeadsAlong(path, w, m) && Step(m, a, n)
    ensures LeadsAlong(longer, w, n)
  {
    assert Taken(m, a, n);
    longer := path + [n];
  }

  /** The tables, files and records once the deletion of r, whose task is t, is finished. */
  function Finished(m: World, r: Id, t: Id): World
    requires r in m.db.recordings
  {
    m.(db := Drop(m.db, r), disk := m.disk - {m.db.recordings[r].path}, past := Silenced(m.past, t))
  }

  lemma DeletionLeads(path: seq<World>, w: World, m: World, a: DeleteStep, n: World)
    returns (longer: seq<World>)
    requires LeadsAlong(path, w, m) && DeleteMoves(m, 0, a, n)
    ensures LeadsAlong(longer, w, n)
  {
    longer := ExtendBy(path, w, m, Deletion(0, a), n);
  }

  lemma NobodyRegistered(table: map<Key, nat>, t: Id)
    requires table == map[]
    ensures RegisteredFor(table, t) == {}
  {
  }

  /** The first half of a resumed deletion: found, and nothing to cancel in a process that has no rounds. */
  lemma FindsOne(w: World, path: seq<World>, m: World, r: Id, t: Id) returns (longer: seq<World>)
    requires LeadsAlong(path, w, m) && m.mode.Resuming? && m.deleters == map[] && m.table == map[]
    requires r in MarkedIn(m.db) && t in m.db.tasks && m.db.tasks[t].recordingId == r
    ensures LeadsAlong(longer, w, m.(deleters := map[0 := Cancelling(r, m.db.recordings[r].path, t, {})]))
  {
    var p := m.db.recordings[r].path;
    var found := m.(deleters := map[0 := Found(r, p, Some(t))]);
    var cancelling := m.(deleters := map[0 := Cancelling(r, p, t, {})]);
    NobodyRegistered(m.table, t);
    assert found.deleters[0 := Cancelling(r, p, t, {})] == cancelling.deleters;
    longer := DeletionLeads(path, w, m, Find(r, Some(t)), found);
    longer := DeletionLeads(longer, w, found, Collect, cancelling);
  }

  function Silenced(past: History, t: Id): History {
    past.(silenced := past.silenced + {t})
  }

  lemma Silences(w: World, path: seq<World>, m: World, r: Id, p: Path, t: Id) returns (longer: seq<World>)
    requires LeadsAlong(path, w, m) && m.deleters == map[0 := Cancelling(r, p, t, {})]
    ensures LeadsAlong(longer, w, m.(deleters := map[0 := Removing(r, p)], past := Silenced(m.past, t)))
  {
    var n := m.(deleters := map[0 := Removing(r, p)], past := Silenced(m.past, t));
    assert m.deleters[0 := Removing(r, p)] == n.deleters;
    longer := DeletionLeads(path, w, m, Silence, n);
  }

  lemma RemovesFile(w: World, path: seq<World>, m: World, r: Id, p: Path) returns (longer: seq<World>)
    requires LeadsAlong(path, w, m) && m.deleters == map[0 := Removing(r, p)]
    ensures LeadsAlong(longer, w, m.(disk := m.disk - {p}, deleters := map[0 := Purging(r, p)]))
  {
    var n := m.(disk := m.disk - {p}, deleters := map[0 := Purging(r, p)]);
    assert m.deleters[0 := Purging(r, p)] == n.deleters;
    longer := DeletionLeads(path, w, m, Remove(true), n);
  }

  lemma PurgesOne(w: World, path: seq<World>, m: World, r: Id, p: Path) returns (longer: seq<World>)
    requires LeadsAlong(path, w, m) && m.deleters == map[0 := Purging(r, p)]
    ensures LeadsAlong(longer, w, m.(db := Drop(m.db, r), deleters := map[]))
  {
    var n := m.(db := Drop(m.db, r), deleters := map[]);
    assert m.deleters - {0} == n.deleters;
    longer := DeletionLeads(path, w, m, PurgeRows(true), n);
  }

  /** Resuming the deletion of one marked recording. */
  lemma FinishesOne(w: World, path: seq<World>, m: World, r: Id, t: Id) returns (longer: seq<World>)
    requires LeadsAlong(path, w, m) && m.mode.Resuming? && m.deleters == map[] && m.table == map[]
    requires r in MarkedIn(m.db) && t in m.db.tasks && m.db.tasks[t].recordingId == r
    ensures LeadsAlong(longer, w, Finished(m, r, t))
  {
    var p := m.db.recordings[r].path;
    var half := m.(deleters := map[0 := Cancelling(r, p, t, {})]);
    var silent := half.(deleters := map[0 := Removing(r, p)], past := Silenced(m.past, t));
    var removed := silent.(disk := m.disk - {p}, deleters := map[0 := Purging(r, p)]);
    longer := FindsOne(w, path, m, r, t);
    longer := Silences(w, longer, half, r, p, t);
    longer := RemovesFile(w, longer, silent, r, p);
    longer := PurgesOne(w, longer, removed, r, p);
  }

  lemma MarkedHasTask(db: Db, r: Id) returns (t: Id)
    requires Sound(db) && r in db.recordings
    ensures t in db.tasks && db.tasks[t].recordingId == r
  {
    assert Inv(db);
    assert HasTask(db, r);
    t :| t in db.tasks && db.tasks[t].recordingId == r;
  }

  function PathsOf(db: Db, some: set<Id>): set<Path> {
    set r | r in some && r in db.recordings :: db.recordings[r].path
  }

  lemma DropIsOne(db: Db, r: Id, rest: set<Id>)
    ensures DropAll(Drop(db, r), rest) == DropAll(db, {r} + rest)
  {
    DropNone(db);
    DropOneMore(db, {}, r);
    assert {} + {r} == {r};
    DropTwice(db, {r}, rest);
  }

  lemma DropMarked(db: Db, r: Id)
    requires r in MarkedIn(db)
    ensures MarkedIn(Drop(db, r)) == MarkedIn(db) - {r}
    ensures PathsOf(db, MarkedIn(db)) == {db.recordings[r].path} + PathsOf(Drop(db, r), MarkedIn(db) - {r})
  {
    assert MarkedIn(db) == {r} + (MarkedIn(db) - {r});
    forall p
      ensures p in PathsOf(db, MarkedIn(db)) <==> p in {db.recordings[r].path} + PathsOf(Drop(db, r),
              MarkedIn(db) - {r})
    {
    }
  }

  /** Finishing r and then the rest finishes all. */
  lemma OneThenRest(db: Db, disk: Disk, r: Id)
    requires r in MarkedIn(db)
    ensures var next := Drop(db, r);
      && |MarkedIn(next)| < |MarkedIn(db)|
      && DropAll(next, MarkedIn(next)) == DropAll(db, MarkedIn(db))
      && disk - {db.recordings[r].path} - PathsOf(next, MarkedIn(next)) == disk - PathsOf(db, MarkedIn(db))
  {
    var next := Drop(db, r);
    DropMarked(db, r);
    DropIsOne(db, r, MarkedIn(next));
    assert {r} + MarkedIn(next) == MarkedIn(db);
  }

  /** All marked recordings are finished, one after the other. */
  lemma {:induction false} FinishesAll(w: World, path: seq<World>, m: World)
    returns (longer: seq<World>, n: World)
    requires LeadsAlong(path, w, m) && Sound(m.db) && m.mode.Resuming? && m.deleters == map[]
    requires m.table == map[]
    ensures LeadsAlong(longer, w, n) && n == m.(db := n.db, disk := n.disk, past := n.past)
    ensures Sound(n.db) && n.db == DropAll(m.db, MarkedIn(m.db))
    ensures n.disk == m.disk - PathsOf(m.db, MarkedIn(m.db))
    decreases |MarkedIn(m.db)|
  {
    if MarkedIn(m.db) == {} {
      DropNone(m.db);
      assert m.disk - {} == m.disk && PathsOf(m.db, {}) == {};
      return path, m;
    }
    var r :| r in MarkedIn(m.db);
    var t := MarkedHasTask(m.db, r);
    var further := FinishesOne(w, path, m, r, t);
    Keeps(m.db, Purge(r), true);
    OneThenRest(m.db, m.disk, r);
    longer, n := FinishesAll(w, further, Finished(m, r, t));
  }

  /** What is still referenced once the marked recordings are gone was not the path of one of them. */
  lemma ReferencedStays(db: Db, disk: Disk)
    requires Sound(db)
    ensures var kept := DropAll(db, MarkedIn(db)); var left := disk - PathsOf(db, MarkedIn(db));
      forall p :: p in Referenced(kept) ==> (p in left <==> p in disk)
  {
    assert Inv(db);
  }

  /** From any state a crash can leave, the boot sequence can run to service: the inspection passes, every
      marked recording is deleted for good, the in-flight rows are reset, and the directory ends up with
      exactly the referenced files that were there. */
  lemma BootSucceeds(w: World, interrupt: bool, now: Time) returns (path: seq<World>, n: World, ids: seq<Id>)
    requires WorldOk(w) && w.mode.Down?
    ensures LeadsAlong(path, w, n) && n.mode.Serving?
    ensures var kept := DropAll(w.db, MarkedIn(w.db));
      && Lists(kept.tasks, ids) && n.db == Run(kept, ResetOps(ids, interrupt, now))
      && ResetLeaves(kept, interrupt, now, n.db)
      && n.disk.Keys == set p | p in w.disk && !TmpName(p) && p in Referenced(kept)
    ensures InFlightTasks(n.db.tasks) == {}
  {
    InspectionNeverFails(w.db);
    var inspecting, resuming := w.(mode := Inspecting), w.(mode := Resuming);
    path := Extend([w], w, w, Boot, inspecting);
    path := Extend(path, w, inspecting, Inspect(true), resuming);
    var finished;
    path, finished := FinishesAll(w, path, resuming);
    ReferencedStays(w.db, w.disk);
    path, n, ids := ResetsToService(w, path, finished, interrupt, now);
  }

  /** From finished deletions to service. */
  lemma ResetsToService(w: World, path: seq<World>, m: World, interrupt: bool, now: Time)
    returns (longer: seq<World>, n: World, ids: seq<Id>)
    requires LeadsAlong(path, w, m) && Sound(m.db) && m.mode.Resuming? && m.deleters == map[]
    ensures LeadsAlong(longer, w, n) && n.mode.Serving?
    ensures Lists(m.db.tasks, ids) && n.db == Run(m.db, ResetOps(ids, interrupt, now))
    ensures ResetLeaves(m.db, interrupt, now, n.db)
    ensures InFlightTasks(n.db.tasks) == {}
    ensures n.disk.Keys == set p | p in m.disk && !TmpName(p) && p in Referenced(m.db)
  {
    ids := Listed(m.db.tasks, InFlightTasks(m.db.tasks));
    BatchKeeps(m.db, ids, interrupt, now);
    ResetsLeave(m.db, ids, interrupt, now);
    var resetting := m.(mode := Resetting);
    var listing := m.(db := Run(m.db, ResetOps(ids, interrupt, now)), mode := Listing);
    longer := Extend(path, w, m, EndResume, resetting);
    longer := Extend(longer, w, resetting, ProcessStep.ResetInFlight(ids, interrupt, now, ResetDone(|ids|), true),
        listing);
    longer, n := SweepsToService(w, longer, listing);
  }

  // ---- Marked tasks and the reset ----

  /** The reset of the boot takes effect in this step. */
  predicate ResetTakesEffect(a: Action) {
    && a.Process? && a.process.ResetInFlight?
    && (a.process.reply.ResetDone? || (a.process.reply.ResetUnknown? && a.process.applied))
  }

  lemma ResetDecides(w: World, a: ProcessStep, n: World)
    requires a.ResetInFlight? && BootMoves(w, a, n)
    ensures Lists(w.db.tasks, a.ids)
    ensures n.db == if ResetTakesEffect(Process(a)) then Run(w.db, ResetOps(a.ids, a.interrupt, a.now)) else w.db
  {
  }

  lemma ResetAlters(db: Db, ids: seq<Id>, interrupt: bool, now: Time, t: Id)
    requires Lists(db.tasks, ids) && t in db.tasks
    ensures SameTask(db, Run(db, ResetOps(ids, interrupt, now)), t) <==> !InFlight(db.tasks[t].status)
    ensures InFlight(db.tasks[t].status) ==>
      && t in Run(db, ResetOps(ids, interrupt, now)).tasks
      && Run(db, ResetOps(ids, interrupt, now)).tasks[t] == ResetRow(db.tasks[t], interrupt, now)
  {
    if InFlight(db.tasks[t].status) {
      BatchIsPointwise(db, ids, interrupt, now);
    } else {
      ResetElsewhere(db, ids, interrupt, now, t);
    }
  }

  /** After the deletion mark a step alters row, products or log of a task that it does not purge exactly if it
      is a boot reset that takes effect and the row was found in flight. */
  lemma MarkedTasksExactly(w: World, a: Action, n: World, t: Id)
    requires WorldOk(w) && Taken(w, a, n) && t in w.db.tasks && !Active(w.db, w.db.tasks[t].recordingId)
    ensures t in n.db.tasks ==> (!SameTask(w.db, n.db, t) <==> ResetTakesEffect(a) && InFlight(w.db.tasks[t].status))
  {
    if a.Process? && a.process.ResetInFlight? {
      assert Step(w, a, n);
      ResetDecides(w, a.process, n);
      ResetAlters(w.db, a.process.ids, a.process.interrupt, a.process.now, t);
    } else {
      MarkedTasksStand(w, a, n, t);
    }
  }

  /** It does happen: from service with a marked recording whose task is in flight, a crash and a boot that
      could not finish the deletion lead to a reset that writes to the marked task. */
  lemma ResetReachesMarked(w: World, t: Id, now: Time) returns (path: seq<World>, n: World)
    requires WorldOk(w) && w.mode.Serving? && t in w.db.tasks && InFlight(w.db.tasks[t].status)
    requires Deleting(w.db, w.db.tasks[t].recordingId)
    ensures LeadsAlong(path, w, n) && Deleting(n.db, w.db.tasks[t].recordingId)
    ensures t in n.db.tasks && n.db.tasks[t] == ResetRow(w.db.tasks[t], false, now)
    ensures !SameTask(w.db, n.db, t)
  {
    var ids := Listed(w.db.tasks, InFlightTasks(w.db.tasks));
    BatchKeeps(w.db, ids, false, now);
    ResetAlters(w.db, ids, false, now, t);
    n := Wiped(w).(db := Run(w.db, ResetOps(ids, false, now)), mode := Listing);
    path := CrashesToReset(w);
    path := Extend(path, w, Wiped(w).(mode := Resetting),
        ProcessStep.ResetInFlight(ids, false, now, ResetDone(|ids|), true), n);
  }

  lemma CrashesToReset(w: World) returns (path: seq<World>)
    requires Sound(w.db)
    ensures LeadsAlong(path, w, Wiped(w).(mode := Resetting))
  {
    InspectionNeverFails(w.db);
    var down := Wiped(w);
    var inspecting, resuming := down.(mode := Inspecting), down.(mode := Resuming);
    path := ExtendBy([w], w, w, Process(Crash), down);
    path := Extend(path, w, down, Boot, inspecting);
    path := Extend(path, w, inspecting, Inspect(true), resuming);
    path := Extend(path, w, resuming, EndResume, down.(mode := Resetting));
  }
}
