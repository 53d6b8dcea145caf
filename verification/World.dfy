/** The whole service as one step system: the tables, the data directory, and the volatile state of one
    process with its worker rounds, uploads, deletions, cancel table and boot sequence. A crash wipes the
    volatile state only. History variables record who did what; no step depends on them except for the
    freshness of generated identifiers. */
module World {
  import opened Prelude
  import opened Lifecycle
  import opened SummaryJson
  import opened Bytes
  import opened Uuid
  import opened Tables
  import opened Backing
  import opened Invariant
  import opened BatchReset
  import opened Database

  /** Where one round of a worker stands; the comments of the steps below name the code positions. */
  datatype Pc =
    | Claiming
    | Claimed(key: Key)
    | Registered(key: Key)
    | Rechecking(key: Key, rec: Id)
    | InTranscribe(key: Key)
    | Saving(key: Key, text: string, tries: nat)
    | InSummarize(key: Key, text: string)
    | Completing(key: Key, text: string, summary: Summary, tries: nat)
    | Failing(key: Key, code: int, message: string, tries: nat)
    | Leaving(key: Key)
    | Panicked(key: Key)
    | Recovering(key: Key)

  /** An upload, indexed by the identifier its recording will get. */
  datatype Upload =
    | Receiving(tmp: Path)
    | Stored(input: NewRecording)
    | Compensating(path: Path)

  /** One run of finalize on the row it was given. */
  datatype Deleter =
    | Found(rec: Id, path: Path, of: Option<Id>)
    | Cancelling(rec: Id, path: Path, task: Id, pending: set<nat>)
    | Removing(rec: Id, path: Path)
    | Purging(rec: Id, path: Path)

  datatype Mode =
    | Down
    | Inspecting
    | Blocked
    | Resuming
    | Resetting
    | Listing
    | Sweeping(found: set<Path>, rest: set<Path>, refs: set<Path>, kept: set<Path>)
    | Serving

  /** begun: recording identifiers ever drawn; tried: those whose creation was ever attempted; owner: the
      upload every file name was generated for; recOf: the recording every task identifier was drawn for;
      claimant: the round that claimed an attempt; heard and made: what the external calls of a round
      returned, the summary together with the transcript it was made from; silenced: tasks whose
      deletion finished cancelling. */
  datatype History = History(
    begun: set<Id>,
    tried: set<Id>,
    owner: map<Path, Id>,
    recOf: map<Id, Id>,
    claimant: map<Key, nat>,
    heard: map<nat, string>,
    made: map<nat, (string, Summary)>,
    silenced: set<Id>,
    nextRound: nat)

  datatype World = World(
    digest: seq<byte> -> Hash,
    db: Db,
    disk: Disk,
    mode: Mode,
    rounds: map<nat, Pc>,
    uploads: map<Id, Upload>,
    deleters: map<nat, Deleter>,
    table: map<Key, nat>,
    cancelled: set<nat>,
    halted: bool,
    claimsOpen: bool,
    running: bool,
    past: History)

  const WRITE_TRIES := 3

  /** DELETE, manual retries and queries are answered in service, and also after a failed inspection; only
      uploads wait for readiness. */
  predicate Answering(mode: Mode) {
    mode.Serving? || mode.Blocked?
  }

  /** Deletions are under way only while requests are answered or while boot resumes them. */
  predicate Finalizing(mode: Mode) {
    Answering(mode) || mode.Resuming?
  }

  /** The boot sequence runs, in its exclusive window. */
  predicate Booting(mode: Mode) {
    mode.Inspecting? || mode.Resuming? || mode.Resetting? || mode.Listing? || mode.Sweeping?
  }

  // ---- Calls into the database, as the contracts of module Database give them ----

  ghost predicate StageCall(db: Db, op: Op, r: StageReply, f: Fault, n: Db) {
    StageOutcome(db, op, r, f) && n == Attempt(db, op, TookEffect(r, f))
  }

  // ---- Worker rounds ----

  datatype RoundStep =
    | ClaimNothing
    | Claim(task: Id, asOf: Time, now: Time, known: bool, applied: bool)
    | Register
    | ReadTask(ok: bool)
    | ReadRecording(ok: bool)
    | Hear(text: string)
    | Make(summary: Summary)
    | CallFails(code: int, message: string)
    | CallCancelled
    | Write(now: Time, reply: StageReply, fault: Fault, canceled: bool)
    | GiveUp(canceled: bool)
    | Panic
    | Unregister
    | Recover(message: string, now: Time, reply: StageReply, fault: Fault)

  function Enter(w: World, i: nat, pc: Pc): World {
    w.(rounds := w.rounds[i := pc])
  }

  function Quit(w: World, i: nat): World {
    w.(rounds := w.rounds - {i})
  }

  /** The write a round is trying to get through. */
  function PendingWrite(pc: Pc, now: Time): Op
    requires pc.Saving? || pc.Completing? || pc.Failing?
  {
    match pc
    case Saving(key, text, _) => Save(key, text, now)
    case Completing(key, _, summary, _) => Complete(key, summary, now)
    case Failing(key, code, message, _) => Fail(key, code, message, now)
  }

  function NextTry(pc: Pc): Pc
    requires pc.Saving? || pc.Completing? || pc.Failing?
  {
    match pc
    case Saving(key, text, tries) => Saving(key, text, tries + 1)
    case Completing(key, text, summary, tries) => Completing(key, text, summary, tries + 1)
    case Failing(key, code, message, tries) => Failing(key, code, message, tries + 1)
  }

  predicate UnderWay(pc: Pc) {
    !pc.Claiming? && !pc.Leaving? && !pc.Panicked? && !pc.Recovering?
  }

  /** Claiming, and everything up to the recheck. */
  ghost predicate ClaimMoves(w: World, i: nat, a: RoundStep, n: World) {
    match a
    case ClaimNothing =>
      n == Quit(w, i)
    case Claim(t, asOf, now, known, applied) =>
      && Guard(w.db, Op.Claim(t, asOf, now)) && (known ==> applied)
      && var key := Key(t, w.db.tasks[t].attempt);
      && n == w.(rounds := if known then w.rounds[i := Pc.Claimed(key)] else w.rounds - {i}, db := n.db, past := n.past)
      && n.db == (if applied then Effect(w.db, Op.Claim(t, asOf, now)) else w.db)
      && n.past == (if applied then w.past.(claimant := w.past.claimant[key := i]) else w.past)
    case _ => false
  }

  /** Register, then the two reads of the recheck; only a row still transcribing in this attempt, of a
      recording not being deleted, lets the round go on. */
  ghost predicate RecheckMoves(w: World, i: nat, pc: Pc, a: RoundStep, n: World) {
    match a
    case Register =>
      pc.Claimed? && n == Enter(w, i, Registered(pc.key)).(table := w.table[pc.key := i])
    case ReadTask(ok) =>
      && pc.Registered?
      && var t := pc.key.task;
      n == Enter(w, i, if ok && t in w.db.tasks && w.db.tasks[t].attempt == pc.key.attempt
          && w.db.tasks[t].status.Transcribing?
                       then Rechecking(pc.key, w.db.tasks[t].recordingId) else Leaving(pc.key))
    case ReadRecording(ok) =>
      pc.Rechecking? && n == Enter(w, i, if ok && Active(w.db, pc.rec) then InTranscribe(pc.key) else Leaving(pc.key))
    case _ => false
  }

  /** The external calls: any text, any valid summary, any classified error, or the cancellation of the
      task's context. */
  ghost predicate CallMoves(w: World, i: nat, pc: Pc, a: RoundStep, n: World) {
    match a
    case Hear(text) =>
      pc.InTranscribe? && n == Enter(w, i, Saving(pc.key, text, 0)).(past := w.past.(heard := w.past.heard[i := text]))
    case Make(summary) =>
      && pc.InSummarize? && Valid(summary)
      && n == Enter(w, i,
          Completing(pc.key, pc.text, summary, 0)).(past := w.past.(made := w.past.made[i := (pc.text, summary)]))
    case CallFails(code, message) =>
      && ((pc.InTranscribe? && code == ASR_FAILED) || (pc.InSummarize? && code in LLM_ERRORS))
      && n == Enter(w, i, Failing(pc.key, code, message, 0))
    case CallCancelled =>
      (pc.InTranscribe? || pc.InSummarize?) && (i in w.cancelled || !w.running) && n == Enter(w, i, Leaving(pc.key))
    case _ => false
  }

  /** One pass of the persist loop: a stale write ends the round, an error is retried, and after the last
      try the service halts unless the error was the cancellation of a stopped run. A stopped run ends the
      loop early, with the error of the interrupted wait or of the write before. `canceled` says whether the
      last error is a cancellation; the error of an unknown commit never is. */
  ghost predicate WriteMoves(w: World, i: nat, pc: Pc, a: RoundStep, n: World) {
    match a
    case Write(now, reply, fault, canceled) =>
      && (pc.Saving? || pc.Completing? || pc.Failing?)
      && StageCall(w.db, PendingWrite(pc, now), reply, fault, n.db)
      && (canceled ==> reply.DbError?)
      && var to :=
           if reply.Written? then (if pc.Saving? then InSummarize(pc.key, pc.text) else Leaving(pc.key))
           else if reply.Stale? then Leaving(pc.key)
           else if pc.tries + 1 < WRITE_TRIES then NextTry(pc)
           else Leaving(pc.key);
      && var exhausted := !reply.Written? && !reply.Stale? && pc.tries + 1 >= WRITE_TRIES;
      && n == Enter(w, i, to).(db := n.db, halted := w.halted || (exhausted && !(canceled && !w.running)))
    case GiveUp(canceled) =>
      (pc.Saving? || pc.Completing? || pc.Failing?) && pc.tries > 0 && !w.running
      && n == Enter(w, i, Leaving(pc.key)).(halted := w.halted || !canceled)
    case _ => false
  }

  /** Ways out: the deferred unregister, and after a panic one best-effort failure write. */
  ghost predicate LeaveMoves(w: World, i: nat, pc: Pc, a: RoundStep, n: World) {
    match a
    case Panic =>
      UnderWay(pc) && n == Enter(w, i, Panicked(pc.key))
    case Unregister =>
      if pc.Leaving? then n == Quit(w, i).(table := w.table - {pc.key})
      else pc.Panicked? && n == Enter(w, i, Recovering(pc.key)).(table := w.table - {pc.key})
    case Recover(message, now, reply, fault) =>
      && pc.Recovering?
      && (if w.running then StageCall(w.db, Fail(pc.key, INTERNAL_ERROR, message, now), reply, fault, n.db)
          else n.db == w.db)
      && n == Quit(w, i).(db := n.db)
    case _ => false
  }

  ghost predicate RoundMoves(w: World, i: nat, a: RoundStep, n: World) {
    && i in w.rounds
    && var pc := w.rounds[i];
    if pc.Claiming? then ClaimMoves(w, i, a, n)
    else if a.Register? || a.ReadTask? || a.ReadRecording? then RecheckMoves(w, i, pc, a, n)
    else if a.Hear? || a.Make? || a.CallFails? || a.CallCancelled? then CallMoves(w, i, pc, a, n)
    else if a.Write? || a.GiveUp? then WriteMoves(w, i, pc, a, n)
    else LeaveMoves(w, i, pc, a, n)
  }

  // ---- Uploads ----

  datatype UploadStep =
    | Open(tmp: Path)
    | Receive(chunk: seq<byte>)
    | Discard(removed: bool)
    | Rename(input: NewRecording)
    | Commit
    | CommitLost(applied: bool)
    | RollBack
    | Compensate(ok: bool)
    | Vanish

  predicate FreshName(w: World, p: Path) {
    p !in w.past.owner && p !in w.disk
  }

  /** Save: create the temporary file, append to it, remove it or rename it. */
  ghost predicate SaveMoves(w: World, r: Id, a: UploadStep, n: World) {
    match a
    case Open(tmp) =>
      && r !in w.past.begun && TmpName(tmp) && FreshName(w, tmp)
      && n == w.(disk := w.disk[tmp := []], uploads := w.uploads[r := Receiving(tmp)],
                 past := w.past.(begun := w.past.begun + {r}, owner := w.past.owner[tmp := r]))
    case Receive(chunk) =>
      && r in w.uploads && w.uploads[r].Receiving? && w.uploads[r].tmp in w.disk
      && var tmp := w.uploads[r].tmp; n == w.(disk := w.disk[tmp := w.disk[tmp] + chunk])
    case Discard(removed) =>
      && r in w.uploads && w.uploads[r].Receiving?
      && n == w.(disk := if removed then w.disk - {w.uploads[r].tmp} else w.disk, uploads := w.uploads - {r})
    case Rename(input) =>
      && r in w.uploads && w.uploads[r].Receiving? && w.uploads[r].tmp in w.disk
      && var content := w.disk[w.uploads[r].tmp];
      && content != [] && input.size == |content| && input.hash == w.digest(content)
      && input.rec == r && FinalName(input.path) && FreshName(w, input.path) && input.task !in w.past.recOf
      && n == w.(disk := (w.disk - {w.uploads[r].tmp})[input.path := content], uploads := w.uploads[r := Stored(input)],
                 past := w.past.(owner := w.past.owner[input.path := r], recOf := w.past.recOf[input.task := r]))
    case _ => false
  }

  function Tried(w: World, r: Id): World {
    w.(past := w.past.(tried := w.past.tried + {r}))
  }

  /** The creating transaction and what the service does about its outcome. */
  ghost predicate CreateMoves(w: World, r: Id, a: UploadStep, n: World) {
    && r in w.uploads
    && match a
       case Commit =>
         && w.uploads[r].Stored?
         && var input := w.uploads[r].input;
         var create := Create(input);
         var locked := WithLock(w.db, input.hash);
         n == Tried(w, r).(db := Attempt(locked, create, true),
                           uploads := if Guard(locked, create) then w.uploads - {r}
                               else w.uploads[r := Compensating(input.path)])
       case CommitLost(applied) =>
         && w.uploads[r].Stored?
         && var input := w.uploads[r].input;
         n == Tried(w, r).(db := Attempt(WithLock(w.db, input.hash), Create(input), applied),
             uploads := w.uploads - {r})
       case RollBack =>
         && w.uploads[r].Stored?
         && (n.db == w.db || n.db == WithLock(w.db, w.uploads[r].input.hash))
         && n == Tried(w, r).(db := n.db, uploads := w.uploads[r := Compensating(w.uploads[r].input.path)])
       case Compensate(ok) =>
         && w.uploads[r].Compensating?
         && n == w.(disk := if ok then w.disk - {w.uploads[r].path} else w.disk, uploads := w.uploads - {r})
       case Vanish =>
         n == w.(uploads := w.uploads - {r})
       case _ => false
  }

  // ---- Deletion ----

  datatype DeleteStep =
    | MarkDeleting(rec: Id, of: Option<Id>, now: Time, applied: bool)
    | Find(rec: Id, of: Option<Id>)
    | Collect
    | CancelOne(round: nat)
    | Silence
    | Skip
    | Remove(ok: bool)
    | PurgeRows(applied: bool)

  /** The rounds in the cancel table for any attempt of a task. */
  function RegisteredFor(table: map<Key, nat>, t: Id): set<nat> {
    set key | key in table && key.task == t :: table[key]
  }

  /** finalize on the row of a recording found marked, whether by DELETE, by the cleanup loop or by boot;
      a pass over a list of rows is a set of such runs, each waiting for its turn. */
  ghost predicate DeleteMoves(w: World, d: nat, a: DeleteStep, n: World) {
    match a
    case MarkDeleting(r, of, now, applied) =>
      && Answering(w.mode) && r in w.db.recordings
      && n == w.(db := Attempt(WithLock(w.db, w.db.recordings[r].hash), Mark(r, of, now), applied))
    case Find(r, of) =>
      && Finalizing(w.mode) && d !in w.deleters
      && Deleting(w.db, r) && (of.Some? ==> of.value in w.db.tasks && w.db.tasks[of.value].recordingId == r)
      && n == w.(deleters := w.deleters[d := Found(r, w.db.recordings[r].path, of)])
    case Collect =>
      && d in w.deleters && w.deleters[d].Found? && w.deleters[d].of.Some?
      && var t := w.deleters[d].of.value;
      n == w.(deleters := w.deleters[d := Cancelling(w.deleters[d].rec, w.deleters[d].path, t,
          RegisteredFor(w.table, t))])
    case CancelOne(i) =>
      && d in w.deleters && w.deleters[d].Cancelling? && i in w.deleters[d].pending
      && n == w.(cancelled := w.cancelled + {i},
          deleters := w.deleters[d := w.deleters[d].(pending := w.deleters[d].pending - {i})])
    case Silence =>
      && d in w.deleters && w.deleters[d].Cancelling? && w.deleters[d].pending == {}
      && n == w.(deleters := w.deleters[d := Removing(w.deleters[d].rec, w.deleters[d].path)],
                 past := w.past.(silenced := w.past.silenced + {w.deleters[d].task}))
    case Skip =>
      && d in w.deleters && w.deleters[d].Found? && w.deleters[d].of.None?
      && n == w.(deleters := w.deleters[d := Removing(w.deleters[d].rec, w.deleters[d].path)])
    case Remove(ok) =>
      && d in w.deleters && w.deleters[d].Removing?
      && n == w.(disk := if ok then w.disk - {w.deleters[d].path} else w.disk,
                 deleters := if ok then w.deleters[d := Purging(w.deleters[d].rec, w.deleters[d].path)]
                     else w.deleters - {d})
    case PurgeRows(applied) =>
      && d in w.deleters && w.deleters[d].Purging?
      && n == w.(db := Attempt(w.db, Purge(w.deleters[d].rec), applied), deleters := w.deleters - {d})
  }

  // ---- The process ----

  datatype ProcessStep =
    | Boot
    | Inspect(readOk: bool)
    | EndResume
    | ResetInFlight(ids: seq<Id>, interrupt: bool, now: Time, reply: ResetReply, applied: bool)
    | ListFiles(ok: bool)
    | Sweep(name: Path, ok: bool)
    | EndSweep
    | BeginRound
    | ManualRetry(task: Id, now: Time, applied: bool)
    | Drain
    | ForceStop
    | Crash

  function Wiped(w: World): World {
    w.(mode := Down, rounds := map[], uploads := map[], deleters := map[], table := map[], cancelled := {},
       halted := false, claimsOpen := false, running := false)
  }

  function Referenced(db: Db): set<Path> {
    ReferencedPaths(db.recordings)
  }

  /** No task without its recording, no recording in use without a task. */
  ghost predicate InspectionPasses(db: Db) {
    && (forall t :: t in db.tasks ==> db.tasks[t].recordingId in db.recordings)
    && (forall r :: Active(db, r) ==> HasTask(db, r))
  }

  ghost predicate BootMoves(w: World, a: ProcessStep, n: World) {
    match a
    case Boot =>
      w.mode.Down? && n == w.(mode := Inspecting)
    case Inspect(readOk) =>
      w.mode.Inspecting? && n == w.(mode := if readOk && InspectionPasses(w.db) then Resuming else Blocked)
    case EndResume =>
      w.mode.Resuming? && w.deleters == map[] && n == w.(mode := Resetting)
    case ResetInFlight(ids, interrupt, now, reply, applied) =>
      && w.mode.Resetting? && Lists(w.db.tasks, ids)
      && n.db == (if reply.ResetDone? || (reply.ResetUnknown? && applied) then Run(w.db, ResetOps(ids, interrupt, now))
                  else w.db)
      && n == if reply.ResetDone? then w.(db := n.db, mode := Listing) else Wiped(w).(db := n.db)
    case ListFiles(ok) =>
      && w.mode.Listing?
      && n == if ok then w.(mode := Sweeping(w.disk.Keys, w.disk.Keys, Referenced(w.db), {})) else StartServing(w)
    case Sweep(name, ok) =>
      && w.mode.Sweeping? && name in w.mode.rest
      && var keep := !TmpName(name) && name in w.mode.refs;
      n == w.(disk := if !keep && ok then w.disk - {name} else w.disk,
              mode := w.mode.(rest := w.mode.rest - {name},
                              kept := if !keep && !ok then w.mode.kept + {name} else w.mode.kept))
    case EndSweep =>
      w.mode.Sweeping? && w.mode.rest == {} && n == StartServing(w)
    case _ => false
  }

  function StartServing(w: World): World {
    w.(mode := Serving, claimsOpen := true, running := true)
  }

  ghost predicate ServiceMoves(w: World, a: ProcessStep, n: World) {
    match a
    case BeginRound =>
      && w.mode.Serving? && w.claimsOpen && !w.halted
      && n == Enter(w, w.past.nextRound, Claiming).(past := w.past.(nextRound := w.past.nextRound + 1))
    case ManualRetry(t, now, applied) =>
      Answering(w.mode) && n == w.(db := Attempt(w.db, Retry(t, now), applied))
    case Drain =>
      w.mode.Serving? && n == w.(claimsOpen := false)
    case ForceStop =>
      w.mode.Serving? && n == w.(claimsOpen := false, running := false)
    case Crash =>
      n == Wiped(w)
    case _ => false
  }

  datatype Action =
    | Round(i: nat, round: RoundStep)
    | Uploading(rec: Id, upload: UploadStep)
    | Deletion(d: nat, deletion: DeleteStep)
    | Process(process: ProcessStep)

  ghost predicate Step(w: World, a: Action, n: World) {
    match a
    case Round(i, step) => w.mode.Serving? && RoundMoves(w, i, step, n)
    case Uploading(r, step) => w.mode.Serving? && (SaveMoves(w, r, step, n) || CreateMoves(w, r, step, n))
    case Deletion(d, step) => DeleteMoves(w, d, step, n)
    case Process(step) => BootMoves(w, step, n) || ServiceMoves(w, step, n)
  }

  /** An empty database, an empty directory, no process. */
  ghost predicate Init(w: World) {
    && w.db == Db(map[], map[], map[], {}) && w.disk == map[]
    && w == Wiped(w)
    && w.past == History({}, {}, map[], map[], map[], map[], map[], {}, 0)
  }
}
