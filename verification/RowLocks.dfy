/** The inside of the transactions: hash-lock row, row locks, reads under lock and commits of many clients
    interleaved. Every step of this machine either leaves the business tables alone or is one whole
    transaction of module Tables, so what holds of whole transactions holds at lock granularity. */
module RowLocks {
  import opened Prelude
  import opened Lifecycle
  import opened SummaryJson
  import opened Tables
  import opened Invariant
  import opened Fencing

  datatype Lock = HashLock(h: Hash) | RecLock(r: Id) | TaskLock(t: Id)

  datatype UploadPc =
    | EnsureLock
    | WaitHash
    | Scan
    | Joining(rec: Id, task: Id)
    | Hit(rec: Id, task: Id, status: Status)
    | Missed

  datatype MarkPc =
    | Hint
    | EnsureMarkLock(h: Hash, of: Option<Id>)
    | WaitMarkHash(h: Hash, of: Option<Id>)
    | WaitMarkRec(h: Hash, of: Option<Id>)
    | WaitMarkTask(h: Hash, of: Option<Id>, row: Recording)
    | ReadyToMark(of: Option<Id>, row: Recording, task: Option<Task>)

  datatype PurgePc = WaitPurgeTask | WaitPurgeRec(of: Option<Id>) | ReadyToPurge(of: Option<Id>)

  datatype WritePc = WaitTask | WaitRec(row: Task) | ReadyToWrite(row: Task, rec: Recording)

  datatype Client =
    | Uploader(input: NewRecording, up: UploadPc)
    | Marker(rec: Id, now: Time, mark: MarkPc)
    | Purger(rec: Id, purge: PurgePc)
    | Writer(op: Op, write: WritePc)

  /** The committed tables, who holds which row lock, the open transactions, and the identifiers ever used. */
  datatype Locked = Locked(db: Db, holder: map<Lock, nat>, clients: map<nat, Client>, usedRecs: set<Id>,
      usedTasks: set<Id>)

  /** A move of one client: it arrives, it takes its next step (a commit may or may not take effect), or
      it is rolled back, as a deadlock victim or for any other reason. */
  datatype Move = Arrive(client: Client) | Advance(choice: Option<Id>, applied: bool) | Abort

  predicate Free(s: Locked, l: Lock, c: nat) {
    l !in s.holder || s.holder[l] == c
  }

  predicate Holds(s: Locked, l: Lock, c: nat) {
    l in s.holder && s.holder[l] == c
  }

  function Goto(s: Locked, c: nat, client: Client): Locked {
    s.(clients := s.clients[c := client])
  }

  function Take(s: Locked, c: nat, l: Lock): Locked {
    s.(holder := s.holder[l := c])
  }

  /** COMMIT or ROLLBACK: the locks go, the client is finished. */
  function Finish(s: Locked, c: nat, db: Db): Locked {
    s.(db := db, clients := s.clients - {c}, holder := map l | l in s.holder && s.holder[l] != c :: s.holder[l])
  }

  /** Claims, stage writes and retries: the transactions that lock a task row and then its recording. */
  predicate RowOp(op: Op) {
    OfWorkerOrRetry(op)
  }

  /** The part of a guard decided on the locked task row. */
  predicate RowGuard(op: Op, row: Task) {
    match op
    case Claim(_, asOf, _) => Ready(row, asOf)
    case Save(key, _, _) => row.attempt == key.attempt && row.status.Transcribing?
    case Complete(key, _, _) => row.attempt == key.attempt && row.status.Summarizing?
    case Fail(key, _, _, _) => row.attempt == key.attempt && InFlight(row.status)
    case Retry(_, _) => row.status.Failed?
    case _ => false
  }

  /** The task found for a recording by an unlocked read or by a DELETE. */
  ghost predicate FoundTask(db: Db, r: Id, of: Option<Id>) {
    && (of.Some? ==> of.value in db.tasks && db.tasks[of.value].recordingId == r)
    && (of.None? ==> forall t :: t in db.tasks ==> db.tasks[t].recordingId != r)
  }

  ghost predicate UploaderMoves(
      s: Locked, c: nat, input: NewRecording, pc: UploadPc, choice: Option<Id>, applied: bool,
      n: Locked) {
    match pc
    case EnsureLock =>
      n == Goto(s, c, Uploader(input, WaitHash)).(db := s.db.(hashLocks := s.db.hashLocks + {input.hash}))
    case WaitHash =>
      input.hash in s.db.hashLocks && Free(s, HashLock(input.hash), c)
      && n == Goto(Take(s, c, HashLock(input.hash)), c, Uploader(input, Scan))
    case Scan =>
      if choice.Some? then
        var t := choice.value;
        && Reusable(s.db, t, input.hash)
        && var r := s.db.tasks[t].recordingId;
        && Free(s, RecLock(r), c)
        && n == Goto(Take(s, c, RecLock(r)), c, Uploader(input, Joining(r, t)))
      else
        (forall t :: !Reusable(s.db, t, input.hash)) && n == Goto(s, c, Uploader(input, Missed))
    case Joining(r, t) =>
      && t in s.db.tasks && Free(s, TaskLock(t), c)
      && n == Goto(Take(s, c, TaskLock(t)), c, Uploader(input, Hit(r, t, s.db.tasks[t].status)))
    case Hit(_, _, _) =>
      n == Finish(s, c, s.db)
    case Missed =>
      n == Finish(s, c, if applied then Insert(s.db, input)
          else s.db).(usedRecs := s.usedRecs + {input.rec}, usedTasks := s.usedTasks + {input.task})
  }

  ghost predicate MarkerMoves(
      s: Locked, c: nat, r: Id, now: Time, pc: MarkPc, choice: Option<Id>, applied: bool, n: Locked) {
    match pc
    case Hint =>
      if r in s.db.recordings then
        FoundTask(s.db, r, choice) && n == Goto(s, c, Marker(r, now, EnsureMarkLock(s.db.recordings[r].hash, choice)))
      else n == Finish(s, c, s.db)
    case EnsureMarkLock(h, of) =>
      n == Goto(s, c, Marker(r, now, WaitMarkHash(h, of))).(db := s.db.(hashLocks := s.db.hashLocks + {h}))
    case WaitMarkHash(h, of) =>
      h in s.db.hashLocks && Free(s, HashLock(h), c)
          && n == Goto(Take(s, c, HashLock(h)), c, Marker(r, now, WaitMarkRec(h, of)))
    case WaitMarkRec(h, of) =>
      if r in s.db.recordings then
        Free(s, RecLock(r), c)
            && n == Goto(Take(s, c, RecLock(r)), c, Marker(r, now, WaitMarkTask(h, of, s.db.recordings[r])))
      else n == Finish(s, c, s.db)
    case WaitMarkTask(h, of, row) =>
      if of.None? then n == Goto(s, c, Marker(r, now, ReadyToMark(of, row, None)))
      else if of.value in s.db.tasks then
        Free(s, TaskLock(of.value), c)
        && n == Goto(Take(s, c, TaskLock(of.value)), c,
            Marker(r, now, ReadyToMark(of, row, Some(s.db.tasks[of.value]))))
      else n == Finish(s, c, s.db)
    case ReadyToMark(of, row, task) =>
      if row.deletingAt.Some? then n == Finish(s, c, s.db)
      else n == Finish(s, c, if applied then WriteMark(s.db, r, now, of, row, task) else s.db)
  }

  /** The marker's writes, computed from the rows it read under lock. */
  function WriteMark(db: Db, r: Id, now: Time, of: Option<Id>, row: Recording, task: Option<Task>): Db {
    var marked := db.(recordings := db.recordings[r := row.(deletingAt := Some(now), updatedAt := now)]);
    if of.Some? && task.Some? then Put(marked, of.value, MarkRow(task.value, now), MarkEvent(task.value, now))
        else marked
  }

  ghost predicate PurgerMoves(
      s: Locked, c: nat, r: Id, pc: PurgePc, choice: Option<Id>, applied: bool, n: Locked) {
    match pc
    case WaitPurgeTask =>
      && FoundTask(s.db, r, choice)
      && if choice.Some? then
           Free(s, TaskLock(choice.value), c)
               && n == Goto(Take(s, c, TaskLock(choice.value)), c, Purger(r, WaitPurgeRec(choice)))
         else n == Goto(s, c, Purger(r, WaitPurgeRec(choice)))
    case WaitPurgeRec(of) =>
      Free(s, RecLock(r), c) && n == Goto(Take(s, c, RecLock(r)), c, Purger(r, ReadyToPurge(of)))
    case ReadyToPurge(of) =>
      n == Finish(s, c, if applied then Drop(s.db, r) else s.db)
  }

  ghost predicate WriterMoves(s: Locked, c: nat, op: Op, pc: WritePc, applied: bool, n: Locked)
    requires RowOp(op)
  {
    var t := Target(op).value;
    match pc
    case WaitTask =>
      if t in s.db.tasks && op.Claim? && !Free(s, TaskLock(t), c) then n == Finish(s, c, s.db)
      else if t in s.db.tasks then
        && Free(s, TaskLock(t), c)
        && n == if RowGuard(op, s.db.tasks[t])
                then Goto(Take(s, c, TaskLock(t)), c, Writer(op, WaitRec(s.db.tasks[t])))
                else Finish(s, c, s.db)
      else n == Finish(s, c, s.db)
    case WaitRec(row) =>
      if row.recordingId in s.db.recordings then
        && Free(s, RecLock(row.recordingId), c)
        && var rec := s.db.recordings[row.recordingId];
        n == if rec.deletingAt.None?
             then Goto(Take(s, c, RecLock(row.recordingId)), c, Writer(op, ReadyToWrite(row, rec)))
             else Finish(s, c, s.db)
      else n == Finish(s, c, s.db)
    case ReadyToWrite(row, _) =>
      n == Finish(s, c, if applied then var (written, e) := Rewrite(op, row); Put(s.db, t, written, e) else s.db)
  }

  /** Arriving transactions: uploads carry identifiers nobody else uses, purges are for recordings that
      were found marked, completions carry validated summaries. */
  ghost predicate MayArrive(s: Locked, client: Client) {
    match client
    case Uploader(input, pc) =>
      && pc.EnsureLock? && Lawful(s.db, Create(input)) && input.rec !in s.usedRecs
      && input.task !in s.usedTasks
      && forall d :: d in s.clients && s.clients[d].Uploader? ==> Disjoint(s.clients[d].input, input)
    case Marker(_, _, pc) => pc.Hint?
    case Purger(r, pc) => pc.WaitPurgeTask? && r in s.usedRecs && !Active(s.db, r)
    case Writer(op, pc) => pc.WaitTask? && RowOp(op) && Lawful(s.db, op)
  }

  predicate Disjoint(a: NewRecording, b: NewRecording) {
    a.rec != b.rec && a.task != b.task && a.path != b.path
  }

  ghost predicate Step(s: Locked, c: nat, m: Move, n: Locked) {
    match m
    case Arrive(client) => c !in s.clients && MayArrive(s, client) && n == Goto(s, c, client)
    case Abort => c in s.clients && n == Finish(s, c, s.db)
    case Advance(choice, applied) =>
      && c in s.clients
      && match s.clients[c]
         case Uploader(input, pc) => UploaderMoves(s, c, input, pc, choice, applied, n)
         case Marker(r, now, pc) => MarkerMoves(s, c, r, now, pc, choice, applied, n)
         case Purger(r, pc) => PurgerMoves(s, c, r, pc, choice, applied, n)
         case Writer(op, pc) => RowOp(op) && WriterMoves(s, c, op, pc, applied, n)
  }

  // ---- What each open transaction may rely on ----

  ghost predicate UploaderKnows(s: Locked, c: nat, input: NewRecording, pc: UploadPc) {
    && Lawful(s.db, Create(input)) && input.rec !in s.usedRecs && input.task !in s.usedTasks
    && (pc.Scan? || pc.Joining? || pc.Hit? || pc.Missed? ==> Holds(s, HashLock(input.hash), c))
    && (pc.Joining? ==> && Holds(s, RecLock(pc.rec), c) && Reusable(s.db, pc.task, input.hash)
                        && s.db.tasks[pc.task].recordingId == pc.rec)
    && (pc.Hit? ==> && Holds(s, RecLock(pc.rec), c) && Holds(s, TaskLock(pc.task), c)
                    && Reusable(s.db, pc.task, input.hash)
                    && s.db.tasks[pc.task].recordingId == pc.rec && s.db.tasks[pc.task].status == pc.status)
    && (pc.Missed? ==> forall t :: !Reusable(s.db, t, input.hash))
  }

  /** A task found for a recording earlier: still its task unless gone. */
  ghost predicate StillFound(s: Locked, r: Id, of: Option<Id>) {
    && r in s.usedRecs
    && (of.Some? ==> of.value in s.usedTasks && (of.value in s.db.tasks ==> s.db.tasks[of.value].recordingId == r))
    && (of.None? ==> forall t :: t in s.db.tasks ==> s.db.tasks[t].recordingId != r)
  }

  ghost predicate MarkerKnows(s: Locked, c: nat, r: Id, pc: MarkPc) {
    match pc
    case Hint => true
    case EnsureMarkLock(_, of) => StillFound(s, r, of)
    case WaitMarkHash(_, of) => StillFound(s, r, of)
    case WaitMarkRec(_, of) => StillFound(s, r, of)
    case WaitMarkTask(_, of, row) =>
      StillFound(s, r, of) && Holds(s, RecLock(r), c) && r in s.db.recordings && s.db.recordings[r] == row
    case ReadyToMark(of, row, task) =>
      && StillFound(s, r, of) && Holds(s, RecLock(r), c) && r in s.db.recordings && s.db.recordings[r] == row
      && (of.Some? <==> task.Some?)
      && (of.Some? ==> Holds(s, TaskLock(of.value), c) && of.value in s.db.tasks && s.db.tasks[of.value] == task.value)
  }

  ghost predicate PurgerKnows(s: Locked, c: nat, r: Id, pc: PurgePc) {
    && r in s.usedRecs && !Active(s.db, r)
    && (pc.WaitPurgeRec? || pc.ReadyToPurge? ==>
        FoundTask(s.db, r, pc.of) && (pc.of.Some? ==> Holds(s, TaskLock(pc.of.value), c)))
    && (pc.ReadyToPurge? ==> Holds(s, RecLock(r), c))
  }

  ghost predicate WriterKnows(s: Locked, c: nat, op: Op, pc: WritePc) {
    && RowOp(op) && (op.Complete? ==> Valid(op.summary))
    && var t := Target(op).value;
    && (pc.WaitRec? || pc.ReadyToWrite? ==>
        Holds(s, TaskLock(t), c) && t in s.db.tasks && s.db.tasks[t] == pc.row && RowGuard(op, pc.row))
    && (pc.ReadyToWrite? ==> Holds(s, RecLock(pc.row.recordingId), c) && Active(s.db, pc.row.recordingId))
  }

  ghost predicate Knows(s: Locked, c: nat, client: Client) {
    match client
    case Uploader(input, pc) => UploaderKnows(s, c, input, pc)
    case Marker(r, _, pc) => MarkerKnows(s, c, r, pc)
    case Purger(r, pc) => PurgerKnows(s, c, r, pc)
    case Writer(op, pc) => WriterKnows(s, c, op, pc)
  }

  ghost predicate LockInv(s: Locked) {
    && Sound(s.db)
    && s.db.recordings.Keys <= s.usedRecs && s.db.tasks.Keys <= s.usedTasks
    && (forall c :: c in s.clients ==> Knows(s, c, s.clients[c]))
    && (forall c, d :: c in s.clients && d in s.clients && c != d && s.clients[c].Uploader? && s.clients[d].Uploader?
                       ==> Disjoint(s.clients[c].input, s.clients[d].input))
  }

  // ---- A move of one client as the others see it ----

  /** What a move of c leaves to everybody else: the rows it does not hold locked, every lock held by
      another, and no reusable recording for a hash it does not hold. */
  ghost predicate Frame(s: Locked, c: nat, n: Locked) {
    && s.usedRecs <= n.usedRecs && s.usedTasks <= n.usedTasks
    && (forall l, d :: d != c && Holds(s, l, d) ==> Holds(n, l, d))
    && (forall r :: r in s.db.recordings && !Holds(s, RecLock(r), c) ==>
        r in n.db.recordings && n.db.recordings[r] == s.db.recordings[r])
    && (forall t :: t in s.db.tasks && !Holds(s, TaskLock(t), c) ==> t in n.db.tasks && n.db.tasks[t] == s.db.tasks[t])
    && (forall r :: r in n.db.recordings ==>
        (r in s.db.recordings && (Active(n.db, r) ==> Active(s.db, r))
            && n.db.recordings[r].path == s.db.recordings[r].path) || AddedRec(s, c, n, r))
    && (forall t :: t in n.db.tasks ==>
        (t in s.db.tasks && n.db.tasks[t].recordingId == s.db.tasks[t].recordingId) || AddedTask(s, c, n, t))
    && (forall t, h :: Reusable(n.db, t, h) && !Reusable(s.db, t, h) ==> Holds(s, HashLock(h), c))
    && (forall t :: Live(s.db, t) ==> t in n.db.tasks && n.db.tasks[t].recordingId == s.db.tasks[t].recordingId)
  }

  predicate AddedRec(s: Locked, c: nat, n: Locked, r: Id)
    requires r in n.db.recordings
  {
    c in s.clients && s.clients[c].Uploader? && s.clients[c].input.rec == r
        && s.clients[c].input.path == n.db.recordings[r].path
    && r !in s.usedRecs && r in n.usedRecs
  }

  predicate AddedTask(s: Locked, c: nat, n: Locked, t: Id)
    requires t in n.db.tasks
  {
    c in s.clients && s.clients[c].Uploader? && s.clients[c].input.task == t
        && s.clients[c].input.rec == n.db.tasks[t].recordingId
    && t !in s.usedTasks && n.db.tasks[t].recordingId !in s.usedRecs && t in n.usedTasks
  }

  /** A move that leaves recordings and tasks alone and gives away only c's own or free locks. */
  lemma QuietFrame(s: Locked, c: nat, n: Locked)
    requires n.db.recordings == s.db.recordings && n.db.tasks == s.db.tasks
    requires s.usedRecs <= n.usedRecs && s.usedTasks <= n.usedTasks
    requires forall l, d :: d != c && Holds(s, l, d) ==> Holds(n, l, d)
    ensures Frame(s, c, n)
  {
    assert forall t, h :: Reusable(n.db, t, h) ==> Reusable(s.db, t, h);
    assert forall r :: Active(n.db, r) ==> Active(s.db, r);
  }

  lemma UploaderFrame(
      s: Locked, c: nat, input: NewRecording, pc: UploadPc, choice: Option<Id>, applied: bool,
      n: Locked)
    requires c in s.clients && s.clients[c] == Uploader(input, pc) && UploaderKnows(s, c, input, pc)
    requires UploaderMoves(s, c, input, pc, choice, applied, n)
    ensures Frame(s, c, n)
  {
    if pc.Missed? && applied {
      assert n.db == Insert(s.db, input);
    } else {
      QuietFrame(s, c, n);
    }
  }

  lemma MarkerFrame(
      s: Locked, c: nat, r: Id, now: Time, pc: MarkPc, choice: Option<Id>, applied: bool, n: Locked)
    requires c in s.clients && s.clients[c] == Marker(r, now, pc) && MarkerKnows(s, c, r, pc)
    requires MarkerMoves(s, c, r, now, pc, choice, applied, n)
    ensures Frame(s, c, n)
  {
    if pc.ReadyToMark? && pc.row.deletingAt.None? && applied {
      MarkFrame(s, c, r, now, pc, n);
    } else {
      QuietMarkFrame(s, c, r, now, pc, choice, applied, n);
    }
  }

  lemma MarkFrame(s: Locked, c: nat, r: Id, now: Time, pc: MarkPc, n: Locked)
    requires c in s.clients && pc.ReadyToMark? && MarkerKnows(s, c, r, pc)
    requires n == Finish(s, c, WriteMark(s.db, r, now, pc.of, pc.row, pc.task))
    ensures Frame(s, c, n)
  {
  }

  lemma QuietMarkFrame(
      s: Locked, c: nat, r: Id, now: Time, pc: MarkPc, choice: Option<Id>, applied: bool, n: Locked)
    requires MarkerMoves(s, c, r, now, pc, choice, applied, n)
    requires !(pc.ReadyToMark? && pc.row.deletingAt.None? && applied)
    ensures Frame(s, c, n)
  {
    QuietFrame(s, c, n);
  }

  /** A task is found for its recording by exactly one identifier. */
  lemma FoundOnly(db: Db, r: Id, of: Option<Id>, t: Id)
    requires Sound(db) && FoundTask(db, r, of) && t in db.tasks && db.tasks[t].recordingId == r
    ensures of == Some(t)
  {
    assert Inv(db);
  }

  lemma PurgerFrame(s: Locked, c: nat, r: Id, pc: PurgePc, choice: Option<Id>, applied: bool, n: Locked)
    requires Sound(s.db) && c in s.clients && s.clients[c] == Purger(r, pc) && PurgerKnows(s, c, r, pc)
    requires PurgerMoves(s, c, r, pc, choice, applied, n)
    ensures Frame(s, c, n)
  {
    if pc.ReadyToPurge? && applied {
      assert n.db == Drop(s.db, r);
      forall t | t in s.db.tasks && !Holds(s, TaskLock(t), c) ensures t in n.db.tasks {
        if s.db.tasks[t].recordingId == r { FoundOnly(s.db, r, pc.of, t); }
      }
    } else {
      QuietFrame(s, c, n);
    }
  }

  /** A move that rewrites the task row c holds locked, keeping its recording. */
  lemma RowFrame(s: Locked, c: nat, n: Locked, t: Id, row: Task)
    requires t in s.db.tasks && Holds(s, TaskLock(t), c) && row.recordingId == s.db.tasks[t].recordingId
    requires n.db.recordings == s.db.recordings && n.db.tasks == s.db.tasks[t := row]
    requires n.usedRecs == s.usedRecs && n.usedTasks == s.usedTasks
    requires forall l, d :: d != c && Holds(s, l, d) ==> Holds(n, l, d)
    ensures Frame(s, c, n)
  {
    assert forall u, h :: Reusable(n.db, u, h) ==> Reusable(s.db, u, h);
    assert forall r :: Active(n.db, r) ==> Active(s.db, r);
  }

  lemma WriterFrame(s: Locked, c: nat, op: Op, pc: WritePc, applied: bool, n: Locked)
    requires c in s.clients && s.clients[c] == Writer(op, pc) && WriterKnows(s, c, op, pc)
    requires WriterMoves(s, c, op, pc, applied, n)
    ensures Frame(s, c, n)
  {
    if pc.ReadyToWrite? && applied {
      RowFrame(s, c, n, Target(op).value, Rewrite(op, pc.row).0);
    } else {
      QuietFrame(s, c, n);
    }
  }

  lemma StepFrame(s: Locked, c: nat, m: Move, n: Locked)
    requires LockInv(s) && Step(s, c, m, n)
    ensures Frame(s, c, n)
  {
    if m.Advance? {
      assert Knows(s, c, s.clients[c]);
      match s.clients[c]
      case Uploader(input, pc) => UploaderFrame(s, c, input, pc, m.choice, m.applied, n);
      case Marker(r, now, pc) => MarkerFrame(s, c, r, now, pc, m.choice, m.applied, n);
      case Purger(r, pc) => PurgerFrame(s, c, r, pc, m.choice, m.applied, n);
      case Writer(op, pc) => WriterFrame(s, c, op, pc, m.applied, n);
    } else {
      QuietFrame(s, c, n);
    }
  }

  lemma UploaderStillKnows(s: Locked, c: nat, n: Locked, d: nat, input: NewRecording, pc: UploadPc)
    requires Frame(s, c, n) && d != c && UploaderKnows(s, d, input, pc)
    requires s.db.recordings.Keys <= s.usedRecs && s.db.tasks.Keys <= s.usedTasks
    requires input.rec !in n.usedRecs && input.task !in n.usedTasks
    requires c in s.clients && s.clients[c].Uploader? ==> Disjoint(s.clients[c].input, input)
    ensures UploaderKnows(n, d, input, pc)
  {
  }

  lemma MarkerStillKnows(s: Locked, c: nat, n: Locked, d: nat, r: Id, pc: MarkPc)
    requires Frame(s, c, n) && d != c && MarkerKnows(s, d, r, pc)
    ensures MarkerKnows(n, d, r, pc)
  {
  }

  lemma PurgerStillKnows(s: Locked, c: nat, n: Locked, d: nat, r: Id, pc: PurgePc)
    requires Frame(s, c, n) && d != c && PurgerKnows(s, d, r, pc)
    requires s.db.recordings.Keys <= s.usedRecs && s.db.tasks.Keys <= s.usedTasks
    ensures PurgerKnows(n, d, r, pc)
  {
  }

  lemma WriterStillKnows(s: Locked, c: nat, n: Locked, d: nat, op: Op, pc: WritePc)
    requires Frame(s, c, n) && d != c && WriterKnows(s, d, op, pc)
    ensures WriterKnows(n, d, op, pc)
  {
  }

  /** What a client knows survives the moves of the others. */
  lemma StillKnows(s: Locked, c: nat, n: Locked, d: nat, client: Client)
    requires Frame(s, c, n) && d != c && Knows(s, d, client)
    requires s.db.recordings.Keys <= s.usedRecs && s.db.tasks.Keys <= s.usedTasks
    requires client.Uploader? ==> client.input.rec !in n.usedRecs && client.input.task !in n.usedTasks
    requires client.Uploader? && c in s.clients && s.clients[c].Uploader? ==> Disjoint(s.clients[c].input, client.input)
    ensures Knows(n, d, client)
  {
    match client
    case Uploader(input, pc) => UploaderStillKnows(s, c, n, d, input, pc);
    case Marker(r, _, pc) => MarkerStillKnows(s, c, n, d, r, pc);
    case Purger(r, pc) => PurgerStillKnows(s, c, n, d, r, pc);
    case Writer(op, pc) => WriterStillKnows(s, c, n, d, op, pc);
  }

  // ---- Refinement ----

  /** The business tables either stay as they are or undergo one whole transaction whose guard holds on
      the tables as committed at that moment. */
  ghost predicate Atomic(db: Db, n: Db) {
    SameRows(db, n) || exists op :: LawfulCommit(db, op, n)
  }

  /** The transaction an open client runs. */
  function OpOf(client: Client): Op {
    match client
    case Uploader(input, _) => Create(input)
    case Marker(r, now, pc) => Mark(r, if pc.ReadyToMark? then pc.of else None, now)
    case Purger(r, _) => Purge(r)
    case Writer(op, _) => op
  }

  /** The whole transaction of a lawful caller. */
  ghost predicate LawfulCommit(db: Db, op: Op, n: Db) {
    Lawful(db, op) && Commits(db, op, n)
  }

  lemma UploaderCommits(
      s: Locked, c: nat, input: NewRecording, pc: UploadPc, choice: Option<Id>, applied: bool,
      n: Locked)
    requires UploaderKnows(s, c, input, pc) && UploaderMoves(s, c, input, pc, choice, applied, n)
    ensures SameRows(s.db, n.db) || LawfulCommit(s.db, Create(input), n.db)
  {
  }

  lemma MarkerCommits(
      s: Locked, c: nat, r: Id, now: Time, pc: MarkPc, choice: Option<Id>, applied: bool, n: Locked)
    requires MarkerKnows(s, c, r, pc) && MarkerMoves(s, c, r, now, pc, choice, applied, n)
    ensures SameRows(s.db, n.db) || LawfulCommit(s.db, OpOf(Marker(r, now, pc)), n.db)
  {
    if pc.ReadyToMark? && pc.row.deletingAt.None? { MarkIsAtomic(s, c, r, now, pc); }
  }

  lemma PurgerCommits(s: Locked, c: nat, r: Id, pc: PurgePc, choice: Option<Id>, applied: bool, n: Locked)
    requires PurgerKnows(s, c, r, pc) && PurgerMoves(s, c, r, pc, choice, applied, n)
    ensures SameRows(s.db, n.db) || LawfulCommit(s.db, Purge(r), n.db)
  {
  }

  lemma WriterCommits(s: Locked, c: nat, op: Op, pc: WritePc, applied: bool, n: Locked)
    requires WriterKnows(s, c, op, pc) && WriterMoves(s, c, op, pc, applied, n)
    ensures SameRows(s.db, n.db) || LawfulCommit(s.db, op, n.db)
  {
    if pc.ReadyToWrite? { WriteIsAtomic(s, c, op, pc); }
  }

  /** Whenever the business tables change, it is by the whole transaction of the client that moved: its
      guard holds on the committed tables at that moment, and what it wrote, computed from rows it read
      earlier under lock, is the effect of the transaction on them. */
  lemma CommitIsAtomic(s: Locked, c: nat, m: Move, n: Locked)
    requires LockInv(s) && Step(s, c, m, n)
    ensures SameRows(s.db, n.db) || (c in s.clients && LawfulCommit(s.db, OpOf(s.clients[c]), n.db))
  {
    if m.Advance? {
      assert Knows(s, c, s.clients[c]);
      match s.clients[c]
      case Uploader(input, pc) => UploaderCommits(s, c, input, pc, m.choice, m.applied, n);
      case Marker(r, now, pc) => MarkerCommits(s, c, r, now, pc, m.choice, m.applied, n);
      case Purger(r, pc) => PurgerCommits(s, c, r, pc, m.choice, m.applied, n);
      case Writer(op, pc) => WriterCommits(s, c, op, pc, m.applied, n);
    }
  }

  lemma MarkIsAtomic(s: Locked, c: nat, r: Id, now: Time, pc: MarkPc)
    requires MarkerKnows(s, c, r, pc) && pc.ReadyToMark? && pc.row.deletingAt.None?
    ensures Guard(s.db, Mark(r, pc.of, now))
    ensures WriteMark(s.db, r, now, pc.of, pc.row, pc.task) == Effect(s.db, Mark(r, pc.of, now))
  {
  }

  lemma WriteIsAtomic(s: Locked, c: nat, op: Op, pc: WritePc)
    requires WriterKnows(s, c, op, pc) && pc.ReadyToWrite?
    ensures Lawful(s.db, op) && Guard(s.db, op)
    ensures var (row, e) := Rewrite(op, pc.row); Put(s.db, Target(op).value, row, e) == Effect(s.db, op)
  {
  }

  /** A reused upload names the recording that is active with its content at the commit point, and no
      other recording is. */
  lemma ReuseIsCurrent(s: Locked, c: nat, input: NewRecording, pc: UploadPc)
    requires LockInv(s) && c in s.clients && s.clients[c] == Uploader(input, pc) && pc.Hit?
    ensures Active(s.db, pc.rec) && s.db.recordings[pc.rec].hash == input.hash
    ensures pc.task in s.db.tasks && s.db.tasks[pc.task].recordingId == pc.rec
    ensures s.db.tasks[pc.task].status == pc.status
    ensures forall r :: Active(s.db, r) && s.db.recordings[r].hash == input.hash ==> r == pc.rec
  {
    assert Knows(s, c, s.clients[c]);
    assert Inv(s.db);
  }

  lemma AtomicKeeps(db: Db, n: Db)
    requires Sound(db) && Atomic(db, n)
    ensures Sound(n)
  {
    if SameRows(db, n) {
      LocksDoNotMatter(db, n.hashLocks);
      assert n == db.(hashLocks := n.hashLocks);
    } else {
      var op :| LawfulCommit(db, op, n);
      Keeps(db, op, true);
    }
  }

  // ---- The invariant of the machine ----

  lemma FoundIsUsed(s: Locked, r: Id, of: Option<Id>)
    requires s.db.recordings.Keys <= s.usedRecs && s.db.tasks.Keys <= s.usedTasks
    requires FoundTask(s.db, r, of) && r in s.usedRecs
    ensures StillFound(s, r, of)
  {
  }

  lemma OwnUploader(
      s: Locked, c: nat, input: NewRecording, pc: UploadPc, choice: Option<Id>, applied: bool,
      n: Locked)
    requires UploaderKnows(s, c, input, pc) && UploaderMoves(s, c, input, pc, choice, applied, n)
    requires c in n.clients && !pc.Hit? && !pc.Missed?
    ensures n.clients[c].Uploader? && n.clients[c].input == input && Knows(n, c, n.clients[c])
  {
    assert forall t :: Reusable(n.db, t, input.hash) <==> Reusable(s.db, t, input.hash);
  }

  lemma OwnMarker(
      s: Locked, c: nat, r: Id, now: Time, pc: MarkPc, choice: Option<Id>, applied: bool, n: Locked)
    requires s.db.recordings.Keys <= s.usedRecs && s.db.tasks.Keys <= s.usedTasks
    requires MarkerKnows(s, c, r, pc) && MarkerMoves(s, c, r, now, pc, choice, applied, n) && c in n.clients
    requires !pc.ReadyToMark?
    ensures n.clients[c].Marker? && Knows(n, c, n.clients[c])
  {
    if pc.Hint? { FoundIsUsed(s, r, choice); }
  }

  lemma OwnPurger(s: Locked, c: nat, r: Id, pc: PurgePc, choice: Option<Id>, applied: bool, n: Locked)
    requires PurgerKnows(s, c, r, pc) && PurgerMoves(s, c, r, pc, choice, applied, n) && c in n.clients
    requires !pc.ReadyToPurge?
    ensures n.clients[c].Purger? && Knows(n, c, n.clients[c])
  {
  }

  lemma OwnWriter(s: Locked, c: nat, op: Op, pc: WritePc, applied: bool, n: Locked)
    requires WriterKnows(s, c, op, pc) && WriterMoves(s, c, op, pc, applied, n) && c in n.clients
    requires !pc.ReadyToWrite?
    ensures n.clients[c].Writer? && Knows(n, c, n.clients[c])
  {
  }

  lemma OwnKnows(s: Locked, c: nat, m: Move, n: Locked)
    requires LockInv(s) && Step(s, c, m, n) && c in n.clients
    ensures Knows(n, c, n.clients[c])
    ensures n.clients[c].Uploader? && m.Advance? ==>
        c in s.clients && s.clients[c].Uploader? && s.clients[c].input == n.clients[c].input
  {
    if m.Advance? {
      assert Knows(s, c, s.clients[c]);
      match s.clients[c]
      case Uploader(input, pc) => OwnUploader(s, c, input, pc, m.choice, m.applied, n);
      case Marker(r, now, pc) => OwnMarker(s, c, r, now, pc, m.choice, m.applied, n);
      case Purger(r, pc) => OwnPurger(s, c, r, pc, m.choice, m.applied, n);
      case Writer(op, pc) => OwnWriter(s, c, op, pc, m.applied, n);
    }
  }

  /** Clients other than c are the same before and after c's move. */
  ghost predicate SameOthers(s: Locked, c: nat, n: Locked) {
    forall d :: d != c ==> (d in n.clients <==> d in s.clients) && (d in n.clients ==> n.clients[d] == s.clients[d])
  }

  /** Identifiers become used only by the uploader whose creation was tried. */
  ghost predicate UsedBy(s: Locked, c: nat, n: Locked) {
    (n.usedRecs == s.usedRecs && n.usedTasks == s.usedTasks)
    || (c in s.clients && s.clients[c].Uploader? && n.usedRecs == s.usedRecs + {s.clients[c].input.rec}
        && n.usedTasks == s.usedTasks + {s.clients[c].input.task})
  }

  lemma UploaderStays(
      s: Locked, c: nat, input: NewRecording, pc: UploadPc, choice: Option<Id>, applied: bool, n: Locked)
    requires c in s.clients && s.clients[c] == Uploader(input, pc)
    requires UploaderMoves(s, c, input, pc, choice, applied, n)
    ensures SameOthers(s, c, n) && UsedBy(s, c, n)
  {
  }

  lemma MarkerStays(
      s: Locked, c: nat, r: Id, now: Time, pc: MarkPc, choice: Option<Id>, applied: bool, n: Locked)
    requires c in s.clients && MarkerMoves(s, c, r, now, pc, choice, applied, n)
    ensures SameOthers(s, c, n) && UsedBy(s, c, n)
  {
  }

  lemma PurgerStays(s: Locked, c: nat, r: Id, pc: PurgePc, choice: Option<Id>, applied: bool, n: Locked)
    requires c in s.clients && PurgerMoves(s, c, r, pc, choice, applied, n)
    ensures SameOthers(s, c, n) && UsedBy(s, c, n)
  {
  }

  lemma WriterStays(s: Locked, c: nat, op: Op, pc: WritePc, applied: bool, n: Locked)
    requires c in s.clients && RowOp(op) && WriterMoves(s, c, op, pc, applied, n)
    ensures SameOthers(s, c, n) && UsedBy(s, c, n)
  {
  }

  lemma OthersStay(s: Locked, c: nat, m: Move, n: Locked)
    requires Step(s, c, m, n)
    ensures SameOthers(s, c, n) && UsedBy(s, c, n)
    ensures c in n.clients && c !in s.clients && n.clients[c].Uploader? ==>
      forall d :: d in s.clients && s.clients[d].Uploader? ==> Disjoint(s.clients[d].input, n.clients[c].input)
  {
    if m.Advance? {
      match s.clients[c]
      case Uploader(input, pc) => UploaderStays(s, c, input, pc, m.choice, m.applied, n);
      case Marker(r, now, pc) => MarkerStays(s, c, r, now, pc, m.choice, m.applied, n);
      case Purger(r, pc) => PurgerStays(s, c, r, pc, m.choice, m.applied, n);
      case Writer(op, pc) => WriterStays(s, c, op, pc, m.applied, n);
    }
  }

  lemma UsedGrows(s: Locked, c: nat, n: Locked)
    requires s.db.recordings.Keys <= s.usedRecs && s.db.tasks.Keys <= s.usedTasks && Frame(s, c, n)
    ensures n.db.recordings.Keys <= n.usedRecs && n.db.tasks.Keys <= n.usedTasks
  {
  }

  lemma StepKeepsLockInv(s: Locked, c: nat, m: Move, n: Locked)
    requires LockInv(s) && Step(s, c, m, n)
    ensures LockInv(n)
  {
    CommitIsAtomic(s, c, m, n);
    AtomicKeeps(s.db, n.db);
    StepFrame(s, c, m, n);
    OthersStay(s, c, m, n);
    UsedGrows(s, c, n);
    forall d | d in n.clients ensures Knows(n, d, n.clients[d]) {
      if d == c { OwnKnows(s, c, m, n); } else { OtherKnows(s, c, n, d); }
    }
    if c in n.clients { OwnKnows(s, c, m, n); }
  }

  lemma OtherKnows(s: Locked, c: nat, n: Locked, d: nat)
    requires LockInv(s) && Frame(s, c, n) && SameOthers(s, c, n) && UsedBy(s, c, n) && d in n.clients && d != c
    ensures Knows(n, d, n.clients[d])
  {
    assert Knows(s, d, s.clients[d]);
    StillKnows(s, c, n, d, s.clients[d]);
  }

  /** A run at lock granularity from tables in order, with no open transaction. */
  ghost predicate IsRun(run: seq<Locked>) {
    && |run| > 0
    && Sound(run[0].db) && run[0].clients == map[] && run[0].holder == map[]
    && run[0].db.recordings.Keys <= run[0].usedRecs && run[0].db.tasks.Keys <= run[0].usedTasks
    && forall i :: 0 <= i < |run| - 1 ==> Moves(run[i], run[i + 1])
  }

  ghost predicate Moves(s: Locked, n: Locked) {
    exists c, m :: Step(s, c, m, n)
  }

  lemma {:induction false} RunKeepsLockInv(run: seq<Locked>, i: nat)
    requires IsRun(run) && i < |run|
    ensures LockInv(run[i])
  {
    if i > 0 {
      RunKeepsLockInv(run, i - 1);
      assert Moves(run[i - 1], run[i]);
      var c, m :| Step(run[i - 1], c, m, run[i]);
      StepKeepsLockInv(run[i - 1], c, m, run[i]);
    }
  }

  /** For every interleaving of uploads, deletions, purges, worker transactions, retries and rollbacks at
      lock, read, write and commit granularity: each step is one whole transaction or none, and at most
      one recording that is not being deleted exists per content hash. */
  lemma InterleavingsAreAtomic(run: seq<Locked>, i: nat)
    requires IsRun(run) && i < |run|
    ensures Sound(run[i].db)
    ensures forall r, s | Active(run[i].db, r) && Active(run[i].db, s) ::
              run[i].db.recordings[r].hash == run[i].db.recordings[s].hash ==> r == s
    ensures i + 1 < |run| ==> Atomic(run[i].db, run[i + 1].db)
  {
    RunKeepsLockInv(run, i);
    assert Inv(run[i].db);
    if i + 1 < |run| {
      assert Moves(run[i], run[i + 1]);
      var c, m :| Step(run[i], c, m, run[i + 1]);
      CommitIsAtomic(run[i], c, m, run[i + 1]);
    }
  }
}
