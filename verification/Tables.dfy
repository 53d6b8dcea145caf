/** The three business tables and the hash-lock table, and the committed effect of each transaction.
    An operation applies its effect when its guard holds on the rows it locked, and changes nothing
    otherwise; how the guards and effects are computed statement by statement is in module Database. */
module Tables {
  import opened Prelude
  import opened Lifecycle
  import opened SummaryJson

  type Path = string
  type Hash = string

  datatype Recording = Recording(
    filename: string,
    path: Path,
    extension: string,
    size: nat,
    hash: Hash,
    deletingAt: Option<Time>,
    createdAt: Time,
    updatedAt: Time)

  datatype Task = Task(
    recordingId: Id,
    status: Status,
    attempt: int,
    eventSeq: int,
    transcript: string,
    summary: Option<Json>,
    errorCode: Option<int>,
    errorMessage: string,
    createdAt: Time,
    updatedAt: Time,
    startedAt: Option<Time>,
    finishedAt: Option<Time>,
    nextRetryAt: Option<Time>)

  /** UNIQUE (task_id, event_seq) of the event table. */
  datatype EventKey = EventKey(task: Id, seqNo: int)

  datatype Db = Db(
    recordings: map<Id, Recording>,
    tasks: map<Id, Task>,
    events: map<EventKey, Event>,
    hashLocks: set<Hash>)

  /** The rows an upload prepares before its transaction. */
  datatype NewRecording = NewRecording(
    rec: Id, task: Id, filename: string, path: Path, extension: string, size: nat, hash: Hash, now: Time)

  datatype Op =
    | Create(input: NewRecording)
    | Claim(task: Id, asOf: Time, now: Time)
    | Save(key: Key, transcript: string, now: Time)
    | Complete(key: Key, summary: Summary, now: Time)
    | Fail(key: Key, code: int, message: string, now: Time)
    | Retry(task: Id, now: Time)
    | Mark(rec: Id, of: Option<Id>, now: Time)
    | Purge(rec: Id)
    | Reset(task: Id, interrupt: bool, now: Time)

  predicate Active(db: Db, r: Id) {
    r in db.recordings && db.recordings[r].deletingAt.None?
  }

  predicate Deleting(db: Db, r: Id) {
    r in db.recordings && db.recordings[r].deletingAt.Some?
  }

  /** The task's row and its recording's row both exist and the recording is not being deleted. */
  predicate Live(db: Db, t: Id) {
    t in db.tasks && Active(db, db.tasks[t].recordingId)
  }

  /** t is a task of an active recording with content hash h: what the upload transaction looks for. */
  predicate Reusable(db: Db, t: Id, h: Hash) {
    Live(db, t) && db.recordings[db.tasks[t].recordingId].hash == h
  }

  predicate Ready(task: Task, asOf: Time) {
    task.status.Pending? && (task.nextRetryAt.None? || task.nextRetryAt.value <= asOf)
  }

  ghost predicate Guard(db: Db, op: Op) {
    match op
    case Create(input) => forall t :: !Reusable(db, t, input.hash)
    case Claim(t, asOf, _) => Live(db, t) && Ready(db.tasks[t], asOf)
    case Save(key, _, _) => Live(db, key.task) && db.tasks[key.task].attempt == key.attempt
        && db.tasks[key.task].status.Transcribing?
    case Complete(key, _, _) => Live(db, key.task) && db.tasks[key.task].attempt == key.attempt
        && db.tasks[key.task].status.Summarizing?
    case Fail(key, _, _, _) => Live(db, key.task) && db.tasks[key.task].attempt == key.attempt
        && InFlight(db.tasks[key.task].status)
    case Retry(t, _) => Live(db, t) && db.tasks[t].status.Failed?
    case Mark(r, of, _) =>
      && Active(db, r)
      && (of.Some? ==> of.value in db.tasks && db.tasks[of.value].recordingId == r)
      && (of.None? ==> forall t :: t in db.tasks ==> db.tasks[t].recordingId != r)
    case Purge(_) => true
    case Reset(t, _, _) => t in db.tasks && InFlight(db.tasks[t].status)
  }

  // ---- The rows each transaction writes ----

  function NewTask(input: NewRecording): Task {
    Task(input.rec, Pending, 1, 1, "", None, None, "", input.now, input.now, None, None, None)
  }

  function NewRow(input: NewRecording): Recording {
    Recording(input.filename, input.path, input.extension, input.size, input.hash, None, input.now, input.now)
  }

  function CreatedEvent(input: NewRecording): Event {
    Event(input.rec, 1, TaskCreated, input.now, Info, None, Pending, None, None, "", NoDetails)
  }

  function ClaimRow(task: Task, now: Time): Task {
    task.(status := Transcribing, nextRetryAt := None, errorCode := None, errorMessage := "",
          eventSeq := task.eventSeq + 1, updatedAt := now, startedAt := Some(now))
  }

  function ClaimEvent(task: Task, now: Time): Event {
    Event(task.recordingId, task.attempt, TaskClaimed, now, Info, Some(Pending), Transcribing, Some(Transcribing),
        None, "", NoDetails)
  }

  function SaveRow(task: Task, transcript: string, now: Time): Task {
    task.(status := Summarizing, transcript := transcript, eventSeq := task.eventSeq + 1, updatedAt := now)
  }

  function SaveEvent(task: Task, now: Time): Event {
    Event(task.recordingId, task.attempt, TranscriptionCompleted, now, Info, Some(Transcribing), Summarizing,
        Some(Transcribing), None, "", NoDetails)
  }

  function CompleteRow(task: Task, summary: Summary, now: Time): Task {
    task.(status := Done, summary := Some(Encode(summary)), eventSeq := task.eventSeq + 1, updatedAt := now,
        finishedAt := Some(now))
  }

  function CompleteEvent(task: Task, now: Time): Event {
    Event(task.recordingId, task.attempt, TaskCompleted, now, Info, Some(Summarizing), Done, Some(Summarizing),
        None, "", NoDetails)
  }

  /** The first two attempts go back to pending with a backoff, any later one ends in failed. */
  function FailRow(task: Task, code: int, message: string, now: Time): Task {
    var auto := task.attempt < AUTO_ATTEMPTS;
    task.(status := if auto then Pending else Failed,
          attempt := if auto then task.attempt + 1 else task.attempt,
          errorCode := Some(code), errorMessage := message,
          nextRetryAt := if auto then Some(now + RetryDelayMs(task.attempt)) else None,
          transcript := "", summary := None, eventSeq := task.eventSeq + 1, updatedAt := now,
          finishedAt := if auto then None else Some(now))
  }

  function FailEvent(task: Task, code: int, message: string, now: Time): Event {
    var auto := task.attempt < AUTO_ATTEMPTS;
    Event(task.recordingId, task.attempt,
          if auto then TaskAutoRetryScheduled else TaskFailed, now, if auto then Warn else Error,
          Some(task.status), if auto then Pending else Failed, Some(task.status), Some(code), message,
          if auto then RetryAfter(task.attempt + 1, RetryDelayMs(task.attempt)) else NoDetails)
  }

  function RetryRow(task: Task, now: Time): Task {
    task.(status := Pending, attempt := task.attempt + 1, transcript := "", summary := None, errorCode := None,
          errorMessage := "", startedAt := None, finishedAt := None, nextRetryAt := None,
          eventSeq := task.eventSeq + 1, updatedAt := now)
  }

  function RetryEvent(task: Task, now: Time): Event {
    Event(task.recordingId, task.attempt + 1, TaskRetryAccepted, now, Info, Some(Failed), Pending, None, None, "",
        NoDetails)
  }

  function MarkRow(task: Task, now: Time): Task {
    task.(eventSeq := task.eventSeq + 1, updatedAt := now)
  }

  function MarkEvent(task: Task, now: Time): Event {
    Event(task.recordingId, task.attempt, TaskDeleteRequested, now, Info, Some(task.status), task.status, None,
        None, "", NoDetails)
  }

  function ResetRow(task: Task, interrupt: bool, now: Time): Task {
    if interrupt then
      task.(status := Failed, eventSeq := task.eventSeq + 1, updatedAt := now,
            errorCode := Some(SERVICE_INTERRUPTED), errorMessage := INTERRUPTED_MESSAGE, finishedAt := Some(now))
    else
      task.(status := Pending, eventSeq := task.eventSeq + 1, updatedAt := now, attempt := task.attempt + 1,
            transcript := "", summary := None, errorCode := None, errorMessage := "",
            startedAt := None, finishedAt := None)
  }

  function ResetEvent(task: Task, interrupt: bool, now: Time): Event {
    var details := Previous(task.attempt, task.status);
    if interrupt then
      Event(task.recordingId, task.attempt, TaskInterrupted, now, Warn, Some(task.status), Failed, None,
          Some(SERVICE_INTERRUPTED), INTERRUPTED_MESSAGE, details)
    else
      Event(task.recordingId, task.attempt + 1, TaskRecovered, now, Info, Some(task.status), Pending, None, None,
          "", details)
  }

  /** The task whose row and log an operation rewrites, if it rewrites one that exists already. */
  function Target(op: Op): Option<Id> {
    match op
    case Claim(t, _, _) => Some(t)
    case Save(key, _, _) => Some(key.task)
    case Complete(key, _, _) => Some(key.task)
    case Fail(key, _, _, _) => Some(key.task)
    case Retry(t, _) => Some(t)
    case Mark(_, of, _) => of
    case Reset(t, _, _) => Some(t)
    case Create(_) => None
    case Purge(_) => None
  }

  /** The new row and the event of an operation on the task row it locked. */
  function Rewrite(op: Op, task: Task): (Task, Event)
    requires Target(op).Some?
  {
    match op
    case Claim(_, _, now) => (ClaimRow(task, now), ClaimEvent(task, now))
    case Save(_, transcript, now) => (SaveRow(task, transcript, now), SaveEvent(task, now))
    case Complete(_, summary, now) => (CompleteRow(task, summary, now), CompleteEvent(task, now))
    case Fail(_, code, message, now) => (FailRow(task, code, message, now), FailEvent(task, code, message, now))
    case Retry(_, now) => (RetryRow(task, now), RetryEvent(task, now))
    case Mark(_, _, now) => (MarkRow(task, now), MarkEvent(task, now))
    case Reset(_, interrupt, now) => (ResetRow(task, interrupt, now), ResetEvent(task, interrupt, now))
  }

  /** Replace a task row and append the event numbered by the new row. */
  function Put(db: Db, t: Id, row: Task, event: Event): Db {
    db.(tasks := db.tasks[t := row], events := db.events[EventKey(t, row.eventSeq) := event])
  }

  function Insert(db: Db, input: NewRecording): Db {
    db.(recordings := db.recordings[input.rec := NewRow(input)],
        tasks := db.tasks[input.task := NewTask(input)],
        events := db.events[EventKey(input.task, 1) := CreatedEvent(input)])
  }

  function MarkRecording(db: Db, r: Id, now: Time): Db
    requires r in db.recordings
  {
    db.(recordings := db.recordings[r := db.recordings[r].(deletingAt := Some(now), updatedAt := now)])
  }

  /** Delete the rows of one recording from the three tables; hash locks stay. */
  function Drop(db: Db, r: Id): Db {
    db.(events := map k | k in db.events && db.events[k].recordingId != r :: db.events[k],
        tasks := map t | t in db.tasks && db.tasks[t].recordingId != r :: db.tasks[t],
        recordings := db.recordings - {r})
  }

  /** The rows of all the recordings in `gone` removed from the three tables. */
  function DropAll(db: Db, gone: set<Id>): Db {
    db.(events := map k | k in db.events && db.events[k].recordingId !in gone :: db.events[k],
        tasks := map t | t in db.tasks && db.tasks[t].recordingId !in gone :: db.tasks[t],
        recordings := db.recordings - gone)
  }

  /** The recordings marked for deletion. */
  function MarkedIn(db: Db): set<Id> {
    set r | r in db.recordings && db.recordings[r].deletingAt.Some?
  }

  lemma DropNone(db: Db)
    ensures DropAll(db, {}) == db
  {
    assert db.recordings - {} == db.recordings;
    assert (map t | t in db.tasks && db.tasks[t].recordingId !in {} :: db.tasks[t]) == db.tasks;
    assert (map k | k in db.events && db.events[k].recordingId !in {} :: db.events[k]) == db.events;
  }

  lemma DropOneMore(db: Db, gone: set<Id>, r: Id)
    ensures Drop(DropAll(db, gone), r) == DropAll(db, gone + {r})
  {
    var a, b := Drop(DropAll(db, gone), r), DropAll(db, gone + {r});
    assert a.recordings == b.recordings;
    assert a.tasks == b.tasks;
    assert a.events == b.events;
  }

  lemma DropTwice(db: Db, a: set<Id>, b: set<Id>)
    ensures DropAll(DropAll(db, a), b) == DropAll(db, a + b)
  {
    var x, y := DropAll(DropAll(db, a), b), DropAll(db, a + b);
    assert x.recordings == y.recordings;
    assert x.tasks == y.tasks;
    assert x.events == y.events;
  }

  /** The committed effect of a transaction whose guard held; a row that is not there is not rewritten. */
  function Effect(db: Db, op: Op): Db {
    match op
    case Create(input) => Insert(db, input)
    case Purge(r) => Drop(db, r)
    case Mark(r, of, now) =>
      if r !in db.recordings then db
      else if of.None? then MarkRecording(db, r, now)
      else RewriteIn(MarkRecording(db, r, now), op, of.value)
    case _ => RewriteIn(db, op, Target(op).value)
  }

  function RewriteIn(db: Db, op: Op, t: Id): Db
    requires Target(op).Some?
  {
    if t !in db.tasks then db
    else var (row, event) := Rewrite(op, db.tasks[t]); Put(db, t, row, event)
  }

  /** One transaction whose commit either took effect or did not. */
  ghost function Attempt(db: Db, op: Op, applied: bool): Db {
    if applied && Guard(db, op) then Effect(db, op) else db
  }

  /** The transaction takes effect, its guard holding on the tables it finds. */
  ghost predicate Commits(db: Db, op: Op, n: Db) {
    Guard(db, op) && n == Effect(db, op)
  }

  /** The business tables are the same; the hash-lock table may differ. */
  ghost predicate SameRows(db: Db, n: Db) {
    n.recordings == db.recordings && n.tasks == db.tasks && n.events == db.events
  }

  /** The state once the hash-lock row exists, which is committed by a statement of its own. */
  function WithLock(db: Db, h: Hash): Db {
    db.(hashLocks := db.hashLocks + {h})
  }

  /** Transactions run one after the other, as between two observations of the same row. */
  ghost function Run(db: Db, ops: seq<Op>): Db
    decreases |ops|
  {
    if ops == [] then db else Run(Attempt(db, ops[0], true), ops[1..])
  }

  /** Position of a row in its life: attempts first, then how far the attempt has come. */
  function Rank(s: Status): int {
    match s
    case Pending => 0
    case Transcribing => 1
    case Summarizing => 2
    case Done => 3
    case Failed => 4
  }

  function Progress(task: Task): int {
    5 * task.attempt + Rank(task.status)
  }
}
