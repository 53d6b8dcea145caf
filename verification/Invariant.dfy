/** What every transaction keeps: the tables stay linked, every row is the replay of its event log, rows
    have the shape their status promises, and at most one active recording exists per content hash. */
module Invariant {
  import opened Prelude
  import opened Lifecycle
  import opened SummaryJson
  import opened Tables
  import opened EventLog

  /** The first n events of a task, in sequence order. */
  function Log(events: map<EventKey, Event>, t: Id, n: int): seq<Event>
    decreases n
  {
    if n <= 0 || EventKey(t, n) !in events then []
    else Log(events, t, n - 1) + [events[EventKey(t, n)]]
  }

  /** The part of a row that its log determines. */
  function HeadOf(task: Task, deleting: bool): Head {
    Head(task.recordingId, task.status, task.attempt, task.eventSeq, task.errorCode, task.errorMessage,
         task.createdAt, task.updatedAt, task.startedAt, task.finishedAt, task.nextRetryAt, deleting)
  }

  /** The shape of a row in each status. */
  predicate Shape(task: Task) {
    && task.attempt >= 1 && task.eventSeq >= 1
    && (task.finishedAt.Some? <==> task.status.Done? || task.status.Failed?)
    && (task.startedAt.None? ==> task.status.Pending?)
    && (task.nextRetryAt.Some? ==> task.status.Pending?)
    && (task.status.Pending? ==> task.transcript == "" && (task.errorCode.Some? <==> task.nextRetryAt.Some?))
    && (task.status.Transcribing? ==> task.transcript == "")
    && (InFlight(task.status) || task.status.Done? ==> task.errorCode.None? && task.errorMessage == "")
    && (task.status.Failed? ==> task.errorCode.Some?)
    && (task.summary.Some? <==> task.status.Done?)
  }

  /** Every recording has exactly one task and every task has its recording. */
  ghost predicate Linked(db: Db) {
    && (forall t :: t in db.tasks ==> db.tasks[t].recordingId in db.recordings)
    && (forall t, u :: t in db.tasks && u in db.tasks && db.tasks[t].recordingId == db.tasks[u].recordingId ==> t == u)
    && (forall r :: r in db.recordings ==> HasTask(db, r))
  }

  ghost predicate HasTask(db: Db, r: Id) {
    exists t :: t in db.tasks && db.tasks[t].recordingId == r
  }

  /** The events stored for a task carry exactly the numbers 1 up to its event_seq. */
  ghost predicate Keyed(db: Db) {
    && (forall k :: k in db.events ==> k.task in db.tasks && 1 <= k.seqNo <= db.tasks[k.task].eventSeq
                                       && db.events[k].recordingId == db.tasks[k.task].recordingId)
    && (forall t, n :: t in db.tasks && 1 <= n <= db.tasks[t].eventSeq ==> EventKey(t, n) in db.events)
  }

  /** Says how the log of a task and the rest of its row relate. */
  type LogRelation = (seq<Event>, Head) -> bool

  const REPLAYS: LogRelation := (log: seq<Event>, head: Head) => Replay(log) == Some(head)

  function LogOf(db: Db, t: Id): seq<Event>
    requires t in db.tasks
  {
    Log(db.events, t, db.tasks[t].eventSeq)
  }

  ghost predicate LoggedAt(db: Db, t: Id, says: LogRelation)
    requires t in db.tasks
  {
    says(LogOf(db, t), HeadOf(db.tasks[t], Deleting(db, db.tasks[t].recordingId)))
  }

  ghost predicate LoggedBy(db: Db, says: LogRelation) {
    forall t {:trigger LoggedAt(db, t, says)} :: t in db.tasks ==> LoggedAt(db, t, says)
  }

  /** Every row is the replay of its log. */
  ghost predicate Logged(db: Db) {
    LoggedBy(db, REPLAYS)
  }

  ghost predicate Shaped(db: Db) {
    forall t :: t in db.tasks ==> Shape(db.tasks[t])
  }

  /** A stored summary can be read back by the strict validation that wrote it. */
  predicate Readable(task: Task) {
    task.summary.Some? ==> Parse(task.summary.value).Ok?
  }

  ghost predicate Parsed(db: Db) {
    forall t {:trigger Readable(db.tasks[t])} :: t in db.tasks ==> Readable(db.tasks[t])
  }

  /** At most one recording that is not being deleted per content hash, and no path shared by two. */
  ghost predicate Unique(db: Db) {
    && (forall r, s :: Active(db, r) && Active(db, s) && db.recordings[r].hash == db.recordings[s].hash ==> r == s)
    && (forall r, s | r in db.recordings && s in db.recordings ::
          db.recordings[r].path == db.recordings[s].path ==> r == s)
  }

  ghost predicate Inv(db: Db) {
    Linked(db) && Keyed(db) && Logged(db) && Shaped(db) && Parsed(db) && Unique(db)
  }

  /** Inv kept folded: it unfolds only in proofs that mention Inv itself. */
  ghost predicate Sound(db: Db) {
    forall d {:trigger Inv(d)} :: d == db ==> Inv(d)
  }

  /** What callers of the transactions provide: fresh identifiers and paths on creation, and validated
      model output on completion. */
  ghost predicate Lawful(db: Db, op: Op) {
    match op
    case Create(input) =>
      && input.rec !in db.recordings && input.task !in db.tasks
      && forall r :: r in db.recordings ==> db.recordings[r].path != input.path
    case Complete(_, summary, _) => Valid(summary)
    case _ => true
  }

  // ---- Logs under insertion and deletion of events ----

  lemma {:induction false} LogFrame(a: map<EventKey, Event>, b: map<EventKey, Event>, t: Id, n: int)
    requires forall k :: 1 <= k <= n ==>
        EventKey(t, k) in a && EventKey(t, k) in b && a[EventKey(t, k)] == b[EventKey(t, k)]
    ensures Log(a, t, n) == Log(b, t, n)
    decreases n
  {
    if n > 0 {
      LogFrame(a, b, t, n - 1);
      assert EventKey(t, n) in a && EventKey(t, n) in b;
    }
  }

  lemma {:induction false} LogShape(events: map<EventKey, Event>, t: Id, n: int)
    requires n >= 0 && forall k :: 1 <= k <= n ==> EventKey(t, k) in events
    ensures |Log(events, t, n)| == n
    ensures forall k :: 1 <= k <= n ==> Log(events, t, n)[k - 1] == events[EventKey(t, k)]
  {
    if n > 0 {
      LogShape(events, t, n - 1);
      assert EventKey(t, n) in events;
    }
  }

  // ---- One row rewritten, its event appended ----

  /** The recordings table differs from the old one at most in the deletion mark of recording r. */
  ghost predicate MarkedAtMost(before: map<Id, Recording>, after: map<Id, Recording>, r: Id) {
    && before.Keys == after.Keys
    && (forall s :: s in before && s != r ==> before[s] == after[s])
    && (r in before ==>
          && before[r].hash == after[r].hash && before[r].path == after[r].path
          && (before[r].deletingAt.Some? ==> after[r].deletingAt.Some?))
  }

  /** t's row is replaced by one of the same recording with the next sequence number, event e is
      appended, and at most that recording's deletion mark changes. */
  ghost predicate Rewritten(db: Db, n: Db, t: Id, row: Task, e: Event) {
    && t in db.tasks
    && MarkedAtMost(db.recordings, n.recordings, row.recordingId)
    && row.recordingId == e.recordingId == db.tasks[t].recordingId
    && row.eventSeq == db.tasks[t].eventSeq + 1
    && n.tasks == db.tasks[t := row]
    && n.events == db.events[EventKey(t, row.eventSeq) := e]
  }

  lemma RewriteLinked(db: Db, n: Db, t: Id, row: Task, e: Event)
    requires Linked(db) && Rewritten(db, n, t, row, e)
    ensures Linked(n)
  {
    assert forall s :: s in db.tasks ==> n.tasks[s].recordingId == db.tasks[s].recordingId;
    forall r | r in n.recordings ensures HasTask(n, r) {
      assert HasTask(db, r);
      var u :| u in db.tasks && db.tasks[u].recordingId == r;
      assert n.tasks[u].recordingId == r;
    }
  }

  lemma RewriteKeyed(db: Db, n: Db, t: Id, row: Task, e: Event)
    requires Keyed(db) && Rewritten(db, n, t, row, e) && row.eventSeq >= 1
    ensures Keyed(n)
  {
    forall u, k | u in n.tasks && 1 <= k <= n.tasks[u].eventSeq ensures EventKey(u, k) in n.events {
      if u != t || k < row.eventSeq {
        assert EventKey(u, k) in db.events;
      }
    }
  }

  lemma SameLog(db: Db, n: Db, t: Id, row: Task, e: Event, u: Id)
    requires Keyed(db) && Rewritten(db, n, t, row, e) && u in n.tasks && row.eventSeq >= 1
    ensures u in db.tasks
    ensures LogOf(n, u) == if u == t then LogOf(db, u) + [e] else LogOf(db, u)
  {
    forall k | 1 <= k <= db.tasks[u].eventSeq
      ensures EventKey(u, k) in db.events && EventKey(u, k) in n.events
      ensures db.events[EventKey(u, k)] == n.events[EventKey(u, k)]
    {
    }
    LogFrame(db.events, n.events, u, db.tasks[u].eventSeq);
    if u == t {
      assert Log(n.events, t, row.eventSeq) == Log(n.events, t, row.eventSeq - 1) + [e];
    }
  }

  lemma RewriteLoggedAt(db: Db, n: Db, t: Id, row: Task, e: Event, says: LogRelation, u: Id)
    requires Keyed(db) && Rewritten(db, n, t, row, e) && row.eventSeq >= 1
    requires u in db.tasks && LoggedAt(db, u, says)
    requires u != t ==> db.tasks[u].recordingId != row.recordingId
    requires says(LogOf(db, t) + [e], HeadOf(row, Deleting(n, row.recordingId)))
    ensures LoggedAt(n, u, says)
  {
    SameLog(db, n, t, row, e, u);
  }

  lemma RewriteLogged(db: Db, n: Db, t: Id, row: Task, e: Event, says: LogRelation)
    requires Linked(db) && Keyed(db) && LoggedBy(db, says) && Rewritten(db, n, t, row, e) && row.eventSeq >= 1
    requires says(LogOf(db, t) + [e], HeadOf(row, Deleting(n, row.recordingId)))
    ensures LoggedBy(n, says)
  {
    forall u | u in n.tasks ensures LoggedAt(n, u, says) {
      assert LoggedAt(db, u, says);
      RewriteLoggedAt(db, n, t, row, e, says, u);
    }
  }

  lemma RewriteParsed(db: Db, n: Db, t: Id, row: Task, e: Event)
    requires Parsed(db) && Rewritten(db, n, t, row, e) && (Readable(db.tasks[t]) ==> Readable(row))
    ensures Parsed(n)
  {
    forall u | u in n.tasks ensures Readable(n.tasks[u]) {
      assert Readable(db.tasks[u]);
    }
  }

  lemma RewriteUnique(db: Db, n: Db, t: Id, row: Task, e: Event)
    requires Unique(db) && Rewritten(db, n, t, row, e)
    ensures Unique(n)
  {
    assert forall r :: Active(n, r) ==> Active(db, r);
  }

  lemma RewriteKeeps(db: Db, n: Db, t: Id, row: Task, e: Event)
    requires Inv(db) && Rewritten(db, n, t, row, e) && Shape(row)
    requires Readable(db.tasks[t]) ==> Readable(row)
    requires REPLAYS(LogOf(db, t) + [e], HeadOf(row, Deleting(n, row.recordingId)))
    ensures Inv(n)
  {
    RewriteLinked(db, n, t, row, e);
    RewriteKeyed(db, n, t, row, e);
    RewriteLogged(db, n, t, row, e, REPLAYS);
    RewriteParsed(db, n, t, row, e);
    RewriteUnique(db, n, t, row, e);
  }

  // ---- The automaton accepts what each transaction writes ----

  ghost predicate Accepted(op: Op, task: Task, deleting: bool)
    requires Target(op).Some?
  {
    var (row, e) := Rewrite(op, task);
    && row.recordingId == e.recordingId == task.recordingId
    && row.eventSeq == task.eventSeq + 1
    && Apply(HeadOf(task, deleting), e) == Some(HeadOf(row, op.Mark? || deleting))
    && Shape(row)
    && (Readable(task) ==> Readable(row))
  }

  lemma ClaimAccepted(op: Op, task: Task)
    requires Shape(task) && op.Claim? && task.status.Pending?
    ensures Accepted(op, task, false)
  {
  }

  lemma SaveAccepted(op: Op, task: Task)
    requires Shape(task) && op.Save? && task.status.Transcribing?
    ensures Accepted(op, task, false)
  {
  }

  lemma CompleteAccepted(op: Op, task: Task)
    requires Shape(task) && op.Complete? && task.status.Summarizing? && Valid(op.summary)
    ensures Accepted(op, task, false)
  {
    RoundTrip(op.summary);
  }

  lemma FailAccepted(op: Op, task: Task)
    requires Shape(task) && op.Fail? && InFlight(task.status)
    ensures Accepted(op, task, false)
  {
  }

  lemma RetryAccepted(op: Op, task: Task)
    requires Shape(task) && op.Retry? && task.status.Failed?
    ensures Accepted(op, task, false)
  {
  }

  lemma MarkAccepted(op: Op, task: Task)
    requires Shape(task) && op.Mark? && op.of.Some?
    ensures Accepted(op, task, false)
  {
  }

  /** Boot recovery does not look at the deletion mark, and the automaton lets it not to. */
  lemma ResetAccepted(op: Op, task: Task, deleting: bool)
    requires Shape(task) && op.Reset? && InFlight(task.status)
    ensures Accepted(op, task, deleting)
  {
  }

  lemma GuardedAccepted(db: Db, op: Op, t: Id)
    requires Shaped(db) && Lawful(db, op) && Target(op) == Some(t) && Guard(db, op)
    ensures t in db.tasks && Accepted(op, db.tasks[t], Deleting(db, db.tasks[t].recordingId))
  {
    var task := db.tasks[t];
    assert Shape(task);
    match op
    case Claim(_, _, _) => ClaimAccepted(op, task);
    case Save(_, _, _) => SaveAccepted(op, task);
    case Complete(_, _, _) => CompleteAccepted(op, task);
    case Fail(_, _, _, _) => FailAccepted(op, task);
    case Retry(_, _) => RetryAccepted(op, task);
    case Mark(_, _, _) => MarkAccepted(op, task);
    case Reset(_, _, _) => ResetAccepted(op, task, Deleting(db, task.recordingId));
  }

  // ---- Creation ----

  lemma CreateLinked(db: Db, input: NewRecording)
    requires Linked(db) && Lawful(db, Create(input))
    ensures Linked(Insert(db, input))
  {
    var n := Insert(db, input);
    forall r | r in n.recordings ensures HasTask(n, r) {
      if r == input.rec {
        assert n.tasks[input.task].recordingId == r;
      } else {
        assert HasTask(db, r);
        var u :| u in db.tasks && db.tasks[u].recordingId == r;
        assert n.tasks[u].recordingId == r;
      }
    }
  }

  lemma CreateShaped(db: Db, input: NewRecording)
    requires Shaped(db) && Parsed(db) && Lawful(db, Create(input))
    ensures Shaped(Insert(db, input)) && Parsed(Insert(db, input))
  {
    var n := Insert(db, input);
    forall u | u in n.tasks ensures Readable(n.tasks[u]) {
      if u != input.task { assert Readable(db.tasks[u]); }
    }
  }

  lemma CreateKeyed(db: Db, input: NewRecording)
    requires Keyed(db) && Lawful(db, Create(input))
    ensures Keyed(Insert(db, input))
  {
    var n := Insert(db, input);
    forall u, k | u in n.tasks && 1 <= k <= n.tasks[u].eventSeq ensures EventKey(u, k) in n.events {
      if u != input.task {
        assert EventKey(u, k) in db.events;
      }
    }
  }

  lemma CreateLogged(db: Db, input: NewRecording, says: LogRelation)
    requires Linked(db) && Keyed(db) && LoggedBy(db, says) && Lawful(db, Create(input))
    requires says([CreatedEvent(input)], HeadOf(NewTask(input), false))
    ensures LoggedBy(Insert(db, input), says)
  {
    var n := Insert(db, input);
    forall u | u in n.tasks ensures LoggedAt(n, u, says) {
      if u == input.task {
        assert Log(n.events, u, 0) == [];
        assert Log(n.events, u, 1) == [CreatedEvent(input)];
      } else {
        assert LoggedAt(db, u, says);
        forall k | 1 <= k <= db.tasks[u].eventSeq
          ensures EventKey(u, k) in db.events && EventKey(u, k) in n.events
          ensures db.events[EventKey(u, k)] == n.events[EventKey(u, k)]
        {
        }
        LogFrame(db.events, n.events, u, db.tasks[u].eventSeq);
      }
    }
  }

  /** The absence test of the upload transaction, a join over two tables, rules out every active
      recording with the hash because no recording is without a task. */
  lemma CreateUnique(db: Db, input: NewRecording)
    requires Linked(db) && Unique(db) && Lawful(db, Create(input)) && Guard(db, Create(input))
    ensures Unique(Insert(db, input))
  {
    forall r | Active(db, r) && db.recordings[r].hash == input.hash ensures false {
      assert HasTask(db, r);
      var u :| u in db.tasks && db.tasks[u].recordingId == r;
      assert Reusable(db, u, input.hash);
    }
  }

  // ---- Purge ----

  lemma PurgeLinked(db: Db, r: Id)
    requires Linked(db)
    ensures Linked(Drop(db, r))
  {
    var n := Drop(db, r);
    forall s | s in n.recordings ensures HasTask(n, s) {
      assert HasTask(db, s);
      var u :| u in db.tasks && db.tasks[u].recordingId == s;
      assert u in n.tasks && n.tasks[u].recordingId == s;
    }
  }

  lemma PurgeKeyed(db: Db, r: Id)
    requires Keyed(db)
    ensures Keyed(Drop(db, r))
  {
    var n := Drop(db, r);
    forall u, k | u in n.tasks && 1 <= k <= n.tasks[u].eventSeq ensures EventKey(u, k) in n.events {
      assert EventKey(u, k) in db.events;
    }
  }

  lemma PurgeLoggedAt(db: Db, r: Id, says: LogRelation, u: Id)
    requires Keyed(db) && u in db.tasks && db.tasks[u].recordingId != r && LoggedAt(db, u, says)
    ensures LoggedAt(Drop(db, r), u, says)
  {
    var n := Drop(db, r);
    forall k | 1 <= k <= db.tasks[u].eventSeq
      ensures EventKey(u, k) in db.events && EventKey(u, k) in n.events
      ensures db.events[EventKey(u, k)] == n.events[EventKey(u, k)]
    {
      assert EventKey(u, k) in db.events;
    }
    LogFrame(db.events, n.events, u, db.tasks[u].eventSeq);
  }

  lemma PurgeLogged(db: Db, r: Id, says: LogRelation)
    requires Keyed(db) && LoggedBy(db, says)
    ensures LoggedBy(Drop(db, r), says)
  {
    forall u | u in Drop(db, r).tasks ensures LoggedAt(Drop(db, r), u, says) {
      PurgeLoggedAt(db, r, says, u);
    }
  }

  // ---- All of them ----

  lemma CreateKeeps(db: Db, input: NewRecording)
    requires Inv(db) && Lawful(db, Create(input)) && Guard(db, Create(input))
    ensures Inv(Insert(db, input))
  {
    CreateLinked(db, input);
    CreateKeyed(db, input);
    CreateShaped(db, input);
    CreateLogged(db, input, REPLAYS);
    CreateUnique(db, input);
  }

  lemma PurgeShaped(db: Db, r: Id)
    requires Shaped(db) && Parsed(db) && Unique(db)
    ensures Shaped(Drop(db, r)) && Parsed(Drop(db, r)) && Unique(Drop(db, r))
  {
    forall u | u in Drop(db, r).tasks ensures Readable(Drop(db, r).tasks[u]) {
      assert Readable(db.tasks[u]);
    }
  }

  lemma PurgeKeeps(db: Db, r: Id)
    requires Inv(db)
    ensures Inv(Drop(db, r))
  {
    PurgeShaped(db, r);
    PurgeLinked(db, r);
    PurgeKeyed(db, r);
    PurgeLogged(db, r, REPLAYS);
  }

  /** Appending the event of a rewrite to a log that replays gives a log that replays to the new row. */
  lemma GuardedGrows(db: Db, op: Op, t: Id)
    requires Shaped(db) && Logged(db) && Lawful(db, op) && Target(op) == Some(t) && Guard(db, op)
    ensures t in db.tasks
    ensures var (row, e) := Rewrite(op, db.tasks[t]);
      && row.recordingId == e.recordingId == db.tasks[t].recordingId
      && row.eventSeq == db.tasks[t].eventSeq + 1
      && REPLAYS(LogOf(db, t) + [e], HeadOf(row, op.Mark? || Deleting(db, row.recordingId)))
      && Shape(row)
      && (Readable(db.tasks[t]) ==> Readable(row))
  {
    GuardedAccepted(db, op, t);
    assert LoggedAt(db, t, REPLAYS);
    ReplayAppend(LogOf(db, t), Rewrite(op, db.tasks[t]).1);
  }

  lemma EffectRewrites(db: Db, op: Op, t: Id)
    requires Target(op) == Some(t) && t in db.tasks
    requires op.Mark? ==> Active(db, op.rec) && db.tasks[t].recordingId == op.rec
    ensures var (row, e) := Rewrite(op, db.tasks[t]); var n := Effect(db, op);
      && Rewritten(db, n, t, row, e)
      && Deleting(n, row.recordingId) == (op.Mark? || Deleting(db, row.recordingId))
  {
    if op.Mark? {
      assert MarkedAtMost(db.recordings, MarkRecording(db, op.rec, op.now).recordings, op.rec);
    }
  }

  lemma TargetKeeps(db: Db, op: Op, t: Id)
    requires Inv(db) && Lawful(db, op) && Guard(db, op) && Target(op) == Some(t)
    ensures Inv(Effect(db, op))
  {
    GuardedGrows(db, op, t);
    EffectRewrites(db, op, t);
    var (row, e) := Rewrite(op, db.tasks[t]);
    RewriteKeeps(db, Effect(db, op), t, row, e);
  }

  /** Every transaction whose guard holds keeps the invariant. */
  lemma OpKeeps(db: Db, op: Op)
    requires Inv(db) && Lawful(db, op) && Guard(db, op)
    ensures Inv(Effect(db, op))
  {
    if op.Create? {
      CreateKeeps(db, op.input);
    } else if op.Purge? {
      PurgeKeeps(db, op.rec);
    } else if Target(op).Some? {
      TargetKeeps(db, op, Target(op).value);
    }
  }

  /** OpKeeps for callers that keep the invariant folded. */
  lemma Keeps(db: Db, op: Op, applied: bool)
    requires Sound(db) && Lawful(db, op)
    ensures Sound(Attempt(db, op, applied))
  {
    if Guard(db, op) { OpKeeps(db, op); }
  }

  /** The number the next event of a task will take is free in the event table. */
  lemma NextNumberFree(db: Db, t: Id)
    requires Sound(db) && t in db.tasks
    ensures EventKey(t, db.tasks[t].eventSeq + 1) !in db.events
    ensures db.tasks[t].recordingId in db.recordings
  {
    assert Inv(db);
  }

  /** Every recording has its task, so a content that no task can be reused for has no recording in use. */
  lemma EveryOneHasTask(db: Db, r: Id)
    requires Sound(db) && r in db.recordings
    ensures HasTask(db, r)
    ensures Active(db, r) ==> exists t :: Reusable(db, t, db.recordings[r].hash)
  {
    assert Inv(db);
    assert HasTask(db, r);
    var t :| t in db.tasks && db.tasks[t].recordingId == r;
    assert Active(db, r) ==> Reusable(db, t, db.recordings[r].hash);
  }

  lemma FirstNumberFree(db: Db, t: Id)
    requires Sound(db) && t !in db.tasks
    ensures EventKey(t, 1) !in db.events
  {
    assert Inv(db);
  }

  lemma LocksLinked(db: Db, locks: set<Hash>)
    requires Linked(db)
    ensures Linked(db.(hashLocks := locks))
  {
    var n := db.(hashLocks := locks);
    forall r | r in n.recordings ensures HasTask(n, r) {
      assert HasTask(db, r);
    }
  }

  lemma LocksLogged(db: Db, locks: set<Hash>)
    requires Logged(db) && Parsed(db)
    ensures Logged(db.(hashLocks := locks)) && Parsed(db.(hashLocks := locks))
  {
    var n := db.(hashLocks := locks);
    forall t | t in n.tasks ensures LoggedAt(n, t, REPLAYS) {
      assert LoggedAt(db, t, REPLAYS);
    }
    forall t | t in n.tasks ensures Readable(n.tasks[t]) {
      assert Readable(db.tasks[t]);
    }
  }

  lemma LocksUnique(db: Db, locks: set<Hash>)
    requires Keyed(db) && Shaped(db) && Unique(db)
    ensures Keyed(db.(hashLocks := locks)) && Shaped(db.(hashLocks := locks))
    ensures Unique(db.(hashLocks := locks))
  {
    var n := db.(hashLocks := locks);
    assert forall r :: Active(n, r) ==> Active(db, r);
  }

  /** The hash-lock table carries no business data. */
  lemma LocksDoNotMatter(db: Db, locks: set<Hash>)
    requires Sound(db)
    ensures Sound(db.(hashLocks := locks))
  {
    assert Inv(db);
    LocksLinked(db, locks);
    LocksLogged(db, locks);
    LocksUnique(db, locks);
  }
}
