/** What follows for whole histories: outdated execution keys never write again, a claim is never
    repeated, deletion cannot be undone, and the tables show the facts proved about replayed logs. */
module Fencing {
  import opened Prelude
  import opened Lifecycle
  import opened Tables
  import opened EventLog
  import opened Invariant

  /** The row of t, if there still is one, has come at least as far as p. */
  predicate Past(db: Db, t: Id, p: int) {
    t in db.tasks ==> Progress(db.tasks[t]) >= p
  }

  /** Identifiers are fresh UUIDs, so no transaction creates a task under an identifier in use before. */
  predicate Creates(op: Op, t: Id) {
    op.Create? && op.input.task == t
  }

  /** Rows only move forward. */
  lemma OpAdvances(db: Db, op: Op, t: Id, p: int)
    requires Past(db, t, p) && !Creates(op, t) && Guard(db, op)
    ensures Past(Effect(db, op), t, p)
  {
  }

  /** A row that has not moved still holds the same attempt, status, transcript and summary. */
  lemma OpStable(db: Db, op: Op, t: Id)
    requires t in db.tasks && t in Effect(db, op).tasks && !Creates(op, t) && Guard(db, op)
    requires Progress(Effect(db, op).tasks[t]) == Progress(db.tasks[t])
    ensures var a := db.tasks[t]; var b := Effect(db, op).tasks[t];
      a.attempt == b.attempt && a.status == b.status && a.transcript == b.transcript && a.summary == b.summary
  {
  }

  lemma RunAdvances(db: Db, ops: seq<Op>, t: Id, p: int)
    requires Past(db, t, p) && forall op :: op in ops ==> !Creates(op, t)
    ensures Past(Run(db, ops), t, p)
    decreases |ops|
  {
    if ops != [] {
      assert ops[0] in ops;
      if Guard(db, ops[0]) { OpAdvances(db, ops[0], t, p); }
      RunAdvances(Attempt(db, ops[0], true), ops[1..], t, p);
    }
  }

  /** The key of a stage write: save, complete or fail. */
  predicate StageWrite(op: Op) {
    op.Save? || op.Complete? || op.Fail?
  }

  /** Where the row stands right after a stage write took effect. */
  lemma StageAdvances(db: Db, op: Op)
    requires StageWrite(op) && Guard(db, op)
    ensures Past(Effect(db, op), op.key.task,
        5 * op.key.attempt + (if op.Save? then 2 else if op.Complete? then 3 else 4))
  {
  }

  /** Fencing: a save, complete or fail whose attempt is not the row's attempt leaves the database
      unchanged, whether or not its commit is reported. */
  lemma OutdatedKeyRefused(db: Db, op: Op, applied: bool)
    requires StageWrite(op) && (op.key.task in db.tasks ==> db.tasks[op.key.task].attempt != op.key.attempt)
    ensures Attempt(db, op, applied) == db
  {
  }

  /** Once the row left an attempt behind, no history makes the old key valid again: a save, complete or fail
      that carries it leaves the tables as they are, whether or not its commit is reported. */
  lemma OutdatedForever(db: Db, ops: seq<Op>, op: Op, applied: bool)
    requires StageWrite(op) && Past(db, op.key.task, 5 * op.key.attempt + 5)
    requires forall o :: o in ops ==> !Creates(o, op.key.task)
    ensures !Guard(Run(db, ops), op) && Attempt(Run(db, ops), op, applied) == Run(db, ops)
  {
    RunAdvances(db, ops, op.key.task, 5 * op.key.attempt + 5);
    OutdatedKeyRefused(Run(db, ops), op, applied);
  }

  predicate SameWrite(a: Op, b: Op) {
    StageWrite(a) && StageWrite(b) && a.key == b.key && a.Save? == b.Save? && a.Complete? == b.Complete?
  }

  /** A stage write takes effect at most once per execution key, whatever runs in between. */
  lemma StageWriteOnce(db: Db, op: Op, ops: seq<Op>, again: Op)
    requires Guard(db, op) && SameWrite(op, again)
    requires forall o :: o in ops ==> !Creates(o, op.key.task)
    ensures !Guard(Run(Effect(db, op), ops), again)
  {
    StageAdvances(db, op);
    RunAdvances(Effect(db, op), ops, op.key.task,
        5 * op.key.attempt + (if op.Save? then 2 else if op.Complete? then 3 else 4));
  }

  /** A key is claimed at most once: a later claim of the same task carries a larger attempt. */
  lemma ClaimOnce(db: Db, op: Op, ops: seq<Op>, again: Op)
    requires op.Claim? && again.Claim? && again.task == op.task && Guard(db, op)
    requires forall o :: o in ops ==> !Creates(o, op.task)
    ensures Guard(Run(Effect(db, op), ops), again) ==>
        Run(Effect(db, op), ops).tasks[op.task].attempt > db.tasks[op.task].attempt
  {
    var p := 5 * db.tasks[op.task].attempt + 1;
    RunAdvances(Effect(db, op), ops, op.task, p);
  }

  // ---- Manual retry and the automatic budget ----

  /** The tables after a manual retry whose attempt is claimed, perhaps gets as far as a transcript, and fails. */
  function RetriedOnce(
      db: Db, t: Id, attempt: int, transcript: Option<string>, code: int, message: string, now: Time): Db {
    var claimed := Effect(Effect(db, Retry(t, now)), Claim(t, now, now));
    var reached := if transcript.Some? then Effect(claimed, Save(Key(t, attempt + 1), transcript.value, now))
        else claimed;
    Effect(reached, Fail(Key(t, attempt + 1), code, message, now))
  }

  /** Whether the attempt opened by a manual retry may still be retried automatically is decided by the
      absolute attempt: a failed task of attempt a goes back to pending exactly if a + 1 < 3. */
  lemma ManualRetryKeepsBudget(
      db: Db, t: Id, transcript: Option<string>, code: int, message: string, now: Time)
    requires Live(db, t) && db.tasks[t].status.Failed?
    ensures var a := db.tasks[t].attempt; var n := RetriedOnce(db, t, a, transcript, code, message, now);
      && Guard(db, Retry(t, now)) && t in n.tasks
      && (n.tasks[t].status.Pending? <==> a + 1 < 3) && (n.tasks[t].status.Failed? <==> a + 1 >= 3)
      && EventKey(t, n.tasks[t].eventSeq) in n.events
      && n.events[EventKey(t, n.tasks[t].eventSeq)].kind == if a + 1 < 3 then TaskAutoRetryScheduled else TaskFailed
    ensures var retried := Effect(db, Retry(t, now)); var claimed := Effect(retried, Claim(t, now, now));
      && Guard(retried, Claim(t, now, now))
      && (transcript.Some? ==> Guard(claimed, Save(Key(t, db.tasks[t].attempt + 1), transcript.value, now)))
      && var fail := Fail(Key(t, db.tasks[t].attempt + 1), code, message, now);
      && (transcript.None? ==> Guard(claimed, fail))
      && (transcript.Some? ==>
            Guard(Effect(claimed, Save(Key(t, db.tasks[t].attempt + 1), transcript.value, now)), fail))
  {
  }

  /** A task that failed at its third attempt, as a worker leaves it. */
  const THIRD_FAILURE :=
    Task(0, Failed, 3, 10, "", None, Some(50001), "timeout", 0, 3007, Some(3005), Some(3007), None)

  /** So a manual retry need not open a new budget: this row fails for good again at its next failure. */
  lemma ThirdFailureStaysFinal(db: Db, t: Id, now: Time)
    requires Live(db, t) && db.tasks[t] == THIRD_FAILURE
    ensures var n := RetriedOnce(db, t, 3, None, 50001, "timeout", now);
      t in n.tasks && n.tasks[t].status.Failed? && n.tasks[t].attempt == 4 && n.tasks[t].nextRetryAt.None?
  {
    ManualRetryKeepsBudget(db, t, None, 50001, "timeout", now);
  }

  // ---- Deletion ----

  /** A recording marked for deletion stays marked until it is gone, and once gone it stays gone. */
  lemma DeletionIrreversible(db: Db, ops: seq<Op>, r: Id)
    requires !Active(db, r) && forall op :: op in ops ==> !(op.Create? && op.input.rec == r)
    ensures !Active(Run(db, ops), r)
    ensures r !in db.recordings ==> r !in Run(db, ops).recordings
    ensures r in Run(db, ops).recordings ==> r in db.recordings && Run(db, ops).recordings[r] == db.recordings[r]
    decreases |ops|
  {
    if ops != [] {
      assert ops[0] in ops;
      DeletionIrreversible(Attempt(db, ops[0], true), ops[1..], r);
    }
  }

  /** The writes of workers and of manual retries. */
  predicate OfWorkerOrRetry(op: Op) {
    op.Claim? || op.Retry? || StageWrite(op)
  }

  /** Rows, products and log of a task whose recording is marked are out of reach of workers and retries. */
  lemma DeletionShields(db: Db, op: Op, t: Id)
    requires t in db.tasks && !Active(db, db.tasks[t].recordingId) && OfWorkerOrRetry(op)
    ensures var n := Attempt(db, op, true);
      && t in n.tasks && n.tasks[t] == db.tasks[t]
      && (forall k: EventKey :: k.task == t ==> (k in n.events <==> k in db.events))
      && (forall k: EventKey :: k.task == t && k in db.events ==> n.events[k] == db.events[k])
  {
  }

  /** A purge removes exactly the rows of its recording from the three tables. */
  lemma PurgeExact(db: Db, r: Id)
    requires Linked(db) && Keyed(db)
    ensures var n := Drop(db, r);
      && n.recordings.Keys == db.recordings.Keys - {r}
      && (forall s :: s in n.recordings ==> n.recordings[s] == db.recordings[s])
      && (forall t :: t in n.tasks <==> t in db.tasks && db.tasks[t].recordingId != r)
      && (forall t :: t in n.tasks ==> n.tasks[t] == db.tasks[t])
      && (forall k :: k in n.events <==> k in db.events && k.task in n.tasks)
      && (forall k :: k in n.events ==> n.events[k] == db.events[k])
      && n.hashLocks == db.hashLocks
  {
  }

  // ---- What the tables show ----

  /** The log of a task is what the event table stores under the numbers 1 to event_seq. */
  lemma StoredLog(db: Db, t: Id, k: int)
    requires Sound(db) && t in db.tasks && 1 <= k <= db.tasks[t].eventSeq
    ensures |LogOf(db, t)| == db.tasks[t].eventSeq
    ensures EventKey(t, k) in db.events && LogOf(db, t)[k - 1] == db.events[EventKey(t, k)]
  {
    assert Inv(db);
    LogShape(db.events, t, db.tasks[t].eventSeq);
  }

  lemma LogReplays(db: Db, t: Id)
    requires Sound(db) && t in db.tasks
    ensures LoggedAt(db, t, REPLAYS) && db.tasks[t].eventSeq >= 1
  {
    assert Inv(db);
  }

  /** Event e directly follows event before. */
  predicate Follows(before: Event, e: Event) {
    && e.from == Some(before.to)
    && (if e.kind.TaskDeleteRequested? then e.to == before.to else CanTransition(before.to, e.to))
    && e.attempt >= before.attempt
  }

  /** If a and b are both claims, b's attempt is the larger. */
  predicate LaterClaim(a: Event, b: Event) {
    a.kind.TaskClaimed? && b.kind.TaskClaimed? ==> a.attempt < b.attempt
  }

  lemma ChainsAt(db: Db, t: Id, n: nat)
    requires Sound(db) && t in db.tasks && 1 <= n < |LogOf(db, t)|
    ensures Follows(LogOf(db, t)[n - 1], LogOf(db, t)[n])
  {
    LogReplays(db, t);
    LogChains(LogOf(db, t), n);
  }

  lemma ClaimsAt(db: Db, t: Id, i: nat, j: nat)
    requires Sound(db) && t in db.tasks && i < j < |LogOf(db, t)|
    ensures LaterClaim(LogOf(db, t)[i], LogOf(db, t)[j])
  {
    LogReplays(db, t);
    if LogOf(db, t)[i].kind.TaskClaimed? && LogOf(db, t)[j].kind.TaskClaimed? {
      ClaimsAdvance(LogOf(db, t), i, j);
    }
  }

  /** The event table chains: every stored event after the first starts at the status where its
      predecessor ended, along an edge of the domain matrix unless it is the deletion request, with
      attempts that never decrease. */
  lemma StoredEventsChain(db: Db, t: Id, n: int)
    requires Sound(db) && t in db.tasks && 2 <= n <= db.tasks[t].eventSeq
    ensures EventKey(t, n) in db.events && EventKey(t, n - 1) in db.events
    ensures Follows(db.events[EventKey(t, n - 1)], db.events[EventKey(t, n)])
  {
    StoredLog(db, t, n);
    StoredLog(db, t, n - 1);
    ChainsAt(db, t, n - 1);
  }

  /** Claims of one task appear in the event table with strictly increasing attempts. */
  lemma StoredClaimsAdvance(db: Db, t: Id, i: int, j: int)
    requires Sound(db) && t in db.tasks && 1 <= i < j <= db.tasks[t].eventSeq
    ensures EventKey(t, i) in db.events && EventKey(t, j) in db.events
    ensures LaterClaim(db.events[EventKey(t, i)], db.events[EventKey(t, j)])
  {
    StoredLog(db, t, i);
    StoredLog(db, t, j);
    ClaimsAt(db, t, i - 1, j - 1);
  }

  lemma EndsAt(db: Db, t: Id)
    requires Sound(db) && t in db.tasks
    ensures |LogOf(db, t)| > 0
    ensures var task := db.tasks[t]; var e := LogOf(db, t)[|LogOf(db, t)| - 1];
      && task.status == e.to
      && task.attempt == e.attempt + (if e.kind.TaskAutoRetryScheduled? then 1 else 0)
      && task.updatedAt == e.occurredAt
  {
    LogReplays(db, t);
    LastEvent(LogOf(db, t));
  }

  /** The row agrees with its last event: same status, same attempt or, after a scheduled automatic
      retry, one more; and the row was last updated when that event happened. */
  lemma RowMatchesLastEvent(db: Db, t: Id)
    requires Sound(db) && t in db.tasks
    ensures EventKey(t, db.tasks[t].eventSeq) in db.events
    ensures var task := db.tasks[t]; var e := db.events[EventKey(t, task.eventSeq)];
      && task.status == e.to
      && task.attempt == e.attempt + (if e.kind.TaskAutoRetryScheduled? then 1 else 0)
      && task.updatedAt == e.occurredAt
  {
    assert db.tasks[t].eventSeq >= 1 by { LogReplays(db, t); }
    EndsAt(db, t);
    StoredLog(db, t, db.tasks[t].eventSeq);
  }

  /** Over its whole life a task is retried automatically at most twice, and its deletion is requested
      exactly once if its recording is marked and never otherwise. */
  lemma StoredRetryBudget(db: Db, t: Id)
    requires Sound(db) && t in db.tasks
    ensures Count(LogOf(db, t), TaskAutoRetryScheduled) <= 2
    ensures Count(LogOf(db, t), TaskDeleteRequested) == if Deleting(db, db.tasks[t].recordingId) then 1 else 0
  {
    LogReplays(db, t);
    AtMostTwoAutomaticRetries(LogOf(db, t));
    DeletionRequestedOnce(LogOf(db, t));
  }

  /** After number k, the task's stored events are those of workers or the deletion request. */
  ghost predicate WorkersAfter(db: Db, t: Id, k: int) {
    forall e: EventKey :: e in db.events && e.task == t && e.seqNo > k ==> WorkerOrRequest(db.events[e])
  }

  predicate WorkerOrRequest(e: Event) {
    ByWorker(e.kind) || e.kind.TaskDeleteRequested?
  }

  lemma WorkerAt(db: Db, t: Id, k: int, j: nat)
    requires Sound(db) && t in db.tasks && WorkersAfter(db, t, k) && 0 <= k <= j < db.tasks[t].eventSeq
    ensures j < |LogOf(db, t)| && WorkerOrRequest(LogOf(db, t)[j])
  {
    StoredLog(db, t, j + 1);
    var e := EventKey(t, j + 1);
    assert e in db.events && e.seqNo > k;
  }

  /** Between manual retries and restarts a task adds at most nine worker events to its stored log. */
  lemma StoredTransitions(db: Db, t: Id, k: nat)
    requires Sound(db) && t in db.tasks && 1 <= k <= db.tasks[t].eventSeq && WorkersAfter(db, t, k)
    ensures WorkerEvents(LogOf(db, t), k) <= 9
  {
    LogReplays(db, t);
    StoredLog(db, t, k);
    var log := LogOf(db, t);
    forall j | k <= j < |log| ensures ByWorker(log[j].kind) || log[j].kind.TaskDeleteRequested? {
      WorkerAt(db, t, k, j);
    }
    AtMostNineTransitions(log, k);
  }

  lemma RewriteTerminates(op: Op, task: Task)
    requires task.attempt >= 1
    requires (op.Claim? && task.status.Pending?) || (op.Save? && task.status.Transcribing?)
             || (op.Complete? && task.status.Summarizing?) || (op.Fail? && InFlight(task.status))
    ensures var row := Rewrite(op, task).0;
      0 <= Measure(row.status, row.attempt) < Measure(task.status, task.attempt) <= 9
  {
  }

  /** Every claim, save, complete and fail brings its task strictly closer to rest. */
  lemma StageTerminates(db: Db, op: Op)
    requires Shaped(db) && Guard(db, op) && (op.Claim? || StageWrite(op))
    ensures Target(op).Some? && Target(op).value in db.tasks && Target(op).value in Effect(db, op).tasks
    ensures var t := Target(op).value; var a := db.tasks[t]; var b := Effect(db, op).tasks[t];
      0 <= Measure(b.status, b.attempt) < Measure(a.status, a.attempt) <= 9
  {
    var t := Target(op).value;
    assert Shape(db.tasks[t]);
    RewriteTerminates(op, db.tasks[t]);
    assert Effect(db, op).tasks[t] == Rewrite(op, db.tasks[t]).0;
  }
}
