/** The transactions as the MySQL adapters run them, statement by statement on the tables, each proved to
    commit exactly the effect defined in module Tables or to leave the tables as they were. */
module Database {
  import opened Prelude
  import opened Lifecycle
  import opened SummaryJson
  import opened Tables
  import opened Invariant
  import opened BatchReset

  /** What goes wrong in a call: nothing, the n-th statement (0 is BEGIN), or the reply to COMMIT is
      lost after the commit did or did not take effect. */
  datatype Fault = NoFault | Statement(n: nat) | CommitUnknown(applied: bool)

  /** Reply of the conditional stage writes. */
  datatype StageReply = Written | Stale | DbError | Unknown

  datatype ClaimReply =
    | Claimed(key: Key, rec: Id, path: Path, extension: string)
    | NothingToClaim
    | Orphan(task: Id)
    | ClaimFailed
    | ClaimUnknown

  datatype CreateReply =
    | Created
    | Reused(rec: Id, task: Id, status: Status)
    | CreateRolledBack
    | CreateUnknown

  datatype RetryReply = Retried(attempt: int) | TaskNotFound | NotRetryable | Inconsistent | RetryFailed | RetryUnknown

  datatype MarkReply = Marked(task: Option<Id>) | RecordingNotFound | MarkFailed | MarkUnknown

  datatype ResetReply = ResetDone(count: nat) | ResetFailed | ResetUnknown

  datatype PlainReply = Committed | RolledBack | OutcomeUnknown

  /** Claim order: oldest first, identifiers break ties. */
  predicate Before(a: Task, t: Id, b: Task, u: Id) {
    a.createdAt < b.createdAt || (a.createdAt == b.createdAt && t <= u)
  }

  /** t is the row the candidate query returns when the rows in `locked` are skipped. */
  predicate FirstReady(tasks: map<Id, Task>, t: Id, asOf: Time, locked: set<Id>) {
    && t in tasks && t !in locked && Ready(tasks[t], asOf)
    && forall u :: u in tasks.Keys && u !in locked && Ready(tasks[u], asOf) ==> Before(tasks[t], t, tasks[u], u)
  }

  lemma {:induction false} FirstOf(tasks: map<Id, Task>, some: set<Id>) returns (t: Id)
    requires some != {} && some <= tasks.Keys
    ensures t in some && forall u :: u in some ==> Before(tasks[t], t, tasks[u], u)
  {
    t :| t in some;
    if some != {t} {
      var rest := FirstOf(tasks, some - {t});
      if !Before(tasks[t], t, tasks[rest], rest) {
        t := rest;
      }
    }
  }

  /** If any row is due, one of them is first. */
  lemma SomeFirst(tasks: map<Id, Task>, asOf: Time, locked: set<Id>)
    ensures (forall t :: !FirstReady(tasks, t, asOf, locked)) ==>
      forall u :: u in tasks && u !in locked ==> !Ready(tasks[u], asOf)
  {
    var ready := set u | u in tasks && u !in locked && Ready(tasks[u], asOf);
    assert forall u :: u in tasks && u !in locked && Ready(tasks[u], asOf) ==> u in ready;
    if ready != {} {
      var first := FirstOf(tasks, ready);
      assert FirstReady(tasks, first, asOf, locked);
    }
  }

  lemma {:induction false} SmallestOf(s: set<Id>) returns (m: Id)
    requires s != {}
    ensures m in s && forall u :: u in s ==> m <= u
  {
    m :| m in s;
    if s != {m} {
      var rest := SmallestOf(s - {m});
      assert forall u :: u in s ==> u == m || u in s - {m};
      if rest < m {
        m := rest;
      }
    }
  }

  /** The key names a row in one of these statuses, in this attempt, whose recording is not being deleted. */
  predicate Matches(db: Db, key: Key, statuses: set<Status>) {
    && key.task in db.tasks && db.tasks[key.task].attempt == key.attempt && db.tasks[key.task].status in statuses
    && db.tasks[key.task].recordingId in db.recordings
    && db.recordings[db.tasks[key.task].recordingId].deletingAt.None?
  }

  /** A failed attempt, written out: the first two are tried again after one and after two seconds, a later one is
      the end. */
  predicate FailsTo(row: Task, code: int, message: string, now: Time, after: Task, event: Event) {
    && after == row.(status := after.status, attempt := after.attempt, nextRetryAt := after.nextRetryAt,
        finishedAt := after.finishedAt, errorCode := Some(code), errorMessage := message, transcript := "",
        summary := None, updatedAt := now, eventSeq := row.eventSeq + 1)
    && event == Event(row.recordingId, row.attempt, event.kind, now, event.level, Some(row.status), after.status,
        Some(row.status), Some(code), message, event.details)
    && (row.attempt == 1 ==> after.nextRetryAt == Some(now + 1000) && event.details == RetryAfter(2, 1000))
    && (row.attempt == 2 ==> after.nextRetryAt == Some(now + 2000) && event.details == RetryAfter(3, 2000))
    && (row.attempt < 3 ==>
          && after.status.Pending? && after.attempt == row.attempt + 1 && after.finishedAt.None?
          && event.kind.TaskAutoRetryScheduled? && event.level.Warn?)
    && (row.attempt >= 3 ==>
          && after.status.Failed? && after.attempt == row.attempt && after.nextRetryAt.None?
          && after.finishedAt == Some(now)
          && event.kind.TaskFailed? && event.level.Error? && event.details.NoDetails?)
  }

  /** The event of a scanned row, under the number that row is about to get. */
  function PreparedEvent(tasks: map<Id, Task>, t: Id, interrupt: bool, now: Time): (EventKey, Event)
    requires t in tasks
  {
    (EventKey(t, tasks[t].eventSeq + 1), ResetEvent(tasks[t], interrupt, now))
  }

  ghost predicate Prepared(
      tasks: map<Id, Task>, ids: seq<Id>, prepared: seq<(EventKey, Event)>, interrupt: bool,
      now: Time) {
    && |prepared| == |ids|
    && forall k :: 0 <= k < |ids| ==> ids[k] in tasks && prepared[k] == PreparedEvent(tasks, ids[k], interrupt, now)
  }

  function ReferencedPaths(recordings: map<Id, Recording>): set<Path> {
    set r | r in recordings :: recordings[r].path
  }

  class MySql {
    var recordings: map<Id, Recording>
    var tasks: map<Id, Task>
    var events: map<EventKey, Event>
    var hashLocks: set<Hash>

    function View(): Db
      reads this
    {
      Db(recordings, tasks, events, hashLocks)
    }

    ghost predicate Valid()
      reads this
    {
      Sound(View())
    }

    constructor ()
      ensures Valid() && View() == Db(map[], map[], map[], {})
    {
      recordings, tasks, events, hashLocks := map[], map[], map[], {};
      new;
      assert Inv(View());
    }

    /** ROLLBACK to the state the transaction began with. */
    method Rollback(begun: Db)
      modifies this
      ensures View() == begun
    {
      recordings, tasks, events, hashLocks := begun.recordings, begun.tasks, begun.events, begun.hashLocks;
    }

    /** UPDATE tasks ... WHERE id = ? AND attempt = ? AND status = ?; returns RowsAffected. */
    method UpdateTask(t: Id, attempt: int, status: Status, row: Task) returns (affected: nat)
      modifies this`tasks
      ensures affected == if t in old(tasks) && old(tasks)[t].attempt == attempt
          && old(tasks)[t].status == status then 1 else 0
      ensures tasks == if affected == 1 then old(tasks)[t := row] else old(tasks)
    {
      if t in tasks && tasks[t].attempt == attempt && tasks[t].status == status {
        tasks := tasks[t := row];
        return 1;
      }
      return 0;
    }

    /** INSERT INTO task_events; refused when the sequence number is taken. */
    method InsertEvent(t: Id, seqNo: int, event: Event) returns (ok: bool)
      modifies this`events
      ensures ok <==> EventKey(t, seqNo) !in old(events)
      ensures events == if ok then old(events)[EventKey(t, seqNo) := event] else old(events)
    {
      if EventKey(t, seqNo) in events {
        return false;
      }
      events := events[EventKey(t, seqNo) := event];
      return true;
    }

    /** SELECT ... WHERE status = pending AND due ORDER BY created_at, id FOR UPDATE SKIP LOCKED. */
    method NextCandidate(asOf: Time, locked: set<Id>) returns (t: Option<Id>)
      ensures t.Some? ==> FirstReady(tasks, t.value, asOf, locked)
      ensures t.None? ==> forall u :: !FirstReady(tasks, u, asOf, locked)
    {
      if !exists u :: u in tasks.Keys && u !in locked && Ready(tasks[u], asOf) {
        return None;
      }
      ghost var ready := set u: Id | u in tasks.Keys && u !in locked && Ready(tasks[u], asOf);
      ghost var some :| some in tasks.Keys && some !in locked && Ready(tasks[some], asOf);
      assert some in ready;
      ghost var first := FirstOf(tasks, ready);
      assert FirstReady(tasks, first, asOf, locked);
      var u :| u in tasks.Keys && FirstReady(tasks, u, asOf, locked);
      return Some(u);
    }

    /** ClaimNext: one candidate, its recording re-checked under lock, then the conditional update. */
    method ClaimNext(asOf: Time, now: Time, locked: set<Id>, f: Fault) returns (r: ClaimReply)
      requires Valid()
      modifies this
      ensures Valid()
      ensures r.Claimed? ==>
        && FirstReady(old(tasks), r.key.task, asOf, locked)
        && Guard(old(View()), Claim(r.key.task, asOf, now))
        && View() == Effect(old(View()), Claim(r.key.task, asOf, now))
        && r.key.attempt == old(tasks)[r.key.task].attempt
        && r.rec == old(tasks)[r.key.task].recordingId
        && r.path == old(recordings)[r.rec].path && r.extension == old(recordings)[r.rec].extension
      ensures r.ClaimUnknown? ==> exists t ::
        && FirstReady(old(tasks), t, asOf, locked) && Guard(old(View()), Claim(t, asOf, now))
        && f.CommitUnknown? && View() == Attempt(old(View()), Claim(t, asOf, now), f.applied)
      ensures r.NothingToClaim? || r.ClaimFailed? ==> View() == old(View())
      ensures r.NothingToClaim? ==>
          forall t :: FirstReady(old(tasks), t, asOf, locked) ==> Deleting(old(View()), old(tasks)[t].recordingId)
      ensures r.Claimed? ==>
        && var t := r.key.task; var row := old(tasks)[t];
        && row.status.Pending? && (row.nextRetryAt.Some? ==> row.nextRetryAt.value <= asOf) && t !in locked
        && recordings == old(recordings) && recordings[row.recordingId].deletingAt.None?
        && tasks == old(tasks)[t := row.(status := Transcribing, startedAt := Some(now), updatedAt := now,
            nextRetryAt := None, errorCode := None, errorMessage := "", eventSeq := row.eventSeq + 1)]
        && events == old(events)[EventKey(t, row.eventSeq + 1) := Event(row.recordingId, row.attempt, TaskClaimed, now,
            Info, Some(Pending), Transcribing, Some(Transcribing), None, "", NoDetails)]
      ensures r.Claimed? ==>
        var first := old(tasks)[r.key.task];
        forall u | u in old(tasks) && u !in locked && old(tasks)[u].status.Pending? ::
          || (old(tasks)[u].nextRetryAt.Some? && old(tasks)[u].nextRetryAt.value > asOf)
          || first.createdAt < old(tasks)[u].createdAt
          || (first.createdAt == old(tasks)[u].createdAt && r.key.task <= u)
      ensures f.NoFault? ==> r.Claimed? || r.NothingToClaim?
      ensures r.NothingToClaim? && (forall s :: s in old(recordings) ==> old(recordings)[s].deletingAt.None?) ==>
        forall u :: u in old(tasks) && u !in locked && old(tasks)[u].status.Pending? ==>
          old(tasks)[u].nextRetryAt.Some? && old(tasks)[u].nextRetryAt.value > asOf
      ensures r.ClaimFailed? ==> f.Statement?
      ensures !r.Orphan?
      ensures f.NoFault? ==>
          (r.Claimed? <==>
             exists t :: FirstReady(old(tasks), t, asOf, locked) && Active(old(View()), old(tasks)[t].recordingId))
    {
      var begun := View();
      if f == Statement(0) || f == Statement(1) {
        return ClaimFailed;
      }
      var candidate := NextCandidate(asOf, locked);
      SomeFirst(tasks, asOf, locked);
      if candidate.None? {
        return NothingToClaim;
      }
      var t := candidate.value;
      var task := tasks[t];
      if f == Statement(2) {
        return ClaimFailed;
      }
      if task.recordingId !in recordings {
        NextNumberFree(begun, t);
        return Orphan(t);
      }
      var rec := recordings[task.recordingId];
      if rec.deletingAt.Some? {
        return NothingToClaim;
      }
      if f == Statement(3) {
        return ClaimFailed;
      }
      var affected, inserted := WriteClaim(begun, t, now);
      if affected == 0 {
        return NothingToClaim;
      }
      if !inserted || f == Statement(4) || f == Statement(5) {
        Rollback(begun);
        return ClaimFailed;
      }
      var reread := tasks[t];
      Keeps(begun, Claim(t, asOf, now), true);
      if f.CommitUnknown? {
        if !f.applied {
          Rollback(begun);
        }
        return ClaimUnknown;
      }
      return Claimed(Key(t, reread.attempt), task.recordingId, rec.path, rec.extension);
    }

    /** The conditional update of a claim, which its lock lets through, and the event task_claimed. */
    method WriteClaim(ghost begun: Db, t: Id, now: Time) returns (affected: nat, inserted: bool)
      requires Sound(begun) && tasks == begun.tasks && events == begun.events
      requires t in tasks && tasks[t].status.Pending?
      modifies this`tasks, this`events
      ensures affected == 1 && inserted
      ensures var row := old(tasks)[t];
        && tasks == old(tasks)[t := row.(status := Transcribing, startedAt := Some(now), updatedAt := now,
            nextRetryAt := None, errorCode := None, errorMessage := "", eventSeq := row.eventSeq + 1)]
        && events == old(events)[EventKey(t, row.eventSeq + 1) := Event(row.recordingId, row.attempt, TaskClaimed, now,
            Info, Some(Pending), Transcribing, Some(Transcribing), None, "", NoDetails)]
    {
      NextNumberFree(begun, t);
      var task := tasks[t];
      var domTask := new ProcessingTask(task.status, task.attempt, task.eventSeq);
      var seqNo := domTask.AllocateEventSeq();
      affected := UpdateTask(t, task.attempt, Pending,
                             task.(status := Transcribing, nextRetryAt := None, errorCode := None, errorMessage := "",
                                   eventSeq := domTask.eventSeq, updatedAt := now, startedAt := Some(now)));
      var event := Event(task.recordingId, task.attempt, TaskClaimed, now, Info,
                         Some(Pending), Transcribing, Some(Transcribing), None, "", NoDetails);
      inserted := InsertEvent(t, seqNo, event);
    }

    /** SaveTranscription: transcribing to summarizing with the transcript, if the key still matches. */
    method SaveTranscription(key: Key, transcript: string, now: Time, f: Fault) returns (r: StageReply)
      requires Valid()
      modifies this
      ensures Valid()
      ensures View() == Attempt(old(View()), Save(key, transcript, now), TookEffect(r, f))
      ensures StageOutcome(old(View()), Save(key, transcript, now), r, f)
      ensures f.NoFault? ==> (r.Written? <==> Matches(old(View()), key, {Transcribing}))
      ensures !r.Written? && !(r.Unknown? && f == CommitUnknown(true)) ==> View() == old(View())
      ensures r.Written? || (r.Unknown? && f == CommitUnknown(true)) ==>
        && Matches(old(View()), key, {Transcribing}) && recordings == old(recordings)
        && var row := old(tasks)[key.task];
        && tasks == old(tasks)[key.task := row.(status := Summarizing, transcript := transcript, updatedAt := now,
            eventSeq := row.eventSeq + 1)]
        && events == old(events)[EventKey(key.task, row.eventSeq + 1) := Event(row.recordingId, key.attempt,
            TranscriptionCompleted, now, Info, Some(Transcribing), Summarizing, Some(Transcribing), None, "",
            NoDetails)]
    {
      var begun := View();
      if f == Statement(0) || f == Statement(1) {
        return DbError;
      }
      if key.task !in tasks {
        return Stale;
      }
      var task := tasks[key.task];
      if task.attempt != key.attempt || !task.status.Transcribing? {
        return Stale;
      }
      if f == Statement(2) {
        return DbError;
      }
      if task.recordingId !in recordings || recordings[task.recordingId].deletingAt.Some? {
        return Stale;
      }
      NextNumberFree(begun, key.task);
      var domTask := new ProcessingTask(task.status, task.attempt, task.eventSeq);
      var seqNo := domTask.AllocateEventSeq();
      var affected := UpdateTask(key.task, key.attempt, Transcribing,
                                 task.(status := Summarizing, transcript := transcript,
                                     eventSeq := domTask.eventSeq, updatedAt := now));
      var event := Event(task.recordingId, key.attempt, TranscriptionCompleted, now, Info,
                         Some(Transcribing), Summarizing, Some(Transcribing), None, "", NoDetails);
      var inserted := InsertEvent(key.task, seqNo, event);
      r := EndStage(begun, Save(key, transcript, now), affected, inserted, f);
    }

    /** CompleteTask: summarizing to done with the stored form of the summary, whatever the summary is. The
        summarizer port promises a validated one, and then the tables stay in order. */
    method CompleteTask(key: Key, summary: Summary, now: Time, f: Fault) returns (r: StageReply)
      requires Valid()
      modifies this
      ensures SummaryJson.Valid(summary) ==> Valid()
      ensures View() == Attempt(old(View()), Complete(key, summary, now), TookEffect(r, f))
      ensures StageOutcome(old(View()), Complete(key, summary, now), r, f)
      ensures f.NoFault? ==> (r.Written? <==> Matches(old(View()), key, {Summarizing}))
      ensures !r.Written? && !(r.Unknown? && f == CommitUnknown(true)) ==> View() == old(View())
      ensures r.Written? || (r.Unknown? && f == CommitUnknown(true)) ==>
        && Matches(old(View()), key, {Summarizing}) && recordings == old(recordings)
        && var row := old(tasks)[key.task];
        && key.task in tasks && tasks[key.task].summary.Some? && Writes(summary, tasks[key.task].summary.value)
        && tasks == old(tasks)[key.task := row.(status := Done, summary := tasks[key.task].summary, updatedAt := now,
            finishedAt := Some(now), eventSeq := row.eventSeq + 1)]
        && events == old(events)[EventKey(key.task, row.eventSeq + 1) := Event(row.recordingId, key.attempt,
            TaskCompleted, now, Info, Some(Summarizing), Done, Some(Summarizing), None, "", NoDetails)]
    {
      var begun := View();
      if f == Statement(0) || f == Statement(1) {
        return DbError;
      }
      if key.task !in tasks {
        return Stale;
      }
      var task := tasks[key.task];
      if task.attempt != key.attempt || !task.status.Summarizing? {
        return Stale;
      }
      if f == Statement(2) {
        return DbError;
      }
      if task.recordingId !in recordings || recordings[task.recordingId].deletingAt.Some? {
        return Stale;
      }
      var summaryJson := Encode(summary);
      EncodeWrites(summary);
      NextNumberFree(begun, key.task);
      var domTask := new ProcessingTask(task.status, task.attempt, task.eventSeq);
      var seqNo := domTask.AllocateEventSeq();
      var affected := UpdateTask(key.task, key.attempt, Summarizing,
                                 task.(status := Done, summary := Some(summaryJson), eventSeq := domTask.eventSeq,
                                       updatedAt := now, finishedAt := Some(now)));
      var event := Event(task.recordingId, key.attempt, TaskCompleted, now, Info,
                         Some(Summarizing), Done, Some(Summarizing), None, "", NoDetails);
      var inserted := InsertEvent(key.task, seqNo, event);
      r := EndStage(begun, Complete(key, summary, now), affected, inserted, f);
    }

    /** FailTask: an in-flight attempt ends; the first two go back to pending with a backoff. */
    method FailTask(key: Key, code: int, message: string, now: Time, f: Fault) returns (r: StageReply)
      requires Valid()
      modifies this
      ensures Valid()
      ensures View() == Attempt(old(View()), Fail(key, code, message, now), TookEffect(r, f))
      ensures StageOutcome(old(View()), Fail(key, code, message, now), r, f)
      ensures f.NoFault? ==> (r.Written? <==> Matches(old(View()), key, {Transcribing, Summarizing}))
      ensures !r.Written? && !(r.Unknown? && f == CommitUnknown(true)) ==> View() == old(View())
      ensures r.Written? || (r.Unknown? && f == CommitUnknown(true)) ==>
        && Matches(old(View()), key, {Transcribing, Summarizing}) && recordings == old(recordings)
        && var row := old(tasks)[key.task];
        && var number := EventKey(key.task, row.eventSeq + 1);
        && key.task in tasks && tasks == old(tasks)[key.task := tasks[key.task]]
        && number in events && events == old(events)[number := events[number]]
        && FailsTo(row, code, message, now, tasks[key.task], events[number])
    {
      var begun := View();
      if f == Statement(0) || f == Statement(1) {
        return DbError;
      }
      if key.task !in tasks {
        return Stale;
      }
      var task := tasks[key.task];
      if task.attempt != key.attempt {
        return Stale;
      }
      var fromStatus := task.status;
      if !fromStatus.Transcribing? && !fromStatus.Summarizing? {
        return Stale;
      }
      if f == Statement(2) {
        return DbError;
      }
      if task.recordingId !in recordings || recordings[task.recordingId].deletingAt.Some? {
        return Stale;
      }
      assert Guard(begun, Fail(key, code, message, now));
      var affected, inserted := WriteFailure(begun, key, code, message, now);
      r := EndStage(begun, Fail(key, code, message, now), affected, inserted, f);
    }

    /** The conditional update of a failure and its event. */
    method WriteFailure(ghost begun: Db, key: Key, code: int, message: string, now: Time)
      returns (affected: nat, inserted: bool)
      requires Sound(begun) && View() == begun && Guard(begun, Fail(key, code, message, now))
      modifies this`tasks, this`events
      ensures affected == 1 && inserted && View() == Effect(begun, Fail(key, code, message, now))
      ensures var row := old(tasks)[key.task]; var number := EventKey(key.task, row.eventSeq + 1);
        && key.task in tasks && tasks == old(tasks)[key.task := tasks[key.task]]
        && number in events && events == old(events)[number := events[number]]
        && FailsTo(row, code, message, now, tasks[key.task], events[number])
    {
      NextNumberFree(begun, key.task);
      var task := tasks[key.task];
      var domTask := new ProcessingTask(task.status, task.attempt, task.eventSeq);
      var seqNo := domTask.AllocateEventSeq();
      var row, event := Failure(task, code, message, now, domTask.eventSeq);
      affected := UpdateTask(key.task, key.attempt, task.status, row);
      inserted := InsertEvent(key.task, seqNo, event);
    }

    /** The row and the event a failure writes. */
    method Failure(task: Task, code: int, message: string, now: Time, eventSeq: int) returns (row: Task, event: Event)
      requires eventSeq == task.eventSeq + 1
      ensures row == FailRow(task, code, message, now) && event == FailEvent(task, code, message, now)
      ensures FailsTo(task, code, message, now, row, event)
    {
      var autoRetry := task.attempt < AUTO_ATTEMPTS;
      var to, kind, level := Failed, TaskFailed, Error;
      var nextAttempt, nextRetryAt, details, finishedAt := task.attempt, None, NoDetails, Some(now);
      if autoRetry {
        to, kind, level := Pending, TaskAutoRetryScheduled, Warn;
        nextAttempt := nextAttempt + 1;
        var delay := RetryDelayMs(task.attempt);
        nextRetryAt, details, finishedAt := Some(now + delay), RetryAfter(nextAttempt, delay), None;
      }
      row := task.(status := to, attempt := nextAttempt, errorCode := Some(code), errorMessage := message,
                       nextRetryAt := nextRetryAt, transcript := "", summary := None,
                       eventSeq := eventSeq, updatedAt := now, finishedAt := finishedAt);
      event := Event(task.recordingId, task.attempt, kind, now, level,
                         Some(task.status), to, Some(task.status), Some(code), message, details);
    }

    /** RetryTask: a failed task starts a new attempt with a clean row. */
    method RetryTask(t: Id, now: Time, f: Fault) returns (r: RetryReply)
      requires Valid()
      modifies this
      ensures Valid()
      ensures View() ==
          Attempt(old(View()), Retry(t, now), r.Retried? || (r.RetryUnknown? && f.CommitUnknown? && f.applied))
      ensures r.Retried? ==> Guard(old(View()), Retry(t, now)) && r.attempt == old(tasks)[t].attempt + 1
      ensures r.RetryUnknown? ==> Guard(old(View()), Retry(t, now)) && f.CommitUnknown?
      ensures r.TaskNotFound? ==> !Live(old(View()), t)
      ensures r.NotRetryable? ==> Live(old(View()), t) && !old(tasks)[t].status.Failed?
      ensures !r.Inconsistent?
      ensures f.NoFault? ==>
        (r.Retried? <==> t in old(tasks) && Matches(old(View()), Key(t, old(tasks)[t].attempt), {Failed}))
      ensures !r.Retried? && !(r.RetryUnknown? && f == CommitUnknown(true)) ==> View() == old(View())
      ensures r.Retried? || (r.RetryUnknown? && f == CommitUnknown(true)) ==>
        && t in old(tasks) && Matches(old(View()), Key(t, old(tasks)[t].attempt), {Failed})
        && recordings == old(recordings)
        && var row := old(tasks)[t];
        && tasks == old(tasks)[t := row.(status := Pending, attempt := row.attempt + 1, transcript := "",
            summary := None, errorCode := None, errorMessage := "", startedAt := None, finishedAt := None,
            nextRetryAt := None, updatedAt := now, eventSeq := row.eventSeq + 1)]
        && events == old(events)[EventKey(t, row.eventSeq + 1) := Event(row.recordingId, row.attempt + 1,
            TaskRetryAccepted, now, Info, Some(Failed), Pending, None, None, "", NoDetails)]
      ensures r.RetryFailed? ==> f.Statement?
    {
      var begun := View();
      if f == Statement(0) || f == Statement(1) {
        return RetryFailed;
      }
      if t !in tasks {
        return TaskNotFound;
      }
      var task := tasks[t];
      NextNumberFree(begun, t);
      if f == Statement(2) {
        return RetryFailed;
      }
      if task.recordingId !in recordings {
        return Inconsistent;
      }
      if recordings[task.recordingId].deletingAt.Some? {
        return TaskNotFound;
      }
      if !task.status.Failed? {
        return NotRetryable;
      }
      var newAttempt := task.attempt + 1;
      var domTask := new ProcessingTask(task.status, task.attempt, task.eventSeq);
      var seqNo := domTask.AllocateEventSeq();
      var affected := UpdateTask(t, task.attempt, Failed,
                                 task.(status := Pending, attempt := newAttempt, transcript := "", summary := None,
                                       errorCode := None, errorMessage := "", startedAt := None, finishedAt := None,
                                       nextRetryAt := None, eventSeq := domTask.eventSeq, updatedAt := now));
      var event := Event(task.recordingId, newAttempt, TaskRetryAccepted, now, Info,
                         Some(Failed), Pending, None, None, "", NoDetails);
      var inserted := InsertEvent(t, seqNo, event);
      var reply := EndStage(begun, Retry(t, now), affected, inserted, f);
      match reply
      case Written => return Retried(tasks[t].attempt);
      case Unknown => return RetryUnknown;
      case DbError => return RetryFailed;
      case Stale => return NotRetryable;
    }

    /** INSERT IGNORE INTO recording_hash_locks, a transaction of its own. */
    method EnsureHashLock(h: Hash)
      requires Valid()
      modifies this`hashLocks
      ensures Valid() && View() == WithLock(old(View()), h)
    {
      LocksDoNotMatter(View(), hashLocks + {h});
      hashLocks := hashLocks + {h};
    }

    /** CreateOrReuseByContentHash: under the hash lock, either name the active recording with this
        content or insert the three prepared rows. */
    method CreateOrReuse(input: NewRecording, f: Fault) returns (r: CreateReply)
      requires Valid()
      modifies this
      ensures Valid()
      ensures r.Created? ==>
          Guard(old(View()), Create(input)) && View() == Effect(WithLock(old(View()), input.hash), Create(input))
      ensures r.Reused? ==>
        && View() == WithLock(old(View()), input.hash)
        && Reusable(old(View()), r.task, input.hash) && r.rec == old(tasks)[r.task].recordingId
            && r.status == old(tasks)[r.task].status
      ensures r.CreateUnknown? ==>
          f.CommitUnknown? && View() == Attempt(WithLock(old(View()), input.hash), Create(input), f.applied)
      ensures r.CreateRolledBack? ==> View() == old(View()) || View() == WithLock(old(View()), input.hash)
      ensures r.CreateRolledBack? ==> f.Statement? || !Lawful(old(View()), Create(input))
      ensures r.Created? ==>
        && (forall s :: s in old(recordings) && old(recordings)[s].hash == input.hash ==>
              old(recordings)[s].deletingAt.Some?)
        && recordings == old(recordings)[input.rec := Recording(input.filename, input.path, input.extension, input.size,
            input.hash, None, input.now, input.now)]
        && tasks == old(tasks)[input.task := Task(input.rec, Pending, 1, 1, "", None, None, "", input.now, input.now,
            None, None, None)]
        && events == old(events)[EventKey(input.task, 1) := Event(input.rec, 1, TaskCreated, input.now, Info, None,
            Pending, None, None, "", NoDetails)]
      ensures r.Reused? ==>
        && r.task in old(tasks) && old(tasks)[r.task].recordingId == r.rec && r.rec in old(recordings)
        && old(recordings)[r.rec].deletingAt.None? && old(recordings)[r.rec].hash == input.hash
      ensures f.NoFault? && Lawful(old(View()), Create(input)) ==>
          (r.Created? <==> Guard(old(View()), Create(input))) && (r.Created? || r.Reused?)
    {
      ghost var before := View();
      if f == Statement(0) {
        return CreateRolledBack;
      }
      EnsureHashLock(input.hash);
      var begun := View();
      if f == Statement(1) || f == Statement(2) || f == Statement(3) {
        return CreateRolledBack;
      }
      if exists t :: t in tasks.Keys && Reusable(View(), t, input.hash) {
        var t :| t in tasks.Keys && Reusable(View(), t, input.hash);
        assert Reusable(before, t, input.hash);
        return if f.CommitUnknown? then CreateUnknown else Reused(tasks[t].recordingId, t, tasks[t].status);
      }
      forall s | s in recordings && recordings[s].hash == input.hash ensures recordings[s].deletingAt.Some? {
        EveryOneHasTask(begun, s);
      }
      var inserted := InsertRows(input, f);
      if !inserted {
        return CreateRolledBack;
      }
      if f.CommitUnknown? {
        if !f.applied {
          Rollback(begun);
        }
        return CreateUnknown;
      }
      return Created;
    }

    /** The three INSERTs, rolled back together when one of them fails. */
    method InsertRows(input: NewRecording, f: Fault) returns (ok: bool)
      requires Valid() && Guard(View(), Create(input))
      modifies this
      ensures Valid()
      ensures View() == if ok then Effect(old(View()), Create(input)) else old(View())
      ensures ok ==>
        && recordings == old(recordings)[input.rec := Recording(input.filename, input.path, input.extension, input.size,
            input.hash, None, input.now, input.now)]
        && tasks == old(tasks)[input.task := Task(input.rec, Pending, 1, 1, "", None, None, "", input.now, input.now,
            None, None, None)]
        && events == old(events)[EventKey(input.task, 1) := Event(input.rec, 1, TaskCreated, input.now, Info, None,
            Pending, None, None, "", NoDetails)]
      ensures ok ==> !f.Statement?
      ensures !ok ==> f.Statement? || !Lawful(old(View()), Create(input))
    {
      var begun := View();
      if f == Statement(4) || input.rec in recordings
          || exists s :: s in recordings.Keys && recordings[s].path == input.path {
        return false;
      }
      recordings := recordings[input.rec := Recording(input.filename, input.path, input.extension, input.size,
          input.hash, None, input.now, input.now)];
      if f == Statement(5) || input.task in tasks {
        Rollback(begun);
        return false;
      }
      tasks := tasks[input.task := NewTask(input)];
      FirstNumberFree(begun, input.task);
      var inserted := InsertEvent(input.task, 1, CreatedEvent(input));
      if f.Statement? || !inserted {
        Rollback(begun);
        return false;
      }
      Keeps(begun, Create(input), true);
      return true;
    }

    /** SELECT id FROM tasks WHERE recording_id = ?. */
    method TaskOf(r: Id) returns (t: Option<Id>)
      ensures t.Some? ==> t.value in tasks && tasks[t.value].recordingId == r
      ensures t.None? ==> forall u :: u in tasks ==> tasks[u].recordingId != r
    {
      if exists u :: u in tasks.Keys && tasks[u].recordingId == r {
        var u :| u in tasks.Keys && tasks[u].recordingId == r;
        return Some(u);
      }
      return None;
    }

    /** MarkDeleting: set deleting_at once and append task_delete_requested; marking again is a success
        that changes nothing. */
    method MarkDeleting(r: Id, now: Time, f: Fault) returns (reply: MarkReply)
      requires Valid()
      modifies this
      ensures Valid()
      ensures reply.Marked? ==>
        && r in old(recordings) && Deleting(View(), r)
        && (reply.task.Some? ==> reply.task.value in old(tasks) && old(tasks)[reply.task.value].recordingId == r)
        && View() == Attempt(WithLock(old(View()), old(recordings)[r].hash), Mark(r, reply.task, now), true)
      ensures reply.Marked? && old(recordings)[r].deletingAt.Some? ==>
          recordings == old(recordings) && tasks == old(tasks) && events == old(events)
      ensures reply.Marked? && old(recordings)[r].deletingAt.None? ==>
        && recordings == old(recordings)[r := old(recordings)[r].(deletingAt := Some(now), updatedAt := now)]
        && reply.task.Some?
        && var row := old(tasks)[reply.task.value];
        && tasks == old(tasks)[reply.task.value := row.(updatedAt := now, eventSeq := row.eventSeq + 1)]
        && events == old(events)[EventKey(reply.task.value, row.eventSeq + 1) := Event(r, row.attempt,
            TaskDeleteRequested, now, Info, Some(row.status), row.status, None, None, "", NoDetails)]
      ensures f.NoFault? ==> (reply.Marked? <==> r in old(recordings) && old(recordings)[r].hash != "")
      ensures reply.MarkUnknown? ==> f.CommitUnknown? && r in old(recordings) && exists of ::
        View() == Attempt(WithLock(old(View()), old(recordings)[r].hash), Mark(r, of, now), f.applied)
      ensures reply.RecordingNotFound? ==> View() == old(View()) && (r !in recordings || recordings[r].hash == "")
      ensures reply.MarkFailed? ==> f.Statement? && View().(hashLocks := {}) == old(View()).(hashLocks := {})
    {
      if f == Statement(0) {
        return MarkFailed;
      }
      var hint := TaskOf(r);
      if r !in recordings || recordings[r].hash == "" {
        return RecordingNotFound;
      }
      var rec := recordings[r];
      EveryOneHasTask(View(), r);
      EnsureHashLock(rec.hash);
      var begun := View();
      if f == Statement(1) || f == Statement(2) || f == Statement(3) {
        return MarkFailed;
      }
      if rec.deletingAt.Some? {
        return Marked(hint);
      }
      recordings := recordings[r := rec.(deletingAt := Some(now), updatedAt := now)];
      if hint.Some? {
        var requested := RequestDeletion(begun, hint.value, now);
        if !requested {
          return MarkFailed;
        }
      }
      Keeps(begun, Mark(r, hint, now), true);
      if f.Statement? {
        Rollback(begun);
        return MarkFailed;
      }
      if f.CommitUnknown? {
        if !f.applied {
          Rollback(begun);
        }
        assert View() == Attempt(begun, Mark(r, hint, now), f.applied);
        return MarkUnknown;
      }
      return Marked(hint);
    }

    /** The task half of the mark: its next event, task_delete_requested, and the number it takes. */
    method RequestDeletion(ghost begun: Db, t: Id, now: Time) returns (ok: bool)
      requires Sound(begun) && tasks == begun.tasks && events == begun.events && t in tasks
      modifies this`tasks, this`events
      ensures ok && tasks == old(tasks)[t := MarkRow(old(tasks)[t], now)]
      ensures events == old(events)[EventKey(t, old(tasks)[t].eventSeq + 1) := MarkEvent(old(tasks)[t], now)]
    {
      NextNumberFree(begun, t);
      var task := tasks[t];
      var domTask := new ProcessingTask(task.status, task.attempt, task.eventSeq);
      var seqNo := domTask.AllocateEventSeq();
      tasks := tasks[t := task.(eventSeq := domTask.eventSeq, updatedAt := now)];
      var event := Event(task.recordingId, task.attempt, TaskDeleteRequested, now, Info,
                         Some(task.status), task.status, None, None, "", NoDetails);
      ok := InsertEvent(t, seqNo, event);
    }

    /** PurgeRecording: events, tasks and the recording in one transaction, whatever the identifier. */
    method PurgeRecording(r: Id, f: Fault) returns (reply: PlainReply)
      requires Valid()
      modifies this
      ensures Valid()
      ensures View() ==
          Attempt(old(View()), Purge(r), reply.Committed?
              || (reply.OutcomeUnknown? && f.CommitUnknown? && f.applied))
      ensures reply.RolledBack? <==> f.Statement?
      ensures reply.OutcomeUnknown? <==> f.CommitUnknown?
    {
      var begun := View();
      Keeps(begun, Purge(r), true);
      if f == Statement(0) || f == Statement(1) {
        return RolledBack;
      }
      events := map k | k in events && events[k].recordingId != r :: events[k];
      if f == Statement(2) {
        Rollback(begun);
        return RolledBack;
      }
      tasks := map t | t in tasks && tasks[t].recordingId != r :: tasks[t];
      if f.Statement? {
        Rollback(begun);
        return RolledBack;
      }
      recordings := recordings - {r};
      if f.CommitUnknown? {
        if !f.applied {
          Rollback(begun);
        }
        return OutcomeUnknown;
      }
      return Committed;
    }

    /** InspectIntegrity: tasks without a recording, and active recordings without a task. */
    method InspectIntegrity() returns (orphans: set<Id>, missing: set<Id>)
      ensures orphans == set t | t in tasks && tasks[t].recordingId !in recordings
      ensures missing == set r | r in recordings && recordings[r].deletingAt.None? && !HasTask(View(), r)
      ensures Valid() ==> orphans == {} && missing == {}
    {
      orphans := set t | t in tasks && tasks[t].recordingId !in recordings;
      missing := set r | r in recordings && recordings[r].deletingAt.None? && forall t :: t in tasks.Keys ==>
          tasks[t].recordingId != r;
      assert forall r :: HasTask(View(), r) <==> exists t :: t in tasks.Keys && tasks[t].recordingId == r;
      if Valid() {
        assert Inv(View());
      }
    }

    /** ListStoragePaths: the path of every recording, marked ones included. */
    method ListStoragePaths() returns (paths: seq<Path>)
      ensures forall p :: p in paths <==> p in ReferencedPaths(recordings)
    {
      paths := [];
      var rest := recordings.Keys;
      while rest != {}
        invariant rest <= recordings.Keys
        invariant forall p :: p in paths ==> p in ReferencedPaths(recordings)
        invariant forall r :: r in recordings.Keys - rest ==> recordings[r].path in paths
      {
        var r :| r in rest;
        paths, rest := paths + [recordings[r].path], rest - {r};
      }
    }

    /** SELECT ... WHERE status IN (transcribing, summarizing) ORDER BY id. */
    method ScanInFlight() returns (ids: seq<Id>)
      ensures Lists(tasks, ids)
    {
      ids := [];
      var rest := InFlightTasks(tasks);
      while rest != {}
        invariant rest <= InFlightTasks(tasks)
        invariant forall t :: t in ids <==> t in InFlightTasks(tasks) - rest
        invariant Distinct(ids)
      {
        ghost var smallest := SmallestOf(rest);
        var t :| t in rest && forall u :: u in rest ==> t <= u;
        assert t !in ids;
        ids, rest := ids + [t], rest - {t};
      }
    }

    /** Validate the recovery edge of every scanned row and build its event; the edge is never refused. */
    method PrepareEvents(ids: seq<Id>, interrupt: bool, now: Time)
      returns (ok: bool, prepared: seq<(EventKey, Event)>)
      requires Lists(tasks, ids)
      ensures ok && Prepared(tasks, ids, prepared, interrupt, now)
      ensures forall k :: 0 <= k < |prepared| ==>
          prepared[k].0 == EventKey(ids[k], tasks[ids[k]].eventSeq + 1)
              && ResetTold(tasks[ids[k]], interrupt, now, prepared[k].1)
    {
      var target := if interrupt then Failed else Pending;
      prepared := [];
      for i := 0 to |ids|
        invariant Prepared(tasks, ids[..i], prepared, interrupt, now)
      {
        assert ids[i] in ids;
        var task := tasks[ids[i]];
        var domTask := new ProcessingTask(task.status, task.attempt, task.eventSeq);
        var edge := domTask.TransitionForRecovery(target);
        if edge.Err? {
          return false, prepared;
        }
        var seqNo := domTask.AllocateEventSeq();
        var eventAttempt, kind, level, code, message := task.attempt, TaskRecovered, Info, None, "";
        if interrupt {
          kind, level, code, message := TaskInterrupted, Warn, Some(SERVICE_INTERRUPTED), INTERRUPTED_MESSAGE;
        } else {
          eventAttempt := eventAttempt + 1;
        }
        var event := Event(task.recordingId, eventAttempt, kind, now, level,
                           Some(task.status), target, None, code, message, Previous(task.attempt, task.status));
        prepared := prepared + [(EventKey(ids[i], seqNo), event)];
      }
      assert ids[..|ids|] == ids;
      return true, prepared;
    }

    /** The single bulk UPDATE; returns RowsAffected. */
    method UpdateInFlight(ghost ids: seq<Id>, interrupt: bool, now: Time) returns (affected: nat)
      requires Lists(tasks, ids)
      modifies this`tasks
      ensures tasks == BulkRows(old(tasks), interrupt, now)
      ensures affected == |ids|
    {
      affected := |InFlightTasks(tasks)|;
      DistinctSize(ids);
      assert Members(ids) == InFlightTasks(tasks);
      tasks := BulkRows(tasks, interrupt, now);
    }

    /** The prepared events, inserted one after the other; none of their numbers is taken. */
    method InsertAll(
        ghost begun: Db, ghost ids: seq<Id>, prepared: seq<(EventKey, Event)>, ghost interrupt: bool,
        ghost now: Time)
      returns (ok: bool)
      requires Sound(begun) && Distinct(ids) && Prepared(begun.tasks, ids, prepared, interrupt, now)
      requires events == begun.events
      requires forall t :: t in ids ==> t in begun.tasks
      modifies this`events
      ensures ok && events == BulkEvents(begun.tasks, begun.events, ids, interrupt, now)
    {
      for i := 0 to |prepared|
        invariant forall t :: t in ids[..i] ==> t in begun.tasks
        invariant events == BulkEvents(begun.tasks, begun.events, ids[..i], interrupt, now)
      {
        BatchNumbersFree(begun, ids[..i], ids[i], interrupt, now);
        assert ids[..i + 1][..i] == ids[..i] && ids[..i + 1][i] == ids[i];
        var (key, event) := prepared[i];
        var inserted := InsertEvent(key.task, key.seqNo, event);
        if !inserted {
          return false;
        }
      }
      assert ids[..|ids|] == ids;
      return true;
    }

    /** The writes of the reset, none of which fails on its own. */
    method WriteResets(ghost begun: Db, scanned: seq<Id>, interrupt: bool, now: Time) returns (ok: bool)
      requires Sound(begun) && View() == begun && Lists(tasks, scanned)
      modifies this`tasks, this`events
      ensures ok && View() == Run(begun, ResetOps(scanned, interrupt, now))
    {
      BatchIsPointwise(begun, scanned, interrupt, now);
      var prepared;
      ok, prepared := PrepareEvents(scanned, interrupt, now);
      if !ok {
        return false;
      }
      var affected := UpdateInFlight(scanned, interrupt, now);
      if affected != |scanned| {
        return false;
      }
      ok := InsertAll(begun, scanned, prepared, interrupt, now);
    }

    /** ResetInFlight: scan, validate each edge and prepare its event, one bulk update checked by its row
        count, then the events. Equal to resetting the scanned rows one by one; the row count and the
        edge check never fail. */
    method ResetInFlight(interrupt: bool, now: Time, f: Fault) returns (r: ResetReply, ghost ids: seq<Id>)
      requires Valid()
      modifies this
      ensures Valid()
      ensures Lists(old(tasks), ids)
      ensures r.ResetDone? || (r.ResetUnknown? && f == CommitUnknown(true)) ==>
          ResetLeaves(old(View()), interrupt, now, View())
      ensures r.ResetDone? ==> r.count == |ids| && View() == Run(old(View()), ResetOps(ids, interrupt, now))
      ensures r.ResetUnknown? ==>
          f.CommitUnknown?
              && View() == if f.applied then Run(old(View()), ResetOps(ids, interrupt, now)) else old(View())
      ensures r.ResetFailed? ==> f.Statement? && View() == old(View())
    {
      var begun := View();
      var scanned := ScanInFlight();
      ids := scanned;
      BatchKeeps(begun, scanned, interrupt, now);
      ResetsLeave(begun, scanned, interrupt, now);
      if f == Statement(0) || f == Statement(1) {
        return ResetFailed, ids;
      }
      if |scanned| == 0 {
        return ResetDone(0), ids;
      }
      var ok := WriteResets(begun, scanned, interrupt, now);
      if !ok || f.Statement? {
        Rollback(begun);
        return ResetFailed, ids;
      }
      if f.CommitUnknown? {
        if !f.applied {
          Rollback(begun);
        }
        return ResetUnknown, ids;
      }
      return ResetDone(|scanned|), ids;
    }

    /** Common end of the stage writes: roll back after a failed statement, otherwise commit. */
    method EndStage(begun: Db, ghost op: Op, affected: nat, inserted: bool, f: Fault) returns (r: StageReply)
      requires Sound(begun) && Guard(begun, op)
      requires affected > 0 && inserted ==> View() == Effect(begun, op)
      modifies this
      ensures Lawful(begun, op) ==> Valid()
      ensures r.Stale? ==> affected == 0
      ensures r.DbError? ==> f.Statement? || !inserted
      ensures r.Unknown? ==> f.CommitUnknown?
      ensures r.Written? || r.Unknown? ==> affected > 0 && inserted && !f.Statement?
      ensures View() == if r.Written? || (r.Unknown? && f.applied) then Effect(begun, op) else begun
      ensures f.NoFault? && affected > 0 && inserted ==> r.Written?
    {
      if Lawful(begun, op) { Keeps(begun, op, true); }
      if f.Statement? || !inserted {
        Rollback(begun);
        return DbError;
      }
      if affected == 0 {
        Rollback(begun);
        return Stale;
      }
      if f.CommitUnknown? {
        if !f.applied {
          Rollback(begun);
        }
        return Unknown;
      }
      return Written;
    }
  }

  /** The write took effect: it was reported, or it committed and the report was lost. */
  predicate TookEffect(r: StageReply, f: Fault) {
    r.Written? || (r.Unknown? && f.CommitUnknown? && f.applied)
  }

  /** What the reply of a stage write tells about the row it was aimed at. */
  ghost predicate StageOutcome(before: Db, op: Op, r: StageReply, f: Fault) {
    && (r.Stale? ==> !Guard(before, op))
    && (r.Written? || r.Unknown? ==> Guard(before, op))
    && (r.Unknown? ==> f.CommitUnknown?)
    && (r.DbError? ==> f.Statement?)
    && (f.NoFault? ==> (r.Written? <==> Guard(before, op)))
  }
}
