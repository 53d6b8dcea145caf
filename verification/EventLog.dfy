/** The event log as an automaton of its own. Replaying a log from its first event rebuilds everything
    in a task row except the transcript and the summary; what holds of every log that replays is
    proved here without looking at any transaction. */
module EventLog {
  import opened Prelude
  import opened Lifecycle

  /** What the log determines of a task row and of its recording's deletion mark. */
  datatype Head = Head(
    recordingId: Id,
    status: Status,
    attempt: int,
    eventSeq: int,
    errorCode: Option<int>,
    errorMessage: string,
    createdAt: Time,
    updatedAt: Time,
    startedAt: Option<Time>,
    finishedAt: Option<Time>,
    nextRetryAt: Option<Time>,
    deleting: bool)

  /** Events only workers write: claim, transcript, completion, failure and automatic retry. */
  predicate ByWorker(k: Kind) {
    k in {TaskClaimed, TranscriptionCompleted, TaskCompleted, TaskFailed, TaskAutoRetryScheduled}
  }

  predicate ByBoot(k: Kind) {
    k in {TaskRecovered, TaskInterrupted}
  }

  /** The first event of a task. */
  function Start(e: Event): Option<Head> {
    if e.kind.TaskCreated? && e.from.None? && e.to.Pending? && e.attempt == 1 then
      Some(Head(e.recordingId, Pending, 1, 1, None, "", e.occurredAt, e.occurredAt, None, None, None, false))
    else None
  }

  /** What every later event must agree on: it continues the previous status, it follows an edge of the
      domain matrix (a deletion request keeps the status), and once deletion was requested only boot
      recovery writes. */
  predicate Continues(h: Head, e: Event) {
    && e.recordingId == h.recordingId
    && e.from == Some(h.status)
    && (if e.kind.TaskDeleteRequested? then e.to == h.status else CanTransition(h.status, e.to))
    && (h.deleting ==> ByBoot(e.kind))
    && e.attempt == h.attempt + (if e.kind in {TaskRetryAccepted, TaskRecovered} then 1 else 0)
  }

  function Apply(h: Head, e: Event): Option<Head> {
    if !Continues(h, e) then None
    else
      var n := h.(status := e.to, eventSeq := h.eventSeq + 1, updatedAt := e.occurredAt);
      match e.kind
      case TaskCreated => None
      case TaskClaimed =>
        if h.status.Pending? && e.to.Transcribing? then
          Some(n.(errorCode := None, errorMessage := "", nextRetryAt := None, startedAt := Some(e.occurredAt)))
        else None
      case TranscriptionCompleted =>
        if h.status.Transcribing? && e.to.Summarizing? then Some(n) else None
      case TaskCompleted =>
        if h.status.Summarizing? && e.to.Done? then Some(n.(finishedAt := Some(e.occurredAt))) else None
      case TaskFailed =>
        if InFlight(h.status) && e.to.Failed? && h.attempt >= AUTO_ATTEMPTS then
          Some(n.(errorCode := e.errorCode, errorMessage := e.errorMessage, nextRetryAt := None,
              finishedAt := Some(e.occurredAt)))
        else None
      case TaskAutoRetryScheduled =>
        if InFlight(h.status) && e.to.Pending? && h.attempt < AUTO_ATTEMPTS
           && e.details == RetryAfter(h.attempt + 1, RetryDelayMs(h.attempt)) then
          Some(n.(attempt := h.attempt + 1, errorCode := e.errorCode, errorMessage := e.errorMessage,
                  nextRetryAt := Some(e.occurredAt + e.details.retryAfterMs), finishedAt := None))
        else None
      case TaskRetryAccepted =>
        if h.status.Failed? && e.to.Pending? then
          Some(n.(attempt := e.attempt, errorCode := None, errorMessage := "", startedAt := None,
              finishedAt := None, nextRetryAt := None))
        else None
      case TaskRecovered =>
        if InFlight(h.status) && e.to.Pending? && e.details == Previous(h.attempt, h.status) then
          Some(n.(attempt := e.attempt, errorCode := None, errorMessage := "", startedAt := None, finishedAt := None))
        else None
      case TaskInterrupted =>
        if InFlight(h.status) && e.to.Failed? && e.details == Previous(h.attempt, h.status) then
          Some(n.(errorCode := e.errorCode, errorMessage := e.errorMessage, finishedAt := Some(e.occurredAt)))
        else None
      case TaskDeleteRequested =>
        Some(n.(deleting := true))
  }

  function Replay(log: seq<Event>): Option<Head> {
    if |log| == 0 then None
    else if |log| == 1 then Start(log[0])
    else
      match Replay(log[..|log| - 1])
      case None => None
      case Some(h) => Apply(h, log[|log| - 1])
  }

  function Init(log: seq<Event>): seq<Event>
    requires |log| > 0
  {
    log[..|log| - 1]
  }

  lemma ReplayAppend(log: seq<Event>, e: Event)
    requires Replay(log).Some?
    ensures Replay(log + [e]) == Apply(Replay(log).value, e)
  {
    assert (log + [e])[..|log|] == log;
  }

  /** A log that replays still replays without its last event. */
  lemma ReplayInit(log: seq<Event>)
    requires Replay(log).Some? && |log| > 1
    ensures Replay(Init(log)).Some? && Apply(Replay(Init(log)).value, log[|log| - 1]) == Replay(log)
  {
  }

  /** The head of a log is read off its last event: the status it reached and its attempt, one more if
      it scheduled an automatic retry. */
  lemma {:induction false} LastEvent(log: seq<Event>)
    requires Replay(log).Some?
    ensures var h := Replay(log).value; var e := log[|log| - 1];
      && h.status == e.to
      && h.attempt == e.attempt + (if e.kind.TaskAutoRetryScheduled? then 1 else 0)
      && h.updatedAt == e.occurredAt
      && h.eventSeq == |log|
  {
    if |log| > 1 {
      LastEvent(Init(log));
    }
  }

  /** Each event starts where the previous one ended, along an edge of the domain matrix or, for a
      deletion request only, on the spot; attempts never decrease along the log. */
  lemma {:induction false} LogChains(log: seq<Event>, n: nat)
    requires Replay(log).Some? && 1 <= n < |log|
    ensures log[n].from == Some(log[n - 1].to)
    ensures if log[n].kind.TaskDeleteRequested? then log[n].to == log[n - 1].to
        else CanTransition(log[n - 1].to, log[n].to)
    ensures log[n].attempt >= log[n - 1].attempt
  {
    ReplayInit(log);
    if n < |log| - 1 {
      LogChains(Init(log), n);
    } else {
      LastEvent(Init(log));
    }
  }

  /** After a claim the attempt is either the claimed one with the row out of pending, or a later one. */
  lemma {:induction false} AfterClaim(log: seq<Event>, i: nat)
    requires Replay(log).Some? && i < |log| && log[i].kind.TaskClaimed?
    ensures var h := Replay(log).value;
      h.attempt > log[i].attempt || (h.attempt == log[i].attempt && !h.status.Pending?)
  {
    if i < |log| - 1 {
      ReplayInit(log);
      AfterClaim(Init(log), i);
    }
  }

  /** Two claims in one log carry strictly increasing attempts. */
  lemma {:induction false} ClaimsAdvance(log: seq<Event>, i: nat, j: nat)
    requires Replay(log).Some? && i < j < |log|
    requires log[i].kind.TaskClaimed? && log[j].kind.TaskClaimed?
    ensures log[i].attempt < log[j].attempt
  {
    ReplayInit(log);
    if j < |log| - 1 {
      ClaimsAdvance(Init(log), i, j);
    } else {
      AfterClaim(Init(log), i);
    }
  }

  // ---- How often a task can be retried automatically ----

  function Count(log: seq<Event>, k: Kind): nat {
    if |log| == 0 then 0
    else Count(log[..|log| - 1], k) + (if log[|log| - 1].kind == k then 1 else 0)
  }

  /** A task is retried automatically at most twice in its whole life, however often it is restarted or
      retried by hand, because the budget test looks at the absolute attempt number. */
  lemma {:induction false} AtMostTwoAutomaticRetries(log: seq<Event>)
    requires Replay(log).Some?
    ensures Count(log, TaskAutoRetryScheduled) <= 2
    ensures Count(log, TaskAutoRetryScheduled) < Replay(log).value.attempt
  {
    if |log| > 1 {
      AtMostTwoAutomaticRetries(log[..|log| - 1]);
    } else {
      assert log[..0] == [];
    }
  }

  /** Automatic retries at index i and later. */
  function AutoRetriesFrom(log: seq<Event>, i: nat): nat {
    if |log| <= i then 0
    else AutoRetriesFrom(Init(log), i) + (if log[|log| - 1].kind.TaskAutoRetryScheduled? then 1 else 0)
  }

  lemma AttemptStep(h: Head, e: Event)
    requires Apply(h, e).Some?
    ensures Apply(h, e).value.attempt >= h.attempt
    ensures e.kind.TaskAutoRetryScheduled? ==> h.attempt < AUTO_ATTEMPTS && Apply(h, e).value.attempt == h.attempt + 1
  {
  }

  lemma {:induction false} PrefixReplays(log: seq<Event>, i: nat)
    requires Replay(log).Some? && 1 <= i <= |log|
    ensures Replay(log[..i]).Some?
  {
    if i == |log| {
      assert log[..i] == log;
    } else {
      PrefixReplays(Init(log), i);
      assert Init(log)[..i] == log[..i];
    }
  }

  /** c automatic retries leave an attempt of at least a + c, and the budget bounds c. */
  predicate WithinBudget(a: int, c: nat, attempt: int) {
    attempt >= a + c && (c > 0 ==> c <= AUTO_ATTEMPTS - a)
  }

  /** From any point of a log on, there are at most as many automatic retries as the attempt reached there
      leaves below the third. */
  lemma {:induction false} AutoRetriesLeft(log: seq<Event>, i: nat, a: int)
    requires Replay(log).Some? && 1 <= i <= |log| && Replay(log[..i]).Some?
    requires Replay(log[..i]).value.attempt == a
    ensures WithinBudget(a, AutoRetriesFrom(log, i), Replay(log).value.attempt)
  {
    if i == |log| {
      assert log[..i] == log;
    } else {
      ReplayInit(log);
      assert Init(log)[..i] == log[..i];
      AutoRetriesLeft(Init(log), i, a);
      AttemptStep(Replay(Init(log)).value, log[|log| - 1]);
    }
  }

  /** A manual retry opens no new budget: after one from attempt a, at most 2 - a automatic retries follow, and
      none at all if the task had failed because its automatic attempts were used up. */
  lemma ManualRetryBudget(log: seq<Event>, i: nat)
    requires Replay(log).Some? && 1 <= i < |log| && log[i].kind.TaskRetryAccepted?
    ensures Replay(log[..i]).Some?
    ensures var a := Replay(log[..i]).value.attempt;
      log[i].attempt == a + 1 && AutoRetriesFrom(log, i + 1) <= (if a < 2 then 2 - a else 0)
    ensures log[i - 1].kind.TaskFailed? ==> AutoRetriesFrom(log, i + 1) == 0
  {
    PrefixReplays(log, i);
    PrefixReplays(log, i + 1);
    assert log[..i + 1][..i] == log[..i];
    AutoRetriesLeft(log, i + 1, Replay(log[..i + 1]).value.attempt);
    if log[i - 1].kind.TaskFailed? {
      FailedAtLast(log[..i]);
    }
  }

  lemma FailedAtLast(log: seq<Event>)
    requires Replay(log).Some? && |log| > 0 && log[|log| - 1].kind.TaskFailed?
    ensures Replay(log).value.attempt >= AUTO_ATTEMPTS
  {
  }

  /** Deletion is requested at most once, exactly when the head says so. */
  lemma {:induction false} DeletionRequestedOnce(log: seq<Event>)
    requires Replay(log).Some?
    ensures Count(log, TaskDeleteRequested) == if Replay(log).value.deleting then 1 else 0
  {
    if |log| > 1 {
      DeletionRequestedOnce(log[..|log| - 1]);
    } else {
      assert log[..0] == [];
    }
  }

  lemma {:induction false} DeletionStays(log: seq<Event>, i: nat)
    requires Replay(log).Some? && i < |log| && log[i].kind.TaskDeleteRequested?
    ensures Replay(log).value.deleting
  {
    if i < |log| - 1 {
      ReplayInit(log);
      DeletionStays(Init(log), i);
    }
  }

  /** Everything after the deletion request was written by boot recovery. */
  lemma {:induction false} OnlyBootWritesAfterDeletion(log: seq<Event>, i: nat, j: nat)
    requires Replay(log).Some? && i < j < |log| && log[i].kind.TaskDeleteRequested?
    ensures ByBoot(log[j].kind)
  {
    ReplayInit(log);
    if j < |log| - 1 {
      OnlyBootWritesAfterDeletion(Init(log), i, j);
    } else {
      DeletionStays(Init(log), i);
    }
  }

  // ---- Termination between manual retries and restarts ----

  /** Falls on every worker transition: three per automatic attempt left, plus the distance to the end
      of the current attempt. */
  function Measure(status: Status, attempt: int): int {
    3 * (if attempt < AUTO_ATTEMPTS then AUTO_ATTEMPTS - attempt else 0)
    + (match status case Pending => 3 case Transcribing => 2 case Summarizing => 1 case _ => 0)
  }

  lemma MeasureFalls(h: Head, e: Event)
    requires Apply(h, e).Some?
    ensures var n := Apply(h, e).value;
      && (ByWorker(e.kind) ==> 0 <= Measure(n.status, n.attempt) < Measure(h.status, h.attempt))
      && (e.kind.TaskDeleteRequested? ==> Measure(n.status, n.attempt) == Measure(h.status, h.attempt))
  {
  }

  lemma {:induction false} AttemptPositive(log: seq<Event>)
    requires Replay(log).Some?
    ensures Replay(log).value.attempt >= 1
  {
    if |log| > 1 {
      AttemptPositive(log[..|log| - 1]);
    }
  }

  /** Worker events at index i and later. */
  function WorkerEvents(log: seq<Event>, i: nat): nat {
    if |log| <= i then 0
    else WorkerEvents(Init(log), i) + (if ByWorker(log[|log| - 1].kind) then 1 else 0)
  }

  /** Between manual retries and restarts a task makes at most nine transitions: a log that continues
      some earlier log without a retry or a recovery adds at most nine worker events to it. */
  lemma {:induction false} AtMostNineTransitions(log: seq<Event>, i: nat)
    requires Replay(log).Some? && 1 <= i <= |log|
    requires forall k :: i <= k < |log| ==> ByWorker(log[k].kind) || log[k].kind.TaskDeleteRequested?
    ensures Replay(log[..i]).Some?
    ensures WorkerEvents(log, i) <= 9
    ensures var a := Replay(log[..i]).value; var b := Replay(log).value;
      WorkerEvents(log, i) + Measure(b.status, b.attempt) <= Measure(a.status, a.attempt)
  {
    if i == |log| {
      assert log[..i] == log;
    } else {
      ReplayInit(log);
      AtMostNineTransitions(Init(log), i);
      assert Init(log)[..i] == log[..i];
      MeasureFalls(Replay(Init(log)).value, log[|log| - 1]);
      assert WorkerEvents(log, i) == WorkerEvents(Init(log), i) + if ByWorker(log[|log| - 1].kind) then 1 else 0;
    }
    AttemptPositive(log[..i]);
    assert 0 <= Measure(Replay(log).value.status, Replay(log).value.attempt);
  }
}
