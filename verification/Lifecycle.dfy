/** The task state machine of the domain layer: statuses, the transition matrix, lifecycle events,
    and the entity whose methods the recovery code calls. */
module Lifecycle {
  import opened Prelude

  datatype Status = Pending | Transcribing | Summarizing | Done | Failed

  const TRANSITIONS: map<Status, set<Status>> := map[
    Pending := {Transcribing, Failed},
    Transcribing := {Summarizing, Failed, Pending},
    Summarizing := {Done, Failed, Pending},
    Failed := {Pending}
  ]

  predicate CanTransition(from: Status, to: Status) {
    from in TRANSITIONS && to in TRANSITIONS[from]
  }

  predicate InFlight(s: Status) {
    s.Transcribing? || s.Summarizing?
  }

  /** The match key of every conditional write: one claimed attempt of one task. */
  datatype Key = Key(task: Id, attempt: int)

  datatype Kind =
    | TaskCreated | TaskClaimed | TranscriptionCompleted | TaskCompleted | TaskFailed
    | TaskAutoRetryScheduled | TaskRetryAccepted | TaskRecovered | TaskInterrupted | TaskDeleteRequested

  datatype Level = Info | Warn | Error

  datatype Details =
    | NoDetails
    | RetryAfter(nextAttempt: int, retryAfterMs: int)
    | Previous(attempt: int, status: Status)

  datatype Event = Event(
    recordingId: Id,
    attempt: int,
    kind: Kind,
    occurredAt: Time,
    level: Level,
    from: Option<Status>,
    to: Status,
    stage: Option<Status>,
    errorCode: Option<int>,
    errorMessage: string,
    details: Details)

  const SERVICE_INTERRUPTED := 30003
  const INTERRUPTED_MESSAGE := "service restart interrupted the task, retry it by hand"
  const AUTO_ATTEMPTS := 3
  const ASR_FAILED := 40001
  const LLM_ERRORS := {50001, 50002, 50003}
  const INTERNAL_ERROR := 90001

  /** Backoff before the next automatic attempt: one second shifted left once per attempt already made. */
  function RetryDelayMs(attempt: int): int {
    if attempt <= 1 then 1000 else 2 * RetryDelayMs(attempt - 1)
  }

  datatype TransitionError = AttemptMismatch | InvalidTransition

  class ProcessingTask {
    var status: Status
    var attempt: int
    var eventSeq: int

    constructor (status: Status, attempt: int, eventSeq: int)
      ensures this.status == status && this.attempt == attempt && this.eventSeq == eventSeq
    {
      this.status, this.attempt, this.eventSeq := status, attempt, eventSeq;
    }

    /** A stale attempt is refused before the edge is looked at; a refusal leaves the task as it was. */
    method Transition(attempt: int, to: Status) returns (r: Result<(), TransitionError>)
      modifies this`status
      ensures r.Ok? <==> attempt == this.attempt && CanTransition(old(status), to)
      ensures r.Ok? <==> attempt == this.attempt && (old(status), to) in {
        (Pending, Transcribing), (Transcribing, Summarizing), (Summarizing, Done),
        (Pending, Failed), (Transcribing, Failed), (Summarizing, Failed),
        (Transcribing, Pending), (Summarizing, Pending), (Failed, Pending)}
      ensures r == Err(AttemptMismatch) <==> attempt != this.attempt
      ensures status == if r.Ok? then to else old(status)
    {
      if attempt != this.attempt {
        return Err(AttemptMismatch);
      }
      if !CanTransition(status, to) {
        return Err(InvalidTransition);
      }
      status := to;
      return Ok(());
    }

    /** Boot recovery only leaves in-flight statuses, and only towards pending or failed. */
    method TransitionForRecovery(to: Status) returns (r: Result<(), TransitionError>)
      modifies this`status
      ensures r.Ok? <==> InFlight(old(status)) && to in {Pending, Failed}
      ensures r.Ok? ==> CanTransition(old(status), to)
      ensures status == if r.Ok? then to else old(status)
    {
      if !status.Transcribing? && !status.Summarizing? {
        return Err(InvalidTransition);
      }
      if !to.Pending? && !to.Failed? {
        return Err(InvalidTransition);
      }
      status := to;
      return Ok(());
    }

    /** Sequence numbers are handed out one after the other, the first one being 1. */
    method AllocateEventSeq() returns (seqNo: int)
      modifies this`eventSeq
      ensures seqNo == eventSeq == old(eventSeq) + 1
    {
      eventSeq := eventSeq + 1;
      return eventSeq;
    }
  }
}
