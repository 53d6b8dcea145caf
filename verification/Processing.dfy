/** The worker's round and its bounded write loop, against a database that other clients write to in
    between and whose commits may be ambiguous. */
module Processing {
  import opened Prelude
  import opened Lifecycle
  import opened SummaryJson
  import opened Tables
  import opened Fencing
  import opened Database
  import opened Clients
  import opened Writes
  import opened Queries
  import opened CancelTable
  import Utf8

  /** What an external call comes back with. */
  datatype Answer<T> =
    | Good(value: T) | Bad(code: int, message: Utf8.Text) | ContextCanceled | Panics(message: Utf8.Text)

  /** Everything a round meets: the claim, the others between its steps, the external calls, the writes. */
  datatype Round = Round(
    asOf: Time, now: Time, locked: set<Id>, claimFault: Fault,
    beforeRecheck: seq<Call>, betweenReads: seq<Call>, readFails: bool,
    transcription: Answer<string>, duringTranscription: seq<Call>, saving: seq<Turn>,
    summary: Answer<Summary>, duringSummary: seq<Call>, completing: seq<Turn>,
    failing: seq<Turn>, runDone: bool, recoverFault: Fault)

  /** How a round ends; `at` is the stage whose external call decided it. */
  datatype RoundEnd =
    | Idle
    | RecheckFailed
    | Stopped(at: Status)
    | WroteFailure(at: Status, code: int, failing: Outcome)
    | NotSaved(saving: Outcome)
    | Completed(text: string, made: Summary, completing: Outcome)
    | Panicked(at: Status, message: Utf8.Text)

  /** The others use fresh task identifiers, and the summarizer answers with validated summaries. */
  predicate Plausible(round: Round, t: Id) {
    && Spares(round.beforeRecheck, t) && Spares(round.betweenReads, t)
    && Spares(round.duringTranscription, t) && Spares(round.duringSummary, t)
    && Fair(round.saving, t) && Fair(round.completing, t) && Fair(round.failing, t)
    && (round.summary.Good? ==> Valid(round.summary.value))
  }

  // ---- What a round shows ----

  /** The states the two reads of the recheck saw, the tries of the save and of the last write, and the
      tables at the end. */
  datatype Story = Story(first: Db, second: Db, saving: Evidence, writing: Evidence, finish: Db)

  /** The recheck: the row still transcribing in this attempt, its recording not being deleted. */
  ghost predicate RecheckPasses(first: Db, second: Db, key: Key) {
    && key.task in first.tasks && first.tasks[key.task].attempt == key.attempt
    && first.tasks[key.task].status.Transcribing?
    && Active(second, first.tasks[key.task].recordingId)
  }

  /** How the end of a round follows from its recheck and the answers of its external calls. */
  predicate EndsAs(round: Round, passed: bool, end: RoundEnd) {
    if !passed then end.RecheckFailed?
    else
      match round.transcription
      case ContextCanceled => end == Stopped(Transcribing)
      case Panics(message) => end == Panicked(Transcribing, message)
      case Bad(_, _) => end.WroteFailure? && end.at.Transcribing? && end.code == 40001
      case Good(text) =>
        if end.NotSaved? then !end.saving.Persisted? else EndsAfterSaving(round, text, end)
  }

  predicate EndsAfterSaving(round: Round, text: string, end: RoundEnd) {
    match round.summary
    case ContextCanceled => end == Stopped(Summarizing)
    case Panics(message) => end == Panicked(Summarizing, message)
    case Bad(code, _) => end.WroteFailure? && end.at.Summarizing? && end.code == code
    case Good(made) => end.Completed? && end.text == text && end.made == made
  }

  /** The error text behind a failure write. */
  function CauseOf(round: Round, end: RoundEnd): Utf8.Text
    requires end.WroteFailure?
  {
    if end.at.Transcribing? && round.transcription.Bad? then round.transcription.message
    else if round.summary.Bad? then round.summary.message else []
  }

  /** The form in which an error text is stored. */
  function Stored(cause: Utf8.Text): (c: string)
    ensures |c| <= 503 && (|cause| <= 500 ==> |c| == |cause|)
    ensures |cause| > 500 ==> |c| >= 3 && forall i :: 0 <= i < 3 ==> c[|c| - 3 + i] as int == [0xE2, 0x80, 0xA6][i]
    ensures forall i :: 0 <= i < (if |cause| <= 500 then |c| else |c| - 3) ==> i < |cause| && c[i] as int == cause[i]
  {
    Utf8.Column(Utf8.Shortened(cause))
  }

  /** The write that ended the round, if one did, was tried as its end says, up to the tables at the end. */
  ghost predicate LastWrite(key: Key, round: Round, story: Story, end: RoundEnd) {
    && (end.WroteFailure? ==>
          && Wrote(Fail(key, end.code, Stored(CauseOf(round, end)), 0), round.failing, story.writing, end.failing)
          && story.writing.finish == story.finish)
    && (end.Completed? ==>
          && Wrote(Complete(key, end.made, 0), round.completing, story.writing, end.completing)
          && Between(story.saving.finish, round.duringSummary, story.writing.start, key.task)
          && story.writing.finish == story.finish)
  }

  /** The save was tried as the end says, after the transcription call. */
  ghost predicate SaveTold(key: Key, round: Round, story: Story, end: RoundEnd) {
    round.transcription.Good? ==>
      && Wrote(Save(key, round.transcription.value, 0), round.saving, story.saving,
               if end.NotSaved? then end.saving else Persisted)
      && Between(story.second, round.duringTranscription, story.saving.start, key.task)
      && Forward(story.saving.finish, story.finish, key.task)
  }

  ghost predicate Passed(key: Key, round: Round, story: Story) {
    !round.readFails && RecheckPasses(story.first, story.second, key)
  }

  /** A whole round for a claimed key, from the tables right after the claim. */
  ghost predicate Told(key: Key, round: Round, start: Db, story: Story, end: RoundEnd) {
    && Between(start, round.beforeRecheck, story.first, key.task)
    && Between(story.first, round.betweenReads, story.second, key.task)
    && EndsAs(round, Passed(key, round, story), end)
    && (Passed(key, round, story) ==> SaveTold(key, round, story, end) && LastWrite(key, round, story, end))
  }

  /** The loop of a write ended the service's claiming. */
  predicate Halting(end: RoundEnd) {
    || (end.WroteFailure? && end.failing.Exhausted?) || (end.NotSaved? && end.saving.Exhausted?)
    || (end.Completed? && end.completing.Exhausted?)
  }

  /** While the row is where the completion put it, it holds these products. */
  ghost predicate Holds(view: Db, key: Key, text: string, made: Summary) {
    && Past(view, key.task, 5 * key.attempt + 3)
    && (key.task in view.tasks && Progress(view.tasks[key.task]) == 5 * key.attempt + 3 ==>
          && var row := view.tasks[key.task];
          row.attempt == key.attempt && row.status.Done? && row.transcript == text && row.summary == Some(Encode(made)))
  }

  lemma SavedThenCompleted(key: Key, text: string, made: Summary, saved: Db, when: Time, later: Db, now: Time)
    requires Guard(saved, Save(key, text, when))
    requires Forward(Effect(saved, Save(key, text, when)), later, key.task)
    requires Guard(later, Complete(key, made, now))
    ensures Holds(Effect(later, Complete(key, made, now)), key, text, made)
  {
  }

  /** A completion that persisted left the row with the very summary made from the very transcript of the
      round, whatever the others did and however often the writes were tried. */
  lemma CompletionHolds(key: Key, round: Round, start: Db, story: Story, end: RoundEnd)
    requires Told(key, round, start, story, end) && end.Completed? && end.completing.Persisted?
    ensures round.transcription == Good(end.text) && round.summary == Good(end.made)
    ensures Holds(story.finish, key, end.text, end.made)
  {
    var save, complete := Save(key, end.text, 0), Complete(key, end.made, 0);
    PersistedOnce(save, round.saving, story.saving);
    PersistedOnce(complete, round.completing, story.writing);
    var i, k := |story.saving.tries| - 1, |story.writing.tries| - 1;
    ForwardTransitive(story.saving.finish, story.writing.start, story.writing.tries[k].before, key.task);
    SavedThenCompleted(key, end.text, end.made, story.saving.tries[i].before, round.saving[i].now,
                       story.writing.tries[k].before, round.completing[k].now);
  }

  /** No other client, no fault, and good answers. */
  predicate Calm(round: Round) {
    && round.beforeRecheck == [] && round.betweenReads == [] && !round.readFails
    && round.transcription.Good? && round.duringTranscription == []
    && |round.saving| > 0 && round.saving[0].others == [] && round.saving[0].fault.NoFault?
    && round.summary.Good? && round.duringSummary == []
    && |round.completing| > 0 && round.completing[0].others == [] && round.completing[0].fault.NoFault?
  }

  /** A calm round on a row in hand goes through all its stages. */
  lemma CalmRoundCompletes(key: Key, round: Round, start: Db, story: Story, end: RoundEnd)
    requires Told(key, round, start, story, end) && Calm(round) && RecheckPasses(start, start, key)
    ensures end == Completed(round.transcription.value, round.summary.value, Persisted)
    ensures var saved := Effect(start, Save(key, end.text, round.saving[0].now));
      story.finish == Effect(saved, Complete(key, end.made, round.completing[0].now))
  {
    var save := Save(key, round.transcription.value, 0);
    CalmWrite(save, round.saving, story.saving, if end.NotSaved? then end.saving else Persisted);
    CalmSaved(start, key, round.transcription.value, round.saving[0].now, round.summary.value, round.completing[0].now);
    CalmWrite(Complete(key, round.summary.value, 0), round.completing, story.writing, end.completing);
  }

  lemma CalmSaved(start: Db, key: Key, text: string, now: Time, made: Summary, later: Time)
    requires RecheckPasses(start, start, key)
    ensures Guard(start, Save(key, text, now))
    ensures Guard(Effect(start, Save(key, text, now)), Complete(key, made, later))
  {
  }

  /** What a round leaves: its own products if its completion persisted, and all its stages done if it was calm. */
  ghost predicate Yields(key: Key, round: Round, start: Db, end: RoundEnd, view: Db) {
    && (end.Completed? && end.completing.Persisted? ==> Holds(view, key, end.text, end.made))
    && (Calm(round) && RecheckPasses(start, start, key) ==>
          && end == Completed(round.transcription.value, round.summary.value, Persisted)
          && var saved := Effect(start, Save(key, end.text, round.saving[0].now));
          view == Effect(saved, Complete(key, end.made, round.completing[0].now)))
  }

  lemma StoryYields(key: Key, round: Round, start: Db, story: Story, end: RoundEnd)
    requires Told(key, round, start, story, end)
    ensures Yields(key, round, start, end, story.finish)
    ensures end.Panicked? ==> forall view :: Yields(key, round, start, end, view)
  {
    if end.Completed? && end.completing.Persisted? { CompletionHolds(key, round, start, story, end); }
    if Calm(round) && RecheckPasses(start, start, key) { CalmRoundCompletes(key, round, start, story, end); }
  }

  lemma ClaimedIsInHand(db: Db, t: Id, asOf: Time, now: Time)
    requires Guard(db, Claim(t, asOf, now))
    ensures RecheckPasses(Effect(db, Claim(t, asOf, now)), Effect(db, Claim(t, asOf, now)), Key(t, db.tasks[t].attempt))
  {
  }

  class ProcessService {
    const sql: MySql
    const table: Table
    var halted: bool
    var haltCalls: nat

    constructor (sql: MySql, table: Table)
      ensures this.sql == sql && this.table == table && !halted && haltCalls == 0
    {
      this.sql, this.table, halted, haltCalls := sql, table, false, 0;
    }

    /** The closure persist is given: one call of the transaction of the stage. */
    method Try(write: Op, f: Fault) returns (r: StageReply)
      requires sql.Valid() && StageWrite(write) && (write.Complete? ==> Valid(write.summary))
      modifies sql
      ensures sql.Valid() && StageOutcome(old(sql.View()), write, r, f)
      ensures sql.View() == Attempt(old(sql.View()), write, TookEffect(r, f))
    {
      match write
      case Save(key, transcript, now) => r := sql.SaveTranscription(key, transcript, now, f);
      case Complete(key, summary, now) => r := sql.CompleteTask(key, summary, now, f);
      case Fail(key, code, message, now) => r := sql.FailTask(key, code, message, now, f);
    }

    /** One turn: the others move, then the write is tried. */
    method Once(write: Op, turns: seq<Turn>, i: nat, ghost e: Evidence)
      returns (reply: StageReply, ghost after: Evidence)
      requires sql.Valid() && StageWrite(write) && (write.Complete? ==> Valid(write.summary))
      requires Chained(write, turns, e) && e.finish == sql.View() && |e.tries| == i < |turns|
      requires Spares(turns[i].others, write.key.task)
      modifies sql
      ensures sql.Valid() && Chained(write, turns, after) && after.start == e.start
      ensures after.finish == sql.View()
      ensures |after.tries| == i + 1 && after.tries[..i] == e.tries && after.tries[i].reply == reply
    {
      Others(sql, turns[i].others, write.key.task);
      ghost var before := sql.View();
      reply := Try(At(write, turns[i].now), turns[i].fault);
      ghost var t := Attempted(before, reply, sql.View());
      ChainStep(write, turns, e, t);
      after := Evidence(e.start, e.tries + [t], sql.View());
    }

    /** persist: one to three tries, each on the tables the earlier ones and the others left; it stops at the
        first success or stale reply, when the run is over, or after the third error. The service halts
        exactly when it ends with an error that is not the cancellation of the run. By LandsOnce the write
        took effect at most once. */
    method Persist(write: Op, turns: seq<Turn>) returns (r: Outcome, ghost e: Evidence)
      requires sql.Valid() && StageWrite(write) && (write.Complete? ==> Valid(write.summary))
      requires Fair(turns, write.key.task)
      modifies this, sql
      ensures sql.Valid()
      ensures e.start == old(sql.View()) && e.finish == sql.View() && Wrote(write, turns, e, r)
      ensures forall i, j :: 0 <= i < j < |e.tries| && Took(turns, e.tries, i) ==> !Took(turns, e.tries, j)
      ensures halted == (old(halted) || r.Exhausted?)
      ensures haltCalls == old(haltCalls) + (if r.Exhausted? then 1 else 0)
    {
      var last := DatabaseError;
      var i := 0;
      e := Evidence(sql.View(), [], sql.View());
      while true
        invariant 0 <= i < MAX_TRIES && sql.Valid() && halted == old(halted) && haltCalls == old(haltCalls)
        invariant Chained(write, turns, e) && e.start == old(sql.View()) && e.finish == sql.View()
        invariant |e.tries| == i
        invariant forall j :: 0 <= j < i ==> Errored(e.tries[j].reply) && !turns[j].ctxDone
        decreases MAX_TRIES - i
      {
        var turn := turns[i];
        ghost var sofar := e.tries;
        var reply;
        reply, e := Once(write, turns, i, e);
        assert forall j :: 0 <= j < i ==> e.tries[j] == sofar[j];
        AllLandOnce(write, turns, e);
        if reply.Written? {
          return Persisted, e;
        }
        if reply.Stale? {
          return Dropped, e;
        }
        last := if reply.Unknown? then CommitError else if turn.canceled then Canceled else DatabaseError;
        if i >= MAX_TRIES - 1 {
          break;
        }
        if turn.interrupted {
          last := Canceled;
        }
        if turn.ctxDone {
          break;
        }
        i := i + 1;
      }
      if turns[i].ctxDone && last.Canceled? {
        return Interrupted, e;
      }
      halted := true;
      haltCalls := haltCalls + 1;
      return Exhausted(last), e;
    }

    /** failTask: the shortened message goes through the same loop. */
    method FailRound(key: Key, code: int, message: Utf8.Text, turns: seq<Turn>)
      returns (r: Outcome, ghost e: Evidence)
      requires sql.Valid() && Fair(turns, key.task)
      modifies this, sql
      ensures sql.Valid() && halted == (old(halted) || r.Exhausted?)
      ensures e.start == old(sql.View()) && e.finish == sql.View()
      ensures Wrote(Fail(key, code, Stored(message), 0), turns, e, r)
    {
      var short := Utf8.TruncateMessage(message);
      r, e := Persist(Fail(key, code, Utf8.Column(short), 0), turns);
    }

    /** The two reads between registration and the first external call. */
    method Recheck(key: Key, round: Round) returns (passed: bool, ghost first: Db, ghost second: Db)
      requires sql.Valid() && Plausible(round, key.task)
      modifies sql
      ensures sql.Valid() && sql.View() == second
      ensures Between(old(sql.View()), round.beforeRecheck, first, key.task)
      ensures Between(first, round.betweenReads, second, key.task)
      ensures passed <==> !round.readFails && RecheckPasses(first, second, key)
    {
      Others(sql, round.beforeRecheck, key.task);
      var row := sql.View();
      Others(sql, round.betweenReads, key.task);
      first, second := row, sql.View();
      var view := GetTask(row, sql.View(), key.task);
      passed := !(round.readFails || view.Err? || view.value.attempt != key.attempt
          || !view.value.status.Transcribing?);
    }

    /** The stages after the claim: recheck, transcribe, save, summarize, complete. They run with the key in the
        cancel table under a handle that is still live. */
    method Stages(key: Key, round: Round) returns (end: RoundEnd, ghost story: Story)
      requires sql.Valid() && Plausible(round, key.task)
      requires key in table.cancels && !table.cancels[key].cancelled
      modifies this, sql
      ensures sql.Valid() && Told(key, round, old(sql.View()), story, end) && story.finish == sql.View()
      ensures halted == (old(halted) || Halting(end))
    {
      var passed;
      ghost var first, second;
      passed, first, second := Recheck(key, round);
      ghost var none := Evidence(second, [], second);
      if !passed {
        return RecheckFailed, Story(first, second, none, none, second);
      }
      Others(sql, round.duringTranscription, key.task);
      story := Story(first, second, none, none, sql.View());
      if round.transcription.Panics? {
        return Panicked(Transcribing, round.transcription.message), story;
      }
      if round.transcription.ContextCanceled? {
        return Stopped(Transcribing), story;
      }
      if round.transcription.Bad? {
        var failed, e := FailRound(key, ASR_FAILED, round.transcription.message, round.failing);
        return WroteFailure(Transcribing, ASR_FAILED, failed), story.(writing := e, finish := sql.View());
      }
      var saved, e := Persist(Save(key, round.transcription.value, 0), round.saving);
      story := story.(saving := e, finish := sql.View());
      if !saved.Persisted? {
        return NotSaved(saved), story;
      }
      end, story := Finish(key, round, story);
    }

    /** The stages after the transcript is saved. */
    method Finish(key: Key, round: Round, ghost before: Story) returns (end: RoundEnd, ghost story: Story)
      requires sql.Valid() && Plausible(round, key.task) && before.saving.finish == sql.View()
      requires round.transcription.Good?
      modifies this, sql
      ensures sql.Valid() && EndsAfterSaving(round, round.transcription.value, end) && !end.NotSaved?
      ensures story == before.(writing := story.writing, finish := sql.View())
      ensures LastWrite(key, round, story, end) && Forward(old(sql.View()), sql.View(), key.task)
      ensures halted == (old(halted) || Halting(end))
    {
      Others(sql, round.duringSummary, key.task);
      story := before.(finish := sql.View());
      if round.summary.Panics? {
        return Panicked(Summarizing, round.summary.message), story;
      }
      if round.summary.ContextCanceled? {
        return Stopped(Summarizing), story;
      }
      if round.summary.Bad? {
        var failed, e := FailRound(key, round.summary.code, round.summary.message, round.failing);
        ChainForward(Fail(key, round.summary.code, Stored(round.summary.message), 0), round.failing, e, 0, |e.tries|);
        return WroteFailure(Summarizing, round.summary.code, failed), story.(writing := e, finish := sql.View());
      }
      var made := round.summary.value;
      var completed, e := Persist(Complete(key, made, 0), round.completing);
      ChainForward(Complete(key, made, 0), round.completing, e, 0, |e.tries|);
      return Completed(round.transcription.value, made, completed), story.(writing := e, finish := sql.View());
    }

    /** recoverRound: one best-effort failure write, none when the run is being stopped. */
    method RecoverRound(key: Key, message: Utf8.Text, round: Round) returns (r: StageReply)
      requires sql.Valid()
      modifies sql
      ensures sql.Valid() && Recovered(key, round, message, old(sql.View()), r, sql.View())
    {
      if round.runDone {
        return Stale;
      }
      var short := Utf8.TruncateMessage(message);
      r := sql.FailTask(key, INTERNAL_ERROR, Utf8.Column(short), round.now, round.recoverFault);
    }

    /** Process: one round. It claims exactly if the service is not halted and the claim finds a first ready
        task whose recording is in use, and what follows is told step by step; a calm round completes.
        Every way out of a claimed round leaves the cancel table without the round's key. */
    method Process(round: Round) returns (claimed: Option<Key>, end: RoundEnd, ghost story: Story)
      requires sql.Valid() && forall t :: t in sql.tasks ==> Plausible(round, t)
      modifies this, sql, table
      ensures sql.Valid()
      ensures old(halted) ==> claimed.None? && sql.View() == old(sql.View())
      ensures !old(halted) && round.claimFault.NoFault? ==>
        (claimed.Some? <==> exists t :: Claimable(old(sql.View()), t, round))
      ensures claimed.Some? ==>
        && var t := claimed.value.task;
        && FirstReady(old(sql.tasks), t, round.asOf, round.locked)
        && Guard(old(sql.View()), Claim(t, round.asOf, round.now))
        && claimed.value.attempt == old(sql.tasks)[t].attempt
        && Told(claimed.value, round, Effect(old(sql.View()), Claim(t, round.asOf, round.now)), story, end)
        && (!end.Panicked? ==> sql.View() == story.finish)
        && (end.Panicked? ==> exists r :: Recovered(claimed.value, round, end.message, story.finish, r, sql.View()))
      ensures claimed.Some? && Calm(round) ==>
        && end == Completed(round.transcription.value, round.summary.value, Persisted)
        && var inHand := Effect(old(sql.View()), Claim(claimed.value.task, round.asOf, round.now));
        var saved := Effect(inHand, Save(claimed.value, end.text, round.saving[0].now));
        sql.View() == Effect(saved, Complete(claimed.value, end.made, round.completing[0].now))
      ensures end.Idle? <==> claimed.None?
      ensures claimed.Some? && end.Completed? && end.completing.Persisted? ==>
          Holds(sql.View(), claimed.value, end.text, end.made)
      ensures table.cancels == if claimed.Some? then old(table.cancels) - {claimed.value} else old(table.cancels)
      ensures halted == (old(halted) || Halting(end))
    {
      ghost var view := sql.View();
      story := Story(view, view, Evidence(view, [], view), Evidence(view, [], view), view);
      if halted {
        return None, Idle, story;
      }
      var claim := sql.ClaimNext(round.asOf, round.now, round.locked, round.claimFault);
      if !claim.Claimed? {
        return None, Idle, story;
      }
      assert Claimable(view, claim.key.task, round);
      ClaimedIsInHand(view, claim.key.task, round.asOf, round.now);
      ghost var handle;
      end, story, handle := Execute(claim.key, round);
      return Some(claim.key), end, story;
    }

    /** The claimed part of a round, with its deferred calls: unregister, cancel, recover. The handle the stages
        ran under is cancelled in the end. */
    method Execute(key: Key, round: Round) returns (end: RoundEnd, ghost story: Story, ghost handle: CancelHandle)
      requires sql.Valid() && Plausible(round, key.task)
      modifies this, sql, table
      ensures sql.Valid() && Told(key, round, old(sql.View()), story, end) && !end.Idle?
      ensures !end.Panicked? ==> sql.View() == story.finish
      ensures end.Panicked? ==> exists r :: Recovered(key, round, end.message, story.finish, r, sql.View())
      ensures table.cancels == old(table.cancels) - {key} && fresh(handle) && handle.cancelled
      ensures Yields(key, round, old(sql.View()), end, sql.View())
      ensures halted == (old(halted) || Halting(end))
    {
      ghost var start := sql.View();
      var cancel := new CancelHandle();
      handle := cancel;
      table.Register(key, cancel);
      end, story := Stages(key, round);
      StoryYields(key, round, start, story, end);
      table.Unregister(key);
      cancel.Cancel();
      if end.Panicked? {
        var r := RecoverRound(key, end.message, round);
      }
    }
  }

  /** The candidate of the claim, its recording in use. */
  ghost predicate Claimable(db: Db, t: Id, round: Round) {
    FirstReady(db.tasks, t, round.asOf, round.locked) && Active(db, db.tasks[t].recordingId)
  }

  /** The one write after a panic. */
  ghost predicate Recovered(
      key: Key, round: Round, message: Utf8.Text, before: Db, r: StageReply, after: Db) {
    var fail := Fail(key, 90001, Stored(message), round.now);
    if round.runDone then after == before
    else
      && StageOutcome(before, fail, r, round.recoverFault)
      && after == Attempt(before, fail, TookEffect(r, round.recoverFault))
  }

  lemma AllLandOnce(write: Op, turns: seq<Turn>, e: Evidence)
    requires StageWrite(write) && Chained(write, turns, e)
    ensures forall i, j :: 0 <= i < j < |e.tries| && Took(turns, e.tries, i) ==> !Took(turns, e.tries, j)
  {
    forall i, j | 0 <= i < j < |e.tries| && Took(turns, e.tries, i) ensures !Took(turns, e.tries, j) {
      LandsOnce(write, turns, e, i, j);
    }
  }
}
