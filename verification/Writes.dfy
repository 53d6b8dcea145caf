/** What a sequence of tries of one stage write shows: what each try found, was told and left behind, and
    how the loop that made them must have ended. */
module Writes {
  import opened Prelude
  import opened Tables
  import opened Fencing
  import opened Database
  import opened Clients

  /** The write again, at the time of its next try. */
  function At(write: Op, now: Time): Op
    requires StageWrite(write)
  {
    match write
    case Save(key, transcript, _) => Save(key, transcript, now)
    case Complete(key, summary, _) => Complete(key, summary, now)
    case Fail(key, code, message, _) => Fail(key, code, message, now)
  }

  datatype LastError = DatabaseError | CommitError | Canceled

  /** One turn of the loop: what others do before the write, the fault it meets, whether its error is a
      cancellation, and what the run context and the wait do afterwards. */
  datatype Turn = Turn(others: seq<Call>, now: Time, fault: Fault, canceled: bool, ctxDone: bool, interrupted: bool)

  datatype Outcome = Persisted | Dropped | Interrupted | Exhausted(last: LastError)

  const MAX_TRIES := 3

  /** Three turns, whose waits are interrupted only by the end of the context; nobody creates task t again. */
  predicate Fair(turns: seq<Turn>, t: Id) {
    && |turns| == MAX_TRIES
    && forall i :: 0 <= i < MAX_TRIES ==> (turns[i].interrupted ==> turns[i].ctxDone) && Spares(turns[i].others, t)
  }

  /** One try: the tables it found, its reply, the tables it left. */
  datatype Attempted = Attempted(before: Db, reply: StageReply, after: Db)

  datatype Evidence = Evidence(start: Db, tries: seq<Attempted>, finish: Db)

  ghost predicate Fits(write: Op, turn: Turn, t: Attempted)
    requires StageWrite(write)
  {
    && StageOutcome(t.before, At(write, turn.now), t.reply, turn.fault)
    && t.after == Attempt(t.before, At(write, turn.now), TookEffect(t.reply, turn.fault))
  }

  /** The tables before the others moved for try i. */
  function Left(start: Db, tries: seq<Attempted>, i: nat): Db
    requires i <= |tries|
  {
    if i == 0 then start else tries[i - 1].after
  }

  /** Try i is one of the write, on the tables the earlier tries and the others left. */
  ghost predicate LinkAt(write: Op, turns: seq<Turn>, start: Db, tries: seq<Attempted>, i: nat)
    requires StageWrite(write) && i < |tries| <= |turns|
  {
    Fits(write, turns[i], tries[i]) && Between(Left(start, tries, i), turns[i].others, tries[i].before, write.key.task)
  }

  ghost predicate Chained(write: Op, turns: seq<Turn>, e: Evidence)
    requires StageWrite(write)
  {
    && |e.tries| <= |turns|
    && (forall i {:trigger LinkAt(write, turns, e.start, e.tries, i)} ::
          0 <= i < |e.tries| ==> LinkAt(write, turns, e.start, e.tries, i))
    && e.finish == Left(e.start, e.tries, |e.tries|)
  }

  lemma ChainStep(write: Op, turns: seq<Turn>, e: Evidence, t: Attempted)
    requires StageWrite(write) && Chained(write, turns, e) && |e.tries| < |turns|
    requires Fits(write, turns[|e.tries|], t)
    requires Between(e.finish, turns[|e.tries|].others, t.before, write.key.task)
    ensures Chained(write, turns, Evidence(e.start, e.tries + [t], t.after))
  {
    var tries := e.tries + [t];
    forall i | 0 <= i < |tries| ensures LinkAt(write, turns, e.start, tries, i) {
      assert Left(e.start, tries, i) == Left(e.start, e.tries, i);
      if i < |e.tries| { assert LinkAt(write, turns, e.start, e.tries, i); }
    }
  }

  predicate Errored(reply: StageReply) {
    !reply.Written? && !reply.Stale?
  }

  /** The error the loop ends with: an interrupted wait replaces the error of the write, and an unknown commit
      hides what caused it. */
  function LastOf(turn: Turn, reply: StageReply, k: nat): LastError {
    if k + 1 < MAX_TRIES && turn.interrupted then Canceled
    else if reply.Unknown? then CommitError
    else if turn.canceled then Canceled else DatabaseError
  }

  /** How a loop with these tries ends: it goes on exactly after errors with the run going on, at most
      three times, and an error at the end is an interruption exactly if it is the run's cancellation. */
  ghost predicate Concludes(turns: seq<Turn>, tries: seq<Attempted>, r: Outcome) {
    && 1 <= |tries| <= MAX_TRIES <= |turns|
    && (forall i :: 0 <= i < |tries| - 1 ==> Errored(tries[i].reply) && !turns[i].ctxDone)
    && var k := |tries| - 1;
    var reply := tries[k].reply;
    && (r.Persisted? <==> reply.Written?)
    && (r.Dropped? <==> reply.Stale?)
    && (Errored(reply) ==>
          && (k + 1 == MAX_TRIES || turns[k].ctxDone)
          && var last := LastOf(turns[k], reply, k);
          r == if turns[k].ctxDone && last.Canceled? then Interrupted else Exhausted(last))
  }

  /** An error of the database or an unknown commit. */
  predicate Fails(reply: StageReply) {
    reply.DbError? || reply.Unknown?
  }

  /** What a loop with these tries comes to, in numbers: every try but the last failed in a run that went on; there
      are at most three, and exactly three if the last one failed too and the run still goes on, which exhausts
      the write. In a stopped run the loop ends at a failure of any try, and halts the service unless the last
      error is a cancellation: that of an interrupted wait, which follows the first two tries only, or that of
      the write itself, which an unknown commit hides. */
  lemma ThreeTries(turns: seq<Turn>, tries: seq<Attempted>, r: Outcome)
    requires Concludes(turns, tries, r)
    ensures 1 <= |tries| <= 3 && |tries| <= |turns|
    ensures forall i :: 0 <= i < |tries| - 1 ==> Fails(tries[i].reply) && !turns[i].ctxDone
    ensures var k := |tries| - 1; var reply := tries[k].reply;
      && (r.Exhausted? || r.Interrupted? <==> Fails(reply))
      && (Fails(reply) && !turns[k].ctxDone ==> |tries| == 3 && r.Exhausted?)
      && (Fails(reply) && turns[k].ctxDone ==>
            (r.Interrupted? <==> (|tries| < 3 && turns[k].interrupted) || (reply.DbError? && turns[k].canceled)))
  {
  }

  ghost predicate Took(turns: seq<Turn>, tries: seq<Attempted>, i: nat)
    requires i < |tries| <= |turns|
  {
    TookEffect(tries[i].reply, turns[i].fault)
  }

  lemma TryForward(write: Op, turns: seq<Turn>, e: Evidence, i: nat)
    requires StageWrite(write) && Chained(write, turns, e) && i < |e.tries|
    ensures Forward(Left(e.start, e.tries, i), e.tries[i].before, write.key.task)
    ensures Forward(e.tries[i].before, e.tries[i].after, write.key.task)
    ensures Took(turns, e.tries, i) ==>
      Guard(e.tries[i].before, At(write, turns[i].now))
          && e.tries[i].after == Effect(e.tries[i].before, At(write, turns[i].now))
  {
    assert LinkAt(write, turns, e.start, e.tries, i);
    AttemptForward(e.tries[i].before, At(write, turns[i].now), TookEffect(e.tries[i].reply, turns[i].fault),
        write.key.task);
  }

  lemma ForwardTransitive(a: Db, b: Db, c: Db, t: Id)
    requires Forward(a, b, t) && Forward(b, c, t)
    ensures Forward(a, c, t)
  {
  }

  lemma {:induction false} ChainForward(write: Op, turns: seq<Turn>, e: Evidence, i: nat, j: nat)
    requires StageWrite(write) && Chained(write, turns, e) && i <= j <= |e.tries|
    ensures Forward(Left(e.start, e.tries, i), Left(e.start, e.tries, j), write.key.task)
  {
    if i < j {
      ChainForward(write, turns, e, i, j - 1);
      TryForward(write, turns, e, j - 1);
      ForwardTransitive(Left(e.start, e.tries, j - 1), e.tries[j - 1].before, e.tries[j - 1].after, write.key.task);
      ForwardTransitive(Left(e.start, e.tries, i), Left(e.start, e.tries, j - 1), e.tries[j - 1].after, write.key.task);
    }
  }

  /** A row that a write took effect on refuses it from then on. */
  lemma LandedRefuses(db: Db, write: Op, now: Time, later: Db, again: Time)
    requires StageWrite(write) && Guard(db, At(write, now))
    requires Forward(Effect(db, At(write, now)), later, write.key.task)
    ensures !Guard(later, At(write, again))
  {
    StageAdvances(db, At(write, now));
  }

  /** Whatever the others do and however the commits turn out, at most one try takes effect. */
  lemma LandsOnce(write: Op, turns: seq<Turn>, e: Evidence, i: nat, j: nat)
    requires StageWrite(write) && Chained(write, turns, e) && i < j < |e.tries| && Took(turns, e.tries, i)
    ensures !Took(turns, e.tries, j)
  {
    var t := write.key.task;
    TryForward(write, turns, e, i);
    TryForward(write, turns, e, j);
    ChainForward(write, turns, e, i + 1, j);
    ForwardTransitive(e.tries[i].after, Left(e.start, e.tries, j), e.tries[j].before, t);
    LandedRefuses(e.tries[i].before, write, turns[i].now, e.tries[j].before, turns[j].now);
  }

  /** The loop made these tries of the write and ended so. */
  ghost predicate Wrote(write: Op, turns: seq<Turn>, e: Evidence, r: Outcome)
    requires StageWrite(write)
  {
    Chained(write, turns, e) && Concludes(turns, e.tries, r)
  }

  /** A success took effect with the last try, and with none before. */
  lemma PersistedOnce(write: Op, turns: seq<Turn>, e: Evidence)
    requires StageWrite(write) && Wrote(write, turns, e, Persisted)
    ensures var k := |e.tries| - 1; var at := At(write, turns[k].now);
      Guard(e.tries[k].before, at) && e.finish == Effect(e.tries[k].before, at)
          && Forward(e.start, e.tries[k].before, write.key.task)
    ensures forall i :: 0 <= i < |e.tries| - 1 ==> !Took(turns, e.tries, i)
  {
    var k := |e.tries| - 1;
    TryForward(write, turns, e, k);
    ChainForward(write, turns, e, 0, k);
    ForwardTransitive(e.start, Left(e.start, e.tries, k), e.tries[k].before, write.key.task);
    forall i | 0 <= i < k ensures !Took(turns, e.tries, i) {
      if Took(turns, e.tries, i) { LandsOnce(write, turns, e, i, k); }
    }
  }

  /** Without others and without a fault the first try settles it: it persists exactly if the guard holds. */
  lemma CalmWrite(write: Op, turns: seq<Turn>, e: Evidence, r: Outcome)
    requires StageWrite(write) && Wrote(write, turns, e, r) && turns[0].others == []
    requires turns[0].fault.NoFault?
    ensures var at := At(write, turns[0].now);
      if Guard(e.start, at) then r.Persisted? && e.finish == Effect(e.start, at) else r.Dropped? && e.finish == e.start
  {
    assert LinkAt(write, turns, e.start, e.tries, 0);
  }
}
