/** Everybody else: calls of other clients between two steps of the code under consideration. */
module Clients {
  import opened Prelude
  import opened SummaryJson
  import opened Tables
  import opened Fencing
  import opened Database

  /** A call of some other client, with the fault it meets and the rows it finds locked. */
  datatype Call = Call(op: Op, fault: Fault, locked: set<Id>)

  /** Task t is not created again, moves forward only, and keeps its products while it does not move. */
  ghost predicate Forward(a: Db, b: Db, t: Id) {
    t in b.tasks ==>
      && t in a.tasks && Progress(b.tasks[t]) >= Progress(a.tasks[t])
      && (Progress(b.tasks[t]) == Progress(a.tasks[t]) ==>
            && b.tasks[t].attempt == a.tasks[t].attempt && b.tasks[t].status == a.tasks[t].status
            && b.tasks[t].transcript == a.tasks[t].transcript && b.tasks[t].summary == a.tasks[t].summary)
  }

  lemma AttemptForward(db: Db, op: Op, applied: bool, t: Id)
    requires !Creates(op, t)
    ensures Forward(db, Attempt(db, op, applied), t)
  {
    var n := Attempt(db, op, applied);
    if applied && Guard(db, op) && t in n.tasks && t in db.tasks {
      OpAdvances(db, op, t, Progress(db.tasks[t]));
      if Progress(n.tasks[t]) == Progress(db.tasks[t]) { OpStable(db, op, t); }
    }
  }

  lemma LockedForward(db: Db, h: Hash, op: Op, applied: bool, t: Id)
    requires !Creates(op, t)
    ensures Forward(db, Attempt(WithLock(db, h), op, applied), t)
  {
    AttemptForward(WithLock(db, h), op, applied, t);
  }

  /** One call of another client. A completion carries a validated summary and a purge is for a recording
      found marked; a call that breaks this rule is not made. */
  method Perform(sql: MySql, call: Call, ghost t: Id)
    requires sql.Valid() && !Creates(call.op, t)
    modifies sql
    ensures sql.Valid() && Forward(old(sql.View()), sql.View(), t)
  {
    ghost var before := sql.View();
    match call.op
    case Create(input) =>
      var r := sql.CreateOrReuse(input, call.fault);
      LockedForward(before, input.hash, call.op, r.Created? || (r.CreateUnknown? && call.fault.applied), t);
    case Claim(_, asOf, now) =>
      var r := sql.ClaimNext(asOf, now, call.locked, call.fault);
      if r.Claimed? {
        AttemptForward(before, Claim(r.key.task, asOf, now), true, t);
      } else if r.ClaimUnknown? {
        ghost var u :| Guard(before, Claim(u, asOf, now))
            && sql.View() == Attempt(before, Claim(u, asOf, now), call.fault.applied);
        AttemptForward(before, Claim(u, asOf, now), call.fault.applied, t);
      }
    case Save(key, transcript, now) =>
      var r := sql.SaveTranscription(key, transcript, now, call.fault);
      AttemptForward(before, call.op, TookEffect(r, call.fault), t);
    case Complete(key, summary, now) =>
      if Valid(summary) {
        var r := sql.CompleteTask(key, summary, now, call.fault);
        AttemptForward(before, call.op, TookEffect(r, call.fault), t);
      }
    case Fail(key, code, message, now) =>
      var r := sql.FailTask(key, code, message, now, call.fault);
      AttemptForward(before, call.op, TookEffect(r, call.fault), t);
    case Retry(u, now) =>
      var r := sql.RetryTask(u, now, call.fault);
      ghost var applied := r.Retried? || (r.RetryUnknown? && call.fault.CommitUnknown? && call.fault.applied);
      AttemptForward(before, call.op, applied, t);
    case Mark(r, _, now) =>
      var reply := sql.MarkDeleting(r, now, call.fault);
      MarkForward(before, r, now, t);
    case Purge(r) =>
      if r !in sql.recordings || sql.recordings[r].deletingAt.Some? {
        var reply := sql.PurgeRecording(r, call.fault);
        ghost var lost := reply.OutcomeUnknown? && call.fault.CommitUnknown? && call.fault.applied;
        AttemptForward(before, call.op, reply.Committed? || lost, t);
      }
    case Reset(_, _, _) =>
  }

  lemma MarkForward(db: Db, r: Id, now: Time, t: Id)
    ensures r in db.recordings ==> forall of: Option<Id>, applied: bool ::
              Forward(db, Attempt(WithLock(db, db.recordings[r].hash), Mark(r, of, now), applied), t)
    ensures forall n: Db :: n.tasks == db.tasks ==> Forward(db, n, t)
  {
    if r in db.recordings {
      forall of: Option<Id>, applied: bool
        ensures Forward(db, Attempt(WithLock(db, db.recordings[r].hash), Mark(r, of, now), applied), t)
      {
        LockedForward(db, db.recordings[r].hash, Mark(r, of, now), applied, t);
      }
    }
  }

  /** What the others can have done between a and b; nothing if they made no call. */
  ghost predicate Between(a: Db, calls: seq<Call>, b: Db, t: Id) {
    Forward(a, b, t) && (calls == [] ==> a == b)
  }

  predicate Spares(calls: seq<Call>, t: Id) {
    forall c :: c in calls ==> !Creates(c.op, t)
  }

  /** Any number of calls of other clients. */
  method Others(sql: MySql, calls: seq<Call>, ghost t: Id)
    requires sql.Valid() && Spares(calls, t)
    modifies sql
    ensures sql.Valid() && Between(old(sql.View()), calls, sql.View(), t)
  {
    for i := 0 to |calls|
      invariant sql.Valid() && Forward(old(sql.View()), sql.View(), t)
      invariant i == 0 ==> sql.View() == old(sql.View())
    {
      assert calls[i] in calls;
      Perform(sql, calls[i], t);
    }
  }
}
