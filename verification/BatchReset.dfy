/** Boot recovery of in-flight tasks: one bulk update and a list of events built beforehand, against the
    same reset applied to one row after the other. */
module BatchReset {
  import opened Prelude
  import opened Lifecycle
  import opened Tables
  import opened Invariant

  function InFlightTasks(tasks: map<Id, Task>): set<Id> {
    set t | t in tasks && InFlight(tasks[t].status)
  }

  /** ids lists the in-flight tasks of the table, each once. */
  ghost predicate Lists(tasks: map<Id, Task>, ids: seq<Id>) {
    && (forall t :: t in ids <==> t in InFlightTasks(tasks))
    && Distinct(ids)
  }

  ghost predicate Distinct(ids: seq<Id>) {
    forall i, j :: 0 <= i < j < |ids| ==> ids[i] != ids[j]
  }

  function Members(ids: seq<Id>): set<Id> {
    set t | t in ids
  }

  lemma {:induction false} DistinctSize(ids: seq<Id>)
    requires Distinct(ids)
    ensures |Members(ids)| == |ids|
  {
    if ids == [] {
      assert Members(ids) == {};
    } else {
      var init, last := ids[..|ids| - 1], ids[|ids| - 1];
      DistinctSize(init);
      assert ids == init + [last];
      assert last !in Members(init);
      assert Members(ids) == Members(init) + {last};
    }
  }

  /** The single UPDATE: every in-flight row gets the target status. */
  function BulkRows(tasks: map<Id, Task>, interrupt: bool, now: Time): map<Id, Task> {
    map t | t in tasks :: if InFlight(tasks[t].status) then ResetRow(tasks[t], interrupt, now) else tasks[t]
  }

  /** The event list, in the order of the scan. */
  function BulkEvents(
      tasks: map<Id, Task>, events: map<EventKey, Event>, ids: seq<Id>, interrupt: bool, now: Time)
      : map<EventKey, Event>
    requires forall t :: t in ids ==> t in tasks
  {
    if ids == [] then events
    else
      var t := ids[|ids| - 1];
      var before := BulkEvents(tasks, events, ids[..|ids| - 1], interrupt, now);
      before[EventKey(t, tasks[t].eventSeq + 1) := ResetEvent(tasks[t], interrupt, now)]
  }

  function ResetOps(ids: seq<Id>, interrupt: bool, now: Time): seq<Op> {
    seq(|ids|, i requires 0 <= i < |ids| => Reset(ids[i], interrupt, now))
  }

  lemma {:induction false} RunAppend(db: Db, ops: seq<Op>, op: Op)
    ensures Run(db, ops + [op]) == Attempt(Run(db, ops), op, true)
    decreases |ops|
  {
    if ops == [] {
      assert ops + [op] == [op];
      assert Run(Attempt(db, op, true), []) == Attempt(db, op, true);
    } else {
      assert (ops + [op])[1..] == ops[1..] + [op];
      RunAppend(Attempt(db, ops[0], true), ops[1..], op);
    }
  }

  /** Rows reset so far: those listed. */
  function RowsUpTo(tasks: map<Id, Task>, ids: seq<Id>, interrupt: bool, now: Time): map<Id, Task> {
    map t | t in tasks :: if t in ids then ResetRow(tasks[t], interrupt, now) else tasks[t]
  }

  /** The tables once the listed rows were reset by the batch. */
  function BatchOf(db: Db, ids: seq<Id>, interrupt: bool, now: Time): Db
    requires forall t :: t in ids ==> t in db.tasks
  {
    db.(tasks := RowsUpTo(db.tasks, ids, interrupt, now),
        events := BulkEvents(db.tasks, db.events, ids, interrupt, now))
  }

  lemma ResetOpsStep(init: seq<Id>, t: Id, interrupt: bool, now: Time)
    ensures ResetOps(init + [t], interrupt, now) == ResetOps(init, interrupt, now) + [Reset(t, interrupt, now)]
  {
  }

  /** Resetting rows one by one, in any order without repetition, gives the rows and events of the batch. */
  lemma {:induction false} OneByOne(db: Db, ids: seq<Id>, interrupt: bool, now: Time)
    requires Distinct(ids) && forall t :: t in ids ==> t in db.tasks && InFlight(db.tasks[t].status)
    ensures Run(db, ResetOps(ids, interrupt, now)) == BatchOf(db, ids, interrupt, now)
    decreases |ids|
  {
    if ids == [] {
      assert RowsUpTo(db.tasks, ids, interrupt, now) == db.tasks;
    } else {
      var init, t := ids[..|ids| - 1], ids[|ids| - 1];
      assert ids == init + [t];
      OneByOne(db, init, interrupt, now);
      ResetOpsStep(init, t, interrupt, now);
      RunAppend(db, ResetOps(init, interrupt, now), Reset(t, interrupt, now));
      LastRow(db, init, t, interrupt, now);
    }
  }

  lemma LastRow(db: Db, init: seq<Id>, t: Id, interrupt: bool, now: Time)
    requires t !in init && t in db.tasks && InFlight(db.tasks[t].status)
    requires forall u :: u in init ==> u in db.tasks
    ensures Attempt(BatchOf(db, init, interrupt, now), Reset(t, interrupt, now), true) ==
        BatchOf(db, init + [t], interrupt, now)
  {
    assert (init + [t])[..|init|] == init;
    assert RowsUpTo(db.tasks, init + [t], interrupt, now)
           == RowsUpTo(db.tasks, init, interrupt, now)[t := ResetRow(db.tasks[t], interrupt, now)];
  }

  /** The batch equals the reset of each in-flight row, whatever order the rows are taken in. */
  lemma BatchIsPointwise(db: Db, ids: seq<Id>, interrupt: bool, now: Time)
    requires Lists(db.tasks, ids)
    ensures Run(db, ResetOps(ids, interrupt, now))
            == db.(tasks := BulkRows(db.tasks, interrupt, now),
                events := BulkEvents(db.tasks, db.events, ids, interrupt, now))
  {
    OneByOne(db, ids, interrupt, now);
    assert RowsUpTo(db.tasks, ids, interrupt, now) == BulkRows(db.tasks, interrupt, now);
  }

  // ---- What the reset does to a row, written out ----

  /** The event of a reset, in either mode. */
  predicate ResetTold(row: Task, interrupt: bool, now: Time, event: Event) {
    if interrupt then
      event == Event(row.recordingId, row.attempt, TaskInterrupted, now, Warn, Some(row.status), Failed, None,
          Some(30003), event.errorMessage, Previous(row.attempt, row.status))
    else
      event == Event(row.recordingId, row.attempt + 1, TaskRecovered, now, Info, Some(row.status), Pending, None,
          None, "", Previous(row.attempt, row.status))
  }

  /** Interrupted: the attempt ends in failed, with the code and the time, and its products stay as evidence. */
  predicate InterruptedAs(row: Task, now: Time, after: Task, event: Event) {
    && after == row.(status := Failed, errorCode := Some(30003), errorMessage := after.errorMessage,
        finishedAt := Some(now), updatedAt := now, eventSeq := row.eventSeq + 1)
    && ResetTold(row, true, now, event) && event.errorMessage == after.errorMessage
  }

  /** Recovered: a new attempt is pending, without products, error, start or end. */
  predicate RecoveredAs(row: Task, now: Time, after: Task, event: Event) {
    && after == row.(status := Pending, attempt := row.attempt + 1, transcript := "", summary := None,
        errorCode := None, errorMessage := "", startedAt := None, finishedAt := None,
        updatedAt := now, eventSeq := row.eventSeq + 1)
    && ResetTold(row, false, now, event)
  }

  /** Every row found transcribing or summarizing is treated in the chosen way, its last event saying so; every
      other row, every recording and every earlier event stays, and no further event appears. */
  ghost predicate ResetLeaves(db: Db, interrupt: bool, now: Time, n: Db) {
    && n.recordings == db.recordings && n.tasks.Keys == db.tasks.Keys
    && (forall t :: t in db.tasks && !db.tasks[t].status.Transcribing? && !db.tasks[t].status.Summarizing? ==>
          n.tasks[t] == db.tasks[t])
    && (forall t :: t in db.tasks && (db.tasks[t].status.Transcribing? || db.tasks[t].status.Summarizing?) ==>
          && var last := EventKey(t, n.tasks[t].eventSeq);
          && last in n.events
          && if interrupt then InterruptedAs(db.tasks[t], now, n.tasks[t], n.events[last])
             else RecoveredAs(db.tasks[t], now, n.tasks[t], n.events[last]))
    && (forall k :: k in db.events ==> k in n.events && n.events[k] == db.events[k])
    && (forall k :: k in n.events && k !in db.events ==>
          && k.task in db.tasks && (db.tasks[k.task].status.Transcribing? || db.tasks[k.task].status.Summarizing?)
          && k.seqNo == db.tasks[k.task].eventSeq + 1)
  }

  /** Where the batch puts its events: one behind each listed row. */
  lemma {:induction false} BulkEventsAt(
      tasks: map<Id, Task>, events: map<EventKey, Event>, ids: seq<Id>, interrupt: bool, now: Time, k: EventKey)
    requires Distinct(ids) && forall t :: t in ids ==> t in tasks
    ensures var n := BulkEvents(tasks, events, ids, interrupt, now);
      if k.task in ids && k.seqNo == tasks[k.task].eventSeq + 1
      then k in n && n[k] == ResetEvent(tasks[k.task], interrupt, now)
      else (k in n <==> k in events) && (k in n ==> n[k] == events[k])
    decreases |ids|
  {
    if ids != [] {
      var init, t := ids[..|ids| - 1], ids[|ids| - 1];
      assert ids == init + [t] && t !in init;
      BulkEventsAt(tasks, events, init, interrupt, now, k);
      var before := BulkEvents(tasks, events, init, interrupt, now);
      assert BulkEvents(tasks, events, ids, interrupt, now)
             == before[EventKey(t, tasks[t].eventSeq + 1) := ResetEvent(tasks[t], interrupt, now)];
      assert k.task in ids <==> k.task in init || k.task == t;
    }
  }

  /** The events of the batch, seen from the scanned rows. */
  lemma BatchEvents(db: Db, ids: seq<Id>, interrupt: bool, now: Time, k: EventKey)
    requires Sound(db) && Lists(db.tasks, ids)
    ensures var n := BulkEvents(db.tasks, db.events, ids, interrupt, now);
      && (k in db.events ==> k in n && n[k] == db.events[k])
      && (k in n && k !in db.events ==>
            k.task in db.tasks && InFlight(db.tasks[k.task].status) && k.seqNo == db.tasks[k.task].eventSeq + 1)
      && (k.task in ids && k.seqNo == db.tasks[k.task].eventSeq + 1 ==>
            k in n && n[k] == ResetEvent(db.tasks[k.task], interrupt, now))
  {
    BulkEventsAt(db.tasks, db.events, ids, interrupt, now, k);
    if k.task in ids { NextNumberFree(db, k.task); }
  }

  lemma RowLeaves(row: Task, interrupt: bool, now: Time)
    requires InFlight(row.status)
    ensures var n := ResetRow(row, interrupt, now); var e := ResetEvent(row, interrupt, now);
      && n.eventSeq == row.eventSeq + 1
      && if interrupt then InterruptedAs(row, now, n, e) else RecoveredAs(row, now, n, e)
  {
  }

  /** One reset in each mode, for all rows in flight. */
  lemma BatchLeaves(db: Db, ids: seq<Id>, interrupt: bool, now: Time)
    requires Sound(db) && Lists(db.tasks, ids)
    ensures ResetLeaves(db, interrupt, now, db.(tasks := BulkRows(db.tasks, interrupt, now),
        events := BulkEvents(db.tasks, db.events, ids, interrupt, now)))
  {
    var rows := BulkRows(db.tasks, interrupt, now);
    var events := BulkEvents(db.tasks, db.events, ids, interrupt, now);
    forall k | k in db.events ensures k in events && events[k] == db.events[k] {
      BatchEvents(db, ids, interrupt, now, k);
    }
    forall k | k in events && k !in db.events
      ensures k.task in db.tasks && InFlight(db.tasks[k.task].status) && k.seqNo == db.tasks[k.task].eventSeq + 1
    {
      BatchEvents(db, ids, interrupt, now, k);
    }
    forall t | t in db.tasks && InFlight(db.tasks[t].status)
      ensures var last := EventKey(t, rows[t].eventSeq);
        && last in events
        && if interrupt then InterruptedAs(db.tasks[t], now, rows[t], events[last])
           else RecoveredAs(db.tasks[t], now, rows[t], events[last])
    {
      RowLeaves(db.tasks[t], interrupt, now);
      BatchEvents(db, ids, interrupt, now, EventKey(t, db.tasks[t].eventSeq + 1));
    }
  }

  lemma ResetsLeave(db: Db, ids: seq<Id>, interrupt: bool, now: Time)
    requires Sound(db) && Lists(db.tasks, ids)
    ensures ResetLeaves(db, interrupt, now, Run(db, ResetOps(ids, interrupt, now)))
  {
    BatchIsPointwise(db, ids, interrupt, now);
    BatchLeaves(db, ids, interrupt, now);
  }

  /** The batch keeps the invariant, leaves nothing in flight, and touches no other row. */
  lemma BatchKeeps(db: Db, ids: seq<Id>, interrupt: bool, now: Time)
    requires Sound(db) && Lists(db.tasks, ids)
    ensures var n := Run(db, ResetOps(ids, interrupt, now));
      && Sound(n)
      && InFlightTasks(n.tasks) == {}
      && n.recordings == db.recordings && n.tasks.Keys == db.tasks.Keys
      && (forall t :: t in db.tasks && !InFlight(db.tasks[t].status) ==> n.tasks[t] == db.tasks[t])
  {
    BatchIsPointwise(db, ids, interrupt, now);
    RunKeeps(db, ResetOps(ids, interrupt, now));
  }

  /** A second run changes nothing. */
  lemma SecondRunChangesNothing(db: Db, ids: seq<Id>, again: seq<Id>, interrupt: bool, now: Time, later: Time)
    requires Sound(db) && Lists(db.tasks, ids)
    requires Lists(Run(db, ResetOps(ids, interrupt, now)).tasks, again)
    ensures again == []
    ensures Run(Run(db, ResetOps(ids, interrupt, now)), ResetOps(again, interrupt, later)) ==
        Run(db, ResetOps(ids, interrupt, now))
  {
    BatchKeeps(db, ids, interrupt, now);
    NothingListed(Run(db, ResetOps(ids, interrupt, now)).tasks, again);
  }

  lemma NothingListed(tasks: map<Id, Task>, ids: seq<Id>)
    requires Lists(tasks, ids) && InFlightTasks(tasks) == {}
    ensures ids == []
  {
    DistinctSize(ids);
    assert Members(ids) == {};
  }

  lemma {:induction false} RunKeeps(db: Db, ops: seq<Op>)
    requires Sound(db) && forall op :: op in ops ==> op.Reset?
    ensures Sound(Run(db, ops))
    decreases |ops|
  {
    if ops != [] {
      assert ops[0] in ops;
      Keeps(db, ops[0], true);
      RunKeeps(Attempt(db, ops[0], true), ops[1..]);
    }
  }

  /** Every number in the event list is the event_seq its row gets, and is free beforehand. */
  lemma {:induction false} BatchNumbersFree(db: Db, ids: seq<Id>, t: Id, interrupt: bool, now: Time)
    requires Sound(db) && t in db.tasks && t !in ids && forall u :: u in ids ==> u in db.tasks
    ensures EventKey(t, ResetRow(db.tasks[t], interrupt, now).eventSeq) !in BulkEvents(db.tasks, db.events, ids,
        interrupt, now)
    decreases |ids|
  {
    if ids == [] {
      NextNumberFree(db, t);
    } else {
      assert ids[|ids| - 1] in ids;
      BatchNumbersFree(db, ids[..|ids| - 1], t, interrupt, now);
    }
  }
}
