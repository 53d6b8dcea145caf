/** The read side. Each query is one or two plain SELECTs; where there are two, they may see two different
    states, so both are parameters. */
module Queries {
  import opened Prelude
  import opened Lifecycle
  import opened SummaryJson
  import opened Tables
  import opened Invariant

  datatype TaskView = TaskView(
    id: Id, recordingId: Id, status: Status, attempt: int, createdAt: Time,
    startedAt: Option<Time>, finishedAt: Option<Time>, nextRetryAt: Option<Time>,
    error: Option<(int, string)>)

  datatype RecordingDetail = RecordingDetail(
    task: TaskView, filename: string, extension: string, size: nat, createdAt: Time,
    transcript: Option<string>, result: Option<Summary>)

  datatype QueryError = NotFound | Inconsistent

  /** What finalize needs to know of a recording being deleted. */
  datatype DeletingRow = DeletingRow(rec: Id, path: Path, task: Option<Id>)

  /** The view shows an error exactly when the row carries a code. */
  function ViewOf(t: Id, row: Task): TaskView {
    TaskView(t, row.recordingId, row.status, row.attempt, row.createdAt, row.startedAt, row.finishedAt, row.nextRetryAt,
             if row.errorCode.Some? then Some((row.errorCode.value, row.errorMessage)) else None)
  }

  /** Field by field what a view shows of a row; the error is the code with its message, if there is a code. */
  predicate Shows(view: TaskView, t: Id, row: Task) {
    && view.id == t && view.recordingId == row.recordingId && view.status == row.status
    && view.attempt == row.attempt && view.createdAt == row.createdAt
    && view.startedAt == row.startedAt && view.finishedAt == row.finishedAt && view.nextRetryAt == row.nextRetryAt
    && (view.error.None? <==> row.errorCode.None?)
    && (view.error.Some? ==> view.error.value.0 == row.errorCode.value && view.error.value.1 == row.errorMessage)
  }

  predicate TaskRowOf(tasks: map<Id, Task>, t: Id, r: Id) {
    t in tasks && tasks[t].recordingId == r
  }

  /** SELECT * FROM tasks WHERE recording_id = ?. */
  method TaskOfRecording(db: Db, r: Id) returns (t: Option<Id>)
    ensures t.Some? ==> TaskRowOf(db.tasks, t.value, r)
    ensures t.None? <==> forall u :: !TaskRowOf(db.tasks, u, r)
  {
    if exists u :: u in db.tasks.Keys && TaskRowOf(db.tasks, u, r) {
      var u :| u in db.tasks.Keys && TaskRowOf(db.tasks, u, r);
      return Some(u);
    }
    return None;
  }

  /** GetTask: the row from the first read, the deletion mark from the second. */
  method GetTask(first: Db, second: Db, t: Id) returns (r: Result<TaskView, QueryError>)
    ensures r.Ok? <==> t in first.tasks && Active(second, first.tasks[t].recordingId)
    ensures r.Ok? ==> r.value == ViewOf(t, first.tasks[t]) && Shows(r.value, t, first.tasks[t])
    ensures r.Err? ==> r.error.NotFound?
  {
    if t !in first.tasks {
      return Err(NotFound);
    }
    var row := first.tasks[t];
    if row.recordingId !in second.recordings {
      return Err(NotFound);
    }
    if second.recordings[row.recordingId].deletingAt.Some? {
      return Err(NotFound);
    }
    return Ok(ViewOf(t, row));
  }

  /** The summary of a done row, read back by the strict validation. */
  function StoredSummary(row: Task): (s: Option<Summary>) {
    if row.summary.Some? && Parse(row.summary.value).Ok? then Some(Parse(row.summary.value).value) else None
  }

  lemma StoredSummaryReadable(db: Db, t: Id)
    requires Sound(db) && t in db.tasks
    ensures db.tasks[t].status.Done? <==> StoredSummary(db.tasks[t]).Some?
    ensures StoredSummary(db.tasks[t]).Some? ==>
        var s := StoredSummary(db.tasks[t]).value; Valid(s) && db.tasks[t].summary == Some(Encode(s))
  {
    assert Inv(db);
    assert Readable(db.tasks[t]) && Shape(db.tasks[t]);
    if db.tasks[t].summary.Some? { ParseAccepts(db.tasks[t].summary.value); }
  }

  lemma TaskExists(db: Db, r: Id)
    requires Sound(db) && r in db.recordings
    ensures exists t :: TaskRowOf(db.tasks, t, r)
    ensures forall t, u :: TaskRowOf(db.tasks, t, r) && TaskRowOf(db.tasks, u, r) ==> t == u
  {
    assert Inv(db);
    assert HasTask(db, r);
    var t :| t in db.tasks && db.tasks[t].recordingId == r;
    assert TaskRowOf(db.tasks, t, r);
  }

  lemma NoTaskWithoutRecording(db: Db, r: Id)
    requires Sound(db) && r !in db.recordings
    ensures forall t :: !TaskRowOf(db.tasks, t, r)
  {
    assert Inv(db);
  }

  /** GetRecording. An inconsistency is reported exactly when the recording was purged between the two
      reads; so never on one state. A result is shown exactly for done tasks, and it is the stored summary. */
  method GetRecording(first: Db, second: Db, r: Id) returns (reply: Result<RecordingDetail, QueryError>)
    requires Sound(first) && Sound(second)
    ensures reply == Err(NotFound) <==> !Active(first, r)
    ensures reply == Err(Inconsistent) <==> Active(first, r) && r !in second.recordings
    ensures first == second ==> reply != Err(Inconsistent)
    ensures reply.Ok? ==>
      && var t := reply.value.task.id;
      && TaskRowOf(second.tasks, t, r)
      && var row := second.tasks[t];
      && reply.value.task == ViewOf(t, row) && Shows(reply.value.task, t, row)
      && reply.value.filename == first.recordings[r].filename
      && reply.value.extension == first.recordings[r].extension
      && reply.value.size == first.recordings[r].size
      && reply.value.createdAt == first.recordings[r].createdAt
      && reply.value.transcript == (if row.transcript == "" then None else Some(row.transcript))
      && (reply.value.result.Some? <==> row.status.Done?)
      && (reply.value.result.Some? ==>
          Valid(reply.value.result.value) && row.summary == Some(Encode(reply.value.result.value)))
  {
    if r !in first.recordings || first.recordings[r].deletingAt.Some? {
      return Err(NotFound);
    }
    var rec := first.recordings[r];
    if r in second.recordings { TaskExists(second, r); } else { NoTaskWithoutRecording(second, r); }
    var found := TaskOfRecording(second, r);
    if found.None? {
      return Err(Inconsistent);
    }
    var row := second.tasks[found.value];
    var detail := RecordingDetail(ViewOf(found.value, row), rec.filename, rec.extension, rec.size, rec.createdAt,
        None, None);
    if row.transcript != "" {
      detail := detail.(transcript := Some(row.transcript));
    }
    StoredSummaryReadable(second, found.value);
    if row.status.Done? {
      if row.summary.None? || Parse(row.summary.value).Err? {
        return Err(Inconsistent);
      }
      detail := detail.(result := Some(Parse(row.summary.value).value));
    }
    return Ok(detail);
  }

  /** deletingOf: a failing second read looks like a recording without a task. */
  method DeletingOf(db: Db, r: Id, readFails: bool) returns (row: DeletingRow)
    requires r in db.recordings
    ensures row.rec == r && row.path == db.recordings[r].path
    ensures row.task.Some? ==> TaskRowOf(db.tasks, row.task.value, r)
    ensures row.task.None? ==> readFails || forall u :: !TaskRowOf(db.tasks, u, r)
  {
    var t := None;
    if !readFails {
      t := TaskOfRecording(db, r);
    }
    return DeletingRow(r, db.recordings[r].path, t);
  }

  /** GetDeleting: absent unless the recording is marked. */
  method GetDeleting(db: Db, r: Id, readFails: bool) returns (row: Option<DeletingRow>)
    ensures row.Some? <==> Deleting(db, r)
    ensures row.Some? ==> && row.value.rec == r && row.value.path == db.recordings[r].path
                          && (row.value.task.Some? ==> TaskRowOf(db.tasks, row.value.task.value, r))
  {
    if r !in db.recordings || db.recordings[r].deletingAt.None? {
      return None;
    }
    var found := DeletingOf(db, r, readFails);
    return Some(found);
  }

  /** Deletion order: oldest mark first, identifiers break ties. */
  predicate Sooner(recs: map<Id, Recording>, r: Id, s: Id)
    requires r in recs && s in recs
  {
    recs[r].deletingAt.None? || recs[s].deletingAt.None?
    || recs[r].deletingAt.value < recs[s].deletingAt.value || (recs[r].deletingAt == recs[s].deletingAt && r <= s)
  }

  lemma {:induction false} SoonestOf(recs: map<Id, Recording>, some: set<Id>) returns (r: Id)
    requires some != {} && some <= recs.Keys && forall s :: s in some ==> recs[s].deletingAt.Some?
    ensures r in some && forall s :: s in some ==> Sooner(recs, r, s)
  {
    r :| r in some;
    if some != {r} {
      var rest := SoonestOf(recs, some - {r});
      assert forall s :: s in some ==> s == r || s in some - {r};
      if !Sooner(recs, r, rest) {
        r := rest;
      }
    }
  }

  /** Each row describes its recording. */
  predicate Describes(db: Db, row: DeletingRow) {
    row.rec in MarkedIn(db) && row.path == db.recordings[row.rec].path
        && (row.task.Some? ==> TaskRowOf(db.tasks, row.task.value, row.rec))
  }

  function Recs(rows: seq<DeletingRow>): seq<Id> {
    seq(|rows|, i requires 0 <= i < |rows| => rows[i].rec)
  }

  /** Oldest mark first, hence no recording twice. */
  ghost predicate InOrder(db: Db, rows: seq<DeletingRow>) {
    forall i, j :: 0 <= i < j < |rows| ==>
      rows[i].rec != rows[j].rec
          && (rows[i].rec in db.recordings && rows[j].rec in db.recordings ==>
              Sooner(db.recordings, rows[i].rec, rows[j].rec))
  }

  /** ListDeleting: every marked recording once, oldest mark first. */
  method ListDeleting(db: Db, readFails: set<Id>) returns (rows: seq<DeletingRow>)
    ensures forall r :: r in Recs(rows) <==> r in MarkedIn(db)
    ensures forall i :: 0 <= i < |rows| ==> Describes(db, rows[i])
    ensures InOrder(db, rows)
    ensures forall i, j :: 0 <= i < j < |rows| ==>
      && rows[i].rec in db.recordings && db.recordings[rows[i].rec].deletingAt.Some?
      && rows[j].rec in db.recordings && db.recordings[rows[j].rec].deletingAt.Some?
      && var a, b := db.recordings[rows[i].rec].deletingAt.value, db.recordings[rows[j].rec].deletingAt.value;
      a < b || (a == b && rows[i].rec < rows[j].rec)
  {
    rows := [];
    var rest := MarkedIn(db);
    while rest != {}
      invariant rest <= MarkedIn(db)
      invariant forall r :: r in Recs(rows) <==> r in MarkedIn(db) - rest
      invariant forall i :: 0 <= i < |rows| ==> Describes(db, rows[i]) && rows[i].rec !in rest
      invariant forall i, s :: 0 <= i < |rows| && s in rest ==> Sooner(db.recordings, rows[i].rec, s)
      invariant InOrder(db, rows)
    {
      ghost var soonest := SoonestOf(db.recordings, rest);
      var r :| r in rest && forall s :: s in rest ==> Sooner(db.recordings, r, s);
      var row := DeletingOf(db, r, r in readFails);
      assert Recs(rows + [row]) == Recs(rows) + [r];
      rows, rest := rows + [row], rest - {r};
    }
  }
}
