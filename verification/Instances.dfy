/** Short runs from the very beginning, which show that the states the negative results start from are reached. */
module Instances {
  import opened Prelude
  import opened Lifecycle
  import opened Bytes
  import opened Uuid
  import opened Tables
  import opened BatchReset
  import opened Fencing
  import opened Database
  import opened World
  import opened WorldInv
  import opened WorldHistory
  import opened WorldSafety
  import opened WorldOwners
  import opened WorldBoot

  // ---- Paths from the beginning are runs ----

  lemma PathIsRun(path: seq<World>, w: World, n: World)
    requires Init(w) && LeadsAlong(path, w, n)
    ensures IsRun(path)
  {
  }

  lemma EndOk(path: seq<World>, w: World, n: World)
    requires Init(w) && LeadsAlong(path, w, n)
    ensures WorldOk(n)
  {
    PathIsRun(path, w, n);
    AlwaysOk(path, |path| - 1);
  }

  lemma Join(a: seq<World>, b: seq<World>, u: World, v: World, w: World) returns (ab: seq<World>)
    requires LeadsAlong(a, u, v) && LeadsAlong(b, v, w)
    ensures LeadsAlong(ab, u, w) && a <= ab
  {
    ab := a + b[1..];
    forall i | 0 <= i < |ab| - 1 ensures Leads(ab[i], ab[i + 1]) {
      if i >= |a| - 1 { assert ab[i] == b[i - (|a| - 1)] && ab[i + 1] == b[i + 1 - (|a| - 1)]; }
    }
  }

  // ---- A first upload ----

  lemma SomeName() returns (tmp: Path, path: Path)
    ensures FinalName(path) && !TmpName(path) && TmpName(tmp) && path != tmp
  {
    var id := seq(36, i requires 0 <= i < 36 => if DashAt(i) then '-' else '0');
    NamesApart(id, "wav");
    tmp, path := TmpFor(id), FinalFor(id, "wav");
  }

  lemma StartsServing(w: World) returns (path: seq<World>)
    requires Init(w)
    ensures LeadsAlong(path, w, StartServing(w))
  {
    var inspecting, resuming, resetting := w.(mode := Inspecting), w.(mode := Resuming), w.(mode := Resetting);
    var listing := w.(mode := Listing);
    assert Run(w.db, ResetOps([], false, 0)) == w.db;
    path := Extend([w], w, w, Boot, inspecting);
    path := Extend(path, w, inspecting, Inspect(true), resuming);
    path := Extend(path, w, resuming, EndResume, resetting);
    path := Extend(path, w, resetting, ProcessStep.ResetInFlight([], false, 0, ResetDone(0), true), listing);
    path := Extend(path, w, listing, ListFiles(false), StartServing(w));
  }

  function Opening(w: World, tmp: Path, content: seq<byte>): World {
    World(w.digest, w.db, map[tmp := content], Serving, map[], map[0 := Receiving(tmp)], map[], map[], {}, false, true,
      true, History({0}, {}, map[tmp := 0], map[], map[], map[], map[], {}, 0))
  }

  lemma Receives(w: World, tmp: Path) returns (path: seq<World>)
    requires Init(w) && TmpName(tmp)
    ensures LeadsAlong(path, w, Opening(w, tmp, [0]))
  {
    path := StartsServing(w);
    path := ExtendBy(path, w, StartServing(w), Uploading(0, Open(tmp)), Opening(w, tmp, []));
    assert [] + [0 as byte] == [0];
    assert SaveMoves(Opening(w, tmp, []), 0, Receive([0]), Opening(w, tmp, [0]));
    path := ExtendBy(path, w, Opening(w, tmp, []), Uploading(0, Receive([0])), Opening(w, tmp, [0]));
  }

  /** One byte is uploaded, up to the file under its final name. */
  lemma Uploads(w: World) returns (path: seq<World>, n: World, input: NewRecording)
    requires Init(w)
    ensures LeadsAlong(path, w, n) && n.uploads == map[0 := Stored(input)] && input.rec == 0 && input.task == 1
    ensures n == StartServing(w).(disk := n.disk, uploads := n.uploads, past := n.past) && n.past.nextRound == 0
    ensures input.now == 0
  {
    var tmp, name := SomeName();
    var m := Opening(w, tmp, [0]);
    input := NewRecording(0, 1, "a.wav", name, "wav", 1, w.digest([0]), 0);
    path := Receives(w, tmp);
    n := m.(disk := map[name := [0]], uploads := map[0 := Stored(input)],
      past := m.past.(owner := map[tmp := 0, name := 0], recOf := map[1 := 0]));
    path := ExtendBy(path, w, m, Uploading(0, Rename(input)), n);
  }

  /** The creating transaction commits: the task is there and can be claimed. */
  lemma CreatesTask(w: World) returns (path: seq<World>, n: World)
    requires Init(w)
    ensures LeadsAlong(path, w, n) && n == StartServing(w).(db := n.db, disk := n.disk, past := n.past)
    ensures n.past.nextRound == 0 && Live(n.db, 1) && Ready(n.db.tasks[1], 0)
  {
    var u, input;
    path, u, input := Uploads(w);
    n := u.(db := Insert(WithLock(u.db, input.hash), input), uploads := map[],
      past := u.past.(tried := u.past.tried + {0}));
    assert u.uploads - {0} == map[];
    path := ExtendBy(path, w, u, Uploading(0, Commit), n);
  }

  // ---- A claim whose reply is lost ----

  /** A run from the beginning ends in service with a row in flight that nobody works on. */
  lemma OwnerlessReached(w: World) returns (run: seq<World>, n: World)
    requires Init(w)
    ensures IsRun(run) && LeadsAlong(run, w, n) && n.mode.Serving?
    ensures Ownerless(n.db.tasks, n.rounds, 1) && Live(n.db, 1)
  {
    var c;
    run, c := CreatesTask(w);
    var begun := Enter(c, 0, Claiming).(past := c.past.(nextRound := 1));
    run := ExtendBy(run, w, c, Process(BeginRound), begun);
    EndOk(run, w, begun);
    n := LostClaimLeavesNoOwner(begun, 0, 1, 0, 1);
    run := ExtendBy(run, w, begun, Round(0, RoundStep.Claim(1, 0, 1, false, true)), n);
    PathIsRun(run, w, n);
  }

  // ---- A boot reset that writes to a marked task ----

  /** Such a run from the beginning: the recording is marked at index i, and by the end its task's row and
      log have changed. */
  lemma MarkedResetReached(w: World) returns (run: seq<World>, i: nat)
    requires Init(w)
    ensures IsRun(run) && run[0] == w && i < |run| && 1 in run[i].db.tasks
    ensures Deleting(run[i].db, run[i].db.tasks[1].recordingId) && !SameTask(run[i].db, run[|run| - 1].db, 1)
  {
    var o;
    run, o := OwnerlessReached(w);
    var r := o.db.tasks[1].recordingId;
    var m := o.(db := Attempt(WithLock(o.db, o.db.recordings[r].hash), Mark(r, Some(1), 1), true));
    run := ExtendBy(run, w, o, Deletion(0, MarkDeleting(r, Some(1), 1, true)), m);
    EndOk(run, w, m);
    var rest, n := ResetReachesMarked(m, 1, 2);
    i := |run| - 1;
    assert run[i] == m;
    run := Join(run, rest, w, m, n);
    PathIsRun(run, w, n);
  }

  // ---- A task that failed at its third attempt ----

  const EMPTY := Db(map[], map[], map[], {})

  /** One attempt after the given transactions: claimed, transcribed, and failed. */
  function FailedAttempt(ops: seq<Op>, attempt: int, now: Time): seq<Op> {
    var key := Key(1, attempt);
    ops + [Op.Claim(1, now, now)] + [Save(key, "text", now + 1)] + [Fail(key, 50001, "timeout", now + 2)]
  }

  lemma RowAfter(ops: seq<Op>, op: Op)
    requires Live(Run(EMPTY, ops), 1) && (op.Claim? || op.Save? || op.Fail?)
    requires Target(op) == Some(1) && Guard(Run(EMPTY, ops), op)
    ensures Live(Run(EMPTY, ops + [op]), 1)
    ensures Run(EMPTY, ops + [op]).tasks[1] == Rewrite(op, Run(EMPTY, ops).tasks[1]).0
  {
    RunAppend(EMPTY, ops, op);
  }

  lemma AttemptFails(ops: seq<Op>, attempt: int, now: Time)
    requires Live(Run(EMPTY, ops), 1)
    requires Ready(Run(EMPTY, ops).tasks[1], now) && Run(EMPTY, ops).tasks[1].attempt == attempt
    ensures var after := Run(EMPTY, FailedAttempt(ops, attempt, now));
      && Live(after, 1)
      && after.tasks[1] == FailRow(SaveRow(ClaimRow(Run(EMPTY, ops).tasks[1], now), "text", now + 1),
          50001, "timeout", now + 2)
  {
    var key := Key(1, attempt);
    var claimed := ops + [Op.Claim(1, now, now)];
    RowAfter(ops, Op.Claim(1, now, now));
    RowAfter(claimed, Save(key, "text", now + 1));
    RowAfter(claimed + [Save(key, "text", now + 1)], Fail(key, 50001, "timeout", now + 2));
  }

  /** Three failed attempts after a creation in empty tables leave the row that stays failed. */
  lemma ThirdFailureReached() returns (ops: seq<Op>)
    ensures Live(Run(EMPTY, ops), 1) && Run(EMPTY, ops).tasks[1] == THIRD_FAILURE
  {
    var create := Create(NewRecording(0, 1, "a.wav", "a", "wav", 1, "h", 0));
    RunAppend(EMPTY, [], create);
    assert [] + [create] == [create];
    ops := FailedAttempt([create], 1, 1);
    AttemptFails([create], 1, 1);
    AttemptFails(ops, 2, 1003);
    ops := FailedAttempt(ops, 2, 1003);
    AttemptFails(ops, 3, 3005);
    ops := FailedAttempt(ops, 3, 3005);
  }
}
