/** When clients of the row locks block each other for good. Deadlock freedom does not hold, because marks and
    reuse scans lock a recording before its task while everybody else locks the task first; a deadlock is
    exactly a crossing of the two orders, and without one somebody can always move. */
module Deadlocks {
  import opened Prelude
  import opened Tables
  import opened Invariant
  import opened RowLocks

  // ---- Who holds what ----

  /** The locks a client can hold where it stands. */
  predicate MayHold(client: Client, l: Lock) {
    match client
    case Uploader(input, pc) =>
      (match l
       case HashLock(h) => h == input.hash && (pc.Scan? || pc.Joining? || pc.Hit? || pc.Missed?)
       case RecLock(r) => (pc.Joining? || pc.Hit?) && pc.rec == r
       case TaskLock(t) => pc.Hit? && pc.task == t)
    case Marker(rec, _, pc) =>
      (match l
       case HashLock(_) => pc.WaitMarkRec? || pc.WaitMarkTask? || pc.ReadyToMark?
       case RecLock(r) => r == rec && (pc.WaitMarkTask? || pc.ReadyToMark?)
       case TaskLock(t) => pc.ReadyToMark? && pc.of == Some(t))
    case Purger(rec, pc) =>
      (match l
       case HashLock(_) => false
       case RecLock(r) => r == rec && pc.ReadyToPurge?
       case TaskLock(t) => (pc.WaitPurgeRec? || pc.ReadyToPurge?) && pc.of == Some(t))
    case Writer(op, pc) =>
      (match l
       case HashLock(_) => false
       case RecLock(r) => pc.ReadyToWrite? && pc.row.recordingId == r
       case TaskLock(t) => (pc.WaitRec? || pc.ReadyToWrite?) && Target(op) == Some(t))
  }

  /** Every lock belongs to an open transaction that has come far enough to hold it. */
  ghost predicate Owned(s: Locked) {
    forall l :: l in s.holder ==> s.holder[l] in s.clients && MayHold(s.clients[s.holder[l]], l)
  }

  /** Who waits for a hash-lock row has made sure that it exists. */
  predicate HashRow(locks: set<Hash>, client: Client) {
    && (client.Uploader? && client.up.WaitHash? ==> client.input.hash in locks)
    && (client.Marker? && client.mark.WaitMarkHash? ==> client.mark.h in locks)
  }

  ghost predicate HashRows(s: Locked) {
    forall c :: c in s.clients ==> HashRow(s.db.hashLocks, s.clients[c])
  }

  ghost predicate LockTableInv(s: Locked) {
    LockInv(s) && Owned(s) && HashRows(s)
  }

  /** LockInv with what is known of the lock table, kept folded. */
  ghost predicate LocksOk(s: Locked) {
    forall x {:trigger LockTableInv(x)} :: x == s ==> LockTableInv(x)
  }

  /** A move of c, seen from the lock table: the others' locks stay, and c's own locks fit. */
  ghost predicate LockMove(s: Locked, c: nat, n: Locked) {
    && (forall l :: l in n.holder && n.holder[l] != c ==> Holds(s, l, n.holder[l]))
    && (forall l :: Holds(n, l, c) ==> c in n.clients && MayHold(n.clients[c], l))
    && s.db.hashLocks <= n.db.hashLocks
    && (c in n.clients ==> HashRow(n.db.hashLocks, n.clients[c]))
  }

  lemma UploaderLocks(
      s: Locked, c: nat, input: NewRecording, pc: UploadPc, choice: Option<Id>, applied: bool,
      n: Locked)
    requires Owned(s) && c in s.clients && s.clients[c] == Uploader(input, pc)
    requires UploaderMoves(s, c, input, pc, choice, applied, n)
    ensures LockMove(s, c, n)
  {
  }

  lemma MarkerLocks(
      s: Locked, c: nat, r: Id, now: Time, pc: MarkPc, choice: Option<Id>, applied: bool, n: Locked)
    requires Owned(s) && c in s.clients && s.clients[c] == Marker(r, now, pc)
    requires MarkerMoves(s, c, r, now, pc, choice, applied, n)
    ensures LockMove(s, c, n)
  {
  }

  lemma PurgerLocks(s: Locked, c: nat, r: Id, pc: PurgePc, choice: Option<Id>, applied: bool, n: Locked)
    requires Owned(s) && c in s.clients && s.clients[c] == Purger(r, pc)
    requires PurgerMoves(s, c, r, pc, choice, applied, n)
    ensures LockMove(s, c, n)
  {
  }

  lemma WriterLocks(s: Locked, c: nat, op: Op, pc: WritePc, applied: bool, n: Locked)
    requires Owned(s) && c in s.clients && s.clients[c] == Writer(op, pc) && RowOp(op)
    requires WriterMoves(s, c, op, pc, applied, n)
    ensures LockMove(s, c, n)
  {
  }

  lemma StepLocks(s: Locked, c: nat, m: Move, n: Locked)
    requires Owned(s) && Step(s, c, m, n)
    ensures LockMove(s, c, n)
  {
    if m.Advance? {
      match s.clients[c]
      case Uploader(input, pc) => UploaderLocks(s, c, input, pc, m.choice, m.applied, n);
      case Marker(r, now, pc) => MarkerLocks(s, c, r, now, pc, m.choice, m.applied, n);
      case Purger(r, pc) => PurgerLocks(s, c, r, pc, m.choice, m.applied, n);
      case Writer(op, pc) => WriterLocks(s, c, op, pc, m.applied, n);
    }
  }

  lemma StepKeepsLocksOk(s: Locked, c: nat, m: Move, n: Locked)
    requires LocksOk(s) && Step(s, c, m, n)
    ensures LocksOk(n)
  {
    assert LockTableInv(s);
    StepKeepsLockInv(s, c, m, n);
    StepLocks(s, c, m, n);
    OthersStay(s, c, m, n);
    LockMoveKeeps(s, c, n);
  }

  lemma LockMoveKeeps(s: Locked, c: nat, n: Locked)
    requires Owned(s) && HashRows(s) && LockMove(s, c, n) && SameOthers(s, c, n)
    ensures Owned(n) && HashRows(n)
  {
    forall l | l in n.holder ensures n.holder[l] in n.clients && MayHold(n.clients[n.holder[l]], l) {
      var d := n.holder[l];
      if d == c {
        assert Holds(n, l, c);
      } else {
        assert Holds(s, l, d) && l in s.holder;
      }
    }
    forall d | d in n.clients && d != c ensures HashRow(n.db.hashLocks, n.clients[d]) {
      assert HashRow(s.db.hashLocks, s.clients[d]);
    }
  }

  // ---- Who waits for whom ----

  /** The lock the next step of c takes, if it takes one. */
  ghost predicate Wants(s: Locked, c: nat, l: Lock) {
    && c in s.clients
    && match s.clients[c]
       case Uploader(input, pc) =>
         (match pc
          case WaitHash => l == HashLock(input.hash)
          case Scan => exists t :: Reusable(s.db, t, input.hash) && l == RecLock(s.db.tasks[t].recordingId)
          case Joining(_, t) => l == TaskLock(t)
          case _ => false)
       case Marker(r, _, pc) =>
         (match pc
          case WaitMarkHash(h, _) => l == HashLock(h)
          case WaitMarkRec(_, _) => r in s.db.recordings && l == RecLock(r)
          case WaitMarkTask(_, of, _) => of.Some? && of.value in s.db.tasks && l == TaskLock(of.value)
          case _ => false)
       case Purger(r, pc) =>
         (match pc
          case WaitPurgeTask => exists t :: t in s.db.tasks && s.db.tasks[t].recordingId == r && l == TaskLock(t)
          case WaitPurgeRec(_) => l == RecLock(r)
          case _ => false)
       case Writer(op, pc) =>
         (match pc
          case WaitTask =>
            !op.Claim? && Target(op).Some? && Target(op).value in s.db.tasks && l == TaskLock(Target(op).value)
          case WaitRec(row) => row.recordingId in s.db.recordings && l == RecLock(row.recordingId)
          case _ => false)
  }

  /** Wants kept folded. */
  ghost predicate Needs(s: Locked, c: nat, l: Lock) {
    forall x {:trigger Wants(x, c, l)} :: x == s ==> Wants(x, c, l)
  }

  ghost predicate WaitsOn(s: Locked, c: nat, l: Lock, d: nat) {
    d != c && Needs(s, c, l) && Holds(s, l, d)
  }

  ghost predicate WaitsFor(s: Locked, c: nat, d: nat) {
    exists l :: WaitsOn(s, c, l, d)
  }

  /** No next step of c is possible, whatever it would find and however its commit would end. */
  ghost predicate Stuck(s: Locked, c: nat) {
    forall choice, applied, n :: !Step(s, c, Advance(choice, applied), n)
  }

  lemma HashIsUnique(db: Db, h: Hash, t: Id, u: Id)
    requires Sound(db) && Reusable(db, t, h) && Reusable(db, u, h)
    ensures db.tasks[t].recordingId == db.tasks[u].recordingId
  {
    assert Inv(db);
  }

  lemma TaskIsUnique(db: Db, t: Id, u: Id)
    requires Sound(db) && t in db.tasks && u in db.tasks && db.tasks[t].recordingId == db.tasks[u].recordingId
    ensures t == u
  {
    assert Inv(db);
  }

  // ---- A client is stuck exactly when it waits for another ----

  lemma UploaderBlocked(
      s: Locked, c: nat, input: NewRecording, pc: UploadPc, l: Lock, d: nat, choice: Option<Id>,
      applied: bool, n: Locked)
    requires Sound(s.db) && c in s.clients && s.clients[c] == Uploader(input, pc) && WaitsOn(s, c, l, d)
    ensures !UploaderMoves(s, c, input, pc, choice, applied, n)
  {
    assert Wants(s, c, l);
    if pc.Scan? {
      var t :| Reusable(s.db, t, input.hash) && l == RecLock(s.db.tasks[t].recordingId);
      if choice.Some? && Reusable(s.db, choice.value, input.hash) { HashIsUnique(s.db, input.hash, t, choice.value); }
    }
  }

  lemma PurgerBlocked(
      s: Locked, c: nat, r: Id, pc: PurgePc, l: Lock, d: nat, choice: Option<Id>, applied: bool,
      n: Locked)
    requires Sound(s.db) && c in s.clients && s.clients[c] == Purger(r, pc) && WaitsOn(s, c, l, d)
    ensures !PurgerMoves(s, c, r, pc, choice, applied, n)
  {
    assert Wants(s, c, l);
    if pc.WaitPurgeTask? {
      var t :| t in s.db.tasks && s.db.tasks[t].recordingId == r && l == TaskLock(t);
      if choice.Some? && FoundTask(s.db, r, choice) { TaskIsUnique(s.db, t, choice.value); }
    }
  }

  /** Who waits for a lock of another cannot move. */
  lemma WaitingIsStuck(s: Locked, c: nat, d: nat)
    requires LocksOk(s) && WaitsFor(s, c, d)
    ensures Stuck(s, c)
  {
    var l :| WaitsOn(s, c, l, d);
    assert LockTableInv(s) && Wants(s, c, l);
    forall choice, applied, n ensures !Step(s, c, Advance(choice, applied), n) {
      match s.clients[c]
      case Uploader(input, pc) => UploaderBlocked(s, c, input, pc, l, d, choice, applied, n);
      case Purger(r, pc) => PurgerBlocked(s, c, r, pc, l, d, choice, applied, n);
      case Marker(_, _, _) =>
      case Writer(_, _) =>
    }
  }

  /** Every lock c wants next is free for it. */
  ghost predicate Unhindered(s: Locked, c: nat) {
    forall l :: Wants(s, c, l) ==> Free(s, l, c)
  }

  lemma UploaderGoes(s: Locked, c: nat, input: NewRecording, pc: UploadPc)
    returns (choice: Option<Id>, n: Locked)
    requires c in s.clients && s.clients[c] == Uploader(input, pc) && UploaderKnows(s, c, input, pc)
    requires HashRow(s.db.hashLocks, s.clients[c]) && Unhindered(s, c)
    ensures UploaderMoves(s, c, input, pc, choice, true, n)
  {
    choice := None;
    match pc
    case EnsureLock => n := Goto(s, c, Uploader(input, WaitHash)).(db := WithLock(s.db, input.hash));
    case WaitHash => n := Goto(Take(s, c, HashLock(input.hash)), c, Uploader(input, Scan));
    case Scan =>
      if t :| Reusable(s.db, t, input.hash) {
        var r := s.db.tasks[t].recordingId;
        choice, n := Some(t), Goto(Take(s, c, RecLock(r)), c, Uploader(input, Joining(r, t)));
      } else {
        n := Goto(s, c, Uploader(input, Missed));
      }
    case Joining(r, t) => n := Goto(Take(s, c, TaskLock(t)), c, Uploader(input, Hit(r, t, s.db.tasks[t].status)));
    case Hit(_, _, _) => n := Finish(s, c, s.db);
    case Missed =>
      n := Finish(s, c, Insert(s.db, input)).(usedRecs := s.usedRecs + {input.rec},
          usedTasks := s.usedTasks + {input.task});
  }

  lemma TaskFor(db: Db, r: Id) returns (of: Option<Id>)
    ensures FoundTask(db, r, of)
  {
    if t :| t in db.tasks && db.tasks[t].recordingId == r {
      of := Some(t);
    } else {
      of := None;
    }
  }

  lemma MarkerGoes(s: Locked, c: nat, r: Id, now: Time, pc: MarkPc) returns (choice: Option<Id>, n: Locked)
    requires c in s.clients && s.clients[c] == Marker(r, now, pc)
    requires HashRow(s.db.hashLocks, s.clients[c]) && Unhindered(s, c)
    ensures MarkerMoves(s, c, r, now, pc, choice, true, n)
  {
    choice, n := None, Finish(s, c, s.db);
    match pc
    case Hint =>
      if r in s.db.recordings {
        choice := TaskFor(s.db, r);
        n := Goto(s, c, Marker(r, now, EnsureMarkLock(s.db.recordings[r].hash, choice)));
      }
    case EnsureMarkLock(h, of) => n := Goto(s, c, Marker(r, now, WaitMarkHash(h, of))).(db := WithLock(s.db, h));
    case WaitMarkHash(h, of) => n := Goto(Take(s, c, HashLock(h)), c, Marker(r, now, WaitMarkRec(h, of)));
    case WaitMarkRec(h, of) =>
      if r in s.db.recordings {
        n := Goto(Take(s, c, RecLock(r)), c, Marker(r, now, WaitMarkTask(h, of, s.db.recordings[r])));
      }
    case WaitMarkTask(h, of, row) =>
      if of.None? {
        n := Goto(s, c, Marker(r, now, ReadyToMark(of, row, None)));
      } else if of.value in s.db.tasks {
        n := Goto(Take(s, c, TaskLock(of.value)), c, Marker(r, now, ReadyToMark(of, row, Some(s.db.tasks[of.value]))));
      }
    case ReadyToMark(of, row, task) =>
      if row.deletingAt.None? { n := Finish(s, c, WriteMark(s.db, r, now, of, row, task)); }
  }

  lemma PurgerGoes(s: Locked, c: nat, r: Id, pc: PurgePc) returns (choice: Option<Id>, n: Locked)
    requires c in s.clients && s.clients[c] == Purger(r, pc) && Unhindered(s, c)
    ensures PurgerMoves(s, c, r, pc, choice, true, n)
  {
    choice := None;
    match pc
    case WaitPurgeTask =>
      choice := TaskFor(s.db, r);
      n := Goto(if choice.Some? then Take(s, c, TaskLock(choice.value)) else s, c, Purger(r, WaitPurgeRec(choice)));
    case WaitPurgeRec(of) => n := Goto(Take(s, c, RecLock(r)), c, Purger(r, ReadyToPurge(of)));
    case ReadyToPurge(of) => n := Finish(s, c, Drop(s.db, r));
  }

  lemma WriterGoes(s: Locked, c: nat, op: Op, pc: WritePc) returns (n: Locked)
    requires c in s.clients && s.clients[c] == Writer(op, pc) && RowOp(op) && Unhindered(s, c)
    ensures WriterMoves(s, c, op, pc, true, n)
  {
    var t := Target(op).value;
    n := Finish(s, c, s.db);
    match pc
    case WaitTask =>
      if t in s.db.tasks && Free(s, TaskLock(t), c) && RowGuard(op, s.db.tasks[t]) {
        n := Goto(Take(s, c, TaskLock(t)), c, Writer(op, WaitRec(s.db.tasks[t])));
      }
    case WaitRec(row) =>
      if row.recordingId in s.db.recordings && s.db.recordings[row.recordingId].deletingAt.None? {
        n := Goto(Take(s, c, RecLock(row.recordingId)), c,
            Writer(op, ReadyToWrite(row, s.db.recordings[row.recordingId])));
      }
    case ReadyToWrite(row, _) =>
      var (written, e) := Rewrite(op, row);
      n := Finish(s, c, Put(s.db, t, written, e));
  }

  lemma UnhinderedGoes(s: Locked, c: nat)
    requires LocksOk(s) && c in s.clients && Unhindered(s, c)
    ensures !Stuck(s, c)
  {
    assert LockTableInv(s);
    assert Knows(s, c, s.clients[c]) && HashRow(s.db.hashLocks, s.clients[c]);
    var choice, n := None, s;
    match s.clients[c] {
      case Uploader(input, pc) => choice, n := UploaderGoes(s, c, input, pc);
      case Marker(r, now, pc) => choice, n := MarkerGoes(s, c, r, now, pc);
      case Purger(r, pc) => choice, n := PurgerGoes(s, c, r, pc);
      case Writer(op, pc) => n := WriterGoes(s, c, op, pc);
    }
    assert Step(s, c, Advance(choice, true), n);
  }

  /** A client cannot move exactly when the lock it needs next is another's. */
  lemma StuckIffWaiting(s: Locked, c: nat)
    requires LocksOk(s) && c in s.clients
    ensures Stuck(s, c) <==> exists d :: d in s.clients && WaitsFor(s, c, d)
  {
    if Unhindered(s, c) {
      UnhinderedGoes(s, c);
      if d :| d in s.clients && WaitsFor(s, c, d) { WaitingIsStuck(s, c, d); }
    } else {
      var l :| Wants(s, c, l) && !Free(s, l, c);
      var d := s.holder[l];
      assert d in s.clients by { assert LockTableInv(s); }
      assert WaitsOn(s, c, l, d);
      WaitingIsStuck(s, c, d);
    }
  }

  // ---- Deadlocks are crossings ----

  /** A set of clients each of which waits for another of them: none moves before one is rolled back. */
  ghost predicate Deadlock(s: Locked, some: set<nat>) {
    some != {} && some <= s.clients.Keys && forall c {:trigger WaitsWithin(s, some, c)} :: c in some ==>
        WaitsWithin(s, some, c)
  }

  ghost predicate WaitsWithin(s: Locked, some: set<nat>, c: nat) {
    exists d, l :: d in some && WaitsOn(s, c, l, d)
  }

  /** Whom c waits for in a deadlock, and on which lock. */
  lemma Next(s: Locked, some: set<nat>, c: nat) returns (d: nat, l: Lock)
    requires Deadlock(s, some) && c in some
    ensures d in some && WaitsOn(s, c, l, d)
  {
    assert WaitsWithin(s, some, c);
    d, l :| d in some && WaitsOn(s, c, l, d);
  }

  /** Holds a recording's row and has not locked its task yet: a mark, or the scan of an upload that reuses. */
  predicate RecordingFirst(client: Client) {
    (client.Marker? && client.mark.WaitMarkTask?) || (client.Uploader? && client.up.Joining?)
  }

  /** Holds a task's row and has not locked its recording yet: a claim, stage write or retry, or a purge. */
  predicate TaskFirst(client: Client) {
    (client.Writer? && client.write.WaitRec?) || (client.Purger? && client.purge.WaitPurgeRec?)
  }

  /** m holds the recording r and waits for its task t; k holds t and waits for r. */
  ghost predicate Crossing(s: Locked, m: nat, k: nat, r: Id, t: Id) {
    && m in s.clients && k in s.clients && RecordingFirst(s.clients[m]) && TaskFirst(s.clients[k])
    && t in s.db.tasks && s.db.tasks[t].recordingId == r
    && WaitsOn(s, m, TaskLock(t), k) && WaitsOn(s, k, RecLock(r), m)
  }

  /** Who is waited for, and waits itself, stands where its locks say. */
  lemma HolderWaits(s: Locked, c: nat, l: Lock, d: nat, k: Lock, e: nat)
    requires LocksOk(s) && WaitsOn(s, c, l, d) && WaitsOn(s, d, k, e)
    ensures d in s.clients
    ensures l.RecLock? ==> RecordingFirst(s.clients[d]) && k.TaskLock?
    ensures l.TaskLock? ==> TaskFirst(s.clients[d]) && k.RecLock?
    ensures k.RecLock? || k.TaskLock?
  {
    assert LockTableInv(s) && Wants(s, d, k);
    assert MayHold(s.clients[d], l);
  }

  lemma RecordingFirstHolds(s: Locked, m: nat, l: Lock)
    requires LocksOk(s) && m in s.clients && RecordingFirst(s.clients[m]) && Needs(s, m, l)
    ensures l.TaskLock? && l.t in s.db.tasks && s.db.tasks[l.t].recordingId in s.db.recordings
    ensures Holds(s, RecLock(s.db.tasks[l.t].recordingId), m)
  {
    assert LockTableInv(s) && Wants(s, m, l);
    assert Knows(s, m, s.clients[m]);
  }

  lemma TaskFirstWants(s: Locked, k: nat, t: Id)
    requires LocksOk(s) && k in s.clients && TaskFirst(s.clients[k]) && Holds(s, TaskLock(t), k)
    requires t in s.db.tasks && s.db.tasks[t].recordingId in s.db.recordings
    ensures Needs(s, k, RecLock(s.db.tasks[t].recordingId))
  {
    assert LockTableInv(s);
    assert Knows(s, k, s.clients[k]) && MayHold(s.clients[k], TaskLock(t));
  }

  /** A recording-first client in a deadlock crosses the client it waits for. */
  lemma CrossesNext(s: Locked, some: set<nat>, m: nat)
    requires LocksOk(s) && Deadlock(s, some) && m in some && RecordingFirst(s.clients[m])
    ensures exists k, r, t :: k in some && Crossing(s, m, k, r, t)
  {
    var k, l := Next(s, some, m);
    var e, j := Next(s, some, k);
    HolderWaits(s, m, l, k, j, e);
    RecordingFirstHolds(s, m, l);
    TaskFirstWants(s, k, l.t);
    assert Crossing(s, m, k, s.db.tasks[l.t].recordingId, l.t);
  }

  /** Any deadlock contains a recording-first client. */
  lemma SomeoneRecordingFirst(s: Locked, some: set<nat>) returns (m: nat)
    requires LocksOk(s) && Deadlock(s, some)
    ensures m in some && RecordingFirst(s.clients[m])
  {
    var c :| c in some;
    var d, l1 := Next(s, some, c);
    var e, l2 := Next(s, some, d);
    var f, l3 := Next(s, some, e);
    HolderWaits(s, c, l1, d, l2, e);
    HolderWaits(s, d, l2, e, l3, f);
    if l2.RecLock? {
      m := e;
    } else {
      var g, l4 := Next(s, some, f);
      HolderWaits(s, e, l3, f, l4, g);
      m := f;
    }
  }

  /** There is a deadlock exactly when a recording-first client and a task-first client cross at one
      recording and its task; the two are then deadlocked by themselves. */
  lemma DeadlockIsCrossing(s: Locked)
    requires LocksOk(s)
    ensures (exists some :: Deadlock(s, some)) <==> (exists m, k, r, t :: Crossing(s, m, k, r, t))
  {
    if some :| Deadlock(s, some) {
      var m := SomeoneRecordingFirst(s, some);
      CrossesNext(s, some, m);
    }
    if m, k, r, t :| Crossing(s, m, k, r, t) {
      assert WaitsWithin(s, {m, k}, m) && WaitsWithin(s, {m, k}, k);
      assert Deadlock(s, {m, k});
    }
  }

  /** Where nobody crosses, somebody can move. */
  lemma SomebodyMoves(s: Locked)
    requires LocksOk(s) && s.clients != map[] && forall m, k, r, t :: !Crossing(s, m, k, r, t)
    ensures exists c :: c in s.clients && !Stuck(s, c)
  {
    if forall c :: c in s.clients ==> Stuck(s, c) {
      forall c | c in s.clients ensures WaitsWithin(s, s.clients.Keys, c) {
        StuckIffWaiting(s, c);
      }
      var c :| c in s.clients;
      assert Deadlock(s, s.clients.Keys);
      DeadlockIsCrossing(s);
    }
  }

  // ---- Runs ----

  lemma {:induction false} RunLocksOk(run: seq<Locked>, i: nat)
    requires IsRun(run) && i < |run|
    ensures LocksOk(run[i])
  {
    if i > 0 {
      RunLocksOk(run, i - 1);
      assert Moves(run[i - 1], run[i]);
      var c, m :| Step(run[i - 1], c, m, run[i]);
      StepKeepsLocksOk(run[i - 1], c, m, run[i]);
    }
  }

  /** In every reachable state with open transactions and neither a mark nor the scan of a reusing upload
      between its two row locks, some transaction can take its next step. */
  lemma DeadlockNeedsRecordingFirst(run: seq<Locked>, i: nat)
    requires IsRun(run) && i < |run| && run[i].clients != map[]
    requires forall c :: c in run[i].clients ==> !RecordingFirst(run[i].clients[c])
    ensures exists c :: c in run[i].clients && !Stuck(run[i], c)
  {
    RunLocksOk(run, i);
    SomebodyMoves(run[i]);
  }

  /** Exactly when a reachable state contains a deadlock: a mark or scan and a claim, stage write, retry or
      purge cross at one recording and its task. */
  lemma ReachableDeadlocks(run: seq<Locked>, i: nat)
    requires IsRun(run) && i < |run|
    ensures (exists some :: Deadlock(run[i], some)) <==> (exists m, k, r, t :: Crossing(run[i], m, k, r, t))
  {
    RunLocksOk(run, i);
    DeadlockIsCrossing(run[i]);
  }

  /** A crossing lasts until one of the two is rolled back, whatever anybody does. */
  lemma CrossingStays(s: Locked, m: nat, k: nat, r: Id, t: Id, c: nat, move: Move, n: Locked)
    requires LocksOk(s) && Crossing(s, m, k, r, t) && Step(s, c, move, n)
    requires move.Abort? ==> c != m && c != k
    ensures Crossing(n, m, k, r, t)
  {
    assert WaitsFor(s, m, k) && WaitsFor(s, k, m);
    WaitingIsStuck(s, m, k);
    WaitingIsStuck(s, k, m);
    if move.Advance? { assert Step(s, c, Advance(move.choice, move.applied), n); }
    assert LockTableInv(s);
    StepFrame(s, c, move, n);
    OthersStay(s, c, move, n);
    CrossingFramed(s, m, k, r, t, c, n);
  }

  lemma CrossingFramed(s: Locked, m: nat, k: nat, r: Id, t: Id, c: nat, n: Locked)
    requires LocksOk(s) && Crossing(s, m, k, r, t) && Frame(s, c, n) && c != m && c != k
    requires m in n.clients && n.clients[m] == s.clients[m] && k in n.clients && n.clients[k] == s.clients[k]
    ensures Crossing(n, m, k, r, t)
  {
    assert LockTableInv(s) && Wants(s, m, TaskLock(t)) && Wants(s, k, RecLock(r));
    assert Holds(n, TaskLock(t), k) && Holds(n, RecLock(r), m);
    assert Knows(s, k, s.clients[k]) && MayHold(s.clients[k], TaskLock(t));
    assert t in n.db.tasks && n.db.tasks[t] == s.db.tasks[t];
    assert Wants(n, m, TaskLock(t)) && Wants(n, k, RecLock(r));
  }

  // ---- Both kinds of crossing happen ----

  /** Client 0 went ahead to the row of recording r and client 1, a claim, to the row of its task t. */
  lemma ClaimCrosses(s: Locked, t: Id, now: Time) returns (mid: Locked, n: Locked)
    requires s.clients.Keys == {0} && RecordingFirst(s.clients[0]) && Wants(s, 0, TaskLock(t))
    requires Live(s.db, t) && Ready(s.db.tasks[t], now) && TaskLock(t) !in s.holder
    requires Holds(s, RecLock(s.db.tasks[t].recordingId), 0)
    ensures Moves(s, mid) && Moves(mid, n) && Crossing(n, 0, 1, s.db.tasks[t].recordingId, t)
  {
    var op := Claim(t, now, now);
    mid := Goto(s, 1, Writer(op, WaitTask));
    n := Goto(Take(mid, 1, TaskLock(t)), 1, Writer(op, WaitRec(s.db.tasks[t])));
    assert Step(s, 1, Arrive(Writer(op, WaitTask)), mid);
    assert Step(mid, 1, Advance(None, true), n);
    assert Wants(n, 0, TaskLock(t)) && Wants(n, 1, RecLock(s.db.tasks[t].recordingId));
  }

  /** From tables with a claimable task, a mark of its recording and a claim of it can cross. */
  lemma MarkCanCross(s: Locked, t: Id, now: Time) returns (run: seq<Locked>)
    requires s.clients == map[] && s.holder == map[] && Live(s.db, t) && Ready(s.db.tasks[t], now)
    ensures |run| == 8 && run[0] == s && forall i :: 0 <= i < 7 ==> Moves(run[i], run[i + 1])
    ensures Crossing(run[7], 0, 1, s.db.tasks[t].recordingId, t)
  {
    var r := s.db.tasks[t].recordingId;
    var ahead := MarkGoesAhead(s, r, t, now);
    var s6, s7 := ClaimCrosses(ahead[5], t, now);
    run := ahead + [s6, s7];
  }

  /** The mark up to the row of its recording, which it holds locked. */
  lemma MarkGoesAhead(s: Locked, r: Id, t: Id, now: Time) returns (run: seq<Locked>)
    requires s.clients == map[] && s.holder == map[] && Live(s.db, t) && s.db.tasks[t].recordingId == r
    ensures |run| == 6 && run[0] == s && forall i :: 0 <= i < 5 ==> Moves(run[i], run[i + 1])
    ensures run[5].db == WithLock(s.db, s.db.recordings[r].hash) && WentAhead(run[5], r, t)
  {
    var ahead := MarkerFindsLock(s, r, t, now);
    var s4, s5 := MarkerLocksRow(ahead[3], r, t, now);
    run := ahead + [s4, s5];
  }

  /** Client 0 is alone, holds the row of recording r and waits for that of task t. */
  ghost predicate WentAhead(s: Locked, r: Id, t: Id) {
    && s.clients.Keys == {0} && RecordingFirst(s.clients[0]) && Wants(s, 0, TaskLock(t))
    && TaskLock(t) !in s.holder && Holds(s, RecLock(r), 0)
  }

  /** The mark up to its hash lock, which it has made sure exists. */
  lemma MarkerFindsLock(s: Locked, r: Id, t: Id, now: Time) returns (run: seq<Locked>)
    requires s.clients == map[] && r in s.db.recordings && t in s.db.tasks && s.db.tasks[t].recordingId == r
    ensures |run| == 4 && run[0] == s && forall i :: 0 <= i < 3 ==> Moves(run[i], run[i + 1])
    ensures var h := s.db.recordings[r].hash;
      run[3] == Goto(s, 0, Marker(r, now, WaitMarkHash(h, Some(t)))).(db := WithLock(s.db, h))
  {
    var h := s.db.recordings[r].hash;
    var s1 := Goto(s, 0, Marker(r, now, Hint));
    var s2 := Goto(s1, 0, Marker(r, now, EnsureMarkLock(h, Some(t))));
    var s3 := Goto(s2, 0, Marker(r, now, WaitMarkHash(h, Some(t)))).(db := WithLock(s.db, h));
    assert Step(s, 0, Arrive(Marker(r, now, Hint)), s1);
    assert Step(s1, 0, Advance(Some(t), true), s2);
    assert Step(s2, 0, Advance(None, true), s3);
    run := [s, s1, s2, s3];
  }

  /** Then the two locks of the mark up to the row of its recording. */
  lemma MarkerLocksRow(s: Locked, r: Id, t: Id, now: Time) returns (mid: Locked, n: Locked)
    requires r in s.db.recordings && t in s.db.tasks && s.db.recordings[r].hash in s.db.hashLocks
    requires s.holder == map[] && s.clients.Keys == {0}
    requires s.clients[0] == Marker(r, now, WaitMarkHash(s.db.recordings[r].hash, Some(t)))
    ensures Moves(s, mid) && Moves(mid, n) && n.db == s.db && WentAhead(n, r, t)
  {
    var h := s.db.recordings[r].hash;
    mid := Goto(Take(s, 0, HashLock(h)), 0, Marker(r, now, WaitMarkRec(h, Some(t))));
    n := Goto(Take(mid, 0, RecLock(r)), 0, Marker(r, now, WaitMarkTask(h, Some(t), s.db.recordings[r])));
    assert Step(s, 0, Advance(None, true), mid);
    assert Step(mid, 0, Advance(None, true), n);
  }

  /** So can an upload of the same content, whose scan locks the recording and then the task. */
  lemma ScanCanCross(s: Locked, t: Id, now: Time, input: NewRecording) returns (run: seq<Locked>)
    requires s.clients == map[] && s.holder == map[] && Live(s.db, t) && Ready(s.db.tasks[t], now)
    requires MayArrive(s, Uploader(input, EnsureLock))
    requires input.hash == s.db.recordings[s.db.tasks[t].recordingId].hash
    ensures |run| == 7 && run[0] == s && forall i :: 0 <= i < 6 ==> Moves(run[i], run[i + 1])
    ensures Crossing(run[6], 0, 1, s.db.tasks[t].recordingId, t)
  {
    var r := s.db.tasks[t].recordingId;
    var ahead := ScanGoesAhead(s, r, t, input);
    var s5, s6 := ClaimCrosses(ahead[4], t, now);
    run := ahead + [s5, s6];
  }

  lemma ScanGoesAhead(s: Locked, r: Id, t: Id, input: NewRecording) returns (run: seq<Locked>)
    requires s.clients == map[] && s.holder == map[] && Reusable(s.db, t, input.hash) && s.db.tasks[t].recordingId == r
    requires MayArrive(s, Uploader(input, EnsureLock))
    ensures |run| == 5 && run[0] == s && forall i :: 0 <= i < 4 ==> Moves(run[i], run[i + 1])
    ensures run[4].db == WithLock(s.db, input.hash) && WentAhead(run[4], r, t)
  {
    var s1 := Goto(s, 0, Uploader(input, EnsureLock));
    var s2 := Goto(s1, 0, Uploader(input, WaitHash)).(db := WithLock(s.db, input.hash));
    var s3 := Goto(Take(s2, 0, HashLock(input.hash)), 0, Uploader(input, Scan));
    var s4 := Goto(Take(s3, 0, RecLock(r)), 0, Uploader(input, Joining(r, t)));
    assert Step(s, 0, Arrive(Uploader(input, EnsureLock)), s1);
    assert Step(s1, 0, Advance(None, true), s2);
    assert Step(s2, 0, Advance(None, true), s3);
    assert Reusable(s3.db, t, input.hash);
    assert Step(s3, 0, Advance(Some(t), true), s4);
    run := [s, s1, s2, s3, s4];
  }
}
