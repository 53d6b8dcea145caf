/** Steps of worker rounds keep the invariant of the service. */
module WorldRounds {
  import opened Prelude
  import opened Lifecycle
  import opened SummaryJson
  import opened Tables
  import opened Backing
  import opened Invariant
  import opened Fencing
  import opened Database
  import opened World
  import opened WorldInv

  // ---- Steps of worker rounds ----

  /** What a claim or a stage write does to the tables. */
  lemma WriteFrame(db: Db, op: Op)
    requires (op.Claim? || StageWrite(op)) && Guard(db, op)
    ensures var t := Target(op).value; var n := Effect(db, op);
      && t in db.tasks && n.recordings == db.recordings
      && n.tasks == db.tasks[t := Rewrite(op, db.tasks[t]).0]
      && n.tasks[t].recordingId == db.tasks[t].recordingId
      && Progress(n.tasks[t]) > Progress(db.tasks[t])
  {
  }

  /** The tables stay, or a claim or stage write of the round takes effect on them. */
  ghost predicate RoundWrites(db: Db, op: Option<Op>, n: Db) {
    if op.Some? then (op.value.Claim? || StageWrite(op.value)) && Commits(db, op.value, n) else n == db
  }

  /** The parts of the state no round touches. */
  ghost predicate OnlyRounds(w: World, n: World) {
    n == w.(db := n.db, rounds := n.rounds, table := n.table, halted := n.halted,
            past := w.past.(claimant := n.past.claimant, heard := n.past.heard, made := n.past.made))
  }

  lemma ClaimFrame(w: World, i: nat, a: RoundStep, n: World) returns (op: Option<Op>)
    requires i in w.rounds && ClaimMoves(w, i, a, n)
    ensures RoundWrites(w.db, op, n.db)
    ensures n == w.(db := n.db, rounds := n.rounds, past := n.past) && OnlyRounds(w, n)
    ensures op.None? ==> n.past == w.past
    ensures op.Some? ==> && op.value.Claim? && op.value.task in w.db.tasks
                         && n.past == w.past.(claimant := w.past.claimant[Key(op.value.task,
                             w.db.tasks[op.value.task].attempt) := i])
    ensures n.rounds == w.rounds - {i}
        || (op.Some? && n.rounds ==
            w.rounds[i := Pc.Claimed(Key(op.value.task, w.db.tasks[op.value.task].attempt))])
  {
    op := if a.Claim? && a.applied then Some(Op.Claim(a.task, a.asOf, a.now)) else None;
  }

  lemma RecheckFrame(w: World, i: nat, pc: Pc, a: RoundStep, n: World)
    requires i in w.rounds && w.rounds[i] == pc && !pc.Claiming? && RecheckMoves(w, i, pc, a, n)
    ensures n == w.(rounds := n.rounds, table := n.table) && OnlyRounds(w, n)
    ensures i in n.rounds && n.rounds == w.rounds[i := n.rounds[i]]
    ensures !n.rounds[i].Claiming? && n.rounds[i].key == pc.key
    ensures InCall(n.rounds[i]) ==> pc.Rechecking? && Active(w.db, pc.rec)
    ensures n.table == if pc.Claimed? then w.table[pc.key := i] else w.table
  {
  }

  lemma CallFrame(w: World, i: nat, pc: Pc, a: RoundStep, n: World)
    requires i in w.rounds && w.rounds[i] == pc && !pc.Claiming? && CallMoves(w, i, pc, a, n)
    ensures n == w.(rounds := n.rounds, past := w.past.(heard := n.past.heard, made := n.past.made))
    ensures OnlyRounds(w, n)
    ensures i in n.rounds && n.rounds == w.rounds[i := n.rounds[i]]
    ensures !n.rounds[i].Claiming? && n.rounds[i].key == pc.key
    ensures InCall(pc)
    ensures n.past.heard == w.past.heard
        || (pc.InTranscribe? && n.rounds[i].Saving? && n.past.heard == w.past.heard[i := n.rounds[i].text])
    ensures n.past.made == w.past.made
        || (pc.InSummarize? && n.rounds[i].Completing?
            && n.past.made == w.past.made[i := (pc.text, n.rounds[i].summary)])
  {
  }

  lemma PersistFrame(w: World, i: nat, pc: Pc, a: RoundStep, n: World) returns (op: Option<Op>)
    requires i in w.rounds && w.rounds[i] == pc && !pc.Claiming? && WriteMoves(w, i, pc, a, n)
    ensures RoundWrites(w.db, op, n.db)
    ensures op.Some? ==>
        (pc.Saving? || pc.Completing? || pc.Failing?) && a.Write? && op.value == PendingWrite(pc, a.now)
    ensures n == w.(db := n.db, rounds := n.rounds, halted := n.halted) && OnlyRounds(w, n)
    ensures i in n.rounds && n.rounds == w.rounds[i := n.rounds[i]]
    ensures !n.rounds[i].Claiming? && n.rounds[i].key == pc.key
    ensures InCall(n.rounds[i]) ==> pc.Saving?
    ensures pc.Saving? || pc.Completing? || pc.Failing?
  {
    op := if a.Write? && TookEffect(a.reply, a.fault) then Some(PendingWrite(pc, a.now)) else None;
  }

  lemma LeaveFrame(w: World, i: nat, pc: Pc, a: RoundStep, n: World) returns (op: Option<Op>)
    requires i in w.rounds && w.rounds[i] == pc && !pc.Claiming? && LeaveMoves(w, i, pc, a, n)
    ensures RoundWrites(w.db, op, n.db)
    ensures op.Some? ==> op.value.Fail? && op.value.key == pc.key
    ensures n == w.(db := n.db, rounds := n.rounds, table := n.table) && OnlyRounds(w, n)
    ensures n.rounds == w.rounds - {i}
        || (i in n.rounds && n.rounds == w.rounds[i := n.rounds[i]] && n.rounds[i].key == pc.key
            && (n.rounds[i].Panicked? || n.rounds[i].Recovering?))
    ensures n.table == if a.Unregister? then w.table - {pc.key} else w.table
    ensures a.Unregister? ==> pc.Leaving? || pc.Panicked?
  {
    op := if a.Recover? && w.running && TookEffect(a.reply, a.fault)
          then Some(Fail(pc.key, INTERNAL_ERROR, a.message, a.now)) else None;
  }

  /** A claim or stage write leaves recordings alone, keeps the tables in order and every row its recording. */
  lemma CommitsKeep(db: Db, op: Option<Op>, n: Db, recOf: map<Id, Id>, tried: set<Id>)
    requires Sound(db) && TasksKnown(db.tasks, recOf, tried) && RoundWrites(db, op, n)
    requires op.Some? && op.value.Complete? ==> Valid(op.value.summary)
    ensures Sound(n) && TasksKnown(n.tasks, recOf, tried) && n.recordings == db.recordings
  {
    if op.Some? {
      Keeps(db, op.value, true);
      WriteFrame(db, op.value);
    }
  }

  lemma CommitsKeepPast(
      db: Db, op: Option<Op>, n: Db, claimant: map<Key, nat>, recOf: map<Id, Id>, tried: set<Id>)
    requires KeysPast(db.tasks, claimant, recOf, tried) && RoundWrites(db, op, n)
    ensures KeysPast(n.tasks, claimant, recOf, tried)
  {
    if op.Some? {
      WriteFrame(db, op.value);
      assert forall k :: k in claimant ==> KeyPast(k, db.tasks, recOf, tried);
    }
  }

  /** The attempt a claim takes was never claimed before. */
  lemma ClaimIsNew(db: Db, op: Op, claimant: map<Key, nat>, recOf: map<Id, Id>, tried: set<Id>)
    requires KeysPast(db.tasks, claimant, recOf, tried) && op.Claim? && Guard(db, op)
    ensures Key(op.task, db.tasks[op.task].attempt) !in claimant
  {
    var k := Key(op.task, db.tasks[op.task].attempt);
    assert k in claimant ==> KeyPast(k, db.tasks, recOf, tried);
  }

  lemma ClaimRows(
      tasks: Tasks, t: Id, now: Time, i: nat, claimant: map<Key, nat>, heard: map<nat, string>,
      made: map<nat, (string, Summary)>)
    requires Provenance(tasks, claimant, heard, made) && t in tasks && Key(t, tasks[t].attempt) !in claimant
    ensures Provenance(tasks[t := ClaimRow(tasks[t], now)], claimant[Key(t, tasks[t].attempt) := i], heard, made)
  {
    forall u | u in tasks && u != t ensures RowOk(u, tasks[u], claimant[Key(t, tasks[t].attempt) := i], heard, made) {
      assert RowOk(u, tasks[u], claimant, heard, made);
    }
  }

  lemma ClaimKeys(
      tasks: Tasks, t: Id, now: Time, i: nat, claimant: map<Key, nat>, recOf: map<Id, Id>,
      tried: set<Id>)
    requires KeysPast(tasks, claimant, recOf, tried) && TasksKnown(tasks, recOf, tried) && t in tasks
    requires tasks[t].status.Pending?
    ensures KeysPast(tasks[t := ClaimRow(tasks[t], now)], claimant[Key(t, tasks[t].attempt) := i], recOf, tried)
  {
    assert forall k :: k in claimant ==> KeyPast(k, tasks, recOf, tried);
  }

  /** A stage write carries the products of the round that claimed the row's attempt. */
  lemma StageRow(t: Id, row: Task, op: Op, pc: Pc, i: nat, now: Time, table: map<Key, nat>, past: History)
    requires RowOk(t, row, past.claimant, past.heard, past.made) && RoundOk(i, pc, table, past)
    requires (pc.Saving? || pc.Completing? || pc.Failing?) && op == PendingWrite(pc, now)
    requires pc.key == Key(t, row.attempt)
    requires pc.Saving? ==> row.status.Transcribing?
    requires pc.Completing? ==> row.status.Summarizing?
    requires pc.Failing? ==> InFlight(row.status)
    ensures RowOk(t, Rewrite(op, row).0, past.claimant, past.heard, past.made)
  {
  }

  lemma FailedRow(t: Id, row: Task, code: int, message: string, now: Time, past: History)
    ensures RowOk(t, FailRow(row, code, message, now), past.claimant, past.heard, past.made)
  {
  }

  lemma OneRow(tasks: Tasks, t: Id, row: Task, past: History)
    requires Provenance(tasks, past.claimant, past.heard, past.made)
    requires RowOk(t, row, past.claimant, past.heard, past.made)
    ensures Provenance(tasks[t := row], past.claimant, past.heard, past.made)
  {
  }

  lemma PersistProvenance(w: World, i: nat, pc: Pc, now: Time, op: Option<Op>, n: Db)
    requires Provenance(w.db.tasks, w.past.claimant, w.past.heard, w.past.made)
    requires RoundOk(i, pc, w.table, w.past)
    requires RoundWrites(w.db, op, n) && (pc.Saving? || pc.Completing? || pc.Failing?)
    requires op.Some? ==> op.value == PendingWrite(pc, now)
    ensures Provenance(n.tasks, w.past.claimant, w.past.heard, w.past.made)
  {
    if op.Some? {
      var t := pc.key.task;
      WriteFrame(w.db, op.value);
      assert RowOk(t, w.db.tasks[t], w.past.claimant, w.past.heard, w.past.made);
      StageRow(t, w.db.tasks[t], op.value, pc, i, now, w.table, w.past);
      OneRow(w.db.tasks, t, Rewrite(op.value, w.db.tasks[t]).0, w.past);
    }
  }

  lemma RecoverProvenance(w: World, op: Option<Op>, n: Db)
    requires Provenance(w.db.tasks, w.past.claimant, w.past.heard, w.past.made)
    requires RoundWrites(w.db, op, n) && (op.Some? ==> op.value.Fail?)
    ensures Provenance(n.tasks, w.past.claimant, w.past.heard, w.past.made)
  {
    if op.Some? {
      var t := op.value.key.task;
      WriteFrame(w.db, op.value);
      FailedRow(t, w.db.tasks[t], op.value.code, op.value.message, op.value.now, w.past);
      OneRow(w.db.tasks, t, Rewrite(op.value, w.db.tasks[t]).0, w.past);
    }
  }

  /** What a call returns is recorded for a round that had not heard, or not made, anything yet. */
  lemma CallProvenance(tasks: Tasks, a: History, b: History)
    requires Provenance(tasks, a.claimant, a.heard, a.made) && b.claimant == a.claimant
    requires forall i :: i in a.heard ==> i in b.heard && b.heard[i] == a.heard[i]
    requires forall i :: i in a.made ==> i in b.made && b.made[i] == a.made[i]
    ensures Provenance(tasks, b.claimant, b.heard, b.made)
  {
    forall t | t in tasks ensures RowOk(t, tasks[t], b.claimant, b.heard, b.made) {
      assert RowOk(t, tasks[t], a.claimant, a.heard, a.made);
    }
  }

  // ---- Rounds themselves ----

  /** Another round's state does not look at a claim, a registration or a call of round i. */
  lemma OtherRound(
      j: nat, pc: Pc, i: nat, key: Key, table: map<Key, nat>, past: History, newTable: map<Key, nat>,
      newPast: History)
    requires RoundOk(j, pc, table, past) && j != i
    requires newPast == past.(claimant := newPast.claimant, heard := newPast.heard, made := newPast.made)
    requires newPast.claimant == past.claimant || newPast.claimant == past.claimant[key := i]
    requires newPast.claimant[key := i] == newPast.claimant
    requires (key in past.claimant ==> past.claimant[key] == i)
    requires newTable == table || newTable == table[key := i] || newTable == table - {key}
    requires forall k :: k != i ==>
        (k in newPast.heard <==> k in past.heard) && (k in past.heard ==> newPast.heard[k] == past.heard[k])
    requires forall k :: k != i ==>
        (k in newPast.made <==> k in past.made) && (k in past.made ==> newPast.made[k] == past.made[k])
    ensures RoundOk(j, pc, newTable, newPast)
  {
  }

  /** How a step of round i may change the table and the history. */
  ghost predicate OwnChange(
      i: nat, key: Key, a: map<Key, nat>, before: History, b: map<Key, nat>, after: History) {
    && after == before.(claimant := after.claimant, heard := after.heard, made := after.made)
    && (after.claimant == before.claimant
        || (after.claimant == before.claimant[key := i] && forall k :: k in before.claimant ==>
            before.claimant[k] != i))
    && key in after.claimant && after.claimant[key] == i
    && (key in before.claimant ==> before.claimant[key] == i)
    && (b == a || b == a[key := i] || b == a - {key})
    && (after.heard == before.heard || (i in after.heard && after.heard == before.heard[i := after.heard[i]]))
    && (after.made == before.made || (i in after.made && after.made == before.made[i := after.made[i]]))
  }

  lemma HistoryMoved(w: World, i: nat, key: Key, table: map<Key, nat>, past: History)
    requires RoundsOk(w.rounds, w.table, w.past) && i in w.rounds
    requires OwnChange(i, key, w.table, w.past, table, past)
    ensures RoundsOk(map[], table, past)
  {
    assert RoundOk(i, w.rounds[i], w.table, w.past);
  }

  lemma StillRound(w: World, j: nat, i: nat, key: Key, table: map<Key, nat>, past: History)
    requires RoundsOk(w.rounds, w.table, w.past) && j in w.rounds && j != i
    requires OwnChange(i, key, w.table, w.past, table, past)
    ensures RoundOk(j, w.rounds[j], table, past)
  {
    assert RoundOk(j, w.rounds[j], w.table, w.past);
    assert past.claimant[key := i] == past.claimant;
    OtherRound(j, w.rounds[j], i, key, w.table, w.past, table, past);
  }

  /** Round i moves on or ends, and everybody else's records stand. */
  lemma RoundMoved(w: World, i: nat, key: Key, rounds: map<nat, Pc>, table: map<Key, nat>, past: History)
    requires RoundsOk(w.rounds, w.table, w.past) && i in w.rounds
    requires OwnChange(i, key, w.table, w.past, table, past)
    requires rounds == w.rounds - {i}
        || (i in rounds && rounds == w.rounds[i := rounds[i]] && RoundOk(i, rounds[i], table, past))
    ensures RoundsOk(rounds, table, past)
  {
    HistoryMoved(w, i, key, table, past);
    forall j | j in rounds && j != i ensures RoundOk(j, rounds[j], table, past) {
      StillRound(w, j, i, key, table, past);
    }
  }

  // ---- Each kind of round step keeps the records of all rounds ----

  lemma QuitRounds(w: World, i: nat)
    requires RoundsOk(w.rounds, w.table, w.past)
    ensures RoundsOk(w.rounds - {i}, w.table, w.past)
  {
    forall j | j in w.rounds - {i} ensures RoundOk(j, w.rounds[j], w.table, w.past) {
    }
  }

  lemma ClaimRounds(w: World, i: nat, a: RoundStep, n: World)
    requires RoundsOk(w.rounds, w.table, w.past)
    requires KeysPast(w.db.tasks, w.past.claimant, w.past.recOf, w.past.tried)
    requires i in w.rounds && w.rounds[i].Claiming? && ClaimMoves(w, i, a, n)
    ensures RoundsOk(n.rounds, n.table, n.past)
  {
    var op := ClaimFrame(w, i, a, n);
    assert RoundOk(i, w.rounds[i], w.table, w.past);
    if op.Some? {
      var key := Key(op.value.task, w.db.tasks[op.value.task].attempt);
      ClaimIsNew(w.db, op.value, w.past.claimant, w.past.recOf, w.past.tried);
      RoundMoved(w, i, key, n.rounds, n.table, n.past);
    } else {
      QuitRounds(w, i);
    }
  }

  /** Round i's own part of a step: what it changes is its own, and what it becomes is in order. */
  ghost predicate OwnMove(w: World, i: nat, key: Key, n: World)
    requires i in w.rounds
  {
    && OwnChange(i, key, w.table, w.past, n.table, n.past)
    && (n.rounds == w.rounds - {i}
        || (i in n.rounds && n.rounds == w.rounds[i := n.rounds[i]] && RoundOk(i, n.rounds[i], n.table, n.past)))
  }

  lemma RecheckOwn(w: World, i: nat, pc: Pc, a: RoundStep, n: World)
    requires RoundOk(i, pc, w.table, w.past)
    requires TasksKnown(w.db.tasks, w.past.recOf, w.past.tried)
    requires i in w.rounds && w.rounds[i] == pc && !pc.Claiming? && RecheckMoves(w, i, pc, a, n)
    ensures OwnMove(w, i, pc.key, n)
  {
    RecheckFrame(w, i, pc, a, n);
  }

  lemma CallBecomes(w: World, i: nat, pc: Pc, a: RoundStep, n: World)
    requires RoundOk(i, pc, w.table, w.past)
    requires i in w.rounds && w.rounds[i] == pc && !pc.Claiming? && CallMoves(w, i, pc, a, n)
    ensures i in n.rounds ==> RoundOk(i, n.rounds[i], n.table, n.past)
  {
    CallFrame(w, i, pc, a, n);
  }

  lemma CallOwn(w: World, i: nat, pc: Pc, a: RoundStep, n: World)
    requires RoundOk(i, pc, w.table, w.past)
    requires i in w.rounds && w.rounds[i] == pc && !pc.Claiming? && CallMoves(w, i, pc, a, n)
    ensures OwnMove(w, i, pc.key, n)
  {
    CallFrame(w, i, pc, a, n);
    CallBecomes(w, i, pc, a, n);
  }
  lemma PersistBecomes(w: World, i: nat, pc: Pc, a: RoundStep, n: World)
    requires RoundOk(i, pc, w.table, w.past)
    requires i in w.rounds && w.rounds[i] == pc && !pc.Claiming? && WriteMoves(w, i, pc, a, n)
    ensures i in n.rounds ==> RoundOk(i, n.rounds[i], n.table, n.past)
  {
    var op := PersistFrame(w, i, pc, a, n);
  }

  lemma PersistOwn(w: World, i: nat, pc: Pc, a: RoundStep, n: World)
    requires RoundOk(i, pc, w.table, w.past)
    requires i in w.rounds && w.rounds[i] == pc && !pc.Claiming? && WriteMoves(w, i, pc, a, n)
    ensures OwnMove(w, i, pc.key, n)
  {
    var op := PersistFrame(w, i, pc, a, n);
    PersistBecomes(w, i, pc, a, n);
  }
  lemma LeaveBecomes(w: World, i: nat, pc: Pc, a: RoundStep, n: World)
    requires RoundOk(i, pc, w.table, w.past)
    requires i in w.rounds && w.rounds[i] == pc && !pc.Claiming? && LeaveMoves(w, i, pc, a, n)
    ensures i in n.rounds ==> RoundOk(i, n.rounds[i], n.table, n.past)
  {
    var op := LeaveFrame(w, i, pc, a, n);
  }

  lemma LeaveOwn(w: World, i: nat, pc: Pc, a: RoundStep, n: World)
    requires RoundOk(i, pc, w.table, w.past)
    requires i in w.rounds && w.rounds[i] == pc && !pc.Claiming? && LeaveMoves(w, i, pc, a, n)
    ensures OwnMove(w, i, pc.key, n)
  {
    var op := LeaveFrame(w, i, pc, a, n);
    LeaveBecomes(w, i, pc, a, n);
  }
  lemma MoveRounds(w: World, i: nat, a: RoundStep, n: World)
    requires RoundsOk(w.rounds, w.table, w.past)
    requires KeysPast(w.db.tasks, w.past.claimant, w.past.recOf, w.past.tried)
    requires TasksKnown(w.db.tasks, w.past.recOf, w.past.tried) && RoundMoves(w, i, a, n)
    ensures RoundsOk(n.rounds, n.table, n.past)
  {
    var pc := w.rounds[i];
    assert RoundOk(i, pc, w.table, w.past);
    if pc.Claiming? {
      ClaimRounds(w, i, a, n);
    } else {
      if a.Register? || a.ReadTask? || a.ReadRecording? { RecheckOwn(w, i, pc, a, n); }
      else if a.Hear? || a.Make? || a.CallFails? || a.CallCancelled? { CallOwn(w, i, pc, a, n); }
      else if a.Write? || a.GiveUp? { PersistOwn(w, i, pc, a, n); }
      else { LeaveOwn(w, i, pc, a, n); }
      RoundMoved(w, i, pc.key, n.rounds, n.table, n.past);
    }
  }

  // ---- Deletions and rounds ----

  /** The only way into a call goes through the recheck. */
  ghost predicate NoNewCalls(w: World, rounds: map<nat, Pc>) {
    forall i, t :: InCallFor(rounds, i, t) && !InCallFor(w.rounds, i, t) ==>
        t in w.past.recOf && InUse(w.db.recordings, w.past.recOf[t])
  }

  lemma CallsCovered(w: World, rounds: map<nat, Pc>)
    requires CancelsCover(w.deleters, w.rounds, w.cancelled) && NoNewCalls(w, rounds)
    requires DeletersOk(w.deleters, w.db.recordings, w.past.owner, w.past.recOf, w.past.tried)
    ensures CancelsCover(w.deleters, rounds, w.cancelled)
  {
    assert forall d :: d in w.deleters ==>
        DeleterOk(w.deleters[d], w.db.recordings, w.past.owner, w.past.recOf, w.past.tried);
  }

  lemma CallsSilenced(w: World, rounds: map<nat, Pc>)
    requires SilencedOk(w.past.silenced, w.db.recordings, w.past.recOf, w.past.tried, w.rounds, w.cancelled)
    requires NoNewCalls(w, rounds)
    ensures SilencedOk(w.past.silenced, w.db.recordings, w.past.recOf, w.past.tried, rounds, w.cancelled)
  {
  }

  /** A round that enters a call passed the recheck on a recording in use. */
  ghost predicate CallsFrom(w: World, i: nat, pc: Pc) {
    InCall(pc) ==> && i in w.rounds && !w.rounds[i].Claiming? && w.rounds[i].key == pc.key
                   && (InCall(w.rounds[i]) || (w.rounds[i].Rechecking? && Active(w.db, w.rounds[i].rec)))
  }

  /** Round i ends, or moves on without entering a call except through the recheck. */
  ghost predicate CallMove(w: World, i: nat, rounds: map<nat, Pc>) {
    rounds == w.rounds - {i} || (i in rounds && rounds == w.rounds[i := rounds[i]] && CallsFrom(w, i, rounds[i]))
  }

  lemma OneRoundCalls(w: World, i: nat, rounds: map<nat, Pc>)
    requires i in w.rounds && RoundOk(i, w.rounds[i], w.table, w.past)
    requires CallMove(w, i, rounds)
    ensures NoNewCalls(w, rounds)
  {
  }

  lemma ClaimCalls(w: World, i: nat, a: RoundStep, n: World)
    requires i in w.rounds && ClaimMoves(w, i, a, n)
    ensures CallMove(w, i, n.rounds)
  {
    var op := ClaimFrame(w, i, a, n);
  }

  lemma RecheckCalls(w: World, i: nat, pc: Pc, a: RoundStep, n: World)
    requires i in w.rounds && w.rounds[i] == pc && !pc.Claiming? && RecheckMoves(w, i, pc, a, n)
    ensures CallMove(w, i, n.rounds)
  {
    RecheckFrame(w, i, pc, a, n);
  }

  lemma CallCalls(w: World, i: nat, pc: Pc, a: RoundStep, n: World)
    requires i in w.rounds && w.rounds[i] == pc && !pc.Claiming? && CallMoves(w, i, pc, a, n)
    ensures CallMove(w, i, n.rounds)
  {
    CallFrame(w, i, pc, a, n);
  }

  lemma PersistCalls(w: World, i: nat, pc: Pc, a: RoundStep, n: World)
    requires i in w.rounds && w.rounds[i] == pc && !pc.Claiming? && WriteMoves(w, i, pc, a, n)
    ensures CallMove(w, i, n.rounds)
  {
    var op := PersistFrame(w, i, pc, a, n);
  }

  lemma LeaveCalls(w: World, i: nat, pc: Pc, a: RoundStep, n: World)
    requires i in w.rounds && w.rounds[i] == pc && !pc.Claiming? && LeaveMoves(w, i, pc, a, n)
    ensures CallMove(w, i, n.rounds)
  {
    var op := LeaveFrame(w, i, pc, a, n);
  }

  lemma RoundCalls(w: World, i: nat, a: RoundStep, n: World)
    requires RoundsOk(w.rounds, w.table, w.past) && RoundMoves(w, i, a, n)
    ensures NoNewCalls(w, n.rounds)
  {
    var pc := w.rounds[i];
    if pc.Claiming? { ClaimCalls(w, i, a, n); }
    else if a.Register? || a.ReadTask? || a.ReadRecording? { RecheckCalls(w, i, pc, a, n); }
    else if a.Hear? || a.Make? || a.CallFails? || a.CallCancelled? { CallCalls(w, i, pc, a, n); }
    else if a.Write? || a.GiveUp? { PersistCalls(w, i, pc, a, n); }
    else { LeaveCalls(w, i, pc, a, n); }
    assert RoundOk(i, pc, w.table, w.past);
    OneRoundCalls(w, i, n.rounds);
  }

  // ---- Rounds and tables ----

  lemma ClaimRowsOk(w: World, i: nat, a: RoundStep, n: World)
    requires RowsOk(w.db, w.past) && i in w.rounds && ClaimMoves(w, i, a, n)
    ensures RowsOk(n.db, n.past) && n.db.recordings == w.db.recordings
  {
    var op := ClaimFrame(w, i, a, n);
    CommitsKeep(w.db, op, n.db, w.past.recOf, w.past.tried);
    if op.Some? {
      ClaimIsNew(w.db, op.value, w.past.claimant, w.past.recOf, w.past.tried);
      WriteFrame(w.db, op.value);
      ClaimRows(w.db.tasks, op.value.task, op.value.now, i, w.past.claimant, w.past.heard, w.past.made);
      ClaimKeys(w.db.tasks, op.value.task, op.value.now, i, w.past.claimant, w.past.recOf, w.past.tried);
    }
  }

  lemma CallRowsOk(w: World, i: nat, pc: Pc, a: RoundStep, n: World)
    requires RowsOk(w.db, w.past) && RoundOk(i, pc, w.table, w.past)
    requires i in w.rounds && w.rounds[i] == pc && !pc.Claiming? && CallMoves(w, i, pc, a, n)
    ensures RowsOk(n.db, n.past) && n.db.recordings == w.db.recordings
  {
    CallFrame(w, i, pc, a, n);
    CallProvenance(w.db.tasks, w.past, n.past);
  }

  lemma PersistRowsOk(w: World, i: nat, pc: Pc, a: RoundStep, n: World)
    requires RowsOk(w.db, w.past) && RoundOk(i, pc, w.table, w.past)
    requires i in w.rounds && w.rounds[i] == pc && !pc.Claiming? && WriteMoves(w, i, pc, a, n)
    ensures RowsOk(n.db, n.past) && n.db.recordings == w.db.recordings
  {
    var op := PersistFrame(w, i, pc, a, n);
    CommitsKeep(w.db, op, n.db, w.past.recOf, w.past.tried);
    CommitsKeepPast(w.db, op, n.db, w.past.claimant, w.past.recOf, w.past.tried);
    PersistProvenance(w, i, pc, if a.Write? then a.now else 0, op, n.db);
  }

  lemma LeaveRowsOk(w: World, i: nat, pc: Pc, a: RoundStep, n: World)
    requires RowsOk(w.db, w.past)
    requires i in w.rounds && w.rounds[i] == pc && !pc.Claiming? && LeaveMoves(w, i, pc, a, n)
    ensures RowsOk(n.db, n.past) && n.db.recordings == w.db.recordings
  {
    var op := LeaveFrame(w, i, pc, a, n);
    CommitsKeep(w.db, op, n.db, w.past.recOf, w.past.tried);
    CommitsKeepPast(w.db, op, n.db, w.past.claimant, w.past.recOf, w.past.tried);
    RecoverProvenance(w, op, n.db);
  }

  lemma MoveRows(w: World, i: nat, a: RoundStep, n: World)
    requires RowsOk(w.db, w.past) && RoundsOk(w.rounds, w.table, w.past) && RoundMoves(w, i, a, n)
    ensures RowsOk(n.db, n.past) && n.db.recordings == w.db.recordings
  {
    var pc := w.rounds[i];
    assert RoundOk(i, pc, w.table, w.past);
    if pc.Claiming? { ClaimRowsOk(w, i, a, n); }
    else if a.Register? || a.ReadTask? || a.ReadRecording? { RecheckFrame(w, i, pc, a, n); }
    else if a.Hear? || a.Make? || a.CallFails? || a.CallCancelled? { CallRowsOk(w, i, pc, a, n); }
    else if a.Write? || a.GiveUp? { PersistRowsOk(w, i, pc, a, n); }
    else { LeaveRowsOk(w, i, pc, a, n); }
  }

  /** The one transaction, if any, that a round's step commits. */
  lemma RoundCommits(w: World, i: nat, a: RoundStep, n: World) returns (op: Option<Op>)
    requires RoundMoves(w, i, a, n)
    ensures RoundWrites(w.db, op, n.db)
  {
    var pc := w.rounds[i];
    op := None;
    if pc.Claiming? { op := ClaimFrame(w, i, a, n); }
    else if a.Register? || a.ReadTask? || a.ReadRecording? { RecheckFrame(w, i, pc, a, n); }
    else if a.Hear? || a.Make? || a.CallFails? || a.CallCancelled? { CallFrame(w, i, pc, a, n); }
    else if a.Write? || a.GiveUp? { op := PersistFrame(w, i, pc, a, n); }
    else { op := LeaveFrame(w, i, pc, a, n); }
  }

  lemma MoveFrame(w: World, i: nat, a: RoundStep, n: World)
    requires RoundMoves(w, i, a, n)
    ensures OnlyRounds(w, n)
  {
    var pc := w.rounds[i];
    if pc.Claiming? { var op := ClaimFrame(w, i, a, n); }
    else if a.Register? || a.ReadTask? || a.ReadRecording? { RecheckFrame(w, i, pc, a, n); }
    else if a.Hear? || a.Make? || a.CallFails? || a.CallCancelled? { CallFrame(w, i, pc, a, n); }
    else if a.Write? || a.GiveUp? { var op := PersistFrame(w, i, pc, a, n); }
    else { var op := LeaveFrame(w, i, pc, a, n); }
  }

  lemma RoundFiles(w: World, n: World)
    requires FilesOk(w.db.recordings, w.uploads, w.disk, w.digest, w.past) && OnlyRounds(w, n)
    requires n.db.recordings == w.db.recordings
    ensures FilesOk(n.db.recordings, n.uploads, n.disk, n.digest, n.past)
  {
  }

  lemma RoundKeeps(w: World, i: nat, a: RoundStep, n: World)
    requires WorldOk(w) && w.mode.Serving? && RoundMoves(w, i, a, n)
    ensures WorldOk(n)
  {
    MoveFrame(w, i, a, n);
    MoveRows(w, i, a, n);
    MoveRounds(w, i, a, n);
    RoundCalls(w, i, a, n);
    CallsCovered(w, n.rounds);
    CallsSilenced(w, n.rounds);
    RoundFiles(w, n);
  }
}
