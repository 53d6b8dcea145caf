/** Who works on a row in flight. At most one round does; that at least one does fails at exactly three kinds
    of step, and holds from the claim on until one of them. */
module WorldOwners {
  import opened Prelude
  import opened Lifecycle
  import opened Tables
  import opened BatchReset
  import opened Fencing
  import opened Database
  import opened World
  import opened WorldInv
  import opened WorldRounds
  import opened WorldUploads
  import opened WorldRuns
  import opened WorldHistory
  import opened WorldSafety

  predicate InFlightRow(tasks: Tasks, t: Id) {
    t in tasks && InFlight(tasks[t].status)
  }

  function KeyOf(tasks: Tasks, t: Id): Key
    requires t in tasks
  {
    Key(t, tasks[t].attempt)
  }

  predicate WorksOn(rounds: map<nat, Pc>, i: nat, key: Key) {
    i in rounds && !rounds[i].Claiming? && rounds[i].key == key
  }

  ghost predicate HasOwner(rounds: map<nat, Pc>, key: Key) {
    exists i :: WorksOn(rounds, i, key)
  }

  /** t is in flight and no round holds its key. */
  ghost predicate Ownerless(tasks: Tasks, rounds: map<nat, Pc>, t: Id) {
    InFlightRow(tasks, t) && !HasOwner(rounds, KeyOf(tasks, t))
  }

  /** The steps at which t loses its owner, told before they are taken: a claim that takes effect while its
      reply is lost; the end of the round that holds the key, by leaving or by a recovery write without
      effect; and the crash of the process. */
  ghost predicate Loses(w: World, a: Action, t: Id) {
    match a
    case Round(i, step) =>
      && i in w.rounds
      && (if w.rounds[i].Claiming? then step.Claim? && step.task == t && step.applied && !step.known
          else InFlightRow(w.db.tasks, t) && w.rounds[i].key == KeyOf(w.db.tasks, t) && Ends(w, i, step))
    case Process(step) =>
      step.Crash? && InFlightRow(w.db.tasks, t) && HasOwner(w.rounds, KeyOf(w.db.tasks, t))
    case _ => false
  }

  /** The step ends round i without a write. */
  predicate Ends(w: World, i: nat, a: RoundStep)
    requires i in w.rounds
  {
    || (a.Unregister? && w.rounds[i].Leaving?)
    || (a.Recover? && !(w.running && TookEffect(a.reply, a.fault)))
  }

  /** What this module proves of a step: t loses its owner exactly at the steps named above, and without one
      it stays in flight and without one until its row is gone. */
  ghost predicate OwnerStep(w: World, a: Action, n: World, t: Id) {
    && ((Ownerless(n.db.tasks, n.rounds, t) && !Ownerless(w.db.tasks, w.rounds, t)) <==> Loses(w, a, t))
    && (Ownerless(w.db.tasks, w.rounds, t) && t in n.db.tasks ==> Ownerless(n.db.tasks, n.rounds, t))
  }

  // ---- Rounds ----

  lemma OwnerIsClaimant(rounds: map<nat, Pc>, table: map<Key, nat>, past: History, i: nat, key: Key)
    requires RoundsOk(rounds, table, past) && WorksOn(rounds, i, key)
    ensures Claimant(past, key, i)
  {
    assert RoundOk(i, rounds[i], table, past);
  }

  /** A claim: with its reply the round owns the row, without it nobody does. */
  lemma ClaimOwns(w: World, i: nat, a: RoundStep, n: World, t: Id)
    requires RoundsOk(w.rounds, w.table, w.past)
    requires KeysPast(w.db.tasks, w.past.claimant, w.past.recOf, w.past.tried)
    requires i in w.rounds && w.rounds[i].Claiming? && ClaimMoves(w, i, a, n)
    ensures OwnerStep(w, Round(i, a), n, t)
  {
    if a.Claim? && a.applied {
      var op := Op.Claim(a.task, a.asOf, a.now);
      var key := Key(a.task, w.db.tasks[a.task].attempt);
      ClaimIsNew(w.db, op, w.past.claimant, w.past.recOf, w.past.tried);
      WriteFrame(w.db, op);
      assert n.db.tasks == w.db.tasks[a.task := ClaimRow(w.db.tasks[a.task], a.now)];
      if a.known { assert WorksOn(n.rounds, i, key); }
      ClaimedOwner(w, i, key, n.rounds);
    } else {
      OnlyClaiming(w.rounds, i, n.rounds);
    }
  }

  lemma OnlyClaiming(rounds: map<nat, Pc>, i: nat, n: map<nat, Pc>)
    requires i in rounds && rounds[i].Claiming?
    requires (n == rounds - {i} || (i in n && n[i].Claiming? && n == rounds[i := n[i]]))
    ensures forall key :: HasOwner(n, key) <==> HasOwner(rounds, key)
  {
    assert forall j, key :: WorksOn(n, j, key) <==> WorksOn(rounds, j, key);
  }

  lemma ClaimedOwner(w: World, i: nat, key: Key, rounds: map<nat, Pc>)
    requires RoundsOk(w.rounds, w.table, w.past) && key !in w.past.claimant && i in w.rounds
    requires w.rounds[i].Claiming?
    requires rounds == w.rounds - {i} || rounds == w.rounds[i := Pc.Claimed(key)]
    ensures HasOwner(rounds, key) <==> i in rounds
    ensures !HasOwner(w.rounds, key)
    ensures forall k :: k != key ==> (HasOwner(rounds, k) <==> HasOwner(w.rounds, k))
  {
    forall j | WorksOn(w.rounds, j, key) ensures false {
      OwnerIsClaimant(w.rounds, w.table, w.past, j, key);
    }
    if i in rounds { assert WorksOn(rounds, i, key); }
    assert forall j, k :: k != key ==> (WorksOn(rounds, j, k) <==> WorksOn(w.rounds, j, k));
    assert forall j :: j != i ==> (WorksOn(rounds, j, key) <==> WorksOn(w.rounds, j, key));
  }

  /** A round that keeps its key keeps every row's owner. */
  lemma KeyKept(rounds: map<nat, Pc>, i: nat, n: map<nat, Pc>)
    requires i in rounds && !rounds[i].Claiming? && i in n && n == rounds[i := n[i]]
    requires !n[i].Claiming? && n[i].key == rounds[i].key
    ensures forall key :: HasOwner(n, key) <==> HasOwner(rounds, key)
  {
    assert forall j, key :: WorksOn(n, j, key) <==> WorksOn(rounds, j, key);
  }

  /** A round that ends leaves its own key, and only that, without owner. */
  lemma KeyLeft(rounds: map<nat, Pc>, table: map<Key, nat>, past: History, i: nat)
    requires RoundsOk(rounds, table, past) && i in rounds && !rounds[i].Claiming?
    ensures HasOwner(rounds, rounds[i].key) && !HasOwner(rounds - {i}, rounds[i].key)
    ensures forall key :: key != rounds[i].key ==> (HasOwner(rounds - {i}, key) <==> HasOwner(rounds, key))
  {
    var own := rounds[i].key;
    assert WorksOn(rounds, i, own);
    OwnerIsClaimant(rounds, table, past, i, own);
    forall j | WorksOn(rounds - {i}, j, own) ensures false {
      assert WorksOn(rounds, j, own);
      OwnerIsClaimant(rounds, table, past, j, own);
    }
    assert forall j, key :: key != own ==> (WorksOn(rounds - {i}, j, key) <==> WorksOn(rounds, j, key));
  }

  /** A stage write with the key of round i moves that row and no other; the row stays in flight in the same
      attempt only by a save. */
  lemma StageOwner(db: Db, op: Op, t: Id)
    requires StageWrite(op) && Guard(db, op)
    ensures var n := Effect(db, op).tasks;
      && InFlightRow(db.tasks, op.key.task) && KeyOf(db.tasks, op.key.task) == op.key
      && (t != op.key.task ==> (t in n <==> t in db.tasks) && (t in n ==> n[t] == db.tasks[t]))
      && (InFlightRow(n, op.key.task) <==> op.Save?)
      && (op.Save? ==> KeyOf(n, op.key.task) == op.key)
  {
  }

  lemma PersistOwns(w: World, i: nat, pc: Pc, a: RoundStep, n: World, t: Id)
    requires i in w.rounds && w.rounds[i] == pc && !pc.Claiming? && WriteMoves(w, i, pc, a, n)
    ensures OwnerStep(w, Round(i, a), n, t)
  {
    var op := PersistFrame(w, i, pc, a, n);
    KeyKept(w.rounds, i, n.rounds);
    assert WorksOn(w.rounds, i, pc.key);
    if op.Some? { StageOwner(w.db, op.value, t); }
  }

  lemma UnwindOwns(w: World, i: nat, pc: Pc, a: RoundStep, n: World, t: Id)
    requires i in w.rounds && w.rounds[i] == pc && !pc.Claiming? && LeaveMoves(w, i, pc, a, n)
    requires a.Panic? || (a.Unregister? && pc.Panicked?)
    ensures OwnerStep(w, Round(i, a), n, t)
  {
    var op := LeaveFrame(w, i, pc, a, n);
    KeyKept(w.rounds, i, n.rounds);
  }

  lemma EndOwns(w: World, i: nat, pc: Pc, a: RoundStep, n: World, t: Id)
    requires RoundsOk(w.rounds, w.table, w.past)
    requires i in w.rounds && w.rounds[i] == pc && !pc.Claiming? && LeaveMoves(w, i, pc, a, n)
    requires a.Recover? || (a.Unregister? && pc.Leaving?)
    ensures OwnerStep(w, Round(i, a), n, t)
  {
    KeyLeft(w.rounds, w.table, w.past, i);
    if a.Recover? && w.running && TookEffect(a.reply, a.fault) {
      StageOwner(w.db, Fail(pc.key, INTERNAL_ERROR, a.message, a.now), t);
    }
  }

  lemma QuietRoundOwns(w: World, i: nat, pc: Pc, a: RoundStep, n: World, t: Id)
    requires RoundMoves(w, i, a, n) && pc == w.rounds[i] && !pc.Claiming?
    requires !a.Write? && !a.GiveUp? && !a.Panic? && !a.Unregister? && !a.Recover?
    ensures OwnerStep(w, Round(i, a), n, t)
  {
    if a.Register? || a.ReadTask? || a.ReadRecording? {
      RecheckFrame(w, i, pc, a, n);
      KeyKept(w.rounds, i, n.rounds);
    } else if a.Hear? || a.Make? || a.CallFails? || a.CallCancelled? {
      CallFrame(w, i, pc, a, n);
      KeyKept(w.rounds, i, n.rounds);
    }
  }

  lemma RoundOwns(w: World, i: nat, a: RoundStep, n: World, t: Id)
    requires WorldOk(w) && RoundMoves(w, i, a, n)
    ensures OwnerStep(w, Round(i, a), n, t)
  {
    var pc := w.rounds[i];
    if pc.Claiming? {
      ClaimOwns(w, i, a, n, t);
    } else if a.Write? || a.GiveUp? {
      PersistOwns(w, i, pc, a, n, t);
    } else if a.Panic? || a.Unregister? || a.Recover? {
      if a.Recover? || (a.Unregister? && pc.Leaving?) {
        EndOwns(w, i, pc, a, n, t);
      } else {
        UnwindOwns(w, i, pc, a, n, t);
      }
    } else {
      QuietRoundOwns(w, i, pc, a, n, t);
    }
  }

  // ---- Everything else ----

  /** The row of t is in flight afterwards only if it was, in the same attempt, and stays so while it is there. */
  predicate RowsLike(a: Tasks, b: Tasks, t: Id) {
    && (InFlightRow(b, t) ==> InFlightRow(a, t) && b[t].attempt == a[t].attempt)
    && (InFlightRow(a, t) && t in b ==> InFlightRow(b, t) && b[t].attempt == a[t].attempt)
  }

  lemma CreatedRowsLike(w: World, input: NewRecording, n: Db, t: Id)
    requires TasksKnown(w.db.tasks, w.past.recOf, w.past.tried) && CreateLeaves(w, input, n)
    requires Drawn(w.past.recOf, input.task, input.rec) && input.rec !in w.past.tried
    ensures RowsLike(w.db.tasks, n.tasks, t)
  {
  }

  lemma UploadRows(w: World, r: Id, a: UploadStep, n: World, t: Id)
    requires WorldOk(w) && (SaveMoves(w, r, a, n) || CreateMoves(w, r, a, n))
    ensures n.rounds == w.rounds && RowsLike(w.db.tasks, n.db.tasks, t)
  {
    if SaveMoves(w, r, a, n) {
      SaveSaved(w, r, a, n);
    } else if !a.Compensate? && !a.Vanish? {
      assert UploadOk(r, w.uploads[r], w.db.recordings, w.disk, w.digest, w.past);
      CreateSettles(w, r, a, n);
      CreatedRowsLike(w, w.uploads[r].input, n.db, t);
    }
  }

  lemma MarkedRowsLike(db: Db, op: Op, applied: bool, t: Id)
    requires op.Mark? || op.Purge?
    ensures RowsLike(db.tasks, Attempt(db, op, applied).tasks, t)
  {
  }

  lemma DeletionRows(w: World, d: nat, a: DeleteStep, n: World, t: Id)
    requires DeleteMoves(w, d, a, n)
    ensures n.rounds == w.rounds && RowsLike(w.db.tasks, n.db.tasks, t)
  {
    if a.MarkDeleting? {
      MarkedRowsLike(WithLock(w.db, w.db.recordings[a.rec].hash), Mark(a.rec, a.of, a.now), a.applied, t);
    } else if a.PurgeRows? {
      MarkedRowsLike(w.db, Purge(w.deleters[d].rec), a.applied, t);
    }
  }

  lemma RetriedRowsLike(db: Db, u: Id, now: Time, applied: bool, t: Id)
    ensures RowsLike(db.tasks, Attempt(db, Retry(u, now), applied).tasks, t)
  {
  }

  lemma BegunOwns(w: World, a: ProcessStep, n: World)
    requires RoundsOk(w.rounds, w.table, w.past) && a.BeginRound? && ServiceMoves(w, a, n)
    ensures forall key :: HasOwner(n.rounds, key) <==> HasOwner(w.rounds, key)
  {
    var i := w.past.nextRound;
    assert i in w.rounds ==> RoundOk(i, w.rounds[i], w.table, w.past);
    assert forall j, key :: WorksOn(n.rounds, j, key) <==> WorksOn(w.rounds, j, key);
  }

  lemma BootRounds(w: World, a: ProcessStep, n: World)
    requires BootMoves(w, a, n) && !a.ResetInFlight?
    ensures n.rounds == w.rounds
  {
    if a.Sweep? { SweepFrame(w, a, n); }
    else if a.ListFiles? || a.EndSweep? { ListFrame(w, a, n); }
    else { EarlyFrame(w, a, n); }
  }

  lemma ServiceRounds(w: World, a: ProcessStep, n: World)
    requires ServiceMoves(w, a, n) && !a.BeginRound?
    ensures n.rounds == if a.Crash? then map[] else w.rounds
  {
  }

  lemma ProcessOwns(w: World, a: ProcessStep, n: World, t: Id)
    requires WorldOk(w) && (BootMoves(w, a, n) || ServiceMoves(w, a, n)) && !a.ResetInFlight?
    ensures OwnerStep(w, Process(a), n, t)
  {
    if BootMoves(w, a, n) {
      BootTouches(w, a, n);
      BootRounds(w, a, n);
      assert !a.Crash?;
    } else {
      ServiceTouches(w, a, n);
      if a.BeginRound? { BegunOwns(w, a, n); } else { ServiceRounds(w, a, n); }
      if a.ManualRetry? {
        RetryFrame(w, a, n);
        RetriedRowsLike(w.db, a.task, a.now, a.applied, t);
      }
    }
  }

  /** For every step but the reset of the boot: a row in flight loses its owner exactly if the step is one of
      those that lose it, and a row without owner stays in flight and without one until it is gone. */
  lemma OwnerLost(w: World, a: Action, n: World, t: Id)
    requires WorldOk(w) && Taken(w, a, n) && !(a.Process? && a.process.ResetInFlight?)
    ensures OwnerStep(w, a, n, t)
  {
    assert Step(w, a, n);
    match a
    case Round(i, step) => RoundOwns(w, i, step, n, t);
    case Uploading(r, step) => UploadRows(w, r, step, n, t);
    case Deletion(d, step) => DeletionRows(w, d, step, n, t);
    case Process(step) => ProcessOwns(w, step, n, t);
  }

  /** The reset of the boot finds nobody working, and a row in flight after it was in flight without owner
      before: nothing is lost, and if the reset takes effect nothing is left. */
  lemma ResetLosesNothing(w: World, a: Action, n: World, t: Id)
    requires WorldOk(w) && Taken(w, a, n) && a.Process? && a.process.ResetInFlight?
    ensures Ownerless(n.db.tasks, n.rounds, t) ==> Ownerless(w.db.tasks, w.rounds, t)
    ensures n.db != w.db ==> InFlightTasks(n.db.tasks) == {}
  {
    assert Step(w, a, n);
    ResetFrame(w, a.process, n);
    BatchKeeps(w.db, a.process.ids, a.process.interrupt, a.process.now);
    assert InFlightRow(n.db.tasks, t) ==> t in InFlightTasks(n.db.tasks);
  }

  // ---- Runs ----

  /** Every row in flight was claimed, and whoever works on it is the round that claimed its attempt. */
  lemma OwnerClaimed(run: seq<World>, i: nat, t: Id, r: nat)
    requires IsRun(run) && i < |run| && InFlightRow(run[i].db.tasks, t)
    ensures KeyOf(run[i].db.tasks, t) in run[i].past.claimant
    ensures WorksOn(run[i].rounds, r, KeyOf(run[i].db.tasks, t)) ==> Claimant(run[i].past, KeyOf(run[i].db.tasks, t), r)
  {
    AlwaysOk(run, i);
    assert RowOk(t, run[i].db.tasks[t], run[i].past.claimant, run[i].past.heard, run[i].past.made);
    if WorksOn(run[i].rounds, r, KeyOf(run[i].db.tasks, t)) {
      OwnerIsClaimant(run[i].rounds, run[i].table, run[i].past, r, KeyOf(run[i].db.tasks, t));
    }
  }

  /** The step from run[j] loses t's owner. */
  ghost predicate LosesAt(run: seq<World>, j: nat, t: Id)
    requires j + 1 < |run|
  {
    exists a :: Taken(run[j], a, run[j + 1]) && Loses(run[j], a, t)
  }

  /** One step back from a row without owner: it had none before, or the step loses it. */
  lemma WithoutBefore(run: seq<World>, i: nat, t: Id)
    requires IsRun(run) && i + 1 < |run| && Ownerless(run[i + 1].db.tasks, run[i + 1].rounds, t)
    ensures Ownerless(run[i].db.tasks, run[i].rounds, t) || LosesAt(run, i, t)
  {
    AlwaysOk(run, i);
    assert Leads(run[i], run[i + 1]);
    var a :| Taken(run[i], a, run[i + 1]);
    if a.Process? && a.process.ResetInFlight? {
      ResetLosesNothing(run[i], a, run[i + 1], t);
    } else {
      OwnerLost(run[i], a, run[i + 1], t);
    }
  }

  lemma NobodyAtFirst(run: seq<World>, t: Id)
    requires IsRun(run)
    ensures t !in run[0].db.tasks
  {
  }

  /** In every reachable state a row in flight either has its claimant at work on it, or lost it at an earlier
      step of the run that loses it, and has been in flight without owner ever since. */
  lemma {:induction false} OwnerOrLost(run: seq<World>, i: nat, t: Id) returns (j: nat)
    requires IsRun(run) && i < |run| && Ownerless(run[i].db.tasks, run[i].rounds, t)
    ensures j < i && LosesAt(run, j, t)
    ensures forall k :: j < k <= i ==> Ownerless(run[k].db.tasks, run[k].rounds, t)
  {
    NobodyAtFirst(run, t);
    if i > 0 {
      WithoutBefore(run, i - 1, t);
      if Ownerless(run[i - 1].db.tasks, run[i - 1].rounds, t) {
        j := OwnerOrLost(run, i - 1, t);
      } else {
        j := i - 1;
      }
    }
  }

  /** So "at least one owner" does not hold: a claim that took effect while its reply was lost leaves a row in
      flight that no round works on, until the next boot resets it. */
  lemma LostClaimLeavesNoOwner(w: World, i: nat, t: Id, asOf: Time, now: Time) returns (n: World)
    requires WorldOk(w) && w.mode.Serving? && i in w.rounds && w.rounds[i].Claiming?
    requires Guard(w.db, Op.Claim(t, asOf, now))
    ensures Step(w, Round(i, RoundStep.Claim(t, asOf, now, false, true)), n)
    ensures t in n.db.tasks && n.db.tasks[t].status.Transcribing?
    ensures forall r :: r in n.rounds && !n.rounds[r].Claiming? ==> n.rounds[r].key != Key(t, n.db.tasks[t].attempt)
  {
    var key := Key(t, w.db.tasks[t].attempt);
    var op := Op.Claim(t, asOf, now);
    n := w.(rounds := w.rounds - {i}, db := Effect(w.db, op), past := w.past.(claimant := w.past.claimant[key := i]));
    ClaimIsNew(w.db, op, w.past.claimant, w.past.recOf, w.past.tried);
    forall r | r in n.rounds && !n.rounds[r].Claiming? ensures n.rounds[r].key != key {
      assert RoundOk(r, w.rounds[r], w.table, w.past);
    }
  }
}
