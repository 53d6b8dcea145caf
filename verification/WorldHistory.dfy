/** What holds along every run of the service, whatever the interleaving, the faults and the crashes. */
module WorldHistory {
  import opened Prelude
  import opened Lifecycle
  import opened SummaryJson
  import opened Tables
  import opened World
  import opened WorldInv
  import opened WorldRounds
  import opened WorldRuns

  /** A step kept folded: it unfolds only in proofs that mention Step itself. */
  ghost predicate Taken(w: World, a: Action, n: World) {
    forall x {:trigger Step(x, a, n)} :: x == w ==> Step(x, a, n)
  }

  ghost predicate Leads(w: World, n: World) {
    exists a :: Taken(w, a, n)
  }

  ghost predicate IsRun(run: seq<World>) {
    |run| > 0 && Init(run[0]) && forall i :: 0 <= i < |run| - 1 ==> Leads(run[i], run[i + 1])
  }

  lemma TakenKeeps(w: World, a: Action, n: World)
    requires WorldOk(w) && Taken(w, a, n)
    ensures WorldOk(n)
  {
    assert Step(w, a, n);
    StepKeeps(w, a, n);
  }

  /** Every reachable state is in order. */
  lemma {:induction false} AlwaysOk(run: seq<World>, i: nat)
    requires IsRun(run) && i < |run|
    ensures WorldOk(run[i])
  {
    if i == 0 {
      InitOk(run[0]);
    } else {
      AlwaysOk(run, i - 1);
      assert Leads(run[i - 1], run[i]);
      var a :| Taken(run[i - 1], a, run[i]);
      TakenKeeps(run[i - 1], a, run[i]);
    }
  }

  // ---- What the history variables record really happened, once ----

  /** A claim of the attempt `key` by round i takes effect in this step. */
  ghost predicate ClaimsIn(w: World, i: nat, key: Key, n: World) {
    && i in w.rounds && w.rounds[i].Claiming?
    && exists op :: ClaimOf(w.db, op, key, n.db)
  }

  ghost predicate ClaimOf(db: Db, op: Op, key: Key, n: Db) {
    op.Claim? && op.task == key.task && Guard(db, op) && db.tasks[op.task].attempt == key.attempt && n == Effect(db, op)
  }

  /** The transcription call of round i for `key` returns text in this step. */
  ghost predicate HearsIn(w: World, i: nat, key: Key, text: string, n: World) {
    i in w.rounds && w.rounds[i] == InTranscribe(key) && i in n.rounds && n.rounds[i] == Saving(key, text, 0)
  }

  /** The summary call of round i for `key`, given text, returns summary in this step. */
  ghost predicate MakesIn(w: World, i: nat, key: Key, text: string, summary: Summary, n: World) {
    i in w.rounds && w.rounds[i] == InSummarize(key, text) && i in n.rounds
        && n.rounds[i] == Completing(key, text, summary, 0)
  }

  /** The history only grows, and each new entry is one of the three events above. */
  ghost predicate Records(w: World, n: World) {
    && (forall k :: k in w.past.claimant ==> Claimant(n.past, k, w.past.claimant[k]))
    && (forall i :: i in w.past.heard ==> HeardBy(n.past, i, w.past.heard[i]))
    && (forall i :: i in w.past.made ==> i in n.past.made && n.past.made[i] == w.past.made[i])
    && (forall k :: k in n.past.claimant && k !in w.past.claimant ==> ClaimsIn(w, n.past.claimant[k], k, n))
    && (forall i :: i in n.past.heard && i !in w.past.heard ==> exists key :: HearsIn(w, i, key, n.past.heard[i], n))
    && (forall i :: i in n.past.made && i !in w.past.made ==>
        exists key :: MakesIn(w, i, key, n.past.made[i].0, n.past.made[i].1, n))
  }

  lemma ClaimedRecords(w: World, i: nat, op: Op, key: Key, n: World)
    requires i in w.rounds && w.rounds[i].Claiming? && key !in w.past.claimant && ClaimOf(w.db, op, key, n.db)
    requires n.past == w.past.(claimant := w.past.claimant[key := i])
    ensures Records(w, n)
  {
  }

  lemma ClaimRecords(w: World, i: nat, a: RoundStep, n: World)
    requires KeysPast(w.db.tasks, w.past.claimant, w.past.recOf, w.past.tried)
    requires i in w.rounds && w.rounds[i].Claiming? && ClaimMoves(w, i, a, n)
    ensures Records(w, n)
  {
    var op := ClaimFrame(w, i, a, n);
    if op.Some? {
      var key := Key(op.value.task, w.db.tasks[op.value.task].attempt);
      ClaimIsNew(w.db, op.value, w.past.claimant, w.past.recOf, w.past.tried);
      assert ClaimOf(w.db, op.value, key, n.db);
      ClaimedRecords(w, i, op.value, key, n);
    }
  }

  lemma CallRecords(w: World, i: nat, a: RoundStep, n: World)
    requires RoundsOk(w.rounds, w.table, w.past) && i in w.rounds && (a.Hear? || a.Make?)
    requires !w.rounds[i].Claiming? && CallMoves(w, i, w.rounds[i], a, n)
    ensures Records(w, n)
  {
    assert RoundOk(i, w.rounds[i], w.table, w.past);
    if a.Hear? {
      assert HearsIn(w, i, w.rounds[i].key, a.text, n);
    } else {
      assert MakesIn(w, i, w.rounds[i].key, w.rounds[i].text, a.summary, n);
    }
  }

  ghost predicate SameRecords(w: World, n: World) {
    n.past.claimant == w.past.claimant && n.past.heard == w.past.heard && n.past.made == w.past.made
  }

  lemma QuietRound(w: World, i: nat, a: RoundStep, n: World)
    requires RoundMoves(w, i, a, n) && !w.rounds[i].Claiming? && !a.Hear? && !a.Make?
    ensures SameRecords(w, n)
  {
    var pc := w.rounds[i];
    if a.Register? || a.ReadTask? || a.ReadRecording? { RecheckFrame(w, i, pc, a, n); }
    else if a.CallFails? || a.CallCancelled? { }
    else if a.Write? || a.GiveUp? { var op := PersistFrame(w, i, pc, a, n); }
    else { var op := LeaveFrame(w, i, pc, a, n); }
  }

  lemma QuietUpload(w: World, r: Id, a: UploadStep, n: World)
    requires SaveMoves(w, r, a, n) || CreateMoves(w, r, a, n)
    ensures SameRecords(w, n)
  {
  }

  lemma QuietDeletion(w: World, d: nat, a: DeleteStep, n: World)
    requires DeleteMoves(w, d, a, n)
    ensures SameRecords(w, n)
  {
  }

  lemma QuietProcess(w: World, a: ProcessStep, n: World)
    requires BootMoves(w, a, n) || ServiceMoves(w, a, n)
    ensures SameRecords(w, n)
  {
    if BootMoves(w, a, n) { BootTouches(w, a, n); } else { ServiceTouches(w, a, n); }
  }

  lemma QuietRecords(w: World, a: Action, n: World)
    requires Step(w, a, n)
    requires a.Round? ==> !w.rounds[a.i].Claiming? && !a.round.Hear? && !a.round.Make?
    ensures SameRecords(w, n)
  {
    match a
    case Round(i, step) => QuietRound(w, i, step, n);
    case Uploading(r, step) => QuietUpload(w, r, step, n);
    case Deletion(d, step) => QuietDeletion(w, d, step, n);
    case Process(step) => QuietProcess(w, step, n);
  }

  lemma StepRecords(w: World, a: Action, n: World)
    requires WorldOk(w) && Step(w, a, n)
    ensures Records(w, n)
  {
    if a.Round? && w.rounds[a.i].Claiming? { ClaimRecords(w, a.i, a.round, n); }
    else if a.Round? && (a.round.Hear? || a.round.Make?) { CallRecords(w, a.i, a.round, n); }
    else { QuietRecords(w, a, n); }
  }

  lemma TakenRecords(w: World, a: Action, n: World)
    requires WorldOk(w) && Taken(w, a, n)
    ensures Records(w, n)
  {
    assert Step(w, a, n);
    StepRecords(w, a, n);
  }

  lemma RunRecords(run: seq<World>, i: nat)
    requires IsRun(run) && i + 1 < |run|
    ensures Records(run[i], run[i + 1])
  {
    AlwaysOk(run, i);
    assert Leads(run[i], run[i + 1]);
    var a :| Taken(run[i], a, run[i + 1]);
    TakenRecords(run[i], a, run[i + 1]);
  }

  lemma NothingRecorded(run: seq<World>)
    requires IsRun(run)
    ensures run[0].past.claimant == map[] && run[0].past.heard == map[] && run[0].past.made == map[]
  {
  }

  /** Records stand for the rest of the run. */
  lemma {:induction false} RecordsStand(run: seq<World>, i: nat, j: nat)
    requires IsRun(run) && i <= j < |run|
    ensures forall k :: k in run[i].past.claimant ==> Claimant(run[j].past, k, run[i].past.claimant[k])
    ensures forall r :: r in run[i].past.heard ==> HeardBy(run[j].past, r, run[i].past.heard[r])
    ensures forall r :: r in run[i].past.made ==> r in run[j].past.made && run[j].past.made[r] == run[i].past.made[r]
  {
    if i < j {
      RecordsStand(run, i, j - 1);
      RunRecords(run, j - 1);
    }
  }

  lemma {:induction false} ClaimHappened(run: seq<World>, i: nat, key: Key) returns (j: nat)
    requires IsRun(run) && i < |run| && key in run[i].past.claimant
    ensures j < i && ClaimsIn(run[j], run[i].past.claimant[key], key, run[j + 1])
  {
    NothingRecorded(run);
    if i > 0 {
      RunRecords(run, i - 1);
      if key in run[i - 1].past.claimant { j := ClaimHappened(run, i - 1, key); } else { j := i - 1; }
    }
  }

  lemma {:induction false} HearingHappened(run: seq<World>, i: nat, r: nat) returns (j: nat, key: Key)
    requires IsRun(run) && i < |run| && r in run[i].past.heard
    ensures j < i && HearsIn(run[j], r, key, run[i].past.heard[r], run[j + 1])
  {
    NothingRecorded(run);
    if i > 0 {
      RunRecords(run, i - 1);
      if r in run[i - 1].past.heard {
        j, key := HearingHappened(run, i - 1, r);
      } else {
        j := i - 1;
        key :| HearsIn(run[j], r, key, run[i].past.heard[r], run[i]);
      }
    }
  }

  lemma {:induction false} MakingHappened(run: seq<World>, i: nat, r: nat) returns (j: nat, key: Key)
    requires IsRun(run) && i < |run| && r in run[i].past.made
    ensures j < i && MakesIn(run[j], r, key, run[i].past.made[r].0, run[i].past.made[r].1, run[j + 1])
  {
    NothingRecorded(run);
    if i > 0 {
      RunRecords(run, i - 1);
      if r in run[i - 1].past.made {
        j, key := MakingHappened(run, i - 1, r);
      } else {
        j := i - 1;
        key :| MakesIn(run[j], r, key, run[i].past.made[r].0, run[i].past.made[r].1, run[i]);
      }
    }
  }

  /** A round that ever held a key past claiming holds that key only. */
  lemma RoundHasOneKey(run: seq<World>, i: nat, j: nat, key: Key, r: nat)
    requires IsRun(run) && j <= i < |run| && Claimant(run[i].past, key, r)
    requires r in run[j].rounds && !run[j].rounds[r].Claiming?
    ensures run[j].rounds[r].key == key
  {
    AlwaysOk(run, i);
    AlwaysOk(run, j);
    RecordsStand(run, j, i);
    assert RoundOk(r, run[j].rounds[r], run[j].table, run[j].past);
  }

  lemma RoundAt(run: seq<World>, j: nat, r: nat)
    requires IsRun(run) && j < |run| && r in run[j].rounds
    ensures RoundOk(r, run[j].rounds[r], run[j].table, run[j].past)
  {
    AlwaysOk(run, j);
  }

  /** In every reachable state a done row holds the summary that the summary call of one round returned for
      exactly the row's transcript, which the transcription call of the same round returned before, after
      that round had claimed the row's current attempt. */
  lemma DoneRowsAreGenuine(run: seq<World>, i: nat, t: Id)
    returns (r: nat, summary: Summary, claimed: nat, heard: nat, made: nat)
    requires IsRun(run) && i < |run| && t in run[i].db.tasks && run[i].db.tasks[t].status.Done?
    ensures claimed < heard < made < i
    ensures var row := run[i].db.tasks[t]; var key := Key(t, row.attempt);
      && row.summary == Some(Encode(summary))
      && ClaimsIn(run[claimed], r, key, run[claimed + 1])
      && HearsIn(run[heard], r, key, row.transcript, run[heard + 1])
      && MakesIn(run[made], r, key, row.transcript, summary, run[made + 1])
  {
    AlwaysOk(run, i);
    var row := run[i].db.tasks[t];
    var key := Key(t, row.attempt);
    assert RowOk(t, row, run[i].past.claimant, run[i].past.heard, run[i].past.made);
    r := run[i].past.claimant[key];
    summary := run[i].past.made[r].1;
    var k1, k2;
    made, k2 := MakingHappened(run, i, r);
    RoundHasOneKey(run, i, made, key, r);
    RoundAt(run, made, r);
    heard, k1 := HearingHappened(run, made, r);
    RoundHasOneKey(run, i, heard, key, r);
    RoundAt(run, heard, r);
    claimed := ClaimHappened(run, heard, key);
  }
}
