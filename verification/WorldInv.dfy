/** What every step of the service keeps. Each conjunct names only the parts of the state it speaks of. */
module WorldInv {
  import opened Prelude
  import opened Lifecycle
  import opened SummaryJson
  import opened Bytes
  import opened Uuid
  import opened Tables
  import opened Backing
  import opened Invariant
  import opened BatchReset
  import opened World

  type Recordings = map<Id, Recording>
  type Tasks = map<Id, Task>

  predicate Owns(owner: map<Path, Id>, p: Path, r: Id) {
    p in owner && owner[p] == r
  }

  predicate Drawn(recOf: map<Id, Id>, t: Id, r: Id) {
    t in recOf && recOf[t] == r
  }

  /** Every recording was created by the upload its path was generated for. */
  ghost predicate RecsKnown(recs: Recordings, tried: set<Id>, owner: map<Path, Id>) {
    forall r :: r in recs ==> r in tried && Owns(owner, recs[r].path, r)
  }

  ghost predicate TasksKnown(tasks: Tasks, recOf: map<Id, Id>, tried: set<Id>) {
    forall t :: t in tasks ==> Drawn(recOf, t, tasks[t].recordingId) && tasks[t].recordingId in tried
  }

  predicate UploadOk(
      r: Id, up: Upload, recs: Recordings, disk: Disk, digest: seq<byte> -> Hash, past: History) {
    match up
    case Receiving(tmp) => tmp in disk && TmpName(tmp) && Owns(past.owner, tmp, r) && r !in past.tried
    case Stored(input) =>
      && input.rec == r && Owns(past.owner, input.path, r) && Drawn(past.recOf, input.task, r)
      && r !in past.tried
      && HasContent(disk, input.path, input.size, input.hash, digest)
    case Compensating(path) => Owns(past.owner, path, r) && r !in recs
  }

  ghost predicate UploadsOk(
      uploads: map<Id, Upload>, recs: Recordings, disk: Disk, digest: seq<byte> -> Hash,
      past: History) {
    && past.tried <= past.begun
    && forall r :: r in uploads ==> r in past.begun && UploadOk(r, uploads[r], recs, disk, digest, past)
  }

  /** Every deletion works on a recording that is marked or gone. */
  predicate DeleterOk(
      d: Deleter, recs: Recordings, owner: map<Path, Id>, recOf: map<Id, Id>, tried: set<Id>) {
    && d.rec in tried && !InUse(recs, d.rec) && Owns(owner, d.path, d.rec)
    && (d.Found? && d.of.Some? ==> Drawn(recOf, d.of.value, d.rec))
    && (d.Cancelling? ==> Drawn(recOf, d.task, d.rec))
  }

  ghost predicate DeletersOk(
      deleters: map<nat, Deleter>, recs: Recordings, owner: map<Path, Id>, recOf: map<Id, Id>,
      tried: set<Id>) {
    forall d :: d in deleters ==> DeleterOk(deleters[d], recs, owner, recOf, tried)
  }

  /** In an external call, or able to enter one without another look at the database. */
  predicate InCall(pc: Pc) {
    pc.InTranscribe? || pc.Saving? || pc.InSummarize?
  }

  predicate InCallFor(rounds: map<nat, Pc>, i: nat, t: Id) {
    i in rounds && InCall(rounds[i]) && rounds[i].key.task == t
  }

  /** While a deletion cancels, the rounds in a call for its task are cancelled or about to be. */
  ghost predicate CancelsCover(deleters: map<nat, Deleter>, rounds: map<nat, Pc>, cancelled: set<nat>) {
    forall d, i :: d in deleters && deleters[d].Cancelling? && InCallFor(rounds, i, deleters[d].task) ==>
      i in cancelled || i in deleters[d].pending
  }

  /** Once a deletion finished cancelling, no round is in a call for its task with a live context. */
  ghost predicate SilencedOk(
      silenced: set<Id>, recs: Recordings, recOf: map<Id, Id>, tried: set<Id>, rounds: map<nat, Pc>,
      cancelled: set<nat>) {
    forall t :: t in silenced ==>
      && t in recOf && recOf[t] in tried && !InUse(recs, recOf[t])
      && forall i :: InCallFor(rounds, i, t) ==> i in cancelled
  }

  predicate Claimant(past: History, key: Key, i: nat) {
    key in past.claimant && past.claimant[key] == i
  }

  predicate HeardBy(past: History, i: nat, text: string) {
    i in past.heard && past.heard[i] == text
  }

  predicate MadeBy(past: History, i: nat, text: string, summary: Summary) {
    i in past.made && past.made[i] == (text, summary)
  }

  predicate Enrolled(pc: Pc) {
    !pc.Claiming? && !pc.Claimed? && !pc.Panicked? && !pc.Recovering?
  }

  predicate RoundOk(i: nat, pc: Pc, table: map<Key, nat>, past: History) {
    && i < past.nextRound
    && (!pc.Claiming? ==> Claimant(past, pc.key, i))
    && (Enrolled(pc) ==> pc.key in table && table[pc.key] == i)
    && (pc.Rechecking? ==> Drawn(past.recOf, pc.key.task, pc.rec))
    && (pc.Claiming? || pc.Claimed? || pc.Registered? || pc.Rechecking? || pc.InTranscribe? ==>
        i !in past.heard && i !in past.made)
    && (pc.Saving? || pc.InSummarize? ==> HeardBy(past, i, pc.text) && i !in past.made)
    && (pc.Completing? ==> HeardBy(past, i, pc.text) && MadeBy(past, i, pc.text, pc.summary) && Valid(pc.summary))
    && (pc.Claiming? ==> forall k :: k in past.claimant ==> past.claimant[k] != i)
  }

  ghost predicate RoundsOk(rounds: map<nat, Pc>, table: map<Key, nat>, past: History) {
    && (forall i :: i in rounds ==> RoundOk(i, rounds[i], table, past))
    && (forall k :: k in past.claimant ==> past.claimant[k] < past.nextRound)
    && (forall i :: i in past.heard || i in past.made ==> i < past.nextRound)
    && (forall k, l :: k in past.claimant && l in past.claimant && past.claimant[k] == past.claimant[l] ==> k == l)
  }

  /** The products in a row come from the round that claimed the row's current attempt, and the summary
      was made from that very transcript. */
  predicate RowOk(
      t: Id, row: Task, claimant: map<Key, nat>, heard: map<nat, string>, made: map<nat,
      (string, Summary)>) {
    var key := Key(t, row.attempt);
    && (InFlight(row.status) || row.status.Done? ==> key in claimant)
    && (row.status.Summarizing? || row.status.Done? ==>
        claimant[key] in heard && heard[claimant[key]] == row.transcript)
    && (row.status.Done? ==> && claimant[key] in made && made[claimant[key]].0 == row.transcript
                             && row.summary == Some(Encode(made[claimant[key]].1)))
  }

  ghost predicate Provenance(
      tasks: Tasks, claimant: map<Key, nat>, heard: map<nat, string>, made: map<nat,
      (string, Summary)>) {
    forall t :: t in tasks ==> RowOk(t, tasks[t], claimant, heard, made)
  }

  /** A row is past every attempt of it that was ever claimed. */
  predicate KeyPast(k: Key, tasks: Tasks, recOf: map<Id, Id>, tried: set<Id>) {
    && k.task in recOf && recOf[k.task] in tried
    && (k.task in tasks ==> Progress(tasks[k.task]) >= 5 * k.attempt + 1)
  }

  ghost predicate KeysPast(tasks: Tasks, claimant: map<Key, nat>, recOf: map<Id, Id>, tried: set<Id>) {
    forall k :: k in claimant ==> KeyPast(k, tasks, recOf, tried)
  }

  /** What the sweep has done so far to the files it found. */
  ghost predicate SweepOk(mode: Mode, disk: Disk, db: Db) {
    mode.Sweeping? ==>
      && mode.refs == Referenced(db) && mode.rest <= mode.found && mode.kept <= mode.found - mode.rest
      && forall p :: p in disk <==>
          p in mode.rest || (p in mode.found && (p in mode.kept || (!TmpName(p) && p in mode.refs)))
  }

  ghost predicate ModeOk(w: World) {
    && (!w.mode.Serving? ==> w.rounds == map[] && w.uploads == map[] && w.table == map[])
    && (!Finalizing(w.mode) ==> w.deleters == map[])
    && (w.mode.Listing? || w.mode.Sweeping? ==> InFlightTasks(w.db.tasks) == {})
  }

  /** The conjuncts that speak of task rows and of who wrote them. */
  ghost predicate RowsOk(db: Db, past: History) {
    && Sound(db)
    && TasksKnown(db.tasks, past.recOf, past.tried)
    && Provenance(db.tasks, past.claimant, past.heard, past.made)
    && KeysPast(db.tasks, past.claimant, past.recOf, past.tried)
  }

  ghost predicate FilesOk(
      recs: Recordings, uploads: map<Id, Upload>, disk: Disk, digest: seq<byte> -> Hash,
      past: History) {
    && RecsKnown(recs, past.tried, past.owner)
    && Backed(recs, disk, digest)
    && UploadsOk(uploads, recs, disk, digest, past)
  }

  ghost predicate DeletionsOk(
      deleters: map<nat, Deleter>, recs: Recordings, past: History, rounds: map<nat, Pc>,
      cancelled: set<nat>) {
    && DeletersOk(deleters, recs, past.owner, past.recOf, past.tried)
    && CancelsCover(deleters, rounds, cancelled)
    && SilencedOk(past.silenced, recs, past.recOf, past.tried, rounds, cancelled)
  }

  ghost predicate WorldOk(w: World) {
    && RowsOk(w.db, w.past)
    && FilesOk(w.db.recordings, w.uploads, w.disk, w.digest, w.past)
    && DeletionsOk(w.deleters, w.db.recordings, w.past, w.rounds, w.cancelled)
    && RoundsOk(w.rounds, w.table, w.past)
    && SweepOk(w.mode, w.disk, w.db)
    && ModeOk(w)
  }
}
