/** The worker pool: flags of the pool object, and the machine of notifiers and worker loops around the
    capacity-one wake channels. */
module WakeUps {

  /** The pool's flags and channels; a full channel is `true`. */
  class Pool {
    const wakes: array<bool>
    var started: bool
    var stopped: bool
    var drained: bool
    var claimsCancelled: bool
    var runCancelled: bool

    constructor (workers: nat)
      ensures fresh(wakes) && wakes.Length == workers && forall i :: 0 <= i < workers ==> !wakes[i]
      ensures !started && !stopped && !drained && !claimsCancelled && !runCancelled
    {
      wakes := new bool[workers](_ => false);
      started, stopped, drained, claimsCancelled, runCancelled := false, false, false, false, false;
    }

    /** Start: the workers run from the first call on; `launched` says whether this call launched them. */
    method Start() returns (launched: bool)
      modifies this`started
      ensures started && launched == !old(started)
    {
      if started {
        return false;
      }
      started := true;
      return true;
    }

    /** Notify: a full channel already holds an unconsumed signal, so sending never blocks. */
    method Notify()
      modifies wakes
      ensures forall i :: 0 <= i < wakes.Length ==> wakes[i]
    {
      for i := 0 to wakes.Length
        invariant forall j :: 0 <= j < i ==> wakes[j]
      {
        if !wakes[i] {
          wakes[i] := true;
        }
      }
    }

    /** Drain: stops claiming once; nothing before Start. The running rounds are not cancelled. */
    method Drain()
      modifies this`drained, this`claimsCancelled
      ensures claimsCancelled == (old(claimsCancelled) || (started && !old(drained)))
      ensures drained == (old(drained) || started)
    {
      if !started || drained {
        return;
      }
      drained := true;
      claimsCancelled := true;
    }

    /** Stop: cancels claiming and running, at the first call after Start. A call before Start uses the
        flag up, and later calls then cancel nothing. */
    method Stop()
      modifies this`stopped, this`claimsCancelled, this`runCancelled
      ensures stopped
      ensures claimsCancelled == (old(claimsCancelled) || (started && !old(stopped)))
      ensures runCancelled == (old(runCancelled) || (started && !old(stopped)))
    {
      var wasStopped := stopped;
      stopped := true;
      if !started || wasStopped {
        return;
      }
      claimsCancelled := true;
      runCancelled := true;
    }
  }

  datatype LoopPc = Launching | Checking | Entering | Processing | Waiting | Exited

  /** A worker loop. `full` is its channel; `begun` is when its latest process round began, `told` when a
      notification last reached its channel, both on a clock that ticks with every step. */
  datatype Worker = Worker(pc: LoopPc, full: bool, begun: int, told: int)

  /** notifiers: for each Notify in progress, the channel it sends to next. */
  datatype Machine = Machine(workers: seq<Worker>, notifiers: map<nat, nat>, clock: int, claimsOpen: bool,
      running: bool)

  datatype Event =
    | Launch(i: nat)
    | Check(i: nat)
    | Begin(i: nat)
    | Finish(i: nat)
    | Wake(i: nat)
    | Poll(i: nat)
    | Leave(i: nat)
    | Call(c: nat)
    | Send(c: nat)
    | CloseClaims
    | StopRunning

  function Tick(m: Machine): Machine {
    m.(clock := m.clock + 1)
  }

  function Moved(m: Machine, i: nat, w: Worker): Machine
    requires i < |m.workers|
  {
    Tick(m.(workers := m.workers[i := w]))
  }

  predicate WorkerMoves(m: Machine, i: nat, e: Event, n: Machine) {
    && i < |m.workers|
    && var w := m.workers[i];
    match e
    case Launch(_) => w.pc.Launching? && n == Moved(m, i, w.(pc := Checking))
    case Check(_) => w.pc.Checking? && m.claimsOpen && m.running && n == Moved(m, i, w.(pc := Entering))
    case Begin(_) => w.pc.Entering? && n == Moved(m, i, w.(pc := Processing, begun := m.clock))
    case Finish(_) => w.pc.Processing? && n == Moved(m, i, w.(pc := Waiting))
    case Wake(_) => w.pc.Waiting? && w.full && n == Moved(m, i, w.(pc := Checking, full := false))
    case Poll(_) => w.pc.Waiting? && n == Moved(m, i, w.(pc := Checking))
    case Leave(_) => (w.pc.Checking? || w.pc.Waiting?) && !(m.claimsOpen && m.running)
        && n == Moved(m, i, w.(pc := Exited))
    case _ => false
  }

  predicate Happens(m: Machine, e: Event, n: Machine) {
    match e
    case Call(c) => c !in m.notifiers && n == Tick(m.(notifiers := m.notifiers[c := 0]))
    case Send(c) =>
      && c in m.notifiers
      && var i := m.notifiers[c];
      if i < |m.workers| then
        n == Moved(m.(notifiers := m.notifiers[c := i + 1]), i, m.workers[i].(full := true, told := m.clock))
      else n == Tick(m.(notifiers := m.notifiers - {c}))
    case CloseClaims => n == Tick(m.(claimsOpen := false))
    case StopRunning => n == Tick(m.(claimsOpen := false, running := false))
    case _ => WorkerMoves(m, e.i, e, n)
  }

  predicate Initial(m: Machine) {
    m.notifiers == map[] && m.clock >= 0 && forall i :: 0 <= i < |m.workers| ==>
        m.workers[i] == Worker(Launching, false, -1, -1)
  }

  /** A worker busy or waiting with an empty channel has begun its latest round after every notification
      that reached it. */
  predicate WorkerOk(w: Worker, clock: int) {
    && w.begun < clock && w.told < clock
    && ((w.pc.Processing? || w.pc.Waiting?) && !w.full ==> w.told < w.begun)
    && (w.pc.Launching? && !w.full ==> w.told == -1)
  }

  predicate MachineOk(m: Machine) {
    forall i :: 0 <= i < |m.workers| ==> WorkerOk(m.workers[i], m.clock)
  }

  /** One worker changes, the clock ticks. */
  lemma OneWorkerKeeps(m: Machine, i: nat, w: Worker, n: Machine)
    requires MachineOk(m) && i < |m.workers| && WorkerOk(w, m.clock + 1)
    requires n.workers == m.workers[i := w] && n.clock == m.clock + 1
    ensures MachineOk(n)
  {
    forall j | 0 <= j < |n.workers| && j != i ensures WorkerOk(n.workers[j], n.clock) {
      assert WorkerOk(m.workers[j], m.clock);
    }
  }

  lemma NoWorkerKeeps(m: Machine, n: Machine)
    requires MachineOk(m) && n.workers == m.workers && n.clock == m.clock + 1
    ensures MachineOk(n)
  {
    forall j | 0 <= j < |n.workers| ensures WorkerOk(n.workers[j], n.clock) {
      assert WorkerOk(m.workers[j], m.clock);
    }
  }

  /** What the clock and the workers are after an event: all as before, or one of them changed in order. */
  ghost predicate OneChange(m: Machine, n: Machine) {
    && n.clock == m.clock + 1
    && (n.workers == m.workers || exists i: nat, w :: ChangedAt(m, i, w, n))
  }

  predicate ChangedAt(m: Machine, i: nat, w: Worker, n: Machine) {
    i < |m.workers| && n.workers == m.workers[i := w] && WorkerOk(w, m.clock + 1)
  }

  lemma LoopChanges(m: Machine, i: nat, e: Event, n: Machine)
    requires MachineOk(m) && WorkerMoves(m, i, e, n)
    ensures OneChange(m, n)
  {
    assert WorkerOk(m.workers[i], m.clock);
    assert WorkerOk(n.workers[i], m.clock + 1);
    assert ChangedAt(m, i, n.workers[i], n);
  }

  lemma SendChanges(m: Machine, c: nat, n: Machine)
    requires MachineOk(m) && Happens(m, Send(c), n)
    ensures OneChange(m, n)
  {
    var i := m.notifiers[c];
    if i < |m.workers| {
      assert WorkerOk(m.workers[i], m.clock);
      assert ChangedAt(m, i, m.workers[i].(full := true, told := m.clock), n);
    }
  }

  lemma HappensKeeps(m: Machine, e: Event, n: Machine)
    requires MachineOk(m) && Taken(m, e, n)
    ensures MachineOk(n) && |n.workers| == |m.workers| && n.clock == m.clock + 1
  {
    assert Happens(m, e, n);
    if e.Send? {
      SendChanges(m, e.c, n);
    } else if !e.Call? && !e.CloseClaims? && !e.StopRunning? {
      LoopChanges(m, e.i, e, n);
    }
    if n.workers == m.workers {
      NoWorkerKeeps(m, n);
    } else {
      var i: nat, w :| ChangedAt(m, i, w, n);
      OneWorkerKeeps(m, i, w, n);
    }
  }

  /** A step kept folded: it unfolds only in proofs that mention Happens itself. */
  ghost predicate Taken(m: Machine, e: Event, n: Machine) {
    forall x {:trigger Happens(x, e, n)} :: x == m ==> Happens(x, e, n)
  }

  ghost predicate IsRun(run: seq<Machine>, events: seq<Event>) {
    |run| == |events| + 1 && Initial(run[0]) && forall i :: 0 <= i < |events| ==> Taken(run[i], events[i], run[i + 1])
  }

  lemma {:induction false} RunOk(run: seq<Machine>, events: seq<Event>, i: nat)
    requires IsRun(run, events) && i < |run|
    ensures MachineOk(run[i]) && |run[i].workers| == |run[0].workers| && run[i].clock == run[0].clock + i
  {
    if i > 0 {
      RunOk(run, events, i - 1);
      HappensKeeps(run[i - 1], events[i - 1], run[i]);
    }
  }

  /** At step k a notification reaches the channel of worker i. */
  predicate Reaches(m: Machine, e: Event, i: nat) {
    e.Send? && e.c in m.notifiers && m.notifiers[e.c] == i && i < |m.workers|
  }

  lemma StampsGrow(m: Machine, e: Event, n: Machine, i: nat)
    requires MachineOk(m) && Taken(m, e, n) && i < |m.workers|
    ensures |n.workers| == |m.workers| && n.workers[i].told >= m.workers[i].told
    ensures Reaches(m, e, i) ==> n.workers[i].told == m.clock
    ensures n.workers[i].begun == if e == Begin(i) then m.clock else m.workers[i].begun
  {
    assert Happens(m, e, n);
    assert WorkerOk(m.workers[i], m.clock);
  }

  /** The time stamps are what they say. */
  lemma {:induction false} ToldIsLatest(run: seq<Machine>, events: seq<Event>, k: nat, j: nat, i: nat)
    requires IsRun(run, events) && k < j < |run| && Reaches(run[k], events[k], i)
    ensures i < |run[j].workers| && run[j].workers[i].told >= run[0].clock + k
  {
    RunOk(run, events, j - 1);
    RunOk(run, events, k);
    if k < j - 1 {
      ToldIsLatest(run, events, k, j - 1, i);
    }
    StampsGrow(run[j - 1], events[j - 1], run[j], i);
  }

  lemma {:induction false} BegunHappened(run: seq<Machine>, events: seq<Event>, j: nat, i: nat)
    requires IsRun(run, events) && j < |run| && i < |run[j].workers|
    requires run[j].workers[i].begun > run[0].clock - 1
    ensures exists b: nat :: BeganAt(run, events, b, i) && b < j && run[j].workers[i].begun == run[0].clock + b
  {
    if j > 0 {
      RunOk(run, events, j - 1);
      RunOk(run, events, j);
      StampsGrow(run[j - 1], events[j - 1], run[j], i);
      if events[j - 1] == Begin(i) {
        assert BeganAt(run, events, j - 1, i);
      } else {
        BegunHappened(run, events, j - 1, i);
      }
    }
  }

  predicate BeganAt(run: seq<Machine>, events: seq<Event>, b: nat, i: nat) {
    b < |events| && events[b] == Begin(i)
  }

  /** No wake-up is lost: when a worker waits on an empty channel, or is busy with one, every notification
      that ever reached it was followed by the beginning of a process round. */
  lemma NoLostWakeUp(run: seq<Machine>, events: seq<Event>, k: nat, j: nat, i: nat)
    requires IsRun(run, events) && k < j < |run| && Reaches(run[k], events[k], i) && i < |run[j].workers|
    requires (run[j].workers[i].pc.Waiting? || run[j].workers[i].pc.Processing?) && !run[j].workers[i].full
    ensures exists b: nat :: k < b < j && BeganAt(run, events, b, i)
  {
    RunOk(run, events, j);
    ToldIsLatest(run, events, k, j, i);
    assert WorkerOk(run[j].workers[i], run[j].clock);
    BegunHappened(run, events, j, i);
  }
}
