/** The in-memory table of live executions. Module World uses it as a map from keys to rounds; here is the
    object itself, whose handles are shared with the workers that registered them. */
module CancelTable {
  import opened Prelude
  import opened Lifecycle

  /** A task context's cancel function. Cancelling twice is the same as once. */
  class CancelHandle {
    var cancelled: bool

    constructor ()
      ensures !cancelled
    {
      cancelled := false;
    }

    method Cancel()
      modifies this
      ensures cancelled
    {
      cancelled := true;
    }
  }

  class Table {
    var cancels: map<Key, CancelHandle>

    constructor ()
      ensures cancels == map[]
    {
      cancels := map[];
    }

    /** The handles registered for any attempt of a task. */
    ghost function HandlesOf(task: Id): set<CancelHandle>
      reads this
    {
      set key | key in cancels && key.task == task :: cancels[key]
    }

    /** Register: a later registration of the same key replaces the earlier one. */
    method Register(key: Key, handle: CancelHandle)
      modifies this
      ensures cancels == old(cancels)[key := handle]
    {
      cancels := cancels[key := handle];
    }

    method Unregister(key: Key)
      modifies this
      ensures cancels == old(cancels) - {key}
    {
      cancels := cancels - {key};
    }

    /** Cancel: nothing happens for a key nobody registered. */
    method Cancel(key: Key)
      modifies if key in cancels then {cancels[key]} else {}
      ensures key in cancels ==> cancels[key].cancelled
    {
      if key in cancels {
        cancels[key].Cancel();
      }
    }

    /** CancelTask: collect the handles of the task, then cancel them one after the other outside the lock.
        Exactly the handles registered when it collected are cancelled, and the table stays as it was. */
    method CancelTask(task: Id)
      modifies HandlesOf(task)
      ensures forall key :: key in cancels && key.task == task ==> cancels[key].cancelled
      ensures forall key | key in cancels && cancels[key].cancelled && !old(cancels[key].cancelled) ::
        exists k :: k in cancels && k.task == task && cancels[k] == cancels[key]
    {
      var collected := Collect(task);
      for i := 0 to |collected|
        invariant forall h :: h in collected[..i] ==> h.cancelled
      {
        assert collected[i] in collected;
        collected[i].Cancel();
      }
      assert collected[..|collected|] == collected;
      assert forall key :: key in cancels && key.task == task ==> cancels[key] in HandlesOf(task);
    }

    /** The part of CancelTask under the lock. */
    method Collect(task: Id) returns (collected: seq<CancelHandle>)
      ensures forall h :: h in collected <==> h in HandlesOf(task)
    {
      collected := [];
      var rest := cancels.Keys;
      while rest != {}
        invariant rest <= cancels.Keys
        invariant forall h :: h in collected ==> h in HandlesOf(task)
        invariant forall key :: key in cancels.Keys - rest && key.task == task ==> cancels[key] in collected
      {
        var key :| key in rest;
        if key.task == task {
          collected := collected + [cancels[key]];
        }
        rest := rest - {key};
      }
    }
  }
}
