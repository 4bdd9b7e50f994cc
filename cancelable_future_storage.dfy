/**
 * The registry of scheduled polling tasks (`CancelableFutureStorage`): a map
 * from key to future whose `remove` and `replace` cancel the task they take
 * out, while `put`, inherited unchanged from the concurrent hash map, does not.
 */
module FutureStorage {

  /**
   * What a scheduled future reports. `Done` covers a task that completed,
   * which for a recurring task means its run threw; `Cancelled` records the
   * `mayInterruptIfRunning` flag the successful cancel was given.
   */
  datatype TaskState = Pending | Done | Cancelled(mayInterruptIfRunning: bool)

  /** The state a future is in after `cancel` was called on it. */
  function AfterCancel(st: TaskState, mayInterruptIfRunning: bool, succeeds: bool): (r: TaskState)
    ensures r != Pending
    ensures st != Pending ==> r == st
  {
    if st != Pending then st else if succeeds then Cancelled(mayInterruptIfRunning) else Done
  }

  /**
   * Whether `remove` takes out an entry whose future is in state `st`: one
   * that is done already, or one whose cancel succeeds.
   */
  predicate Removable(st: TaskState, cancelSucceeds: bool) {
    st != Pending || cancelSucceeds
  }

  /**
   * A handle on one recurring task, shared by the executor that runs it and
   * the storage that files it.
   */
  class Future {
    var state: TaskState

    /** A newly scheduled task has neither completed nor been cancelled. */
    constructor ()
      ensures state == Pending
    {
      state := Pending;
    }

    /** `isDone`: the task completed, which includes having thrown, or was cancelled. */
    predicate IsDone(): (r: bool)
      reads this
      ensures r <==> state == Done || state.Cancelled?
    {
      state != Pending
    }

    /**
     * Attempts to cancel the task. A task that is already done cannot be
     * cancelled. For a pending task `succeeds` decides the race with the
     * task's own completion: when it is lost, the task is done and the
     * cancel fails.
     */
    method Cancel(mayInterruptIfRunning: bool, succeeds: bool) returns (ok: bool)
      modifies this
      ensures ok <==> old(state) == Pending && succeeds
      ensures state == AfterCancel(old(state), mayInterruptIfRunning, succeeds)
    {
      if state != Pending {
        ok := false;
      } else if succeeds {
        state := Cancelled(mayInterruptIfRunning);
        ok := true;
      } else {
        state := Done;
        ok := false;
      }
    }
  }

  /** A keyed store of futures. */
  class CancelableFutureStorage<K(==)> {
    var entries: map<K, Future>

    constructor ()
      ensures entries == map[]
    {
      entries := map[];
    }

    /** The future filed under `key`, as a set of at most one object. */
    function FutureAt(key: K): set<Future>
      reads this
    {
      if key in entries then {entries[key]} else {}
    }

    /** The keys currently filed. */
    function KeySet(): set<K>
      reads this
    {
      entries.Keys
    }

    /**
     * The inherited `put`: files `value` under `key` and returns what was
     * there. A future it displaces is NOT cancelled.
     */
    method Put(key: K, value: Future) returns (previous: Future?)
      modifies this
      ensures entries == old(entries)[key := value]
      ensures previous == if key in old(entries) then old(entries[key]) else null
      ensures previous != null ==> previous.state == old(previous.state)
    {
      previous := if key in entries then entries[key] else null;
      entries := entries[key := value];
    }

    /**
     * `remove(key, mayInterruptIfRunning)`: an absent key gives `null` and
     * changes nothing. A done task is taken out and returned and its state is
     * left alone (cancel is not called). A pending task is cancelled first
     * and taken out and returned only if the cancel succeeded; otherwise the
     * entry stays and `null` is returned. Either way no pending task leaves
     * the map.
     */
    method Remove(key: K, mayInterruptIfRunning: bool, cancelSucceeds: bool) returns (r: Future?)
      modifies this, FutureAt(key)
      ensures entries == if key in old(entries) && Removable(old(entries[key].state), cancelSucceeds)
                         then old(entries) - {key} else old(entries)
      ensures r == if key in old(entries) && Removable(old(entries[key].state), cancelSucceeds)
                   then old(entries[key]) else null
      ensures key in old(entries) ==>
                old(entries[key]).state == AfterCancel(old(entries[key].state), mayInterruptIfRunning, cancelSucceeds)
      ensures key in old(entries) && key !in entries ==> old(entries[key]).state != Pending
    {
      var removed := if key in entries then entries[key] else null;
      if removed != null {
        if removed.IsDone() {
          r := removed;
          entries := entries - {key};
        } else {
          var canceled := removed.Cancel(mayInterruptIfRunning, cancelSucceeds);
          if canceled {
            r := removed;
            entries := entries - {key};
          } else {
            r := null;
          }
        }
      } else {
        r := null;
      }
    }

    /** The single-argument `remove(key)`, which is `remove(key, true)`. */
    method RemoveKey(key: K, cancelSucceeds: bool) returns (r: Future?)
      modifies this, FutureAt(key)
      ensures entries == if key in old(entries) && Removable(old(entries[key].state), cancelSucceeds)
                         then old(entries) - {key} else old(entries)
      ensures r == if key in old(entries) && Removable(old(entries[key].state), cancelSucceeds)
                   then old(entries[key]) else null
      ensures key in old(entries) ==>
                old(entries[key]).state == AfterCancel(old(entries[key].state), true, cancelSucceeds)
    {
      r := Remove(key, true, cancelSucceeds);
    }

    /**
     * `replace(key, value)`: only a key already present gets `value`; the
     * future it displaces is returned and cancelled (with interruption). An
     * absent key changes nothing, cancels nothing and gives `null`.
     */
    method Replace(key: K, value: Future, cancelSucceeds: bool) returns (r: Future?)
      modifies this, FutureAt(key)
      ensures key !in old(entries) ==> r == null && entries == old(entries)
      ensures key in old(entries) ==>
                r == old(entries[key]) && entries == old(entries)[key := value] &&
                r.state == AfterCancel(old(r.state), true, cancelSucceeds)
      ensures key in old(entries) && value != old(entries[key]) ==> value.state == old(value.state)
    {
      r := if key in entries then entries[key] else null;
      if r != null {
        entries := entries[key := value];
        var _ := r.Cancel(true, cancelSucceeds);
      }
    }
  }
}
