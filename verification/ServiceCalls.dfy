/** The calls of the lifecycle as the service runs them, against a store that others may change
    between a read and the compare-and-swap that follows it. */
module ServiceCalls {
  import opened Basics
  import opened Model
  import opened Rotation
  import opened Store

  datatype CancelResult = NotFound | AlreadyTerminal | Won

  /** What becomes of the store when others leave record id as r says: rewritten, or gone. */
  function Left(m: Records, id: AllocationId, r: Option<Allocation>): Records {
    if r.Some? then m[id := r.value] else m - {id}
  }

  /** The store after others have had so many turns at record id. */
  function LeftAfter(m: Records, id: AllocationId, rivals: seq<Option<Allocation>>, turns: nat): Records
    requires turns <= |rivals|
  {
    if turns == 0 then m else Left(m, id, rivals[turns - 1])
  }

  lemma LastTurnCounts(m: Records, id: AllocationId, rivals: seq<Option<Allocation>>, turns: nat)
    requires turns < |rivals|
    ensures Left(LeftAfter(m, id, rivals, turns), id, rivals[turns]) == LeftAfter(m, id, rivals, turns + 1)
  {
    var a, b := Left(LeftAfter(m, id, rivals, turns), id, rivals[turns]), LeftAfter(m, id, rivals, turns + 1);
    assert a.Keys == b.Keys;
    SameRecords(a, b);
  }

  class Service {
    const store: Memory
    const sched: OrderedScheduler
    const known: set<PoolName>
    // The allocations handed to the back end's cleanup, in order.
    var cleaned: seq<Allocation>

    constructor (store: Memory, sched: OrderedScheduler, known: set<PoolName>)
      ensures this.store == store && this.sched == sched && this.known == known && cleaned == []
    {
      this.store, this.sched, this.known := store, sched, known;
      cleaned := [];
    }

    method ReleaseWithCleanup(a: Allocation)
      modifies this`cleaned, sched
      ensures Releases(old(sched.View()), a.pool, a.backend, sched.View())
      ensures cleaned == old(cleaned) + [a]
    {
      sched.Release(a.pool, a.backend);
      cleaned := cleaned + [a];
    }

    /** Cancels an allocation. rivals say what others make of its record, turn by turn, before each swap and
        before each new read; turns is how many of them came about. */
    method Cancel(id: AllocationId, now: Time, rivals: seq<Option<Allocation>>)
      returns (result: CancelResult, ghost turns: nat)
      modifies this`cleaned, store`allocations, sched
      ensures turns <= |rivals|
      // What the others left decides, and is what is closed and released.
      ensures var left := LeftAfter(old(store.allocations), id, rivals, turns);
              match result
              case NotFound => id !in left && store.allocations == left
              case AlreadyTerminal => id in left && left[id].state.Terminal() && store.allocations == left
              case Won => id in left && !left[id].state.Terminal()
                          && store.allocations == Marked(left, id, Canceled, now, "")
      // The slot is given back, and the runner cleaned up, by the call that wins, once.
      ensures if result == Won && store.allocations[id].pool in known
              then Releases(old(sched.View()), store.allocations[id].pool, store.allocations[id].backend, sched.View())
                   && cleaned == old(cleaned) + [store.allocations[id]]
              else sched.View() == old(sched.View()) && cleaned == old(cleaned)
      // A record that is missing or closed is left at once.
      ensures id !in old(store.allocations) || old(store.allocations)[id].state.Terminal() ==> turns == 0
    {
      turns := 0;
      var i := 0;
      ghost var before := store.allocations;
      while true
        invariant 0 <= i <= |rivals| && turns == i
        invariant store.allocations == LeftAfter(before, id, rivals, i)
        invariant i > 0 ==> id in before && !before[id].state.Terminal()
        invariant sched.View() == old(sched.View()) && cleaned == old(cleaned)
        decreases |rivals| - i
      {
        if id !in store.allocations { return NotFound, turns; }
        var status := store.allocations[id];
        if status.state.Terminal() { return AlreadyTerminal, turns; }
        if i < |rivals| {
          LastTurnCounts(before, id, rivals, i);
          store.allocations := Left(store.allocations, id, rivals[i]);
          i, turns := i + 1, turns + 1;
        }
        var ok := store.CompareAndMarkState(id, status.state, Canceled, now, "");
        if ok {
          var updated := store.allocations[id];
          if updated.pool in known { ReleaseWithCleanup(updated); }
          return Won, turns;
        }
        if i < |rivals| {
          LastTurnCounts(before, id, rivals, i);
          store.allocations := Left(store.allocations, id, rivals[i]);
          i, turns := i + 1, turns + 1;
        }
      }
    }

    /** The provider failed: the reservation is given up, once, unless someone else has closed it. */
    method AbandonReserved(id: AllocationId, target: State, now: Time, message: string) returns (abandoned: bool)
      requires target.Terminal()
      modifies this`cleaned, store`allocations, sched
      ensures abandoned == InState(old(store.allocations), id, Reserved)
      ensures store.allocations == if abandoned then Marked(old(store.allocations), id, target, now, message)
                                   else old(store.allocations)
      ensures if abandoned
              then Releases(old(sched.View()), old(store.allocations)[id].pool, old(store.allocations)[id].backend,
                            sched.View())
                   && cleaned == old(cleaned) + [store.allocations[id]]
              else sched.View() == old(sched.View()) && cleaned == old(cleaned)
    {
      abandoned := store.CompareAndMarkState(id, Reserved, target, now, message);
      if abandoned { ReleaseWithCleanup(store.allocations[id]); }
    }

    /** The provider answered with a runner for a. The record becomes ready while it is still reserved;
        otherwise the runner is torn down under its own label, and no slot is given back. */
    method CommitProvisioned(a: Allocation, name: string, runnerId: Option<int>) returns (ready: bool)
      modifies this`cleaned, store`allocations
      ensures ready == InState(old(store.allocations), a.id, Reserved)
      ensures var placed := a.(runnerLabel := name, runnerId := runnerId, state := Ready);
              if ready then store.allocations == old(store.allocations)[a.id := placed] && cleaned == old(cleaned)
              else && store.allocations == old(store.allocations)
                   && |cleaned| == |old(cleaned)| + 1 && cleaned[..|old(cleaned)|] == old(cleaned)
                   && var torn := cleaned[|old(cleaned)|];
                      && torn.id == a.id && torn.backend == a.backend
                      && torn.runnerLabel == name && torn.runnerId == runnerId
                      && torn.state == if a.id in store.allocations then store.allocations[a.id].state else Canceled
    {
      var placed := a.(runnerLabel := name, runnerId := runnerId, state := Ready);
      ready := store.SaveIfState(placed, Reserved);
      if ready { return; }
      var torn := placed;
      if a.id in store.allocations {
        var current := store.allocations[a.id];
        torn := torn.(state := current.state);
        if torn.error == "" { torn := torn.(error := current.error); }
      } else {
        torn := torn.(state := Canceled);
      }
      cleaned := cleaned + [torn];
    }
  }
}
