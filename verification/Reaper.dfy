/** Completing one allocation and sweeping all of them: each call is one atomic step
    over the store and the scheduler. */
module Reaper {
  import opened Basics
  import opened Model
  import opened Rotation
  import opened Store

  const DEFAULT_REGISTRATION_TIMEOUT := 600

  /** The reaper's settings. known are the pools that still resolve, fixedLabels the backends whose
      runners carry one static label; quarantine is unset when expiry is final at once. */
  datatype Policy = Policy(
    grace: int, quarantine: Option<int>, retention: int,
    known: set<PoolName>, fixedLabels: set<Slot>,
    backendTimeout: map<Slot, int>, brokerTimeout: int)

  datatype Verdict = Keep | Unregistered | Overdue | QuarantineOver

  function SlotOf(a: Allocation): Slot { Slot(a.pool, a.backend) }

  function Grace(policy: Policy): nat { Max(0, policy.grace) }

  function RegistrationTimeout(policy: Policy, a: Allocation): (t: int)
    ensures t > 0
  {
    if a.origin.Some? && a.origin.value.registrationTimeout > 0 then a.origin.value.registrationTimeout
    else if a.pool in policy.known && Get(policy.backendTimeout, SlotOf(a)) > 0 then policy.backendTimeout[SlotOf(a)]
    else if policy.brokerTimeout > 0 then policy.brokerTimeout
    else DEFAULT_REGISTRATION_TIMEOUT
  }

  /** When the record was created, or the best estimate for records that never said. */
  function Born(a: Allocation): Option<Time> {
    if a.createdAt.Some? then a.createdAt
    else if a.expiresAt.Some? && a.origin.Some? && a.origin.value.jobTimeout > 0
    then Some(a.expiresAt.value - a.origin.value.jobTimeout)
    else a.expiresAt
  }

  /** No runner has answered for the record: none claimed it, nor registered where that suffices. */
  predicate Silent(policy: Policy, a: Allocation) {
    if a.pool in policy.known && SlotOf(a) in policy.fixedLabels then a.claimedAt.None?
    else a.registeredAt.None? && a.claimedAt.None?
  }

  predicate PastDeadline(policy: Policy, a: Allocation, now: Time) {
    a.expiresAt.Some? && a.expiresAt.value + Grace(policy) <= now
  }

  function Judge(policy: Policy, a: Allocation, now: Time): Verdict {
    if a.state.Active() then
      if Born(a).Some? && Born(a).value + RegistrationTimeout(policy, a) <= now && Silent(policy, a) then Unregistered
      else if PastDeadline(policy, a, now) then Overdue
      else Keep
    else if a.state == Quarantined && !(a.expiresAt.Some? && a.expiresAt.value > now) then QuarantineOver
    else Keep
  }

  const NEVER_REGISTERED := "allocation expired before its runner registered or claimed it"
  const NOT_FINALIZED := "stale runner reclaimed: allocation past its deadline"
  const QUARANTINE_OVER := "stale runner quarantine expired"

  /** The deadline and state a verdict stamps on a record. */
  function Sentence(policy: Policy, a: Allocation, now: Time): Allocation {
    match Judge(policy, a, now)
    case Keep => a
    case Unregistered => ApplyMark(a, Expired, now, NEVER_REGISTERED)
    case Overdue =>
      if policy.quarantine.None? then ApplyMark(a, Expired, now, NOT_FINALIZED)
      else ApplyMark(a, Quarantined, now + Max(0, policy.quarantine.value), NOT_FINALIZED)
    case QuarantineOver => ApplyMark(a, Expired, now, QUARANTINE_OVER)
  }

  function Swept(policy: Policy, m: Records, now: Time): Records {
    map id | id in m :: Sentence(policy, m[id], now)
  }

  /** The records whose slot this sweep gives back. */
  ghost function Reclaimed(policy: Policy, now: Time, s: Slot): Allocation -> bool {
    (a: Allocation) => SlotOf(a) == s && a.pool in policy.known
                       && (Judge(policy, a, now) == Unregistered || Judge(policy, a, now) == Overdue)
  }

  /** The scheduler counts exactly the accounted records. */
  ghost predicate Exact(m: Records, active: map<Slot, int>) {
    forall s: Slot :: Get(active, s) == Uses(m, InUse(s.pool, s.backend))
  }

  ghost predicate NonNegative(active: map<Slot, int>) { forall s: Slot :: Get(active, s) >= 0 }

  datatype CompleteResult = Unknown | Done | Unchanged | AlreadyTerminal

  class Broker {
    const store: Memory
    const sched: OrderedScheduler
    const policy: Policy

    constructor (store: Memory, sched: OrderedScheduler, policy: Policy)
      ensures this.store == store && this.sched == sched && this.policy == policy
    {
      this.store, this.sched, this.policy := store, sched, policy;
    }

    /** Marks one allocation terminal on behalf of its client and frees its slot. */
    method Complete(id: AllocationId, target: State, message: string, now: Time) returns (result: CompleteResult)
      requires target.Terminal()
      modifies store`allocations, sched
      ensures result == CompleteOutcome(old(store.allocations), id, target)
      ensures store.allocations == if result == Done then Marked(old(store.allocations), id, target, now, message)
                                   else old(store.allocations)
      ensures if result == Done && Frees(policy, old(store.allocations)[id])
              then Releases(old(sched.View()), old(store.allocations)[id].pool, old(store.allocations)[id].backend,
                            sched.View())
              else sched.View() == old(sched.View())
    {
      if id !in store.allocations { return Unknown; }
      var status := store.allocations[id];
      if status.state.Terminal() {
        if status.state == target { return Unchanged; }
        return AlreadyTerminal;
      }
      var ok := store.MarkState(id, target, now, message);
      if status.state.Active() && status.pool in policy.known {
        sched.Release(status.pool, status.backend);
      }
      return Done;
    }

    /** Moves one listed record along; only active records give a slot back. */
    method SweepOne(id: AllocationId, status: Allocation, now: Time) returns (ghost freed: bool)
      requires id in store.allocations && store.allocations[id] == status
      modifies store`allocations, sched
      ensures store.allocations == old(store.allocations)[id := Sentence(policy, status, now)]
      ensures freed == Reclaimed(policy, now, SlotOf(status))(status)
      ensures if freed then Releases(old(sched.View()), status.pool, status.backend, sched.View())
              else sched.View() == old(sched.View())
    {
      freed := false;
      if status.state.Active() {
        var createdAt := Born(status);
        if createdAt.Some? && createdAt.value + RegistrationTimeout(policy, status) <= now && Silent(policy, status) {
          var ok := store.MarkState(id, Expired, now, NEVER_REGISTERED);
          if status.pool in policy.known {
            sched.Release(status.pool, status.backend);
            freed := true;
          }
          return;
        }
        if status.expiresAt.None? || status.expiresAt.value + Max(0, policy.grace) > now {
          assert store.allocations == old(store.allocations)[id := status];
          return;
        }
        var nextState, nextExpiresAt := Expired, now;
        if policy.quarantine.Some? {
          nextState := Quarantined;
          if policy.quarantine.value > 0 { nextExpiresAt := now + policy.quarantine.value; }
        }
        var ok := store.MarkState(id, nextState, nextExpiresAt, NOT_FINALIZED);
        if status.pool in policy.known {
          sched.Release(status.pool, status.backend);
          freed := true;
        }
        return;
      }
      if status.state != Quarantined || (status.expiresAt.Some? && status.expiresAt.value > now) {
        assert store.allocations == old(store.allocations)[id := status];
        return;
      }
      var ok := store.MarkState(id, Expired, now, QUARANTINE_OVER);
    }

    method SweepListed(now: Time)
      requires NonNegative(sched.active)
      modifies store`allocations, sched
      ensures store.allocations == Swept(policy, old(store.allocations), now)
      ensures sched.cursors == old(sched.cursors)
      ensures GivenBack(policy, now, old(store.allocations), old(sched.active), sched.active)
    {
      ghost var before := store.allocations;
      var listed := store.allocations;
      var rest := listed.Keys;
      SweepStart(policy, now, before, sched.active);
      while rest != {}
        invariant rest <= before.Keys
        invariant SweptBut(policy, now, before, rest, store.allocations)
        invariant sched.cursors == old(sched.cursors)
        invariant GivenBack(policy, now, before - rest, old(sched.active), sched.active)
        decreases rest
      {
        var id := NextKey(rest);
        ghost var view := sched.View();
        var freed := SweepOne(id, listed[id], now);
        OneMoreGivenBack(policy, now, before - rest, id, listed[id], old(sched.active), view, sched.View());
        assert (before - rest)[id := before[id]] == before - (rest - {id});
        rest := rest - {id};
      }
      SweepEnd(policy, now, before, rest, store.allocations);
    }

    /** Reclaims every runner that is overdue, then drops terminal records past retention. */
    method SweepExpired(now: Time)
      requires NonNegative(sched.active)
      modifies store`allocations, sched
      ensures var swept := Swept(policy, old(store.allocations), now);
              store.allocations == if policy.retention <= 0 then swept
                                   else swept - PrunableIds(swept, now, policy.retention)
      ensures sched.cursors == old(sched.cursors)
      ensures GivenBack(policy, now, old(store.allocations), old(sched.active), sched.active)
    {
      SweepListed(now);
      assert policy.retention <= 0 ==> store.allocations == store.allocations - {};
      var pruned := store.PruneTerminal(now, policy.retention);
    }
  }

  /** active' is active after one release for every record of m that the sweep reclaims. */
  ghost predicate GivenBack(policy: Policy, now: Time, m: Records, active: map<Slot, int>, active': map<Slot, int>) {
    forall s: Slot :: Get(active', s) == Max(0, Get(active, s) - Uses(m, Reclaimed(policy, now, s)))
  }

  /** The records of m, all but those in rest with their sentence. */
  ghost predicate SweptBut(policy: Policy, now: Time, m: Records, rest: set<AllocationId>, m': Records) {
    && m'.Keys == m.Keys
    && forall id <- m :: m'[id] == if id in rest then m[id] else Sentence(policy, m[id], now)
  }

  lemma SweepStart(policy: Policy, now: Time, m: Records, active: map<Slot, int>)
    requires NonNegative(active)
    ensures SweptBut(policy, now, m, m.Keys, m) && GivenBack(policy, now, m - m.Keys, active, active)
  {
    assert m - m.Keys == map[];
  }

  lemma SweepEnd(policy: Policy, now: Time, m: Records, rest: set<AllocationId>, m': Records)
    requires rest == {} && SweptBut(policy, now, m, rest, m')
    ensures m' == Swept(policy, m, now) && m - rest == m
  {
    SameRecords(m', Swept(policy, m, now));
  }

  lemma OneMoreGivenBack(policy: Policy, now: Time, m: Records, id: AllocationId, a: Allocation,
                         start: map<Slot, int>, v: Counters, v': Counters)
    requires id !in m && GivenBack(policy, now, m, start, v.active)
    requires if Reclaimed(policy, now, SlotOf(a))(a) then Releases(v, a.pool, a.backend, v') else v' == v
    ensures GivenBack(policy, now, m[id := a], start, v'.active)
  {
    forall s: Slot
      ensures Get(v'.active, s) == Max(0, Get(start, s) - Uses(m[id := a], Reclaimed(policy, now, s)))
    {
      WhereUpdate(m, id, a, Reclaimed(policy, now, s));
      assert Get(v.active, s) == Max(0, Get(start, s) - Uses(m, Reclaimed(policy, now, s)));
    }
  }

  function CompleteOutcome(m: Records, id: AllocationId, target: State): CompleteResult {
    if id !in m then Unknown
    else if m[id].state.Terminal() then (if m[id].state == target then Unchanged else AlreadyTerminal)
    else Done
  }

  predicate Frees(policy: Policy, a: Allocation) { a.state.Active() && a.pool in policy.known }

  // ------------------------------------------------------------------- after a sweep

  /** No reserved or ready record is left past its deadline and grace. */
  lemma NothingOverdue(policy: Policy, m: Records, now: Time, id: AllocationId)
    requires id in Swept(policy, m, now) && Swept(policy, m, now)[id].state.Active()
    ensures !PastDeadline(policy, Swept(policy, m, now)[id], now)
    ensures Swept(policy, m, now)[id] == m[id]
  {
  }

  /** A record leaves use only by being reclaimed, and terminal records only ever move
      from quarantine to expired, giving nothing back a second time. */
  lemma SweepOnlyCloses(policy: Policy, m: Records, now: Time, id: AllocationId)
    requires id in m
    ensures var a, b := m[id], Swept(policy, m, now)[id];
            && (a.state.Terminal() ==> b.state.Terminal())
            && (a.state.Terminal() && b != a ==> a.state == Quarantined && b.state == Expired)
            && (a.state.Terminal() ==> !Reclaimed(policy, now, SlotOf(a))(a))
            && (b.state.Accounted() <==> a.state.Accounted() && Judge(policy, a, now) == Keep)
            && (a.state in {Pending, Warm} ==> b == a)
            && b.runnerLabel == a.runnerLabel && SlotOf(b) == SlotOf(a)
  {
  }

  /** What one sweep reclaimed no later sweep reclaims again. */
  lemma ReclaimedOnce(policy: Policy, m: Records, now: Time, later: Time, id: AllocationId)
    requires id in m && Reclaimed(policy, now, SlotOf(m[id]))(m[id])
    ensures var b := Swept(policy, m, now)[id];
            b.state.Terminal() && !Reclaimed(policy, later, SlotOf(b))(b)
  {
  }

  lemma SweepSplitsUse(policy: Policy, m: Records, now: Time, s: Slot)
    requires forall id <- m | m[id].state.Active() :: m[id].pool in policy.known
    ensures Uses(m, InUse(s.pool, s.backend))
            == Uses(m, Reclaimed(policy, now, s)) + Uses(Swept(policy, m, now), InUse(s.pool, s.backend))
  {
    var m' := Swept(policy, m, now);
    var used, gone, left := Where(m, InUse(s.pool, s.backend)), Where(m, Reclaimed(policy, now, s)),
                            Where(m', InUse(s.pool, s.backend));
    forall id <- m
      ensures id in used <==> id in gone || id in left
      ensures !(id in gone && id in left)
    {
      SweepOnlyCloses(policy, m, now, id);
    }
    assert used == gone + left && gone !! left;
  }

  /** A sweep keeps scheduler and store in step, as long as every pool still resolves. */
  lemma SweepKeepsExact(policy: Policy, m: Records, now: Time, active: map<Slot, int>, active': map<Slot, int>)
    requires Exact(m, active)
    requires forall id <- m | m[id].state.Active() :: m[id].pool in policy.known
    requires GivenBack(policy, now, m, active, active')
    ensures Exact(Swept(policy, m, now), active')
  {
    forall s: Slot ensures Get(active', s) == Uses(Swept(policy, m, now), InUse(s.pool, s.backend)) {
      SweepSplitsUse(policy, m, now, s);
    }
  }

  /** Pruning afterwards removes no record that is in use. */
  lemma PruningKeepsExact(m: Records, now: Time, retention: int, active: map<Slot, int>)
    requires Exact(m, active)
    ensures Exact(m - PrunableIds(m, now, retention), active)
  {
    forall s: Slot ensures Get(active, s) == Uses(m - PrunableIds(m, now, retention), InUse(s.pool, s.backend)) {
      PruningFreesNothing(m, now, retention, InUse(s.pool, s.backend));
    }
  }

  // -------------------------------------------------------------- after a completion

  /** Completing again with the same state finds the work done and changes nothing;
      asking for another state is refused. */
  lemma CompletingTwice(m: Records, id: AllocationId, target: State, now: Time, message: string, again: State)
    requires target.Terminal() && again.Terminal()
    requires CompleteOutcome(m, id, target) == Done
    ensures CompleteOutcome(Marked(m, id, target, now, message), id, again)
            == if again == target then Unchanged else AlreadyTerminal
  {
  }

  /** A completion keeps scheduler and store in step exactly when it does not hit a warm
      record and the pool of an active record still resolves. */
  lemma CompletionKeepsExact(policy: Policy, m: Records, id: AllocationId, target: State, now: Time, message: string,
                             s: Counters, s': Counters)
    requires target.Terminal() && CompleteOutcome(m, id, target) == Done && Exact(m, s.active)
    requires if Frees(policy, m[id]) then Releases(s, m[id].pool, m[id].backend, s') else s' == s
    ensures Exact(Marked(m, id, target, now, message), s'.active) <==>
            m[id].state != Warm && (m[id].state.Active() ==> m[id].pool in policy.known)
  {
    var a, b, k := m[id], ApplyMark(m[id], target, now, message), SlotOf(m[id]);
    forall q: Slot
      ensures Uses(Marked(m, id, target, now, message), InUse(q.pool, q.backend))
              == Uses(m, InUse(q.pool, q.backend)) - (if q == k && a.state.Accounted() then 1 else 0)
    {
      WhereUpdate(m, id, b, InUse(q.pool, q.backend));
    }
    if a.state.Accounted() {
      assert id in Where(m, InUse(k.pool, k.backend));
      assert Get(s.active, k) > 0;
    }
    if a.state == Warm || (a.state.Active() && a.pool !in policy.known) {
      assert Get(s'.active, k) != Uses(Marked(m, id, target, now, message), InUse(k.pool, k.backend));
    }
  }
}
