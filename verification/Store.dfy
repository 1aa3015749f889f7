/** The in-memory allocation store: compare-and-swap transitions, admission under
    capacity limits, retention pruning and the leader lease. */
module Store {
  import opened Basics
  import opened Model

  type Records = map<AllocationId, Allocation>

  // ------------------------------------------------------------------- operations

  /** A state change. Expiring or quarantining a record also stamps its deadline. */
  function ApplyMark(a: Allocation, state: State, now: Time, message: string): Allocation {
    var b := a.(state := state, error := if message != "" then message else a.error);
    if state == Expired || state == Quarantined then b.(expiresAt := Some(now)) else b
  }

  function Marked(m: Records, id: AllocationId, state: State, now: Time, message: string): Records {
    if id in m then m[id := ApplyMark(m[id], state, now, message)] else m
  }

  lemma SameRecords(a: Records, b: Records)
    requires a.Keys == b.Keys && forall id <- a :: a[id] == b[id]
    ensures a == b
  {
    forall id | id in a ensures id in b && a[id] == b[id] {}
  }

  predicate InState(m: Records, id: AllocationId, state: State) { id in m && m[id].state == state }

  ghost function InUse(pool: PoolName, backend: BackendName): Allocation -> bool {
    (a: Allocation) => a.pool == pool && a.backend == backend && a.state.Accounted()
  }

  ghost function InUseOn(backend: BackendName): Allocation -> bool {
    (a: Allocation) => a.backend == backend && a.state.Accounted()
  }

  ghost function InUseBy(pool: PoolName, tenant: string): Allocation -> bool {
    (a: Allocation) => a.pool == pool && a.state.Accounted() && StoreTenant(a.tenant) == tenant
  }

  ghost function Uses(m: Records, p: Allocation -> bool): nat { |Where(m, p)| }

  /** Every limit that is set leaves room for one more record besides a itself. */
  ghost predicate Fits(m: Records, a: Allocation, maxRunners: int, tenantQuota: int, backendLimit: int) {
    && (maxRunners > 0 ==> Uses(m - {a.id}, InUse(a.pool, a.backend)) < maxRunners)
    && (backendLimit > 0 ==> Uses(m - {a.id}, InUseOn(a.backend)) < backendLimit)
    && (tenantQuota > 0 ==> Uses(m - {a.id}, InUseBy(a.pool, StoreTenant(a.tenant))) < tenantQuota)
  }

  /** Terminal records whose age anchor is missing or older than the retention. */
  predicate Prunable(a: Allocation, now: Time, retention: int) {
    && a.state.Terminal()
    && (Anchor(a).None? || Anchor(a).value <= now - retention)
  }

  function Anchor(a: Allocation): Option<Time> {
    if a.createdAt.Some? then a.createdAt else a.expiresAt
  }

  function PrunableIds(m: Records, now: Time, retention: int): set<AllocationId> {
    set id | id in m && Prunable(m[id], now, retention)
  }

  // -------------------------------------------------------------------- the leases

  datatype Lease = Lease(holder: string, expiresAt: Time)

  const DEFAULT_TTL := 15

  function EffectiveTtl(ttl: int): int { if ttl <= 0 then DEFAULT_TTL else ttl }

  /** Someone else holds an unexpired lease. */
  predicate Barred(leader: map<string, Lease>, name: string, identity: string, now: Time) {
    name in leader && leader[name].expiresAt > now && leader[name].holder != identity
  }

  // ------------------------------------------------------------------------ counting

  method CountActive(m: Records, pool: PoolName, backend: BackendName, exclude: set<AllocationId>) returns (n: nat)
    ensures n == Uses(m - exclude, InUse(pool, backend))
  {
    n := 0;
    ghost var p, live := InUse(pool, backend), m - exclude;
    ghost var hits := {};
    var rest := m.Keys;
    while rest != {}
      invariant rest <= m.Keys && n == |hits|
      invariant hits == set id | id in live && id !in rest && p(live[id])
      decreases rest
    {
      var id := NextKey(rest);
      rest := rest - {id};
      if id in exclude { continue; }
      var a := m[id];
      if a.pool != pool || a.backend != backend { continue; }
      if a.state.Accounted() {
        n, hits := n + 1, hits + {id};
      }
    }
    assert hits == Where(live, p);
  }

  method CountBackendActive(m: Records, backend: BackendName, exclude: set<AllocationId>) returns (n: nat)
    ensures n == Uses(m - exclude, InUseOn(backend))
  {
    n := 0;
    ghost var p, live := InUseOn(backend), m - exclude;
    ghost var hits := {};
    var rest := m.Keys;
    while rest != {}
      invariant rest <= m.Keys && n == |hits|
      invariant hits == set id | id in live && id !in rest && p(live[id])
      decreases rest
    {
      var id := NextKey(rest);
      rest := rest - {id};
      if id in exclude { continue; }
      if m[id].backend != backend { continue; }
      if m[id].state.Accounted() {
        n, hits := n + 1, hits + {id};
      }
    }
    assert hits == Where(live, p);
  }

  method CountTenantActive(m: Records, pool: PoolName, tenant: string, exclude: set<AllocationId>) returns (n: nat)
    ensures n == Uses(m - exclude, InUseBy(pool, StoreTenant(tenant)))
  {
    var name := StoreTenant(tenant);
    n := 0;
    ghost var p, live := InUseBy(pool, name), m - exclude;
    ghost var hits := {};
    var rest := m.Keys;
    while rest != {}
      invariant rest <= m.Keys && n == |hits|
      invariant hits == set id | id in live && id !in rest && p(live[id])
      decreases rest
    {
      var id := NextKey(rest);
      rest := rest - {id};
      if id in exclude { continue; }
      if m[id].pool != pool { continue; }
      if !m[id].state.Accounted() { continue; }
      if StoreTenant(m[id].tenant) == name {
        n, hits := n + 1, hits + {id};
      }
    }
    assert hits == Where(live, p);
  }

  method CapacityAllowed(m: Records, a: Allocation, maxRunners: int, tenantQuota: int, backendLimit: int)
    returns (ok: bool)
    ensures ok == Fits(m, a, maxRunners, tenantQuota, backendLimit)
  {
    if maxRunners > 0 {
      var active := CountActive(m, a.pool, a.backend, {a.id});
      if active >= maxRunners { return false; }
    }
    if backendLimit > 0 {
      var active := CountBackendActive(m, a.backend, {a.id});
      if active >= backendLimit { return false; }
    }
    if tenantQuota > 0 {
      var active := CountTenantActive(m, a.pool, a.tenant, {a.id});
      if active >= tenantQuota { return false; }
    }
    return true;
  }

  method CollectPrunableIds(m: Records, now: Time, retention: int) returns (ids: set<AllocationId>)
    ensures ids == if retention <= 0 then {} else PrunableIds(m, now, retention)
  {
    ids := {};
    if retention <= 0 { return; }
    var cutoff := now - retention;
    var rest := m.Keys;
    while rest != {}
      invariant rest <= m.Keys
      invariant ids == set id | id in m && id !in rest && Prunable(m[id], now, retention)
      decreases rest
    {
      var id := NextKey(rest);
      rest := rest - {id};
      if !m[id].state.Terminal() { continue; }
      var anchor := Anchor(m[id]);
      if anchor.None? || !(anchor.value > cutoff) { ids := ids + {id}; }
    }
  }

  class Memory {
    var allocations: Records
    var leader: map<string, Lease>

    constructor ()
      ensures allocations == map[] && leader == map[]
    {
      allocations, leader := map[], map[];
    }

    method Save(a: Allocation)
      modifies `allocations
      ensures allocations == old(allocations)[a.id := a]
    {
      allocations := allocations[a.id := a];
    }

    method Delete(id: AllocationId)
      modifies `allocations
      ensures allocations == old(allocations) - {id}
    {
      allocations := allocations - {id};
    }

    method MarkState(id: AllocationId, state: State, now: Time, message: string) returns (ok: bool)
      modifies `allocations
      ensures ok == (id in old(allocations))
      ensures allocations == Marked(old(allocations), id, state, now, message)
    {
      if id !in allocations { return false; }
      allocations := allocations[id := ApplyMark(allocations[id], state, now, message)];
      return true;
    }

    method CompareAndMarkState(id: AllocationId, from: State, to: State, now: Time, message: string) returns (ok: bool)
      modifies `allocations
      ensures ok == InState(old(allocations), id, from)
      ensures allocations == if ok then Marked(old(allocations), id, to, now, message) else old(allocations)
    {
      if id !in allocations || allocations[id].state != from { return false; }
      allocations := allocations[id := ApplyMark(allocations[id], to, now, message)];
      return true;
    }

    method SaveIfState(a: Allocation, from: State) returns (ok: bool)
      modifies `allocations
      ensures ok == InState(old(allocations), a.id, from)
      ensures allocations == if ok then old(allocations)[a.id := a] else old(allocations)
    {
      if a.id !in allocations || allocations[a.id].state != from { return false; }
      allocations := allocations[a.id := a];
      return true;
    }

    method SaveIfCapacity(a: Allocation, maxRunners: int, tenantQuota: int, backendLimit: int) returns (ok: bool)
      modifies `allocations
      ensures ok == Fits(old(allocations), a, maxRunners, tenantQuota, backendLimit)
      ensures allocations == if ok then old(allocations)[a.id := a] else old(allocations)
    {
      ok := CapacityAllowed(allocations, a, maxRunners, tenantQuota, backendLimit);
      if ok { allocations := allocations[a.id := a]; }
    }

    method PruneTerminal(now: Time, retention: int) returns (n: nat)
      modifies `allocations
      ensures var gone := if retention <= 0 then {} else PrunableIds(old(allocations), now, retention);
              n == |gone| && allocations == old(allocations) - gone
    {
      if retention <= 0 {
        assert allocations == allocations - {};
        return 0;
      }
      var ids := CollectPrunableIds(allocations, now, retention);
      ghost var before := allocations;
      var rest := ids;
      while rest != {}
        invariant rest <= ids
        invariant allocations == before - (ids - rest)
        decreases rest
      {
        var id := NextKey(rest);
        allocations := allocations - {id};
        rest := rest - {id};
        assert before - (ids - rest) == before - (ids - (rest + {id})) - {id};
      }
      assert ids - {} == ids;
      return |ids|;
    }

    method TryAcquireLeadership(name: string, identity: string, ttl: int, now: Time) returns (ok: bool)
      modifies `leader
      ensures ok == !Barred(old(leader), name, identity, now)
      ensures leader == if ok then old(leader)[name := Lease(identity, now + EffectiveTtl(ttl))] else old(leader)
    {
      var lifetime := ttl;
      if lifetime <= 0 { lifetime := DEFAULT_TTL; }
      if name in leader && leader[name].expiresAt > now && leader[name].holder != identity { return false; }
      leader := leader[name := Lease(identity, now + lifetime)];
      return true;
    }

    method ReleaseLeadership(name: string, identity: string)
      modifies `leader
      ensures leader == if name in old(leader) && old(leader)[name].holder == identity then old(leader) - {name}
                        else old(leader)
    {
      if name !in leader || leader[name].holder != identity { return; }
      leader := leader - {name};
    }
  }

  // ----------------------------------------------------------- capacity over runs

  /** One store call as the capacity accounting sees it. Only an admission is checked against limits;
      a put writes a record as it is, as new warm runners and finished handoffs do. */
  datatype Change =
    | Admit(record: Allocation, maxRunners: int, tenantQuota: int, backendLimit: int)
    | Mark(id: AllocationId, state: State, now: Time, message: string)
    | Put(record: Allocation)
    | Drop(ids: set<AllocationId>)

  ghost function Changed(m: Records, c: Change): Records {
    match c
    case Admit(a, maxRunners, tenantQuota, backendLimit) =>
      if Fits(m, a, maxRunners, tenantQuota, backendLimit) then m[a.id := a] else m
    case Mark(id, state, now, message) => Marked(m, id, state, now, message)
    case Put(a) => m[a.id := a]
    case Drop(ids) => m - ids
  }

  /** An admission that p would count was checked against a limit of at most k on p. */
  ghost predicate Checked(p: Allocation -> bool, k: int, c: Change) {
    c.Admit? && p(c.record) ==>
      || (0 < c.maxRunners <= k && p == InUse(c.record.pool, c.record.backend))
      || (0 < c.backendLimit <= k && p == InUseOn(c.record.backend))
      || (0 < c.tenantQuota <= k && p == InUseBy(c.record.pool, StoreTenant(c.record.tenant)))
  }

  /** Writing a under id is counted already, is not counted, or finds room under the limit. */
  ghost predicate Affords(m: Records, p: Allocation -> bool, k: int, id: AllocationId, a: Allocation) {
    !p(a) || (id in m && p(m[id])) || Uses(m, p) < k
  }

  /** The change is affordable, where nothing in the store checks it. */
  ghost predicate WithinLimit(m: Records, p: Allocation -> bool, k: int, c: Change) {
    match c
    case Put(a) => Affords(m, p, k, a.id, a)
    case Mark(id, state, now, message) => id in m ==> Affords(m, p, k, id, ApplyMark(m[id], state, now, message))
    case _ => true
  }

  lemma SubsetCount(m: Records, ids: set<AllocationId>, p: Allocation -> bool)
    ensures Uses(m - ids, p) <= Uses(m, p)
  {
    assert Where(m - ids, p) <= Where(m, p);
    SubsetSize(Where(m - ids, p), Where(m, p));
  }

  lemma {:induction false} SubsetSize<T>(a: set<T>, b: set<T>)
    requires a <= b
    ensures |a| <= |b|
  {
    assert b == a + (b - a);
  }

  /** One change keeps a limit that checked admissions respect if and only if it is affordable: a mark
      or a put that brings a record into the count is the only way past it. */
  lemma ChangeKeepsLimit(m: Records, c: Change, p: Allocation -> bool, k: nat)
    requires Checked(p, k, c) && Uses(m, p) <= k
    ensures Uses(Changed(m, c), p) <= k <==> WithinLimit(m, p, k, c)
  {
    match c
    case Admit(a, maxRunners, tenantQuota, backendLimit) =>
      if Fits(m, a, maxRunners, tenantQuota, backendLimit) {
        WhereUpdate(m, a.id, a, p);
        WhereRemove(m, a.id, p);
      }
    case Mark(id, state, now, message) =>
      if id in m { WhereUpdate(m, id, ApplyMark(m[id], state, now, message), p); }
    case Put(a) => WhereUpdate(m, a.id, a, p);
    case Drop(ids) => SubsetCount(m, ids, p);
  }

  ghost function After(m: Records, cs: seq<Change>): Records {
    if cs == [] then m else Changed(After(m, cs[..|cs| - 1]), cs[|cs| - 1])
  }

  /** The limit holds after every call of the run. */
  ghost predicate HoldsThroughout(m: Records, cs: seq<Change>, p: Allocation -> bool, k: int) {
    Uses(After(m, cs), p) <= k && (cs != [] ==> HoldsThroughout(m, cs[..|cs| - 1], p, k))
  }

  /** Every mark and put of the run was affordable when it happened. */
  ghost predicate Affordable(m: Records, cs: seq<Change>, p: Allocation -> bool, k: int) {
    cs != [] ==>
      && Affordable(m, cs[..|cs| - 1], p, k)
      && WithinLimit(After(m, cs[..|cs| - 1]), p, k, cs[|cs| - 1])
  }

  /** However store calls interleave, a limit that every admission is checked against holds throughout
      a run if and only if every put and mark in it is affordable when it happens. */
  lemma {:induction false} NeverOverAdmitted(m: Records, cs: seq<Change>, p: Allocation -> bool, k: nat)
    requires Uses(m, p) <= k && forall c <- cs :: Checked(p, k, c)
    ensures HoldsThroughout(m, cs, p, k) <==> Affordable(m, cs, p, k)
  {
    if cs != [] {
      var n := |cs| - 1;
      assert cs[n] in cs;
      NeverOverAdmitted(m, cs[..n], p, k);
      if HoldsThroughout(m, cs[..n], p, k) { ChangeKeepsLimit(After(m, cs[..n]), cs[n], p, k); }
    }
  }

  const LIVE := Allocation(0, 0, 0, "", "", Ready, "", None, None, None, None, "", None, None, 0, None, None)

  /** A warm runner is saved without a look at the limits: one slot is allowed, an admitted record takes
      it, the store would refuse another, and the warm one is written all the same. */
  lemma PrewarmPassesTheLimit(cold: Allocation, warm: Allocation)
    requires cold == LIVE && warm == LIVE.(id := 1, state := Warm)
    ensures var p, admitted := InUse(0, 0), After(map[], [Admit(cold, 1, 0, 0)]);
            && Uses(admitted, p) == 1 && !Fits(admitted, warm, 1, 0, 0)
            && Uses(After(map[], [Admit(cold, 1, 0, 0), Put(warm)]), p) == 2
  {
    var p, none := InUse(0, 0), map[];
    EmptyFits(cold, 1, 0, 0);
    assert [Admit(cold, 1, 0, 0)][..0] == [];
    assert [Admit(cold, 1, 0, 0), Put(warm)][..1] == [Admit(cold, 1, 0, 0)];
    var admitted := none[0 := cold];
    assert After(none, [Admit(cold, 1, 0, 0)]) == admitted;
    assert admitted - {1} == admitted;
    WhereUpdate(none, 0, cold, p);
    WhereUpdate(admitted, 1, warm, p);
    assert Where(none, p) == {};
  }

  /** A handoff deletes the consumer's reservation before it writes the warm runner over to the
      consumer's tenant: in between another request of that tenant takes the last of its quota. */
  lemma HandoffPassesTheQuota(cold: Allocation, warm: Allocation, other: Allocation)
    requires cold == LIVE.(tenant := "a", state := Reserved) && warm == LIVE.(id := 1)
    requires other == LIVE.(id := 2, tenant := "a")
    ensures var p, before := InUseBy(0, "a"), map[0 := cold, 1 := warm];
            var cs := [Drop({0}), Admit(other, 0, 1, 0), Put(warm.(tenant := "a"))];
            && Uses(before, p) == 1 && Checked(p, 1, cs[1]) && Uses(After(before, cs[..2]), p) == 1
            && Uses(After(before, cs), p) == 2
  {
    assert StoreTenant("a") == "a" && StoreTenant("") == "default";
    var p, before := InUseBy(0, "a"), map[0 := cold, 1 := warm];
    var taken := warm.(tenant := "a");
    var cs := [Drop({0}), Admit(other, 0, 1, 0), Put(taken)];
    assert cs[..1][..0] == [] && cs[..2][..1] == cs[..1] && cs[..3] == cs && cs[..3][..2] == cs[..2];
    var left := map[1 := warm];
    assert before - {0} == left && left - {2} == left;
    assert After(before, cs[..1]) == left;
    assert Where(before, p) == {0} && Where(left, p) == {};
    assert After(before, cs[..2]) == left[2 := other];
    assert Where(left[2 := other], p) == {2};
    assert After(before, cs) == left[2 := other][1 := taken];
    assert Where(left[2 := other][1 := taken], p) == {1, 2};
  }

  lemma EmptyFits(a: Allocation, maxRunners: int, tenantQuota: int, backendLimit: int)
    ensures Fits(map[], a, maxRunners, tenantQuota, backendLimit)
  {
    forall p: Allocation -> bool ensures Uses(map[] - {a.id}, p) == 0 {
      assert Where(map[] - {a.id}, p) == {};
    }
  }

  /** Pruning removes terminal records only, so no count of used capacity changes. */
  lemma PruningFreesNothing(m: Records, now: Time, retention: int, p: Allocation -> bool)
    requires forall a: Allocation | p(a) :: a.state.Accounted()
    ensures Uses(m - PrunableIds(m, now, retention), p) == Uses(m, p)
    ensures forall id <- m | !m[id].state.Terminal() :: id in m - PrunableIds(m, now, retention)
  {
    var kept := m - PrunableIds(m, now, retention);
    forall id ensures id in Where(kept, p) <==> id in Where(m, p) {
      if id in m && p(m[id]) { assert m[id].state.Accounted(); }
    }
    assert Where(kept, p) == Where(m, p);
  }

  // ----------------------------------------------------------- leases over runs

  datatype LeaseEvent =
    | Acquire(name: string, identity: string, ttl: int, now: Time)
    | Resign(name: string, identity: string, now: Time)

  function AfterLease(leader: map<string, Lease>, e: LeaseEvent): map<string, Lease> {
    match e
    case Acquire(name, identity, ttl, now) =>
      if Barred(leader, name, identity, now) then leader
      else leader[name := Lease(identity, now + EffectiveTtl(ttl))]
    case Resign(name, identity, _) =>
      if name in leader && leader[name].holder == identity then leader - {name} else leader
  }

  function Leases(leader: map<string, Lease>, es: seq<LeaseEvent>): map<string, Lease> {
    if es == [] then leader else AfterLease(Leases(leader, es[..|es| - 1]), es[|es| - 1])
  }

  predicate Wins(leader: map<string, Lease>, e: LeaseEvent) {
    e.Acquire? && !Barred(leader, e.name, e.identity, e.now)
  }

  /** A lease is exclusive for its whole lifetime: once A has acquired it, nobody else
      acquires it before it runs out, unless A itself acts on it in between. */
  lemma {:induction false} LeaseIsExclusive(leader: map<string, Lease>, a: LeaseEvent, es: seq<LeaseEvent>,
                                            b: LeaseEvent)
    requires Wins(leader, a)
    requires forall e <- es :: !(e.name == a.name && e.identity == a.identity) && a.now <= e.now <= b.now
    requires b.name == a.name && b.identity != a.identity
    requires Wins(Leases(AfterLease(leader, a), es), b)
    ensures b.now >= a.now + EffectiveTtl(a.ttl)
  {
    if b.now < a.now + EffectiveTtl(a.ttl) {
      HeldThroughout(AfterLease(leader, a), es, a);
      assert false;
    }
  }

  lemma {:induction false} HeldThroughout(leader: map<string, Lease>, es: seq<LeaseEvent>, a: LeaseEvent)
    requires a.Acquire? && a.name in leader
    requires leader[a.name] == Lease(a.identity, a.now + EffectiveTtl(a.ttl))
    requires forall e <- es :: !(e.name == a.name && e.identity == a.identity) && e.now < a.now + EffectiveTtl(a.ttl)
    ensures a.name in Leases(leader, es) && Leases(leader, es)[a.name] == leader[a.name]
  {
    if es != [] {
      var n := |es| - 1;
      HeldThroughout(leader, es[..n], a);
      assert es[n] in es;
    }
  }
}
