/** The two layers of slot accounting: what a successful scheduler reservation
    implies about the store's own capacity check, and where the two disagree. */
module LayerAgreement {
  import opened Basics
  import opened Model
  import opened Rotation
  import opened FairShare
  import Runs = FairShareRuns
  import opened Store

  // ------------------------------------------- the limits a new record is saved under

  function RecordRoom(pool: PoolConfig, a: Allocation): int {
    if a.backend !in pool.backends then 0
    else if pool.fairShare.enabled
    then LaneRoom(pool.backends[a.backend].maxRunners, pool.fairShare, ClassWeight(pool.fairShare, a.priorityClass))
    else pool.backends[a.backend].maxRunners
  }

  function RecordQuota(pool: PoolConfig, a: Allocation): int {
    var name := Fold(StoreTenant(a.tenant));
    if pool.fairShare.enabled && name in pool.fairShare.quotas then pool.fairShare.quotas[name] else 0
  }

  /** shared is the broker-wide limit configured for the backend, if any. */
  function RecordLimit(pool: PoolConfig, a: Allocation, shared: Option<int>): int {
    var own := if a.backend in pool.backends then pool.backends[a.backend].crossPoolMaxRunners else 0;
    if shared.Some? && shared.value > 0 && (own == 0 || shared.value < own) then shared.value else own
  }

  method SaveReservedAllocation(store: Memory, a: Allocation, pool: PoolConfig, shared: Option<int>) returns (ok: bool)
    modifies store`allocations
    ensures ok == Fits(old(store.allocations), a,
                       RecordRoom(pool, a), RecordQuota(pool, a), RecordLimit(pool, a, shared))
    ensures store.allocations == if ok then old(store.allocations)[a.id := a] else old(store.allocations)
  {
    var maxRunners, tenantQuota, backendLimit := 0, 0, 0;
    if a.backend in pool.backends { maxRunners := pool.backends[a.backend].maxRunners; }
    if pool.fairShare.enabled {
      maxRunners := EffectiveMaxRunners(maxRunners, pool.fairShare, a.priorityClass);
      var tenant := Trim(a.tenant);
      if tenant == "" { tenant := "default"; }
      if Fold(tenant) in pool.fairShare.quotas { tenantQuota := pool.fairShare.quotas[Fold(tenant)]; }
    }
    if a.backend in pool.backends { backendLimit := pool.backends[a.backend].crossPoolMaxRunners; }
    if shared.Some? && shared.value > 0 {
      if backendLimit == 0 || shared.value < backendLimit { backendLimit := shared.value; }
    }
    ok := store.SaveIfCapacity(a, maxRunners, tenantQuota, backendLimit);
  }

  // --------------------------------------------------------------------- agreement

  /** Records of a tenant under the scheduler's folded name. */
  ghost function InUseByFolded(pool: PoolName, tenant: string): Allocation -> bool {
    (a: Allocation) => a.pool == pool && a.state.Accounted() && NormalizeTenant(a.tenant) == tenant
  }

  /** The scheduler counts at least every record the store counts. */
  ghost predicate Covers(l: Ledger, m: Records) {
    && (forall p: PoolName, b: BackendName :: Uses(m, InUse(p, b)) <= Get(l.active, Slot(p, b)))
    && (forall b: BackendName :: Uses(m, InUseOn(b)) <= BackendTotal(l.active, b))
    && (forall p: PoolName, t: string :: Uses(m, InUseByFolded(p, t)) <= TenantTotal(l.tenantActive, p, t))
  }

  /** The record a granted request is saved as. */
  predicate RecordOf(a: Allocation, pool: PoolConfig, request: Request, b: BackendName) {
    a.pool == pool.name && a.backend == b && a.tenant == request.tenant && a.priorityClass == request.priorityClass
  }

  /** The store's tenant is never counted higher than the scheduler's. */
  lemma TenantCounts(m: Records, id: AllocationId, pool: PoolName, tenant: string)
    ensures Uses(m - {id}, InUseBy(pool, StoreTenant(tenant))) <= Uses(m, InUseByFolded(pool, NormalizeTenant(tenant)))
  {
    var fine, coarse := InUseBy(pool, StoreTenant(tenant)), InUseByFolded(pool, NormalizeTenant(tenant));
    TenantNamesAgree(tenant);
    forall k | k in Where(m - {id}, fine) ensures k in Where(m, coarse) {
      TenantNamesAgree(m[k].tenant);
    }
    SubsetSize(Where(m - {id}, fine), Where(m, coarse));
  }

  /** A grant leaves room under the quota and the cross-pool limit of the record. */
  lemma GrantLeavesSharedRoom(l: Ledger, m: Records, pool: PoolConfig, request: Request, now: Time, l': Ledger,
                              out: Outcome, a: Allocation, shared: Option<int>)
    requires FairReserve(l, pool, request, now, l', out) && out.Granted? && Covers(l, m)
    requires RecordOf(a, pool, request, out.backend)
    requires RecordLimit(pool, a, shared) == pool.backends[out.backend].crossPoolMaxRunners
    ensures RecordLimit(pool, a, shared) > 0 ==> Uses(m - {a.id}, InUseOn(a.backend)) < RecordLimit(pool, a, shared)
    ensures RecordQuota(pool, a) > 0 ==>
              Uses(m - {a.id}, InUseBy(a.pool, StoreTenant(a.tenant))) < RecordQuota(pool, a)
  {
    var asked, starving := Runs.GrantFacts(l, pool, request, now, l', out);
    SubsetCount(m, {a.id}, InUseOn(a.backend));
    TenantNamesAgree(a.tenant);
    TenantCounts(m, a.id, a.pool, a.tenant);
  }

  /** A successful reservation that did not bypass soft reserves is never refused by
      the store, as long as the scheduler counts cover the store's and the limits agree. */
  lemma LayersAgree(l: Ledger, m: Records, pool: PoolConfig, request: Request, now: Time, l': Ledger, out: Outcome,
                    a: Allocation, shared: Option<int>)
    requires FairReserve(l, pool, request, now, l', out) && out.Granted? && Covers(l, m)
    requires RecordOf(a, pool, request, out.backend)
    requires RecordLimit(pool, a, shared) == pool.backends[out.backend].crossPoolMaxRunners
    requires !Starving(Opened(l, pool, now), pool, request.priorityClass, now)
    ensures Fits(m, a, RecordRoom(pool, a), RecordQuota(pool, a), RecordLimit(pool, a, shared))
  {
    var asked, starving := Runs.GrantFacts(l, pool, request, now, l', out);
    GrantLeavesSharedRoom(l, m, pool, request, now, l', out, a, shared);
    SubsetCount(m, {a.id}, InUse(a.pool, a.backend));
    assert Uses(m, InUse(a.pool, a.backend)) <= Get(l.active, Slot(a.pool, a.backend));
  }

  /** With both layers counting the same, the store accepts a fair-share grant exactly
      when the grant did not need the starvation bypass, or when soft reserves leave the
      lane no room at all: a zero limit is read as no limit. A starving lane admitted
      past its soft reserves is therefore refused whenever it has any room of its own. */
  lemma BypassIsRefused(l: Ledger, m: Records, pool: PoolConfig, request: Request, now: Time, l': Ledger, out: Outcome,
                        a: Allocation, shared: Option<int>)
    requires FairReserve(l, pool, request, now, l', out) && out.Granted? && Covers(l, m)
    requires RecordOf(a, pool, request, out.backend) && a.id !in m && pool.fairShare.enabled
    requires RecordLimit(pool, a, shared) == pool.backends[out.backend].crossPoolMaxRunners
    requires Uses(m, InUse(a.pool, a.backend)) == Get(l.active, Slot(a.pool, a.backend))
    ensures Fits(m, a, RecordRoom(pool, a), RecordQuota(pool, a), RecordLimit(pool, a, shared)) <==>
            Get(l.active, Slot(a.pool, a.backend)) < RecordRoom(pool, a) || RecordRoom(pool, a) == 0
  {
    GrantLeavesSharedRoom(l, m, pool, request, now, l', out, a, shared);
    assert m - {a.id} == m;
  }

  // ------------------------------------------------------------- a refused bypass

  const DEPLOY_AND_SMOKE := FairShareConfig(true, 0, 60,
    map["deploy" := 3, "smoke" := 1], [SoftReserve("deploy", 1)], map[])

  /** Two slots, one of them kept for the heavier lane; a smoke job runs and a second
      one has been denied for a minute: the scheduler lets it in, the store does not. */
  lemma BypassCounterexample(pool: PoolConfig, l: Ledger, since: Time, request: Request, l': Ledger, out: Outcome,
                             m: Records, a: Allocation)
    requires pool == PoolConfig(0, DEPLOY_AND_SMOKE, false, map[0 := BackendConfig(true, true, 2, 0, 1, 10)])
    requires l == EMPTY_LEDGER.(active := map[Slot(0, 0) := 1],
                                starvation := map[LaneOf(pool, "smoke") := Streak(since, since + 60)])
    requires request == Request(Some(0), "", "smoke") && FairReserve(l, pool, request, since + 60, l', out)
    requires RecordOf(a, pool, request, 0) && a.id !in m && Uses(m, InUse(0, 0)) == 1
    ensures out == Granted(0)
    ensures !Fits(m, a, RecordRoom(pool, a), RecordQuota(pool, a), RecordLimit(pool, a, None))
  {
    Names();
    var fs := pool.fairShare;
    assert fs.softReserves[..0] == [];
    assert HeldAbove(fs, [], 1) == 0;
    assert HeldAbove(fs, fs.softReserves, 1) == 1;
    assert RecordRoom(pool, a) == 1;
    assert m - {a.id} == m;
    assert Starving(Opened(l, pool, since + 60), pool, "smoke", since + 60);
    assert Open(Runs.Settled(l, pool, request, since + 60), pool, 0, "smoke", true);
    Runs.ReserveEffect(l, pool, request, since + 60, l', out);
  }

  lemma Names()
    ensures Fold("smoke") == "smoke" && Fold("deploy") == "deploy"
  {
    assert Lower("smoke") == ['s'] + Lower("moke") && Lower("moke") == ['m'] + Lower("oke");
    assert Lower("oke") == ['o'] + Lower("ke") && Lower("ke") == ['k'] + Lower("e") && Lower("e") == ['e'] + Lower("");
    assert Lower("deploy") == ['d'] + Lower("eploy") && Lower("eploy") == ['e'] + Lower("ploy");
    assert Lower("ploy") == ['p'] + Lower("loy") && Lower("loy") == ['l'] + Lower("oy");
    assert Lower("oy") == ['o'] + Lower("y") && Lower("y") == ['y'] + Lower("");
  }
}
