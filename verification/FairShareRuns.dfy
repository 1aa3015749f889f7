/** What the fair-share scheduler guarantees over whole runs: books that balance,
    hard caps, the lane guarantee, an exact usage window and an exact starvation test. */
module FairShareRuns {
  import opened Basics
  import opened Model
  import opened Ring
  import opened Rotation
  import opened FairShare

  /** A reservation that has been granted and not yet released. */
  datatype Hold = Hold(pool: PoolName, backend: BackendName, tenant: string, priorityClass: string)

  datatype Mark = Denial(at: Time) | Admission(at: Time)

  datatype Event =
    | Reserve(pool: PoolConfig, request: Request, now: Time, out: Outcome)
    | Release(hold: nat, tenant: string, now: Time)

  /** A scheduler state together with what has really happened so far: the outstanding
      reservations, every reservation ever granted per pool, and each lane's record of
      soft-reserve denials and admissions. */
  datatype Moment = Moment(
    ledger: Ledger, held: seq<Hold>, clock: Time,
    history: map<PoolName, seq<Reservation>>, marks: map<Lane, seq<Mark>>)

  const START := Moment(EMPTY_LEDGER, [], 0, map[], map[])

  function Marks(m: Moment, lane: Lane): seq<Mark> {
    if lane in m.marks then m.marks[lane] else []
  }

  /** The ledger a reservation decides on, after housekeeping. */
  function Settled(l: Ledger, pool: PoolConfig, request: Request, now: Time): Ledger {
    Asked(Opened(l, pool, now), pool, request.priorityClass, now)
  }

  /** The request was turned away while slots were kept for heavier lanes. */
  ghost predicate SoftlyDenied(l: Ledger, pool: PoolConfig, request: Request, now: Time, out: Outcome) {
    out == NoCapacity && HeldBack(Settled(l, pool, request, now), pool, request)
  }

  function HoldFor(pool: PoolConfig, request: Request, b: BackendName): Hold {
    Hold(pool.name, b, NormalizeTenant(request.tenant), request.priorityClass)
  }

  ghost predicate Step(m: Moment, e: Event, m': Moment) {
    m.clock <= e.now == m'.clock &&
    match e
    case Reserve(pool, request, now, out) =>
      && FairReserve(m.ledger, pool, request, now, m'.ledger, out)
      && var lane := LaneOf(pool, request.priorityClass);
         (match out
         case Granted(b) =>
           && m'.held == m.held + [HoldFor(pool, request, b)]
           && m'.history == m.history[pool.name := Log(m.history, pool.name)
                                                   + [Reservation(NormalizeTenant(request.tenant), b, now)]]
           && m'.marks == m.marks[lane := Marks(m, lane) + [Admission(now)]]
         case _ =>
           && m'.held == m.held && m'.history == m.history
           && m'.marks == if SoftlyDenied(m.ledger, pool, request, now, out)
                          then m.marks[lane := Marks(m, lane) + [Denial(now)]] else m.marks)
    case Release(i, tenant, now) =>
      && i < |m.held|
      && NormalizeTenant(tenant) == m.held[i].tenant
      && m'.ledger == FairRelease(m.ledger, m.held[i].pool, m.held[i].backend, tenant, now)
      && m'.held == Without(m.held, i)
      && m'.history == m.history && m'.marks == m.marks
  }

  /** The pool named by a call is one of the configured pools, possibly narrowed to
      fewer backends; limits and fair-share settings never change. */
  predicate Conforms(cfg: map<PoolName, PoolConfig>, pool: PoolConfig) {
    && pool.name in cfg
    && pool.fairShare == cfg[pool.name].fairShare
    && forall b <- pool.backends ::
         && b in cfg[pool.name].backends
         && pool.backends[b].maxRunners == cfg[pool.name].backends[b].maxRunners
         && pool.backends[b].crossPoolMaxRunners == cfg[pool.name].backends[b].crossPoolMaxRunners
  }

  ghost predicate IsRun(cfg: map<PoolName, PoolConfig>, ms: seq<Moment>, es: seq<Event>) {
    && |ms| == |es| + 1
    && ms[0] == START
    && (forall i | 0 <= i < |es| :: Step(ms[i], es[i], ms[i + 1]))
    && (forall e <- es :: e.Reserve? ==> Conforms(cfg, e.pool))
  }

  // ----------------------------------------------------------------- bookkeeping

  ghost function InSlot(s: Slot): Hold -> bool { (h: Hold) => h.pool == s.pool && h.backend == s.backend }

  ghost function InTenantSlot(s: TenantSlot): Hold -> bool {
    (h: Hold) => h.pool == s.pool && h.backend == s.backend && h.tenant == s.tenant
  }

  ghost function HeldOn(b: BackendName): Hold -> bool { (h: Hold) => h.backend == b }

  ghost function HeldBy(pool: PoolName, tenant: string): Hold -> bool {
    (h: Hold) => h.pool == pool && h.tenant == tenant
  }

  ghost function TenantsOf(s: Slot): TenantSlot -> bool {
    (k: TenantSlot) => k.pool == s.pool && k.backend == s.backend
  }

  /** Every counter equals the number of outstanding reservations it stands for, and
      the per-tenant counters of a backend add up to the backend's counter. */
  ghost predicate Balanced(active: map<Slot, int>, shares: map<TenantSlot, int>, held: seq<Hold>) {
    && (forall s: Slot :: Get(active, s) == Count(held, InSlot(s)))
    && (forall s: TenantSlot :: Get(shares, s) == Count(held, InTenantSlot(s)))
    && (forall b: BackendName :: BackendTotal(active, b) == Count(held, HeldOn(b)))
    && (forall p: PoolName, t: string :: TenantTotal(shares, p, t) == Count(held, HeldBy(p, t)))
    && (forall s: Slot :: SumWhere(shares, TenantsOf(s)) == Get(active, s))
  }

  ghost predicate Books(l: Ledger, held: seq<Hold>) { Balanced(l.active, l.tenantActive, held) }

  function SlotOf(h: Hold): Slot { Slot(h.pool, h.backend) }

  function ShareOf(h: Hold): TenantSlot { TenantSlot(h.pool, h.backend, h.tenant) }

  /** Counting one more hold everywhere keeps the balance. */
  lemma OneMore(active: map<Slot, int>, shares: map<TenantSlot, int>, held: seq<Hold>, h: Hold,
                active': map<Slot, int>, shares': map<TenantSlot, int>)
    requires Balanced(active, shares, held)
    requires active' == active[SlotOf(h) := Get(active, SlotOf(h)) + 1]
    requires shares' == shares[ShareOf(h) := Get(shares, ShareOf(h)) + 1]
    ensures Balanced(active', shares', held + [h])
  {
    forall s: Slot ensures Get(active', s) == Count(held + [h], InSlot(s)) {
      CountAppend(held, h, InSlot(s));
    }
    forall s: TenantSlot ensures Get(shares', s) == Count(held + [h], InTenantSlot(s)) {
      CountAppend(held, h, InTenantSlot(s));
    }
    forall b: BackendName ensures BackendTotal(active', b) == Count(held + [h], HeldOn(b)) {
      CountAppend(held, h, HeldOn(b));
      SumWhereUpdate(active, SlotOf(h), Get(active, SlotOf(h)) + 1, OnBackend(b));
    }
    forall p: PoolName, t: string ensures TenantTotal(shares', p, t) == Count(held + [h], HeldBy(p, t)) {
      CountAppend(held, h, HeldBy(p, t));
      SumWhereUpdate(shares, ShareOf(h), Get(shares, ShareOf(h)) + 1, OfTenant(p, t));
    }
    forall s: Slot ensures SumWhere(shares', TenantsOf(s)) == Get(active', s) {
      SumWhereUpdate(shares, ShareOf(h), Get(shares, ShareOf(h)) + 1, TenantsOf(s));
    }
  }

  /** So does counting one hold fewer. */
  lemma OneLess(active: map<Slot, int>, shares: map<TenantSlot, int>, held: seq<Hold>, i: nat,
                active': map<Slot, int>, shares': map<TenantSlot, int>)
    requires Balanced(active, shares, held) && i < |held|
    requires active' == active[SlotOf(held[i]) := Get(active, SlotOf(held[i])) - 1]
    requires forall s: TenantSlot :: Get(shares', s) == Get(shares, s) - (if s == ShareOf(held[i]) then 1 else 0)
    requires forall p: TenantSlot -> bool ::
               SumWhere(shares', p) == SumWhere(shares, p) - (if p(ShareOf(held[i])) then 1 else 0)
    ensures Balanced(active', shares', Without(held, i))
  {
    var h, rest := held[i], Without(held, i);
    forall s: Slot ensures Get(active', s) == Count(rest, InSlot(s)) {
      CountWithout(held, i, InSlot(s));
    }
    forall s: TenantSlot ensures Get(shares', s) == Count(rest, InTenantSlot(s)) {
      CountWithout(held, i, InTenantSlot(s));
    }
    forall b: BackendName ensures BackendTotal(active', b) == Count(rest, HeldOn(b)) {
      CountWithout(held, i, HeldOn(b));
      SumWhereUpdate(active, SlotOf(h), Get(active, SlotOf(h)) - 1, OnBackend(b));
    }
    forall p: PoolName, t: string ensures TenantTotal(shares', p, t) == Count(rest, HeldBy(p, t)) {
      CountWithout(held, i, HeldBy(p, t));
    }
  }

  lemma AdmissionKeepsBooks(l: Ledger, held: seq<Hold>, pool: PoolConfig, b: BackendName, request: Request, now: Time)
    requires Books(l, held)
    ensures Books(Admitted(l, pool, b, request, now), held + [HoldFor(pool, request, b)])
  {
    var l' := Admitted(l, pool, b, request, now);
    OneMore(l.active, l.tenantActive, held, HoldFor(pool, request, b), l'.active, l'.tenantActive);
  }

  lemma SumWhereReturned(l: Ledger, pool: PoolName, b: BackendName, tenant: string, p: TenantSlot -> bool)
    requires Get(l.tenantActive, TenantSlot(pool, b, NormalizeTenant(tenant))) > 0
    ensures SumWhere(Returned(l, pool, b, tenant).tenantActive, p) ==
            SumWhere(l.tenantActive, p) - (if p(TenantSlot(pool, b, NormalizeTenant(tenant))) then 1 else 0)
  {
    var s := TenantSlot(pool, b, NormalizeTenant(tenant));
    SumWhereUpdate(l.tenantActive, s, Get(l.tenantActive, s) - 1, p);
    SumWhereRemove(l.tenantActive, s, p);
  }

  lemma ReleaseKeepsBooks(l: Ledger, held: seq<Hold>, i: nat, tenant: string)
    requires Books(l, held) && i < |held| && NormalizeTenant(tenant) == held[i].tenant
    ensures Books(Returned(l, held[i].pool, held[i].backend, tenant), Without(held, i))
  {
    var h := held[i];
    var l' := Returned(l, h.pool, h.backend, tenant);
    CountPositive(held, i, InSlot(SlotOf(h)));
    CountPositive(held, i, InTenantSlot(ShareOf(h)));
    forall p: TenantSlot -> bool
      ensures SumWhere(l'.tenantActive, p) == SumWhere(l.tenantActive, p) - (if p(ShareOf(h)) then 1 else 0)
    {
      SumWhereReturned(l, h.pool, h.backend, tenant, p);
    }
    OneLess(l.active, l.tenantActive, held, i, l'.active, l'.tenantActive);
  }

  /** A release keeps the books exactly when it names the tenant that holds the slot.
      The release after a rejected admission names no tenant at all, so it keeps them
      exactly for requests of the default tenant; any other tenant is left holding a
      share of its quota that nothing will ever return. */
  lemma ReleaseMustNameTheTenant(l: Ledger, held: seq<Hold>, i: nat, tenant: string)
    requires Books(l, held) && i < |held|
    ensures Books(Returned(l, held[i].pool, held[i].backend, tenant), Without(held, i))
            <==> NormalizeTenant(tenant) == held[i].tenant
    ensures NormalizeTenant("") == "default"
  {
    if NormalizeTenant(tenant) == held[i].tenant {
      ReleaseKeepsBooks(l, held, i, tenant);
    } else {
      var s := TenantSlot(held[i].pool, held[i].backend, held[i].tenant);
      var l' := Returned(l, held[i].pool, held[i].backend, tenant);
      CountWithout(held, i, InTenantSlot(s));
      assert Get(l'.tenantActive, s) == Get(l.tenantActive, s) != Count(Without(held, i), InTenantSlot(s));
    }
  }

  lemma SameCountersSameBooks(l: Ledger, l': Ledger, held: seq<Hold>)
    requires Books(l, held) && l'.active == l.active && l'.tenantActive == l.tenantActive
    ensures Books(l', held)
  {
  }

  // ------------------------------------------------------- one reservation, unfolded

  /** What a decision amounts to, however the backend was found. */
  ghost predicate Effect(l: Ledger, pool: PoolConfig, request: Request, now: Time, starving: bool,
                         l': Ledger, out: Outcome) {
    match out
    case Granted(b) =>
      && Open(l, pool, b, request.priorityClass, starving)
      && l' == Admitted(l, pool, b, request, now).(cursors := l'.cursors)
    case NoCapacity => Refused(l, pool, request, now, l')
    case UnknownBackend => l' == l
    case QuotaExceeded => false
  }

  lemma SelectsEffect(l: Ledger, pool: PoolConfig, request: Request, now: Time, starving: bool,
                      ring: seq<BackendName>, l': Ledger, out: Outcome)
    requires Selects(l, pool, request, now, starving, ring, l', out)
    ensures Effect(l, pool, request, now, starving, l', out)
  {
    if exists b <- ring :: Open(l, pool, b, request.priorityClass, starving) {
      var k: nat :| && k < |ring|
                    && IsBest(l, pool, request, now, starving, ring, k)
                    && out == Granted(EntryAt(l, pool, ring, k))
                    && l' == Admitted(l, pool, EntryAt(l, pool, ring, k), request, now)
                             .(cursors := l.cursors[pool.name := Spot(Base(l), pool.name, |ring|, k + 1)]);
    }
  }

  lemma DecidesEffect(l: Ledger, pool: PoolConfig, request: Request, now: Time, starving: bool,
                      l': Ledger, out: Outcome)
    requires Decides(l, pool, request, now, starving, l', out)
    ensures Effect(l, pool, request, now, starving, l', out)
  {
    if request.backend.None? {
      var ring :| IsRing(pool, ring) && Selects(l, pool, request, now, starving, ring, l', out);
      SelectsEffect(l, pool, request, now, starving, ring, l', out);
    }
  }

  /** A reservation either stops at the quota or takes effect on the settled ledger. */
  lemma ReserveEffect(l: Ledger, pool: PoolConfig, request: Request, now: Time, l': Ledger, out: Outcome)
    requires FairReserve(l, pool, request, now, l', out)
    ensures if QuotaBlocks(Opened(l, pool, now), pool, NormalizeTenant(request.tenant))
            then out == QuotaExceeded && l' == Opened(l, pool, now)
            else Effect(Settled(l, pool, request, now), pool, request, now,
                        Starving(Opened(l, pool, now), pool, request.priorityClass, now), l', out)
  {
    var swept := Opened(l, pool, now);
    if !QuotaBlocks(swept, pool, NormalizeTenant(request.tenant)) {
      DecidesEffect(Asked(swept, pool, request.priorityClass, now), pool, request, now,
                    Starving(swept, pool, request.priorityClass, now), l', out);
    }
  }

  lemma DenialTouchesOnlyStreaks(l: Ledger, pool: PoolConfig, request: Request, now: Time, starving: bool,
                                 l': Ledger, out: Outcome)
    requires Effect(l, pool, request, now, starving, l', out) && !out.Granted?
    ensures l' == l.(starvation := l'.starvation)
  {
  }

  lemma SettledTouchesOnlyStreaks(l: Ledger, pool: PoolConfig, request: Request, now: Time)
    ensures var swept := Opened(l, pool, now);
            Settled(l, pool, request, now) == swept.(starvation := Settled(l, pool, request, now).starvation)
  {
  }

  lemma SettledCounters(l: Ledger, pool: PoolConfig, request: Request, now: Time)
    ensures Settled(l, pool, request, now).active == l.active == Opened(l, pool, now).active
    ensures Settled(l, pool, request, now).tenantActive == l.tenantActive == Opened(l, pool, now).tenantActive
  {
  }

  /** Everything a granted reservation establishes, pinned or not. */
  lemma GrantFacts(l: Ledger, pool: PoolConfig, request: Request, now: Time, l': Ledger, out: Outcome)
    returns (asked: Ledger, starving: bool)
    requires FairReserve(l, pool, request, now, l', out)
    ensures asked == Settled(l, pool, request, now)
    ensures starving == Starving(Opened(l, pool, now), pool, request.priorityClass, now)
    ensures asked.active == l.active && asked.tenantActive == l.tenantActive
    ensures !out.Granted? ==> l'.active == l.active && l'.tenantActive == l.tenantActive
    ensures out.Granted? ==>
              && Open(asked, pool, out.backend, request.priorityClass, starving)
              && !QuotaBlocks(l, pool, NormalizeTenant(request.tenant))
              && l' == Admitted(asked, pool, out.backend, request, now).(cursors := l'.cursors)
  {
    ReserveEffect(l, pool, request, now, l', out);
    SettledCounters(l, pool, request, now);
    asked := Settled(l, pool, request, now);
    starving := Starving(Opened(l, pool, now), pool, request.priorityClass, now);
  }

  lemma StepKeepsBooks(m: Moment, e: Event, m': Moment)
    requires Step(m, e, m') && Books(m.ledger, m.held)
    ensures Books(m'.ledger, m'.held)
  {
    match e
    case Reserve(pool, request, now, out) =>
      var asked, starving := GrantFacts(m.ledger, pool, request, now, m'.ledger, out);
      SameCountersSameBooks(m.ledger, asked, m.held);
      match out {
        case Granted(b) =>
          AdmissionKeepsBooks(asked, m.held, pool, b, request, now);
          SameCountersSameBooks(Admitted(asked, pool, b, request, now), m'.ledger, m'.held);
        case _ => SameCountersSameBooks(m.ledger, m'.ledger, m.held);
      }
    case Release(i, tenant, now) =>
      var h := m.held[i];
      ReleaseKeepsBooks(m.ledger, m.held, i, tenant);
      SameCountersSameBooks(Returned(m.ledger, h.pool, h.backend, tenant), m'.ledger, m'.held);
  }

  // -------------------------------------------------------------------- hard caps

  /** Every pool that offers b caps it across pools, at no more than limit. */
  predicate CappedAt(cfg: map<PoolName, PoolConfig>, b: BackendName, limit: int) {
    forall p <- cfg | b in cfg[p].backends :: 0 < cfg[p].backends[b].crossPoolMaxRunners <= limit
  }

  ghost predicate WithinCaps(cfg: map<PoolName, PoolConfig>, held: seq<Hold>) {
    && (forall p, b | p in cfg && b in cfg[p].backends ::
          Count(held, InSlot(Slot(p, b))) <= Max(0, cfg[p].backends[b].maxRunners))
    && (forall b, limit | limit >= 0 && CappedAt(cfg, b, limit) :: Count(held, HeldOn(b)) <= limit)
    && (forall p, t | p in cfg && Fold(t) in cfg[p].fairShare.quotas ::
          Count(held, HeldBy(p, t)) <= Max(0, cfg[p].fairShare.quotas[Fold(t)]))
  }

  lemma LaneRoomWithinMax(maxRunners: int, fs: FairShareConfig, w: int)
    ensures LaneRoom(maxRunners, fs, w) <= Max(0, maxRunners)
  {
  }

  lemma GrantWithinCaps(cfg: map<PoolName, PoolConfig>, m: Moment, e: Event, m': Moment)
    requires Step(m, e, m') && e.Reserve? && e.out.Granted? && Conforms(cfg, e.pool)
    requires Books(m.ledger, m.held) && WithinCaps(cfg, m.held)
    ensures WithinCaps(cfg, m'.held)
  {
    var pool, request := e.pool, e.request;
    var asked, starving := GrantFacts(m.ledger, pool, request, e.now, m'.ledger, e.out);
    var h := HoldFor(pool, request, e.out.backend);
    var live := pool.backends[h.backend];
    LaneRoomWithinMax(live.maxRunners, pool.fairShare, ClassWeight(pool.fairShare, request.priorityClass));
    forall p, b | p in cfg && b in cfg[p].backends
      ensures Count(m'.held, InSlot(Slot(p, b))) <= Max(0, cfg[p].backends[b].maxRunners)
    {
      CountAppend(m.held, h, InSlot(Slot(p, b)));
    }
    forall b, limit | limit >= 0 && CappedAt(cfg, b, limit) ensures Count(m'.held, HeldOn(b)) <= limit {
      CountAppend(m.held, h, HeldOn(b));
      if b == h.backend {
        assert BackendTotal(m.ledger.active, b) == Count(m.held, HeldOn(b));
        assert 0 < cfg[pool.name].backends[b].crossPoolMaxRunners <= limit;
      }
    }
    forall p, t | p in cfg && Fold(t) in cfg[p].fairShare.quotas
      ensures Count(m'.held, HeldBy(p, t)) <= Max(0, cfg[p].fairShare.quotas[Fold(t)])
    {
      CountAppend(m.held, h, HeldBy(p, t));
      assert TenantTotal(m.ledger.tenantActive, p, t) == Count(m.held, HeldBy(p, t));
    }
  }

  lemma ReleaseWithinCaps(cfg: map<PoolName, PoolConfig>, held: seq<Hold>, i: nat)
    requires i < |held| && WithinCaps(cfg, held)
    ensures WithinCaps(cfg, Without(held, i))
  {
    forall p, b | p in cfg && b in cfg[p].backends
      ensures Count(Without(held, i), InSlot(Slot(p, b))) <= Max(0, cfg[p].backends[b].maxRunners)
    {
      CountWithout(held, i, InSlot(Slot(p, b)));
    }
    forall b, limit | limit >= 0 && CappedAt(cfg, b, limit) ensures Count(Without(held, i), HeldOn(b)) <= limit {
      CountWithout(held, i, HeldOn(b));
    }
    forall p, t | p in cfg && Fold(t) in cfg[p].fairShare.quotas
      ensures Count(Without(held, i), HeldBy(p, t)) <= Max(0, cfg[p].fairShare.quotas[Fold(t)])
    {
      CountWithout(held, i, HeldBy(p, t));
    }
  }

  // -------------------------------------------------------------- lane guarantee

  ghost function AtMost(fs: FairShareConfig, p: PoolName, b: BackendName, w: int): Hold -> bool {
    (h: Hold) => h.pool == p && h.backend == b && ClassWeight(fs, h.priorityClass) <= w
  }

  ghost function Above(fs: FairShareConfig, p: PoolName, b: BackendName, w: int): Hold -> bool {
    (h: Hold) => h.pool == p && h.backend == b && ClassWeight(fs, h.priorityClass) > w
  }

  /** For every weight w, lanes no heavier than w never fill more than what is left
      after the soft reserves of the lanes above w. */
  ghost predicate LanesHold(cfg: map<PoolName, PoolConfig>, held: seq<Hold>) {
    forall p, b, w: int | p in cfg && cfg[p].fairShare.starvationAfter <= 0 && b in cfg[p].backends ::
      Count(held, AtMost(cfg[p].fairShare, p, b, w)) <= LaneRoom(cfg[p].backends[b].maxRunners, cfg[p].fairShare, w)
  }

  lemma GrantKeepsLanes(cfg: map<PoolName, PoolConfig>, m: Moment, e: Event, m': Moment)
    requires Step(m, e, m') && e.Reserve? && e.out.Granted? && Conforms(cfg, e.pool)
    requires Books(m.ledger, m.held) && LanesHold(cfg, m.held)
    ensures LanesHold(cfg, m'.held)
  {
    var pool, request := e.pool, e.request;
    var asked, starving := GrantFacts(m.ledger, pool, request, e.now, m'.ledger, e.out);
    var h := HoldFor(pool, request, e.out.backend);
    forall p, b, w: int | p in cfg && cfg[p].fairShare.starvationAfter <= 0 && b in cfg[p].backends
      ensures Count(m'.held, AtMost(cfg[p].fairShare, p, b, w))
              <= LaneRoom(cfg[p].backends[b].maxRunners, cfg[p].fairShare, w)
    {
      var fs := cfg[p].fairShare;
      CountAppend(m.held, h, AtMost(fs, p, b, w));
      if AtMost(fs, p, b, w)(h) {
        CountLe(m.held, AtMost(fs, p, b, w), InSlot(Slot(p, b)));
        HeavierSeesMore(fs, fs.softReserves, ClassWeight(fs, request.priorityClass), w);
        assert !starving;
      }
    }
  }

  lemma ReleaseKeepsLanes(cfg: map<PoolName, PoolConfig>, held: seq<Hold>, i: nat)
    requires i < |held| && LanesHold(cfg, held)
    ensures LanesHold(cfg, Without(held, i))
  {
    forall p, b, w: int | p in cfg && cfg[p].fairShare.starvationAfter <= 0 && b in cfg[p].backends
      ensures Count(Without(held, i), AtMost(cfg[p].fairShare, p, b, w))
              <= LaneRoom(cfg[p].backends[b].maxRunners, cfg[p].fairShare, w)
    {
      CountWithout(held, i, AtMost(cfg[p].fairShare, p, b, w));
    }
  }

  /** Lanes up to w leave the reserves above w free for the lanes above them. */
  lemma ReservesStayFree(cfg: map<PoolName, PoolConfig>, m: Moment, pool: PoolConfig, b: BackendName, w: int)
    requires Books(m.ledger, m.held) && LanesHold(cfg, m.held) && Conforms(cfg, pool)
    requires pool.fairShare.starvationAfter <= 0 && b in pool.backends
    requires Count(m.held, Above(pool.fairShare, pool.name, b, w))
             < Min(Withheld(pool.fairShare, w), pool.backends[b].maxRunners)
    ensures Get(m.ledger.active, Slot(pool.name, b)) < pool.backends[b].maxRunners
  {
    var fs, slot := pool.fairShare, Slot(pool.name, b);
    CountSplit(m.held, InSlot(slot), AtMost(fs, pool.name, b, w), Above(fs, pool.name, b, w));
    assert Count(m.held, AtMost(fs, pool.name, b, w))
           <= LaneRoom(cfg[pool.name].backends[b].maxRunners, cfg[pool.name].fairShare, w);
    assert Get(m.ledger.active, slot) == Count(m.held, InSlot(slot));
  }

  /** A request for which b is open is granted. */
  lemma OpenMeansGranted(l: Ledger, pool: PoolConfig, request: Request, now: Time, starving: bool, b: BackendName,
                         l': Ledger, out: Outcome)
    requires Decides(l, pool, request, now, starving, l', out)
    requires request.backend in {None, Some(b)} && Open(l, pool, b, request.priorityClass, starving)
    ensures out.Granted?
  {
    if request.backend.None? {
      var ring :| IsRing(pool, ring) && Selects(l, pool, request, now, starving, ring, l', out);
      RingMembers(pool, ring);
    }
  }

  lemma RoomMeansOpen(l: Ledger, asked: Ledger, pool: PoolConfig, b: BackendName, priorityClass: string, starving: bool)
    requires asked.active == l.active && b in pool.backends && pool.backends[b].enabled && pool.backends[b].healthy
    requires HasCrossPoolRoom(pool.backends[b], BackendTotal(l.active, b))
    requires Withheld(pool.fairShare, ClassWeight(pool.fairShare, priorityClass)) == 0
    requires Get(l.active, Slot(pool.name, b)) < pool.backends[b].maxRunners
    ensures Open(asked, pool, b, priorityClass, starving)
  {
  }

  /** A request that no lane outranks finds room on b while fewer than
      min(held for lanes above w, maxRunners) reservations above w are outstanding there. */
  lemma TopLaneFindsRoom(cfg: map<PoolName, PoolConfig>, m: Moment, pool: PoolConfig, request: Request, now: Time,
                         b: BackendName, w: int, l': Ledger, out: Outcome)
    requires Books(m.ledger, m.held) && LanesHold(cfg, m.held) && Conforms(cfg, pool)
    requires pool.fairShare.starvationAfter <= 0
    requires b in pool.backends && pool.backends[b].enabled && pool.backends[b].healthy
    requires HasCrossPoolRoom(pool.backends[b], BackendTotal(m.ledger.active, b))
    requires !QuotaBlocks(m.ledger, pool, NormalizeTenant(request.tenant))
    requires Withheld(pool.fairShare, ClassWeight(pool.fairShare, request.priorityClass)) == 0
    requires Count(m.held, Above(pool.fairShare, pool.name, b, w))
             < Min(Withheld(pool.fairShare, w), pool.backends[b].maxRunners)
    requires request.backend in {None, Some(b)}
    requires FairReserve(m.ledger, pool, request, now, l', out)
    ensures out.Granted?
  {
    ReservesStayFree(cfg, m, pool, b, w);
    RoomIsGranted(m.ledger, pool, request, now, b, l', out);
  }

  lemma RoomIsGranted(l: Ledger, pool: PoolConfig, request: Request, now: Time, b: BackendName, l': Ledger,
                      out: Outcome)
    requires b in pool.backends && pool.backends[b].enabled && pool.backends[b].healthy
    requires HasCrossPoolRoom(pool.backends[b], BackendTotal(l.active, b))
    requires !QuotaBlocks(l, pool, NormalizeTenant(request.tenant))
    requires Withheld(pool.fairShare, ClassWeight(pool.fairShare, request.priorityClass)) == 0
    requires Get(l.active, Slot(pool.name, b)) < pool.backends[b].maxRunners
    requires request.backend in {None, Some(b)}
    requires FairReserve(l, pool, request, now, l', out)
    ensures out.Granted?
  {
    var swept := Opened(l, pool, now);
    var starving := Starving(swept, pool, request.priorityClass, now);
    SettledCounters(l, pool, request, now);
    RoomMeansOpen(l, Settled(l, pool, request, now), pool, b, request.priorityClass, starving);
    OpenMeansGranted(Settled(l, pool, request, now), pool, request, now, starving, b, l', out);
  }

  /** A cross-pool cap binds only the pools that state it. Once as many reservations of b are out as some pool
      caps it at, a request of a pool that has room of its own goes past that cap if and only if its pool
      does not cap b as tightly: with two pools of which one caps b, the other takes no notice. */
  lemma CapBindsItsOwnPool(m: Moment, e: Event, m': Moment, b: BackendName, cap: int)
    requires Step(m, e, m') && Books(m.ledger, m.held) && Count(m.held, HeldOn(b)) == cap
    requires e.Reserve? && e.request.backend == Some(b) && b in e.pool.backends
    requires e.pool.backends[b].enabled && e.pool.backends[b].healthy
    requires !QuotaBlocks(m.ledger, e.pool, NormalizeTenant(e.request.tenant))
    requires Withheld(e.pool.fairShare, ClassWeight(e.pool.fairShare, e.request.priorityClass)) == 0
    requires Get(m.ledger.active, Slot(e.pool.name, b)) < e.pool.backends[b].maxRunners
    ensures Count(m'.held, HeldOn(b)) > cap <==> !(0 < e.pool.backends[b].crossPoolMaxRunners <= cap)
  {
    var own := e.pool.backends[b].crossPoolMaxRunners;
    assert BackendTotal(m.ledger.active, b) == cap;
    var asked, starving := GrantFacts(m.ledger, e.pool, e.request, e.now, m'.ledger, e.out);
    if 0 < own <= cap {
      assert BackendTotal(asked.active, b) == cap && !e.out.Granted?;
    } else {
      RoomIsGranted(m.ledger, e.pool, e.request, e.now, b, m'.ledger, e.out);
      CountAppend(m.held, HoldFor(e.pool, e.request, e.out.backend), HeldOn(b));
    }
  }

  // ----------------------------------------------------------------- usage window

  /** The pruned log is exactly the part of the full reservation history that is
      still inside the window. */
  ghost predicate LogsExact(cfg: map<PoolName, PoolConfig>, m: Moment) {
    forall p | p in cfg && cfg[p].fairShare.usageWindow > 0 :: LogExact(m, p, cfg[p].fairShare.usageWindow)
  }

  ghost predicate LogExact(m: Moment, p: PoolName, window: int) {
    && Log(m.ledger.tenantLog, p) == Recent(Log(m.history, p), m.clock - window)
    && (p in m.ledger.usageWindows ==> m.ledger.usageWindows[p] == window)
    && (p !in m.ledger.usageWindows ==> Log(m.history, p) == [])
  }

  lemma RecentTwice(log: seq<Reservation>, a: Time, b: Time)
    requires a <= b
    ensures Recent(Recent(log, a), b) == Recent(log, b)
  {
    FilterTwice(log, Since(a), Since(b));
  }

  lemma PrunedLogAt(logs: map<PoolName, seq<Reservation>>, windows: map<PoolName, int>, p: PoolName, now: Time)
    ensures Log(PrunedLogs(logs, windows, now), p)
            == if p in windows then Windowed(Log(logs, p), windows[p], now) else Log(logs, p)
  {
  }

  lemma LogsPruneExactly(logs: map<PoolName, seq<Reservation>>, windows: map<PoolName, int>, history: seq<Reservation>,
                         p: PoolName, window: int, clock: Time, now: Time)
    requires clock <= now && window > 0
    requires Log(logs, p) == Recent(history, clock - window)
    requires p in windows ==> windows[p] == window
    requires p !in windows ==> history == []
    ensures Log(PrunedLogs(logs, windows, now), p) == Recent(history, now - window)
  {
    PrunedLogAt(logs, windows, p, now);
    RecentTwice(history, clock - window, now - window);
  }

  lemma PruningIsExact(l: Ledger, history: seq<Reservation>, p: PoolName, window: int, clock: Time, now: Time)
    requires clock <= now && window > 0
    requires Log(l.tenantLog, p) == Recent(history, clock - window)
    requires p in l.usageWindows ==> l.usageWindows[p] == window
    requires p !in l.usageWindows ==> history == []
    ensures Log(Pruned(l, now).tenantLog, p) == Recent(history, now - window)
    ensures p in Pruned(l, now).usageWindows <==> p in l.usageWindows
    ensures p in l.usageWindows ==> Pruned(l, now).usageWindows[p] == window
  {
    LogsPruneExactly(l.tenantLog, l.usageWindows, history, p, window, clock, now);
  }

  lemma LogOnlyGrowsOnGrant(l: Ledger, pool: PoolConfig, request: Request, now: Time, l': Ledger, out: Outcome)
    requires FairReserve(l, pool, request, now, l', out) && !out.Granted?
    ensures l' == Opened(l, pool, now).(starvation := l'.starvation)
  {
    var swept := Opened(l, pool, now);
    ReserveEffect(l, pool, request, now, l', out);
    if !QuotaBlocks(swept, pool, NormalizeTenant(request.tenant)) {
      var starving := Starving(swept, pool, request.priorityClass, now);
      SettledTouchesOnlyStreaks(l, pool, request, now);
      DenialTouchesOnlyStreaks(Settled(l, pool, request, now), pool, request, now, starving, l', out);
    }
  }

  /** The grant added its own entry to its pool's log and touched no other log. */
  ghost predicate GrantLogged(l: Ledger, pool: PoolConfig, request: Request, now: Time, l': Ledger, out: Outcome,
                              p: PoolName) {
    var swept := Opened(l, pool, now);
    && out.Granted?
    && Log(l'.tenantLog, p) == Log(swept.tenantLog, p) + EntryFor(pool, request, out, now, p)
    && (p in l'.usageWindows <==> p in swept.usageWindows || p == pool.name)
    && (p in l'.usageWindows ==> l'.usageWindows[p] == if p == pool.name then pool.fairShare.usageWindow
                                                       else swept.usageWindows[p])
  }

  lemma GrantLogs(l: Ledger, pool: PoolConfig, request: Request, now: Time, l': Ledger, out: Outcome, p: PoolName)
    requires FairReserve(l, pool, request, now, l', out) && out.Granted?
    requires p == pool.name ==> pool.fairShare.usageWindow > 0
    ensures GrantLogged(l, pool, request, now, l', out, p)
  {
    var asked, starving := GrantFacts(l, pool, request, now, l', out);
    SettledTouchesOnlyStreaks(l, pool, request, now);
  }

  lemma ReserveKeepsLog(m: Moment, e: Event, m': Moment, p: PoolName, window: int)
    requires Step(m, e, m') && e.Reserve? && window > 0 && LogExact(m, p, window)
    requires p == e.pool.name ==> e.pool.fairShare.usageWindow == window
    ensures LogExact(m', p, window)
  {
    if e.out.Granted? {
      GrantKeepsLog(m, e, m', p, window);
    } else {
      LogOnlyGrowsOnGrant(m.ledger, e.pool, e.request, e.now, m'.ledger, e.out);
      assert m'.history == m.history && m'.clock == e.now;
      DenialKeepsLog(m, m', e.pool, p, window);
    }
  }

  lemma DenialKeepsLog(m: Moment, m': Moment, pool: PoolConfig, p: PoolName, window: int)
    requires window > 0 && LogExact(m, p, window) && m.clock <= m'.clock
    requires p == pool.name ==> pool.fairShare.usageWindow == window
    requires m'.history == m.history
    requires m'.ledger == Opened(m.ledger, pool, m'.clock).(starvation := m'.ledger.starvation)
    ensures LogExact(m', p, window)
  {
    OpenedLog(m.ledger, pool, Log(m.history, p), p, window, m.clock, m'.clock);
  }

  lemma GrantKeepsLog(m: Moment, e: Event, m': Moment, p: PoolName, window: int)
    requires Step(m, e, m') && e.Reserve? && e.out.Granted? && window > 0 && LogExact(m, p, window)
    requires p == e.pool.name ==> e.pool.fairShare.usageWindow == window
    ensures LogExact(m', p, window)
  {
    GrantHistory(m, e, m', p);
    GrantLogs(m.ledger, e.pool, e.request, e.now, m'.ledger, e.out, p);
    GrantedLog(m, m', e.pool, e.request, e.out, p, window);
  }

  /** What a grant adds to the log of p. */
  function EntryFor(pool: PoolConfig, request: Request, out: Outcome, now: Time, p: PoolName): (r: seq<Reservation>)
    requires out.Granted?
    ensures |r| <= 1 && (forall x <- r :: x.at == now) && (p != pool.name ==> r == [])
  {
    if p == pool.name then [Reservation(NormalizeTenant(request.tenant), out.backend, now)] else []
  }

  /** A grant leaves the recent part of the past, and its own entry. */
  lemma GrantLogsExactly(l: Ledger, pool: PoolConfig, request: Request, now: Time, l': Ledger, out: Outcome,
                         past: seq<Reservation>, p: PoolName, window: int, clock: Time)
    requires GrantLogged(l, pool, request, now, l', out, p) && clock <= now && window > 0
    requires p == pool.name ==> pool.fairShare.usageWindow == window
    requires Log(l.tenantLog, p) == Recent(past, clock - window)
    requires p in l.usageWindows ==> l.usageWindows[p] == window
    requires p !in l.usageWindows ==> past == []
    ensures Log(l'.tenantLog, p) == Recent(past + EntryFor(pool, request, out, now, p), now - window)
    ensures p in l'.usageWindows <==> p in l.usageWindows || p == pool.name
    ensures p in l'.usageWindows ==> l'.usageWindows[p] == window
  {
    OpenedLog(l, pool, past, p, window, clock, now);
    LogExtends(Opened(l, pool, now), l', past, EntryFor(pool, request, out, now, p), p, now - window);
  }

  lemma LogExtends(swept: Ledger, l': Ledger, past: seq<Reservation>, added: seq<Reservation>, p: PoolName,
                   cutoff: Time)
    requires |added| <= 1 && forall r <- added :: r.at >= cutoff
    requires Log(swept.tenantLog, p) == Recent(past, cutoff)
    requires Log(l'.tenantLog, p) == Log(swept.tenantLog, p) + added
    ensures Log(l'.tenantLog, p) == Recent(past + added, cutoff)
  {
    RecentExtends(past, added, cutoff);
  }

  lemma GrantedLog(m: Moment, m': Moment, pool: PoolConfig, request: Request, out: Outcome, p: PoolName, window: int)
    requires window > 0 && LogExact(m, p, window) && m.clock <= m'.clock
    requires p == pool.name ==> pool.fairShare.usageWindow == window
    requires GrantLogged(m.ledger, pool, request, m'.clock, m'.ledger, out, p)
    requires GrewBy(m, m', p, EntryFor(pool, request, out, m'.clock, p))
    ensures LogExact(m', p, window)
  {
    GrantLogsExactly(m.ledger, pool, request, m'.clock, m'.ledger, out, Log(m.history, p), p, window, m.clock);
  }

  /** The full history of the pool grew by these entries. */
  predicate GrewBy(m: Moment, m': Moment, p: PoolName, added: seq<Reservation>) {
    Log(m'.history, p) == Log(m.history, p) + added
  }

  lemma RecentExtends(log: seq<Reservation>, added: seq<Reservation>, cutoff: Time)
    requires |added| <= 1 && forall r <- added :: r.at >= cutoff
    ensures Recent(log + added, cutoff) == Recent(log, cutoff) + added
  {
    if added == [] {
      assert log + added == log;
    } else {
      assert added == [added[0]];
      FilterAppend(log, added[0], Since(cutoff));
    }
  }

  lemma GrantHistory(m: Moment, e: Event, m': Moment, p: PoolName)
    requires Step(m, e, m') && e.Reserve? && e.out.Granted?
    ensures m'.clock == e.now
    ensures GrewBy(m, m', p, EntryFor(e.pool, e.request, e.out, e.now, p))
  {
  }

  lemma NotedAt(l: Ledger, pool: PoolConfig, p: PoolName)
    requires p == pool.name ==> pool.fairShare.usageWindow > 0
    ensures Log(Noted(l, pool).tenantLog, p) == Log(l.tenantLog, p)
    ensures p in Noted(l, pool).usageWindows <==> p in l.usageWindows || p == pool.name
    ensures p in Noted(l, pool).usageWindows ==>
              Noted(l, pool).usageWindows[p] == if p == pool.name then pool.fairShare.usageWindow else l.usageWindows[p]
  {
  }

  lemma OpenedIsPruned(l: Ledger, pool: PoolConfig, now: Time)
    ensures Opened(l, pool, now).tenantLog == Pruned(Noted(l, pool), now).tenantLog
    ensures Opened(l, pool, now).usageWindows == Pruned(Noted(l, pool), now).usageWindows
  {
  }

  lemma OpenedLog(l: Ledger, pool: PoolConfig, past: seq<Reservation>, p: PoolName, window: int, clock: Time, now: Time)
    requires clock <= now && window > 0
    requires p == pool.name ==> pool.fairShare.usageWindow == window
    requires Log(l.tenantLog, p) == Recent(past, clock - window)
    requires p in l.usageWindows ==> l.usageWindows[p] == window
    requires p !in l.usageWindows ==> past == []
    ensures var swept := Opened(l, pool, now);
            && Log(swept.tenantLog, p) == Recent(past, now - window)
            && (p in swept.usageWindows <==> p in l.usageWindows || p == pool.name)
            && (p in swept.usageWindows ==> swept.usageWindows[p] == window)
  {
    var noted := Noted(l, pool);
    NotedAt(l, pool, p);
    OpenedIsPruned(l, pool, now);
    PruningIsExact(noted, past, p, window, clock, now);
  }

  lemma StepKeepsLogs(cfg: map<PoolName, PoolConfig>, m: Moment, e: Event, m': Moment)
    requires Step(m, e, m') && (e.Reserve? ==> Conforms(cfg, e.pool))
    requires LogsExact(cfg, m)
    ensures LogsExact(cfg, m')
  {
    forall p | p in cfg && cfg[p].fairShare.usageWindow > 0
      ensures LogExact(m', p, cfg[p].fairShare.usageWindow)
    {
      var window := cfg[p].fairShare.usageWindow;
      assert LogExact(m, p, window);
      if e.Reserve? {
        ReserveKeepsLog(m, e, m', p, window);
      } else {
        var h := m.held[e.hold];
        PruningIsExact(Returned(m.ledger, h.pool, h.backend, e.tenant), Log(m.history, p), p, window, m.clock, e.now);
      }
    }
  }

  /** Under a monotone clock and a fixed window, scoring from the pruned log counts
      what scoring from the full reservation history would count. */
  lemma UsageMatchesHistory(cfg: map<PoolName, PoolConfig>, m: Moment, pool: PoolConfig, b: BackendName,
                            tenant: string, now: Time)
    requires LogsExact(cfg, m) && Conforms(cfg, pool) && m.clock <= now && pool.fairShare.usageWindow > 0
    ensures TenantUsage(Opened(m.ledger, pool, now), pool, b, tenant, now)
            == Count(Log(m.history, pool.name), UsedBy(b, tenant, now - pool.fairShare.usageWindow))
  {
    var window := pool.fairShare.usageWindow;
    assert LogExact(m, pool.name, window);
    OpenedLog(m.ledger, pool, Log(m.history, pool.name), pool.name, window, m.clock, now);
    UsageFromLog(Opened(m.ledger, pool, now), pool, b, tenant, now, Log(m.history, pool.name));
  }

  lemma UsageFromLog(l: Ledger, pool: PoolConfig, b: BackendName, tenant: string, now: Time, history: seq<Reservation>)
    requires pool.fairShare.usageWindow > 0
    requires Log(l.tenantLog, pool.name) == Recent(history, now - pool.fairShare.usageWindow)
    ensures TenantUsage(l, pool, b, tenant, now) == Count(history, UsedBy(b, tenant, now - pool.fairShare.usageWindow))
  {
    var cutoff := now - pool.fairShare.usageWindow;
    var used := UsedBy(b, tenant, cutoff);
    CountFilter(history, Since(cutoff), used, used);
  }

  // ------------------------------------------------------------------- starvation

  /** From mark i on, the lane was denied again and again with no idle gap and no admission. */
  ghost predicate UnbrokenFrom(marks: seq<Mark>, i: nat, after: int) {
    && i < |marks|
    && (forall k | i <= k < |marks| :: marks[k].Denial?)
    && (forall k | i <= k < |marks| - 1 :: marks[k + 1].at - marks[k].at <= IdleGap(after))
  }

  ghost predicate Timely(marks: seq<Mark>, clock: Time) {
    && (forall k | 0 <= k < |marks| - 1 :: marks[k].at <= marks[k + 1].at)
    && (marks != [] ==> marks[|marks| - 1].at <= clock)
  }

  /** Where the last unbroken series of denials begins. */
  function RunStart(marks: seq<Mark>, after: int): (i: nat)
    requires marks != [] && marks[|marks| - 1].Denial?
    ensures i < |marks|
  {
    var n := |marks| - 1;
    if n > 0 && marks[n - 1].Denial? && marks[n].at - marks[n - 1].at <= IdleGap(after)
    then RunStart(marks[..n], after)
    else n
  }

  /** RunStart is the earliest mark from which the series is unbroken. */
  lemma {:induction false} RunStartIsEarliest(marks: seq<Mark>, after: int)
    requires marks != [] && marks[|marks| - 1].Denial?
    ensures UnbrokenFrom(marks, RunStart(marks, after), after)
    ensures forall j: nat | UnbrokenFrom(marks, j, after) :: RunStart(marks, after) <= j
  {
    var n := |marks| - 1;
    if n > 0 && marks[n - 1].Denial? && marks[n].at - marks[n - 1].at <= IdleGap(after) {
      RunStartIsEarliest(marks[..n], after);
      UnbrokenExtends(marks, RunStart(marks[..n], after), after);
      forall j: nat | UnbrokenFrom(marks, j, after) ensures RunStart(marks, after) <= j {
        if j < n { UnbrokenShrinks(marks, j, after); }
      }
    } else {
      forall j: nat | UnbrokenFrom(marks, j, after) ensures n <= j {
        if j < n { UnbrokenShrinks(marks, j, after); }
      }
    }
  }

  lemma UnbrokenShrinks(marks: seq<Mark>, j: nat, after: int)
    requires UnbrokenFrom(marks, j, after) && j < |marks| - 1
    ensures UnbrokenFrom(marks[..|marks| - 1], j, after)
    ensures marks[|marks| - 2].Denial? && marks[|marks| - 1].at - marks[|marks| - 2].at <= IdleGap(after)
  {
    assert marks[|marks| - 2 + 1].at - marks[|marks| - 2].at <= IdleGap(after);
  }

  lemma UnbrokenExtends(marks: seq<Mark>, j: nat, after: int)
    requires |marks| > 1 && marks[|marks| - 1].Denial?
    requires marks[|marks| - 1].at - marks[|marks| - 2].at <= IdleGap(after)
    requires UnbrokenFrom(marks[..|marks| - 1], j, after)
    ensures UnbrokenFrom(marks, j, after)
  {
    var n := |marks| - 1;
    forall k | j <= k < n + 1 ensures marks[k].Denial? {
      if k < n { assert marks[..n][k] == marks[k]; }
    }
    forall k | j <= k < n ensures marks[k + 1].at - marks[k].at <= IdleGap(after) {
      if k < n - 1 { assert marks[..n][k + 1] == marks[k + 1] && marks[..n][k] == marks[k]; }
    }
  }

  function Track(l: Ledger, lane: Lane): Option<Streak> {
    if lane in l.starvation then Some(l.starvation[lane]) else None
  }

  /** The streak on file, if any, is the last unbroken series of denials, in full. */
  ghost predicate StreakExact(track: Option<Streak>, marks: seq<Mark>, clock: Time, after: int) {
    && Timely(marks, clock)
    && match track
       case Some(streak) =>
         && marks != [] && marks[|marks| - 1].Denial?
         && streak == Streak(marks[RunStart(marks, after)].at, marks[|marks| - 1].at)
       case None =>
         marks != [] ==> marks[|marks| - 1].Admission? || clock - marks[|marks| - 1].at > IdleGap(after)
  }

  ghost predicate StreaksExact(cfg: map<PoolName, PoolConfig>, m: Moment) {
    forall lane: Lane | lane.pool in cfg && cfg[lane.pool].fairShare.starvationAfter > 0 ::
      StreakExact(Track(m.ledger, lane), Marks(m, lane), m.clock, cfg[lane.pool].fairShare.starvationAfter)
  }

  /** A lane's streak after the question whether it starves. */
  function AfterLapse(track: Option<Streak>, now: Time, after: int): Option<Streak> {
    if track.Some? && now - track.value.lastDenied > IdleGap(after) then None else track
  }

  function AfterDenial(track: Option<Streak>, now: Time): Option<Streak> {
    if track.Some? then Some(track.value.(lastDenied := now)) else Some(Streak(now, now))
  }

  lemma DenialExtendsStreak(track: Option<Streak>, marks: seq<Mark>, clock: Time, now: Time, after: int)
    requires StreakExact(track, marks, clock, after) && clock <= now
    ensures StreakExact(AfterDenial(AfterLapse(track, now, after), now), marks + [Denial(now)], now, after)
  {
    var marks' := marks + [Denial(now)];
    assert marks'[..|marks|] == marks;
    assert marks != [] ==> marks'[|marks| - 1] == marks[|marks| - 1];
  }

  lemma OpenedTrack(l: Ledger, pool: PoolConfig, now: Time, lane: Lane)
    requires lane.pool != pool.name || pool.fairShare.starvationAfter > 0
    ensures Track(Opened(l, pool, now), lane) == Track(l, lane)
  {
  }

  lemma AskedTrack(l: Ledger, pool: PoolConfig, priorityClass: string, now: Time, lane: Lane)
    requires lane.pool != pool.name || pool.fairShare.starvationAfter > 0
    ensures Track(Asked(l, pool, priorityClass, now), lane) ==
            if lane == LaneOf(pool, priorityClass) then AfterLapse(Track(l, lane), now, pool.fairShare.starvationAfter)
            else Track(l, lane)
  {
  }

  /** The streak a lane is left with by a decision on the settled ledger. */
  lemma EffectTrack(l: Ledger, pool: PoolConfig, request: Request, now: Time, starving: bool,
                    l': Ledger, out: Outcome, lane: Lane)
    requires Effect(l, pool, request, now, starving, l', out)
    requires lane.pool != pool.name || pool.fairShare.starvationAfter > 0
    requires !Lapsed(l, LaneOf(pool, request.priorityClass), pool.fairShare.starvationAfter, now)
    ensures Track(l', lane) ==
            if lane != LaneOf(pool, request.priorityClass) then Track(l, lane)
            else if out.Granted? then None
            else if out.NoCapacity? && HeldBack(l, pool, request) then AfterDenial(Track(l, lane), now)
            else Track(l, lane)
  {
  }

  lemma NeverLapsedAfterAsking(l: Ledger, pool: PoolConfig, request: Request, now: Time)
    requires pool.fairShare.starvationAfter > 0
    ensures !Lapsed(Settled(l, pool, request, now), LaneOf(pool, request.priorityClass),
                    pool.fairShare.starvationAfter, now)
  {
    AskedTrack(Opened(l, pool, now), pool, request.priorityClass, now, LaneOf(pool, request.priorityClass));
  }

  /** How one call changes the streaks: its own lane by lapse, denial or admission, no other. */
  lemma StreakEffect(l: Ledger, pool: PoolConfig, request: Request, now: Time, l': Ledger, out: Outcome, lane: Lane)
    requires FairReserve(l, pool, request, now, l', out) && pool.fairShare.starvationAfter > 0
    ensures Track(l', lane) ==
            if lane != LaneOf(pool, request.priorityClass) || out.QuotaExceeded? then Track(l, lane)
            else if out.Granted? then None
            else var lapsed := AfterLapse(Track(l, lane), now, pool.fairShare.starvationAfter);
                 if SoftlyDenied(l, pool, request, now, out) then AfterDenial(lapsed, now) else lapsed
  {
    var swept, asked := Opened(l, pool, now), Settled(l, pool, request, now);
    ReserveEffect(l, pool, request, now, l', out);
    OpenedTrack(l, pool, now, lane);
    if !out.QuotaExceeded? {
      AskedTrack(swept, pool, request.priorityClass, now, lane);
      NeverLapsedAfterAsking(l, pool, request, now);
      EffectTrack(asked, pool, request, now, Starving(swept, pool, request.priorityClass, now), l', out, lane);
    }
  }

  /** Without a starvation setting a call leaves the other pools' streaks alone. */
  lemma OtherPoolsStay(l: Ledger, pool: PoolConfig, request: Request, now: Time, l': Ledger, out: Outcome, lane: Lane)
    requires FairReserve(l, pool, request, now, l', out)
    requires pool.fairShare.starvationAfter <= 0 && lane.pool != pool.name
    ensures Track(l', lane) == Track(l, lane)
  {
    var swept, asked := Opened(l, pool, now), Settled(l, pool, request, now);
    ReserveEffect(l, pool, request, now, l', out);
    OpenedTrack(l, pool, now, lane);
    assert asked == swept;
    if out.Granted? {
      GrantLeavesOtherPools(asked, pool, request, now, l', out.backend, lane);
    } else if !out.QuotaExceeded? {
      DenialTouchesNothing(asked, pool, request, now, l', out);
    }
  }

  lemma GrantLeavesOtherPools(l: Ledger, pool: PoolConfig, request: Request, now: Time, l': Ledger, b: BackendName,
                              lane: Lane)
    requires l' == Admitted(l, pool, b, request, now).(cursors := l'.cursors) && lane.pool != pool.name
    ensures Track(l', lane) == Track(l, lane)
  {
  }

  lemma DenialTouchesNothing(l: Ledger, pool: PoolConfig, request: Request, now: Time, l': Ledger, out: Outcome)
    requires Effect(l, pool, request, now, false, l', out) && !out.Granted? && pool.fairShare.starvationAfter <= 0
    ensures l' == l
  {
  }

  lemma StepKeepsStreaks(cfg: map<PoolName, PoolConfig>, m: Moment, e: Event, m': Moment)
    requires Step(m, e, m') && (e.Reserve? ==> Conforms(cfg, e.pool))
    requires StreaksExact(cfg, m)
    ensures StreaksExact(cfg, m')
  {
    forall lane: Lane | lane.pool in cfg && cfg[lane.pool].fairShare.starvationAfter > 0
      ensures StreakExact(Track(m'.ledger, lane), Marks(m', lane), m'.clock, cfg[lane.pool].fairShare.starvationAfter)
    {
      var after, marks := cfg[lane.pool].fairShare.starvationAfter, Marks(m, lane);
      assert StreakExact(Track(m.ledger, lane), marks, m.clock, after);
      if e.Reserve? {
        if lane == LaneOf(e.pool, e.request.priorityClass) {
          OwnStreak(m, e, m', lane, after);
        } else {
          OtherStreak(m, e, m', lane, after);
        }
      }
    }
  }

  lemma OwnStreak(m: Moment, e: Event, m': Moment, lane: Lane, after: int)
    requires Step(m, e, m') && e.Reserve? && lane == LaneOf(e.pool, e.request.priorityClass)
    requires e.pool.fairShare.starvationAfter == after > 0
    requires StreakExact(Track(m.ledger, lane), Marks(m, lane), m.clock, after)
    ensures StreakExact(Track(m'.ledger, lane), Marks(m', lane), m'.clock, after)
  {
    StreakEffect(m.ledger, e.pool, e.request, e.now, m'.ledger, e.out, lane);
    DenialExtendsStreak(Track(m.ledger, lane), Marks(m, lane), m.clock, e.now, after);
  }

  lemma OtherStreak(m: Moment, e: Event, m': Moment, lane: Lane, after: int)
    requires Step(m, e, m') && e.Reserve? && lane != LaneOf(e.pool, e.request.priorityClass)
    requires lane.pool == e.pool.name ==> e.pool.fairShare.starvationAfter > 0
    requires StreakExact(Track(m.ledger, lane), Marks(m, lane), m.clock, after)
    ensures StreakExact(Track(m'.ledger, lane), Marks(m', lane), m'.clock, after)
  {
    if e.pool.fairShare.starvationAfter > 0 {
      StreakEffect(m.ledger, e.pool, e.request, e.now, m'.ledger, e.out, lane);
    } else {
      OtherPoolsStay(m.ledger, e.pool, e.request, e.now, m'.ledger, e.out, lane);
    }
    assert Marks(m', lane) == Marks(m, lane);
  }

  /** A lane may bypass soft reserves exactly when it has really been denied by them,
      without an idle gap and without an admission, for at least starvationAfter. */
  lemma StarvingExactly(cfg: map<PoolName, PoolConfig>, m: Moment, pool: PoolConfig, priorityClass: string, now: Time)
    requires StreaksExact(cfg, m) && Conforms(cfg, pool) && pool.fairShare.starvationAfter > 0 && m.clock <= now
    ensures Starving(Opened(m.ledger, pool, now), pool, priorityClass, now) <==>
            Starved(Marks(m, LaneOf(pool, priorityClass)), now, pool.fairShare.starvationAfter)
  {
    var lane, after := LaneOf(pool, priorityClass), pool.fairShare.starvationAfter;
    var marks, track := Marks(m, lane), Track(m.ledger, lane);
    assert StreakExact(track, marks, m.clock, after);
    StarvedExactly(track, marks, m.clock, now, after);
    assert Track(Opened(m.ledger, pool, now), lane) == track;
  }

  /** The reference notion of starvation, over what has happened to the lane. */
  ghost predicate Starved(marks: seq<Mark>, now: Time, after: int) {
    exists i: nat :: && UnbrokenFrom(marks, i, after)
                     && now - marks[i].at >= after
                     && now - marks[|marks| - 1].at <= IdleGap(after)
  }

  lemma StarvedExactly(track: Option<Streak>, marks: seq<Mark>, clock: Time, now: Time, after: int)
    requires StreakExact(track, marks, clock, after) && clock <= now && after > 0
    ensures Starved(marks, now, after) <==>
            track.Some? && now - track.value.lastDenied <= IdleGap(after) && now - track.value.start >= after
  {
    if track.Some? {
      RunStartIsEarliest(marks, after);
      var i := RunStart(marks, after);
      forall j: nat | UnbrokenFrom(marks, j, after) ensures marks[i].at <= marks[j].at {
        Ascending(marks, clock, i, j);
      }
    }
  }

  lemma {:induction false} Ascending(marks: seq<Mark>, clock: Time, i: nat, j: nat)
    requires Timely(marks, clock) && i <= j < |marks|
    ensures marks[i].at <= marks[j].at
    decreases j - i
  {
    if i < j {
      Ascending(marks, clock, i + 1, j);
    }
  }

  // --------------------------------------------------------------------- selection

  /** An unpinned request that passes the quota fails exactly when no backend is open
      to it, and otherwise gets an open backend whose score no other open one beats. */
  lemma SelectionIsLeast(l: Ledger, pool: PoolConfig, request: Request, now: Time, l': Ledger, out: Outcome)
    requires FairReserve(l, pool, request, now, l', out) && request.backend.None?
    requires !QuotaBlocks(Opened(l, pool, now), pool, NormalizeTenant(request.tenant))
    ensures var asked := Settled(l, pool, request, now);
            var starving := Starving(Opened(l, pool, now), pool, request.priorityClass, now);
            && (out.Granted? <==> exists b :: Open(asked, pool, b, request.priorityClass, starving))
            && (!out.Granted? ==> out == NoCapacity)
            && (out.Granted? ==> Open(asked, pool, out.backend, request.priorityClass, starving))
            && (out.Granted? ==> forall b | Open(asked, pool, b, request.priorityClass, starving) ::
                  ScoreAt(asked, pool, out.backend, request, now) <= ScoreAt(asked, pool, b, request, now))
  {
    var asked := Settled(l, pool, request, now);
    var starving := Starving(Opened(l, pool, now), pool, request.priorityClass, now);
    var ring :| IsRing(pool, ring) && Selects(asked, pool, request, now, starving, ring, l', out);
    RingMembers(pool, ring);
    LeastOnRing(asked, pool, request, now, starving, ring, l', out);
  }

  lemma LeastOnRing(l: Ledger, pool: PoolConfig, request: Request, now: Time, starving: bool,
                    ring: seq<BackendName>, l': Ledger, out: Outcome)
    requires SamePool(pool, ring) && Selects(l, pool, request, now, starving, ring, l', out)
    ensures out.Granted? <==> exists b :: Open(l, pool, b, request.priorityClass, starving)
    ensures !out.Granted? ==> out == NoCapacity
    ensures out.Granted? ==> Open(l, pool, out.backend, request.priorityClass, starving)
    ensures out.Granted? ==> forall b | Open(l, pool, b, request.priorityClass, starving) ::
              ScoreAt(l, pool, out.backend, request, now) <= ScoreAt(l, pool, b, request, now)
  {
    if exists b <- ring :: Open(l, pool, b, request.priorityClass, starving) {
      var k: nat :| && k < |ring|
                    && IsBest(l, pool, request, now, starving, ring, k)
                    && out == Granted(EntryAt(l, pool, ring, k))
                    && l' == Admitted(l, pool, EntryAt(l, pool, ring, k), request, now)
                             .(cursors := l.cursors[pool.name := Spot(Base(l), pool.name, |ring|, k + 1)]);
      forall b | Open(l, pool, b, request.priorityClass, starving)
        ensures ScoreAt(l, pool, out.backend, request, now) <= ScoreAt(l, pool, b, request, now)
      {
        BestIsLeast(l, pool, request, now, starving, ring, k, b);
      }
    }
  }

  lemma BestIsLeast(l: Ledger, pool: PoolConfig, request: Request, now: Time, starving: bool,
                    ring: seq<BackendName>, k: nat, b: BackendName)
    requires k < |ring| && IsBest(l, pool, request, now, starving, ring, k)
    requires b in ring && Open(l, pool, b, request.priorityClass, starving)
    ensures ScoreAt(l, pool, EntryAt(l, pool, ring, k), request, now) <= ScoreAt(l, pool, b, request, now)
  {
    var j :| 0 <= j < |ring| && ring[j] == b;
    var d := From(Base(l), pool.name, j, |ring|);
    assert EntryAt(l, pool, ring, d) == b;
  }

  /** For a given ring the tie-break by ring offset leaves one possible choice. */
  lemma SelectionIsUnique(l: Ledger, pool: PoolConfig, request: Request, now: Time, starving: bool,
                          ring: seq<BackendName>, j: nat, k: nat)
    requires j < |ring| && k < |ring|
    requires IsBest(l, pool, request, now, starving, ring, j) && IsBest(l, pool, request, now, starving, ring, k)
    ensures j == k
  {
    var sj, sk := ScoreAt(l, pool, EntryAt(l, pool, ring, j), request, now),
                  ScoreAt(l, pool, EntryAt(l, pool, ring, k), request, now);
    assert sj < sk || (sj == sk && j <= k);
    assert sk < sj || (sk == sj && k <= j);
  }

  // -------------------------------------------------------------------- whole runs

  ghost predicate Sound(cfg: map<PoolName, PoolConfig>, m: Moment) {
    && Books(m.ledger, m.held)
    && WithinCaps(cfg, m.held)
    && LanesHold(cfg, m.held)
    && LogsExact(cfg, m)
    && StreaksExact(cfg, m)
  }

  lemma StartIsSound(cfg: map<PoolName, PoolConfig>)
    ensures Sound(cfg, START)
  {
  }

  /** Whatever sequence of reservations and matched releases has run, the counters
      balance, no cap is exceeded, the lanes hold, and log and streaks are exact. */
  lemma {:induction false} RunsStaySound(cfg: map<PoolName, PoolConfig>, ms: seq<Moment>, es: seq<Event>, n: nat)
    requires IsRun(cfg, ms, es) && n <= |es|
    ensures Sound(cfg, ms[n])
  {
    if n == 0 {
      StartIsSound(cfg);
    } else {
      RunsStaySound(cfg, ms, es, n - 1);
      var m, e, m' := ms[n - 1], es[n - 1], ms[n];
      assert Step(m, e, m');
      assert e in es;
      StepKeepsBooks(m, e, m');
      StepKeepsLogs(cfg, m, e, m');
      StepKeepsStreaks(cfg, m, e, m');
      if e.Release? {
        ReleaseWithinCaps(cfg, m.held, e.hold);
        ReleaseKeepsLanes(cfg, m.held, e.hold);
      } else if e.out.Granted? {
        GrantWithinCaps(cfg, m, e, m');
        GrantKeepsLanes(cfg, m, e, m');
      }
    }
  }
}
