/** The priority fair-share scheduler: per-backend and per-tenant counters, soft
    reserves per priority lane, tenant quotas, a starvation streak that bypasses
    soft reserves, and a usage log pruned as time moves. */
module FairShare {
  import opened Basics
  import opened Model
  import opened Ring
  import opened Rotation

  const HIGH_WEIGHT := 2
  const NORMAL_WEIGHT := 1
  const SHARE_SCALE := 1000
  const CLASS_BOOST := 500
  const IDLE_GAP_FACTOR := 2

  // ------------------------------------------------------ lanes and soft reserves

  function ClassWeight(fs: FairShareConfig, priorityClass: string): (w: int)
    ensures w > 0
  {
    var name := Fold(priorityClass);
    if name == "" then NORMAL_WEIGHT
    else if name in fs.priorityClasses && fs.priorityClasses[name] > 0 then fs.priorityClasses[name]
    else if name == "high" then HIGH_WEIGHT
    else NORMAL_WEIGHT
  }

  /** Slots reserved for lanes strictly heavier than w. */
  function HeldAbove(fs: FairShareConfig, reserves: seq<SoftReserve>, w: int): (held: nat)
    ensures (forall r <- reserves :: r.slots <= 0 || ClassWeight(fs, r.priorityClass) <= w) <==> held == 0
  {
    if reserves == [] then 0
    else
      var r := reserves[|reserves| - 1];
      assert reserves == reserves[..|reserves| - 1] + [r];
      HeldAbove(fs, reserves[..|reserves| - 1], w)
      + (if r.slots > 0 && ClassWeight(fs, r.priorityClass) > w then r.slots else 0)
  }

  /** Slots withheld from a request of weight w. */
  function Withheld(fs: FairShareConfig, w: int): nat {
    if fs.enabled then HeldAbove(fs, fs.softReserves, w) else 0
  }

  /** The concurrency limit a request of weight w may fill. */
  function LaneRoom(maxRunners: int, fs: FairShareConfig, w: int): nat {
    Max(0, maxRunners - Withheld(fs, w))
  }

  /** A heavier lane never sees less room than a lighter one. */
  lemma {:induction false} HeavierSeesMore(fs: FairShareConfig, reserves: seq<SoftReserve>, v: int, w: int)
    requires v <= w
    ensures HeldAbove(fs, reserves, w) <= HeldAbove(fs, reserves, v)
  {
    if reserves != [] {
      HeavierSeesMore(fs, reserves[..|reserves| - 1], v, w);
    }
  }

  method SoftReserveHeld(fs: FairShareConfig, priorityClass: string) returns (held: nat)
    ensures held == Withheld(fs, ClassWeight(fs, priorityClass))
  {
    if !fs.enabled || |fs.softReserves| == 0 { return 0; }
    var requestWeight := ClassWeight(fs, priorityClass);
    held := 0;
    for i := 0 to |fs.softReserves|
      invariant held == HeldAbove(fs, fs.softReserves[..i], requestWeight)
    {
      assert fs.softReserves[..i + 1][..i] == fs.softReserves[..i];
      var r := fs.softReserves[i];
      if r.slots <= 0 { continue; }
      if ClassWeight(fs, r.priorityClass) > requestWeight { held := held + r.slots; }
    }
    assert fs.softReserves[..|fs.softReserves|] == fs.softReserves;
  }

  method EffectiveMaxRunners(maxRunners: int, fs: FairShareConfig, priorityClass: string) returns (room: int)
    ensures room == LaneRoom(maxRunners, fs, ClassWeight(fs, priorityClass))
  {
    if maxRunners <= 0 { return 0; }
    var held := SoftReserveHeld(fs, priorityClass);
    if held <= 0 { return maxRunners; }
    var effective := maxRunners - held;
    if effective < 0 { return 0; }
    return effective;
  }

  /** Unknown classes share the normal lane, so the starvation table stays bounded. */
  function CanonicalClass(fs: FairShareConfig, priorityClass: string): string {
    var name := Fold(priorityClass);
    if name == "" then "normal"
    else if name in fs.priorityClasses && fs.priorityClasses[name] > 0 then name
    else if name == "high" then "high"
    else "normal"
  }

  // --------------------------------------------------------------------- ledger

  datatype TenantSlot = TenantSlot(pool: PoolName, backend: BackendName, tenant: string)
  datatype Reservation = Reservation(tenant: string, backend: BackendName, at: Time)
  datatype Lane = Lane(pool: PoolName, priorityClass: string)
  datatype Streak = Streak(start: Time, lastDenied: Time)

  datatype Ledger = Ledger(
    cursors: map<PoolName, int>,
    active: map<Slot, int>,
    tenantActive: map<TenantSlot, int>,
    tenantLog: map<PoolName, seq<Reservation>>,
    usageWindows: map<PoolName, int>,
    starvation: map<Lane, Streak>)

  const EMPTY_LEDGER := Ledger(map[], map[], map[], map[], map[], map[])

  function Base(l: Ledger): Counters { Counters(l.cursors, l.active) }

  ghost function OfTenant(pool: PoolName, tenant: string): TenantSlot -> bool {
    (k: TenantSlot) => k.pool == pool && k.tenant == tenant
  }

  ghost function TenantTotal(counts: map<TenantSlot, int>, pool: PoolName, tenant: string): int {
    SumWhere(counts, OfTenant(pool, tenant))
  }

  function Since(cutoff: Time): Reservation -> bool { (r: Reservation) => r.at >= cutoff }

  function Log(logs: map<PoolName, seq<Reservation>>, pool: PoolName): seq<Reservation> {
    if pool in logs then logs[pool] else []
  }

  function Recent(log: seq<Reservation>, cutoff: Time): seq<Reservation> { Filter(log, Since(cutoff)) }

  /** One pool's log without the entries older than cutoff; an empty log is dropped. */
  function PrunedLog(logs: map<PoolName, seq<Reservation>>, pool: PoolName, cutoff: Time)
    : map<PoolName, seq<Reservation>>
  {
    var kept := Recent(Log(logs, pool), cutoff);
    if kept == [] then logs - {pool} else logs[pool := kept]
  }

  /** What remains of a log under a window; a non-positive window keeps nothing. */
  function Windowed(log: seq<Reservation>, window: int, now: Time): seq<Reservation> {
    if window > 0 then Recent(log, now - window) else []
  }

  /** The logs after pruning the pools in seen. */
  function PrunedSome(logs: map<PoolName, seq<Reservation>>, windows: map<PoolName, int>, seen: set<PoolName>,
                      now: Time)
    : map<PoolName, seq<Reservation>>
    requires seen <= windows.Keys
  {
    map p | p in logs && (p in seen ==> Windowed(logs[p], windows[p], now) != [])
      :: if p in seen then Windowed(logs[p], windows[p], now) else logs[p]
  }

  function PrunedLogs(logs: map<PoolName, seq<Reservation>>, windows: map<PoolName, int>, now: Time)
    : map<PoolName, seq<Reservation>>
  {
    PrunedSome(logs, windows, windows.Keys, now)
  }

  /** Pruning one more pool. */
  lemma PruneOne(logs: map<PoolName, seq<Reservation>>, windows: map<PoolName, int>, seen: set<PoolName>,
                 p: PoolName, now: Time)
    requires p in windows && seen <= windows.Keys && p !in seen
    ensures PrunedSome(logs, windows, seen + {p}, now) ==
            var before := PrunedSome(logs, windows, seen, now);
            if windows[p] <= 0 then before - {p} else PrunedLog(before, p, now - windows[p])
  {
    var before, after := PrunedSome(logs, windows, seen, now), PrunedSome(logs, windows, seen + {p}, now);
    assert Log(before, p) == Log(logs, p);
    if Windowed(Log(logs, p), windows[p], now) == [] {
      assert after == before - {p};
    } else {
      assert after == before[p := Windowed(logs[p], windows[p], now)];
    }
  }

  function PrunedWindows(windows: map<PoolName, int>): map<PoolName, int> {
    map p | p in windows && windows[p] > 0 :: windows[p]
  }

  function Pruned(l: Ledger, now: Time): Ledger {
    l.(tenantLog := PrunedLogs(l.tenantLog, l.usageWindows, now), usageWindows := PrunedWindows(l.usageWindows))
  }

  function Noted(l: Ledger, pool: PoolConfig): Ledger {
    if pool.fairShare.usageWindow <= 0
    then l.(usageWindows := l.usageWindows - {pool.name}, tenantLog := l.tenantLog - {pool.name})
    else l.(usageWindows := l.usageWindows[pool.name := pool.fairShare.usageWindow])
  }

  /** The housekeeping every reservation does before it decides anything. */
  function Opened(l: Ledger, pool: PoolConfig, now: Time): Ledger {
    var m := Pruned(Noted(l, pool), now);
    if pool.fairShare.starvationAfter <= 0
    then m.(starvation := map k | k in m.starvation && k.pool != pool.name :: m.starvation[k])
    else m
  }

  ghost predicate QuotaBlocks(l: Ledger, pool: PoolConfig, tenant: string) {
    var name := Fold(tenant);
    name in pool.fairShare.quotas && TenantTotal(l.tenantActive, pool.name, tenant) >= pool.fairShare.quotas[name]
  }

  function LaneOf(pool: PoolConfig, priorityClass: string): Lane {
    Lane(pool.name, CanonicalClass(pool.fairShare, priorityClass))
  }

  function IdleGap(after: int): int { after * IDLE_GAP_FACTOR }

  /** The streak has gone quiet for longer than the idle gap. */
  predicate Lapsed(l: Ledger, lane: Lane, after: int, now: Time) {
    lane in l.starvation && now - l.starvation[lane].lastDenied > IdleGap(after)
  }

  predicate Starving(l: Ledger, pool: PoolConfig, priorityClass: string, now: Time) {
    var after, lane := pool.fairShare.starvationAfter, LaneOf(pool, priorityClass);
    after > 0 && lane in l.starvation && !Lapsed(l, lane, after, now) && now - l.starvation[lane].start >= after
  }

  /** Asking whether a lane starves forgets a streak that has lapsed. */
  function Asked(l: Ledger, pool: PoolConfig, priorityClass: string, now: Time): (r: Ledger)
    ensures r == l.(starvation := r.starvation)
  {
    var after, lane := pool.fairShare.starvationAfter, LaneOf(pool, priorityClass);
    if after > 0 && Lapsed(l, lane, after, now) then l.(starvation := l.starvation - {lane}) else l
  }

  /** A soft-reserve denial continues the lane's streak, or starts a new one. */
  function DeniedAt(l: Ledger, pool: PoolConfig, priorityClass: string, now: Time): (r: Ledger)
    ensures r == l.(starvation := r.starvation)
  {
    var after, lane := pool.fairShare.starvationAfter, LaneOf(pool, priorityClass);
    if after <= 0 then l
    else if lane !in l.starvation || Lapsed(l, lane, after, now)
    then l.(starvation := l.starvation[lane := Streak(now, now)])
    else l.(starvation := l.starvation[lane := l.starvation[lane].(lastDenied := now)])
  }

  predicate HasCrossPoolRoom(cfg: BackendConfig, activeBackend: int) {
    !(cfg.crossPoolMaxRunners > 0 && activeBackend >= cfg.crossPoolMaxRunners)
  }

  predicate OpenTo(cfg: BackendConfig, active: int, activeBackend: int, fs: FairShareConfig, w: int, starving: bool) {
    && cfg.enabled && cfg.healthy
    && HasCrossPoolRoom(cfg, activeBackend)
    && active < if starving then cfg.maxRunners else LaneRoom(cfg.maxRunners, fs, w)
  }

  predicate SoftDenied(cfg: BackendConfig, active: int, activeBackend: int, fs: FairShareConfig, w: int) {
    && cfg.enabled && cfg.healthy
    && cfg.maxRunners > 0 && active < cfg.maxRunners
    && HasCrossPoolRoom(cfg, activeBackend)
    && active >= LaneRoom(cfg.maxRunners, fs, w)
  }

  ghost predicate Open(l: Ledger, pool: PoolConfig, b: BackendName, priorityClass: string, starving: bool) {
    && b in pool.backends
    && OpenTo(pool.backends[b], Get(l.active, Slot(pool.name, b)), BackendTotal(l.active, b),
              pool.fairShare, ClassWeight(pool.fairShare, priorityClass), starving)
  }

  ghost predicate Withholds(l: Ledger, pool: PoolConfig, b: BackendName, priorityClass: string) {
    && b in pool.backends
    && SoftDenied(pool.backends[b], Get(l.active, Slot(pool.name, b)), BackendTotal(l.active, b),
                  pool.fairShare, ClassWeight(pool.fairShare, priorityClass))
  }

  function UsedBy(b: BackendName, tenant: string, cutoff: Time): Reservation -> bool {
    (r: Reservation) => r.backend == b && r.tenant == tenant && r.at >= cutoff
  }

  ghost function TenantUsage(l: Ledger, pool: PoolConfig, b: BackendName, tenant: string, now: Time): int {
    if pool.fairShare.usageWindow <= 0 then Get(l.tenantActive, TenantSlot(pool.name, b, tenant))
    else Count(Log(l.tenantLog, pool.name), UsedBy(b, tenant, now - pool.fairShare.usageWindow))
  }

  /** Lower is better: load on the backend plus the tenant's own share, less a boost for heavy lanes.
      Usage is never negative, so Euclidean division rounds as the original does. */
  function Score(activeTotal: int, tenantUsage: int, w: int): int
    requires w > 0
  {
    activeTotal * SHARE_SCALE + (tenantUsage * SHARE_SCALE) / w - (w - 1) * CLASS_BOOST
  }

  ghost function ScoreAt(l: Ledger, pool: PoolConfig, b: BackendName, request: Request, now: Time): int {
    Score(Get(l.active, Slot(pool.name, b)),
          TenantUsage(l, pool, b, NormalizeTenant(request.tenant), now),
          ClassWeight(pool.fairShare, request.priorityClass))
  }

  /** A granted slot: both counters rise, the log remembers, the lane's streak ends. */
  function Admitted(l: Ledger, pool: PoolConfig, b: BackendName, request: Request, now: Time): Ledger {
    var tenant := NormalizeTenant(request.tenant);
    var slot, tslot := Slot(pool.name, b), TenantSlot(pool.name, b, tenant);
    var m := l.(active := l.active[slot := Get(l.active, slot) + 1],
                tenantActive := l.tenantActive[tslot := Get(l.tenantActive, tslot) + 1],
                starvation := l.starvation - {LaneOf(pool, request.priorityClass)});
    if pool.fairShare.usageWindow <= 0 then m
    else m.(usageWindows := m.usageWindows[pool.name := pool.fairShare.usageWindow],
            tenantLog := m.tenantLog[pool.name := Log(m.tenantLog, pool.name) + [Reservation(tenant, b, now)]])
  }

  /** Ring offset k is the choice: an open backend whose score no other open entry
      beats, and that no equally good entry precedes. */
  ghost predicate IsBest(l: Ledger, pool: PoolConfig, request: Request, now: Time, starving: bool,
                         ring: seq<BackendName>, k: nat)
    requires k < |ring|
  {
    && Open(l, pool, EntryAt(l, pool, ring, k), request.priorityClass, starving)
    && forall o: nat | o < |ring| && Open(l, pool, EntryAt(l, pool, ring, o), request.priorityClass, starving) ::
         var best, other := ScoreAt(l, pool, EntryAt(l, pool, ring, k), request, now),
                            ScoreAt(l, pool, EntryAt(l, pool, ring, o), request, now);
         best < other || (best == other && k <= o)
  }

  /** Among the first offset entries, k is the best open one, if any was found. */
  ghost predicate BestSoFar(l: Ledger, pool: PoolConfig, request: Request, now: Time, starving: bool,
                            ring: seq<BackendName>, offset: nat, found: bool, k: nat)
    requires offset <= |ring| && (found ==> k < offset)
  {
    if !found
    then forall o: nat | o < offset :: !Open(l, pool, EntryAt(l, pool, ring, o), request.priorityClass, starving)
    else
      && Open(l, pool, EntryAt(l, pool, ring, k), request.priorityClass, starving)
      && forall o: nat | o < offset && Open(l, pool, EntryAt(l, pool, ring, o), request.priorityClass, starving) ::
           var best, other := ScoreAt(l, pool, EntryAt(l, pool, ring, k), request, now),
                              ScoreAt(l, pool, EntryAt(l, pool, ring, o), request, now);
           best < other || (best == other && k <= o)
  }

  function EntryAt(l: Ledger, pool: PoolConfig, ring: seq<BackendName>, o: nat): BackendName
    requires o < |ring|
  {
    ring[Spot(Base(l), pool.name, |ring|, o)]
  }

  /** Some backend the request could use is closed to it only by soft reserves. */
  ghost predicate HeldBack(l: Ledger, pool: PoolConfig, request: Request) {
    match request.backend
    case Some(b) => Withholds(l, pool, b, request.priorityClass)
    case None => exists b :: Withholds(l, pool, b, request.priorityClass)
  }

  /** The outcome of a denied request: a soft-reserve denial is put on record. */
  ghost predicate Refused(l: Ledger, pool: PoolConfig, request: Request, now: Time, l': Ledger) {
    l' == if HeldBack(l, pool, request) then DeniedAt(l, pool, request.priorityClass, now) else l
  }

  ghost predicate Selects(l: Ledger, pool: PoolConfig, request: Request, now: Time, starving: bool,
                          ring: seq<BackendName>, l': Ledger, out: Outcome) {
    if forall b <- ring :: !Open(l, pool, b, request.priorityClass, starving)
    then
      && out == NoCapacity
      && Refused(l, pool, request, now, l')
    else
      exists k: nat | k < |ring| ::
        && IsBest(l, pool, request, now, starving, ring, k)
        && out == Granted(EntryAt(l, pool, ring, k))
        && l' == Admitted(l, pool, EntryAt(l, pool, ring, k), request, now)
                 .(cursors := l.cursors[pool.name := Spot(Base(l), pool.name, |ring|, k + 1)])
  }

  ghost predicate Decides(l: Ledger, pool: PoolConfig, request: Request, now: Time, starving: bool,
                          l': Ledger, out: Outcome) {
    match request.backend
    case Some(b) =>
      if b !in pool.backends then out == UnknownBackend && l' == l
      else if Open(l, pool, b, request.priorityClass, starving)
      then out == Granted(b) && l' == Admitted(l, pool, b, request, now)
      else out == NoCapacity && Refused(l, pool, request, now, l')
    case None =>
      exists ring :: IsRing(pool, ring) && Selects(l, pool, request, now, starving, ring, l', out)
  }

  ghost predicate FairReserve(l: Ledger, pool: PoolConfig, request: Request, now: Time, l': Ledger, out: Outcome) {
    var swept := Opened(l, pool, now);
    if QuotaBlocks(swept, pool, NormalizeTenant(request.tenant))
    then out == QuotaExceeded && l' == swept
    else Decides(Asked(swept, pool, request.priorityClass, now), pool, request, now,
                 Starving(swept, pool, request.priorityClass, now), l', out)
  }

  /** Releasing returns one slot and one unit of the named tenant's share. */
  function Returned(l: Ledger, pool: PoolName, b: BackendName, tenant: string): Ledger {
    var slot, tslot := Slot(pool, b), TenantSlot(pool, b, NormalizeTenant(tenant));
    l.(active := if Get(l.active, slot) > 0 then l.active[slot := l.active[slot] - 1] else l.active,
       tenantActive := if Get(l.tenantActive, tslot) > 1 then l.tenantActive[tslot := l.tenantActive[tslot] - 1]
                       else if Get(l.tenantActive, tslot) == 1 then l.tenantActive - {tslot}
                       else l.tenantActive)
  }

  function FairRelease(l: Ledger, pool: PoolName, b: BackendName, tenant: string, now: Time): Ledger {
    Pruned(Returned(l, pool, b, tenant), now)
  }

  // ---------------------------------------------------------------- the scheduler

  class PriorityFairShare {
    var cursors: map<PoolName, int>
    var active: map<Slot, int>
    var tenantActive: map<TenantSlot, int>
    var tenantLog: map<PoolName, seq<Reservation>>
    var usageWindows: map<PoolName, int>
    var starvation: map<Lane, Streak>

    constructor ()
      ensures View() == EMPTY_LEDGER
    {
      cursors, active, tenantActive := map[], map[], map[];
      tenantLog, usageWindows, starvation := map[], map[], map[];
    }

    ghost function View(): Ledger
      reads this
    {
      Ledger(cursors, active, tenantActive, tenantLog, usageWindows, starvation)
    }

    method NoteUsageWindow(pool: PoolConfig)
      modifies this
      ensures View() == Noted(old(View()), pool)
    {
      if pool.fairShare.usageWindow <= 0 {
        usageWindows := usageWindows - {pool.name};
        tenantLog := tenantLog - {pool.name};
        return;
      }
      usageWindows := usageWindows[pool.name := pool.fairShare.usageWindow];
    }

    /** Drops one pool's entries older than cutoff, keeping the rest in order. */
    method PruneLog(pool: PoolName, cutoff: Time)
      modifies `tenantLog
      ensures tenantLog == PrunedLog(old(tenantLog), pool, cutoff)
    {
      var log := Log(tenantLog, pool);
      var kept: seq<Reservation> := [];
      for i := 0 to |log|
        invariant tenantLog == old(tenantLog)
        invariant kept == Recent(log[..i], cutoff)
      {
        FilterAppend(log[..i], log[i], Since(cutoff));
        assert log[..i + 1] == log[..i] + [log[i]];
        if log[i].at >= cutoff { kept := kept + [log[i]]; }
      }
      assert log[..|log|] == log;
      assert kept == Recent(log, cutoff);
      if |kept| == 0 {
        tenantLog := tenantLog - {pool};
        return;
      }
      tenantLog := tenantLog[pool := kept];
    }

    method PruneAllTenantLogs(now: Time)
      modifies this
      ensures View() == Pruned(old(View()), now)
    {
      ghost var logs, windows := tenantLog, usageWindows;
      var rest := usageWindows.Keys;
      ghost var seen := {};
      assert PrunedSome(logs, windows, seen, now) == logs;
      while rest != {}
        invariant seen + rest == windows.Keys && seen !! rest
        invariant View() == old(View()).(tenantLog := tenantLog, usageWindows := usageWindows)
        invariant usageWindows == map p | p in windows && (p in rest || windows[p] > 0) :: windows[p]
        invariant tenantLog == PrunedSome(logs, windows, seen, now)
        decreases rest
      {
        var p := NextKey(rest);
        var window := usageWindows[p];
        PruneOne(logs, windows, seen, p, now);
        if window <= 0 {
          tenantLog := tenantLog - {p};
          usageWindows := usageWindows - {p};
        } else {
          PruneLog(p, now - window);
        }
        seen, rest := seen + {p}, rest - {p};
      }
      assert seen == windows.Keys;
    }

    method DropPoolStarvation(pool: PoolName)
      modifies `starvation
      ensures starvation == map k | k in old(starvation) && k.pool != pool :: old(starvation)[k]
    {
      ghost var was := starvation;
      var rest := starvation.Keys;
      while rest != {}
        invariant rest <= was.Keys
        invariant starvation == map k | k in was && (k in rest || k.pool != pool) :: was[k]
        decreases rest
      {
        var k := NextKey(rest);
        if k.pool == pool { starvation := starvation - {k}; }
        rest := rest - {k};
      }
    }

    method ActiveTenant(pool: PoolName, tenant: string) returns (total: int)
      ensures total == TenantTotal(tenantActive, pool, tenant)
    {
      total := 0;
      var rest := tenantActive;
      while rest.Keys != {}
        invariant rest.Keys <= tenantActive.Keys && forall k <- rest :: rest[k] == tenantActive[k]
        invariant total + SumWhere(rest, OfTenant(pool, tenant)) == TenantTotal(tenantActive, pool, tenant)
        decreases rest.Keys
      {
        var k := NextKey(rest.Keys);
        SumWhereRemove(rest, k, OfTenant(pool, tenant));
        if k.pool == pool && k.tenant == tenant { total := total + rest[k]; }
        rest := rest - {k};
      }
      assert rest == map[];
    }

    method ActiveBackend(b: BackendName) returns (total: int)
      ensures total == BackendTotal(active, b)
    {
      total := 0;
      var rest := active;
      while rest.Keys != {}
        invariant rest.Keys <= active.Keys && forall k <- rest :: rest[k] == active[k]
        invariant total + SumWhere(rest, OnBackend(b)) == BackendTotal(active, b)
        decreases rest.Keys
      {
        var k := NextKey(rest.Keys);
        SumWhereRemove(rest, k, OnBackend(b));
        if k.backend == b { total := total + rest[k]; }
        rest := rest - {k};
      }
      assert rest == map[];
    }

    method IsStarving(pool: PoolConfig, priorityClass: string, now: Time) returns (starving: bool)
      modifies `starvation
      ensures View() == Asked(old(View()), pool, priorityClass, now)
      ensures starving == Starving(old(View()), pool, priorityClass, now)
    {
      var after := pool.fairShare.starvationAfter;
      if after <= 0 { return false; }
      var lane := LaneOf(pool, priorityClass);
      if lane !in starvation { return false; }
      var track := starvation[lane];
      if now - track.lastDenied > IdleGap(after) {
        starvation := starvation - {lane};
        return false;
      }
      return now - track.start >= after;
    }

    method RecordStarvation(pool: PoolConfig, priorityClass: string, now: Time)
      modifies `starvation
      ensures View() == DeniedAt(old(View()), pool, priorityClass, now)
    {
      var after := pool.fairShare.starvationAfter;
      if after <= 0 { return; }
      var lane := LaneOf(pool, priorityClass);
      if lane !in starvation || now - starvation[lane].lastDenied > IdleGap(after) {
        starvation := starvation[lane := Streak(now, now)];
        return;
      }
      starvation := starvation[lane := starvation[lane].(lastDenied := now)];
    }

    method IsOpen(pool: PoolConfig, b: BackendName, priorityClass: string, starving: bool) returns (open: bool)
      requires b in pool.backends
      ensures open == Open(View(), pool, b, priorityClass, starving)
    {
      var cfg := pool.backends[b];
      var activeBackend := ActiveBackend(b);
      if !cfg.enabled || !cfg.healthy { return false; }
      if cfg.crossPoolMaxRunners > 0 && activeBackend >= cfg.crossPoolMaxRunners { return false; }
      var held := Get(active, Slot(pool.name, b));
      if starving { return held < cfg.maxRunners; }
      var room := EffectiveMaxRunners(cfg.maxRunners, pool.fairShare, priorityClass);
      return held < room;
    }

    method IsWithheld(pool: PoolConfig, b: BackendName, priorityClass: string) returns (soft: bool)
      requires b in pool.backends
      ensures soft == Withholds(View(), pool, b, priorityClass)
    {
      var cfg := pool.backends[b];
      var activeBackend := ActiveBackend(b);
      var held := Get(active, Slot(pool.name, b));
      if !cfg.enabled || !cfg.healthy || cfg.maxRunners <= 0 || held >= cfg.maxRunners { return false; }
      if cfg.crossPoolMaxRunners > 0 && activeBackend >= cfg.crossPoolMaxRunners { return false; }
      var room := EffectiveMaxRunners(cfg.maxRunners, pool.fairShare, priorityClass);
      return held >= room;
    }

    method AnyWithheld(pool: PoolConfig, priorityClass: string) returns (soft: bool)
      ensures soft == exists b :: Withholds(View(), pool, b, priorityClass)
    {
      var rest := pool.backends.Keys;
      while rest != {}
        invariant rest <= pool.backends.Keys
        invariant forall b | b in pool.backends && b !in rest :: !Withholds(View(), pool, b, priorityClass)
        decreases rest
      {
        var b := NextKey(rest);
        soft := IsWithheld(pool, b, priorityClass);
        if soft { return; }
        rest := rest - {b};
      }
      return false;
    }

    method Usage(pool: PoolConfig, b: BackendName, tenant: string, now: Time) returns (used: int)
      ensures used == TenantUsage(View(), pool, b, tenant, now)
    {
      if pool.fairShare.usageWindow <= 0 {
        return Get(tenantActive, TenantSlot(pool.name, b, tenant));
      }
      var cutoff := now - pool.fairShare.usageWindow;
      var log := Log(tenantLog, pool.name);
      used := 0;
      for i := 0 to |log|
        invariant used == Count(log[..i], UsedBy(b, tenant, cutoff))
      {
        CountAppend(log[..i], log[i], UsedBy(b, tenant, cutoff));
        assert log[..i + 1] == log[..i] + [log[i]];
        if log[i].backend == b && log[i].tenant == tenant && log[i].at >= cutoff { used := used + 1; }
      }
      assert log[..|log|] == log;
    }

    method Admit(pool: PoolConfig, b: BackendName, request: Request, now: Time)
      modifies this
      ensures View() == Admitted(old(View()), pool, b, request, now)
    {
      var tenant := NormalizeTenant(request.tenant);
      var slot, tslot := Slot(pool.name, b), TenantSlot(pool.name, b, tenant);
      active := active[slot := Get(active, slot) + 1];
      tenantActive := tenantActive[tslot := Get(tenantActive, tslot) + 1];
      if pool.fairShare.usageWindow > 0 {
        usageWindows := usageWindows[pool.name := pool.fairShare.usageWindow];
        tenantLog := tenantLog[pool.name := Log(tenantLog, pool.name) + [Reservation(tenant, b, now)]];
      }
      starvation := starvation - {LaneOf(pool, request.priorityClass)};
    }

    /** Walks the ring once from the cursor and keeps the first entry with the least score. */
    method Best(pool: PoolConfig, request: Request, now: Time, starving: bool, ring: seq<BackendName>)
      returns (found: bool, bestIndex: nat, ghost k: nat)
      requires SamePool(pool, ring) && ring != []
      ensures found ==> k < |ring| && IsBest(View(), pool, request, now, starving, ring, k)
      ensures found ==> bestIndex == Spot(Base(View()), pool.name, |ring|, k)
      ensures !found ==> forall b <- ring :: !Open(View(), pool, b, request.priorityClass, starving)
    {
      var n := |ring|;
      var start := Get(cursors, pool.name) % n;
      var bestScore := 0;
      found, bestIndex, k := false, 0, 0;
      for offset := 0 to n
        invariant found ==> k < offset && bestIndex == Spot(Base(View()), pool.name, n, k)
        invariant found ==> bestScore == ScoreAt(View(), pool, EntryAt(View(), pool, ring, k), request, now)
        invariant BestSoFar(View(), pool, request, now, starving, ring, offset, found, k)
      {
        ModIsWrap(start + offset, n);
        var candidate := ring[(start + offset) % n];
        assert candidate == EntryAt(View(), pool, ring, offset) && candidate in ring;
        var open := IsOpen(pool, candidate, request.priorityClass, starving);
        if !open { continue; }
        var used := Usage(pool, candidate, NormalizeTenant(request.tenant), now);
        var score := Score(Get(active, Slot(pool.name, candidate)), used,
                           ClassWeight(pool.fairShare, request.priorityClass));
        if !found || score < bestScore {
          found, bestIndex, bestScore, k := true, (start + offset) % n, score, offset;
        }
      }
      if !found { NoneOpen(View(), pool, request, starving, ring); }
    }

    method Select(pool: PoolConfig, request: Request, now: Time, starving: bool, ring: seq<BackendName>)
      returns (out: Outcome)
      requires SamePool(pool, ring) && request.backend.None?
      modifies this
      ensures Selects(old(View()), pool, request, now, starving, ring, View(), out)
    {
      if ring == [] { return NoCapacity; }
      var found, bestIndex, k := Best(pool, request, now, starving, ring);
      if !found {
        var soft := AnyWithheld(pool, request.priorityClass);
        if soft { RecordStarvation(pool, request.priorityClass, now); }
        return NoCapacity;
      }
      var selected := ring[bestIndex];
      assert selected in ring && selected == EntryAt(View(), pool, ring, k);
      Admit(pool, selected, request, now);
      ModIsWrap(bestIndex + 1, |ring|);
      cursors := cursors[pool.name := (bestIndex + 1) % |ring|];
      return Granted(selected);
    }

    method Reserve(pool: PoolConfig, request: Request, now: Time) returns (out: Outcome)
      modifies this
      ensures FairReserve(old(View()), pool, request, now, View(), out)
    {
      NoteUsageWindow(pool);
      PruneAllTenantLogs(now);
      if pool.fairShare.starvationAfter <= 0 { DropPoolStarvation(pool.name); }
      ghost var swept := View();

      var tenant := NormalizeTenant(request.tenant);
      if Fold(tenant) in pool.fairShare.quotas {
        var tenantTotal := ActiveTenant(pool.name, tenant);
        if tenantTotal >= pool.fairShare.quotas[Fold(tenant)] { return QuotaExceeded; }
      }

      var starving := IsStarving(pool, request.priorityClass, now);
      match request.backend {
        case Some(pinned) =>
          if pinned !in pool.backends { return UnknownBackend; }
          var open := IsOpen(pool, pinned, request.priorityClass, starving);
          if !open {
            var soft := IsWithheld(pool, pinned, request.priorityClass);
            if soft { RecordStarvation(pool, request.priorityClass, now); }
            return NoCapacity;
          }
          Admit(pool, pinned, request, now);
          return Granted(pinned);
        case None =>
          var ring := CandidateBackends(pool);
          RingMembers(pool, ring);
          out := Select(pool, request, now, starving, ring);
      }
    }

    method Release(pool: PoolName, b: BackendName, tenant: string, now: Time)
      modifies this
      ensures View() == FairRelease(old(View()), pool, b, tenant, now)
    {
      var slot, tslot := Slot(pool, b), TenantSlot(pool, b, NormalizeTenant(tenant));
      if Get(active, slot) > 0 { active := active[slot := active[slot] - 1]; }
      if Get(tenantActive, tslot) > 0 {
        tenantActive := tenantActive[tslot := tenantActive[tslot] - 1];
        if tenantActive[tslot] == 0 { tenantActive := tenantActive - {tslot}; }
      }
      PruneAllTenantLogs(now);
    }
  }

  lemma NoneOpen(l: Ledger, pool: PoolConfig, request: Request, starving: bool, ring: seq<BackendName>)
    requires ring != []
    requires forall o: nat | o < |ring| :: !Open(l, pool, EntryAt(l, pool, ring, o), request.priorityClass, starving)
    ensures forall b <- ring :: !Open(l, pool, b, request.priorityClass, starving)
  {
    forall b | b in ring ensures !Open(l, pool, b, request.priorityClass, starving) {
      var j :| 0 <= j < |ring| && ring[j] == b;
      var d := From(Base(l), pool.name, j, |ring|);
      assert EntryAt(l, pool, ring, d) == b;
    }
  }
}
