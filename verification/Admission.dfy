/** Admission of requests to one backend: a circuit breaker and a fixed-window rate limit. */
module Admission {
  import opened Basics

  type Time = int

  datatype Phase = Closed | Open | HalfOpen

  datatype CircuitConfig = CircuitConfig(failureThreshold: int, evaluationWindow: int, openDuration: int,
                                         probeInterval: int, recoveryThreshold: int, halfOpenMax: int) {
    function Threshold(): int { if failureThreshold > 0 then failureThreshold else 3 }
    function Window(): int { if evaluationWindow > 0 then evaluationWindow else 300 }
    function OpenFor(): int { if openDuration > 0 then openDuration else 120 }
    function ProbeEvery(): int { if probeInterval > 0 then probeInterval else 30 }
    function Recovery(): int { if recoveryThreshold > 0 then recoveryThreshold else 1 }
    function HalfOpenMax(): int { if halfOpenMax > 0 then halfOpenMax else 1 }
  }

  datatype Circuit = Circuit(phase: Phase, failures: seq<Time>, nextProbeAt: Time, inFlight: int, recovered: int)

  const NEW_CIRCUIT := Circuit(Closed, [], 0, 0, 0)

  ghost function NotBefore(cutoff: Time): Time -> bool { (t: Time) => t >= cutoff }

  // ---------------------------------------------------------------- the decisions

  /** Whether a request may go through; only one that consumes an admission changes anything. */
  predicate Admits(cfg: CircuitConfig, c: Circuit, now: Time, consume: bool) {
    match c.phase
    case Closed => true
    case Open => now >= c.nextProbeAt
    case HalfOpen => consume ==> c.inFlight < cfg.HalfOpenMax()
  }

  function Consulted(cfg: CircuitConfig, c: Circuit, now: Time, consume: bool): Circuit {
    if !consume || !Admits(cfg, c, now, consume) || c.phase == Closed then c
    else if c.phase == Open then c.(phase := HalfOpen, inFlight := 1, recovered := 0)
    else c.(inFlight := c.inFlight + 1)
  }

  function Succeeded(cfg: CircuitConfig, c: Circuit): Circuit {
    var d := c.(failures := [], inFlight := 0);
    if c.phase == HalfOpen && c.recovered + 1 < cfg.Recovery() then d.(recovered := c.recovered + 1)
    else d.(phase := Closed, recovered := 0)
  }

  function ProbeSucceeded(cfg: CircuitConfig, c: Circuit, now: Time): Circuit {
    if c.phase == Closed then c
    else if c.recovered + 1 < cfg.Recovery()
    then c.(recovered := c.recovered + 1, nextProbeAt := now + cfg.ProbeEvery())
    else c.(phase := Closed, failures := [], inFlight := 0, recovered := 0)
  }

  ghost function FailedAt(cfg: CircuitConfig, c: Circuit, now: Time): Circuit {
    var failures := Filter(c.failures, NotBefore(now - cfg.Window())) + [now];
    var d := c.(failures := failures, inFlight := 0, recovered := 0);
    if c.phase == HalfOpen || |failures| >= cfg.Threshold()
    then d.(phase := Open, nextProbeAt := now + cfg.OpenFor()) else d
  }

  function Deferred(cfg: CircuitConfig, c: Circuit, now: Time): Circuit {
    c.(phase := Open, nextProbeAt := now + cfg.ProbeEvery(), recovered := 0, inFlight := 0)
  }

  predicate ProbeIsDue(c: Circuit, now: Time) { c.phase == Open && now >= c.nextProbeAt }

  class Breaker {
    const cfg: CircuitConfig
    var phase: Phase
    var failures: seq<Time>
    var nextProbeAt: Time
    var inFlight: int
    var recovered: int

    ghost function View(): Circuit
      reads this
    {
      Circuit(phase, failures, nextProbeAt, inFlight, recovered)
    }

    constructor (cfg: CircuitConfig)
      ensures this.cfg == cfg && View() == NEW_CIRCUIT
    {
      this.cfg := cfg;
      phase, failures, nextProbeAt, inFlight, recovered := Closed, [], 0, 0, 0;
    }

    method CircuitDecision(now: Time, consume: bool) returns (allowed: bool)
      modifies this
      ensures allowed == Admits(cfg, old(View()), now, consume)
      ensures View() == Consulted(cfg, old(View()), now, consume)
    {
      match phase {
        case Open =>
          if now < nextProbeAt { return false; }
          if !consume { return true; }
          phase, inFlight, recovered := HalfOpen, 1, 0;
          return true;
        case HalfOpen =>
          if !consume { return true; }
          if inFlight >= cfg.HalfOpenMax() { return false; }
          inFlight := inFlight + 1;
          return true;
        case Closed =>
          return true;
      }
    }

    method RecordSuccess() returns (changed: bool)
      modifies this
      ensures View() == Succeeded(cfg, old(View()))
      ensures changed == (old(phase) != Closed && phase == Closed)
    {
      var previous := phase;
      failures, inFlight := [], 0;
      if previous == HalfOpen {
        recovered := recovered + 1;
        if recovered < cfg.Recovery() { return false; }
      }
      phase, recovered := Closed, 0;
      return previous != Closed;
    }

    method RecordProbeSuccess(now: Time) returns (changed: bool)
      modifies this
      ensures View() == ProbeSucceeded(cfg, old(View()), now)
      ensures changed == (old(phase) != Closed && phase == Closed)
    {
      if phase == Closed { return false; }
      recovered := recovered + 1;
      if recovered < cfg.Recovery() {
        nextProbeAt := now + cfg.ProbeEvery();
        return false;
      }
      phase, failures, inFlight, recovered := Closed, [], 0, 0;
      return true;
    }

    /** A failure whose reason trips the breaker. */
    method RecordFailure(now: Time) returns (changed: bool)
      modifies this
      ensures View() == FailedAt(cfg, old(View()), now)
      ensures changed == (old(phase) != Open && phase == Open)
    {
      var previous := phase;
      var cutoff := now - cfg.Window();
      var kept := [];
      var i := 0;
      while i < |failures|
        invariant 0 <= i <= |failures| && View() == old(View())
        invariant kept == Filter(failures[..i], NotBefore(cutoff))
      {
        assert failures[..i + 1] == failures[..i] + [failures[i]];
        FilterAppend(failures[..i], failures[i], NotBefore(cutoff));
        if !(failures[i] < cutoff) { kept := kept + [failures[i]]; }
        i := i + 1;
      }
      assert failures[..|failures|] == failures;
      failures := kept + [now];
      inFlight, recovered := 0, 0;
      if previous == HalfOpen || |failures| >= cfg.Threshold() {
        phase, nextProbeAt := Open, now + cfg.OpenFor();
        return previous != Open;
      }
      return false;
    }

    method ProbeDue(now: Time) returns (due: bool)
      ensures due == ProbeIsDue(View(), now)
    {
      return phase == Open && !(now < nextProbeAt);
    }

    method DeferProbe(now: Time)
      modifies this
      ensures View() == Deferred(cfg, old(View()), now)
    {
      phase, nextProbeAt, recovered, inFlight := Open, now + cfg.ProbeEvery(), 0, 0;
    }
  }

  // ------------------------------------------------------------------ breaker runs

  datatype Event =
    | Consult(now: Time, consume: bool)
    | Success(now: Time)
    | ProbeSuccess(now: Time)
    | Failure(now: Time)
    | Defer(now: Time)

  ghost function After(cfg: CircuitConfig, c: Circuit, e: Event): Circuit {
    match e
    case Consult(now, consume) => Consulted(cfg, c, now, consume)
    case Success(_) => Succeeded(cfg, c)
    case ProbeSuccess(now) => ProbeSucceeded(cfg, c, now)
    case Failure(now) => FailedAt(cfg, c, now)
    case Defer(now) => Deferred(cfg, c, now)
  }

  ghost function Run(cfg: CircuitConfig, c: Circuit, es: seq<Event>): Circuit {
    if es == [] then c else After(cfg, Run(cfg, c, es[..|es| - 1]), es[|es| - 1])
  }

  /** What every reachable circuit satisfies. */
  predicate Sound(cfg: CircuitConfig, c: Circuit) {
    && (c.phase == Closed ==> |c.failures| < cfg.Threshold() && c.inFlight == 0)
    && 0 <= c.inFlight <= cfg.HalfOpenMax()
    && 0 <= c.recovered < cfg.Recovery()
  }

  lemma {:induction false} ReachableIsSound(cfg: CircuitConfig, es: seq<Event>)
    ensures Sound(cfg, Run(cfg, NEW_CIRCUIT, es))
  {
    if es != [] { ReachableIsSound(cfg, es[..|es| - 1]); }
  }

  predicate Grants(cfg: CircuitConfig, c: Circuit, e: Event) { e.Consult? && e.consume && Admits(cfg, c, e.now, true) }

  /** Between t and until requests ask and fail, and probes are put off with whatever time they were sent. */
  predicate Within(e: Event, t: Time, until: Time) {
    match e
    case Consult(now, _) => t <= now < until
    case Failure(now) => t <= now < until
    case Defer(_) => true
    case _ => false
  }

  /** A probe put off with the time it was sent leaves nothing open before until. */
  predicate PutsOffEnough(cfg: CircuitConfig, e: Event, until: Time) {
    e.Defer? ==> e.now + cfg.ProbeEvery() >= until
  }

  /** No request is let through before until, whenever it comes. */
  ghost predicate ShutUntil(cfg: CircuitConfig, c: Circuit, until: Time) {
    forall now :: now < until ==> !Admits(cfg, c, now, true)
  }

  lemma StepStaysShut(cfg: CircuitConfig, c: Circuit, e: Event, t: Time)
    requires c.phase == Open && c.nextProbeAt >= t + cfg.OpenFor()
    requires Within(e, t, t + cfg.OpenFor()) && PutsOffEnough(cfg, e, t + cfg.OpenFor())
    ensures After(cfg, c, e).phase == Open && After(cfg, c, e).nextProbeAt >= t + cfg.OpenFor()
  {
  }

  /** An open circuit stays open until its time has come. */
  lemma {:induction false} StaysShut(cfg: CircuitConfig, c: Circuit, es: seq<Event>, t: Time, n: nat)
    requires c.phase == Open && c.nextProbeAt >= t + cfg.OpenFor() && n <= |es|
    requires forall e <- es :: Within(e, t, t + cfg.OpenFor()) && PutsOffEnough(cfg, e, t + cfg.OpenFor())
    ensures Run(cfg, c, es[..n]).phase == Open && Run(cfg, c, es[..n]).nextProbeAt >= t + cfg.OpenFor()
  {
    if n > 0 {
      StaysShut(cfg, c, es, t, n - 1);
      assert es[..n][..n - 1] == es[..n - 1] && es[n - 1] in es;
      StepStaysShut(cfg, Run(cfg, c, es[..n - 1]), es[n - 1], t);
    }
  }

  /** The failure at t opens the circuit, or opens it anew. */
  ghost predicate OpensAt(cfg: CircuitConfig, c: Circuit, t: Time) {
    FailedAt(cfg, c, t).phase == Open && (c.phase == Open ==> |FailedAt(cfg, c, t).failures| >= cfg.Threshold())
  }

  /** A failure at t opens a circuit for the open duration. Unless a success is recorded, the circuit lets no
      request through before that is over, at any point of any run, if and only if every probe that is
      put off meanwhile was sent no earlier than the probe interval before that time. */
  lemma DeferKeepsPromise(cfg: CircuitConfig, c: Circuit, t: Time, es: seq<Event>)
    requires OpensAt(cfg, c, t) && forall e <- es :: Within(e, t, t + cfg.OpenFor())
    ensures (forall i: nat | i <= |es| :: ShutUntil(cfg, Run(cfg, FailedAt(cfg, c, t), es[..i]), t + cfg.OpenFor()))
            <==> forall e <- es :: PutsOffEnough(cfg, e, t + cfg.OpenFor())
  {
    var open, until := FailedAt(cfg, c, t), t + cfg.OpenFor();
    if forall e <- es :: PutsOffEnough(cfg, e, until) {
      forall i: nat | i <= |es| ensures ShutUntil(cfg, Run(cfg, open, es[..i]), until) {
        StaysShut(cfg, open, es, t, i);
      }
    } else {
      var e :| e in es && !PutsOffEnough(cfg, e, until);
      var i: nat :| i < |es| && es[i] == e;
      EarlyDeferOpens(cfg, open, es, i, until);
    }
  }

  lemma EarlyDeferOpens(cfg: CircuitConfig, open: Circuit, es: seq<Event>, i: nat, until: Time)
    requires i < |es| && es[i].Defer? && es[i].now + cfg.ProbeEvery() < until
    ensures !ShutUntil(cfg, Run(cfg, open, es[..i + 1]), until)
  {
    assert es[..i + 1][..i] == es[..i];
    assert Admits(cfg, Run(cfg, open, es[..i + 1]), es[i].now + cfg.ProbeEvery(), true);
  }

  /** So no admission is granted in that time, if no success is recorded and no probe sent too early is
      put off. */
  lemma NoEarlyGrant(cfg: CircuitConfig, c: Circuit, t: Time, es: seq<Event>)
    requires OpensAt(cfg, c, t) && forall e <- es :: Within(e, t, t + cfg.OpenFor())
    requires forall e <- es :: PutsOffEnough(cfg, e, t + cfg.OpenFor())
    ensures forall i: nat | i < |es| :: !Grants(cfg, Run(cfg, FailedAt(cfg, c, t), es[..i]), es[i])
  {
    DeferKeepsPromise(cfg, c, t, es);
    var open, until := FailedAt(cfg, c, t), t + cfg.OpenFor();
    forall i: nat | i < |es| ensures !Grants(cfg, Run(cfg, open, es[..i]), es[i]) {
      assert es[i] in es && ShutUntil(cfg, Run(cfg, open, es[..i]), until);
    }
  }

  /** The probe was due when it was sent, but while it was out a failure reopened the circuit: putting
      it off with the time it was sent lets a request through a minute and a half early. */
  lemma LateDeferOpensEarly() returns (cfg: CircuitConfig, c: Circuit, es: seq<Event>)
    ensures cfg.OpenFor() == 120 && ProbeIsDue(c, 1000)
    ensures es == [Consult(1001, true), Failure(1002), Defer(1000), Consult(1030, true)]
    ensures Run(cfg, c, es[..2]).phase == Open && Run(cfg, c, es[..2]).nextProbeAt == 1122
    ensures Grants(cfg, Run(cfg, c, es[..3]), es[3])
  {
    cfg := CircuitConfig(3, 300, 120, 30, 1, 1);
    c := Circuit(Open, [], 1000, 0, 0);
    es := [Consult(1001, true), Failure(1002), Defer(1000), Consult(1030, true)];
    assert es[..1][..0] == [] && es[..2][..1] == es[..1] && es[..3][..2] == es[..2];
    assert Run(cfg, c, es[..0]) == c;
    assert Run(cfg, c, es[..1]) == Circuit(HalfOpen, [], 1000, 1, 0);
    assert Run(cfg, c, es[..2]).phase == Open && Run(cfg, c, es[..2]).nextProbeAt == 1122;
    assert Run(cfg, c, es[..3]).phase == Open && Run(cfg, c, es[..3]).nextProbeAt == 1030;
  }

  ghost function Granted(cfg: CircuitConfig, c: Circuit, es: seq<Event>): nat {
    if es == [] then 0
    else Granted(cfg, c, es[..|es| - 1]) + if Grants(cfg, Run(cfg, c, es[..|es| - 1]), es[|es| - 1]) then 1 else 0
  }

  /** The circuit is half-open all along. */
  ghost predicate StaysHalfOpen(cfg: CircuitConfig, c: Circuit, es: seq<Event>) {
    Run(cfg, c, es).phase == HalfOpen && (es != [] ==> StaysHalfOpen(cfg, c, es[..|es| - 1]))
  }

  lemma {:induction false} GrantsAreCounted(cfg: CircuitConfig, c: Circuit, es: seq<Event>)
    requires c.recovered == 0 && c.inFlight == 1 && Sound(cfg, c) && StaysHalfOpen(cfg, c, es)
    ensures Sound(cfg, Run(cfg, c, es))
    ensures 1 + Granted(cfg, c, es) <= cfg.HalfOpenMax() * Run(cfg, c, es).recovered + Run(cfg, c, es).inFlight
  {
    if es != [] {
      var before := es[..|es| - 1];
      GrantsAreCounted(cfg, c, before);
      StepBudget(cfg, Run(cfg, c, before), es[|es| - 1]);
    }
  }

  /** A success frees every half-open place at once, even while other requests are out; so one
      half-open phase admits up to the limit once for each success it still needs. */
  lemma HalfOpenBudget(cfg: CircuitConfig, c: Circuit, es: seq<Event>)
    requires c.recovered == 0 && c.inFlight == 1 && Sound(cfg, c) && StaysHalfOpen(cfg, c, es)
    ensures 1 + Granted(cfg, c, es) <= cfg.HalfOpenMax() * cfg.Recovery()
  {
    GrantsAreCounted(cfg, c, es);
    var end := Run(cfg, c, es);
    OneMoreRound(cfg.HalfOpenMax(), end.recovered, cfg.Recovery(), end.inFlight);
  }

  lemma {:induction false} OneMoreRound(k: int, a: int, b: int, x: int)
    requires x <= k && 0 <= k && a < b
    ensures k * a + x <= k * b
    decreases b - a
  {
    if a + 1 < b { OneMoreRound(k, a, b - 1, x); }
    assert k * b == k * (b - 1) + k;
  }

  lemma StepBudget(cfg: CircuitConfig, c: Circuit, e: Event)
    requires c.phase == HalfOpen && Sound(cfg, c) && After(cfg, c, e).phase == HalfOpen
    ensures Sound(cfg, After(cfg, c, e))
    ensures var d := After(cfg, c, e);
            cfg.HalfOpenMax() * c.recovered + c.inFlight + (if Grants(cfg, c, e) then 1 else 0)
            <= cfg.HalfOpenMax() * d.recovered + d.inFlight
  {
    var k, r := cfg.HalfOpenMax(), c.recovered;
    assert k * (r + 1) == k * r + k;
  }

  /** How an event changes the number of requests that were let through and have not been answered. */
  ghost function Outcome(cfg: CircuitConfig, c: Circuit, e: Event): int {
    if Grants(cfg, c, e) then 1 else if e.Success? || e.Failure? then -1 else 0
  }

  ghost function Outstanding(cfg: CircuitConfig, c: Circuit, es: seq<Event>): int {
    if es == [] then c.inFlight
    else Outstanding(cfg, c, es[..|es| - 1]) + Outcome(cfg, Run(cfg, c, es[..|es| - 1]), es[|es| - 1])
  }

  /** So the limit on half-open requests does not bound the requests that are out: here three are. */
  lemma HalfOpenLimitIsNotOutstanding() returns (cfg: CircuitConfig, c: Circuit, es: seq<Event>)
    ensures cfg.HalfOpenMax() == 2 && c.phase == HalfOpen && c.inFlight == 2
    ensures es == [Success(2), Consult(3, true), Consult(4, true)]
    ensures StaysHalfOpen(cfg, c, es) && Outstanding(cfg, c, es) == 3
  {
    cfg := CircuitConfig(3, 300, 120, 30, 3, 2);
    c := Circuit(HalfOpen, [], 0, 2, 0);
    es := [Success(2), Consult(3, true), Consult(4, true)];
    assert es[..3] == es && es[..3][..2] == es[..2] && es[..2][..1] == es[..1] && es[..1][..0] == [];
    assert StaysHalfOpen(cfg, c, es[..0]);
    assert Run(cfg, c, es[..1]) == c.(inFlight := 0, recovered := 1) && Outstanding(cfg, c, es[..1]) == 1;
    assert Run(cfg, c, es[..2]) == c.(inFlight := 1, recovered := 1) && Outstanding(cfg, c, es[..2]) == 2;
    assert StaysHalfOpen(cfg, c, es[..2]);
    assert Run(cfg, c, es[..3]) == c.(inFlight := 2, recovered := 1) && Outstanding(cfg, c, es[..3]) == 3;
  }

  // ------------------------------------------------------------------- rate limit

  datatype RateConfig = RateConfig(permits: int, burst: int, interval: int) {
    function Interval(): int { if interval <= 0 then 60 else interval }
    function Permits(): int { Max(if permits <= 0 then 1 else permits, burst) }
  }

  datatype Meter = Meter(windowStart: Option<Time>, used: int)

  function Rolled(cfg: RateConfig, m: Meter, now: Time): Meter {
    if m.windowStart.None? || now >= m.windowStart.value + cfg.Interval() then Meter(Some(now), 0) else m
  }

  predicate Passes(cfg: RateConfig, m: Meter, now: Time) { Rolled(cfg, m, now).used < cfg.Permits() }

  function Metered(cfg: RateConfig, m: Meter, now: Time, consume: bool): Meter {
    var r := Rolled(cfg, m, now);
    if consume && Passes(cfg, m, now) then r.(used := r.used + 1) else r
  }

  class RateLimiter {
    const cfg: RateConfig
    var windowStart: Option<Time>
    var used: int

    constructor (cfg: RateConfig)
      ensures this.cfg == cfg && windowStart == None && used == 0
    {
      this.cfg := cfg;
      windowStart, used := None, 0;
    }

    method RateLimitDecision(now: Time, consume: bool) returns (allowed: bool)
      modifies this
      ensures allowed == Passes(cfg, Meter(old(windowStart), old(used)), now)
      ensures Meter(windowStart, used) == Metered(cfg, Meter(old(windowStart), old(used)), now, consume)
    {
      var interval := cfg.interval;
      if interval <= 0 { interval := 60; }
      var permits := cfg.permits;
      if permits <= 0 { permits := 1; }
      if cfg.burst > permits { permits := cfg.burst; }
      if windowStart.None? || !(now < windowStart.value + interval) {
        windowStart, used := Some(now), 0;
      }
      if used >= permits { return false; }
      if consume { used := used + 1; }
      return true;
    }
  }

  datatype Ask = Ask(now: Time, consume: bool)

  function Meters(cfg: RateConfig, m: Meter, asks: seq<Ask>): Meter {
    if asks == [] then m
    else Metered(cfg, Meters(cfg, m, asks[..|asks| - 1]), asks[|asks| - 1].now, asks[|asks| - 1].consume)
  }

  /** How many of the asks were granted an admission. */
  function Passed(cfg: RateConfig, m: Meter, asks: seq<Ask>): nat {
    if asks == [] then 0
    else
      var before, a := Meters(cfg, m, asks[..|asks| - 1]), asks[|asks| - 1];
      Passed(cfg, m, asks[..|asks| - 1]) + if a.consume && Passes(cfg, before, a.now) then 1 else 0
  }

  ghost predicate InOrder(asks: seq<Ask>) { forall i, j | 0 <= i < j < |asks| :: asks[i].now <= asks[j].now }

  predicate WithinPermits(cfg: RateConfig, m: Meter) { 0 <= m.used <= cfg.Permits() }

  /** No window grants more than the permits: as long as it does not roll over, every grant is counted. */
  lemma {:induction false} OneWindow(cfg: RateConfig, m: Meter, asks: seq<Ask>)
    requires WithinPermits(cfg, m) && m.windowStart.Some?
    requires forall a <- asks :: a.now < m.windowStart.value + cfg.Interval()
    ensures Meters(cfg, m, asks) == Meter(m.windowStart, m.used + Passed(cfg, m, asks))
    ensures m.used + Passed(cfg, m, asks) <= cfg.Permits()
  {
    if asks != [] {
      var n := |asks| - 1;
      assert asks[n] in asks;
      OneWindow(cfg, m, asks[..n]);
    }
  }

  /** In any stretch of time as long as the interval at most twice the permits are granted. */
  lemma {:induction false} AnySpan(cfg: RateConfig, m: Meter, asks: seq<Ask>, from: Time)
    requires WithinPermits(cfg, m) && InOrder(asks)
    requires forall a <- asks :: from <= a.now < from + cfg.Interval()
    ensures var end := Meters(cfg, m, asks);
            && WithinPermits(cfg, end)
            && Passed(cfg, m, asks) <= 2 * cfg.Permits()
            && ((end.windowStart == m.windowStart && m.used + Passed(cfg, m, asks) == end.used)
                || (end.windowStart.Some? && end.windowStart.value >= from
                    && Passed(cfg, m, asks) <= cfg.Permits() + end.used))
  {
    if asks != [] {
      var n := |asks| - 1;
      assert asks[n] in asks;
      AnySpan(cfg, m, asks[..n], from);
    }
  }
}
