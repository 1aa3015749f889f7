/** Workflow-job events and runner identity. A job's demand is the allocation queued for it; its
    executor is the allocation whose runner was really given the job. Shared labels let runners
    swap jobs, so the two may differ and their events may arrive in either order. */
module WorkflowJobs {
  import opened Basics
  import opened Model
  import opened Store

  type JobId = int

  /** The runner an event names. An event that names none has no name and no positive id. */
  datatype Runner = Runner(repository: string, name: string, id: int, startedAt: Option<Time>) {
    predicate Identified() { name != "" || id > 0 }
  }

  /** accepted are the repositories the broker serves; legacy the pools and backends of the
      label-only adapter; persistent the lower-cased repository and name of long-lived runners. */
  datatype Setup = Setup(accepted: set<string>, perRepository: bool, legacy: set<(PoolName, BackendName)>,
                         persistent: set<(string, string)>)

  // --------------------------------------------------------------- who is meant

  predicate Serves(setup: Setup, a: Allocation, repository: string) {
    if repository == "" then true
    else if Trim(repository) !in setup.accepted then false
    else if a.origin.Some? && Trim(a.origin.value.repository) != ""
    then Lower(Trim(a.origin.value.repository)) == Lower(repository)
    else !setup.perRepository
  }

  predicate Originates(a: Allocation, job: JobId) { a.origin.Some? && a.origin.value.workflowJob == job }

  predicate Legacy(setup: Setup, a: Allocation) { (a.pool, a.backend) in setup.legacy }

  predicate Persistent(setup: Setup, runner: Runner) {
    runner.id > 0 && runner.name != "" && (Lower(runner.repository), Lower(runner.name)) in setup.persistent
  }

  /** r is an answer to which allocation was queued for the job: a live one if there is any. */
  ghost predicate IsDemand(m: Records, job: JobId, r: Option<AllocationId>) {
    match r
    case None => job == 0 || forall id <- m :: !Originates(m[id], job)
    case Some(x) =>
      && job != 0 && x in m && Originates(m[x], job)
      && (m[x].state.Terminal() ==> forall id <- m :: Originates(m[id], job) ==> m[id].state.Terminal())
  }

  predicate Later(a: Option<Time>, b: Option<Time>) { a.Some? && (b.None? || a.value > b.value) }

  /** The name and id fit, and a job of a later lease is not taken for one of an earlier lease. */
  predicate Matches(a: Allocation, runner: Runner) {
    && (runner.name != "" ==> Fold(a.runnerLabel) == Fold(runner.name))
    && (runner.id > 0 && a.runnerId.Some? ==> a.runnerId.value == runner.id)
    && (runner.name == "" ==> a.runnerId.Some?)
    && (a.leaseStart.Some? ==>
          && runner.id > 0 && a.runnerId.Some?
          && runner.startedAt.Some? && runner.startedAt.value >= a.leaseStart.value)
  }

  /** a may be what runner executes job on. */
  predicate Candidate(setup: Setup, a: Allocation, job: JobId, runner: Runner) {
    && Serves(setup, a, runner.repository)
    && if !runner.Identified() then a.execution == job
       else Matches(a, runner) && (a.execution == 0 || a.execution == job)
  }

  /** Among candidates not bound yet, b would replace a. */
  predicate Beats(b: Allocation, a: Allocation) {
    Later(b.leaseStart, a.leaseStart)
    || (b.leaseStart == a.leaseStart && a.state.Terminal() && !b.state.Terminal())
  }

  /** r is an answer to where the job runs: a candidate already bound to it, or the best of the others. */
  ghost predicate IsExecutor(setup: Setup, m: Records, job: JobId, runner: Runner, r: Option<AllocationId>) {
    match r
    case None => forall id <- m :: !Candidate(setup, m[id], job, runner)
    case Some(x) =>
      && x in m && Candidate(setup, m[x], job, runner)
      && (m[x].execution == job
          || forall id <- m :: Candidate(setup, m[id], job, runner) ==> m[id].execution != job && !Beats(m[id], m[x]))
  }

  // ----------------------------------------------------------- what events change

  const NO_LONGER_PENDING := "workflow demand no longer pending"
  const COMPLETED := "workflow_job completed"

  function Noted(setup: Setup, m: Records, demand: Option<AllocationId>, repository: string,
                 conclusion: string): Records {
    if demand.Some? && demand.value in m && Serves(setup, m[demand.value], repository)
    then m[demand.value := m[demand.value].(deferred := Some(conclusion))]
    else m
  }

  function Bound(m: Records, x: AllocationId, job: JobId): Records
    requires x in m
  {
    m[x := m[x].(execution := job)]
  }

  function Stamped(m: Records, x: AllocationId, now: Time): Records
    requires x in m
  {
    var a := m[x];
    m[x := a.(claimedAt := if a.claimedAt.None? then Some(now) else a.claimedAt,
              registeredAt := if a.registeredAt.None? then Some(now) else a.registeredAt)]
  }

  /** The runner was launched for another job, and that one is over: its supply is not needed. */
  predicate Spare(a: Allocation, job: JobId) { a.origin.Some? && !Originates(a, job) && a.deferred.Some? }

  /** The queued demand can be dropped without touching any runner. */
  predicate Droppable(setup: Setup, m: Records, demand: Option<AllocationId>, repository: string) {
    demand.Some? && demand.value in m && Serves(setup, m[demand.value], repository) && m[demand.value].state == Pending
  }

  function Dropped(m: Records, id: AllocationId, now: Time): Records { Marked(m, id, Canceled, now, NO_LONGER_PENDING) }

  function Suppressed(setup: Setup, m: Records, x: AllocationId, job: JobId, repository: string,
                      demand: Option<AllocationId>, now: Time): Records
    requires x in m
  {
    if Spare(m[x], job) && demand != Some(x) && Droppable(setup, m, demand, repository)
    then Dropped(m, demand.value, now) else m
  }

  predicate IsCanceled(conclusion: string) { Fold(conclusion) == "cancelled" || Fold(conclusion) == "canceled" }

  /** The executor's runner is released: canceled or completed, as the conclusion says. */
  function Ended(m: Records, x: AllocationId, conclusion: string, now: Time): Records
    requires x in m
  {
    if IsCanceled(conclusion) || m[x].state == Pending then Marked(m, x, Canceled, now, "")
    else Marked(m, x, Completed, now, COMPLETED)
  }

  /** The records looked up on the way; each lookup may meet the records in another order. */
  datatype Lookups = Lookups(first: Option<AllocationId>, executor: Option<AllocationId>,
                             second: Option<AllocationId>, third: Option<AllocationId>)

  ghost predicate Finalizes(setup: Setup, m: Records, job: JobId, conclusion: string, runner: Runner, now: Time,
                            l: Lookups, m': Records) {
    && IsDemand(m, job, l.first)
    && var noted := Noted(setup, m, l.first, runner.repository, conclusion);
    && IsExecutor(setup, noted, job, runner, l.executor)
    && if l.executor.Some? then FinalizesOn(setup, noted, l.executor.value, job, conclusion, runner, now, l, m')
       else if runner.Identified() then m' == noted
       else FinalizesDemand(setup, noted, job, conclusion, runner, now, l, m')
  }

  ghost predicate FinalizesOn(setup: Setup, m: Records, x: AllocationId, job: JobId, conclusion: string, runner: Runner,
                              now: Time, l: Lookups, m': Records)
    requires x in m
  {
    if m[x].state.Terminal() then m' == m
    else
      var bound := Bound(m, x, job);
      && (Spare(bound[x], job) ==> IsDemand(bound, job, l.second))
      && m' == Ended(Suppressed(setup, bound, x, job, runner.repository, l.second, now), x, conclusion, now)
  }

  /** No runner is known for the job: its queued demand may go, a launched runner may not. */
  ghost predicate FinalizesDemand(setup: Setup, m: Records, job: JobId, conclusion: string, runner: Runner, now: Time,
                                  l: Lookups, m': Records) {
    && IsDemand(m, job, l.second)
    && m' ==
       if l.second.None? || !Serves(setup, m[l.second.value], runner.repository)
          || m[l.second.value].state.Terminal() then m
       else if Legacy(setup, m[l.second.value]) then Ended(m, l.second.value, conclusion, now)
       else if m[l.second.value].state == Pending then Dropped(m, l.second.value, now)
       else m
  }

  ghost predicate Claims(setup: Setup, m: Records, job: JobId, runner: Runner, now: Time, l: Lookups, m': Records) {
    && IsExecutor(setup, m, job, runner, l.executor)
    && if l.executor.Some? then ClaimsOn(setup, m, l.executor.value, job, runner, now, l, m')
       else
         && IsDemand(m, job, l.first)
         && if Persistent(setup, runner) && Droppable(setup, m, l.first, runner.repository)
            then m' == Dropped(m, l.first.value, now)
            else if && l.first.Some? && Legacy(setup, m[l.first.value])
                    && Serves(setup, m[l.first.value], runner.repository)
            then ClaimsOn(setup, m, l.first.value, job, runner, now, l, m')
            else m' == m
  }

  ghost predicate ClaimsOn(setup: Setup, m: Records, x: AllocationId, job: JobId, runner: Runner, now: Time,
                           l: Lookups, m': Records)
    requires x in m
  {
    if m[x].state.Terminal() then m' == m
    else
      var stamped := Stamped(Bound(m, x, job), x, now);
      && (Spare(stamped[x], job) ==> IsDemand(stamped, job, l.second))
      && var left := Suppressed(setup, stamped, x, job, runner.repository, l.second, now);
      && IsDemand(left, job, l.third)
      && m' ==
         if l.third.Some? && Serves(setup, left[l.third.value], runner.repository) && left[l.third.value].deferred.Some?
         then Ended(left, x, left[l.third.value].deferred.value, now)
         else left
  }

  // ------------------------------------------------------------------ the service

  /** The allocation queued for the job: the records may be met in any order. */
  method FindDemand(m: Records, job: JobId) returns (found: Option<AllocationId>)
    ensures IsDemand(m, job, found)
  {
    if job == 0 { return None; }
    found := None;
    var rest := m.Keys;
    while rest != {}
      invariant rest <= m.Keys
      invariant found.None? ==> forall id <- m :: id !in rest ==> !Originates(m[id], job)
      invariant found.Some? ==> found.value in m && Originates(m[found.value], job)
      invariant found.Some? && m[found.value].state.Terminal() ==>
                  forall id <- m :: id !in rest && Originates(m[id], job) ==> m[id].state.Terminal()
      decreases rest
    {
      var id := NextKey(rest);
      rest := rest - {id};
      var status := m[id];
      if status.origin.None? || status.origin.value.workflowJob != job { continue; }
      if found.None? || (m[found.value].state.Terminal() && !status.state.Terminal()) { found := Some(id); }
    }
  }

  class Desk {
    const store: Memory
    const setup: Setup

    constructor (store: Memory, setup: Setup)
      ensures this.store == store && this.setup == setup
    {
      this.store, this.setup := store, setup;
    }

    method FindExecutor(job: JobId, runner: Runner) returns (chosen: Option<AllocationId>)
      ensures IsExecutor(setup, store.allocations, job, runner, chosen)
    {
      chosen := None;
      var listed := store.allocations;
      var rest := listed.Keys;
      while rest != {}
        invariant rest <= listed.Keys
        invariant chosen.Some? ==> chosen.value in listed && Candidate(setup, listed[chosen.value], job, runner)
        invariant forall id <- listed :: id !in rest && Candidate(setup, listed[id], job, runner) ==>
                    chosen.Some? && listed[id].execution != job && !Beats(listed[id], listed[chosen.value])
        decreases rest
      {
        var id := NextKey(rest);
        rest := rest - {id};
        var status := listed[id];
        if !Candidate(setup, status, job, runner) { continue; }
        if status.execution == job { return Some(id); }
        if chosen.None? || Beats(status, listed[chosen.value]) { chosen := Some(id); }
      }
    }

    method RecordConclusion(job: JobId, repository: string, conclusion: string) returns (demand: Option<AllocationId>)
      modifies store`allocations
      ensures IsDemand(old(store.allocations), job, demand)
      ensures store.allocations == Noted(setup, old(store.allocations), demand, repository, conclusion)
    {
      demand := FindDemand(store.allocations, job);
      if demand.None? || !Serves(setup, store.allocations[demand.value], repository) { return; }
      var origin := store.allocations[demand.value];
      store.allocations := store.allocations[demand.value := origin.(deferred := Some(conclusion))];
    }

    method Bind(x: AllocationId, job: JobId)
      requires x in store.allocations
      modifies store`allocations
      ensures store.allocations == Bound(old(store.allocations), x, job)
    {
      var status := store.allocations[x];
      if status.execution == job {
        assert store.allocations == store.allocations[x := status];
        return;
      }
      store.allocations := store.allocations[x := status.(execution := job)];
    }

    method SuppressSurplus(x: AllocationId, job: JobId, repository: string, now: Time)
      returns (demand: Option<AllocationId>)
      requires x in store.allocations
      modifies store`allocations
      ensures Spare(old(store.allocations)[x], job) ==> IsDemand(old(store.allocations), job, demand)
      ensures store.allocations == Suppressed(setup, old(store.allocations), x, job, repository, demand, now)
    {
      demand := None;
      var actual := store.allocations[x];
      if actual.origin.None? || actual.origin.value.workflowJob == job { return; }
      if actual.deferred.None? { return; }
      demand := FindDemand(store.allocations, job);
      if demand.Some? && demand.value != x && Serves(setup, store.allocations[demand.value], repository)
         && store.allocations[demand.value].state == Pending {
        var ok := store.CompareAndMarkState(demand.value, Pending, Canceled, now, NO_LONGER_PENDING);
      }
    }

    /** Ends the execution; how capacity is given back is the business of the lifecycle. */
    method Finish(x: AllocationId, conclusion: string, now: Time)
      requires x in store.allocations && !store.allocations[x].state.Terminal()
      modifies store`allocations
      ensures store.allocations == Ended(old(store.allocations), x, conclusion, now)
    {
      var state := store.allocations[x].state;
      if IsCanceled(conclusion) || state == Pending {
        var ok := store.CompareAndMarkState(x, state, Canceled, now, "");
      } else {
        var ok := store.MarkState(x, Completed, now, COMPLETED);
      }
    }

    method Finalize(job: JobId, conclusion: string, runner: Runner, now: Time)
      returns (found: Option<AllocationId>, ghost l: Lookups)
      modifies store`allocations
      ensures Finalizes(setup, old(store.allocations), job, conclusion, runner, now, l, store.allocations)
      ensures found.Some? <==> l.executor.Some? || (!runner.Identified() && l.second.Some?
                                 && Serves(setup, old(store.allocations)[l.second.value], runner.repository))
    {
      var demand := RecordConclusion(job, runner.repository, conclusion);
      l := Lookups(demand, None, None, None);
      found := FindExecutor(job, runner);
      l := l.(executor := found);
      if found.Some? {
        var x := found.value;
        if store.allocations[x].state.Terminal() { return; }
        Bind(x, job);
        var surplus := SuppressSurplus(x, job, runner.repository, now);
        l := l.(second := surplus);
        Finish(x, conclusion, now);
        return;
      }
      if runner.Identified() { return; }
      found := FindDemand(store.allocations, job);
      l := l.(second := found);
      if found.None? || !Serves(setup, store.allocations[found.value], runner.repository) {
        found := None;
        return;
      }
      var status := store.allocations[found.value];
      if status.state.Terminal() { return; }
      if Legacy(setup, status) {
        Finish(found.value, conclusion, now);
        return;
      }
      if status.state == Pending {
        var ok := store.CompareAndMarkState(found.value, Pending, Canceled, now, NO_LONGER_PENDING);
      }
    }

    method Claim(job: JobId, runner: Runner, now: Time) returns (found: Option<AllocationId>, ghost l: Lookups)
      modifies store`allocations
      ensures Claims(setup, old(store.allocations), job, runner, now, l, store.allocations)
    {
      l := Lookups(None, None, None, None);
      found := FindExecutor(job, runner);
      l := l.(executor := found);
      if found.None? {
        var origin := FindDemand(store.allocations, job);
        l := l.(first := origin);
        if Persistent(setup, runner) {
          if Droppable(setup, store.allocations, origin, runner.repository) {
            var ok := store.CompareAndMarkState(origin.value, Pending, Canceled, now, NO_LONGER_PENDING);
            found := origin;
            return;
          }
        }
        if origin.None? || !Legacy(setup, store.allocations[origin.value])
           || !Serves(setup, store.allocations[origin.value], runner.repository) {
          return;
        }
        found := origin;
      }
      var second, third := ClaimOn(found.value, job, runner, now);
      l := l.(second := second, third := third);
    }

    method ClaimOn(x: AllocationId, job: JobId, runner: Runner, now: Time)
      returns (second: Option<AllocationId>, third: Option<AllocationId>)
      requires x in store.allocations
      modifies store`allocations
      ensures ClaimsOn(setup, old(store.allocations), x, job, runner, now,
                       Lookups(None, None, second, third), store.allocations)
    {
      second, third := None, None;
      if store.allocations[x].state.Terminal() { return; }
      Bind(x, job);
      var status := store.allocations[x];
      if status.claimedAt.None? { status := status.(claimedAt := Some(now)); }
      if status.registeredAt.None? { status := status.(registeredAt := Some(now)); }
      store.allocations := store.allocations[x := status];
      second := SuppressSurplus(x, job, runner.repository, now);
      third := FindDemand(store.allocations, job);
      if third.Some? && Serves(setup, store.allocations[third.value], runner.repository) {
        var origin := store.allocations[third.value];
        if origin.deferred.Some? {
          Finish(x, origin.deferred.value, now);
        }
      }
    }
  }
}
