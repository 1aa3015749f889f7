/** What workflow-job events guarantee: they never touch a runner that executes another job, and
    a completion and a start lead to the same place in either order. */
module WorkflowJobRuns {
  import opened Basics
  import opened Model
  import opened Store
  import opened WorkflowJobs

  // ------------------------------------------------------------------ isolation

  /** Pending demand of the job, dropped. */
  predicate WasDropped(a: Allocation, b: Allocation, job: JobId) {
    a.state == Pending && b.state == Canceled && Originates(a, job)
  }

  /** What any event of the job may do to one record: note or bind, drop pending demand of the job,
      or end it, which terminal records are safe from. */
  ghost predicate Allowed(a: Allocation, b: Allocation, job: JobId) {
    && b.pool == a.pool && b.backend == a.backend && b.origin == a.origin
    && b.runnerLabel == a.runnerLabel && b.runnerId == a.runnerId && b.leaseStart == a.leaseStart
    && (b.execution == a.execution || b.execution == job)
    && (b.state != a.state ==> !a.state.Terminal() && b.state in {Canceled, Completed})
  }

  lemma NotedIsolates(setup: Setup, m: Records, d: Option<AllocationId>, repository: string, conclusion: string,
                      id: AllocationId, job: JobId)
    requires id in m
    ensures var m' := Noted(setup, m, d, repository, conclusion);
            && m'.Keys == m.Keys && Allowed(m[id], m'[id], job)
            && m'[id].execution == m[id].execution && m'[id].state == m[id].state
  {
  }

  lemma SuppressedIsolates(setup: Setup, m: Records, x: AllocationId, job: JobId, repository: string,
                           d: Option<AllocationId>, now: Time, id: AllocationId)
    requires id in m && x in m && (Spare(m[x], job) ==> IsDemand(m, job, d))
    ensures var m' := Suppressed(setup, m, x, job, repository, d, now);
            && m'.Keys == m.Keys && Allowed(m[id], m'[id], job) && m'[x] == m[x]
            && m'[id].execution == m[id].execution
            && (m'[id].state != m[id].state ==> WasDropped(m[id], m'[id], job))
  {
  }

  lemma EndedIsolates(m: Records, x: AllocationId, conclusion: string, now: Time, id: AllocationId, job: JobId)
    requires id in m && x in m && !m[x].state.Terminal()
    ensures var m' := Ended(m, x, conclusion, now);
            && m'.Keys == m.Keys && Allowed(m[id], m'[id], job)
            && m'[id].execution == m[id].execution && (id != x ==> m'[id] == m[id])
            && m'[x].state in {Canceled, Completed}
  {
  }

  lemma FinalizesOnIsolates(setup: Setup, m: Records, x: AllocationId, job: JobId, conclusion: string, runner: Runner,
                            now: Time, l: Lookups, m': Records, id: AllocationId)
    requires id in m && x in m && FinalizesOn(setup, m, x, job, conclusion, runner, now, l, m')
    ensures m'.Keys == m.Keys && Allowed(m[id], m'[id], job)
    ensures id != x ==> m'[id].execution == m[id].execution
    ensures m'[id].state != m[id].state ==> m'[id].execution == job || WasDropped(m[id], m'[id], job)
  {
    if !m[x].state.Terminal() {
      var bound := Bound(m, x, job);
      var left := Suppressed(setup, bound, x, job, runner.repository, l.second, now);
      SuppressedIsolates(setup, bound, x, job, runner.repository, l.second, now, id);
      EndedIsolates(left, x, conclusion, now, id, job);
    }
  }

  lemma ClaimsOnIsolates(setup: Setup, m: Records, x: AllocationId, job: JobId, runner: Runner, now: Time,
                         l: Lookups, m': Records, id: AllocationId)
    requires id in m && x in m && ClaimsOn(setup, m, x, job, runner, now, l, m')
    ensures m'.Keys == m.Keys && Allowed(m[id], m'[id], job)
    ensures id != x ==> m'[id].execution == m[id].execution
    ensures m'[id].state != m[id].state ==> m'[id].execution == job || WasDropped(m[id], m'[id], job)
  {
    if !m[x].state.Terminal() {
      var stamped := Stamped(Bound(m, x, job), x, now);
      var left := Suppressed(setup, stamped, x, job, runner.repository, l.second, now);
      SuppressedIsolates(setup, stamped, x, job, runner.repository, l.second, now, id);
      if m' != left {
        EndedIsolates(left, x, left[l.third.value].deferred.value, now, id, job);
      }
    }
  }

  lemma FinalizesDemandIsolates(setup: Setup, m: Records, job: JobId, conclusion: string, runner: Runner, now: Time,
                                l: Lookups, m': Records, id: AllocationId)
    requires id in m && FinalizesDemand(setup, m, job, conclusion, runner, now, l, m')
    ensures m'.Keys == m.Keys && Allowed(m[id], m'[id], job)
    ensures m'[id].execution == m[id].execution
    ensures m'[id].state != m[id].state ==>
              WasDropped(m[id], m'[id], job) || (Legacy(setup, m[id]) && Originates(m[id], job))
  {
    if l.second.Some? && !m[l.second.value].state.Terminal() && Legacy(setup, m[l.second.value]) {
      EndedIsolates(m, l.second.value, conclusion, now, id, job);
    }
  }

  /** A completion moves only what is bound to the job afterwards, the job's own pending demand, or the
      job's own label-only record; bindings to other jobs stay; an unknown runner releases nothing. */
  lemma FinalizeIsolates(setup: Setup, m: Records, job: JobId, conclusion: string, runner: Runner, now: Time,
                         l: Lookups, m': Records, id: AllocationId)
    requires job != 0 && id in m && Finalizes(setup, m, job, conclusion, runner, now, l, m')
    ensures m'.Keys == m.Keys && Allowed(m[id], m'[id], job)
    ensures m[id].execution != 0 ==> m'[id].execution == m[id].execution
    ensures m'[id].state != m[id].state ==>
              || m'[id].execution == job || WasDropped(m[id], m'[id], job)
              || (Legacy(setup, m[id]) && Originates(m[id], job))
    ensures runner.Identified() && l.executor.None? ==> m'[id].state == m[id].state
  {
    var noted := Noted(setup, m, l.first, runner.repository, conclusion);
    NotedIsolates(setup, m, l.first, runner.repository, conclusion, id, job);
    if l.executor.Some? {
      assert Candidate(setup, noted[l.executor.value], job, runner);
      FinalizesOnIsolates(setup, noted, l.executor.value, job, conclusion, runner, now, l, m', id);
    } else if !runner.Identified() {
      FinalizesDemandIsolates(setup, noted, job, conclusion, runner, now, l, m', id);
    }
  }

  /** The start of a job overwrites a binding to another job only on a label-only record. */
  lemma ClaimIsolates(setup: Setup, m: Records, job: JobId, runner: Runner, now: Time, l: Lookups, m': Records,
                      id: AllocationId)
    requires job != 0 && id in m && Claims(setup, m, job, runner, now, l, m')
    ensures m'.Keys == m.Keys && Allowed(m[id], m'[id], job)
    ensures m[id].execution != 0 && m'[id].execution != m[id].execution ==> Legacy(setup, m[id])
    ensures m'[id].state != m[id].state ==> m'[id].execution == job || WasDropped(m[id], m'[id], job)
  {
    if l.executor.Some? {
      assert Candidate(setup, m[l.executor.value], job, runner);
      ClaimsOnIsolates(setup, m, l.executor.value, job, runner, now, l, m', id);
    } else if !(Persistent(setup, runner) && Droppable(setup, m, l.first, runner.repository))
              && l.first.Some? && Legacy(setup, m[l.first.value])
              && Serves(setup, m[l.first.value], runner.repository) {
      ClaimsOnIsolates(setup, m, l.first.value, job, runner, now, l, m', id);
    }
  }

  datatype Event =
    | Done(job: JobId, conclusion: string, runner: Runner, now: Time, lookups: Lookups)
    | Started(job: JobId, runner: Runner, now: Time, lookups: Lookups)

  ghost predicate Step(setup: Setup, m: Records, e: Event, m': Records) {
    && e.job != 0
    && match e
       case Done(job, conclusion, runner, now, l) => Finalizes(setup, m, job, conclusion, runner, now, l, m')
       case Started(job, runner, now, l) => Claims(setup, m, job, runner, now, l, m')
  }

  ghost predicate IsRun(setup: Setup, ms: seq<Records>, es: seq<Event>) {
    && |ms| == |es| + 1
    && forall i: nat | i < |es| :: Step(setup, ms[i], es[i], ms[i + 1])
  }

  /** Over any run of events a runner bound to one job stays bound to it, and no event of another
      job ends it, pending demand of that other job aside. */
  lemma {:induction false} BindingsLast(setup: Setup, ms: seq<Records>, es: seq<Event>, id: AllocationId)
    requires IsRun(setup, ms, es) && id in ms[0] && !Legacy(setup, ms[0][id]) && ms[0][id].execution != 0
    requires ms[0][id].state != Pending
    ensures id in ms[|es|] && ms[|es|][id].execution == ms[0][id].execution
    ensures !Legacy(setup, ms[|es|][id]) && ms[|es|][id].state != Pending
    ensures (forall e <- es :: e.job != ms[0][id].execution) ==> ms[|es|][id].state == ms[0][id].state
  {
    if es != [] {
      var n := |es| - 1;
      BindingsLast(setup, ms[..|es|], es[..n], id);
      assert Step(setup, ms[n], es[n], ms[n + 1]);
      assert es[n] in es;
      StepKeepsBinding(setup, ms[n], es[n], ms[n + 1], id);
    }
  }

  lemma StepKeepsBinding(setup: Setup, m: Records, e: Event, m': Records, id: AllocationId)
    requires Step(setup, m, e, m') && id in m && !Legacy(setup, m[id]) && m[id].execution != 0 && m[id].state != Pending
    ensures id in m' && m'[id].execution == m[id].execution && !Legacy(setup, m'[id]) && m'[id].state != Pending
    ensures e.job != m[id].execution ==> m'[id].state == m[id].state
  {
    match e
    case Done(job, conclusion, runner, now, l) =>
      FinalizeIsolates(setup, m, job, conclusion, runner, now, l, m', id);
    case Started(job, runner, now, l) =>
      ClaimIsolates(setup, m, job, runner, now, l, m', id);
  }
}
