/** A job's completion may arrive before the event that says which runner started it. */
module WorkflowJobOrder {
  import opened Basics
  import opened Model
  import opened Store
  import opened WorkflowJobs

  predicate IsLive(a: Allocation, job: JobId) { Originates(a, job) && !a.state.Terminal() }

  /** Nothing is known of the job's execution yet. Of its records, of which retries leave any number,
      one is live at most and none carries another conclusion; a live runner is one allocation at most,
      and queued records have no runner. */
  ghost predicate Fresh(setup: Setup, m: Records, job: JobId, conclusion: string, runner: Runner) {
    && runner.Identified() && Unstarted(setup, m, job)
    && (forall id <- m :: Originates(m[id], job) ==> m[id].deferred in {None, Some(conclusion)})
    && (forall id <- m :: m[id].state == Pending ==> !Candidate(setup, m[id], job, runner))
    && (forall id <- m, j <- m ::
          (IsExecutor(setup, m, job, runner, Some(id)) && IsExecutor(setup, m, job, runner, Some(j))
           && !m[id].state.Terminal()) ==> id == j)
  }

  ghost predicate Unstarted(setup: Setup, m: Records, job: JobId) {
    && job != 0
    && (forall id <- m :: m[id].execution != job)
    && (forall id <- m :: Originates(m[id], job) ==> !Legacy(setup, m[id]))
    && (forall id <- m, j <- m :: IsLive(m[id], job) && IsLive(m[j], job) ==> id == j)
  }

  predicate Unnamed(runner: Runner, anyone: Runner) {
    !anyone.Identified() && anyone.repository == runner.repository
  }

  // ------------------------------------------------- what matters of a record

  /** The record without the times its runner was first seen, and without what was noted on the job's
      demand: which of several records of a job is noted depends on the order they are listed in. */
  function Core(a: Allocation, job: JobId): Allocation {
    a.(claimedAt := None, registeredAt := None, deferred := if Originates(a, job) then None else a.deferred)
  }

  /** Demand of the job that is still queued, and that an event of the repository may drop. */
  predicate Drops(setup: Setup, a: Allocation, job: JobId, repository: string) {
    Originates(a, job) && Serves(setup, a, repository) && a.state == Pending
  }

  function Gone(a: Allocation): Allocation { a.(state := Canceled, error := NO_LONGER_PENDING) }

  function EndOf(a: Allocation, conclusion: string): Allocation {
    if IsCanceled(conclusion) then a.(state := Canceled) else a.(state := Completed, error := COMPLETED)
  }

  /** The two outcomes agree, except that a demand still queued when its completion arrived early
      has been dropped, where it may stay as supply when the completion came late. */
  predicate Agree(early: Records, late: Records, job: JobId) {
    && early.Keys == late.Keys
    && forall id <- early :: AgreeAt(early[id], late[id], job)
  }

  predicate AgreeAt(a: Allocation, b: Allocation, job: JobId) {
    || Core(a, job) == Core(b, job)
    || (Originates(b, job) && b.state == Pending && Core(a, job) == Gone(Core(b, job)))
  }

  /** From m to m' at most queued demand of the job was dropped. */
  ghost predicate Drifts(setup: Setup, m: Records, m': Records, job: JobId, repository: string) {
    && m'.Keys == m.Keys
    && forall id <- m :: DriftsAt(setup, m[id], m'[id], job, repository)
  }

  predicate DriftsAt(setup: Setup, a: Allocation, b: Allocation, job: JobId, repository: string) {
    || Core(b, job) == Core(a, job)
    || (Drops(setup, a, job, repository) && Core(b, job) == Gone(Core(a, job)))
  }

  lemma ServesByOrigin(setup: Setup, a: Allocation, b: Allocation, repository: string)
    requires a.origin == b.origin
    ensures Serves(setup, a, repository) == Serves(setup, b, repository)
  {
  }

  lemma DriftTwice(setup: Setup, a: Allocation, b: Allocation, c: Allocation, job: JobId, repository: string)
    requires DriftsAt(setup, a, b, job, repository) && DriftsAt(setup, b, c, job, repository)
    ensures DriftsAt(setup, a, c, job, repository)
  {
    SameOrigin(a, b, job);
    ServesByOrigin(setup, a, b, repository);
  }

  lemma SameOrigin(a: Allocation, b: Allocation, job: JobId)
    ensures Core(b, job) in {Core(a, job), Gone(Core(a, job))} ==> b.origin == a.origin && b.execution == a.execution
  {
    assert Core(a, job).origin == a.origin && Core(a, job).execution == a.execution;
    assert Core(b, job).origin == b.origin && Core(b, job).execution == b.execution;
  }

  lemma DriftsTwice(setup: Setup, m: Records, m': Records, m'': Records, job: JobId, repository: string)
    requires Drifts(setup, m, m', job, repository) && Drifts(setup, m', m'', job, repository)
    ensures Drifts(setup, m, m'', job, repository)
  {
    forall id <- m ensures DriftsAt(setup, m[id], m''[id], job, repository) {
      DriftTwice(setup, m[id], m'[id], m''[id], job, repository);
    }
  }

  // -------------------------------------------------------- the single changes

  lemma NotedDrifts(setup: Setup, m: Records, job: JobId, d: Option<AllocationId>, repository: string,
                    conclusion: string)
    requires IsDemand(m, job, d)
    ensures Drifts(setup, m, Noted(setup, m, d, repository, conclusion), job, repository)
    ensures forall id <- m :: Noted(setup, m, d, repository, conclusion)[id].state == m[id].state
  {
  }

  lemma DroppedDrifts(setup: Setup, m: Records, job: JobId, id: AllocationId, repository: string, now: Time)
    requires id in m && Drops(setup, m[id], job, repository)
    ensures Drifts(setup, m, Dropped(m, id, now), job, repository)
    ensures Dropped(m, id, now) == m[id := Gone(m[id])]
  {
  }

  lemma SuppressedDrifts(setup: Setup, m: Records, x: AllocationId, job: JobId, repository: string,
                         d: Option<AllocationId>, now: Time)
    requires x in m && (Spare(m[x], job) ==> IsDemand(m, job, d))
    ensures Drifts(setup, m, Suppressed(setup, m, x, job, repository, d, now), job, repository)
    ensures Suppressed(setup, m, x, job, repository, d, now)[x] == m[x]
    ensures (forall id <- m :: !Drops(setup, m[id], job, repository)) ==>
              Suppressed(setup, m, x, job, repository, d, now) == m
  {
    if Suppressed(setup, m, x, job, repository, d, now) != m {
      DroppedDrifts(setup, m, job, d.value, repository, now);
    }
  }

  /** x is bound to the job; nothing else changes. */
  ghost predicate Binds(m: Records, m': Records, x: AllocationId, job: JobId) {
    && x in m && m'.Keys == m.Keys
    && Core(m'[x], job) == Core(m[x], job).(execution := job)
    && forall id <- m :: id != x ==> m'[id] == m[id]
  }

  lemma StampedBinds(m: Records, x: AllocationId, job: JobId, now: Time)
    requires x in m
    ensures Binds(m, Stamped(Bound(m, x, job), x, now), x, job)
    ensures Stamped(Bound(m, x, job), x, now)[x].deferred == m[x].deferred
  {
  }

  /** x is released; nothing else changes. */
  ghost predicate Ends(m: Records, m': Records, x: AllocationId, job: JobId, conclusion: string) {
    && x in m && m'.Keys == m.Keys
    && Core(m'[x], job) == EndOf(Core(m[x], job), conclusion)
    && forall id <- m :: id != x ==> m'[id] == m[id]
  }

  lemma EndedEnds(m: Records, x: AllocationId, job: JobId, conclusion: string, now: Time)
    requires x in m && m[x].state != Pending
    ensures Ends(m, Ended(m, x, conclusion, now), x, job, conclusion)
  {
  }

  // ------------------------------------------------------- lookups after a drift

  /** The same candidates, and none of them changed in what the search looks at. */
  ghost predicate SameCandidates(setup: Setup, m: Records, m': Records, job: JobId, runner: Runner) {
    && m'.Keys == m.Keys
    && forall id <- m ::
         && (Candidate(setup, m'[id], job, runner) <==> Candidate(setup, m[id], job, runner))
         && (Candidate(setup, m[id], job, runner) ==>
               && m'[id].execution == m[id].execution && m'[id].leaseStart == m[id].leaseStart
               && m'[id].state == m[id].state)
  }

  lemma CandidateByCore(setup: Setup, a: Allocation, b: Allocation, job: JobId, runner: Runner, repository: string)
    requires DriftsAt(setup, a, b, job, repository)
    ensures Candidate(setup, b, job, runner) == Candidate(setup, a, job, runner)
    ensures b.execution == a.execution && b.leaseStart == a.leaseStart
    ensures a.state != Pending ==> b.state == a.state
  {
    var c := Core(a, job);
    assert c.runnerLabel == a.runnerLabel && c.runnerId == a.runnerId && c.leaseStart == a.leaseStart;
    var d := Core(b, job);
    assert d.runnerLabel == b.runnerLabel && d.runnerId == b.runnerId && d.leaseStart == b.leaseStart;
    SameOrigin(a, b, job);
    ServesByOrigin(setup, a, b, runner.repository);
  }

  lemma DriftKeepsCandidates(setup: Setup, m: Records, m': Records, job: JobId, runner: Runner, repository: string)
    requires Drifts(setup, m, m', job, repository)
    requires forall id <- m :: m[id].state == Pending ==> !Candidate(setup, m[id], job, runner)
    ensures SameCandidates(setup, m, m', job, runner)
  {
    forall id <- m
      ensures Candidate(setup, m'[id], job, runner) == Candidate(setup, m[id], job, runner)
      ensures m'[id].execution == m[id].execution && m'[id].leaseStart == m[id].leaseStart
      ensures m[id].state != Pending ==> m'[id].state == m[id].state
    {
      CandidateByCore(setup, m[id], m'[id], job, runner, repository);
    }
  }

  lemma ExecutorStays(setup: Setup, m: Records, m': Records, job: JobId, conclusion: string, runner: Runner,
                      x: Option<AllocationId>, r: Option<AllocationId>)
    requires Fresh(setup, m, job, conclusion, runner) && SameCandidates(setup, m, m', job, runner)
    requires IsExecutor(setup, m, job, runner, x) && IsExecutor(setup, m', job, runner, r)
    ensures x.None? ==> r.None?
    ensures x.Some? && !m[x.value].state.Terminal() ==> r == x
    ensures x.Some? && m[x.value].state.Terminal() ==> r.Some? && m'[r.value].state.Terminal()
  {
    if r.Some? {
      assert IsExecutor(setup, m, job, runner, r);
      if x.Some? { TiedExecutors(setup, m, job, runner, x.value, r.value); }
    }
  }

  /** Of several answers all are live or none is. */
  lemma TiedExecutors(setup: Setup, m: Records, job: JobId, runner: Runner, x: AllocationId, y: AllocationId)
    requires forall id <- m :: m[id].execution != job
    requires IsExecutor(setup, m, job, runner, Some(x)) && IsExecutor(setup, m, job, runner, Some(y))
    ensures m[x].state.Terminal() == m[y].state.Terminal()
  {
    assert !Beats(m[x], m[y]) && !Beats(m[y], m[x]);
  }

  /** Nobody is bound to the job, so a completion that names no runner finds none. */
  lemma NobodyBound(setup: Setup, m: Records, job: JobId, anyone: Runner, r: Option<AllocationId>)
    requires !anyone.Identified() && (forall id <- m :: m[id].execution != job)
    requires IsExecutor(setup, m, job, anyone, r)
    ensures r.None?
  {
  }

  /** A completion that names no runner finds the one bound to its job. */
  lemma OnlyOneBound(setup: Setup, m: Records, job: JobId, x: AllocationId, anyone: Runner, r: Option<AllocationId>)
    requires x in m && m[x].execution == job && (forall id <- m :: id != x ==> m[id].execution != job)
    requires Serves(setup, m[x], anyone.repository) && !anyone.Identified()
    requires IsExecutor(setup, m, job, anyone, r)
    ensures r == Some(x)
  {
    assert Candidate(setup, m[x], job, anyone);
  }

  /** Some answer there always is. */
  lemma DemandExists(m: Records, job: JobId) returns (r: Option<AllocationId>)
    ensures IsDemand(m, job, r)
  {
    if job == 0 {
      r := None;
    } else if id :| id in m && IsLive(m[id], job) {
      r := Some(id);
    } else if id :| id in m && Originates(m[id], job) {
      r := Some(id);
    } else {
      r := None;
    }
  }

  // ---------------------------------------------------- completed, then in progress

  /** After the completion alone: noted on the demand that was looked up, and whatever of it was still
      queued is dropped. */
  lemma UnnamedDone(setup: Setup, m: Records, job: JobId, conclusion: string, runner: Runner, anyone: Runner, now: Time,
                    l: Lookups, m': Records)
    requires Unstarted(setup, m, job) && Unnamed(runner, anyone)
    requires Finalizes(setup, m, job, conclusion, anyone, now, l, m')
    ensures Drifts(setup, m, m', job, runner.repository)
    ensures IsDemand(m, job, l.first)
    ensures forall id <- m ::
              m'[id].state == if Drops(setup, m[id], job, runner.repository) then Canceled else m[id].state
    ensures forall id <- m :: m'[id].deferred == if l.first == Some(id) && Serves(setup, m[id], runner.repository)
                                                 then Some(conclusion) else m[id].deferred
  {
    var repository := runner.repository;
    var noted := Noted(setup, m, l.first, repository, conclusion);
    NotedDrifts(setup, m, job, l.first, repository, conclusion);
    forall id <- m
      ensures noted[id].execution != job && noted[id].origin == m[id].origin && noted[id].state == m[id].state
    {
      assert DriftsAt(setup, m[id], noted[id], job, repository);
      SameOrigin(m[id], noted[id], job);
    }
    NobodyBound(setup, noted, job, anyone, l.executor);
    assert FinalizesDemand(setup, noted, job, conclusion, anyone, now, l, m');
    UnnamedDemand(setup, m, noted, job, conclusion, anyone, now, l, m');
  }

  /** The queued demand, if there is any, is what the second lookup gives. */
  lemma UnnamedDemand(setup: Setup, m: Records, noted: Records, job: JobId, conclusion: string, anyone: Runner,
                      now: Time,
                      l: Lookups, m': Records)
    requires job != 0 && Drifts(setup, m, noted, job, anyone.repository)
    requires forall id <- m :: noted[id].origin == m[id].origin && noted[id].state == m[id].state
    requires forall id <- m :: Originates(m[id], job) ==> !Legacy(setup, m[id])
    requires forall id <- m, j <- m :: IsLive(m[id], job) && IsLive(m[j], job) ==> id == j
    requires FinalizesDemand(setup, noted, job, conclusion, anyone, now, l, m')
    ensures Drifts(setup, m, m', job, anyone.repository)
    ensures forall id <- m ::
              m'[id].state == if Drops(setup, m[id], job, anyone.repository) then Canceled else m[id].state
    ensures forall id <- m :: m'[id].deferred == noted[id].deferred
  {
    var repository := anyone.repository;
    forall id <- m
      ensures Serves(setup, noted[id], repository) == Serves(setup, m[id], repository)
      ensures Drops(setup, noted[id], job, repository) == Drops(setup, m[id], job, repository)
      ensures IsLive(noted[id], job) == IsLive(m[id], job)
    {
      ServesByOrigin(setup, m[id], noted[id], repository);
    }
    if l.second.Some? {
      var d := l.second.value;
      NotLegacy(setup, m, noted, job, repository, d);
      if Drops(setup, noted[d], job, repository) {
        DroppedDrifts(setup, noted, job, d, repository, now);
        DriftsTwice(setup, m, noted, m', job, repository);
      }
      forall id <- m | Drops(setup, m[id], job, repository) ensures id == d {
        assert IsLive(m[id], job) && IsLive(noted[id], job);
        assert IsLive(m[d], job);
      }
    }
  }

  lemma NotLegacy(setup: Setup, m: Records, m': Records, job: JobId, repository: string, d: AllocationId)
    requires Drifts(setup, m, m', job, repository) && d in m && !Legacy(setup, m[d])
    ensures !Legacy(setup, m'[d])
  {
    var a, b := Core(m[d], job), Core(m'[d], job);
    assert a.pool == m[d].pool && a.backend == m[d].backend && b.pool == m'[d].pool && b.backend == m'[d].backend;
    assert DriftsAt(setup, m[d], m'[d], job, repository);
  }

  /** The lookup after the start gives a record on which the conclusion is noted. */
  predicate Told(setup: Setup, m: Records, t: Option<AllocationId>, repository: string) {
    t.Some? && t.value in m && Serves(setup, m[t.value], repository) && m[t.value].deferred.Some?
  }

  /** After a start that finds live runner x and no queued demand: x is bound, and released if the
      conclusion is on the record looked up last. */
  lemma StartedAfterDone(setup: Setup, done: Records, job: JobId, conclusion: string, runner: Runner, now: Time,
                         x: AllocationId, l: Lookups, m': Records)
    requires job != 0 && x in done && !done[x].state.Terminal() && done[x].state != Pending
    requires forall id <- done :: !Drops(setup, done[id], job, runner.repository)
    requires forall id <- done :: Originates(done[id], job) ==> done[id].deferred in {None, Some(conclusion)}
    requires ClaimsOn(setup, done, x, job, runner, now, l, m')
    ensures m'.Keys == done.Keys && forall id <- done :: id != x ==> m'[id] == done[id]
    ensures IsDemand(done, job, l.third)
    ensures var bound := Core(done[x], job).(execution := job);
            Core(m'[x], job)
            == if Told(setup, done, l.third, runner.repository) then EndOf(bound, conclusion) else bound
  {
    var started := Stamped(Bound(done, x, job), x, now);
    StampedBinds(done, x, job, now);
    forall id <- done ensures started[id].origin == done[id].origin && started[id].state == done[id].state
                      ensures started[id].deferred == done[id].deferred
    {
      CoreFields(done[x], job);
      CoreFields(started[x], job);
    }
    forall id <- done ensures !Drops(setup, started[id], job, runner.repository) {
      ServesByOrigin(setup, done[id], started[id], runner.repository);
    }
    SuppressedDrifts(setup, started, x, job, runner.repository, l.second, now);
    assert IsDemand(started, job, l.third);
    if l.third.Some? {
      ServesByOrigin(setup, done[l.third.value], started[l.third.value], runner.repository);
      if Told(setup, done, l.third, runner.repository) { EndedEnds(started, x, job, conclusion, now); }
    }
  }

  lemma CoreFields(a: Allocation, job: JobId)
    ensures var c := Core(a, job);
            c.origin == a.origin && c.state == a.state && c.execution == a.execution && c.error == a.error
  {
  }

  /** The outcome when the completion came first. */
  lemma EarlyOutcome(setup: Setup, m: Records, job: JobId, conclusion: string, runner: Runner, anyone: Runner,
                     tc: Time, tp: Time, x: AllocationId, l: Lookups, l': Lookups, done: Records, early: Records)
    requires Fresh(setup, m, job, conclusion, runner) && Unnamed(runner, anyone)
    requires IsExecutor(setup, m, job, runner, Some(x)) && !m[x].state.Terminal()
    requires Finalizes(setup, m, job, conclusion, anyone, tc, l, done)
    requires Claims(setup, done, job, runner, tp, l', early)
    ensures early.Keys == m.Keys == done.Keys && IsDemand(done, job, l'.third)
    ensures forall id <- m | id != x ::
              Core(early[id], job)
              == if Drops(setup, m[id], job, runner.repository) then Gone(Core(m[id], job)) else Core(m[id], job)
    ensures var bound := Core(m[x], job).(execution := job);
            Core(early[x], job)
            == if Told(setup, done, l'.third, runner.repository) then EndOf(bound, conclusion) else bound
  {
    UnnamedDone(setup, m, job, conclusion, runner, anyone, tc, l, done);
    DriftKeepsCandidates(setup, m, done, job, runner, runner.repository);
    ExecutorStays(setup, m, done, job, conclusion, runner, Some(x), l'.executor);
    forall id <- m
      ensures done[id].origin == m[id].origin
      ensures !Drops(setup, done[id], job, runner.repository)
      ensures Core(done[id], job) ==
                if Drops(setup, m[id], job, runner.repository) then Gone(Core(m[id], job)) else Core(m[id], job)
    {
      DriftAndState(setup, m[id], done[id], job, runner.repository);
    }
    StartedAfterDone(setup, done, job, conclusion, runner, tp, x, l', early);
  }

  lemma DriftAndState(setup: Setup, a: Allocation, b: Allocation, job: JobId, repository: string)
    requires DriftsAt(setup, a, b, job, repository)
    requires b.state == if Drops(setup, a, job, repository) then Canceled else a.state
    ensures b.origin == a.origin && !Drops(setup, b, job, repository)
    ensures Core(b, job) == if Drops(setup, a, job, repository) then Gone(Core(a, job)) else Core(a, job)
  {
    SameOrigin(a, b, job);
    CoreFields(a, job);
    CoreFields(b, job);
    ServesByOrigin(setup, a, b, repository);
  }

  // ---------------------------------------------------- in progress, then completed

  /** After a start that comes first: x is bound, or even released, if an earlier delivery of the
      completion was noted. */
  lemma StartedFirst(setup: Setup, m: Records, job: JobId, conclusion: string, runner: Runner, now: Time,
                     x: AllocationId, l: Lookups, m': Records)
    requires Fresh(setup, m, job, conclusion, runner) && x in m && !m[x].state.Terminal() && m[x].state != Pending
    requires ClaimsOn(setup, m, x, job, runner, now, l, m')
    ensures m'.Keys == m.Keys
    ensures forall id <- m | id != x :: DriftsAt(setup, m[id], m'[id], job, runner.repository)
    ensures var bound := Core(m[x], job).(execution := job); Core(m'[x], job) in {bound, EndOf(bound, conclusion)}
  {
    var stamped := Stamped(Bound(m, x, job), x, now);
    StampedBinds(m, x, job, now);
    var left := Suppressed(setup, stamped, x, job, runner.repository, l.second, now);
    SuppressedDrifts(setup, stamped, x, job, runner.repository, l.second, now);
    CoreFields(m[x], job);
    CoreFields(stamped[x], job);
    if m' != left {
      NotesStay(setup, stamped, x, job, runner.repository, l.second, now, l.third.value);
      EndedEnds(left, x, job, conclusion, now);
    }
  }

  lemma NotesStay(setup: Setup, m: Records, x: AllocationId, job: JobId, repository: string,
                  d: Option<AllocationId>, now: Time, id: AllocationId)
    requires x in m && id in m
    ensures Suppressed(setup, m, x, job, repository, d, now)[id].deferred == m[id].deferred
    ensures Suppressed(setup, m, x, job, repository, d, now)[id].origin == m[id].origin
  {
  }

  lemma EndIsFinal(a: Allocation, conclusion: string)
    ensures EndOf(a, conclusion).state.Terminal() && EndOf(a, conclusion).state != Pending
    ensures EndOf(a, conclusion).execution == a.execution && EndOf(a, conclusion).origin == a.origin
  {
  }

  /** The completion that comes second ends what the start has bound. */
  lemma DoneAfterStarted(setup: Setup, m: Records, job: JobId, conclusion: string, repository: string, anyone: Runner,
                         now: Time, x: AllocationId, l: Lookups, m': Records)
    requires job != 0 && !anyone.Identified() && anyone.repository == repository && x in m
    requires m[x].execution == job && Serves(setup, m[x], repository) && m[x].state != Pending
    requires forall id <- m | id != x :: m[id].execution != job
    requires Finalizes(setup, m, job, conclusion, anyone, now, l, m')
    ensures m'.Keys == m.Keys
    ensures forall id <- m | id != x :: DriftsAt(setup, m[id], m'[id], job, repository)
    ensures Core(m'[x], job) == if m[x].state.Terminal() then Core(m[x], job) else EndOf(Core(m[x], job), conclusion)
  {
    var noted := Noted(setup, m, l.first, repository, conclusion);
    NotedDrifts(setup, m, job, l.first, repository, conclusion);
    forall id <- m ensures noted[id].execution == m[id].execution && noted[id].origin == m[id].origin
                   ensures noted[id].state == m[id].state
    {
      assert DriftsAt(setup, m[id], noted[id], job, repository);
      SameOrigin(m[id], noted[id], job);
    }
    ServesByOrigin(setup, m[x], noted[x], repository);
    OnlyOneBound(setup, noted, job, x, anyone, l.executor);
    assert FinalizesOn(setup, noted, x, job, conclusion, anyone, now, l, m');
    assert DriftsAt(setup, m[x], noted[x], job, repository);
    CoreFields(m[x], job);
    CoreFields(noted[x], job);
    if !m[x].state.Terminal() {
      assert Bound(noted, x, job) == noted;
      EndsAfterSuppression(setup, noted, job, conclusion, repository, now, x, l.second, m');
      forall id <- m | id != x ensures DriftsAt(setup, m[id], m'[id], job, repository) {
        DriftTwice(setup, m[id], noted[id], m'[id], job, repository);
      }
    }
  }

  lemma EndsAfterSuppression(setup: Setup, m: Records, job: JobId, conclusion: string, repository: string,
                             now: Time, x: AllocationId, d: Option<AllocationId>, m': Records)
    requires x in m && m[x].state != Pending && (Spare(m[x], job) ==> IsDemand(m, job, d))
    requires m' == Ended(Suppressed(setup, m, x, job, repository, d, now), x, conclusion, now)
    ensures m'.Keys == m.Keys
    ensures forall id <- m | id != x :: DriftsAt(setup, m[id], m'[id], job, repository)
    ensures Core(m'[x], job) == EndOf(Core(m[x], job), conclusion)
  {
    SuppressedDrifts(setup, m, x, job, repository, d, now);
    EndedEnds(Suppressed(setup, m, x, job, repository, d, now), x, job, conclusion, now);
  }

  /** The outcome when the start came first. */
  lemma LateOutcome(setup: Setup, m: Records, job: JobId, conclusion: string, runner: Runner, anyone: Runner,
                    tp: Time, tc: Time, x: AllocationId, l: Lookups, l': Lookups, started: Records, late: Records)
    requires Fresh(setup, m, job, conclusion, runner) && Unnamed(runner, anyone)
    requires IsExecutor(setup, m, job, runner, Some(x)) && !m[x].state.Terminal()
    requires Claims(setup, m, job, runner, tp, l, started)
    requires Finalizes(setup, started, job, conclusion, anyone, tc, l', late)
    ensures late.Keys == m.Keys
    ensures forall id <- m | id != x :: DriftsAt(setup, m[id], late[id], job, runner.repository)
    ensures Core(late[x], job) == EndOf(Core(m[x], job).(execution := job), conclusion)
  {
    ExecutorStays(setup, m, m, job, conclusion, runner, Some(x), l.executor);
    StartedFirst(setup, m, job, conclusion, runner, tp, x, l, started);
    var bound := Core(m[x], job).(execution := job);
    EndIsFinal(bound, conclusion);
    CoreFields(m[x], job);
    CoreFields(started[x], job);
    ServesByOrigin(setup, m[x], started[x], runner.repository);
    forall id <- m | id != x ensures started[id].execution != job {
      SameOrigin(m[id], started[id], job);
    }
    DoneAfterStarted(setup, started, job, conclusion, runner.repository, anyone, tc, x, l', late);
    forall id <- m | id != x ensures DriftsAt(setup, m[id], late[id], job, runner.repository) {
      DriftTwice(setup, m[id], started[id], late[id], job, runner.repository);
    }
  }

  // ------------------------------------------------------------------ existence

  lemma UnnamedDoneHappens(setup: Setup, m: Records, job: JobId, conclusion: string, anyone: Runner, now: Time,
                           first: Option<AllocationId>) returns (l: Lookups, m': Records)
    requires Unstarted(setup, m, job) && !anyone.Identified() && IsDemand(m, job, first)
    ensures Finalizes(setup, m, job, conclusion, anyone, now, l, m') && l.first == first
  {
    var noted := Noted(setup, m, first, anyone.repository, conclusion);
    var second := DemandExists(noted, job);
    l := Lookups(first, None, second, None);
    assert IsExecutor(setup, noted, job, anyone, None);
    m' :=
      if second.None? || !Serves(setup, noted[second.value], anyone.repository)
         || noted[second.value].state.Terminal() then noted
      else if Legacy(setup, noted[second.value]) then Ended(noted, second.value, conclusion, now)
      else if noted[second.value].state == Pending then Dropped(noted, second.value, now)
      else noted;
    assert FinalizesDemand(setup, noted, job, conclusion, anyone, now, l, m');
  }

  lemma BoundDoneHappens(setup: Setup, m: Records, job: JobId, conclusion: string, anyone: Runner, now: Time,
                         x: AllocationId) returns (l: Lookups, m': Records)
    requires job != 0 && !anyone.Identified() && x in m
    requires m[x].execution == job && Serves(setup, m[x], anyone.repository)
    ensures Finalizes(setup, m, job, conclusion, anyone, now, l, m')
  {
    var first := DemandExists(m, job);
    var noted := Noted(setup, m, first, anyone.repository, conclusion);
    ServesByOrigin(setup, m[x], noted[x], anyone.repository);
    var bound := Bound(noted, x, job);
    var second := DemandExists(bound, job);
    l := Lookups(first, Some(x), second, None);
    m' := if noted[x].state.Terminal() then noted
          else Ended(Suppressed(setup, bound, x, job, anyone.repository, second, now), x, conclusion, now);
    assert FinalizesOn(setup, noted, x, job, conclusion, anyone, now, l, m');
  }

  lemma ClaimHappens(setup: Setup, m: Records, job: JobId, runner: Runner, now: Time, x: AllocationId)
    returns (l: Lookups, m': Records)
    requires IsExecutor(setup, m, job, runner, Some(x)) && !m[x].state.Terminal()
    ensures Claims(setup, m, job, runner, now, l, m')
  {
    var stamped := Stamped(Bound(m, x, job), x, now);
    var second := DemandExists(stamped, job);
    var left := Suppressed(setup, stamped, x, job, runner.repository, second, now);
    var third := DemandExists(left, job);
    l := Lookups(None, Some(x), second, third);
    m' := ClaimResult(setup, left, x, runner.repository, third, now);
    assert ClaimsOn(setup, m, x, job, runner, now, l, m');
  }

  /** The same, with no queued demand about, and the last lookup giving a chosen answer. */
  lemma ClaimHappensWith(setup: Setup, m: Records, job: JobId, runner: Runner, now: Time, x: AllocationId,
                         third: Option<AllocationId>) returns (l: Lookups, m': Records)
    requires job != 0 && IsExecutor(setup, m, job, runner, Some(x)) && !m[x].state.Terminal() && m[x].state != Pending
    requires IsDemand(m, job, third) && forall id <- m :: !Drops(setup, m[id], job, runner.repository)
    ensures Claims(setup, m, job, runner, now, l, m') && l.third == third
  {
    var stamped := Stamped(Bound(m, x, job), x, now);
    StampedBinds(m, x, job, now);
    forall id <- m ensures stamped[id].origin == m[id].origin && stamped[id].state == m[id].state {
      CoreFields(m[x], job);
      CoreFields(stamped[x], job);
    }
    forall id <- m ensures !Drops(setup, stamped[id], job, runner.repository) {
      ServesByOrigin(setup, m[id], stamped[id], runner.repository);
    }
    var second := DemandExists(stamped, job);
    SuppressedDrifts(setup, stamped, x, job, runner.repository, second, now);
    assert IsDemand(stamped, job, third);
    l := Lookups(None, Some(x), second, third);
    m' := ClaimResult(setup, stamped, x, runner.repository, third, now);
    assert ClaimsOn(setup, m, x, job, runner, now, l, m');
  }

  function ClaimResult(setup: Setup, m: Records, x: AllocationId, repository: string, t: Option<AllocationId>,
                       now: Time): Records
    requires x in m && (t.Some? ==> t.value in m)
  {
    if t.Some? && Serves(setup, m[t.value], repository) && m[t.value].deferred.Some?
    then Ended(m, x, m[t.value].deferred.value, now) else m
  }

  lemma ExecutorCarries(setup: Setup, m: Records, m': Records, job: JobId, runner: Runner, x: AllocationId)
    requires SameCandidates(setup, m, m', job, runner) && IsExecutor(setup, m, job, runner, Some(x))
    ensures IsExecutor(setup, m', job, runner, Some(x))
  {
  }

  // ------------------------------------------------------------------- convergence

  /** After the completion no lookup gives this record, or it carries the conclusion. */
  ghost predicate Reaches(setup: Setup, m: Records, job: JobId, repository: string, t: AllocationId)
    requires t in m
  {
    || (m[t].state.Terminal() && exists live <- m :: IsLive(m[live], job) && !Drops(setup, m[live], job, repository))
    || (&& Serves(setup, m[t], repository)
        && (|| m[t].deferred.Some? || IsLive(m[t], job)
            || forall id <- m :: Originates(m[id], job) ==> id == t))
  }

  /** The job has a record, and an early completion that names no runner reaches all of them: its live
      record serves the repository, and if that one is still queued, and so dropped, or there is none,
      every other record has the conclusion already. */
  ghost predicate Reached(setup: Setup, m: Records, job: JobId, repository: string) {
    && (exists id :: id in m && Originates(m[id], job))
    && forall id <- m :: Originates(m[id], job) ==> Reaches(setup, m, job, repository, id)
  }

  /** What an early completion leaves for the lookup after the start. */
  ghost predicate IsDone(setup: Setup, m: Records, done: Records, job: JobId, repository: string, conclusion: string,
                         first: Option<AllocationId>) {
    && IsDemand(m, job, first) && done.Keys == m.Keys
    && (forall id <- m :: done[id].origin == m[id].origin)
    && (forall id <- m :: done[id].state == if Drops(setup, m[id], job, repository) then Canceled else m[id].state)
    && (forall id <- m :: done[id].deferred == if first == Some(id) && Serves(setup, m[id], repository)
                                               then Some(conclusion) else m[id].deferred)
  }

  lemma ReachedIsTold(setup: Setup, m: Records, done: Records, job: JobId, conclusion: string, repository: string,
                      first: Option<AllocationId>, t: Option<AllocationId>)
    requires Unstarted(setup, m, job) && IsDone(setup, m, done, job, repository, conclusion, first)
    requires IsDemand(done, job, t) && Reached(setup, m, job, repository)
    ensures Told(setup, done, t, repository)
  {
    var id :| id in m && Originates(m[id], job);
    assert Originates(done[id], job);
    assert Originates(m[t.value], job);
    ServesByOrigin(setup, m[t.value], done[t.value], repository);
    assert Reaches(setup, m, job, repository, t.value);
    forall live <- m
      ensures IsLive(m[live], job) && !Drops(setup, m[live], job, repository) ==> IsLive(done[live], job)
    {
    }
    if IsLive(m[t.value], job) {
      assert first == Some(t.value);
    }
  }

  /** Otherwise there are lookups that miss the conclusion. */
  lemma UnreachedIsMissed(setup: Setup, m: Records, job: JobId, repository: string)
    returns (first: Option<AllocationId>, t: Option<AllocationId>)
    requires Unstarted(setup, m, job) && !Reached(setup, m, job, repository)
    ensures IsDemand(m, job, first)
    ensures forall done, conclusion | IsDone(setup, m, done, job, repository, conclusion, first) ::
              IsDemand(done, job, t) && !Told(setup, done, t, repository)
  {
    if forall id <- m :: !Originates(m[id], job) {
      first, t := None, None;
    } else {
      var u :| u in m && Originates(m[u], job) && !Reaches(setup, m, job, repository, u);
      t := Some(u);
      first := MissingFirst(setup, m, job, repository, u);
      forall done, conclusion | IsDone(setup, m, done, job, repository, conclusion, first)
        ensures IsDemand(done, job, t) && !Told(setup, done, t, repository)
      {
        ServesByOrigin(setup, m[u], done[u], repository);
        forall id <- m ensures IsLive(done[id], job) ==> IsLive(m[id], job) && !Drops(setup, m[id], job, repository) {}
      }
    }
  }

  lemma MissingFirst(setup: Setup, m: Records, job: JobId, repository: string, u: AllocationId)
    returns (first: Option<AllocationId>)
    requires Unstarted(setup, m, job) && u in m && Originates(m[u], job) && !Reaches(setup, m, job, repository, u)
    ensures IsDemand(m, job, first)
    ensures Serves(setup, m[u], repository) ==> first != Some(u) && m[u].deferred.None?
  {
    if live :| live in m && IsLive(m[live], job) {
      first := Some(live);
    } else if Serves(setup, m[u], repository) {
      var o :| o in m && Originates(m[o], job) && o != u;
      first := Some(o);
    } else {
      first := Some(u);
    }
  }

  /** Whatever the lookups give on the way, the two orders agree. */
  ghost predicate Converges(setup: Setup, m: Records, job: JobId, conclusion: string, runner: Runner, anyone: Runner,
                            tc: Time, tp: Time, tp': Time, tc': Time) {
    forall l1, l2, l3, l4, done, early, started, late ::
      && Finalizes(setup, m, job, conclusion, anyone, tc, l1, done)
      && Claims(setup, done, job, runner, tp, l2, early)
      && Claims(setup, m, job, runner, tp', l3, started)
      && Finalizes(setup, started, job, conclusion, anyone, tc', l4, late)
      ==> Agree(early, late, job)
  }

  lemma UnnamedDoneIsDone(setup: Setup, m: Records, job: JobId, conclusion: string, runner: Runner, anyone: Runner,
                          now: Time, l: Lookups, done: Records)
    requires Unstarted(setup, m, job) && Unnamed(runner, anyone)
    requires Finalizes(setup, m, job, conclusion, anyone, now, l, done)
    ensures IsDone(setup, m, done, job, runner.repository, conclusion, l.first)
  {
    UnnamedDone(setup, m, job, conclusion, runner, anyone, now, l, done);
    forall id <- m ensures done[id].origin == m[id].origin { SameOrigin(m[id], done[id], job); }
  }

  /** For a live runner two outcomes agree exactly when the early completion was told at the start. */
  lemma LiveRunnerAgrees(setup: Setup, m: Records, job: JobId, conclusion: string, runner: Runner, anyone: Runner,
                         tc: Time, tp: Time, tp': Time, tc': Time, x: AllocationId,
                         l1: Lookups, l2: Lookups, l3: Lookups, l4: Lookups,
                         done: Records, early: Records, started: Records, late: Records)
    requires Fresh(setup, m, job, conclusion, runner) && Unnamed(runner, anyone)
    requires IsExecutor(setup, m, job, runner, Some(x)) && !m[x].state.Terminal()
    requires Finalizes(setup, m, job, conclusion, anyone, tc, l1, done)
    requires Claims(setup, done, job, runner, tp, l2, early)
    requires Claims(setup, m, job, runner, tp', l3, started)
    requires Finalizes(setup, started, job, conclusion, anyone, tc', l4, late)
    ensures IsDone(setup, m, done, job, runner.repository, conclusion, l1.first) && IsDemand(done, job, l2.third)
    ensures x in early && x in late && early[x].execution == job == late[x].execution && late[x].state.Terminal()
    ensures Agree(early, late, job) <==> Told(setup, done, l2.third, runner.repository)
    ensures early[x].state.Terminal() <==> Told(setup, done, l2.third, runner.repository)
  {
    UnnamedDoneIsDone(setup, m, job, conclusion, runner, anyone, tc, l1, done);
    EarlyOutcome(setup, m, job, conclusion, runner, anyone, tc, tp, x, l1, l2, done, early);
    LateOutcome(setup, m, job, conclusion, runner, anyone, tp', tc', x, l3, l4, started, late);
    var bound := Core(m[x], job).(execution := job);
    EndIsFinal(bound, conclusion);
    CoreFields(m[x], job);
    CoreFields(early[x], job);
    CoreFields(late[x], job);
    forall id <- m | id != x ensures AgreeAt(early[id], late[id], job) {
      DriftsAgree(setup, m[id], early[id], late[id], job, runner.repository);
    }
  }

  lemma DriftsAgree(setup: Setup, a: Allocation, b: Allocation, c: Allocation, job: JobId, repository: string)
    requires Core(b, job) == if Drops(setup, a, job, repository) then Gone(Core(a, job)) else Core(a, job)
    requires DriftsAt(setup, a, c, job, repository)
    ensures AgreeAt(b, c, job)
  {
    CoreFields(a, job);
    CoreFields(c, job);
  }

  /** With no live runner to be found the order does not matter. */
  lemma NoRunnerConverges(setup: Setup, m: Records, job: JobId, conclusion: string, runner: Runner, anyone: Runner,
                          tc: Time, tp: Time, tp': Time, tc': Time, x: Option<AllocationId>,
                          l1: Lookups, l2: Lookups, l3: Lookups, l4: Lookups,
                          done: Records, early: Records, started: Records, late: Records)
    requires Fresh(setup, m, job, conclusion, runner) && Unnamed(runner, anyone)
    requires IsExecutor(setup, m, job, runner, x) && (x.Some? ==> m[x.value].state.Terminal())
    requires Finalizes(setup, m, job, conclusion, anyone, tc, l1, done)
    requires Claims(setup, done, job, runner, tp, l2, early)
    requires Claims(setup, m, job, runner, tp', l3, started)
    requires Finalizes(setup, started, job, conclusion, anyone, tc', l4, late)
    ensures Agree(early, late, job)
  {
    var repository := runner.repository;
    UnnamedDone(setup, m, job, conclusion, runner, anyone, tc, l1, done);
    DriftKeepsCandidates(setup, m, done, job, runner, repository);
    ExecutorStays(setup, m, done, job, conclusion, runner, x, l2.executor);
    ExecutorStays(setup, m, m, job, conclusion, runner, x, l3.executor);
    UnstartedStays(setup, m, done, job, repository);
    IdleClaim(setup, m, job, runner, tp', l3, started);
    UnstartedStays(setup, m, started, job, repository);
    UnnamedDone(setup, started, job, conclusion, runner, anyone, tc', l4, late);
    IdleClaim(setup, done, job, runner, tp, l2, early);
    forall id <- m ensures AgreeAt(early[id], late[id], job) {
      DriftAndState(setup, m[id], done[id], job, repository);
      assert DriftsAt(setup, done[id], early[id], job, repository);
      assert DriftsAt(setup, m[id], started[id], job, repository);
      DriftAndState(setup, started[id], late[id], job, repository);
      DriftThenDone(setup, m[id], started[id], late[id], job, repository);
    }
  }

  /** A start that finds no live runner drops queued demand at most. */
  lemma IdleClaim(setup: Setup, m: Records, job: JobId, runner: Runner, now: Time, l: Lookups, m': Records)
    requires Unstarted(setup, m, job) && Claims(setup, m, job, runner, now, l, m')
    requires l.executor.Some? ==> m[l.executor.value].state.Terminal()
    ensures Drifts(setup, m, m', job, runner.repository)
  {
    if m' != m {
      DroppedDrifts(setup, m, job, l.first.value, runner.repository, now);
    }
  }

  lemma UnstartedStays(setup: Setup, m: Records, m': Records, job: JobId, repository: string)
    requires Unstarted(setup, m, job) && Drifts(setup, m, m', job, repository)
    ensures Unstarted(setup, m', job)
  {
    forall id <- m
      ensures m'[id].execution == m[id].execution && m'[id].origin == m[id].origin
      ensures IsLive(m'[id], job) ==> IsLive(m[id], job)
      ensures Originates(m'[id], job) ==> !Legacy(setup, m'[id])
    {
      assert DriftsAt(setup, m[id], m'[id], job, repository);
      SameOrigin(m[id], m'[id], job);
      CoreFields(m[id], job);
      CoreFields(m'[id], job);
      if Originates(m[id], job) { NotLegacy(setup, m, m', job, repository, id); }
    }
  }

  lemma DriftThenDone(setup: Setup, a: Allocation, b: Allocation, c: Allocation, job: JobId, repository: string)
    requires DriftsAt(setup, a, b, job, repository)
    requires Core(c, job) == if Drops(setup, b, job, repository) then Gone(Core(b, job)) else Core(b, job)
    ensures Core(c, job) == if Drops(setup, a, job, repository) then Gone(Core(a, job)) else Core(a, job)
  {
    SameOrigin(a, b, job);
    CoreFields(a, job);
    CoreFields(b, job);
    ServesByOrigin(setup, a, b, repository);
  }

  /** Lookups for which a live runner is left running by the early completion. */
  lemma UnreachedDiverges(setup: Setup, m: Records, job: JobId, conclusion: string, runner: Runner, anyone: Runner,
                          tc: Time, tp: Time, tp': Time, tc': Time, x: AllocationId)
    requires Fresh(setup, m, job, conclusion, runner) && Unnamed(runner, anyone)
    requires IsExecutor(setup, m, job, runner, Some(x)) && !m[x].state.Terminal()
    requires !Reached(setup, m, job, runner.repository)
    ensures !Converges(setup, m, job, conclusion, runner, anyone, tc, tp, tp', tc')
  {
    var first, t := UnreachedIsMissed(setup, m, job, runner.repository);
    var l1, done := UnnamedDoneHappens(setup, m, job, conclusion, anyone, tc, first);
    UnnamedDoneIsDone(setup, m, job, conclusion, runner, anyone, tc, l1, done);
    UnnamedDone(setup, m, job, conclusion, runner, anyone, tc, l1, done);
    DriftKeepsCandidates(setup, m, done, job, runner, runner.repository);
    ExecutorCarries(setup, m, done, job, runner, x);
    forall id <- m ensures !Drops(setup, done[id], job, runner.repository) {
      DriftAndState(setup, m[id], done[id], job, runner.repository);
    }
    var l2, early := ClaimHappensWith(setup, done, job, runner, tp, x, t);
    var l3, started := ClaimHappens(setup, m, job, runner, tp', x);
    var l4, late := LateHappens(setup, m, job, conclusion, runner, anyone, tp', tc', x, l3, started);
    LiveRunnerAgrees(setup, m, job, conclusion, runner, anyone, tc, tp, tp', tc', x,
                     l1, l2, l3, l4, done, early, started, late);
  }

  lemma LateHappens(setup: Setup, m: Records, job: JobId, conclusion: string, runner: Runner, anyone: Runner,
                    tp: Time, tc: Time, x: AllocationId, l: Lookups, started: Records)
    returns (l': Lookups, late: Records)
    requires Fresh(setup, m, job, conclusion, runner) && Unnamed(runner, anyone)
    requires IsExecutor(setup, m, job, runner, Some(x)) && !m[x].state.Terminal()
    requires Claims(setup, m, job, runner, tp, l, started)
    ensures Finalizes(setup, started, job, conclusion, anyone, tc, l', late)
  {
    ExecutorStays(setup, m, m, job, conclusion, runner, Some(x), l.executor);
    StartedFirst(setup, m, job, conclusion, runner, tp, x, l, started);
    var bound := Core(m[x], job).(execution := job);
    EndIsFinal(bound, conclusion);
    CoreFields(m[x], job);
    CoreFields(started[x], job);
    ServesByOrigin(setup, m[x], started[x], runner.repository);
    l', late := BoundDoneHappens(setup, started, job, conclusion, anyone, tc, x);
  }

  /** Out-of-order convergence: a completion that names no runner and the start that names one lead to
      the same bound allocation in the same terminal state, whichever comes first and whatever the
      lookups give, exactly when no live runner is found or the completion reaches the job's records. */
  lemma EventsConverge(setup: Setup, m: Records, job: JobId, conclusion: string, runner: Runner, anyone: Runner,
                       tc: Time, tp: Time, tp': Time, tc': Time, x: Option<AllocationId>)
    requires Fresh(setup, m, job, conclusion, runner) && Unnamed(runner, anyone) && IsExecutor(setup, m, job, runner, x)
    ensures Converges(setup, m, job, conclusion, runner, anyone, tc, tp, tp', tc')
            <==> x.None? || m[x.value].state.Terminal() || Reached(setup, m, job, runner.repository)
  {
    if x.Some? && !m[x.value].state.Terminal() && !Reached(setup, m, job, runner.repository) {
      UnreachedDiverges(setup, m, job, conclusion, runner, anyone, tc, tp, tp', tc', x.value);
    } else {
      forall l1, l2, l3, l4, done, early, started, late |
        && Finalizes(setup, m, job, conclusion, anyone, tc, l1, done)
        && Claims(setup, done, job, runner, tp, l2, early)
        && Claims(setup, m, job, runner, tp', l3, started)
        && Finalizes(setup, started, job, conclusion, anyone, tc', l4, late)
        ensures Agree(early, late, job)
      {
        if x.Some? && !m[x.value].state.Terminal() {
          LiveRunnerAgrees(setup, m, job, conclusion, runner, anyone, tc, tp, tp', tc', x.value,
                           l1, l2, l3, l4, done, early, started, late);
          ReachedIsTold(setup, m, done, job, conclusion, runner.repository, l1.first, l2.third);
        } else {
          NoRunnerConverges(setup, m, job, conclusion, runner, anyone, tc, tp, tp', tc', x,
                            l1, l2, l3, l4, done, early, started, late);
        }
      }
    }
  }

  // --------------------------------------------------------------- a retried job

  const SOME_RECORD := Allocation(0, 0, 0, "", "", Failed, "", None, None, None, None, "", None, None, 0, None, None)

  /** A failed and a queued record of job 7, and a runner launched for job 8. */
  function RetriedJob(repository: string): Records {
    var demand := SOME_RECORD.(origin := Some(Origin(7, repository, 0, 0)));
    map[0 := demand, 1 := demand.(id := 1, state := Pending),
        2 := SOME_RECORD.(id := 2, state := Ready, runnerId := Some(5), origin := Some(Origin(8, repository, 0, 0)))]
  }

  lemma RetriedJobLookups(setup: Setup, repository: string, runner: Runner)
    requires repository != "" && Trim(repository) == repository
    requires setup == Setup({repository}, false, {}, {}) && runner == Runner(repository, "", 5, None)
    ensures var m := RetriedJob(repository);
            && IsDemand(m, 7, Some(1)) && Serves(setup, m[1], repository) && Serves(setup, m[0], repository)
            && !Candidate(setup, m[0], 7, runner) && !Candidate(setup, m[1], 7, runner)
            && Candidate(setup, m[2], 7, runner)
  {
    assert Serves(setup, RetriedJob(repository)[2], repository);
  }

  lemma RetriedJobIsFresh(setup: Setup, repository: string, runner: Runner, conclusion: string)
    requires repository != "" && Trim(repository) == repository
    requires setup == Setup({repository}, false, {}, {}) && runner == Runner(repository, "", 5, None)
    ensures var m := RetriedJob(repository);
            Fresh(setup, m, 7, conclusion, runner) && IsExecutor(setup, m, 7, runner, Some(2))
  {
    var m := RetriedJob(repository);
    RetriedJobLookups(setup, repository, runner);
    assert forall id <- m :: !Legacy(setup, m[id]);
    forall id <- m | IsExecutor(setup, m, 7, runner, Some(id)) ensures id == 2 {}
  }

  /** A job whose first allocation failed and whose second is queued runs on a neighbour's runner. Its
      demand is on record, and served. The early completion drops the queued record and is noted there
      alone; a later lookup may give the failed one, and the runner is never released. */
  lemma RetriedJobDiverges(setup: Setup, repository: string, runner: Runner, anyone: Runner, conclusion: string)
    requires repository != "" && Trim(repository) == repository
    requires setup == Setup({repository}, false, {}, {})
    requires runner == Runner(repository, "", 5, None) && anyone == Runner(repository, "", 0, None)
    ensures var m := RetriedJob(repository);
            && IsDemand(m, 7, Some(1)) && Serves(setup, m[1], repository) && m[2].state == Ready
            && !Converges(setup, m, 7, conclusion, runner, anyone, 1, 2, 1, 2)
  {
    var m := RetriedJob(repository);
    RetriedJobLookups(setup, repository, runner);
    RetriedJobIsFresh(setup, repository, runner, conclusion);
    forall live <- m | IsLive(m[live], 7) ensures Drops(setup, m[live], 7, repository) {}
    assert Originates(m[1], 7);
    assert !Reaches(setup, m, 7, repository, 0);
    EventsConverge(setup, m, 7, conclusion, runner, anyone, 1, 2, 1, 2, Some(2));
  }
}
