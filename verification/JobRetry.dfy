/** Allocation on behalf of workflow jobs: one live allocation per job, and a bounded number of
    attempts with growing delays for a job that keeps failing. */
module JobRetry {
  import opened Basics
  import opened Model
  import opened Store
  import opened WorkflowJobs

  const MAX_ALLOCATIONS := 5
  const RETRY_BASE := 30
  const RETRY_MAX := 600
  const HOUR := 3600

  function Pow2(n: nat): nat { if n == 0 then 1 else 2 * Pow2(n - 1) }

  /** The delay after the n-th record: doubled each time, up to the maximum. */
  function Delay(n: int): int { if n <= 1 then RETRY_BASE else Min(RETRY_BASE * Pow2(n - 1), RETRY_MAX) }

  lemma {:induction false} Pow2Grows(m: nat, n: nat)
    requires m <= n
    ensures Pow2(m) <= Pow2(n)
  {
    if m < n { Pow2Grows(m, n - 1); }
  }

  method Backoff(prior: int) returns (d: int)
    ensures d == Delay(prior)
  {
    d := RETRY_BASE;
    var i := 1;
    while i < prior
      invariant 1 <= i && (i <= prior || i == 1)
      invariant d == RETRY_BASE * Pow2(i - 1) && d < RETRY_MAX
    {
      d := d * 2;
      if d >= RETRY_MAX {
        Pow2Grows(i, prior - 1);
        return RETRY_MAX;
      }
      i := i + 1;
    }
  }

  ghost function OfJob(job: JobId): Allocation -> bool { (a: Allocation) => Originates(a, job) }

  ghost function LiveOf(job: JobId): Allocation -> bool { (a: Allocation) => Originates(a, job) && !a.state.Terminal() }

  /** What the allocation itself comes to: a new live record, or an error that may leave a record behind. */
  datatype Outcome = Granted(record: Allocation) | Rejected(left: Option<Allocation>)

  predicate Plausible(m: Records, job: JobId, o: Outcome) {
    match o
    case Granted(a) => a.id !in m && Originates(a, job) && !a.state.Terminal()
    case Rejected(left) => left.Some? ==> left.value.id !in m && Originates(left.value, job)
  }

  function Kept(m: Records, o: Outcome): Records {
    match o
    case Granted(a) => m[a.id := a]
    case Rejected(left) => if left.Some? then m[left.value.id := left.value] else m
  }

  datatype Book = Book(records: Records, next: map<JobId, Time>)

  ghost predicate MayRetry(b: Book, job: JobId, now: Time) {
    Uses(b.records, OfJob(job)) < MAX_ALLOCATIONS && !(job in b.next && now < b.next[job])
  }

  /** A new allocation is attempted for a job without a record, and again, when that is asked for, for
      one whose records are all terminal, few enough and old enough. */
  ghost predicate Attempts(b: Book, job: JobId, retry: bool, now: Time) {
    || Uses(b.records, OfJob(job)) == 0
    || (Uses(b.records, LiveOf(job)) == 0 && retry && MayRetry(b, job, now))
  }

  ghost function Reallocated(b: Book, job: JobId, now: Time): map<JobId, Time> {
    var noted := b.next[job := now + Delay(Uses(b.records, OfJob(job)))];
    map j | j in noted && now - noted[j] <= HOUR :: noted[j]
  }

  ghost function AfterAllocate(b: Book, job: JobId, retry: bool, o: Outcome, now: Time): Book {
    if !Attempts(b, job, retry, now) then b
    else
      var kept := b.(records := Kept(b.records, o));
      if Uses(b.records, OfJob(job)) > 0 && o.Granted? then kept.(next := Reallocated(kept, job, now)) else kept
  }

  lemma DemandTells(m: Records, job: JobId, r: Option<AllocationId>)
    requires job != 0 && IsDemand(m, job, r)
    ensures r.None? <==> Uses(m, OfJob(job)) == 0
    ensures r.Some? ==> (m[r.value].state.Terminal() <==> Uses(m, LiveOf(job)) == 0)
  {
    if r.Some? {
      assert r.value in Where(m, OfJob(job));
      if m[r.value].state.Terminal() {
        forall id ensures id !in Where(m, LiveOf(job)) {
          if id in m { assert Originates(m[id], job) ==> m[id].state.Terminal(); }
        }
        assert Where(m, LiveOf(job)) == {};
      } else {
        assert r.value in Where(m, LiveOf(job));
      }
    } else {
      forall id ensures id !in Where(m, OfJob(job)) { if id in m { assert !Originates(m[id], job); } }
      assert Where(m, OfJob(job)) == {};
    }
  }

  class JobAllocator {
    const store: Memory
    var next: map<JobId, Time>

    ghost function View(): Book
      reads this, store
    {
      Book(store.allocations, next)
    }

    constructor (store: Memory)
      ensures this.store == store && next == map[]
    {
      this.store, next := store, map[];
    }

    method CountJob(job: JobId) returns (n: nat)
      ensures n == Uses(store.allocations, OfJob(job))
    {
      n := 0;
      ghost var hits := {};
      var m := store.allocations;
      var rest := m.Keys;
      while rest != {}
        invariant rest <= m.Keys && n == |hits|
        invariant hits == set id | id in m && id !in rest && OfJob(job)(m[id])
        decreases rest
      {
        var id := NextKey(rest);
        rest := rest - {id};
        if m[id].origin.Some? && m[id].origin.value.workflowJob == job {
          n, hits := n + 1, hits + {id};
        }
      }
      assert hits == Where(m, OfJob(job));
    }

    method MayReallocate(job: JobId, now: Time) returns (ok: bool)
      ensures ok == MayRetry(View(), job, now)
    {
      var prior := CountJob(job);
      if prior >= MAX_ALLOCATIONS { return false; }
      if job in next && now < next[job] { return false; }
      return true;
    }

    method NoteReallocated(job: JobId, now: Time)
      modifies `next
      ensures next == Reallocated(old(View()), job, now)
    {
      var prior := CountJob(job);
      var delay := Backoff(prior);
      next := next[job := now + delay];
      ghost var noted := next;
      var rest := next.Keys;
      while rest != {}
        invariant rest <= noted.Keys
        invariant next.Keys == set j | j in noted && (j in rest || now - noted[j] <= HOUR)
        invariant forall j <- next :: next[j] == noted[j]
        decreases rest
      {
        var j := NextKey(rest);
        rest := rest - {j};
        if now - next[j] > HOUR { next := next - {j}; }
      }
      SameTimes(next, map j | j in noted && now - noted[j] <= HOUR :: noted[j]);
    }

    /** The outcome is what the allocation would come to if it is attempted. */
    method AllocateForWorkflowJob(job: JobId, retry: bool, o: Outcome, now: Time) returns (created: bool)
      requires job != 0 && Plausible(store.allocations, job, o)
      modifies this, store`allocations
      ensures View() == AfterAllocate(old(View()), job, retry, o, now)
      ensures created == (Attempts(old(View()), job, retry, now) && o.Granted?)
    {
      ghost var before := View();
      var existing := FindDemand(store.allocations, job);
      DemandTells(store.allocations, job, existing);
      if existing.Some? {
        if !store.allocations[existing.value].state.Terminal() || !retry { return false; }
        var may := MayReallocate(job, now);
        if !may { return false; }
      }
      match o {
        case Granted(a) => store.Save(a);
        case Rejected(left) => if left.Some? { store.Save(left.value); }
      }
      created := o.Granted?;
      if existing.Some? && created {
        NoteReallocated(job, now);
      }
    }
  }

  lemma SameTimes(a: map<JobId, Time>, b: map<JobId, Time>)
    requires a.Keys == b.Keys && forall j <- a :: a[j] == b[j]
    ensures a == b
  {
    forall j | j in a ensures j in b && a[j] == b[j] {}
  }

  // ------------------------------------------------------------------------ runs

  /** Besides allocation, records move on (never out of a terminal state) and terminal ones are pruned; and
      a runner's callback writes back the copy of a record it read, whatever has become of the record.
      A queued record is retried under the same lock, so the job never sees it half way. */
  datatype Event =
    | Allocate(job: JobId, retry: bool, outcome: Outcome, now: Time)
    | Evolve(records: Records)
    | Note(copy: Allocation)
    | Prune(ids: set<AllocationId>)

  ghost predicate Step(b: Book, e: Event, b': Book) {
    match e
    case Allocate(job, retry, o, now) =>
      job != 0 && Plausible(b.records, job, o) && b' == AfterAllocate(b, job, retry, o, now)
    case Evolve(m) =>
      && b' == b.(records := m) && m.Keys == b.records.Keys
      && forall id <- m :: m[id].origin == b.records[id].origin
                           && (b.records[id].state.Terminal() ==> m[id].state.Terminal())
    case Note(copy) =>
      && b' == b.(records := b.records[copy.id := copy])
      && (copy.id in b.records ==> copy.origin == b.records[copy.id].origin)
    case Prune(ids) =>
      && b' == b.(records := b.records - ids)
      && forall id <- ids :: id in b.records ==> b.records[id].state.Terminal()
  }

  lemma KeptCounts(m: Records, job: JobId, o: Outcome, p: Allocation -> bool)
    requires Plausible(m, job, o)
    ensures Uses(m, p) <= Uses(Kept(m, o), p) <= Uses(m, p) + 1
    ensures o == Rejected(None) ==> Kept(m, o) == m
    ensures o.Granted? ==> Uses(Kept(m, o), p) == Uses(m, p) + if p(o.record) then 1 else 0
    ensures o.Rejected? && o.left.Some? ==> Uses(Kept(m, o), p) == Uses(m, p) + if p(o.left.value) then 1 else 0
  {
    match o
    case Granted(a) => WhereUpdate(m, a.id, a, p);
    case Rejected(left) => if left.Some? { WhereUpdate(m, left.value.id, left.value, p); }
  }

  lemma LiveAreSome(m: Records, job: JobId)
    ensures Uses(m, LiveOf(job)) <= Uses(m, OfJob(job))
  {
    assert Where(m, LiveOf(job)) <= Where(m, OfJob(job));
    SubsetSize(Where(m, LiveOf(job)), Where(m, OfJob(job)));
  }

  /** The copy that is written back is not live for the job, or replaces a live one, or is the only one. */
  ghost predicate KeepsOne(b: Book, e: Event, job: JobId) {
    e.Note? ==> Affords(b.records, LiveOf(job), 1, e.copy.id, e.copy)
  }

  lemma StepKeepsOneLive(b: Book, e: Event, b': Book, job: JobId)
    requires job != 0 && Step(b, e, b') && Uses(b.records, LiveOf(job)) <= 1
    ensures Uses(b'.records, LiveOf(job)) <= 1 <==> KeepsOne(b, e, job)
  {
    match e
    case Allocate(j, retry, o, now) =>
      LiveAreSome(b.records, job);
      KeptCounts(b.records, j, o, LiveOf(job));
      if j != job {
        assert o.Granted? ==> !LiveOf(job)(o.record);
        assert o.Rejected? && o.left.Some? ==> !LiveOf(job)(o.left.value);
      }
    case Evolve(m) =>
      forall id <- Where(m, LiveOf(job)) ensures id in Where(b.records, LiveOf(job)) {
        assert m[id].origin == b.records[id].origin;
      }
      SubsetSize(Where(m, LiveOf(job)), Where(b.records, LiveOf(job)));
    case Note(copy) =>
      WhereUpdate(b.records, copy.id, copy, LiveOf(job));
    case Prune(ids) =>
      SubsetCount(b.records, ids, LiveOf(job));
  }

  /** The step prunes no record of the job, nor writes one back that is gone. */
  ghost predicate Spares(b: Book, e: Event, job: JobId) {
    && (e.Prune? ==> forall id <- e.ids :: id in b.records ==> !Originates(b.records[id], job))
    && (e.Note? ==> e.copy.id in b.records || !Originates(e.copy, job))
  }

  lemma StepKeepsFew(b: Book, e: Event, b': Book, job: JobId)
    requires job != 0 && Step(b, e, b') && Spares(b, e, job) && Uses(b.records, OfJob(job)) <= MAX_ALLOCATIONS
    ensures Uses(b.records, OfJob(job)) <= Uses(b'.records, OfJob(job)) <= MAX_ALLOCATIONS
    ensures !(e.Allocate? && e.job == job && Attempts(b, job, e.retry, e.now)) ==>
              Uses(b'.records, OfJob(job)) == Uses(b.records, OfJob(job))
  {
    match e
    case Allocate(j, retry, o, now) =>
      KeptCounts(b.records, j, o, OfJob(job));
      if j != job {
        assert o.Granted? ==> !OfJob(job)(o.record);
        assert o.Rejected? && o.left.Some? ==> !OfJob(job)(o.left.value);
      }
    case Evolve(m) =>
      forall id ensures id in Where(m, OfJob(job)) <==> id in Where(b.records, OfJob(job)) {
        if id in m { assert m[id].origin == b.records[id].origin; }
      }
      assert Where(m, OfJob(job)) == Where(b.records, OfJob(job));
    case Note(copy) =>
      WhereUpdate(b.records, copy.id, copy, OfJob(job));
    case Prune(ids) =>
      forall id ensures id in Where(b'.records, OfJob(job)) <==> id in Where(b.records, OfJob(job)) {
        if id in b.records { assert id in ids ==> !Originates(b.records[id], job); }
      }
      assert Where(b'.records, OfJob(job)) == Where(b.records, OfJob(job));
  }

  ghost predicate IsRun(bs: seq<Book>, es: seq<Event>) {
    && |bs| == |es| + 1
    && forall i: nat | i < |es| :: Step(bs[i], es[i], bs[i + 1])
  }

  /** However often a job is announced, at most one of its allocations is live throughout a run if and only
      if every copy that a callback writes back is of a live record, or of one that is still closed, or
      comes while none is live. */
  lemma {:induction false} OneLivePerJob(bs: seq<Book>, es: seq<Event>, job: JobId)
    requires job != 0 && IsRun(bs, es) && Uses(bs[0].records, LiveOf(job)) <= 1
    ensures (forall i: nat | i <= |es| :: Uses(bs[i].records, LiveOf(job)) <= 1)
            <==> (forall i: nat | i < |es| :: KeepsOne(bs[i], es[i], job))
  {
    if es != [] {
      var n := |es| - 1;
      var before, acts := bs[..|es|], es[..n];
      OneLivePerJob(before, acts, job);
      assert forall i: nat | i <= n :: before[i] == bs[i];
      assert forall i: nat | i < n :: acts[i] == es[i];
      assert Step(bs[n], es[n], bs[n + 1]);
      if Uses(bs[n].records, LiveOf(job)) <= 1 { StepKeepsOneLive(bs[n], es[n], bs[n + 1], job); }
    }
  }

  /** A record is completed while its runner's callback is under way, the job is allocated anew, and the
      callback writes its copy back: the job has two live allocations. */
  lemma CallbackMakesTwoLive(first: Allocation, second: Allocation, job: JobId, b: Book, b': Book, b'': Book)
    requires job != 0 && first.id != second.id && LiveOf(job)(first) && LiveOf(job)(second)
    requires b == Book(map[first.id := first.(state := Completed)], map[])
    requires b' == AfterAllocate(b, job, true, Granted(second), 0)
    requires b'' == b'.(records := b'.records[first.id := first])
    ensures Attempts(b, job, true, 0) && Step(b, Allocate(job, true, Granted(second), 0), b')
    ensures Step(b', Note(first), b'') && Uses(b''.records, LiveOf(job)) == 2
  {
    assert Where(b.records, OfJob(job)) == {first.id};
    assert Where(b.records, LiveOf(job)) == {};
    assert b'.records == b.records[second.id := second];
    assert Where(b''.records, LiveOf(job)) == {first.id, second.id};
  }

  /** While none of them is pruned a job gets at most five allocations in all. */
  lemma {:induction false} FivePerJob(bs: seq<Book>, es: seq<Event>, job: JobId)
    requires job != 0 && IsRun(bs, es) && Uses(bs[0].records, OfJob(job)) <= MAX_ALLOCATIONS
    requires forall i: nat | i < |es| :: Spares(bs[i], es[i], job)
    ensures Uses(bs[0].records, OfJob(job)) <= Uses(bs[|es|].records, OfJob(job)) <= MAX_ALLOCATIONS
  {
    if es != [] {
      var n := |es| - 1;
      FivePerJob(bs[..|es|], es[..n], job);
      StepKeepsFew(bs[n], es[n], bs[n + 1], job);
    }
  }

  ghost predicate Waits(b: Book, job: JobId, until: Time) {
    Uses(b.records, OfJob(job)) > 0 && job in b.next && b.next[job] == until
  }

  lemma StepKeepsWaiting(b: Book, e: Event, b': Book, job: JobId, until: Time)
    requires job != 0 && Step(b, e, b') && Spares(b, e, job) && Waits(b, job, until)
    requires Uses(b.records, OfJob(job)) <= MAX_ALLOCATIONS && (e.Allocate? ==> e.now < until)
    ensures Waits(b', job, until) && Uses(b'.records, OfJob(job)) == Uses(b.records, OfJob(job))
  {
    StepKeepsFew(b, e, b', job);
  }

  /** A replacement that was granted as the n-th record keeps the job waiting for the n-th delay. */
  lemma {:induction false} ReplacementWaits(bs: seq<Book>, es: seq<Event>, job: JobId, n: nat)
    requires job != 0 && IsRun(bs, es) && es != []
    requires Uses(bs[0].records, OfJob(job)) == n - 1 && 1 < n <= MAX_ALLOCATIONS
    requires es[0].Allocate? && es[0].job == job
    requires es[0].outcome.Granted? && Attempts(bs[0], job, es[0].retry, es[0].now)
    requires forall i: nat | i < |es| :: Spares(bs[i], es[i], job)
    requires forall i: nat | 0 < i < |es| :: es[i].Allocate? ==> es[i].now < es[0].now + Delay(n)
    ensures Waits(bs[|es|], job, es[0].now + Delay(n)) && Uses(bs[|es|].records, OfJob(job)) == n
  {
    var k := |es| - 1;
    if k == 0 {
      assert Step(bs[0], es[0], bs[1]);
      KeptCounts(bs[0].records, job, es[0].outcome, OfJob(job));
    } else {
      ReplacementWaits(bs[..|es|], es[..k], job, n);
      StepKeepsWaiting(bs[k], es[k], bs[k + 1], job, es[0].now + Delay(n));
    }
  }

  /** A replacement that failed sets no delay: the next one may follow at once, exactly when the limit
      on records and the delay set earlier allow it. */
  lemma FailedReplacementDoesNotWait(b: Book, job: JobId, now: Time, left: Allocation, later: Time)
    requires job != 0 && Plausible(b.records, job, Rejected(Some(left))) && left.state.Terminal()
    requires Uses(b.records, OfJob(job)) > 0 && Attempts(b, job, true, now) && now <= later
    ensures var b' := AfterAllocate(b, job, true, Rejected(Some(left)), now);
            && b'.next == b.next
            && (Attempts(b', job, true, later) <==> Uses(b.records, OfJob(job)) + 1 < MAX_ALLOCATIONS)
  {
    KeptCounts(b.records, job, Rejected(Some(left)), OfJob(job));
    KeptCounts(b.records, job, Rejected(Some(left)), LiveOf(job));
  }
}
