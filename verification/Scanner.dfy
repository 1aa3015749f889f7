/** The resumable reconcile scanner: a round-robin walk over repositories and their queued runs
    that is cut off by budgets and deadlines and picked up again by the next cycle. */
module Scanner {
  import opened Basics

  type Repository = string

  const MAX_CUTOFFS := 3

  /** What one pass looks at: the repository list, the repositories that are accepted, and the
      runs each of them lists. A repository missing from lists cannot be listed. */
  datatype Site = Site(repos: seq<Repository>, accepted: set<Repository>, lists: map<Repository, seq<int>>) {
    /** The empty name is never accepted, so it can mean that no repository is open. */
    ghost predicate Valid() { repos != [] && "" !in accepted }
  }

  /** One call to make: list a repository's runs, or process one run. */
  datatype Unit = Listing(repo: Repository) | Run(repo: Repository, id: int)

  datatype Scan = Scan(cursor: nat, repo: Repository, runs: seq<int>, pos: nat, remaining: int, cutoffs: map<Unit, int>)

  /** How a call ends: refused before it starts, cut off by the deadline, or finished. */
  datatype Answer = Refuse | Hang | Finish

  datatype Entry = Refused | Hung(unit: Unit) | Skipped(unit: Unit) | Did(unit: Unit)

  // ------------------------------------------------------------------ the walk

  function Index(site: Site, cursor: nat): (i: nat)
    requires site.Valid()
    ensures i < |site.repos|
  {
    cursor % |site.repos|
  }

  function Next(site: Site, s: Scan): Repository
    requires site.Valid()
  {
    site.repos[Index(site, s.cursor)]
  }

  function Close(s: Scan): Scan { s.(repo := "", runs := [], pos := 0, remaining := s.remaining - 1) }

  function Pass(site: Site, s: Scan): Scan
    requires site.Valid()
  {
    s.(cursor := Index(site, s.cursor) + 1, remaining := s.remaining - 1)
  }

  /** s carried on to the next call it has to make, or to its end: repositories that are done or
      not accepted cost nothing. */
  function Rest(site: Site, s: Scan): (r: Scan)
    requires site.Valid()
    ensures r.repo != "" ==> r.pos < |r.runs|
    ensures r.repo == "" && r.remaining > 0 ==> Next(site, r) in site.accepted
    ensures r.cutoffs == s.cutoffs
    decreases Max(0, s.remaining), s.repo != ""
  {
    if s.repo != "" then
      if s.pos < |s.runs| then s else Rest(site, Close(s))
    else if s.remaining <= 0 || Next(site, s) in site.accepted then s
    else Rest(site, Pass(site, s))
  }

  predicate Finished(site: Site, s: Scan)
    requires site.Valid()
  {
    var r := Rest(site, s);
    r.repo == "" && r.remaining <= 0
  }

  /** The next call. */
  function Current(site: Site, s: Scan): Unit
    requires site.Valid() && !Finished(site, s)
  {
    var r := Rest(site, s);
    if r.repo != "" then Run(r.repo, r.runs[r.pos]) else Listing(Next(site, r))
  }

  function Cutoffs(s: Scan, u: Unit): int { Get(s.cutoffs, u) }

  /** e is one of the ways the next call can end. */
  predicate Legal(site: Site, s: Scan, e: Entry)
    requires site.Valid()
  {
    && !Finished(site, s)
    && match e
       case Refused => true
       case Hung(u) => u == Current(site, s) && Cutoffs(s, u) + 1 < MAX_CUTOFFS
       case Skipped(u) => u == Current(site, s) && Cutoffs(s, u) + 1 >= MAX_CUTOFFS
       case Did(u) => u == Current(site, s)
  }

  /** The scanner after the next call ended as e. */
  function Apply(site: Site, s: Scan, e: Entry): Scan
    requires site.Valid()
  {
    var r := Rest(site, s);
    match e
    case Refused => r
    case Hung(u) => r.(cutoffs := r.cutoffs[u := Cutoffs(r, u) + 1])
    case Skipped(u) =>
      var t := r.(cutoffs := r.cutoffs - {u});
      if u.Run? then t.(pos := r.pos + 1) else Pass(site, t)
    case Did(u) =>
      var t := r.(cutoffs := r.cutoffs - {u});
      if u.Run? then t.(pos := r.pos + 1)
      else if u.repo in site.lists
      then t.(cursor := Index(site, r.cursor) + 1, repo := u.repo, runs := site.lists[u.repo], pos := 0)
      else Pass(site, t)
  }

  function Follow(site: Site, s: Scan, trace: seq<Entry>): Scan
    requires site.Valid()
  {
    if trace == [] then s else Apply(site, Follow(site, s, trace[..|trace| - 1]), trace[|trace| - 1])
  }

  ghost predicate IsTrace(site: Site, s: Scan, trace: seq<Entry>)
    requires site.Valid()
  {
    forall i: nat | i < |trace| :: Legal(site, Follow(site, s, trace[..i]), trace[i])
  }

  predicate Ends(e: Entry, a: Answer) {
    match a
    case Refuse => e.Refused?
    case Hang => e.Hung? || e.Skipped?
    case Finish => e.Did?
  }

  /** One cycle from s to s': calls in order until one is refused or cut off, or none is left. */
  ghost predicate IsCycle(site: Site, s: Scan, trace: seq<Entry>, s': Scan)
    requires site.Valid()
  {
    && IsTrace(site, s, trace)
    && (forall i: nat | i + 1 < |trace| :: trace[i].Did?)
    && var after := Follow(site, s, trace);
       if trace != [] && !trace[|trace| - 1].Did? then s' == after
       else s' == Rest(site, after) && Finished(site, after)
  }

  lemma RestIsFixed(site: Site, s: Scan)
    requires site.Valid()
    ensures Rest(site, Rest(site, s)) == Rest(site, s)
  {
  }

  /** What every turn of the scan makes smaller: opening a repository, closing one, passing one by. */
  function Measure(remaining: int, open: bool): nat {
    if remaining <= 0 then (if open then 1 else 0) else 2 * remaining + (if open then 0 else 1)
  }

  class RepoScanner {
    var cursor: nat
    var repo: Repository
    var runs: seq<int>
    var pos: nat
    var remaining: int
    var cutoffs: map<Unit, int>

    ghost function View(): Scan
      reads this
    {
      Scan(cursor, repo, runs, pos, remaining, cutoffs)
    }

    constructor ()
      ensures View() == Scan(0, "", [], 0, 0, map[])
    {
      cursor, repo, runs, pos, remaining, cutoffs := 0, "", [], 0, 0, map[];
    }

    /** Starts a pass over the whole list from wherever the cursor stands. */
    method Reopen(site: Site)
      modifies this
      ensures View() == old(View()).(repo := "", runs := [], pos := 0, remaining := |site.repos|)
    {
      repo, runs, pos := "", [], 0;
      remaining := |site.repos|;
    }

    /** Notes a deadline cutoff; after the third in a row the unit is to be skipped. */
    method Cutoff(u: Unit) returns (skip: bool)
      modifies `cutoffs
      ensures skip == (Get(old(cutoffs), u) + 1 >= MAX_CUTOFFS)
      ensures cutoffs == if skip then old(cutoffs) - {u} else old(cutoffs)[u := Get(old(cutoffs), u) + 1]
    {
      ghost var before := cutoffs;
      cutoffs := cutoffs[u := Get(cutoffs, u) + 1];
      if cutoffs[u] < MAX_CUTOFFS { return false; }
      cutoffs := cutoffs - {u};
      assert cutoffs == before - {u};
      return true;
    }

    /** Lists the next repository, an accepted one. */
    method ListOne(site: Site, answer: Answer) returns (e: Entry)
      requires site.Valid() && repo == "" && remaining > 0 && Next(site, View()) in site.accepted
      modifies this
      ensures Legal(site, old(View()), e) && Ends(e, answer)
      ensures View() == Apply(site, old(View()), e)
      ensures e.Did? ==> remaining == old(remaining) - if repo == "" then 1 else 0
    {
      var idx := cursor % |site.repos|;
      var repository := site.repos[idx];
      var u := Listing(repository);
      if answer == Refuse { return Refused; }
      if answer == Hang {
        var skip := Cutoff(u);
        if skip {
          cursor := idx + 1;
          remaining := remaining - 1;
          return Skipped(u);
        }
        return Hung(u);
      }
      cutoffs := cutoffs - {u};
      cursor := idx + 1;
      if repository !in site.lists {
        remaining := remaining - 1;
      } else {
        repo, runs, pos := repository, site.lists[repository], 0;
      }
      return Did(u);
    }

    /** Processes the next run of the open repository. */
    method RunOne(site: Site, answer: Answer) returns (e: Entry)
      requires site.Valid() && repo != "" && pos < |runs|
      modifies `pos, `cutoffs
      ensures Legal(site, old(View()), e) && Ends(e, answer)
      ensures View() == Apply(site, old(View()), e)
      ensures e.Did? ==> pos == old(pos) + 1
    {
      if answer == Refuse { return Refused; }
      var u := Run(repo, runs[pos]);
      if answer == Hang {
        var skip := Cutoff(u);
        if skip {
          pos := pos + 1;
          return Skipped(u);
        }
        return Hung(u);
      }
      cutoffs := cutoffs - {u};
      pos := pos + 1;
      return Did(u);
    }

    method CloseRepo()
      modifies `repo, `runs, `pos, `remaining
      ensures View() == Close(old(View()))
    {
      repo, runs, pos := "", [], 0;
      remaining := remaining - 1;
    }

    method PassRepo(site: Site)
      requires site.Valid()
      modifies `cursor, `remaining
      ensures View() == Pass(site, old(View()))
    {
      cursor := cursor % |site.repos| + 1;
      remaining := remaining - 1;
    }

    /** Makes calls until the pass is over or one does not finish. answers tells how the k-th
        call ends; only a call that finished moves the scanner on. */
    method ScanRepos(site: Site, answers: nat -> Answer) returns (trace: seq<Entry>)
      requires site.Valid()
      modifies this
      ensures IsCycle(site, old(View()), trace, View())
      ensures Answered(trace, answers)
    {
      ghost var start := View();
      trace := [];
      TracksStart(site, start, answers);
      var stopped := false;
      while remaining > 0 || repo != ""
        invariant Tracks(site, start, trace, View(), answers)
        decreases Measure(remaining, repo != "")
      {
        if repo == "" {
          trace, stopped := OpenNext(site, answers, start, trace);
          if stopped { return; }
          continue;
        }
        trace, stopped := ScanRuns(site, answers, start, trace);
        if stopped { return; }
        TracksClose(site, start, trace, View(), answers);
        CloseRepo();
      }
      TracksEnd(site, start, trace, View(), answers);
    }

    /** Opens the repository the cursor points at, or passes it by. */
    method OpenNext(site: Site, answers: nat -> Answer, ghost start: Scan, done: seq<Entry>)
      returns (trace: seq<Entry>, stopped: bool)
      requires site.Valid() && repo == "" && remaining > 0 && Tracks(site, start, done, View(), answers)
      modifies this
      ensures stopped ==> IsCycle(site, start, trace, View()) && Answered(trace, answers)
      ensures !stopped ==> Tracks(site, start, trace, View(), answers)
      ensures !stopped ==> (if repo == "" then remaining == old(remaining) - 1 else remaining == old(remaining))
    {
      ghost var before := View();
      var idx := cursor % |site.repos|;
      if site.repos[idx] !in site.accepted {
        TracksPass(site, start, done, before, answers);
        PassRepo(site);
        return done, false;
      }
      var e := ListOne(site, answers(|done|));
      TraceGrows(site, start, done, before, e, answers);
      return done + [e], !e.Did?;
    }

    /** The runs of the open repository. */
    method ScanRuns(site: Site, answers: nat -> Answer, ghost start: Scan, done: seq<Entry>)
      returns (trace: seq<Entry>, stopped: bool)
      requires site.Valid() && repo != "" && Tracks(site, start, done, View(), answers)
      modifies `pos, `cutoffs
      ensures stopped ==> IsCycle(site, start, trace, View()) && Answered(trace, answers)
      ensures !stopped ==> Tracks(site, start, trace, View(), answers) && pos >= |runs|
    {
      trace := done;
      while pos < |runs|
        invariant Tracks(site, start, trace, View(), answers)
      {
        ghost var before := View();
        var e := RunOne(site, answers(|trace|));
        TraceGrows(site, start, trace, before, e, answers);
        trace := trace + [e];
        if !e.Did? { return trace, true; }
      }
      stopped := false;
    }
  }

  ghost predicate Answered(trace: seq<Entry>, answers: nat -> Answer) {
    forall i: nat | i < |trace| :: Ends(trace[i], answers(i))
  }

  /** Mid-cycle: every call so far finished, and s is where they led, but for repositories
      that cost nothing. */
  ghost predicate Tracks(site: Site, start: Scan, trace: seq<Entry>, s: Scan, answers: nat -> Answer)
    requires site.Valid()
  {
    && IsTrace(site, start, trace) && Answered(trace, answers)
    && (forall i: nat | i < |trace| :: trace[i].Did?)
    && Rest(site, s) == Rest(site, Follow(site, start, trace))
  }

  lemma TracksPass(site: Site, start: Scan, trace: seq<Entry>, s: Scan, answers: nat -> Answer)
    requires site.Valid() && s.repo == "" && s.remaining > 0 && Next(site, s) !in site.accepted
    requires Tracks(site, start, trace, s, answers)
    ensures Tracks(site, start, trace, Pass(site, s), answers)
  {
  }

  lemma TracksClose(site: Site, start: Scan, trace: seq<Entry>, s: Scan, answers: nat -> Answer)
    requires site.Valid() && s.repo != "" && s.pos >= |s.runs|
    requires Tracks(site, start, trace, s, answers)
    ensures Tracks(site, start, trace, Close(s), answers)
  {
  }

  lemma TracksEnd(site: Site, start: Scan, trace: seq<Entry>, s: Scan, answers: nat -> Answer)
    requires site.Valid() && s.repo == "" && s.remaining <= 0
    requires Tracks(site, start, trace, s, answers)
    ensures IsCycle(site, start, trace, s)
  {
  }

  lemma TracksStart(site: Site, s: Scan, answers: nat -> Answer)
    requires site.Valid()
    ensures Tracks(site, s, [], s, answers)
  {
  }

  /** A call made from s extends the trace; unless it finished, it ends the cycle. */
  lemma TraceGrows(site: Site, start: Scan, trace: seq<Entry>, s: Scan, e: Entry, answers: nat -> Answer)
    requires site.Valid() && Tracks(site, start, trace, s, answers)
    requires Rest(site, s) == s && Legal(site, s, e) && Ends(e, answers(|trace|))
    ensures Answered(trace + [e], answers)
    ensures if e.Did? then Tracks(site, start, trace + [e], Apply(site, s, e), answers)
            else IsCycle(site, start, trace + [e], Apply(site, s, e))
  {
    assert (trace + [e])[..|trace|] == trace;
    SameRest(site, Follow(site, start, trace), s, e);
    Extend(site, start, trace, e);
  }

  lemma SameRest(site: Site, a: Scan, b: Scan, e: Entry)
    requires site.Valid() && Rest(site, a) == Rest(site, b) && Legal(site, b, e)
    ensures Legal(site, a, e) && Apply(site, a, e) == Apply(site, b, e)
  {
    assert a.cutoffs == Rest(site, a).cutoffs == Rest(site, b).cutoffs == b.cutoffs;
  }

  lemma Extend(site: Site, s: Scan, trace: seq<Entry>, e: Entry)
    requires site.Valid() && IsTrace(site, s, trace) && Legal(site, Follow(site, s, trace), e)
    ensures IsTrace(site, s, trace + [e])
    ensures Follow(site, s, trace + [e]) == Apply(site, Follow(site, s, trace), e)
  {
    var t := trace + [e];
    assert t[..|trace|] == trace;
    forall i: nat | i < |t| ensures Legal(site, Follow(site, s, t[..i]), t[i]) {
      if i < |trace| { assert t[..i] == trace[..i]; }
    }
  }
}
