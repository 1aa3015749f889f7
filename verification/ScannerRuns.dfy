/** What a reconcile pass achieves over many interrupted cycles: everything is looked at once,
    in ring order; a call is given up only after three cutoffs in a row; every pass closes. */
module ScannerRuns {
  import opened Basics
  import opened Scanner

  // ------------------------------------------------------------ what is to be done

  function Runs(r: Repository, ids: seq<int>): seq<Unit> {
    if ids == [] then [] else [Run(r, ids[0])] + Runs(r, ids[1..])
  }

  /** All calls one repository needs. */
  function UnitsOf(site: Site, r: Repository): seq<Unit> {
    if r !in site.accepted then []
    else [Listing(r)] + (if r in site.lists then Runs(r, site.lists[r]) else [])
  }

  /** The calls of k repositories from cursor on, around the ring. */
  function Units(site: Site, cursor: nat, k: int): seq<Unit>
    requires site.Valid()
    decreases Max(0, k)
  {
    if k <= 0 then []
    else UnitsOf(site, site.repos[Index(site, cursor)]) + Units(site, Index(site, cursor) + 1, k - 1)
  }

  /** The calls still to be made in this pass. */
  function Todo(site: Site, s: Scan): seq<Unit>
    requires site.Valid()
  {
    if s.repo == "" then Units(site, s.cursor, s.remaining)
    else if s.pos >= |s.runs| then Units(site, s.cursor, s.remaining - 1)
    else Runs(s.repo, s.runs[s.pos..]) + Units(site, s.cursor, s.remaining - 1)
  }

  /** The calls an entry settles. Giving up on a listing gives up on the repository's runs. */
  function Settles(site: Site, e: Entry): seq<Unit> {
    match e
    case Did(u) => [u]
    case Skipped(u) => if u.Listing? then UnitsOf(site, u.repo) else [u]
    case _ => []
  }

  function Settled(site: Site, trace: seq<Entry>): seq<Unit> {
    if trace == [] then [] else Settled(site, trace[..|trace| - 1]) + Settles(site, trace[|trace| - 1])
  }

  lemma {:induction false} TodoRest(site: Site, s: Scan)
    requires site.Valid()
    ensures Todo(site, Rest(site, s)) == Todo(site, s)
    decreases Max(0, s.remaining), s.repo != ""
  {
    if s.repo != "" {
      if s.pos >= |s.runs| { TodoRest(site, Close(s)); }
    } else if s.remaining > 0 && Next(site, s) !in site.accepted {
      TodoRest(site, Pass(site, s));
      assert UnitsOf(site, Next(site, s)) == [];
    }
  }

  lemma TodoWhenFinished(site: Site, s: Scan)
    requires site.Valid()
    ensures Finished(site, s) <==> Todo(site, s) == []
    ensures !Finished(site, s) ==> Todo(site, s)[0] == Current(site, s)
  {
    TodoRest(site, s);
    var r := Rest(site, s);
    if r.repo != "" {
      assert r.runs[r.pos..][0] == r.runs[r.pos];
    }
  }

  lemma RunSettles(site: Site, r: Scan, t: Scan)
    requires site.Valid() && r.repo != "" && r.pos < |r.runs|
    requires t == r.(pos := r.pos + 1, cutoffs := t.cutoffs)
    ensures Todo(site, r) == [Run(r.repo, r.runs[r.pos])] + Todo(site, t)
  {
    assert r.runs[r.pos..][1..] == r.runs[t.pos..];
    assert r.runs[r.pos..][0] == r.runs[r.pos];
    assert Runs(r.repo, r.runs[r.pos..]) == [Run(r.repo, r.runs[r.pos])] + Runs(r.repo, r.runs[t.pos..]);
    if t.pos == |r.runs| { assert r.runs[t.pos..] == []; }
  }

  lemma OpeningSettles(site: Site, r: Scan, t: Scan)
    requires site.Valid() && r.repo == "" && r.remaining > 0
    requires Next(site, r) in site.accepted && Next(site, r) in site.lists
    requires t == r.(cursor := Index(site, r.cursor) + 1, repo := Next(site, r), runs := site.lists[Next(site, r)],
                     pos := 0, cutoffs := t.cutoffs)
    ensures Todo(site, r) == [Listing(Next(site, r))] + Todo(site, t)
  {
    var repo := Next(site, r);
    assert repo != "";
    assert t.runs[0..] == t.runs;
    if t.runs == [] { assert Runs(repo, t.runs) == []; }
  }

  lemma PassingSettles(site: Site, r: Scan, t: Scan)
    requires site.Valid() && r.repo == "" && r.remaining > 0 && t == Pass(site, r).(cutoffs := t.cutoffs)
    ensures Todo(site, r) == UnitsOf(site, Next(site, r)) + Todo(site, t)
  {
  }

  lemma ListingSettles(site: Site, r: Scan, e: Entry)
    requires site.Valid() && Rest(site, r) == r && Legal(site, r, e) && r.repo == "" && (e.Did? || e.Skipped?)
    ensures Todo(site, r) == Settles(site, e) + Todo(site, Apply(site, r, e))
  {
    var repo := Next(site, r);
    assert e.unit == Listing(repo) && repo in site.accepted;
    if e.Did? && repo in site.lists {
      OpeningSettles(site, r, Apply(site, r, e));
    } else {
      PassingSettles(site, r, Apply(site, r, e));
    }
  }

  /** A call settles the front of what is to be done, and nothing else. */
  lemma StepSettles(site: Site, s: Scan, e: Entry)
    requires site.Valid() && Legal(site, s, e)
    ensures Todo(site, s) == Settles(site, e) + Todo(site, Apply(site, s, e))
  {
    TodoRest(site, s);
    RestIsFixed(site, s);
    var r := Rest(site, s);
    SameRest(site, r, s, e);
    if e.Did? || e.Skipped? {
      if r.repo != "" {
        RunSettles(site, r, Apply(site, s, e));
      } else {
        ListingSettles(site, r, e);
      }
    }
  }

  lemma {:induction false} TraceSettles(site: Site, s: Scan, trace: seq<Entry>)
    requires site.Valid() && IsTrace(site, s, trace)
    ensures Todo(site, s) == Settled(site, trace) + Todo(site, Follow(site, s, trace))
  {
    if trace != [] {
      var n := |trace| - 1;
      PrefixIsTrace(site, s, trace, n);
      TraceSettles(site, s, trace[..n]);
      StepSettles(site, Follow(site, s, trace[..n]), trace[n]);
    }
  }

  lemma PrefixIsTrace(site: Site, s: Scan, trace: seq<Entry>, n: nat)
    requires site.Valid() && IsTrace(site, s, trace) && n <= |trace|
    ensures IsTrace(site, s, trace[..n])
  {
    forall i: nat | i < n ensures Legal(site, Follow(site, s, trace[..n][..i]), trace[..n][i]) {
      assert trace[..n][..i] == trace[..i];
    }
  }

  // --------------------------------------------------------------------- a pass

  /** Consecutive cycles of one pass, each starting where the one before it stopped. */
  ghost predicate IsPass(site: Site, ss: seq<Scan>, traces: seq<seq<Entry>>)
    requires site.Valid()
  {
    && |ss| == |traces| + 1
    && forall i: nat | i < |traces| :: IsCycle(site, ss[i], traces[i], ss[i + 1])
  }

  function Joined(traces: seq<seq<Entry>>): seq<Entry> {
    if traces == [] then [] else Joined(traces[..|traces| - 1]) + traces[|traces| - 1]
  }

  lemma {:induction false} JoinTraces(site: Site, s: Scan, t: seq<Entry>, m: Scan, u: seq<Entry>)
    requires site.Valid() && IsTrace(site, s, t) && IsTrace(site, m, u)
    requires Rest(site, m) == Rest(site, Follow(site, s, t))
    ensures IsTrace(site, s, t + u)
    ensures Rest(site, Follow(site, s, t + u)) == Rest(site, Follow(site, m, u))
  {
    if u == [] {
      assert t + u == t;
    } else {
      var n := |u| - 1;
      PrefixIsTrace(site, m, u, n);
      JoinTraces(site, s, t, m, u[..n]);
      assert t + u == (t + u[..n]) + [u[n]];
      assert Legal(site, Follow(site, m, u[..n]), u[n]);
      JoinOneMore(site, s, t + u[..n], Follow(site, m, u[..n]), u[n]);
    }
  }

  lemma JoinOneMore(site: Site, s: Scan, t: seq<Entry>, b: Scan, e: Entry)
    requires site.Valid() && IsTrace(site, s, t) && Rest(site, Follow(site, s, t)) == Rest(site, b) && Legal(site, b, e)
    ensures IsTrace(site, s, t + [e]) && Follow(site, s, t + [e]) == Apply(site, b, e)
  {
    SameRest(site, Follow(site, s, t), b, e);
    Extend(site, s, t, e);
  }

  /** Interrupting a scan and resuming it makes the same calls as not interrupting it. */
  lemma {:induction false} PassIsOneTrace(site: Site, ss: seq<Scan>, traces: seq<seq<Entry>>)
    requires site.Valid() && IsPass(site, ss, traces)
    ensures IsTrace(site, ss[0], Joined(traces))
    ensures Rest(site, Follow(site, ss[0], Joined(traces))) == Rest(site, ss[|traces|])
  {
    if traces != [] {
      var n := |traces| - 1;
      PassIsOneTrace(site, ss[..|traces|], traces[..n]);
      assert IsCycle(site, ss[n], traces[n], ss[n + 1]);
      JoinTraces(site, ss[0], Joined(traces[..n]), ss[n], traces[n]);
      RestIsFixed(site, Follow(site, ss[n], traces[n]));
    }
  }

  /** However a pass over the whole list is cut into cycles, by the time it is over it has settled
      every call of every accepted repository exactly once, in ring order. */
  lemma PassCoversTheRing(site: Site, ss: seq<Scan>, traces: seq<seq<Entry>>)
    requires site.Valid() && IsPass(site, ss, traces)
    requires ss[0].repo == "" && ss[0].remaining == |site.repos| && Finished(site, ss[|traces|])
    ensures Settled(site, Joined(traces)) == Units(site, ss[0].cursor, |site.repos|)
  {
    PassIsOneTrace(site, ss, traces);
    var all := Joined(traces);
    TraceSettles(site, ss[0], all);
    TodoRest(site, Follow(site, ss[0], all));
    TodoRest(site, ss[|traces|]);
    TodoWhenFinished(site, ss[|traces|]);
  }

  function Calls(trace: seq<Entry>): seq<Unit> {
    if trace == [] then []
    else Calls(trace[..|trace| - 1]) + (if trace[|trace| - 1].Did? then [trace[|trace| - 1].unit] else [])
  }

  lemma {:induction false} CallsAreSettled(site: Site, trace: seq<Entry>)
    requires forall e <- trace :: !e.Skipped?
    ensures Settled(site, trace) == Calls(trace)
  {
    if trace != [] {
      assert trace[|trace| - 1] in trace;
      CallsAreSettled(site, trace[..|trace| - 1]);
    }
  }

  /** Resumption refines an uninterrupted scan: unless something was given up, the calls finished
      over all cycles of a pass are those that one uninterrupted scan makes, in the same order. */
  lemma InterruptedEqualsUninterrupted(site: Site, ss: seq<Scan>, traces: seq<seq<Entry>>,
                                       whole: seq<Entry>, end: Scan)
    requires site.Valid() && IsPass(site, ss, traces)
    requires ss[0].repo == "" && ss[0].remaining == |site.repos| && Finished(site, ss[|traces|])
    requires forall e <- Joined(traces) :: !e.Skipped?
    requires IsCycle(site, ss[0], whole, end) && forall e <- whole :: e.Did?
    ensures Calls(Joined(traces)) == Calls(whole)
  {
    PassCoversTheRing(site, ss, traces);
    CallsAreSettled(site, Joined(traces));
    TraceSettles(site, ss[0], whole);
    TodoRest(site, Follow(site, ss[0], whole));
    assert whole != [] ==> whole[|whole| - 1] in whole;
    TodoWhenFinished(site, Follow(site, ss[0], whole));
    CallsAreSettled(site, whole);
  }

  /** The ring positions k repositories from cursor on. */
  function Visits(site: Site, cursor: nat, k: nat): seq<nat>
    requires site.Valid()
    decreases k
  {
    if k == 0 then [] else [Index(site, cursor)] + Visits(site, Index(site, cursor) + 1, k - 1)
  }

  lemma IndexInRange(site: Site, c: nat)
    requires site.Valid() && c <= |site.repos|
    ensures Index(site, c) == if c == |site.repos| then 0 else c
  {
  }

  lemma {:induction false} VisitsAt(site: Site, cursor: nat, k: nat, i: nat)
    requires site.Valid() && i < k <= |site.repos|
    ensures |Visits(site, cursor, k)| == k
    ensures var a, n := Index(site, cursor), |site.repos|;
            Visits(site, cursor, k)[i] == if a + i < n then a + i else a + i - n
    decreases k
  {
    var a := Index(site, cursor);
    IndexInRange(site, a + 1);
    if k > 1 {
      VisitsAt(site, a + 1, k - 1, if i > 0 then i - 1 else 0);
    }
  }

  /** A pass over the whole list visits each position exactly once, wherever it starts. */
  lemma EachRepositoryOnce(site: Site, cursor: nat, j: nat)
    requires site.Valid() && j < |site.repos|
    ensures |Visits(site, cursor, |site.repos|)| == |site.repos|
    ensures exists i: nat :: i < |site.repos| && Visits(site, cursor, |site.repos|)[i] == j
    ensures forall i: nat, k: nat | i < k < |site.repos| ::
              Visits(site, cursor, |site.repos|)[i] != Visits(site, cursor, |site.repos|)[k]
  {
    var n, a, v := |site.repos|, Index(site, cursor), Visits(site, cursor, |site.repos|);
    VisitsAt(site, cursor, n, 0);
    var i := if j >= a then j - a else j + n - a;
    VisitsAt(site, cursor, n, i);
    assert v[i] == j;
    forall i: nat, k: nat | i < k < n ensures v[i] != v[k] {
      VisitsAt(site, cursor, n, i);
      VisitsAt(site, cursor, n, k);
    }
  }

  // -------------------------------------------------------------------- giving up

  /** The cutoffs of u at the end of the trace with no other call in between. */
  function Streak(trace: seq<Entry>, u: Unit): nat {
    if trace == [] then 0
    else
      var e, before := trace[|trace| - 1], trace[..|trace| - 1];
      if e.Refused? then Streak(before, u) else if e == Hung(u) then Streak(before, u) + 1 else 0
  }

  /** Cutoffs are noted for the next call only, and for less than three of them. */
  ghost predicate Tidy(site: Site, s: Scan)
    requires site.Valid()
  {
    && (forall u <- s.cutoffs :: !Finished(site, s) && u == Current(site, s))
    && forall u <- s.cutoffs :: 0 < s.cutoffs[u] < MAX_CUTOFFS
  }

  lemma StepKeepsTidy(site: Site, s: Scan, e: Entry)
    requires site.Valid() && Tidy(site, s) && Legal(site, s, e)
    ensures Tidy(site, Apply(site, s, e))
    ensures e.Did? || e.Skipped? ==> Apply(site, s, e).cutoffs == map[]
    ensures e.Refused? || e.Hung? ==>
              Rest(site, Apply(site, s, e)).(cutoffs := map[]) == Rest(site, s).(cutoffs := map[])
  {
    var r := Rest(site, s);
    RestIsFixed(site, s);
    assert r.cutoffs == s.cutoffs;
    if e.Hung? {
      var t := Apply(site, s, e);
      assert Rest(site, t) == t;
      assert Current(site, t) == Current(site, s);
    } else if !e.Refused? {
      assert r.cutoffs - {e.unit} == map[];
    }
  }

  /** From a scanner with nothing noted, the count for the next call is its streak. */
  lemma {:induction false} CountsAreStreaks(site: Site, s: Scan, trace: seq<Entry>)
    requires site.Valid() && s.cutoffs == map[] && IsTrace(site, s, trace)
    ensures var t := Follow(site, s, trace);
            Tidy(site, t) && (!Finished(site, t) ==> Cutoffs(t, Current(site, t)) == Streak(trace, Current(site, t)))
  {
    if trace != [] {
      var n := |trace| - 1;
      PrefixIsTrace(site, s, trace, n);
      CountsAreStreaks(site, s, trace[..n]);
      var b := Follow(site, s, trace[..n]);
      StepKeepsTidy(site, b, trace[n]);
      if trace[n].Refused? { RestIsFixed(site, b); }
    }
  }

  /** A call is given up exactly at its third cutoff in a row, refusals aside. */
  lemma SkipsAreEarned(site: Site, s: Scan, trace: seq<Entry>, i: nat, u: Unit)
    requires site.Valid() && s.cutoffs == map[] && IsTrace(site, s, trace) && i < |trace|
    ensures trace[i] == Skipped(u) ==> Streak(trace[..i], u) == MAX_CUTOFFS - 1
    ensures trace[i] == Hung(u) ==> Streak(trace[..i], u) < MAX_CUTOFFS - 1
  {
    PrefixIsTrace(site, s, trace, i);
    CountsAreStreaks(site, s, trace[..i]);
    assert Legal(site, Follow(site, s, trace[..i]), trace[i]);
    assert Tidy(site, Follow(site, s, trace[..i]));
  }

  // --------------------------------------------------------------------- progress

  /** How many calls can still be cut off or finished before the pass is over. */
  function Weight(site: Site, s: Scan): int
    requires site.Valid()
  {
    MAX_CUTOFFS * |Todo(site, s)| - (if Finished(site, s) then 0 else Cutoffs(s, Current(site, s)))
  }

  lemma WeightIsPositive(site: Site, s: Scan)
    requires site.Valid() && Tidy(site, s)
    ensures Weight(site, s) >= 0
    ensures Weight(site, s) == 0 <==> Finished(site, s)
  {
    TodoWhenFinished(site, s);
  }

  lemma StepLightens(site: Site, s: Scan, e: Entry)
    requires site.Valid() && Tidy(site, s) && Legal(site, s, e)
    ensures e.Refused? ==> Weight(site, Apply(site, s, e)) == Weight(site, s)
    ensures !e.Refused? ==> Weight(site, Apply(site, s, e)) < Weight(site, s)
  {
    var t := Apply(site, s, e);
    StepSettles(site, s, e);
    StepKeepsTidy(site, s, e);
    RestIsFixed(site, s);
  }

  lemma {:induction false} TraceLightens(site: Site, s: Scan, trace: seq<Entry>)
    requires site.Valid() && Tidy(site, s) && IsTrace(site, s, trace)
    ensures Tidy(site, Follow(site, s, trace))
    ensures Weight(site, Follow(site, s, trace)) <= Weight(site, s) - (if Productive(trace) then 1 else 0)
  {
    if trace != [] {
      var n := |trace| - 1;
      PrefixIsTrace(site, s, trace, n);
      TraceLightens(site, s, trace[..n]);
      var b := Follow(site, s, trace[..n]);
      StepKeepsTidy(site, b, trace[n]);
      StepLightens(site, b, trace[n]);
    }
  }

  /** The cycle got to make a call at all. */
  predicate Productive(trace: seq<Entry>) { trace != [] && !trace[0].Refused? }

  lemma RestKeeps(site: Site, s: Scan)
    requires site.Valid()
    ensures Weight(site, Rest(site, s)) == Weight(site, s)
    ensures Tidy(site, Rest(site, s)) <==> Tidy(site, s)
  {
    TodoRest(site, s);
    RestIsFixed(site, s);
  }

  ghost function Busy(): seq<Entry> -> bool { (t: seq<Entry>) => Productive(t) }

  /** Whatever hangs, a pass of n calls closes: it has at most 3n cycles that get to make a call. */
  lemma {:induction false} PassCloses(site: Site, ss: seq<Scan>, traces: seq<seq<Entry>>)
    requires site.Valid() && IsPass(site, ss, traces) && Tidy(site, ss[0])
    ensures Tidy(site, ss[|traces|])
    ensures Count(traces, Busy()) + Weight(site, ss[|traces|]) <= MAX_CUTOFFS * |Todo(site, ss[0])|
    ensures Count(traces, Busy()) <= MAX_CUTOFFS * |Todo(site, ss[0])|
    ensures Count(traces, Busy()) == MAX_CUTOFFS * |Todo(site, ss[0])| ==> Finished(site, ss[|traces|])
  {
    if traces != [] {
      var n := |traces| - 1;
      PassCloses(site, ss[..|traces|], traces[..n]);
      assert IsCycle(site, ss[n], traces[n], ss[n + 1]);
      TraceLightens(site, ss[n], traces[n]);
      RestKeeps(site, Follow(site, ss[n], traces[n]));
    }
    WeightIsPositive(site, ss[|traces|]);
  }
}
