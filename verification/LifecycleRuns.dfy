/** What holds over every run of the lifecycle. */
module LifecycleRuns {
  import opened Basics
  import opened Model
  import opened Lifecycle
  import opened LifecycleBooks
  import opened LifecycleCustody
  import opened LifecycleOwnership

  ghost predicate IsRun(ws: seq<World>, ss: seq<Step>) {
    && |ws| == |ss| + 1
    && ws[0] == EMPTY_WORLD
    && forall i | 0 <= i < |ss| :: Enabled(ws[i], ss[i]) && Careful(ws[i], ss[i]) && ws[i + 1] == Next(ws[i], ss[i])
  }

  /** Over every interleaving of careful steps, slots are neither leaked nor freed
      twice and no provisioned runner is lost sight of. */
  lemma {:induction false} RunsKeepInvariant(ws: seq<World>, ss: seq<Step>, n: nat)
    requires IsRun(ws, ss) && n <= |ss|
    ensures Inv(ws[n])
  {
    if n == 0 {
      forall p: Place ensures BooksAt(EMPTY_WORLD, p) {
        assert Counted(EMPTY_WORLD, p) == {} && Holders(EMPTY_WORLD, p) == {};
      }
    } else {
      RunsKeepInvariant(ws, ss, n - 1);
      StepKeepsBooks(ws[n - 1], ss[n - 1]);
      StepKeepsCustody(ws[n - 1], ss[n - 1]);
      StepKeepsOwnership(ws[n - 1], ss[n - 1]);
    }
  }

  /** Once no call is in flight, the scheduler counts exactly the accounted records, and
      every runner ever provisioned is the label of a live record or has been cleaned up. */
  lemma QuiescentIsExact(ws: seq<World>, ss: seq<Step>, n: nat, p: Place, r: Runner)
    requires IsRun(ws, ss) && n <= |ss| && ws[n].calls == map[] && p.backend != NO_BACKEND && r in ws[n].born
    ensures Get(ws[n].sched, p) == |set id | id in ws[n].store && InUseAt(ws[n].store[id], p)|
    ensures r in ws[n].cleaned || exists id :: id in ws[n].store && Serves(ws[n].store[id], r)
  {
    var w := ws[n];
    RunsKeepInvariant(ws, ss, n);
    assert BooksAt(w, p) && Holders(w, p) == {};
    assert Counted(w, p) == set id | id in w.store && InUseAt(w.store[id], p);
    assert Safe(w, r);
  }

  /** In a careful run every release finds the slot it gives back, so one release
      never eats another allocation's slot. */
  lemma NoDoubleFree(ws: seq<World>, ss: seq<Step>, n: nat)
    requires IsRun(ws, ss) && n < |ss| && ss[n].Release? && ws[n].calls[ss[n].c].place.backend != NO_BACKEND
    ensures Get(ws[n].sched, ws[n].calls[ss[n].c].place) > 0
  {
    RunsKeepInvariant(ws, ss, n);
    ReleaseFindsSlot(ws[n], ss[n].c);
  }

  /** Nor does a handoff. */
  lemma NoDoubleHandoff(ws: seq<World>, ss: seq<Step>, n: nat)
    requires IsRun(ws, ss) && n < |ss| && ss[n].HandRelease?
    ensures Get(ws[n].sched, ws[n].calls[ss[n].c].claimed.place) > 0
  {
    RunsKeepInvariant(ws, ss, n);
    WarmSlotIsCounted(ws[n], ss[n].c);
  }

  // ------------------------------------------------------------------- resurrection

  /** The call may write back a copy in which the record was not closed. */
  predicate Recalls(call: Call, id: AllocationId) { Notes(call, id) && !call.snap.state.Terminal() }

  /** A closed record, or none, that no call works on, is about to take over, or remembers open. */
  ghost predicate AtRest(w: World, id: AllocationId) {
    && (forall c | At(w, c) :: !Owns(w.calls[c], id) && !Eyes(w.calls[c], id) && !Recalls(w.calls[c], id))
    && (id in w.store ==> w.store[id].state.Terminal())
  }

  /** The step starts work on the id: a new request, a request queued over it, or a new warm runner. */
  predicate Revives(s: Step, id: AllocationId) { (s.Reserve? || s.Enqueue? || s.Prewarm?) && s.id == id }

  /** The step neither opens the record again nor goes after it. */
  ghost predicate LetsRest(w: World, e: Effect, id: AllocationId) {
    && (e.call.Some? ==> !Owns(e.call.value, id) && !Eyes(e.call.value, id) && !Recalls(e.call.value, id))
    && (e.write.Put? && e.write.id == id ==> e.write.rec.state.Terminal())
  }

  lemma RequestLetsRest(w: World, s: Step, id: AllocationId)
    requires Enabled(w, s) && AtRest(w, id) && !Revives(s, id)
    requires !Queues(s) && !Closes(s) && !Pools(s) && !Hands(s)
    ensures LetsRest(w, EffectOf(w, s), id)
  {
    if At(w, s.c) { assert !Owns(w.calls[s.c], id); }
  }

  lemma QueueLetsRest(w: World, s: Step, id: AllocationId)
    requires Enabled(w, s) && AtRest(w, id) && !Revives(s, id) && Queues(s)
    ensures LetsRest(w, EffectOf(w, s), id)
  {
    if At(w, s.c) { assert !Owns(w.calls[s.c], id); }
  }

  lemma CloseLetsRest(w: World, s: Step, id: AllocationId)
    requires Typed(w) && Enabled(w, s) && AtRest(w, id) && Closes(s)
    ensures LetsRest(w, EffectOf(w, s), id)
  {
    if s.NoteWrite? || s.NoteSwap? {
      NoteLetsRest(w, s, id);
    } else if s.MarkWrite? {
      assert Shaped(w, w.calls[s.c]);
    } else if s.CancelSwap? || s.RecheckMark? {
      assert EffectOf(w, s).write.Put? ==> EffectOf(w, s).write.rec.state.Terminal();
    }
  }

  lemma NoteLetsRest(w: World, s: Step, id: AllocationId)
    requires Enabled(w, s) && AtRest(w, id) && (s.NoteWrite? || s.NoteSwap?)
    ensures LetsRest(w, EffectOf(w, s), id)
  {
    assert !Recalls(w.calls[s.c], id);
  }

  lemma PoolLetsRest(w: World, s: Step, id: AllocationId)
    requires Enabled(w, s) && AtRest(w, id) && !Revives(s, id) && Pools(s)
    ensures LetsRest(w, EffectOf(w, s), id)
  {
    if At(w, s.c) { assert !Owns(w.calls[s.c], id); }
  }

  lemma HandLetsRest(w: World, s: Step, id: AllocationId)
    requires Enabled(w, s) && AtRest(w, id) && Hands(s)
    ensures LetsRest(w, EffectOf(w, s), id)
  {
    assert !Owns(w.calls[s.c], id) && !Eyes(w.calls[s.c], id);
  }

  lemma StepKeepsAtRest(w: World, s: Step, id: AllocationId)
    requires Typed(w) && Enabled(w, s) && AtRest(w, id) && !Revives(s, id)
    ensures AtRest(Next(w, s), id)
  {
    if Queues(s) {
      QueueLetsRest(w, s, id);
    } else if Closes(s) {
      CloseLetsRest(w, s, id);
    } else if Pools(s) {
      PoolLetsRest(w, s, id);
    } else if Hands(s) {
      HandLetsRest(w, s, id);
    } else {
      RequestLetsRest(w, s, id);
    }
    RestIsKept(w, s.c, EffectOf(w, s), id);
  }

  lemma RestIsKept(w: World, c: CallId, e: Effect, id: AllocationId)
    requires AtRest(w, id) && LetsRest(w, e, id)
    ensures AtRest(Applied(w, c, e), id)
  {
  }

  /** States linked by steps the code allows, careful or not. */
  ghost predicate IsTrace(ws: seq<World>, ss: seq<Step>) {
    && |ws| == |ss| + 1
    && forall i: nat | i < |ss| :: Enabled(ws[i], ss[i]) && ws[i + 1] == Next(ws[i], ss[i])
  }

  /** Whatever the calls do, careful or not, each record id belongs to at most one of them, and warm
      records are kept apart from those of requests. */
  lemma {:induction false} TracesStayTyped(ws: seq<World>, ss: seq<Step>)
    requires IsTrace(ws, ss) && Typed(ws[0])
    ensures Typed(ws[|ss|])
  {
    if ss != [] {
      var n := |ss| - 1;
      TracesStayTyped(ws[..|ss|], ss[..n]);
      assert Enabled(ws[n], ss[n]);
      StepKeepsTyped(ws[n], ss[n]);
    }
  }

  /** A terminal record that no call works on, is taking over, or remembers open is never in use again,
      whatever runs, unless its request is queued or reserved anew: only calls that were under way when
      it was closed can bring it back. */
  lemma {:induction false} ClosedStaysClosed(ws: seq<World>, ss: seq<Step>, id: AllocationId)
    requires IsTrace(ws, ss) && Typed(ws[0]) && AtRest(ws[0], id)
    requires forall s <- ss :: !Revives(s, id)
    ensures AtRest(ws[|ss|], id)
  {
    if ss != [] {
      var n := |ss| - 1;
      ClosedStaysClosed(ws[..|ss|], ss[..n], id);
      TracesStayTyped(ws[..|ss|], ss[..n]);
      assert Enabled(ws[n], ss[n]) && ss[n] in ss;
      StepKeepsAtRest(ws[n], ss[n], id);
    }
  }
}
