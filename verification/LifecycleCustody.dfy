/** Who answers for a runner: what each step loses, and what it takes over. */
module LifecycleCustody {
  import opened Basics
  import opened Model
  import opened Lifecycle

  /** The effect itself answers for the runner: its call goes on with it, places it, or tears it down. */
  predicate Answers(e: Effect, r: Runner) {
    || (e.call.Some? && Carries(e.call.value, r))
    || (e.write.Put? && Serves(e.write.rec, r))
    || r in e.cleaned
  }

  predicate Written(e: Effect, id: AllocationId) {
    (e.write.Put? && e.write.id == id) || (e.write.Drop? && id in e.write.ids)
  }

  /** The runner is torn down, in the hands of a call other than c, or serves a record the effect leaves alone. */
  ghost predicate SafeBeside(w: World, c: CallId, e: Effect, r: Runner) {
    || r in w.cleaned
    || (exists d :: At(w, d) && d != c && Carries(w.calls[d], r))
    || (exists id :: id in w.store && !Written(e, id) && Serves(w.store[id], r))
  }

  lemma SafeAfter(w: World, c: CallId, e: Effect, r: Runner)
    ensures Safe(Applied(w, c, e), r) <==> Answers(e, r) || SafeBeside(w, c, e, r)
  {
    var w' := Applied(w, c, e);
    if SafeBeside(w, c, e, r) { BesideStaysSafe(w, c, e, r); }
    if e.call.Some? && Carries(e.call.value, r) { assert At(w', c) && Carries(w'.calls[c], r); }
    if e.write.Put? && Serves(e.write.rec, r) { assert e.write.id in w'.store && Serves(w'.store[e.write.id], r); }
    if Safe(w', r) && r !in w'.cleaned { SafeCameFrom(w, c, e, r); }
  }

  lemma BesideStaysSafe(w: World, c: CallId, e: Effect, r: Runner)
    requires SafeBeside(w, c, e, r)
    ensures Safe(Applied(w, c, e), r)
  {
    var w' := Applied(w, c, e);
    if d :| At(w, d) && d != c && Carries(w.calls[d], r) { assert At(w', d) && Carries(w'.calls[d], r); }
    if id :| id in w.store && !Written(e, id) && Serves(w.store[id], r) {
      assert id in w'.store && Serves(w'.store[id], r);
    }
  }

  lemma SafeCameFrom(w: World, c: CallId, e: Effect, r: Runner)
    requires Safe(Applied(w, c, e), r) && r !in Applied(w, c, e).cleaned
    ensures Answers(e, r) || SafeBeside(w, c, e, r)
  {
    var w' := Applied(w, c, e);
    if d :| At(w', d) && Carries(w'.calls[d], r) {
      assert d == c || (At(w, d) && Carries(w.calls[d], r));
    } else {
      var id :| id in w'.store && Serves(w'.store[id], r);
      assert Written(e, id) || (id in w.store && Serves(w.store[id], r));
    }
  }

  /** What the step lets go of: the runner its call had in hand, or one that a record served. */
  ghost predicate Loses(w: World, c: CallId, e: Effect, r: Runner) {
    || (At(w, c) && Carries(w.calls[c], r))
    || (exists id :: id in w.store && Written(e, id) && Serves(w.store[id], r))
  }

  lemma SafeUnlessLost(w: World, c: CallId, e: Effect, r: Runner)
    requires Safe(w, r) && !Loses(w, c, e, r)
    ensures SafeBeside(w, c, e, r)
  {
    if r !in w.cleaned {
      if d :| At(w, d) && Carries(w.calls[d], r) {
        assert d != c;
      } else {
        var id :| id in w.store && Serves(w.store[id], r);
        assert !Written(e, id);
      }
    }
  }

  /** An effect keeps every runner in custody exactly when it answers for those it bears, and for those it
      loses that nothing else answers for. */
  lemma KeepsCustodyExactly(w: World, c: CallId, e: Effect)
    requires Custody(w) && forall r <- e.born :: Answers(e, r)
    ensures Custody(Applied(w, c, e)) <==>
            forall r <- w.born | Loses(w, c, e, r) :: Answers(e, r) || SafeBeside(w, c, e, r)
  {
    var w' := Applied(w, c, e);
    forall r | r in w'.born ensures Safe(w', r) <==> Answers(e, r) || SafeBeside(w, c, e, r) {
      SafeAfter(w, c, e, r);
    }
    forall r | r in w.born && !Loses(w, c, e, r) ensures SafeBeside(w, c, e, r) {
      SafeUnlessLost(w, c, e, r);
    }
    assert forall r <- w.born :: r in w'.born;
  }

  // ------------------------------------------------------------------- careful steps

  /** The step answers for the runners it bears and for those it loses. */
  ghost predicate Answering(w: World, c: CallId, e: Effect) {
    && (forall r <- e.born :: Answers(e, r))
    && (forall r | At(w, c) && Carries(w.calls[c], r) :: Answers(e, r))
    && (forall r, id | id in w.store && Written(e, id) && Serves(w.store[id], r) :: Answers(e, r))
  }

  lemma RequestAnswers(w: World, s: Step)
    requires Ownership(w) && Enabled(w, s) && Careful(w, s) && !Queues(s) && !Closes(s) && !Pools(s) && !Hands(s)
    ensures Answering(w, s.c, EffectOf(w, s))
  {
    if At(w, s.c) { assert Tight(w, w.calls[s.c]); }
  }

  lemma QueueAnswers(w: World, s: Step)
    requires Ownership(w) && Enabled(w, s) && Careful(w, s) && Queues(s)
    ensures Answering(w, s.c, EffectOf(w, s))
  {
    if At(w, s.c) { assert Tight(w, w.calls[s.c]); }
  }

  lemma CloseAnswers(w: World, s: Step)
    requires Ownership(w) && Enabled(w, s) && Careful(w, s) && Closes(s)
    ensures Answering(w, s.c, EffectOf(w, s))
  {
    if s.CancelSwap? || s.MarkWrite? {
      ShutAnswers(w, s);
    } else if s.NoteWrite? || s.NoteSwap? {
      NoteAnswers(w, s);
    } else if s.Prune? || s.RecheckMark? {
      UnusedAnswers(w, s);
    }
  }

  lemma ShutAnswers(w: World, s: Step)
    requires Enabled(w, s) && Careful(w, s) && (s.CancelSwap? || s.MarkWrite?)
    ensures Answering(w, s.c, EffectOf(w, s))
  {
  }

  lemma NoteAnswers(w: World, s: Step)
    requires Enabled(w, s) && Careful(w, s) && (s.NoteWrite? || s.NoteSwap?)
    ensures Answering(w, s.c, EffectOf(w, s))
  {
  }

  lemma UnusedAnswers(w: World, s: Step)
    requires Enabled(w, s) && Careful(w, s) && (s.Prune? || s.RecheckMark?)
    ensures Answering(w, s.c, EffectOf(w, s))
  {
  }

  lemma PoolAnswers(w: World, s: Step)
    requires Ownership(w) && Enabled(w, s) && Careful(w, s) && Pools(s)
    ensures Answering(w, s.c, EffectOf(w, s))
  {
    if At(w, s.c) { assert Shaped(w, w.calls[s.c]); }
  }

  lemma HandAnswers(w: World, s: Step)
    requires Ownership(w) && Enabled(w, s) && Careful(w, s) && Hands(s)
    ensures Answering(w, s.c, EffectOf(w, s))
  {
    if s.HandSave? {
      RenamingAnswers(w, s.c);
    } else if s.HandDelete? {
      DeletionAnswers(w, s.c);
    }
  }

  lemma DeletionAnswers(w: World, c: CallId)
    requires Enabled(w, HandDelete(c)) && Careful(w, HandDelete(c))
    ensures Answering(w, c, EffectOf(w, HandDelete(c)))
  {
    assert EffectOf(w, HandDelete(c)).write == Drop({w.calls[c].id});
  }

  lemma RenamingAnswers(w: World, c: CallId)
    requires Ownership(w) && Enabled(w, HandSave(c))
    ensures Answering(w, c, EffectOf(w, HandSave(c)))
  {
    assert Tight(w, w.calls[c]) && Shaped(w, w.calls[c]);
  }

  lemma StepKeepsCustody(w: World, s: Step)
    requires Custody(w) && Ownership(w) && Enabled(w, s) && Careful(w, s)
    ensures Custody(Next(w, s))
  {
    if Queues(s) {
      QueueAnswers(w, s);
    } else if Closes(s) {
      CloseAnswers(w, s);
    } else if Pools(s) {
      PoolAnswers(w, s);
    } else if Hands(s) {
      HandAnswers(w, s);
    } else {
      RequestAnswers(w, s);
    }
    KeepsCustodyExactly(w, s.c, EffectOf(w, s));
  }

  // ----------------------------------------------------------------- the exact cases

  /** A completion or expiry keeps every runner in custody if and only if the record it overwrites serves
      none that nothing else answers for, or it read the record active with that same runner: what it
      read is what it tears down. */
  lemma MarkKeepsCustody(w: World, c: CallId)
    requires Custody(w) && Enabled(w, MarkWrite(c)) && w.calls[c].id in w.store && w.calls[c].target.Terminal()
    ensures var (id, seen) := (w.calls[c].id, w.calls[c].snap);
            Custody(Next(w, MarkWrite(c))) <==>
            forall r <- w.born | Serves(w.store[id], r) ::
              SafeBeside(w, c, EffectOf(w, MarkWrite(c)), r) || (seen.state.Active() && seen.runner == Some(r))
  {
    var (id, seen, target) := (w.calls[c].id, w.calls[c].snap, w.calls[c].target);
    var next := if seen.state.Active() then Some(Owing(seen.place, seen.runner)) else None;
    var e := Saves(next, Put(id, InState(w.store[id], target)));
    assert EffectOf(w, MarkWrite(c)) == e;
    KeepsCustodyExactly(w, c, e);
    forall r ensures Loses(w, c, e, r) <==> Serves(w.store[id], r) {
      assert Written(e, id);
    }
  }

  /** Saving a copy of a record keeps every runner in custody if and only if the record that is overwritten
      serves none that nothing else answers for, or the copy serves the same: a callback that read before
      the runner was placed loses it. */
  lemma NoteKeepsCustody(w: World, c: CallId)
    requires Custody(w) && Enabled(w, NoteWrite(c))
    ensures var (id, snap) := (w.calls[c].id, w.calls[c].snap);
            Custody(Next(w, NoteWrite(c))) <==>
            forall r <- w.born | id in w.store && Serves(w.store[id], r) ::
              Serves(snap, r) || SafeBeside(w, c, EffectOf(w, NoteWrite(c)), r)
  {
    var (id, snap) := (w.calls[c].id, w.calls[c].snap);
    var e := Saves(None, Put(id, snap));
    assert EffectOf(w, NoteWrite(c)) == e;
    KeepsCustodyExactly(w, c, e);
    forall r ensures Loses(w, c, e, r) <==> id in w.store && Serves(w.store[id], r) {
      assert Written(e, id);
    }
  }

  /** A warm runner whose record fails to be saved is lost unless something else answers for it. */
  lemma SaveWarmErrorKeepsCustody(w: World, c: CallId)
    requires Custody(w) && Enabled(w, SaveWarmError(c))
    ensures var r := w.calls[c].runner;
            Custody(Next(w, SaveWarmError(c))) <==> (r in w.born ==> SafeBeside(w, c, ENDS, r))
  {
    assert EffectOf(w, SaveWarmError(c)) == ENDS;
    KeepsCustodyExactly(w, c, ENDS);
    forall r ensures Loses(w, c, ENDS, r) <==> r == w.calls[c].runner {}
  }
}
