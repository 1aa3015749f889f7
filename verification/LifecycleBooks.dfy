/** The books of the lifecycle: what each step does to the scheduler's counts and to what they stand for. */
module LifecycleBooks {
  import opened Basics
  import opened Model
  import opened Lifecycle

  // ------------------------------------------------------------------ counting one step

  /** The step writes no record but x, and its call lends no other. */
  ghost predicate Touches(w: World, c: CallId, e: Effect, x: AllocationId) {
    && (e.write.Put? ==> e.write.id == x) && (e.write.Drop? ==> e.write.ids == {x})
    && (forall id | At(w, c) && Lends(w.calls[c], id) :: id == x)
    && (forall id | e.call.Some? && Lends(e.call.value, id) :: id == x)
  }

  ghost predicate LentBeside(w: World, c: CallId, id: AllocationId) {
    exists d :: At(w, d) && d != c && Lends(w.calls[d], id)
  }

  lemma LentAfter(w: World, c: CallId, e: Effect, id: AllocationId)
    ensures IsLent(w, id) <==> LentBeside(w, c, id) || (At(w, c) && Lends(w.calls[c], id))
    ensures IsLent(Applied(w, c, e), id) <==> LentBeside(w, c, id) || (e.call.Some? && Lends(e.call.value, id))
  {
    var w' := Applied(w, c, e);
    if LentBeside(w, c, id) {
      var d :| At(w, d) && d != c && Lends(w.calls[d], id);
      assert At(w', d) && Lends(w'.calls[d], id);
    }
    if IsLent(w', id) {
      var d :| At(w', d) && Lends(w'.calls[d], id);
      assert d == c || (At(w, d) && Lends(w.calls[d], id));
    }
    if e.call.Some? && Lends(e.call.value, id) { assert At(w', c) && Lends(w'.calls[c], id); }
  }

  lemma OneMoves<T>(s: set<T>, t: set<T>, x: T)
    requires s - {x} == t - {x}
    ensures |t| == |s| - One(x in s) + One(x in t)
  {
    assert x in s ==> s == (s - {x}) + {x};
    assert x in t ==> t == (t - {x}) + {x};
    assert x !in s ==> s == s - {x};
    assert x !in t ==> t == t - {x};
  }

  /** How a step moves the two sides of the books: by its record, and by its call. */
  lemma Tally(w: World, c: CallId, e: Effect, x: AllocationId, p: Place)
    requires Touches(w, c, e, x)
    ensures var w' := Applied(w, c, e);
            && |Counted(w', p)| == |Counted(w, p)| - One(x in Counted(w, p)) + One(x in Counted(w', p))
            && |Holders(w', p)| == |Holders(w, p)|
                 - One(At(w, c) && HoldsAt(w.calls[c], p)) + One(e.call.Some? && HoldsAt(e.call.value, p))
    ensures IsLent(w, x) <==> LentBeside(w, c, x) || (At(w, c) && Lends(w.calls[c], x))
    ensures IsLent(Applied(w, c, e), x) <==> LentBeside(w, c, x) || (e.call.Some? && Lends(e.call.value, x))
  {
    var w' := Applied(w, c, e);
    forall id | id != x ensures id in Counted(w, p) <==> id in Counted(w', p) {
      LentAfter(w, c, e, id);
      assert id in w.store <==> id in w'.store;
    }
    assert Counted(w, p) - {x} == Counted(w', p) - {x};
    OneMoves(Counted(w, p), Counted(w', p), x);
    LentAfter(w, c, e, x);
    assert Holders(w, p) - {c} == Holders(w', p) - {c};
    OneMoves(Holders(w, p), Holders(w', p), c);
  }

  /** The step's call lends no warm record, before or after. */
  predicate Plain(w: World, c: CallId, e: Effect) {
    && (At(w, c) ==> !w.calls[c].Emptying? && !w.calls[c].Renaming?)
    && (e.call.Some? ==> !e.call.value.Emptying? && !e.call.value.Renaming?)
  }

  /** Whether x counts at p once the step has written. */
  ghost predicate Counts(w: World, e: Effect, x: AllocationId, p: Place) {
    match e.write
    case Keep => x in Counted(w, p)
    case Put(_, rec) => InUseAt(rec, p) && !IsLent(w, x)
    case Drop(_) => false
  }

  function Moved(w: World, slots: Slots, p: Place): int {
    match slots
    case Same => 0
    case Take(q) => if p == q then 1 else 0
    case Give(q) => if p == q && Get(w.sched, q) > 0 then -1 else 0
  }

  /** The books after a step, as arithmetic over its record, its call and its slot. */
  lemma Shift(w: World, c: CallId, e: Effect, x: AllocationId, p: Place)
    requires Touches(w, c, e, x) && Plain(w, c, e)
    ensures Due(Applied(w, c, e), p) == Due(w, p)
              + One(Counts(w, e, x, p)) - One(x in Counted(w, p))
              + One(e.call.Some? && HoldsAt(e.call.value, p)) - One(At(w, c) && HoldsAt(w.calls[c], p))
  {
    Tally(w, c, e, x, p);
    assert x in Counted(Applied(w, c, e), p) <==> Counts(w, e, x, p);
  }

  /** The same for a step that writes one record, ends or goes on as next says, and leaves the counts alone. */
  lemma Rewrite(w: World, c: CallId, next: Option<Call>, id: AllocationId, rec: Rec, p: Place)
    requires At(w, c) ==> !w.calls[c].Emptying? && !w.calls[c].Renaming?
    requires next.Some? ==> !next.value.Emptying? && !next.value.Renaming?
    ensures var w' := Applied(w, c, Saves(next, Put(id, rec)));
            && w'.sched == w.sched
            && Due(w', p) == Due(w, p) + One(InUseAt(rec, p) && !IsLent(w, id)) - One(id in Counted(w, p))
                 + One(next.Some? && HoldsAt(next.value, p)) - One(At(w, c) && HoldsAt(w.calls[c], p))
  {
    Shift(w, c, Saves(next, Put(id, rec)), id, p);
  }

  /** A step that writes nothing and counts nothing. */
  lemma Passes(w: World, c: CallId, e: Effect, p: Place)
    requires e.write == Keep && e.slots == Same
    requires At(w, c) ==> !w.calls[c].Emptying? && !w.calls[c].Renaming?
    requires e.call.Some? ==> !e.call.value.Emptying? && !e.call.value.Renaming?
    ensures var w' := Applied(w, c, e);
            && w'.sched == w.sched
            && Due(w', p) == Due(w, p)
                 + One(e.call.Some? && HoldsAt(e.call.value, p)) - One(At(w, c) && HoldsAt(w.calls[c], p))
  {
    Shift(w, c, e, 0, p);
  }

  /** A release finds the slot it gives back: the count never reaches the floor early. */
  lemma ReleaseFindsSlot(w: World, c: CallId)
    requires Books(w) && At(w, c) && w.calls[c].Owing? && w.calls[c].place.backend != NO_BACKEND
    ensures Get(w.sched, w.calls[c].place) > 0
  {
    var p := w.calls[c].place;
    assert BooksAt(w, p);
    assert c in Holders(w, p);
  }

  // ------------------------------------------------------------ what each step balances

  lemma CancelShifts(w: World, c: CallId, p: Place)
    requires Enabled(w, CancelSwap(c)) && Stands(w, w.calls[c].id, w.calls[c].seen)
    ensures var (w', id) := (Next(w, CancelSwap(c)), w.calls[c].id);
            w'.sched == w.sched && Due(w', p) == Due(w, p) - One(id in Counted(w, p)) + One(w.store[id].place == p)
              + One(InUseAt(InState(w.store[id], Canceled), p))
  {
    var id := w.calls[c].id;
    var next, rec := Owing(w.store[id].place, w.store[id].runner), InState(w.store[id], Canceled);
    assert EffectOf(w, CancelSwap(c)) == Saves(Some(next), Put(id, rec));
    Rewrite(w, c, Some(next), id, rec, p);
  }

  /** Winning a cancel keeps the books at a place exactly when the canceled record was counted there: a
      queued record that names a backend is owed a release it never paid for, and so is a warm one whose
      slot a handoff has given back. */
  lemma CancelBalances(w: World, c: CallId, p: Place)
    requires Enabled(w, CancelSwap(c)) && Stands(w, w.calls[c].id, w.calls[c].seen)
    requires !w.calls[c].seen.Terminal() && BooksAt(w, p)
    ensures var id := w.calls[c].id;
            BooksAt(Next(w, CancelSwap(c)), p) <==>
            w.store[id].place != p || (w.calls[c].seen.Accounted() && !IsLent(w, id))
  {
    CancelShifts(w, c, p);
  }

  lemma MarkShifts(w: World, c: CallId, p: Place)
    requires Enabled(w, MarkWrite(c)) && w.calls[c].id in w.store && w.calls[c].target.Terminal()
    ensures var (w', id, seen) := (Next(w, MarkWrite(c)), w.calls[c].id, w.calls[c].snap);
            w'.sched == w.sched
            && Due(w', p) == Due(w, p) - One(id in Counted(w, p)) + One(seen.state.Active() && seen.place == p)
  {
    var (id, seen, target) := (w.calls[c].id, w.calls[c].snap, w.calls[c].target);
    var next := if seen.state.Active() then Some(Owing(seen.place, seen.runner)) else None;
    assert EffectOf(w, MarkWrite(c)) == Saves(next, Put(id, InState(w.store[id], target)));
    Rewrite(w, c, next, id, InState(w.store[id], target), p);
  }

  /** A completion or expiry keeps the books at p exactly when a release is owed there, for what was
      read, if and only if the record that is overwritten is counted there. It fails for a warm record,
      which is in use but never released, for a record that another call has closed in between,
      which is released twice, and for one that a handoff has given another tenant. */
  lemma MarkBalances(w: World, c: CallId, p: Place)
    requires Enabled(w, MarkWrite(c)) && w.calls[c].id in w.store && w.calls[c].target.Terminal() && BooksAt(w, p)
    ensures var seen := w.calls[c].snap;
            BooksAt(Next(w, MarkWrite(c)), p) <==>
            ((seen.state.Active() && seen.place == p) <==> w.calls[c].id in Counted(w, p))
  {
    MarkShifts(w, c, p);
  }

  lemma NoteShifts(w: World, c: CallId, p: Place)
    requires Enabled(w, NoteWrite(c))
    ensures var (w', id, snap) := (Next(w, NoteWrite(c)), w.calls[c].id, w.calls[c].snap);
            w'.sched == w.sched
            && Due(w', p) == Due(w, p) - One(id in Counted(w, p)) + One(InUseAt(snap, p) && !IsLent(w, id))
  {
    var (id, snap) := (w.calls[c].id, w.calls[c].snap);
    assert EffectOf(w, NoteWrite(c)) == Saves(None, Put(id, snap));
    Rewrite(w, c, None, id, snap, p);
  }

  /** Saving a copy of a record keeps the books at p exactly when the copy is in use there if and only if
      the record that is overwritten is, unless a handoff has given its slot back: a runner's callback
      that read before a cancel puts the closed record back in use. */
  lemma NoteBalances(w: World, c: CallId, p: Place)
    requires Enabled(w, NoteWrite(c)) && BooksAt(w, p)
    ensures var (id, snap) := (w.calls[c].id, w.calls[c].snap);
            BooksAt(Next(w, NoteWrite(c)), p) <==>
            IsLent(w, id) || (InUseAt(snap, p) <==> id in w.store && InUseAt(w.store[id], p))
  {
    NoteShifts(w, c, p);
  }

  lemma SwapNoteShifts(w: World, c: CallId, p: Place)
    requires Enabled(w, NoteSwap(c))
    ensures var (w', id, snap) := (Next(w, NoteSwap(c)), w.calls[c].id, w.calls[c].snap);
            w'.sched == w.sched
            && Due(w', p) == if Stands(w, id, snap.state)
                             then Due(w, p) - One(id in Counted(w, p)) + One(InUseAt(snap, p) && !IsLent(w, id))
                             else Due(w, p)
  {
    if Stands(w, w.calls[c].id, w.calls[c].snap.state) {
      Rewrite(w, c, None, w.calls[c].id, w.calls[c].snap, p);
    } else {
      Passes(w, c, ENDS, p);
    }
  }

  /** An event that saves only over the state it read moves a record in use between places, if at all. */
  lemma SwapNoteBalances(w: World, c: CallId, p: Place)
    requires Enabled(w, NoteSwap(c)) && BooksAt(w, p)
    ensures var (id, snap) := (w.calls[c].id, w.calls[c].snap);
            BooksAt(Next(w, NoteSwap(c)), p) <==>
            (Stands(w, id, snap.state) && snap.state.Accounted() && !IsLent(w, id) ==>
               (snap.place == p <==> w.store[id].place == p))
  {
    SwapNoteShifts(w, c, p);
  }

  lemma RecheckShifts(w: World, c: CallId, p: Place)
    requires Enabled(w, RecheckMark(c)) && w.calls[c].id in w.store
    ensures var (w', id) := (Next(w, RecheckMark(c)), w.calls[c].id);
            w'.sched == w.sched && Due(w', p) == Due(w, p) - One(id in Counted(w, p))
  {
    var (id, left) := (w.calls[c].id, w.calls[c].left);
    assert EffectOf(w, RecheckMark(c)) == Saves(Some(Cleaning(left)), Put(id, InState(w.store[id], Expired)));
    Rewrite(w, c, Some(Cleaning(left)), id, InState(w.store[id], Expired), p);
  }

  /** Expiring a record that was read as quarantined keeps the books exactly when it is not in use. */
  lemma RecheckBalances(w: World, c: CallId, p: Place)
    requires BooksAt(w, p) && Enabled(w, RecheckMark(c))
    ensures BooksAt(Next(w, RecheckMark(c)), p) <==> w.calls[c].id !in Counted(w, p)
  {
    if w.calls[c].id in w.store { RecheckShifts(w, c, p); } else { Passes(w, c, ENDS, p); }
  }

  lemma RecycleShifts(w: World, c: CallId, p: Place)
    requires Enabled(w, RecycleMark(c)) && w.calls[c].id in w.store
    ensures var (w', id) := (Next(w, RecycleMark(c)), w.calls[c].id);
            w'.sched == w.sched && Due(w', p) == Due(w, p) - One(id in Counted(w, p)) + One(w.store[id].place == p)
  {
    var id := w.calls[c].id;
    var next, rec := Owing(w.store[id].place, w.store[id].runner), InState(w.store[id], Failed);
    assert EffectOf(w, RecycleMark(c)) == Saves(Some(next), Put(id, rec));
    Rewrite(w, c, Some(next), id, rec, p);
  }

  /** Recycling a record that was read as warm keeps the books at its place exactly when it is still in use
      and not being handed over: if a cancel or a completion has closed it in between, its slot is given
      back twice. */
  lemma RecycleBalances(w: World, c: CallId, p: Place)
    requires BooksAt(w, p) && Enabled(w, RecycleMark(c))
    ensures var id := w.calls[c].id;
            BooksAt(Next(w, RecycleMark(c)), p) <==>
            (id in w.store && w.store[id].place == p ==> w.store[id].state.Accounted() && !IsLent(w, id))
  {
    if w.calls[c].id in w.store { RecycleShifts(w, c, p); } else { Passes(w, c, ENDS, p); }
  }

  lemma ClaimShifts(w: World, c: CallId, p: Place)
    requires Enabled(w, ClaimWarm(c)) && w.calls[c].warm in w.store
    ensures var (w', warm) := (Next(w, ClaimWarm(c)), w.calls[c].warm);
            w'.sched == w.sched && Due(w', p) == Due(w, p) - One(warm in Counted(w, p))
                                    + One(w.store[warm].place == p && !IsLent(w, warm))
  {
    var (id, place, warm) := (w.calls[c].id, w.calls[c].place, w.calls[c].warm);
    var ready := InState(w.store[warm], Ready);
    assert EffectOf(w, ClaimWarm(c)) == Saves(Some(Handing(id, place, warm, ready)), Put(warm, ready));
    Rewrite(w, c, Some(Handing(id, place, warm, ready)), warm, ready, p);
  }

  lemma ClaimMisses(w: World, c: CallId, p: Place)
    requires Enabled(w, ClaimWarm(c)) && w.calls[c].warm !in w.store
    ensures Next(w, ClaimWarm(c)).sched == w.sched && Due(Next(w, ClaimWarm(c)), p) == Due(w, p)
  {
    var e := Goes(Provisioning(w.calls[c].id, w.calls[c].place));
    assert EffectOf(w, ClaimWarm(c)) == e;
    Passes(w, c, e, p);
  }

  /** Marking a record ready that was read as warm keeps the books at its place exactly when it is still
      in use: one that was canceled in between comes back without a slot. */
  lemma ClaimBalances(w: World, c: CallId, p: Place)
    requires BooksAt(w, p) && Enabled(w, ClaimWarm(c))
    ensures var warm := w.calls[c].warm;
            BooksAt(Next(w, ClaimWarm(c)), p) <==>
            (warm in w.store && w.store[warm].place == p ==> w.store[warm].state.Accounted() || IsLent(w, warm))
  {
    if w.calls[c].warm in w.store { ClaimShifts(w, c, p); } else { ClaimMisses(w, c, p); }
  }

  lemma Lend(w: World, c: CallId, next: Call, slots: Slots, warm: AllocationId, p: Place)
    requires At(w, c) && w.calls[c].Handing? && next.Emptying? && next.warm == warm
    ensures Due(Applied(w, c, GoesWith(next, slots)), p) == Due(w, p) - One(warm in Counted(w, p))
  {
    Tally(w, c, GoesWith(next, slots), warm, p);
  }

  lemma HandReleaseShifts(w: World, c: CallId, p: Place)
    requires Enabled(w, HandRelease(c))
    ensures Due(Next(w, HandRelease(c)), p) == Due(w, p) - One(w.calls[c].warm in Counted(w, p))
  {
    var (id, place, warm, claimed) := (w.calls[c].id, w.calls[c].place, w.calls[c].warm, w.calls[c].claimed);
    assert EffectOf(w, HandRelease(c)) == GoesWith(Emptying(id, place, warm, claimed), Give(claimed.place));
    Lend(w, c, Emptying(id, place, warm, claimed), Give(claimed.place), warm, p);
  }

  /** What a handoff gives back first is the warm record's slot, without a look at the record: the books at
      p are kept exactly when the record counts there as often as the slot that is given back. */
  lemma HandReleaseBalances(w: World, c: CallId, p: Place)
    requires BooksAt(w, p) && Enabled(w, HandRelease(c))
    ensures var from := w.calls[c].claimed.place;
            BooksAt(Next(w, HandRelease(c)), p) <==>
            (w.calls[c].warm in Counted(w, p) <==> p == from && Get(w.sched, from) > 0)
  {
    HandReleaseShifts(w, c, p);
  }

  lemma HandDeleteShifts(w: World, c: CallId, p: Place)
    requires Enabled(w, HandDelete(c)) && w.calls[c].id != w.calls[c].warm
    ensures var (w', id) := (Next(w, HandDelete(c)), w.calls[c].id);
            w'.sched == w.sched && Due(w', p) == Due(w, p) - One(id in Counted(w, p)) + One(w.calls[c].place == p)
  {
    var (id, place, warm, claimed) := (w.calls[c].id, w.calls[c].place, w.calls[c].warm, w.calls[c].claimed);
    assert EffectOf(w, HandDelete(c)) == Saves(Some(Renaming(place, warm, claimed)), Drop({id}));
    DropWhileLent(w, c, Renaming(place, warm, claimed), id, p);
  }

  /** A call that goes on lending the same warm record deletes another one. */
  lemma DropWhileLent(w: World, c: CallId, next: Call, id: AllocationId, p: Place)
    requires At(w, c) && w.calls[c].Emptying? && next.Renaming? && next.warm == w.calls[c].warm != id
    ensures var w' := Applied(w, c, Saves(Some(next), Drop({id})));
            Due(w', p) == Due(w, p) - One(id in Counted(w, p)) + One(next.place == p)
  {
    var e := Saves(Some(next), Drop({id}));
    var w' := Applied(w, c, e);
    forall j | j != id ensures j in Counted(w, p) <==> j in Counted(w', p) {
      LentAfter(w, c, e, j);
    }
    assert Counted(w, p) - {id} == Counted(w', p) - {id};
    OneMoves(Counted(w, p), Counted(w', p), id);
    assert Holders(w, p) - {c} == Holders(w', p) - {c};
    OneMoves(Holders(w, p), Holders(w', p), c);
  }

  /** Deleting the consumer's record keeps them exactly when it is counted at the consumer's place, and
      nowhere else. */
  lemma HandDeleteBalances(w: World, c: CallId, p: Place)
    requires BooksAt(w, p) && Ownership(w) && Enabled(w, HandDelete(c))
    ensures BooksAt(Next(w, HandDelete(c)), p) <==> (w.calls[c].id in Counted(w, p) <==> p == w.calls[c].place)
  {
    assert Shaped(w, w.calls[c]);
    HandDeleteShifts(w, c, p);
  }

  /** The last save of a handoff keeps them whatever has become of the warm record: whoever closed it
      has broken them already. */
  lemma HandSaveBalances(w: World, c: CallId, p: Place)
    requires BooksAt(w, p) && Ownership(w) && Enabled(w, HandSave(c))
    ensures BooksAt(Next(w, HandSave(c)), p)
  {
    NobodyElseLends(w, c, w.calls[c].warm);
    var e := EffectOf(w, HandSave(c));
    Tally(w, c, e, w.calls[c].warm, p);
  }

  lemma NobodyElseLends(w: World, c: CallId, warm: AllocationId)
    requires Tidy(w) && At(w, c) && Lends(w.calls[c], warm)
    ensures !LentBeside(w, c, warm)
  {
    forall d | At(w, d) && Lends(w.calls[d], warm) ensures d == c {
      assert Eyes(w.calls[c], warm) && Eyes(w.calls[d], warm);
    }
  }

  /** If that save fails, the warm runner's slot stands for another tenant, unless it is the same one. */
  lemma HandSaveErrorBalances(w: World, c: CallId, p: Place)
    requires BooksAt(w, p) && Ownership(w) && Enabled(w, HandSaveError(c))
    ensures var (place, from) := (w.calls[c].place, w.calls[c].claimed.place);
            BooksAt(Next(w, HandSaveError(c)), p) <==> (p == place <==> p == from)
  {
    assert Tight(w, w.calls[c]) && Shaped(w, w.calls[c]);
    NobodyElseLends(w, c, w.calls[c].warm);
    var e := EffectOf(w, HandSaveError(c));
    Tally(w, c, e, w.calls[c].warm, p);
  }

  /** If the delete fails, the warm runner's slot has been given back for nothing. */
  lemma HandDeleteErrorBalances(w: World, c: CallId, p: Place)
    requires BooksAt(w, p) && Ownership(w) && Enabled(w, HandDeleteError(c))
    ensures BooksAt(Next(w, HandDeleteError(c)), p) <==> p != w.calls[c].claimed.place
  {
    assert Tight(w, w.calls[c]) && Shaped(w, w.calls[c]);
    NobodyElseLends(w, c, w.calls[c].warm);
    var e := EffectOf(w, HandDeleteError(c));
    Tally(w, c, e, w.calls[c].warm, p);
  }

  /** Queueing a request over a record, or deleting it, keeps the books exactly when it is not in use. */
  lemma EnqueueBalances(w: World, c: CallId, id: AllocationId, place: Place, p: Place)
    requires BooksAt(w, p) && Enabled(w, Enqueue(c, id, place))
    ensures BooksAt(Next(w, Enqueue(c, id, place)), p) <==> id !in Counted(w, p)
  {
    Rewrite(w, c, None, id, Rec(place, Pending, None), p);
  }

  lemma ForgetBalances(w: World, c: CallId, id: AllocationId, p: Place)
    requires BooksAt(w, p) && Enabled(w, Forget(c, id))
    ensures BooksAt(Next(w, Forget(c, id)), p) <==> id !in Counted(w, p)
  {
    Shift(w, c, Saves(None, Drop({id})), id, p);
  }

  /** A request that gives up marks its record failed: the books then count every record but that one. */
  lemma GiveUpBalances(w: World, c: CallId, id: AllocationId, p: Place)
    requires Enabled(w, GiveUp(c, id))
    ensures BooksAt(Next(w, GiveUp(c, id)), p) <==> Get(w.sched, p) == Due(w, p) - One(id in Counted(w, p))
  {
    Rewrite(w, c, None, id, InState(w.store[id], Failed), p);
  }

  lemma CommitErrorShifts(w: World, c: CallId, p: Place)
    requires Enabled(w, CommitError(c))
    ensures var w' := Next(w, CommitError(c));
            && w'.sched == w.sched && w'.store == w.store
            && Due(w', p) == Due(w, p) + One(w.calls[c].place == p)
            && (IsLent(w', w.calls[c].id) <==> IsLent(w, w.calls[c].id))
  {
    var (id, place, runner) := (w.calls[c].id, w.calls[c].place, w.calls[c].runner);
    var e := Goes(Owing(place, Some(runner)));
    assert EffectOf(w, CommitError(c)) == e;
    Passes(w, c, e, p);
    LentAfter(w, c, e, id);
  }

  /** A commit that fails to persist releases the slot of a record that stays reserved: the books count
      every record but that one, until whoever closes it repairs or breaks them. */
  lemma CommitErrorUnbalances(w: World, c: CallId, p: Place)
    requires BooksAt(w, p) && Ownership(w) && Enabled(w, CommitError(c))
    ensures var (w', id) := (Next(w, CommitError(c)), w.calls[c].id);
            && Get(w'.sched, p) == Due(w', p) - One(id in Counted(w', p))
            && (id in Counted(w', p) <==> p == w.calls[c].place)
  {
    assert Shaped(w, w.calls[c]) && Tight(w, w.calls[c]);
    OwnIsNotLent(w, c, w.calls[c].id);
    CommitErrorShifts(w, c, p);
  }

  /** What a call owns no other lends. */
  lemma OwnIsNotLent(w: World, c: CallId, id: AllocationId)
    requires Typed(w) && At(w, c) && Owns(w.calls[c], id)
    ensures !LentBeside(w, c, id) && !IsLent(w, id)
  {
    assert Shaped(w, w.calls[c]);
    forall d | At(w, d) ensures !Lends(w.calls[d], id) {
      assert Shaped(w, w.calls[d]);
    }
  }

  lemma RejectionShifts(w: World, c: CallId, p: Place)
    requires Enabled(w, AdmissionRejected(c))
    ensures var w' := Next(w, AdmissionRejected(c));
            && w'.sched == w.sched
            && Due(w', p) == Due(w, p) - One(w.calls[c].place == p) + One(Nameless(w.calls[c].place) == p)
  {
    var e := Goes(Owing(Nameless(w.calls[c].place), None));
    assert EffectOf(w, AdmissionRejected(c)) == e;
    Passes(w, c, e, p);
  }

  lemma RejectionBalancesAt(w: World, c: CallId, p: Place)
    requires BooksAt(w, p) && Enabled(w, AdmissionRejected(c))
    ensures BooksAt(Next(w, AdmissionRejected(c)), p) <==>
            (p == w.calls[c].place <==> p == Nameless(w.calls[c].place))
  {
    RejectionShifts(w, c, p);
  }

  // ---------------------------------------------------------------- every careful step

  /** Steps that write nothing and whose call holds as much as before. */
  predicate Idles(s: Step) {
    || s.AdmissionRejected? || s.SaveRefused? || s.ProvisionOk? || s.Discard? || s.RetryRead? || s.RetryEnd?
    || s.CancelRead? || s.MarkRead? || s.NoteRead? || s.Cleanup? || s.RecheckRead? || s.PrewarmOk?
    || s.PrewarmFailed? || s.RecycleRead? || s.ChooseWarm?
  }

  /** The step leaves record and slot alone, and its call holds as much as before. */
  ghost predicate IsIdle(w: World, c: CallId, e: Effect, p: Place) {
    && e.write == Keep && e.slots == Same
    && (At(w, c) ==> !w.calls[c].Emptying? && !w.calls[c].Renaming?)
    && (e.call.Some? ==> !e.call.value.Emptying? && !e.call.value.Renaming?)
    && One(e.call.Some? && HoldsAt(e.call.value, p)) == One(At(w, c) && HoldsAt(w.calls[c], p))
  }

  lemma IdleEffect(w: World, s: Step, p: Place)
    requires Enabled(w, s) && Careful(w, s) && Idles(s)
    ensures IsIdle(w, s.c, EffectOf(w, s), p)
  {
    if Closes(s) {
      IdleCloseEffect(w, s, p);
    } else if Pools(s) || Hands(s) {
      IdlePoolEffect(w, s, p);
    }
  }

  lemma IdleCloseEffect(w: World, s: Step, p: Place)
    requires Enabled(w, s) && Idles(s) && Closes(s)
    ensures IsIdle(w, s.c, EffectOf(w, s), p)
  {
  }

  lemma IdlePoolEffect(w: World, s: Step, p: Place)
    requires Enabled(w, s) && Idles(s) && (Pools(s) || Hands(s))
    ensures IsIdle(w, s.c, EffectOf(w, s), p)
  {
  }

  lemma IdleKeepsBooks(w: World, s: Step, p: Place)
    requires BooksAt(w, p) && Enabled(w, s) && Careful(w, s) && Idles(s)
    ensures BooksAt(Next(w, s), p)
  {
    IdleEffect(w, s, p);
    Passes(w, s.c, EffectOf(w, s), p);
  }

  lemma Takes(w: World, c: CallId, e: Effect, p: Place, q: Place)
    requires e.write == Keep && e.slots == Take(q) && e.call.Some?
    requires At(w, c) ==> w.calls[c].Retrying?
    requires (e.call.value.Reserving? || e.call.value.Prewarming?) && e.call.value.place == q
    ensures var w' := Applied(w, c, e);
            Get(w'.sched, p) == Get(w.sched, p) + One(p == q) && Due(w', p) == Due(w, p) + One(p == q)
  {
    Shift(w, c, e, 0, p);
  }

  lemma TakeKeepsBooks(w: World, s: Step, p: Place)
    requires BooksAt(w, p) && Enabled(w, s) && (s.Reserve? || s.RetryReserve? || s.Prewarm?)
    ensures BooksAt(Next(w, s), p)
  {
    Takes(w, s.c, EffectOf(w, s), p, s.place);
  }

  lemma ReleaseKeepsBooks(w: World, c: CallId, p: Place)
    requires Books(w) && BooksAt(w, p) && p.backend != NO_BACKEND && Enabled(w, Release(c))
    ensures BooksAt(Next(w, Release(c)), p)
  {
    var (place, left) := (w.calls[c].place, w.calls[c].left);
    assert EffectOf(w, Release(c)) == GoesWith(Cleaning(left), Give(place));
    if place == p { ReleaseFindsSlot(w, c); }
    Shift(w, c, GoesWith(Cleaning(left), Give(place)), 0, p);
  }

  /** The steps in which a call writes its own record. */
  predicate WritesOwn(s: Step) {
    s.SaveReserved? || s.SaveWarm? || s.RetrySave? || s.ProvisionFailed? || s.Commit?
  }

  /** A call that writes its own record holds a slot before and after, itself or by the record. */
  lemma OwnEffect(w: World, s: Step, p: Place)
    requires Ownership(w) && Enabled(w, s) && WritesOwn(s)
    ensures var (e, call, id) := (EffectOf(w, s), w.calls[s.c], w.calls[s.c].id);
            && Owns(call, id) && !call.Emptying? && e.slots == Same && (e.write == Keep || e.write.Put?)
            && (e.write.Put? ==> e.write.id == id)
            && (e.call.Some? ==> !e.call.value.Emptying? && !e.call.value.Renaming?)
            && One(e.write.Put? && InUseAt(e.write.rec, p)) + One(e.call.Some? && HoldsAt(e.call.value, p))
               == One(e.write.Put? && id in w.store && InUseAt(w.store[id], p)) + One(HoldsAt(call, p))
  {
    assert Tight(w, w.calls[s.c]) && Shaped(w, w.calls[s.c]);
  }

  lemma OwnKeepsBooks(w: World, s: Step, p: Place)
    requires BooksAt(w, p) && Ownership(w) && Enabled(w, s) && WritesOwn(s)
    ensures BooksAt(Next(w, s), p)
  {
    var e, id := EffectOf(w, s), w.calls[s.c].id;
    OwnEffect(w, s, p);
    OwnIsNotLent(w, s.c, id);
    WritesFairly(w, s.c, e, id, p);
  }

  lemma WritesFairly(w: World, c: CallId, e: Effect, id: AllocationId, p: Place)
    requires At(w, c) && !w.calls[c].Emptying? && !w.calls[c].Renaming? && !IsLent(w, id)
    requires e.slots == Same && (e.write == Keep || e.write.Put?) && (e.write.Put? ==> e.write.id == id)
    requires e.call.Some? ==> !e.call.value.Emptying? && !e.call.value.Renaming?
    requires One(e.write.Put? && InUseAt(e.write.rec, p)) + One(e.call.Some? && HoldsAt(e.call.value, p))
             == One(e.write.Put? && id in w.store && InUseAt(w.store[id], p)) + One(HoldsAt(w.calls[c], p))
    ensures Due(Applied(w, c, e), p) == Due(w, p)
  {
    Shift(w, c, e, id, p);
  }

  lemma PruneKeepsBooks(w: World, c: CallId, ids: set<AllocationId>, p: Place)
    requires BooksAt(w, p) && Enabled(w, Prune(c, ids))
    ensures BooksAt(Next(w, Prune(c, ids)), p)
  {
    var e := Saves(None, Drop(ids));
    var w' := Applied(w, c, e);
    forall id ensures id in Counted(w', p) <==> id in Counted(w, p) {
      LentAfter(w, c, e, id);
      assert id in ids ==> w.store[id].state.Terminal();
    }
    assert Counted(w', p) == Counted(w, p) && Holders(w', p) == Holders(w, p);
  }

  lemma HandReleaseKeepsBooks(w: World, c: CallId, p: Place)
    requires Books(w) && BooksAt(w, p) && Ownership(w) && Enabled(w, HandRelease(c)) && Careful(w, HandRelease(c))
    ensures BooksAt(Next(w, HandRelease(c)), p)
  {
    WarmSlotIsCounted(w, c);
    HandReleaseBalances(w, c, p);
  }

  /** The slot that a handoff gives back is there while the warm record is as it was claimed. */
  lemma WarmSlotIsCounted(w: World, c: CallId)
    requires Books(w) && Ownership(w) && At(w, c) && w.calls[c].Handing?
    requires w.calls[c].warm in w.store && w.store[w.calls[c].warm] == w.calls[c].claimed
    ensures forall p :: w.calls[c].warm in Counted(w, p) <==> p == w.calls[c].claimed.place
    ensures Get(w.sched, w.calls[c].claimed.place) > 0
  {
    var (warm, from) := (w.calls[c].warm, w.calls[c].claimed.place);
    assert Shaped(w, w.calls[c]);
    forall d | At(w, d) ensures !Lends(w.calls[d], warm) {
      assert Eyes(w.calls[c], warm) && (Lends(w.calls[d], warm) ==> Eyes(w.calls[d], warm));
    }
    assert warm in Counted(w, from) && BooksAt(w, from);
  }

  lemma HandDeleteKeepsBooks(w: World, c: CallId, p: Place)
    requires BooksAt(w, p) && Ownership(w) && Enabled(w, HandDelete(c)) && Careful(w, HandDelete(c))
    ensures BooksAt(Next(w, HandDelete(c)), p)
  {
    var id := w.calls[c].id;
    assert Tight(w, w.calls[c]) && Shaped(w, w.calls[c]);
    OwnIsNotLent(w, c, id);
    LentAfter(w, c, ENDS, id);
    HandDeleteBalances(w, c, p);
  }

  lemma CloseKeepsBooks(w: World, s: Step, p: Place)
    requires BooksAt(w, p) && p.backend != NO_BACKEND && Ownership(w) && Enabled(w, s) && Careful(w, s)
    requires s.CancelSwap? || s.MarkWrite? || s.RecheckMark? || s.RecycleMark?
    ensures BooksAt(Next(w, s), p)
  {
    assert Shaped(w, w.calls[s.c]);
    match s
    case CancelSwap(c) =>
      if Stands(w, w.calls[c].id, w.calls[c].seen) { CancelBalances(w, c, p); } else { Passes(w, c, ENDS, p); }
    case MarkWrite(c) =>
      if w.calls[c].id in w.store { MarkBalances(w, c, p); } else { Passes(w, c, ENDS, p); }
    case RecheckMark(c) => RecheckBalances(w, c, p);
    case RecycleMark(c) =>
      if w.calls[c].id in w.store { RecycleIsCareful(w, c); }
      RecycleBalances(w, c, p);
  }

  /** A record that is still warm is not being handed over. */
  lemma RecycleIsCareful(w: World, c: CallId)
    requires Ownership(w) && At(w, c) && w.calls[c].Recycling? && Stands(w, w.calls[c].id, Warm)
    ensures !IsLent(w, w.calls[c].id)
  {
    forall d | At(w, d) ensures !Lends(w.calls[d], w.calls[c].id) {
      assert Tight(w, w.calls[d]) && Shaped(w, w.calls[d]);
    }
  }

  lemma HandKeepsBooks(w: World, s: Step, p: Place)
    requires Books(w) && BooksAt(w, p) && Ownership(w) && Enabled(w, s) && Careful(w, s) && Hands(s) && !s.ChooseWarm?
    ensures BooksAt(Next(w, s), p)
  {
    match s
    case ClaimWarm(c) => ClaimBalances(w, c, p);
    case HandRelease(c) => HandReleaseKeepsBooks(w, c, p);
    case HandDelete(c) => HandDeleteKeepsBooks(w, c, p);
    case HandSave(c) => HandSaveBalances(w, c, p);
    case HandSaveError(c) => HandSaveErrorBalances(w, c, p);
    case _ =>
  }

  /** Notes, and writes over a record that is not in use. */
  lemma FreeWriteKeepsBooks(w: World, s: Step, p: Place)
    requires BooksAt(w, p) && Enabled(w, s) && Careful(w, s)
    requires s.NoteWrite? || s.NoteSwap? || s.Enqueue? || s.Forget? || s.GiveUp? || s.DropDemand?
    ensures BooksAt(Next(w, s), p)
  {
    match s
    case NoteWrite(c) => NoteBalances(w, c, p);
    case NoteSwap(c) => SwapNoteBalances(w, c, p);
    case Enqueue(c, id, place) => EnqueueBalances(w, c, id, place, p);
    case Forget(c, id) => ForgetBalances(w, c, id, p);
    case GiveUp(c, id) => GiveUpBalances(w, c, id, p);
    case DropDemand(c, id) => DropKeepsBooks(w, c, id, p);
  }

  lemma DropKeepsBooks(w: World, c: CallId, id: AllocationId, p: Place)
    requires BooksAt(w, p) && Enabled(w, DropDemand(c, id))
    ensures BooksAt(Next(w, DropDemand(c, id)), p)
  {
    assert EffectOf(w, DropDemand(c, id)) == Saves(None, Put(id, InState(w.store[id], Canceled)));
    Rewrite(w, c, None, id, InState(w.store[id], Canceled), p);
  }

  lemma BooksAfter(w: World, s: Step, p: Place)
    requires Books(w) && BooksAt(w, p) && p.backend != NO_BACKEND && Ownership(w) && Enabled(w, s) && Careful(w, s)
    ensures BooksAt(Next(w, s), p)
  {
    if Idles(s) {
      IdleKeepsBooks(w, s, p);
    } else if s.Reserve? || s.RetryReserve? || s.Prewarm? {
      TakeKeepsBooks(w, s, p);
    } else if WritesOwn(s) {
      OwnKeepsBooks(w, s, p);
    } else if Hands(s) {
      HandKeepsBooks(w, s, p);
    } else if s.CancelSwap? || s.MarkWrite? || s.RecheckMark? || s.RecycleMark? {
      CloseKeepsBooks(w, s, p);
    } else if s.Release? {
      ReleaseKeepsBooks(w, s.c, p);
    } else if s.Prune? {
      PruneKeepsBooks(w, s.c, s.ids, p);
    } else if s.NoteWrite? || s.NoteSwap? || s.Enqueue? || s.Forget? || s.GiveUp? || s.DropDemand? {
      FreeWriteKeepsBooks(w, s, p);
    }
  }

  lemma StepKeepsBooks(w: World, s: Step)
    requires Books(w) && Ownership(w) && Enabled(w, s) && Careful(w, s)
    ensures Books(Next(w, s))
  {
    forall p: Place | p.backend != NO_BACKEND ensures BooksAt(Next(w, s), p) {
      assert BooksAt(w, p);
      BooksAfter(w, s, p);
    }
  }

  // ----------------------------------------------- the same over every place at once

  /** With the warm record untouched so far, giving up the consumer's record keeps the books if and only if
      that one is still reserved: if it was canceled or expired since the handoff began, its slot has been
      given back already. */
  lemma HandoffNeedsTheReservation(w: World, c: CallId)
    requires Books(w) && Ownership(w) && Enabled(w, HandDelete(c))
    ensures Books(Next(w, HandDelete(c))) <==> Stands(w, w.calls[c].id, Reserved)
  {
    var (id, place) := (w.calls[c].id, w.calls[c].place);
    assert Tight(w, w.calls[c]) && Shaped(w, w.calls[c]);
    OwnIsNotLent(w, c, id);
    forall p: Place | p.backend != NO_BACKEND
      ensures BooksAt(Next(w, HandDelete(c)), p) <==> (id in Counted(w, p) <==> p == place)
    {
      assert BooksAt(w, p);
      HandDeleteBalances(w, c, p);
    }
    if !Stands(w, id, Reserved) { assert id !in Counted(w, place); }
  }

  /** What a handoff gives back first is there exactly when the warm record is still in use where it was
      claimed, or was closed so that no slot is counted there to be given back again. */
  lemma HandoffNeedsTheWarmRecord(w: World, c: CallId)
    requires Books(w) && Ownership(w) && Enabled(w, HandRelease(c))
    ensures Books(Next(w, HandRelease(c))) <==> WarmSlotIsThere(w, w.calls[c].warm, w.calls[c].claimed.place)
  {
    var (warm, from) := (w.calls[c].warm, w.calls[c].claimed.place);
    assert Shaped(w, w.calls[c]);
    forall d | At(w, d) ensures !Lends(w.calls[d], warm) {
      assert Eyes(w.calls[c], warm) && (Lends(w.calls[d], warm) ==> Eyes(w.calls[d], warm));
    }
    forall p: Place | p.backend != NO_BACKEND
      ensures BooksAt(Next(w, HandRelease(c)), p) <==> (warm in Counted(w, p) <==> p == from && Get(w.sched, from) > 0)
    {
      assert BooksAt(w, p);
      HandReleaseBalances(w, c, p);
    }
    WarmSlotIsThereOrNot(w, warm, from);
  }

  ghost predicate WarmSlotIsThere(w: World, warm: AllocationId, from: Place) {
    if warm in w.store && w.store[warm].state.Accounted() then w.store[warm].place == from else Get(w.sched, from) == 0
  }

  lemma WarmSlotIsThereOrNot(w: World, warm: AllocationId, from: Place)
    requires Books(w) && Typed(w) && !IsLent(w, warm) && from.backend != NO_BACKEND
    ensures WarmSlotIsThere(w, warm, from) <==>
            forall p: Place | p.backend != NO_BACKEND :: warm in Counted(w, p) <==> p == from && Get(w.sched, from) > 0
  {
    assert BooksAt(w, from);
    if warm in w.store && w.store[warm].state.Accounted() {
      var at := w.store[warm].place;
      assert Sound(w, warm, w.store[warm]) && BooksAt(w, at) && warm in Counted(w, at);
    } else {
      assert warm !in Counted(w, from);
    }
  }

  /** A commit that fails to persist breaks the books at its own place; marking the record failed, as the
      retry worker does with whatever it could not allocate, mends them. */
  lemma CommitErrorIsMended(w: World, c: CallId, d: CallId)
    requires Books(w) && Ownership(w) && Enabled(w, CommitError(c)) && !At(w, d)
    ensures var (w', id) := (Next(w, CommitError(c)), w.calls[c].id);
            !Books(w') && Enabled(w', GiveUp(d, id)) && Books(Next(w', GiveUp(d, id)))
  {
    var w', id, place := Next(w, CommitError(c)), w.calls[c].id, w.calls[c].place;
    assert Shaped(w, w.calls[c]);
    CommitErrorFrees(w, c, d);
    forall p: Place | p.backend != NO_BACKEND
      ensures Get(w'.sched, p) == Due(w', p) - One(id in Counted(w', p)) && (id in Counted(w', p) <==> p == place)
      ensures BooksAt(Next(w', GiveUp(d, id)), p)
    {
      assert BooksAt(w, p);
      CommitErrorUnbalances(w, c, p);
      GiveUpBalances(w', d, id, p);
    }
    assert !BooksAt(w', place);
  }

  lemma CommitErrorFrees(w: World, c: CallId, d: CallId)
    requires Typed(w) && Enabled(w, CommitError(c)) && !At(w, d)
    ensures Enabled(Next(w, CommitError(c)), GiveUp(d, w.calls[c].id))
  {
    var w', id := Next(w, CommitError(c)), w.calls[c].id;
    assert Shaped(w, w.calls[c]) && Owns(w.calls[c], id);
    assert EffectOf(w, CommitError(c)) == Goes(Owing(w.calls[c].place, Some(w.calls[c].runner)));
    forall j | At(w', j) ensures !Owns(w'.calls[j], id) {
      if j != c { assert At(w, j) && w'.calls[j] == w.calls[j]; }
    }
  }

  /** A warm runner whose record fails to be saved keeps a slot that nothing will give back. */
  lemma SaveWarmErrorUnbalances(w: World, c: CallId)
    requires Books(w) && Typed(w) && Enabled(w, SaveWarmError(c))
    ensures !Books(Next(w, SaveWarmError(c)))
  {
    var p := w.calls[c].place;
    assert Shaped(w, w.calls[c]) && BooksAt(w, p);
    assert EffectOf(w, SaveWarmError(c)) == ENDS;
    Passes(w, c, ENDS, p);
    assert !BooksAt(Next(w, SaveWarmError(c)), p);
  }

  /** The release after a rejected admission balances exactly for the default tenant. */
  lemma RejectionBalances(w: World, c: CallId)
    requires Books(w) && Typed(w) && Enabled(w, AdmissionRejected(c))
    ensures Books(Next(w, AdmissionRejected(c))) <==> w.calls[c].place.tenant == DEFAULT_TENANT
  {
    var place := w.calls[c].place;
    assert Shaped(w, w.calls[c]);
    forall p: Place | p.backend != NO_BACKEND
      ensures BooksAt(Next(w, AdmissionRejected(c)), p) <==> (p == place <==> p == Nameless(place))
    {
      assert BooksAt(w, p);
      RejectionBalancesAt(w, c, p);
    }
    if place.tenant != DEFAULT_TENANT { assert !BooksAt(Next(w, AdmissionRejected(c)), place); }
  }
}
