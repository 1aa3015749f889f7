/** Concrete runs of the lifecycle in which a step that is not careful does its harm. Those that start
    from a state of their own start from one that the invariant allows. */
module LifecycleFailures {
  import opened Basics
  import opened Model
  import opened Lifecycle
  import opened LifecycleBooks
  import opened LifecycleCustody
  import opened LifecycleRuns

  /** The states that the invariant allows. */
  ghost const ALLOWED: iset<World> := iset w: World | Inv(w)

  const HERE := Place(0, 0, DEFAULT_TENANT)
  const NOWHERE := Place(0, NO_BACKEND, DEFAULT_TENANT)

  // --------------------------------------------------------------- single steps, spelled out

  lemma CancelCloses(w: World, c: CallId)
    requires At(w, c) && w.calls[c].Canceling? && Stands(w, w.calls[c].id, w.calls[c].seen)
    ensures Enabled(w, CancelSwap(c))
    ensures Next(w, CancelSwap(c)) == Applied(w, c, Shut(w, w.calls[c].id, Canceled))
  {
  }

  lemma ReleaseLowers(w: World, c: CallId)
    requires At(w, c) && w.calls[c].Owing?
    ensures Enabled(w, Release(c)) && Careful(w, Release(c))
    ensures Next(w, Release(c)) == Applied(w, c, GoesWith(Cleaning(w.calls[c].left), Give(w.calls[c].place)))
  {
  }

  lemma MarkCloses(w: World, c: CallId)
    requires At(w, c) && w.calls[c].Marking?
    ensures Enabled(w, MarkWrite(c))
    ensures Next(w, MarkWrite(c)) == Applied(w, c, Marked(w, w.calls[c].id, w.calls[c].snap, w.calls[c].target))
  {
  }

  lemma NoteSaves(w: World, c: CallId)
    requires At(w, c) && w.calls[c].Noting? && !w.calls[c].snap.state.Terminal()
    ensures Enabled(w, NoteWrite(c))
    ensures Next(w, NoteWrite(c)) == Applied(w, c, Saves(None, Put(w.calls[c].id, w.calls[c].snap)))
  {
  }

  lemma CommitPlaces(w: World, c: CallId)
    requires At(w, c) && w.calls[c].Placing? && Stands(w, w.calls[c].id, Reserved)
    ensures Enabled(w, Commit(c)) && Careful(w, Commit(c))
    ensures var placed := Rec(w.calls[c].place, Ready, Some(w.calls[c].runner));
            Next(w, Commit(c)) == Applied(w, c, Saves(None, Put(w.calls[c].id, placed)))
  {
  }

  lemma HandDeletes(w: World, c: CallId)
    requires At(w, c) && w.calls[c].Emptying?
    ensures Enabled(w, HandDelete(c))
    ensures var next := Renaming(w.calls[c].place, w.calls[c].warm, w.calls[c].claimed);
            Next(w, HandDelete(c)) == Applied(w, c, Saves(Some(next), Drop({w.calls[c].id})))
  {
  }

  lemma HandSaves(w: World, c: CallId)
    requires At(w, c) && w.calls[c].Renaming?
    ensures Enabled(w, HandSave(c)) && Careful(w, HandSave(c))
    ensures var taken := Rec(w.calls[c].place, Ready, w.calls[c].claimed.runner);
            Next(w, HandSave(c)) == Applied(w, c, Saves(None, Put(w.calls[c].warm, taken)))
  {
  }

  lemma RetrySaves(w: World, c: CallId, place: Place)
    requires At(w, c) && w.calls[c].Retrying?
    ensures Enabled(w, RetrySave(c, place)) && Careful(w, RetrySave(c, place))
    ensures var id := w.calls[c].id;
            Next(w, RetrySave(c, place))
            == Applied(w, c, Saves(Some(Retrying(id, place)), Put(id, Rec(place, Pending, None))))
  {
  }

  // --------------------------------------------------------- callbacks that write back old copies

  /** A runner registers while its allocation is canceled: the record is in use again after its slot has
      been given back, although nobody has queued or reserved it anew. */
  lemma RegistrationRevives(w: World, canceled: World, released: World)
    requires w == World(map[0 := Rec(HERE, Ready, Some(7))], map[HERE := 1],
                        map[5 := Canceling(0, Ready), 6 := Noting(0, Rec(HERE, Ready, Some(7)))], {7}, {}, {})
    requires canceled == w.(store := map[0 := Rec(HERE, Canceled, Some(7))],
                            calls := w.calls[5 := Owing(HERE, Some(7))])
    requires released == canceled.(sched := map[HERE := 0], calls := canceled.calls[5 := Cleaning(Some(7))])
    ensures w in ALLOWED
    ensures Enabled(w, CancelSwap(5)) && Careful(w, CancelSwap(5)) && Next(w, CancelSwap(5)) == canceled
    ensures Enabled(canceled, Release(5)) && Careful(canceled, Release(5)) && Next(canceled, Release(5)) == released
    ensures Enabled(released, NoteWrite(6))
    ensures var end := Next(released, NoteWrite(6)); Stands(end, 0, Ready) && Get(end.sched, HERE) == 0
  {
    RegisteringIsInvariant(w);
    CancelInRegistration(w, canceled);
    ReleaseInRegistration(canceled, released);
    NoteOverwrites(released, 6, 0, Rec(HERE, Ready, Some(7)));
  }

  lemma ReleaseInRegistration(canceled: World, released: World)
    requires canceled.sched == map[HERE := 1] && At(canceled, 5) && canceled.calls[5] == Owing(HERE, Some(7))
    requires released == canceled.(sched := map[HERE := 0], calls := canceled.calls[5 := Cleaning(Some(7))])
    ensures Enabled(canceled, Release(5)) && Careful(canceled, Release(5)) && Next(canceled, Release(5)) == released
  {
    ReleaseOne(canceled, 5, Some(7), 1);
  }

  lemma ReleaseOne(w: World, c: CallId, left: Option<Runner>, n: nat)
    requires w.sched == map[HERE := n] && n > 0 && At(w, c) && w.calls[c] == Owing(HERE, left)
    ensures Enabled(w, Release(c)) && Careful(w, Release(c))
    ensures Next(w, Release(c)) == w.(sched := map[HERE := n - 1], calls := w.calls[c := Cleaning(left)])
  {
    ReleaseLowers(w, c);
  }

  lemma NoteOverwrites(w: World, c: CallId, id: AllocationId, snap: Rec)
    requires At(w, c) && w.calls[c] == Noting(id, snap) && !snap.state.Terminal()
    ensures Enabled(w, NoteWrite(c)) && Next(w, NoteWrite(c)).sched == w.sched
    ensures Stands(Next(w, NoteWrite(c)), id, snap.state)
  {
    NoteSaves(w, c);
  }

  lemma CancelInRegistration(w: World, canceled: World)
    requires w.store == map[0 := Rec(HERE, Ready, Some(7))]
    requires w.calls == map[5 := Canceling(0, Ready), 6 := Noting(0, Rec(HERE, Ready, Some(7)))]
    requires canceled == w.(store := map[0 := Rec(HERE, Canceled, Some(7))],
                            calls := w.calls[5 := Owing(HERE, Some(7))])
    ensures Enabled(w, CancelSwap(5)) && Careful(w, CancelSwap(5)) && Next(w, CancelSwap(5)) == canceled
  {
    CancelCloses(w, 5);
  }

  lemma OneRecordBooks(w: World, p: Place, rec: Rec)
    requires w.store == map[0 := rec] && rec.place == HERE && rec.state.Accounted() && w.sched == map[HERE := 1]
    requires forall c | At(w, c) :: !HoldsAt(w.calls[c], p) && !Lends(w.calls[c], 0)
    ensures BooksAt(w, p)
  {
    assert !IsLent(w, 0);
    assert Counted(w, p) == if p == HERE then {0} else {};
    forall c ensures c !in Holders(w, p) {
      if c in w.calls { assert At(w, c); }
    }
    assert Holders(w, p) == {};
  }

  lemma RegisteringIsInvariant(w: World)
    requires w == World(map[0 := Rec(HERE, Ready, Some(7))], map[HERE := 1],
                        map[5 := Canceling(0, Ready), 6 := Noting(0, Rec(HERE, Ready, Some(7)))], {7}, {}, {})
    ensures w in ALLOWED
  {
    forall p: Place ensures BooksAt(w, p) { OneRecordBooks(w, p, Rec(HERE, Ready, Some(7))); }
    assert Serves(w.store[0], 7);
  }

  /** A runner registers while its provision returns: the commit's label is overwritten by the reservation
      that was read before it, and nothing answers for the runner any more. */
  lemma RegistrationOrphansARunner(w: World, placed: World)
    requires w == World(map[0 := Rec(HERE, Reserved, None)], map[HERE := 1],
                        map[5 := Placing(0, HERE, 7), 6 := Noting(0, Rec(HERE, Reserved, None))], {7}, {}, {})
    requires placed == w.(store := map[0 := Rec(HERE, Ready, Some(7))],
                          calls := map[6 := Noting(0, Rec(HERE, Reserved, None))])
    ensures w in ALLOWED
    ensures Enabled(w, Commit(5)) && Careful(w, Commit(5)) && Next(w, Commit(5)) == placed
    ensures Enabled(placed, NoteWrite(6))
    ensures Books(Next(placed, NoteWrite(6))) && !Custody(Next(placed, NoteWrite(6)))
  {
    PlacingIsInvariant(w);
    CommitInRegistration(w, placed);
    NoteOrphans(placed, 6);
  }

  lemma NoteOrphans(w: World, c: CallId)
    requires w == World(map[0 := Rec(HERE, Ready, Some(7))], map[HERE := 1],
                        map[c := Noting(0, Rec(HERE, Reserved, None))], {7}, {}, {})
    ensures Enabled(w, NoteWrite(c)) && Books(Next(w, NoteWrite(c))) && !Custody(Next(w, NoteWrite(c)))
  {
    NoteSaves(w, c);
    var end := Next(w, NoteWrite(c));
    assert end == World(map[0 := Rec(HERE, Reserved, None)], map[HERE := 1], map[], {7}, {}, {});
    forall p: Place ensures BooksAt(end, p) { OneRecordBooks(end, p, Rec(HERE, Reserved, None)); }
    assert !Safe(end, 7);
  }

  lemma CommitInRegistration(w: World, placed: World)
    requires w.store == map[0 := Rec(HERE, Reserved, None)] && w.warmed == {}
    requires w.calls == map[5 := Placing(0, HERE, 7), 6 := Noting(0, Rec(HERE, Reserved, None))]
    requires placed == w.(store := map[0 := Rec(HERE, Ready, Some(7))],
                          calls := map[6 := Noting(0, Rec(HERE, Reserved, None))])
    ensures Enabled(w, Commit(5)) && Careful(w, Commit(5)) && Next(w, Commit(5)) == placed
  {
    CommitPlaces(w, 5);
    assert w.calls - {5} == placed.calls;
  }

  lemma PlacingIsInvariant(w: World)
    requires w == World(map[0 := Rec(HERE, Reserved, None)], map[HERE := 1],
                        map[5 := Placing(0, HERE, 7), 6 := Noting(0, Rec(HERE, Reserved, None))], {7}, {}, {})
    ensures w in ALLOWED
  {
    forall p: Place ensures BooksAt(w, p) { OneRecordBooks(w, p, Rec(HERE, Reserved, None)); }
    assert Carries(w.calls[5], 7);
  }

  // -------------------------------------------------------------------- cancels that race

  /** A queued record is canceled while a retry of it is under way; the retry writes it back as queued, and
      then reserves it, although the cancel was reported done. Every step is a careful one. */
  lemma CanceledThenResurrected(w: World, canceled: World, requeued: World, reserving: World)
    requires w == World(map[0 := Rec(NOWHERE, Pending, None)], map[],
                        map[5 := Retrying(0, NOWHERE), 6 := Canceling(0, Pending)], {}, {}, {})
    requires canceled == w.(store := map[0 := Rec(NOWHERE, Canceled, None)],
                            calls := w.calls[6 := Owing(NOWHERE, None)])
    requires requeued == canceled.(store := map[0 := Rec(NOWHERE, Pending, None)])
    requires reserving == requeued.(sched := map[HERE := 1], calls := requeued.calls[5 := Reserving(0, HERE)])
    ensures w in ALLOWED
    ensures Enabled(w, CancelSwap(6)) && Careful(w, CancelSwap(6)) && Next(w, CancelSwap(6)) == canceled
    ensures Enabled(canceled, RetrySave(5, NOWHERE)) && Careful(canceled, RetrySave(5, NOWHERE))
    ensures Next(canceled, RetrySave(5, NOWHERE)) == requeued
    ensures Enabled(requeued, RetryReserve(5, HERE)) && Careful(requeued, RetryReserve(5, HERE))
    ensures Next(requeued, RetryReserve(5, HERE)) == reserving
    ensures Enabled(reserving, SaveReserved(5)) && Careful(reserving, SaveReserved(5))
    ensures Stands(Next(reserving, SaveReserved(5)), 0, Reserved)
  {
    QueuedIsInvariant(w);
    CancelInRetry(w, canceled);
    RequeueInRetry(canceled, requeued);
    ReserveInRetry(requeued, reserving);
  }

  lemma RequeueInRetry(canceled: World, requeued: World)
    requires canceled.store == map[0 := Rec(NOWHERE, Canceled, None)]
    requires At(canceled, 5) && canceled.calls[5] == Retrying(0, NOWHERE)
    requires requeued == canceled.(store := map[0 := Rec(NOWHERE, Pending, None)])
    ensures Enabled(canceled, RetrySave(5, NOWHERE)) && Careful(canceled, RetrySave(5, NOWHERE))
    ensures Next(canceled, RetrySave(5, NOWHERE)) == requeued
  {
    RetrySaves(canceled, 5, NOWHERE);
    assert canceled.calls[5 := Retrying(0, NOWHERE)] == canceled.calls;
  }

  lemma ReserveInRetry(requeued: World, reserving: World)
    requires requeued.sched == map[] && At(requeued, 5) && requeued.calls[5] == Retrying(0, NOWHERE)
    requires reserving == requeued.(sched := map[HERE := 1], calls := requeued.calls[5 := Reserving(0, HERE)])
    ensures Enabled(requeued, RetryReserve(5, HERE)) && Careful(requeued, RetryReserve(5, HERE))
    ensures Next(requeued, RetryReserve(5, HERE)) == reserving
    ensures Enabled(reserving, SaveReserved(5)) && Careful(reserving, SaveReserved(5))
    ensures Stands(Next(reserving, SaveReserved(5)), 0, Reserved)
  {
    assert EffectOf(requeued, RetryReserve(5, HERE)) == GoesWith(Reserving(0, HERE), Take(HERE));
    assert EffectOf(reserving, SaveReserved(5)).write == Put(0, Rec(HERE, Reserved, None));
  }

  lemma CancelInRetry(w: World, canceled: World)
    requires w.store == map[0 := Rec(NOWHERE, Pending, None)]
    requires w.calls == map[5 := Retrying(0, NOWHERE), 6 := Canceling(0, Pending)]
    requires canceled == w.(store := map[0 := Rec(NOWHERE, Canceled, None)],
                            calls := w.calls[6 := Owing(NOWHERE, None)])
    ensures Enabled(w, CancelSwap(6)) && Careful(w, CancelSwap(6)) && Next(w, CancelSwap(6)) == canceled
  {
    CancelCloses(w, 6);
    assert !IsLent(w, 0);
  }

  lemma QueuedIsInvariant(w: World)
    requires w == World(map[0 := Rec(NOWHERE, Pending, None)], map[],
                        map[5 := Retrying(0, NOWHERE), 6 := Canceling(0, Pending)], {}, {}, {})
    ensures w in ALLOWED
  {
    forall p: Place | p.backend != NO_BACKEND ensures BooksAt(w, p) {
      assert Counted(w, p) == {} && Holders(w, p) == {};
    }
  }

  lemma TwoRecordsBooks(w: World, p: Place)
    requires w.store.Keys == {0, 1} && w.sched == map[HERE := 2]
    requires InUseAt(w.store[0], HERE) && InUseAt(w.store[1], HERE)
    requires forall c | At(w, c) :: !HoldsAt(w.calls[c], p) && !Lends(w.calls[c], 0) && !Lends(w.calls[c], 1)
    ensures BooksAt(w, p)
  {
    assert !IsLent(w, 0) && !IsLent(w, 1);
    assert Counted(w, p) == if p == HERE then {0, 1} else {};
    forall c ensures c !in Holders(w, p) {
      if c in w.calls { assert At(w, c); }
    }
    assert Holders(w, p) == {};
  }

  lemma HandoffGoesOn(released: World, deleted: World)
    requires released.store == map[0 := Rec(HERE, Canceled, None), 1 := Rec(HERE, Ready, Some(7))]
    requires released.sched == map[HERE := 0] && At(released, 5)
    requires released.calls[5] == Emptying(0, HERE, 1, Rec(HERE, Ready, Some(7)))
    requires deleted == released.(store := map[1 := Rec(HERE, Ready, Some(7))],
                                  calls := released.calls[5 := Renaming(HERE, 1, Rec(HERE, Ready, Some(7)))])
    ensures Enabled(released, HandDelete(5)) && Next(released, HandDelete(5)) == deleted
    ensures Enabled(deleted, HandSave(5))
    ensures var end := Next(deleted, HandSave(5)); Get(end.sched, HERE) == 0 && Stands(end, 1, Ready)
  {
    DeleteInHandoff(released, deleted);
    SaveInHandoff(deleted, 5);
  }

  lemma ReleaseInHandoff(canceled: World, released: World)
    requires canceled.sched == map[HERE := 1] && At(canceled, 6) && canceled.calls[6] == Owing(HERE, None)
    requires released == canceled.(sched := map[HERE := 0], calls := canceled.calls[6 := Cleaning(None)])
    ensures Enabled(canceled, Release(6)) && Careful(canceled, Release(6)) && Next(canceled, Release(6)) == released
  {
    ReleaseOne(canceled, 6, None, 1);
  }

  /** A consumer's reservation is canceled while a warm runner is being handed to it: the handoff has given a
      slot back, the cancel gives another, and the runner is in use with no slot counted. */
  lemma HandoffFreesTwice(w: World, canceled: World, released: World, deleted: World)
    requires w == World(map[0 := Rec(HERE, Reserved, None), 1 := Rec(HERE, Ready, Some(7))], map[HERE := 1],
                        map[5 := Emptying(0, HERE, 1, Rec(HERE, Ready, Some(7))), 6 := Canceling(0, Reserved)],
                        {7}, {}, {1})
    requires canceled == w.(store := map[0 := Rec(HERE, Canceled, None), 1 := Rec(HERE, Ready, Some(7))],
                            calls := w.calls[6 := Owing(HERE, None)])
    requires released == canceled.(sched := map[HERE := 0], calls := canceled.calls[6 := Cleaning(None)])
    requires deleted == released.(store := map[1 := Rec(HERE, Ready, Some(7))],
                                  calls := released.calls[5 := Renaming(HERE, 1, Rec(HERE, Ready, Some(7)))])
    ensures w in ALLOWED
    ensures Enabled(w, CancelSwap(6)) && Careful(w, CancelSwap(6)) && Next(w, CancelSwap(6)) == canceled
    ensures Enabled(canceled, Release(6)) && Careful(canceled, Release(6)) && Next(canceled, Release(6)) == released
    ensures Enabled(released, HandDelete(5)) && Next(released, HandDelete(5)) == deleted
    ensures Enabled(deleted, HandSave(5))
    ensures var end := Next(deleted, HandSave(5)); Get(end.sched, HERE) == 0 && Stands(end, 1, Ready)
  {
    EmptyingIsInvariant(w);
    CancelInHandoff(w, canceled);
    ReleaseInHandoff(canceled, released);
    HandoffGoesOn(released, deleted);
  }

  lemma SaveInHandoff(w: World, c: CallId)
    requires At(w, c) && w.calls[c] == Renaming(HERE, 1, Rec(HERE, Ready, Some(7)))
    ensures Enabled(w, HandSave(c)) && Next(w, HandSave(c)).sched == w.sched && Stands(Next(w, HandSave(c)), 1, Ready)
  {
    HandSaves(w, c);
  }

  lemma CancelInHandoff(w: World, canceled: World)
    requires w.store == map[0 := Rec(HERE, Reserved, None), 1 := Rec(HERE, Ready, Some(7))]
    requires w.calls == map[5 := Emptying(0, HERE, 1, Rec(HERE, Ready, Some(7))), 6 := Canceling(0, Reserved)]
    requires canceled == w.(store := map[0 := Rec(HERE, Canceled, None), 1 := Rec(HERE, Ready, Some(7))],
                            calls := w.calls[6 := Owing(HERE, None)])
    ensures Enabled(w, CancelSwap(6)) && Careful(w, CancelSwap(6)) && Next(w, CancelSwap(6)) == canceled
  {
    CancelCloses(w, 6);
    assert w.store[0 := Rec(HERE, Canceled, None)] == canceled.store;
  }

  lemma DeleteInHandoff(released: World, deleted: World)
    requires released.store == map[0 := Rec(HERE, Canceled, None), 1 := Rec(HERE, Ready, Some(7))]
    requires At(released, 5) && released.calls[5] == Emptying(0, HERE, 1, Rec(HERE, Ready, Some(7)))
    requires deleted == released.(store := map[1 := Rec(HERE, Ready, Some(7))],
                                  calls := released.calls[5 := Renaming(HERE, 1, Rec(HERE, Ready, Some(7)))])
    ensures Enabled(released, HandDelete(5)) && Next(released, HandDelete(5)) == deleted
  {
    HandDeletes(released, 5);
    assert released.store - {0} == deleted.store;
  }

  lemma EmptyingIsInvariant(w: World)
    requires w == World(map[0 := Rec(HERE, Reserved, None), 1 := Rec(HERE, Ready, Some(7))], map[HERE := 1],
                        map[5 := Emptying(0, HERE, 1, Rec(HERE, Ready, Some(7))), 6 := Canceling(0, Reserved)],
                        {7}, {}, {1})
    ensures w in ALLOWED
  {
    forall p: Place ensures BooksAt(w, p) { EmptyingBooks(w, p); }
    assert Serves(w.store[1], 7);
    EmptyingIsOwned(w);
  }

  lemma EmptyingBooks(w: World, p: Place)
    requires w.store == map[0 := Rec(HERE, Reserved, None), 1 := Rec(HERE, Ready, Some(7))] && w.sched == map[HERE := 1]
    requires w.calls == map[5 := Emptying(0, HERE, 1, Rec(HERE, Ready, Some(7))), 6 := Canceling(0, Reserved)]
    ensures BooksAt(w, p)
  {
    assert Lends(w.calls[5], 1) && !IsLent(w, 0);
    assert Counted(w, p) == if p == HERE then {0} else {};
    forall c ensures c !in Holders(w, p) {
      if c in w.calls { assert At(w, c); }
    }
    assert Holders(w, p) == {};
  }

  lemma EmptyingIsOwned(w: World)
    requires w.store == map[0 := Rec(HERE, Reserved, None), 1 := Rec(HERE, Ready, Some(7))] && w.warmed == {1}
    requires w.calls == map[5 := Emptying(0, HERE, 1, Rec(HERE, Ready, Some(7))), 6 := Canceling(0, Reserved)]
    ensures Ownership(w)
  {
  }

  /** Canceling a queued record that names a backend frees the slot of a running neighbour. */
  lemma QueuedCancelFreesANeighbour(w: World)
    requires w == World(map[0 := Rec(HERE, Pending, None), 1 := Rec(HERE, Ready, Some(8))], map[HERE := 1],
                        map[5 := Canceling(0, Pending)], {8}, {}, {})
    ensures Enabled(w, CancelSwap(5)) && Enabled(Next(w, CancelSwap(5)), Release(5))
    ensures var end := Next(Next(w, CancelSwap(5)), Release(5)); Get(end.sched, HERE) == 0 && Stands(end, 1, Ready)
  {
    CancelCloses(w, 5);
    ReleaseLowers(Next(w, CancelSwap(5)), 5);
  }

  /** A completion that read before a cancel won frees the slot a second time. */
  lemma LateCompletionFreesTwice(w: World, canceled: World, closed: World)
    requires w == World(map[0 := Rec(HERE, Ready, Some(7)), 1 := Rec(HERE, Ready, Some(8))], map[HERE := 2],
                        map[5 := Canceling(0, Ready), 6 := Marking(0, Rec(HERE, Ready, Some(7)), Completed)],
                        {7, 8}, {}, {})
    requires canceled == w.(store := w.store[0 := Rec(HERE, Canceled, Some(7))],
                            calls := w.calls[5 := Owing(HERE, Some(7))])
    requires closed == canceled.(store := canceled.store[0 := Rec(HERE, Completed, Some(7))],
                                 calls := canceled.calls[6 := Owing(HERE, Some(7))])
    ensures w in ALLOWED
    ensures Enabled(w, CancelSwap(5)) && Careful(w, CancelSwap(5)) && Next(w, CancelSwap(5)) == canceled
    ensures Enabled(canceled, MarkWrite(6)) && Next(canceled, MarkWrite(6)) == closed
    ensures Enabled(closed, Release(5)) && Enabled(Next(closed, Release(5)), Release(6))
    ensures var end := Next(Next(closed, Release(5)), Release(6)); Get(end.sched, HERE) == 0 && Stands(end, 1, Ready)
  {
    LateIsInvariant(w);
    LateCancels(w, canceled);
    LateMarks(canceled, closed);
    LateReleases(closed);
  }

  lemma LateMarks(canceled: World, closed: World)
    requires Stands(canceled, 0, Canceled) && At(canceled, 6)
    requires canceled.store[0] == Rec(HERE, Canceled, Some(7))
    requires canceled.calls[6] == Marking(0, Rec(HERE, Ready, Some(7)), Completed)
    requires closed == canceled.(store := canceled.store[0 := Rec(HERE, Completed, Some(7))],
                                 calls := canceled.calls[6 := Owing(HERE, Some(7))])
    ensures Enabled(canceled, MarkWrite(6)) && Next(canceled, MarkWrite(6)) == closed
  {
    MarkCloses(canceled, 6);
  }

  lemma LateCancels(w: World, canceled: World)
    requires w.store == map[0 := Rec(HERE, Ready, Some(7)), 1 := Rec(HERE, Ready, Some(8))]
    requires w.calls == map[5 := Canceling(0, Ready), 6 := Marking(0, Rec(HERE, Ready, Some(7)), Completed)]
    requires canceled == w.(store := w.store[0 := Rec(HERE, Canceled, Some(7))],
                            calls := w.calls[5 := Owing(HERE, Some(7))])
    ensures Enabled(w, CancelSwap(5)) && Careful(w, CancelSwap(5)) && Next(w, CancelSwap(5)) == canceled
  {
    CancelCloses(w, 5);
    assert !IsLent(w, 0);
  }

  lemma LateReleases(w: World)
    requires w.sched == map[HERE := 2] && At(w, 5) && w.calls[5] == Owing(HERE, Some(7))
    requires At(w, 6) && w.calls[6] == Owing(HERE, Some(7)) && Stands(w, 1, Ready)
    ensures Enabled(w, Release(5)) && Enabled(Next(w, Release(5)), Release(6))
    ensures var end := Next(Next(w, Release(5)), Release(6)); Get(end.sched, HERE) == 0 && Stands(end, 1, Ready)
  {
    ReleaseLowers(w, 5);
    ReleaseLowers(Next(w, Release(5)), 6);
  }

  lemma LateIsInvariant(w: World)
    requires w == World(map[0 := Rec(HERE, Ready, Some(7)), 1 := Rec(HERE, Ready, Some(8))], map[HERE := 2],
                        map[5 := Canceling(0, Ready), 6 := Marking(0, Rec(HERE, Ready, Some(7)), Completed)],
                        {7, 8}, {}, {})
    ensures w in ALLOWED
  {
    forall p: Place ensures BooksAt(w, p) { TwoRecordsBooks(w, p); }
    assert Serves(w.store[0], 7) && Serves(w.store[1], 8);
  }

  /** An expiry that read the record before its runner was placed keeps the books and loses the runner: it
      tears down what it read, which has no label. */
  lemma LateExpiryOrphansARunner(w: World)
    requires w == World(map[0 := Rec(HERE, Ready, Some(7))], map[HERE := 1],
                        map[6 := Marking(0, Rec(HERE, Reserved, None), Expired)], {7}, {}, {})
    ensures w in ALLOWED
    ensures Enabled(w, MarkWrite(6))
    ensures Books(Next(w, MarkWrite(6))) && !Custody(Next(w, MarkWrite(6)))
  {
    ExpiringIsInvariant(w);
    MarkCloses(w, 6);
    forall p: Place ensures BooksAt(Next(w, MarkWrite(6)), p) {
      OneRecordBooks(w, p, Rec(HERE, Ready, Some(7)));
      MarkBalances(w, 6, p);
      assert 0 in Counted(w, p) <==> p == HERE;
    }
    assert !Safe(Next(w, MarkWrite(6)), 7);
  }

  lemma ExpiringIsInvariant(w: World)
    requires w == World(map[0 := Rec(HERE, Ready, Some(7))], map[HERE := 1],
                        map[6 := Marking(0, Rec(HERE, Reserved, None), Expired)], {7}, {}, {})
    ensures w in ALLOWED
  {
    forall p: Place ensures BooksAt(w, p) { OneRecordBooks(w, p, Rec(HERE, Ready, Some(7))); }
    assert Serves(w.store[0], 7);
  }

  /** Completing a warm record leaves its slot counted with nothing left to release it, and its runner
      with nothing left to tear it down. */
  lemma WarmCompletionLeaksTheSlot(w: World)
    requires w == World(map[0 := Rec(HERE, Warm, Some(7))], map[HERE := 1],
                        map[6 := Marking(0, Rec(HERE, Warm, Some(7)), Completed)], {7}, {}, {0})
    ensures Enabled(w, MarkWrite(6))
    ensures var end := Next(w, MarkWrite(6));
            Get(end.sched, HERE) == 1 && end.calls == map[] && Counted(end, HERE) == {} && !Custody(end)
  {
    MarkCloses(w, 6);
    assert !Safe(Next(w, MarkWrite(6)), 7);
  }
}
