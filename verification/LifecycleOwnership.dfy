/** Who is responsible for which record: what holds whatever the calls do, and what careful calls keep. */
module LifecycleOwnership {
  import opened Basics
  import opened Model
  import opened Lifecycle

  // ------------------------------------------------------- whatever the calls do

  /** The call goes on with an id it owned, or with one that nobody owns. */
  ghost predicate OwnsLawfully(w: World, c: CallId, e: Effect) {
    forall id | e.call.Some? && Owns(e.call.value, id) :: (At(w, c) && Owns(w.calls[c], id)) || IsFree(w, id)
  }

  /** A warm id is a new one. */
  ghost predicate WarmsLawfully(w: World, e: Effect) {
    forall id <- e.warmed :: IsFree(w, id) && id !in w.store && !IsNoted(w, id)
  }

  /** A record that is written is sound, and is not one that another call is about to create. */
  ghost predicate WritesLawfully(w: World, c: CallId, e: Effect) {
    e.write.Put? ==>
      && Sound(w, e.write.id, e.write.rec) && e.warmed == {}
      && (e.write.id !in w.store ==>
            forall d | At(w, d) && d != c :: !(Warms(w.calls[d]) && w.calls[d].id == e.write.id))
  }

  ghost predicate IsLawful(w: World, c: CallId, e: Effect) {
    OwnsLawfully(w, c, e) && WarmsLawfully(w, e) && WritesLawfully(w, c, e)
  }

  lemma OwnerWas(w: World, c: CallId, e: Effect, d: CallId, id: AllocationId)
    requires OwnsLawfully(w, c, e) && At(Applied(w, c, e), d) && Owns(Applied(w, c, e).calls[d], id)
    ensures (At(w, d) && Owns(w.calls[d], id)) || (d == c && IsFree(w, id))
  {
  }

  lemma OwnersStayUnique(w: World, c: CallId, e: Effect, i: CallId, j: CallId, id: AllocationId)
    requires Typed(w) && OwnsLawfully(w, c, e)
    requires var w' := Applied(w, c, e); At(w', i) && At(w', j) && Owns(w'.calls[i], id) && Owns(w'.calls[j], id)
    ensures i == j
  {
    OwnerWas(w, c, e, i, id);
    OwnerWas(w, c, e, j, id);
  }

  /** Nobody takes a prewarmed id that nobody owns. */
  lemma WarmStaysUnowned(w: World, c: CallId, e: Effect, id: AllocationId)
    requires OwnsLawfully(w, c, e) && id in w.warmed && Unowned(w, id)
    ensures Unowned(Applied(w, c, e), id)
  {
    var w' := Applied(w, c, e);
    forall d | At(w', d) ensures !Owns(w'.calls[d], id) {
      if Owns(w'.calls[d], id) { OwnerWas(w, c, e, d, id); }
    }
  }

  lemma BystanderStaysShaped(w: World, c: CallId, e: Effect, d: CallId)
    requires Typed(w) && IsLawful(w, c, e) && At(w, d) && d != c
    ensures Shaped(Applied(w, c, e), w.calls[d])
  {
    var call, w' := w.calls[d], Applied(w, c, e);
    assert Shaped(w, call);
    if Warms(call) || Serving(call) { assert Owns(call, call.id) && !Unowned(w, call.id); }
    if call.Choosing? || call.Handing? || call.Emptying? || call.Renaming? { WarmStaysUnowned(w, c, e, call.warm); }
    if call.Noting? {
      assert Notes(call, call.id) && IsNoted(w, call.id);
      if call.id in w.warmed { WarmStaysUnowned(w, c, e, call.id); }
    }
  }

  lemma RecordsStaySound(w: World, c: CallId, e: Effect, id: AllocationId)
    requires Typed(w) && IsLawful(w, c, e) && id in Applied(w, c, e).store
    ensures Sound(Applied(w, c, e), id, Applied(w, c, e).store[id])
  {
    if id in w.store { assert Sound(w, id, w.store[id]); }
  }

  /** A lawful effect keeps ids apart. */
  lemma LawfulKeepsTyped(w: World, c: CallId, e: Effect)
    requires Typed(w) && IsLawful(w, c, e) && (e.call.Some? ==> Shaped(Applied(w, c, e), e.call.value))
    ensures Typed(Applied(w, c, e))
  {
    var w' := Applied(w, c, e);
    forall i, j, id | At(w', i) && At(w', j) && Owns(w'.calls[i], id) && Owns(w'.calls[j], id) ensures i == j {
      OwnersStayUnique(w, c, e, i, j, id);
    }
    forall d | At(w', d) ensures Shaped(w', w'.calls[d]) {
      if d != c { BystanderStaysShaped(w, c, e, d); }
    }
    forall id | id in w'.store ensures Sound(w', id, w'.store[id]) {
      RecordsStaySound(w, c, e, id);
    }
  }

  lemma RequestIsLawful(w: World, s: Step)
    requires Typed(w) && Enabled(w, s) && !Queues(s) && !Closes(s) && !Pools(s) && !Hands(s)
    ensures IsLawful(w, s.c, EffectOf(w, s))
  {
    if At(w, s.c) { assert Shaped(w, w.calls[s.c]); }
  }

  lemma QueueIsLawful(w: World, s: Step)
    requires Typed(w) && Enabled(w, s) && Queues(s)
    ensures IsLawful(w, s.c, EffectOf(w, s))
  {
    if At(w, s.c) { assert Shaped(w, w.calls[s.c]); }
    if s.GiveUp? || s.DropDemand? { assert Sound(w, s.id, w.store[s.id]); }
  }

  lemma CloseIsLawful(w: World, s: Step)
    requires Typed(w) && Enabled(w, s) && Closes(s)
    ensures IsLawful(w, s.c, EffectOf(w, s))
  {
    if s.NoteWrite? || s.NoteSwap? {
      NoteIsLawful(w, s);
    } else if s.CancelSwap? || s.MarkWrite? || s.RecheckMark? {
      ShutIsLawful(w, s);
    }
  }

  lemma ShutIsLawful(w: World, s: Step)
    requires Typed(w) && Enabled(w, s) && (s.CancelSwap? || s.MarkWrite? || s.RecheckMark?)
    ensures IsLawful(w, s.c, EffectOf(w, s))
  {
    var id := w.calls[s.c].id;
    assert Shaped(w, w.calls[s.c]);
    if id in w.store { assert Sound(w, id, w.store[id]); }
  }

  lemma NoteIsLawful(w: World, s: Step)
    requires Typed(w) && Enabled(w, s) && (s.NoteWrite? || s.NoteSwap?)
    ensures IsLawful(w, s.c, EffectOf(w, s))
  {
    assert Shaped(w, w.calls[s.c]);
    NotedIsKnown(w, s.c);
  }

  /** What may be written back is not the record another call is about to create. */
  lemma NotedIsKnown(w: World, c: CallId)
    requires Typed(w) && At(w, c) && w.calls[c].Noting?
    ensures forall d | At(w, d) :: !(Warms(w.calls[d]) && w.calls[d].id == w.calls[c].id)
  {
    assert Shaped(w, w.calls[c]);
    forall d | At(w, d) ensures !(Warms(w.calls[d]) && w.calls[d].id == w.calls[c].id) {
      assert Shaped(w, w.calls[d]) && (Warms(w.calls[d]) ==> Owns(w.calls[d], w.calls[d].id));
    }
  }

  lemma PoolIsLawful(w: World, s: Step)
    requires Typed(w) && Enabled(w, s) && Pools(s)
    ensures IsLawful(w, s.c, EffectOf(w, s))
  {
    if s.SaveWarm? {
      SaveWarmIsLawful(w, s.c);
    } else if s.RecycleMark? {
      if w.calls[s.c].id in w.store { assert Sound(w, w.calls[s.c].id, w.store[w.calls[s.c].id]); }
    }
  }

  lemma SaveWarmIsLawful(w: World, c: CallId)
    requires Typed(w) && Enabled(w, SaveWarm(c))
    ensures IsLawful(w, c, EffectOf(w, SaveWarm(c)))
  {
    assert Shaped(w, w.calls[c]);
    WarmIsItsOwn(w, c);
  }

  lemma WarmIsItsOwn(w: World, c: CallId)
    requires Typed(w) && At(w, c) && Warms(w.calls[c])
    ensures forall d | At(w, d) && d != c :: !(Warms(w.calls[d]) && w.calls[d].id == w.calls[c].id)
  {
    forall d | At(w, d) && d != c ensures !(Warms(w.calls[d]) && w.calls[d].id == w.calls[c].id) {
      assert Owns(w.calls[c], w.calls[c].id) && (Warms(w.calls[d]) ==> Owns(w.calls[d], w.calls[d].id));
    }
  }

  lemma HandIsLawful(w: World, s: Step)
    requires Typed(w) && Enabled(w, s) && Hands(s)
    ensures IsLawful(w, s.c, EffectOf(w, s))
  {
    assert Shaped(w, w.calls[s.c]);
    if s.ClaimWarm? && w.calls[s.c].warm in w.store { assert Sound(w, w.calls[s.c].warm, w.store[w.calls[s.c].warm]); }
  }

  lemma StepIsLawful(w: World, s: Step)
    requires Typed(w) && Enabled(w, s)
    ensures IsLawful(w, s.c, EffectOf(w, s))
  {
    if Queues(s) {
      QueueIsLawful(w, s);
    } else if Closes(s) {
      CloseIsLawful(w, s);
    } else if Pools(s) {
      PoolIsLawful(w, s);
    } else if Hands(s) {
      HandIsLawful(w, s);
    } else {
      RequestIsLawful(w, s);
    }
  }

  lemma NewCallIsShaped(w: World, s: Step)
    requires Typed(w) && Enabled(w, s) && EffectOf(w, s).call.Some?
    ensures Shaped(Next(w, s), EffectOf(w, s).call.value)
  {
    if Hands(s) {
      NewHandIsShaped(w, s);
    } else if Closes(s) {
      NewCloseIsShaped(w, s);
    } else if Pools(s) {
      NewPoolIsShaped(w, s);
    } else {
      NewRequestIsShaped(w, s);
    }
  }

  lemma NewRequestIsShaped(w: World, s: Step)
    requires Typed(w) && Enabled(w, s) && !Closes(s) && !Pools(s) && !Hands(s) && EffectOf(w, s).call.Some?
    ensures Shaped(Next(w, s), EffectOf(w, s).call.value)
  {
    if At(w, s.c) { assert Shaped(w, w.calls[s.c]); }
  }

  lemma NewPoolIsShaped(w: World, s: Step)
    requires Typed(w) && Enabled(w, s) && Pools(s) && EffectOf(w, s).call.Some?
    ensures Shaped(Next(w, s), EffectOf(w, s).call.value)
  {
    if s.PrewarmOk? {
      NewWarmIsShaped(w, s);
    } else if s.Prewarm? {
      assert EffectOf(w, s) == Effect(Some(Prewarming(s.id, s.place)), Keep, Take(s.place), {}, {}, {s.id});
    }
  }

  lemma NewWarmIsShaped(w: World, s: Step)
    requires Typed(w) && Enabled(w, s) && s.PrewarmOk?
    ensures Shaped(Next(w, s), EffectOf(w, s).call.value)
  {
    assert Shaped(w, w.calls[s.c]);
    assert EffectOf(w, s) == Bears(Prewarmed(w.calls[s.c].id, w.calls[s.c].place, s.runner), s.runner);
  }

  lemma NewHandIsShaped(w: World, s: Step)
    requires Typed(w) && Enabled(w, s) && Hands(s) && EffectOf(w, s).call.Some?
    ensures Shaped(Next(w, s), EffectOf(w, s).call.value)
  {
    HandIsLawful(w, s);
    if s.ChooseWarm? {
      NewChoiceIsShaped(w, s);
    } else {
      var warm := w.calls[s.c].warm;
      assert Shaped(w, w.calls[s.c]);
      if warm in w.store { assert Sound(w, warm, w.store[warm]); }
      WarmStaysUnowned(w, s.c, EffectOf(w, s), warm);
    }
  }

  lemma NewChoiceIsShaped(w: World, s: Step)
    requires Typed(w) && Enabled(w, s) && s.ChooseWarm? && OwnsLawfully(w, s.c, EffectOf(w, s))
    ensures Shaped(Next(w, s), Choosing(w.calls[s.c].id, w.calls[s.c].place, s.warm))
  {
    assert Shaped(w, w.calls[s.c]) && Sound(w, s.warm, w.store[s.warm]);
    StoredWarmIsUnowned(w, s.warm);
    WarmStaysUnowned(w, s.c, EffectOf(w, s), s.warm);
  }

  lemma StoredWarmIsUnowned(w: World, id: AllocationId)
    requires Typed(w) && id in w.store && id in w.warmed
    ensures Unowned(w, id)
  {
    forall c | At(w, c) ensures !Owns(w.calls[c], id) {
      assert Shaped(w, w.calls[c]);
    }
  }

  lemma NewCloseIsShaped(w: World, s: Step)
    requires Typed(w) && Enabled(w, s) && Closes(s) && EffectOf(w, s).call.Some?
    ensures Shaped(Next(w, s), EffectOf(w, s).call.value)
  {
    if s.NoteRead? { NewNoteIsShaped(w, s); }
  }

  lemma NewNoteIsShaped(w: World, s: Step)
    requires Typed(w) && Enabled(w, s) && s.NoteRead?
    ensures Shaped(Next(w, s), Noting(s.id, w.store[s.id]))
  {
    assert Sound(w, s.id, w.store[s.id]);
    var e := EffectOf(w, s);
    assert e == Goes(Noting(s.id, w.store[s.id]));
    if s.id in w.warmed {
      StoredWarmIsUnowned(w, s.id);
      WarmStaysUnowned(w, s.c, e, s.id);
    }
  }

  lemma StepKeepsTyped(w: World, s: Step)
    requires Typed(w) && Enabled(w, s)
    ensures Typed(Next(w, s))
  {
    StepIsLawful(w, s);
    if EffectOf(w, s).call.Some? { NewCallIsShaped(w, s); }
    LawfulKeepsTyped(w, s.c, EffectOf(w, s));
  }

  // ------------------------------------------------------ what careful calls keep

  /** A call goes after a warm record that it was after, or that nobody is. */
  ghost predicate EyesFairly(w: World, c: CallId, e: Effect) {
    forall id | e.call.Some? && Eyes(e.call.value, id) :: (At(w, c) && Eyes(w.calls[c], id)) || !IsEyed(w, id)
  }

  /** The record stays as it was, or no other call relies on it. */
  ghost predicate WritesFairly(w: World, c: CallId, e: Effect) {
    match e.write
    case Keep => true
    case Put(id, rec) =>
      || (id in w.store && w.store[id] == rec)
      || forall d | At(w, d) && d != c ::
           && (rec.state.Accounted() ==> !Owns(w.calls[d], id))
           && !Lends(w.calls[d], id) && (rec.state == Warm ==> !Eyes(w.calls[d], id))
    case Drop(ids) => forall d, id | At(w, d) && d != c && id in ids :: !Lends(w.calls[d], id)
  }

  lemma EyesStayUnique(w: World, c: CallId, e: Effect, i: CallId, j: CallId, id: AllocationId)
    requires Tidy(w) && EyesFairly(w, c, e)
    requires var w' := Applied(w, c, e); At(w', i) && At(w', j) && Eyes(w'.calls[i], id) && Eyes(w'.calls[j], id)
    ensures i == j
  {
    if i != c { assert At(w, i) && Eyes(w.calls[i], id) && IsEyed(w, id); }
    if j != c { assert At(w, j) && Eyes(w.calls[j], id) && IsEyed(w, id); }
  }

  lemma BystanderStaysTight(w: World, c: CallId, e: Effect, d: CallId)
    requires Tidy(w) && WritesFairly(w, c, e) && At(w, d) && d != c
    ensures Tight(Applied(w, c, e), w.calls[d])
  {
    var call := w.calls[d];
    assert Tight(w, call);
    if Serving(call) { assert Owns(call, call.id); }
    if call.Handing? { assert Eyes(call, call.warm); }
    if call.Emptying? || call.Renaming? { assert Lends(call, call.warm); }
  }

  lemma FairKeepsTidy(w: World, c: CallId, e: Effect)
    requires Tidy(w) && EyesFairly(w, c, e) && WritesFairly(w, c, e)
    requires e.call.Some? ==> Tight(Applied(w, c, e), e.call.value)
    ensures Tidy(Applied(w, c, e))
  {
    var w' := Applied(w, c, e);
    forall i, j, id | At(w', i) && At(w', j) && Eyes(w'.calls[i], id) && Eyes(w'.calls[j], id) ensures i == j {
      EyesStayUnique(w, c, e, i, j, id);
    }
    forall d | At(w', d) ensures Tight(w', w'.calls[d]) {
      if d != c { BystanderStaysTight(w, c, e, d); }
    }
  }

  lemma LentIsIntact(w: World, id: AllocationId)
    requires Ownership(w) && IsLent(w, id)
    ensures id in w.warmed && id in w.store && w.store[id].state == Ready && Unowned(w, id)
  {
    var c :| At(w, c) && Lends(w.calls[c], id);
    assert Shaped(w, w.calls[c]) && Tight(w, w.calls[c]);
  }

  lemma EyedIsUnowned(w: World, c: CallId, id: AllocationId)
    requires Ownership(w) && At(w, c) && Eyes(w.calls[c], id)
    ensures id in w.warmed && Unowned(w, id)
    ensures forall d | At(w, d) && d != c :: !Eyes(w.calls[d], id) && !Lends(w.calls[d], id)
  {
    assert Shaped(w, w.calls[c]);
    forall d | At(w, d) && d != c ensures !Eyes(w.calls[d], id) && !Lends(w.calls[d], id) {
      assert !Eyes(w.calls[d], id);
    }
  }

  /** No other call relies on what a call owns. */
  lemma OwnedIsUneyed(w: World, c: CallId, id: AllocationId)
    requires Typed(w) && At(w, c) && Owns(w.calls[c], id)
    ensures forall d | At(w, d) :: !Eyes(w.calls[d], id) && !Lends(w.calls[d], id) && (d != c ==> !Owns(w.calls[d], id))
  {
    assert Shaped(w, w.calls[c]);
    forall d | At(w, d)
      ensures !Eyes(w.calls[d], id) && !Lends(w.calls[d], id) && (d != c ==> !Owns(w.calls[d], id))
    {
      assert Shaped(w, w.calls[d]);
    }
  }

  /** Nor on a record that is not in use, but as one that is not. */
  lemma UnusedIsUnlent(w: World, id: AllocationId)
    requires Ownership(w) && (NotInUse(w, id) || id !in w.warmed || Stands(w, id, Warm))
    ensures !IsLent(w, id)
  {
    forall d | At(w, d) ensures !Lends(w.calls[d], id) {
      assert Shaped(w, w.calls[d]) && Tight(w, w.calls[d]);
    }
  }

  lemma UnlentForAll(w: World, id: AllocationId)
    requires !IsLent(w, id)
    ensures forall d | At(w, d) :: !Lends(w.calls[d], id)
  {
  }

  lemma OwnWriteIsFair(w: World, s: Step)
    requires Ownership(w) && Enabled(w, s) && !Queues(s) && !Closes(s) && !Pools(s) && !Hands(s)
    ensures WritesFairly(w, s.c, EffectOf(w, s))
  {
    if At(w, s.c) && !s.Discard? { OwnedIsUneyed(w, s.c, w.calls[s.c].id); }
  }

  lemma QueueWriteIsFair(w: World, s: Step)
    requires Ownership(w) && Enabled(w, s) && Queues(s)
    ensures WritesFairly(w, s.c, EffectOf(w, s))
  {
    var id := if s.RetrySave? || s.RetryReserve? || s.RetryEnd? then w.calls[s.c].id else s.id;
    if At(w, s.c) { assert Shaped(w, w.calls[s.c]); }
    UnusedIsUnlent(w, id);
    UnlentForAll(w, id);
  }

  lemma CloseWriteIsFair(w: World, s: Step)
    requires Ownership(w) && Enabled(w, s) && Careful(w, s) && Closes(s)
    ensures WritesFairly(w, s.c, EffectOf(w, s))
  {
    if s.Prune? {
      PruneIsFair(w, s);
    } else if s.RecheckMark? {
      RecheckIsFair(w, s.c);
    } else if s.CancelSwap? || s.MarkWrite? {
      ShutIsFair(w, s);
    }
  }

  lemma RecheckIsFair(w: World, c: CallId)
    requires Ownership(w) && Enabled(w, RecheckMark(c)) && Careful(w, RecheckMark(c))
    ensures WritesFairly(w, c, EffectOf(w, RecheckMark(c)))
  {
    UnusedIsUnlent(w, w.calls[c].id);
    UnlentForAll(w, w.calls[c].id);
  }

  lemma PruneIsFair(w: World, s: Step)
    requires Ownership(w) && Enabled(w, s) && s.Prune?
    ensures WritesFairly(w, s.c, EffectOf(w, s))
  {
    forall d, id | At(w, d) && d != s.c && id in s.ids ensures !Lends(w.calls[d], id) {
      UnusedIsUnlent(w, id);
    }
  }

  lemma ShutIsFair(w: World, s: Step)
    requires Typed(w) && Enabled(w, s) && Careful(w, s) && (s.CancelSwap? || s.MarkWrite?)
    ensures WritesFairly(w, s.c, EffectOf(w, s))
  {
    assert Shaped(w, w.calls[s.c]);
    if !IsLent(w, w.calls[s.c].id) { UnlentForAll(w, w.calls[s.c].id); }
  }

  lemma PoolWriteIsFair(w: World, s: Step)
    requires Ownership(w) && Enabled(w, s) && Careful(w, s) && Pools(s)
    ensures WritesFairly(w, s.c, EffectOf(w, s))
  {
    if s.SaveWarm? {
      SaveWarmIsFair(w, s.c);
    } else if s.RecycleMark? {
      RecycleIsFair(w, s.c);
    }
  }

  lemma SaveWarmIsFair(w: World, c: CallId)
    requires Typed(w) && Enabled(w, SaveWarm(c))
    ensures WritesFairly(w, c, EffectOf(w, SaveWarm(c)))
  {
    OwnedIsUneyed(w, c, w.calls[c].id);
  }

  lemma RecycleIsFair(w: World, c: CallId)
    requires Ownership(w) && Enabled(w, RecycleMark(c)) && Careful(w, RecycleMark(c))
    ensures WritesFairly(w, c, EffectOf(w, RecycleMark(c)))
  {
    var id := w.calls[c].id;
    if id in w.store {
      UnusedIsUnlent(w, id);
      UnlentForAll(w, id);
    }
  }

  lemma HandWriteIsFair(w: World, s: Step)
    requires Ownership(w) && Enabled(w, s) && Careful(w, s) && Hands(s)
    ensures WritesFairly(w, s.c, EffectOf(w, s))
  {
    if s.ClaimWarm? {
      ClaimIsFair(w, s.c);
    } else if s.HandSave? {
      RenamingIsFair(w, s.c);
    } else if s.HandDelete? {
      DeleteIsFair(w, s.c);
    }
  }

  lemma ClaimIsFair(w: World, c: CallId)
    requires Ownership(w) && Enabled(w, ClaimWarm(c))
    ensures WritesFairly(w, c, EffectOf(w, ClaimWarm(c)))
  {
    EyedIsUnowned(w, c, w.calls[c].warm);
  }

  lemma DeleteIsFair(w: World, c: CallId)
    requires Ownership(w) && Enabled(w, HandDelete(c))
    ensures WritesFairly(w, c, EffectOf(w, HandDelete(c)))
  {
    OwnedIsUneyed(w, c, w.calls[c].id);
    assert EffectOf(w, HandDelete(c)).write == Drop({w.calls[c].id});
  }

  lemma RenamingIsFair(w: World, c: CallId)
    requires Ownership(w) && Enabled(w, HandSave(c))
    ensures WritesFairly(w, c, EffectOf(w, HandSave(c)))
  {
    EyedIsUnowned(w, c, w.calls[c].warm);
  }

  lemma StepWritesFairly(w: World, s: Step)
    requires Ownership(w) && Enabled(w, s) && Careful(w, s)
    ensures WritesFairly(w, s.c, EffectOf(w, s))
  {
    if Queues(s) {
      QueueWriteIsFair(w, s);
    } else if Closes(s) {
      CloseWriteIsFair(w, s);
    } else if Pools(s) {
      PoolWriteIsFair(w, s);
    } else if Hands(s) {
      HandWriteIsFair(w, s);
    } else {
      OwnWriteIsFair(w, s);
    }
  }

  lemma StepEyesFairly(w: World, s: Step)
    requires Ownership(w) && Enabled(w, s)
    ensures EyesFairly(w, s.c, EffectOf(w, s))
  {
    if s.ChooseWarm? {
      forall d | At(w, d) ensures !Eyes(w.calls[d], s.warm) {
        assert Tight(w, w.calls[d]) && Shaped(w, w.calls[d]);
      }
    } else if Hands(s) {
      HandEyes(w, s);
    } else {
      NobodyEyes(w, s);
    }
  }

  lemma HandEyes(w: World, s: Step)
    requires Enabled(w, s) && Hands(s) && !s.ChooseWarm?
    ensures EyesFairly(w, s.c, EffectOf(w, s))
  {
  }

  lemma NobodyEyes(w: World, s: Step)
    requires Enabled(w, s) && !Hands(s)
    ensures EffectOf(w, s).call.Some? ==> forall id :: !Eyes(EffectOf(w, s).call.value, id)
  {
    if Closes(s) {
      NoCloserEyes(w, s);
    } else if Pools(s) {
      NoPoolerEyes(w, s);
    } else if Queues(s) {
      NoQueuerEyes(w, s);
    }
  }

  lemma NoQueuerEyes(w: World, s: Step)
    requires Enabled(w, s) && Queues(s)
    ensures EffectOf(w, s).call.Some? ==> forall id :: !Eyes(EffectOf(w, s).call.value, id)
  {
  }

  lemma NoCloserEyes(w: World, s: Step)
    requires Enabled(w, s) && Closes(s)
    ensures EffectOf(w, s).call.Some? ==> forall id :: !Eyes(EffectOf(w, s).call.value, id)
  {
  }

  lemma NoPoolerEyes(w: World, s: Step)
    requires Enabled(w, s) && Pools(s)
    ensures EffectOf(w, s).call.Some? ==> forall id :: !Eyes(EffectOf(w, s).call.value, id)
  {
  }

  lemma NewCallIsTight(w: World, s: Step)
    requires Ownership(w) && Enabled(w, s) && Careful(w, s) && EffectOf(w, s).call.Some?
    ensures Tight(Next(w, s), EffectOf(w, s).call.value)
  {
    if Hands(s) {
      NewHandIsTight(w, s);
    } else if Queues(s) {
      NewRetryIsTight(w, s);
    } else if !Closes(s) && !Pools(s) {
      NewRequestIsTight(w, s);
    }
  }

  lemma NewRequestIsTight(w: World, s: Step)
    requires Ownership(w) && Enabled(w, s) && Careful(w, s)
    requires !Queues(s) && !Closes(s) && !Pools(s) && !Hands(s) && EffectOf(w, s).call.Some?
    ensures Tight(Next(w, s), EffectOf(w, s).call.value)
  {
    if At(w, s.c) { assert Tight(w, w.calls[s.c]); }
  }

  lemma NewRetryIsTight(w: World, s: Step)
    requires Ownership(w) && Enabled(w, s) && Queues(s) && EffectOf(w, s).call.Some?
    ensures Tight(Next(w, s), EffectOf(w, s).call.value)
  {
    if At(w, s.c) { assert Tight(w, w.calls[s.c]); }
  }

  lemma NewHandIsTight(w: World, s: Step)
    requires Ownership(w) && Enabled(w, s) && Careful(w, s) && Hands(s) && EffectOf(w, s).call.Some?
    ensures Tight(Next(w, s), EffectOf(w, s).call.value)
  {
    if s.ClaimWarm? {
      NewClaimIsTight(w, s.c);
    } else if s.HandDelete? {
      NewRenamingIsTight(w, s.c);
    } else {
      assert Tight(w, w.calls[s.c]);
    }
  }

  lemma NewClaimIsTight(w: World, c: CallId)
    requires Ownership(w) && Enabled(w, ClaimWarm(c))
    ensures Tight(Next(w, ClaimWarm(c)), EffectOf(w, ClaimWarm(c)).call.value)
  {
    assert Tight(w, w.calls[c]) && Shaped(w, w.calls[c]);
  }

  lemma NewRenamingIsTight(w: World, c: CallId)
    requires Ownership(w) && Enabled(w, HandDelete(c))
    ensures Tight(Next(w, HandDelete(c)), EffectOf(w, HandDelete(c)).call.value)
  {
    var (id, place, warm, claimed) := (w.calls[c].id, w.calls[c].place, w.calls[c].warm, w.calls[c].claimed);
    assert Tight(w, w.calls[c]) && Shaped(w, w.calls[c]);
    assert EffectOf(w, HandDelete(c)) == Saves(Some(Renaming(place, warm, claimed)), Drop({id}));
  }

  lemma StepKeepsTidy(w: World, s: Step)
    requires Ownership(w) && Enabled(w, s) && Careful(w, s)
    ensures Tidy(Next(w, s))
  {
    StepWritesFairly(w, s);
    StepEyesFairly(w, s);
    if EffectOf(w, s).call.Some? { NewCallIsTight(w, s); }
    FairKeepsTidy(w, s.c, EffectOf(w, s));
  }

  lemma StepKeepsOwnership(w: World, s: Step)
    requires Ownership(w) && Enabled(w, s) && Careful(w, s)
    ensures Ownership(Next(w, s))
  {
    StepKeepsTyped(w, s);
    StepKeepsTidy(w, s);
  }
}
