/** The allocation lifecycle as a protocol: any number of allocate, retry, cancel, complete, reap,
    register and prewarm calls over one store and one scheduler, interleaved at every store,
    scheduler and provider operation. */
module Lifecycle {
  import opened Basics
  import opened Model

  type CallId = int
  type Runner = int
  type Tenant = int

  // A queued record may name no backend at all.
  const NO_BACKEND: BackendName := -1
  const DEFAULT_TENANT: Tenant := 0

  /** What the scheduler counts: a tenant's use of a backend in a pool. */
  datatype Place = Place(pool: PoolName, backend: BackendName, tenant: Tenant)

  datatype Rec = Rec(place: Place, state: State, runner: Option<Runner>)

  /** Where a call in flight stands. */
  datatype Call =
    | Reserving(id: AllocationId, place: Place)                  // slot taken, record not saved yet
    | Provisioning(id: AllocationId, place: Place)               // record saved as reserved, provider at work
    | Placing(id: AllocationId, place: Place, runner: Runner)    // provider answered, commit pending
    | Unplaced(runner: Runner)                                   // commit lost, runner still to be torn down
    | Prewarming(id: AllocationId, place: Place)                 // slot taken for a warm runner
    | Prewarmed(id: AllocationId, place: Place, runner: Runner)  // warm runner in hand, record not saved yet
    | Retrying(id: AllocationId, place: Place)                   // queue worker has read the queued record
    | Choosing(id: AllocationId, place: Place, warm: AllocationId)               // warm record seen, not marked yet
    | Handing(id: AllocationId, place: Place, warm: AllocationId, claimed: Rec)   // warm record marked ready
    | Emptying(id: AllocationId, place: Place, warm: AllocationId, claimed: Rec)  // a slot given back
    | Renaming(place: Place, warm: AllocationId, claimed: Rec)   // cold record deleted, warm one to be saved
    | Recycling(id: AllocationId)                                // stale warm record seen, mark pending
    | Rechecking(id: AllocationId, left: Option<Runner>)         // quarantined record seen, mark pending
    | Canceling(id: AllocationId, seen: State)                   // cancel has read, compare-and-swap pending
    | Marking(id: AllocationId, snap: Rec, target: State)        // complete or reap has read, mark pending
    | Noting(id: AllocationId, snap: Rec)                        // a job or runner event has read, save pending
    | Owing(place: Place, left: Option<Runner>)                  // terminal mark made, release pending
    | Cleaning(left: Option<Runner>)                             // slot released, cleanup pending

  /** warmed are the ids of prewarmed records; ids are never used again. */
  datatype World = World(
    store: map<AllocationId, Rec>,
    sched: map<Place, int>,
    calls: map<CallId, Call>,
    born: set<Runner>,
    cleaned: set<Runner>,
    warmed: set<AllocationId>)

  const EMPTY_WORLD := World(map[], map[], map[], {}, {}, {})

  /** c is the call that takes the step. */
  datatype Step =
    | Reserve(c: CallId, id: AllocationId, place: Place)
    | AdmissionRejected(c: CallId)
    | SaveReserved(c: CallId)
    | SaveRefused(c: CallId)
    | ProvisionOk(c: CallId, runner: Runner)
    | ProvisionFailed(c: CallId)
    | Commit(c: CallId)
    | CommitError(c: CallId)
    | Discard(c: CallId)
    | Enqueue(c: CallId, id: AllocationId, place: Place)
    | Forget(c: CallId, id: AllocationId)
    | RetryRead(c: CallId, id: AllocationId)
    | RetrySave(c: CallId, place: Place)
    | RetryReserve(c: CallId, place: Place)
    | RetryEnd(c: CallId)
    | GiveUp(c: CallId, id: AllocationId)
    | DropDemand(c: CallId, id: AllocationId)
    | CancelRead(c: CallId, id: AllocationId)
    | CancelSwap(c: CallId)
    | MarkRead(c: CallId, id: AllocationId, target: State)
    | MarkWrite(c: CallId)
    | NoteRead(c: CallId, id: AllocationId)
    | NoteWrite(c: CallId)
    | NoteSwap(c: CallId)
    | Release(c: CallId)
    | Cleanup(c: CallId)
    | RecheckRead(c: CallId, id: AllocationId)
    | RecheckMark(c: CallId)
    | Prune(c: CallId, ids: set<AllocationId>)
    | Prewarm(c: CallId, id: AllocationId, place: Place)
    | PrewarmOk(c: CallId, runner: Runner)
    | PrewarmFailed(c: CallId)
    | SaveWarm(c: CallId)
    | SaveWarmError(c: CallId)
    | ChooseWarm(c: CallId, warm: AllocationId)
    | ClaimWarm(c: CallId)
    | HandRelease(c: CallId)
    | HandDelete(c: CallId)
    | HandDeleteError(c: CallId)
    | HandSave(c: CallId)
    | HandSaveError(c: CallId)
    | RecycleRead(c: CallId, id: AllocationId)
    | RecycleMark(c: CallId)

  predicate At(w: World, c: CallId) { c in w.calls }

  predicate Warms(call: Call) { call.Prewarming? || call.Prewarmed? }

  /** The call works on a request's record. */
  predicate Serving(call: Call) {
    || call.Reserving? || call.Provisioning? || call.Placing? || call.Retrying?
    || call.Choosing? || call.Handing? || call.Emptying?
  }

  /** The call is still responsible for this record id. */
  predicate Owns(call: Call, id: AllocationId) { (Warms(call) || Serving(call)) && call.id == id }

  /** The slot of this warm record has been given back, and it is about to be saved over the consumer's. */
  predicate Lends(call: Call, id: AllocationId) { (call.Emptying? || call.Renaming?) && call.warm == id }

  /** The call is about to take over this warm record, or is at it. */
  predicate Eyes(call: Call, id: AllocationId) {
    ((call.Choosing? || call.Handing?) && call.warm == id) || Lends(call, id)
  }

  /** The call may write back a copy of this record. */
  predicate Notes(call: Call, id: AllocationId) { call.Noting? && call.id == id }

  ghost predicate Unowned(w: World, id: AllocationId) { forall c | At(w, c) :: !Owns(w.calls[c], id) }

  ghost predicate IsLent(w: World, id: AllocationId) { exists c :: At(w, c) && Lends(w.calls[c], id) }

  ghost predicate IsEyed(w: World, id: AllocationId) { exists c :: At(w, c) && Eyes(w.calls[c], id) }

  ghost predicate IsNoted(w: World, id: AllocationId) { exists c :: At(w, c) && Notes(w.calls[c], id) }

  predicate Stands(w: World, id: AllocationId, state: State) { id in w.store && w.store[id].state == state }

  predicate NotInUse(w: World, id: AllocationId) { id in w.store ==> !w.store[id].state.Accounted() }

  ghost predicate WarmPoolIsFree(w: World) { forall c | At(w, c) :: !w.calls[c].Choosing? && !w.calls[c].Recycling? }

  /** An id that no other call is responsible for, and that is no warm runner's. */
  ghost predicate IsFree(w: World, id: AllocationId) { Unowned(w, id) && id !in w.warmed }

  ghost predicate Enabled(w: World, s: Step) {
    match s
    // A new record id, or one whose provision failed and that falls back to another backend.
    case Reserve(c, id, place) => !At(w, c) && place.backend != NO_BACKEND && IsFree(w, id)
    case AdmissionRejected(c) => At(w, c) && w.calls[c].Reserving?
    case SaveReserved(c) => At(w, c) && w.calls[c].Reserving?
    case SaveRefused(c) => At(w, c) && w.calls[c].Reserving?
    case ProvisionOk(c, runner) => At(w, c) && w.calls[c].Provisioning? && runner !in w.born
    case ProvisionFailed(c) => At(w, c) && w.calls[c].Provisioning?
    case Commit(c) => At(w, c) && w.calls[c].Placing?
    // A store that fails to persist reports an error only when the state still matched.
    case CommitError(c) => At(w, c) && w.calls[c].Placing? && Stands(w, w.calls[c].id, Reserved)
    case Discard(c) => At(w, c) && w.calls[c].Unplaced?
    // A request is queued, deleted or marked failed over whatever its record has become.
    case Enqueue(c, id, _) => !At(w, c) && IsFree(w, id)
    case Forget(c, id) => !At(w, c) && IsFree(w, id)
    case GiveUp(c, id) => !At(w, c) && IsFree(w, id) && id in w.store
    // A job's event cancels queued demand by one compare-and-swap, and owes nothing.
    case DropDemand(c, id) => !At(w, c) && Stands(w, id, Pending)
    case RetryRead(c, id) => !At(w, c) && IsFree(w, id) && Stands(w, id, Pending)
    case RetrySave(c, _) => At(w, c) && w.calls[c].Retrying?
    case RetryReserve(c, place) => At(w, c) && w.calls[c].Retrying? && place.backend != NO_BACKEND
    case RetryEnd(c) => At(w, c) && w.calls[c].Retrying?
    case CancelRead(c, id) => !At(w, c) && id in w.store && !w.store[id].state.Terminal()
    case CancelSwap(c) => At(w, c) && w.calls[c].Canceling?
    case MarkRead(c, id, target) =>
      !At(w, c) && id in w.store && !w.store[id].state.Terminal() && target.Terminal()
    case MarkWrite(c) => At(w, c) && w.calls[c].Marking?
    case NoteRead(c, id) => !At(w, c) && id in w.store
    // A callback gives up on a closed record; an event of a job saves only over the state it read.
    case NoteWrite(c) => At(w, c) && w.calls[c].Noting? && !w.calls[c].snap.state.Terminal()
    case NoteSwap(c) => At(w, c) && w.calls[c].Noting?
    case Release(c) => At(w, c) && w.calls[c].Owing?
    case Cleanup(c) => At(w, c) && w.calls[c].Cleaning?
    case RecheckRead(c, id) => !At(w, c) && Stands(w, id, Quarantined)
    case RecheckMark(c) => At(w, c) && w.calls[c].Rechecking?
    case Prune(c, ids) => !At(w, c) && forall id <- ids :: id in w.store && w.store[id].state.Terminal()
    case Prewarm(c, id, place) =>
      !At(w, c) && place.backend != NO_BACKEND && IsFree(w, id) && id !in w.store && !IsNoted(w, id)
    case PrewarmOk(c, runner) => At(w, c) && w.calls[c].Prewarming? && runner !in w.born
    case PrewarmFailed(c) => At(w, c) && w.calls[c].Prewarming?
    case SaveWarm(c) => At(w, c) && w.calls[c].Prewarmed?
    case SaveWarmError(c) => At(w, c) && w.calls[c].Prewarmed?
    // Consumers and the warm pool take turns over the warm records.
    case RecycleRead(c, id) => !At(w, c) && Stands(w, id, Warm) && WarmPoolIsFree(w)
    case RecycleMark(c) => At(w, c) && w.calls[c].Recycling?
    case ChooseWarm(c, warm) => At(w, c) && w.calls[c].Provisioning? && Stands(w, warm, Warm) && WarmPoolIsFree(w)
    case ClaimWarm(c) => At(w, c) && w.calls[c].Choosing?
    case HandRelease(c) => At(w, c) && w.calls[c].Handing?
    case HandDelete(c) => At(w, c) && w.calls[c].Emptying?
    case HandDeleteError(c) => At(w, c) && w.calls[c].Emptying?
    case HandSave(c) => At(w, c) && w.calls[c].Renaming?
    case HandSaveError(c) => At(w, c) && w.calls[c].Renaming?
  }

  // ------------------------------------------------------------------------- effects

  /** The place, under no tenant's name. */
  function Nameless(p: Place): Place { Place(p.pool, p.backend, DEFAULT_TENANT) }

  function InState(r: Rec, state: State): Rec { Rec(r.place, state, r.runner) }

  datatype Write = Keep | Put(id: AllocationId, rec: Rec) | Drop(ids: set<AllocationId>)

  datatype Slots = Same | Take(place: Place) | Give(place: Place)

  /** What a step does: how its call goes on, if at all, what it writes and counts, and what it adds to
      the runners born and cleaned up and to the warm ids. */
  datatype Effect = Effect(
    call: Option<Call>, write: Write, slots: Slots,
    born: set<Runner>, cleaned: set<Runner>, warmed: set<AllocationId>)

  const ENDS := Effect(None, Keep, Same, {}, {}, {})

  function Goes(call: Call): Effect { Effect(Some(call), Keep, Same, {}, {}, {}) }

  function GoesWith(call: Call, slots: Slots): Effect { Effect(Some(call), Keep, slots, {}, {}, {}) }

  function Saves(call: Option<Call>, write: Write): Effect { Effect(call, write, Same, {}, {}, {}) }

  function Bears(call: Call, runner: Runner): Effect { Effect(Some(call), Keep, Same, {runner}, {}, {}) }

  function Wipes(runner: Option<Runner>): Effect {
    Effect(None, Keep, Same, {}, if runner.Some? then {runner.value} else {}, {})
  }

  function Closing(w: World, id: AllocationId, state: State): Write
    requires id in w.store
  {
    Put(id, InState(w.store[id], state))
  }

  /** The record is closed, and its slot and runner are owed. */
  function Shut(w: World, id: AllocationId, state: State): Effect
    requires id in w.store
  {
    Saves(Some(Owing(w.store[id].place, w.store[id].runner)), Closing(w, id, state))
  }

  /** The steps of the queue and its worker. */
  predicate Queues(s: Step) {
    || s.Enqueue? || s.Forget? || s.GiveUp? || s.DropDemand?
    || s.RetryRead? || s.RetrySave? || s.RetryReserve? || s.RetryEnd?
  }

  /** The steps that close a record or note something on it, and the releases and cleanups after them. */
  predicate Closes(s: Step) {
    || s.CancelRead? || s.CancelSwap? || s.MarkRead? || s.MarkWrite? || s.NoteRead? || s.NoteWrite? || s.NoteSwap?
    || s.Release? || s.Cleanup? || s.RecheckRead? || s.RecheckMark? || s.Prune?
  }

  /** The steps of the warm pool. */
  predicate Pools(s: Step) {
    || s.Prewarm? || s.PrewarmOk? || s.PrewarmFailed? || s.SaveWarm? || s.SaveWarmError?
    || s.RecycleRead? || s.RecycleMark?
  }

  /** The steps of a handoff: the consumer's own hold moves to the warm runner, and the prewarm hold is
      given back. */
  predicate Hands(s: Step) {
    || s.ChooseWarm? || s.ClaimWarm? || s.HandRelease? || s.HandDelete? || s.HandDeleteError?
    || s.HandSave? || s.HandSaveError?
  }

  ghost function RequestEffect(w: World, s: Step): Effect
    requires Enabled(w, s)
  {
    match s
    case Reserve(_, id, place) => GoesWith(Reserving(id, place), Take(place))
    // The release after a rejected admission names no tenant.
    case AdmissionRejected(c) => Goes(Owing(Nameless(w.calls[c].place), None))
    case SaveReserved(c) =>
      var (id, place) := (w.calls[c].id, w.calls[c].place);
      Saves(Some(Provisioning(id, place)), Put(id, Rec(place, Reserved, None)))
    case SaveRefused(c) => Goes(Owing(w.calls[c].place, None))
    case ProvisionOk(c, runner) => Bears(Placing(w.calls[c].id, w.calls[c].place, runner), runner)
    case ProvisionFailed(c) => Abandoned(w, w.calls[c].id, w.calls[c].place)
    case Commit(c) => Committed(w, w.calls[c].id, w.calls[c].place, w.calls[c].runner)
    case CommitError(c) => Goes(Owing(w.calls[c].place, Some(w.calls[c].runner)))
    case Discard(c) => Wipes(Some(w.calls[c].runner))
    case _ => ENDS
  }

  function Abandoned(w: World, id: AllocationId, place: Place): Effect {
    if Stands(w, id, Reserved) then Saves(Some(Owing(place, None)), Closing(w, id, Failed)) else ENDS
  }

  function Committed(w: World, id: AllocationId, place: Place, runner: Runner): Effect {
    if Stands(w, id, Reserved) then Saves(None, Put(id, Rec(place, Ready, Some(runner)))) else Goes(Unplaced(runner))
  }

  ghost function QueueEffect(w: World, s: Step): Effect
    requires Enabled(w, s)
  {
    match s
    case Enqueue(_, id, place) => Saves(None, Put(id, Rec(place, Pending, None)))
    case Forget(_, id) => Saves(None, Drop({id}))
    case GiveUp(_, id) => Saves(None, Closing(w, id, Failed))
    case DropDemand(_, id) => Saves(None, Closing(w, id, Canceled))
    case RetryRead(_, id) => Goes(Retrying(id, w.store[id].place))
    // The worker writes its own copy back, whatever has become of the record.
    case RetrySave(c, place) =>
      Saves(Some(Retrying(w.calls[c].id, place)), Put(w.calls[c].id, Rec(place, Pending, None)))
    case RetryReserve(c, place) => GoesWith(Reserving(w.calls[c].id, place), Take(place))
    case RetryEnd(_) => ENDS
    case _ => ENDS
  }

  ghost function CloseEffect(w: World, s: Step): Effect
    requires Enabled(w, s)
  {
    match s
    case CancelRead(_, id) => Goes(Canceling(id, w.store[id].state))
    case CancelSwap(c) =>
      if Stands(w, w.calls[c].id, w.calls[c].seen) then Shut(w, w.calls[c].id, Canceled) else ENDS
    case MarkRead(_, id, target) => Goes(Marking(id, w.store[id], target))
    case MarkWrite(c) => Marked(w, w.calls[c].id, w.calls[c].snap, w.calls[c].target)
    case NoteRead(_, id) => Goes(Noting(id, w.store[id]))
    // The times that are noted do not matter here; the rest of the copy is what was read.
    case NoteWrite(c) => Saves(None, Put(w.calls[c].id, w.calls[c].snap))
    case NoteSwap(c) => Swapped(w, w.calls[c].id, w.calls[c].snap)
    case Release(c) => GoesWith(Cleaning(w.calls[c].left), Give(w.calls[c].place))
    case Cleanup(c) => Wipes(w.calls[c].left)
    case RecheckRead(_, id) => Goes(Rechecking(id, w.store[id].runner))
    case RecheckMark(c) =>
      if w.calls[c].id in w.store then Saves(Some(Cleaning(w.calls[c].left)), Closing(w, w.calls[c].id, Expired))
      else ENDS
    case Prune(_, ids) => Saves(None, Drop(ids))
    case _ => ENDS
  }

  /** What is given back is what was read, and only if it was active then. */
  function Marked(w: World, id: AllocationId, seen: Rec, target: State): Effect {
    if id !in w.store then ENDS
    else Saves(if seen.state.Active() then Some(Owing(seen.place, seen.runner)) else None, Closing(w, id, target))
  }

  function Swapped(w: World, id: AllocationId, snap: Rec): Effect {
    if Stands(w, id, snap.state) then Saves(None, Put(id, snap)) else ENDS
  }

  ghost function PoolEffect(w: World, s: Step): Effect
    requires Enabled(w, s)
  {
    match s
    case Prewarm(_, id, place) => Effect(Some(Prewarming(id, place)), Keep, Take(place), {}, {}, {id})
    case PrewarmOk(c, runner) => Bears(Prewarmed(w.calls[c].id, w.calls[c].place, runner), runner)
    case PrewarmFailed(c) => Goes(Owing(w.calls[c].place, None))
    case SaveWarm(c) => Saves(None, Put(w.calls[c].id, Rec(w.calls[c].place, Warm, Some(w.calls[c].runner))))
    // The error is ignored.
    case SaveWarmError(_) => ENDS
    case RecycleRead(_, id) => Goes(Recycling(id))
    case RecycleMark(c) => if w.calls[c].id in w.store then Shut(w, w.calls[c].id, Failed) else ENDS
    case _ => ENDS
  }

  ghost function HandEffect(w: World, s: Step): Effect
    requires Enabled(w, s)
  {
    match s
    case ChooseWarm(c, warm) => Goes(Choosing(w.calls[c].id, w.calls[c].place, warm))
    case ClaimWarm(c) => Claimed(w, w.calls[c].id, w.calls[c].place, w.calls[c].warm)
    case HandRelease(c) =>
      var (id, place, warm, claimed) := (w.calls[c].id, w.calls[c].place, w.calls[c].warm, w.calls[c].claimed);
      GoesWith(Emptying(id, place, warm, claimed), Give(claimed.place))
    case HandDelete(c) =>
      Saves(Some(Renaming(w.calls[c].place, w.calls[c].warm, w.calls[c].claimed)), Drop({w.calls[c].id}))
    case HandSave(c) =>
      Saves(None, Put(w.calls[c].warm, Rec(w.calls[c].place, Ready, w.calls[c].claimed.runner)))
    // After either error the call just ends.
    case _ => ENDS
  }

  /** The mark does not look at the warm record's state again. */
  function Claimed(w: World, id: AllocationId, place: Place, warm: AllocationId): Effect {
    if warm in w.store
    then Saves(Some(Handing(id, place, warm, InState(w.store[warm], Ready))), Closing(w, warm, Ready))
    else Goes(Provisioning(id, place))
  }

  ghost function EffectOf(w: World, s: Step): Effect
    requires Enabled(w, s)
  {
    if Queues(s) then QueueEffect(w, s)
    else if Closes(s) then CloseEffect(w, s)
    else if Pools(s) then PoolEffect(w, s)
    else if Hands(s) then HandEffect(w, s)
    else RequestEffect(w, s)
  }

  function Stored(store: map<AllocationId, Rec>, write: Write): map<AllocationId, Rec> {
    match write
    case Keep => store
    case Put(id, rec) => store[id := rec]
    case Drop(ids) => store - ids
  }

  /** The scheduler never counts below zero. */
  function Slotted(sched: map<Place, int>, slots: Slots): map<Place, int> {
    match slots
    case Same => sched
    case Take(p) => sched[p := Get(sched, p) + 1]
    case Give(p) => if Get(sched, p) > 0 then sched[p := Get(sched, p) - 1] else sched
  }

  function Applied(w: World, c: CallId, e: Effect): World {
    World(Stored(w.store, e.write), Slotted(w.sched, e.slots),
          if e.call.Some? then w.calls[c := e.call.value] else w.calls - {c},
          w.born + e.born, w.cleaned + e.cleaned, w.warmed + e.warmed)
  }

  ghost function Next(w: World, s: Step): World
    requires Enabled(w, s)
  {
    Applied(w, s.c, EffectOf(w, s))
  }

  // ---------------------------------------------------------------------- the guards

  /** A queued record is canceled only while it names no backend, and a warm one not while it is handed over. */
  ghost predicate MayCancel(w: World, id: AllocationId, seen: State) {
    Stands(w, id, seen) ==>
      (w.store[id].state == Pending ==> w.store[id].place.backend == NO_BACKEND) && !IsLent(w, id)
  }

  predicate Unchanged(w: World, id: AllocationId, snap: Rec) { id in w.store && w.store[id] == snap }

  /** What a caller must make sure of before a step, beyond what the code itself checks. */
  ghost predicate Careful(w: World, s: Step)
    requires Enabled(w, s)
  {
    match s
    // Nobody writes a record back in use over which its own call then writes.
    case Reserve(_, id, _) => NotInUse(w, id)
    case Enqueue(_, id, _) => NotInUse(w, id)
    case Forget(_, id) => NotInUse(w, id)
    case GiveUp(_, id) => NotInUse(w, id)
    // Only the default tenant is released by name.
    case AdmissionRejected(c) => w.calls[c].place.tenant == DEFAULT_TENANT
    // The store never fails to persist a commit, or a warm runner.
    case CommitError(_) => false
    case SaveWarmError(_) => false
    case CancelSwap(c) => MayCancel(w, w.calls[c].id, w.calls[c].seen)
    // Completing and reaping read and mark in one go, and leave warm records alone, and those handed over.
    case MarkWrite(c) =>
      w.calls[c].id in w.store ==>
        Unchanged(w, w.calls[c].id, w.calls[c].snap) && w.calls[c].snap.state != Warm && !IsLent(w, w.calls[c].id)
    // Nobody changes a record between an event's read and its save.
    case NoteWrite(c) => Unchanged(w, w.calls[c].id, w.calls[c].snap)
    case NoteSwap(c) =>
      Stands(w, w.calls[c].id, w.calls[c].snap.state) ==> Unchanged(w, w.calls[c].id, w.calls[c].snap)
    // What was read as quarantined, or as warm, has not been put in use, or out of use, meanwhile.
    case RecheckMark(c) => NotInUse(w, w.calls[c].id)
    case RecycleMark(c) => w.calls[c].id in w.store ==> Stands(w, w.calls[c].id, Warm)
    case ClaimWarm(c) => w.calls[c].warm in w.store ==> Stands(w, w.calls[c].warm, Warm)
    // Nobody closes the warm record, nor the consumer's own, while a handoff is under way.
    case HandRelease(c) => Unchanged(w, w.calls[c].warm, w.calls[c].claimed)
    case HandDelete(c) => Stands(w, w.calls[c].id, Reserved)
    // The store never fails to delete the consumer's record, nor to save the warm one under another tenant.
    case HandDeleteError(_) => false
    case HandSaveError(c) => w.calls[c].place == w.calls[c].claimed.place
    case _ => true
  }

  // ------------------------------------------------------------------- the invariants

  predicate InUseAt(r: Rec, p: Place) { r.place == p && r.state.Accounted() }

  /** Calls that hold one scheduler slot no record stands for. */
  predicate HoldsAt(call: Call, p: Place) {
    && (call.Reserving? || call.Prewarming? || call.Prewarmed? || call.Owing? || call.Renaming?)
    && call.place == p
  }

  /** The records in use at a place, but for warm ones whose slot has been given back in a handoff. */
  ghost function Counted(w: World, p: Place): set<AllocationId> {
    set id | id in w.store && InUseAt(w.store[id], p) && !IsLent(w, id)
  }

  function Holders(w: World, p: Place): set<CallId> { set c | c in w.calls && HoldsAt(w.calls[c], p) }

  /** The slots at a place that a record or a call stands for. */
  ghost function Due(w: World, p: Place): int { |Counted(w, p)| + |Holders(w, p)| }

  /** The scheduler counts exactly the accounted records, the reservations not yet saved
      and the releases already won but not yet applied. */
  ghost predicate BooksAt(w: World, p: Place) { Get(w.sched, p) == Due(w, p) }

  ghost predicate Books(w: World) { forall p: Place | p.backend != NO_BACKEND :: BooksAt(w, p) }

  predicate Carries(call: Call, r: Runner) {
    || ((call.Placing? || call.Unplaced? || call.Prewarmed?) && call.runner == r)
    || ((call.Owing? || call.Cleaning?) && call.left == Some(r))
  }

  predicate Serves(rec: Rec, r: Runner) { rec.runner == Some(r) && (rec.state == Ready || rec.state == Warm) }

  /** The runner serves a live record, is in the hands of a call that will place it or tear it down, or
      has been torn down. */
  ghost predicate Safe(w: World, r: Runner) {
    || r in w.cleaned
    || (exists c :: At(w, c) && Carries(w.calls[c], r))
    || (exists id :: id in w.store && Serves(w.store[id], r))
  }

  ghost predicate Custody(w: World) { forall r <- w.born :: Safe(w, r) }

  /** A record that is in use, or a warm runner's, names a backend, and only warm runners' are warm. */
  predicate Sound(w: World, id: AllocationId, rec: Rec) {
    && (rec.state.Accounted() || id in w.warmed ==> rec.place.backend != NO_BACKEND)
    && (rec.state == Warm ==> id in w.warmed)
  }

  /** What is known of a call whatever the others do. */
  ghost predicate Shaped(w: World, call: Call) {
    && (Serving(call) ==> call.id !in w.warmed)
    && (Warms(call) ==> call.id in w.warmed && call.id !in w.store)
    && (Warms(call) || (Serving(call) && !call.Retrying?) || call.Renaming? ==> call.place.backend != NO_BACKEND)
    && (call.Choosing? || call.Handing? || call.Emptying? || call.Renaming? ==>
          call.warm in w.warmed && Unowned(w, call.warm))
    && (call.Handing? || call.Emptying? || call.Renaming? ==>
          call.claimed.state == Ready && call.claimed.place.backend != NO_BACKEND)
    && (call.Canceling? ==> !call.seen.Terminal())
    && (call.Marking? ==> call.target.Terminal())
    && (call.Noting? ==> Sound(w, call.id, call.snap) && (call.id in w.warmed ==> Unowned(w, call.id)))
  }

  /** Record ids belong to at most one call, and prewarmed records are kept apart from those of requests. */
  ghost predicate Typed(w: World) {
    && (forall c, d, id | At(w, c) && At(w, d) && Owns(w.calls[c], id) && Owns(w.calls[d], id) :: c == d)
    && (forall c | At(w, c) :: Shaped(w, w.calls[c]))
    && (forall id | id in w.store :: Sound(w, id, w.store[id]))
  }

  predicate ReservedOrOut(w: World, id: AllocationId, place: Place) {
    id in w.store && w.store[id].state.Accounted() ==> w.store[id] == Rec(place, Reserved, w.store[id].runner)
  }

  /** An owned record is in use only as the reservation its call has saved, and a warm record that is being
      handed over stays as it was claimed. */
  ghost predicate Tight(w: World, call: Call) {
    && (call.Reserving? || call.Retrying? ==> NotInUse(w, call.id))
    && (call.Provisioning? || call.Placing? || call.Choosing? || call.Handing? || call.Emptying? ==>
          ReservedOrOut(w, call.id, call.place))
    && (call.Handing? ==> !Stands(w, call.warm, Warm))
    && (call.Emptying? || call.Renaming? ==> call.warm in w.store && w.store[call.warm] == call.claimed)
  }

  ghost predicate Tidy(w: World) {
    && (forall c, d, id | At(w, c) && At(w, d) && Eyes(w.calls[c], id) && Eyes(w.calls[d], id) :: c == d)
    && (forall c | At(w, c) :: Tight(w, w.calls[c]))
  }

  ghost predicate Ownership(w: World) { Typed(w) && Tidy(w) }

  ghost predicate Inv(w: World) { Books(w) && Custody(w) && Ownership(w) }

  ghost function One(b: bool): nat { if b then 1 else 0 }
}
