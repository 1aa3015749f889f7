/** The file-backed store: every change is written to one snapshot file, replaced atomically,
    and undone in memory when the write is not confirmed. Several processes may share the file. */
module FileStore {
  import opened Basics
  import opened Model
  import opened Store

  /** What one process holds in memory, and what the file holds. */
  datatype View = View(allocations: Records, leader: map<string, Lease>)

  const EMPTY := View(map[], map[])

  /** How one write of the snapshot ends: replaced and confirmed, failed before the rename, or
      renamed but not confirmed because syncing the directory failed. */
  datatype Write = Stored | Refused | Unconfirmed

  /** Reading the file back. An empty lease table is left out of the file, and a table left out
      does not replace the one in memory. */
  function Loaded(v: View, content: Option<View>): View {
    if content.None? then v
    else View(content.value.allocations, if content.value.leader == map[] then v.leader else content.value.leader)
  }

  function Restarted(content: Option<View>): View { Loaded(EMPTY, content) }

  function Written(content: Option<View>, v: View, w: Write): Option<View> {
    if w == Refused then content else Some(v)
  }

  class Disk {
    var content: Option<View>

    constructor ()
      ensures content == None
    {
      content := None;
    }

    method Replace(v: View, w: Write) returns (ok: bool)
      modifies this
      ensures content == Written(old(content), v, w)
      ensures ok == (w == Stored)
    {
      if w != Refused { content := Some(v); }
      return w == Stored;
    }
  }

  /** The outcome of every guarded change: nothing happens unless allowed; the file is written;
      memory moves only when the write is confirmed. */
  ghost predicate Persists(allowed: bool, v: View, content: Option<View>, next: Records, w: Write,
                           ok: bool, v': View, content': Option<View>) {
    && ok == (allowed && w == Stored)
    && v' == (if ok then v.(allocations := next) else v)
    && content' == if allowed then Written(content, v.(allocations := next), w) else content
  }

  class File {
    const disk: Disk
    var allocations: Records
    var leader: map<string, Lease>

    ghost function Here(): View
      reads this
    {
      View(allocations, leader)
    }

    constructor (disk: Disk)
      ensures this.disk == disk && Here() == Restarted(disk.content)
    {
      this.disk := disk;
      allocations, leader := map[], map[];
      new;
      Load();
    }

    method Load()
      modifies this
      ensures Here() == Loaded(old(Here()), disk.content)
    {
      if disk.content.None? { return; }
      var snapshot := disk.content.value;
      allocations := snapshot.allocations;
      if snapshot.leader != map[] { leader := snapshot.leader; }
    }

    method Persist(w: Write) returns (ok: bool)
      modifies disk
      ensures disk.content == Written(old(disk.content), Here(), w) && ok == (w == Stored)
    {
      ok := disk.Replace(View(allocations, leader), w);
    }

    method Save(a: Allocation, w: Write) returns (ok: bool)
      modifies this, disk
      ensures Persists(true, old(Here()), old(disk.content), old(allocations)[a.id := a], w, ok, Here(), disk.content)
    {
      ghost var before := allocations;
      var previous := if a.id in allocations then Some(allocations[a.id]) else None;
      allocations := allocations[a.id := a];
      ok := Persist(w);
      if !ok {
        if previous.Some? {
          allocations := allocations[a.id := previous.value];
        } else {
          allocations := allocations - {a.id};
        }
        assert allocations == before;
      }
    }

    method Delete(id: AllocationId, w: Write) returns (ok: bool)
      modifies this, disk
      ensures var there := id in old(allocations);
              && ok == (there ==> w == Stored)
              && Persists(there, old(Here()), old(disk.content), old(allocations) - {id}, w,
                          there && ok, Here(), disk.content)
    {
      if id !in allocations { return true; }
      ghost var before := allocations;
      var previous := allocations[id];
      allocations := allocations - {id};
      ok := Persist(w);
      if !ok {
        allocations := allocations[id := previous];
        assert allocations == before;
      }
    }

    method MarkState(id: AllocationId, state: State, now: Time, message: string, w: Write) returns (ok: bool)
      modifies this, disk
      ensures Persists(id in old(allocations), old(Here()), old(disk.content),
                       Marked(old(allocations), id, state, now, message), w, ok, Here(), disk.content)
    {
      if id !in allocations { return false; }
      ghost var before := allocations;
      var previous := allocations[id];
      allocations := allocations[id := ApplyMark(previous, state, now, message)];
      ok := Persist(w);
      if !ok {
        allocations := allocations[id := previous];
        assert allocations == before;
      }
    }

    method CompareAndMarkState(id: AllocationId, from: State, to: State, now: Time, message: string, w: Write)
      returns (ok: bool)
      modifies this, disk
      ensures Persists(InState(old(allocations), id, from), old(Here()), old(disk.content),
                       Marked(old(allocations), id, to, now, message), w, ok, Here(), disk.content)
    {
      if id !in allocations || allocations[id].state != from { return false; }
      ghost var before := allocations;
      var previous := allocations[id];
      allocations := allocations[id := ApplyMark(previous, to, now, message)];
      ok := Persist(w);
      if !ok {
        allocations := allocations[id := previous];
        assert allocations == before;
      }
    }

    method SaveIfState(a: Allocation, from: State, w: Write) returns (ok: bool)
      modifies this, disk
      ensures Persists(InState(old(allocations), a.id, from), old(Here()), old(disk.content),
                       old(allocations)[a.id := a], w, ok, Here(), disk.content)
    {
      if a.id !in allocations || allocations[a.id].state != from { return false; }
      ghost var before := allocations;
      var previous := allocations[a.id];
      allocations := allocations[a.id := a];
      ok := Persist(w);
      if !ok {
        allocations := allocations[a.id := previous];
        assert allocations == before;
      }
    }

    method SaveIfCapacity(a: Allocation, maxRunners: int, tenantQuota: int, backendLimit: int, w: Write)
      returns (ok: bool)
      modifies this, disk
      ensures Persists(Fits(old(allocations), a, maxRunners, tenantQuota, backendLimit), old(Here()), old(disk.content),
                       old(allocations)[a.id := a], w, ok, Here(), disk.content)
    {
      var allowed := CapacityAllowed(allocations, a, maxRunners, tenantQuota, backendLimit);
      if !allowed { return false; }
      ok := Save(a, w);
    }

    method PruneTerminal(now: Time, retention: int, w: Write) returns (n: nat)
      modifies this, disk
      ensures var gone := if retention <= 0 then {} else PrunableIds(old(allocations), now, retention);
              && Persists(gone != {}, old(Here()), old(disk.content), old(allocations) - gone, w,
                          gone != {} && w == Stored, Here(), disk.content)
              && n == if w == Stored then |gone| else 0
    {
      if retention <= 0 { return 0; }
      var ids := CollectPrunableIds(allocations, now, retention);
      if ids == {} { return 0; }
      ghost var before := allocations;
      var previous := RemoveAll(ids);
      var ok := Persist(w);
      if !ok {
        RestoreAll(previous);
        SameRecords(allocations, before);
        return 0;
      }
      return |ids|;
    }

    method RemoveAll(ids: set<AllocationId>) returns (previous: Records)
      requires ids <= allocations.Keys
      modifies `allocations
      ensures allocations == old(allocations) - ids
      ensures previous.Keys == ids && forall id <- ids :: previous[id] == old(allocations)[id]
    {
      previous := map[];
      var rest := ids;
      ghost var before := allocations;
      assert before == before - (ids - rest);
      while rest != {}
        invariant rest <= ids && allocations == before - (ids - rest)
        invariant previous.Keys == ids - rest && forall id <- previous :: previous[id] == before[id]
        decreases rest
      {
        var id := NextKey(rest);
        previous := previous[id := allocations[id]];
        allocations := allocations - {id};
        rest := rest - {id};
        assert before - (ids - rest) == before - (ids - (rest + {id})) - {id};
      }
      assert ids - {} == ids;
    }

    method RestoreAll(previous: Records)
      modifies `allocations
      ensures allocations == old(allocations) + previous
    {
      var rest := previous.Keys;
      ghost var before := allocations;
      while rest != {}
        invariant rest <= previous.Keys && allocations == before + (previous - rest)
        decreases rest
      {
        var id := NextKey(rest);
        allocations := allocations[id := previous[id]];
        rest := rest - {id};
        assert before + (previous - rest) == (before + (previous - (rest + {id})))[id := previous[id]];
      }
      assert previous - {} == previous;
    }

    method TryAcquireLeadership(name: string, identity: string, ttl: int, now: Time, w: Write) returns (ok: bool)
      modifies this, disk
      ensures Acquires(old(Here()), old(disk.content), name, identity, ttl, now, w, ok, Here(), disk.content)
    {
      var lifetime := ttl;
      if lifetime <= 0 { lifetime := DEFAULT_TTL; }
      Load();
      if name in leader && leader[name].expiresAt > now && leader[name].holder != identity { return false; }
      leader := leader[name := Lease(identity, now + lifetime)];
      ok := Persist(w);
    }

    method ReleaseLeadership(name: string, identity: string, w: Write) returns (ok: bool)
      modifies this, disk
      ensures Resigns(old(Here()), old(disk.content), name, identity, w, Here(), disk.content)
      ensures ok == (Holds(Loaded(old(Here()), old(disk.content)).leader, name, identity) ==> w == Stored)
    {
      Load();
      if name !in leader || leader[name].holder != identity { return true; }
      leader := leader - {name};
      ok := Persist(w);
    }
  }

  predicate Holds(leader: map<string, Lease>, name: string, identity: string) {
    name in leader && leader[name].holder == identity
  }

  /** Taking a lease looks at the file first; unlike a change to the records, the claim stays in
      memory when the write fails. */
  ghost predicate Acquires(v: View, content: Option<View>, name: string, identity: string, ttl: int, now: Time,
                           w: Write,
                           ok: bool, v': View, content': Option<View>) {
    var seen := Loaded(v, content);
    if Barred(seen.leader, name, identity, now) then !ok && v' == seen && content' == content
    else
      && ok == (w == Stored)
      && v' == seen.(leader := seen.leader[name := Lease(identity, now + EffectiveTtl(ttl))])
      && content' == Written(content, v', w)
  }

  ghost predicate Resigns(v: View, content: Option<View>, name: string, identity: string, w: Write,
                          v': View, content': Option<View>) {
    var seen := Loaded(v, content);
    if Holds(seen.leader, name, identity)
    then v' == seen.(leader := seen.leader - {name}) && content' == Written(content, v', w)
    else v' == seen && content' == content
  }

  // ---------------------------------------------------------------- one process

  /** One process and its file. */
  datatype Process = Process(memory: View, file: Option<View>)

  /** A crash and restart bring back exactly what was in memory. */
  predicate Synced(p: Process) { Restarted(p.file) == p.memory }

  /** What a process does to its store: a guarded change to the records, or taking or giving up a lease. */
  datatype Act =
    | Alter(allowed: bool, next: Records, write: Write)
    | Take(name: string, identity: string, ttl: int, now: Time, write: Write)
    | Give(name: string, identity: string, write: Write)

  ghost predicate Acts(p: Process, act: Act, ok: bool, p': Process) {
    match act
    case Alter(allowed, next, w) => Persists(allowed, p.memory, p.file, next, w, ok, p'.memory, p'.file)
    case Take(name, identity, ttl, now, w) =>
      Acquires(p.memory, p.file, name, identity, ttl, now, w, ok, p'.memory, p'.file)
    case Give(name, identity, w) => Resigns(p.memory, p.file, name, identity, w, p'.memory, p'.file)
  }

  /** The two ways a call can part memory from file: a change to the records that is undone in memory
      although it reached the file, and a change to the leases that stays in memory although it did not. */
  predicate Slips(v: View, act: Act) {
    match act
    case Alter(allowed, next, w) => allowed && w == Unconfirmed && next != v.allocations
    case Take(name, identity, ttl, now, w) =>
      && w == Refused && !Barred(v.leader, name, identity, now)
      && v.leader[name := Lease(identity, now + EffectiveTtl(ttl))] != v.leader
    case Give(name, identity, w) => w == Refused && Holds(v.leader, name, identity)
  }

  /** A call keeps file and memory together if and only if it does not slip. */
  lemma CrashAfterCall(p: Process, act: Act, ok: bool, p': Process)
    requires Synced(p) && Acts(p, act, ok, p')
    ensures Synced(p') <==> !Slips(p.memory, act)
  {
    match act
    case Alter(allowed, next, w) =>
      if p'.memory != p.memory { assert p'.memory.allocations == next; }
    case Take(_, _, _, _, _) =>
    case Give(name, identity, _) =>
      if Holds(p.memory.leader, name, identity) { assert name !in p'.memory.leader; }
  }

  ghost predicate IsHistory(ps: seq<Process>, acts: seq<Act>, oks: seq<bool>) {
    && |ps| == |acts| + 1
    && |oks| == |acts|
    && forall i: nat | i < |acts| :: Acts(ps[i], acts[i], oks[i], ps[i + 1])
  }

  /** Over any run of changes, claims and resignations, a crash at every point brings back what was in
      memory, nothing lost and nothing invented, if and only if no call of the run slips. */
  lemma {:induction false} CrashAnywhere(ps: seq<Process>, acts: seq<Act>, oks: seq<bool>)
    requires IsHistory(ps, acts, oks) && Synced(ps[0])
    ensures (forall p <- ps :: Synced(p)) <==> (forall i: nat | i < |acts| :: !Slips(ps[i].memory, acts[i]))
  {
    if acts != [] {
      var n := |acts| - 1;
      CrashAnywhere(ps[..|acts|], acts[..n], oks[..n]);
      assert ps == ps[..|acts|] + [ps[|acts|]] && ps[n] in ps[..|acts|];
      if Synced(ps[n]) { CrashAfterCall(ps[n], acts[n], oks[n], ps[n + 1]); }
      assert forall i: nat | i < n :: ps[..|acts|][i] == ps[i] && acts[..n][i] == acts[i];
    }
  }

  // ------------------------------------------------------ processes sharing a file

  type ProcessId = int

  datatype Event =
    | Acquire(process: ProcessId, name: string, identity: string, ttl: int, now: Time)
    | Resign(process: ProcessId, name: string, identity: string, now: Time)
    | Rewrite(process: ProcessId, next: Records, now: Time)

  /** All processes, and the file they share. */
  datatype Shared = Shared(views: map<ProcessId, View>, content: Option<View>)

  ghost predicate Step(s: Shared, e: Event, w: Write, ok: bool, s': Shared) {
    && e.process in s.views && s'.views.Keys == s.views.Keys
    && s'.views == s.views[e.process := s'.views[e.process]]
    && var v, v' := s.views[e.process], s'.views[e.process];
    match e
    case Acquire(_, name, identity, ttl, now) =>
      Acquires(v, s.content, name, identity, ttl, now, w, ok, v', s'.content)
    case Resign(_, name, identity, _) => Resigns(v, s.content, name, identity, w, v', s'.content)
    case Rewrite(_, next, _) => Persists(true, v, s.content, next, w, ok, v', s'.content)
  }

  ghost predicate Granted(content: Option<View>, name: string, lease: Lease) {
    content.Some? && name in content.value.leader && content.value.leader[name] == lease
  }

  /** The step leaves someone else's lease alone: it acts for another name or identity, and a
      process that rewrites the records has seen the lease. */
  ghost predicate Respects(s: Shared, e: Event, name: string, lease: Lease) {
    match e
    case Acquire(_, n, identity, _, now) => (n == name ==> identity != lease.holder && now < lease.expiresAt)
    case Resign(_, n, identity, _) => (n == name ==> identity != lease.holder)
    case Rewrite(p, _, _) => p in s.views && name in s.views[p].leader && s.views[p].leader[name] == lease
  }

  lemma LeaseSurvivesStep(s: Shared, e: Event, w: Write, ok: bool, s': Shared, name: string, lease: Lease)
    requires Granted(s.content, name, lease) && Step(s, e, w, ok, s') && Respects(s, e, name, lease)
    ensures Granted(s'.content, name, lease)
    ensures e.Acquire? && e.name == name ==> !ok
  {
  }

  ghost predicate IsRun(ss: seq<Shared>, es: seq<Event>, ws: seq<Write>, oks: seq<bool>) {
    && |ss| == |es| + 1
    && |ws| == |es|
    && |oks| == |es|
    && forall i: nat | i < |es| :: Step(ss[i], es[i], ws[i], oks[i], ss[i + 1])
  }

  /** Among processes sharing a file, whoever wins a lease keeps it from every other identity
      until it runs out, as long as nobody rewrites the records without having seen the lease. */
  lemma {:induction false} SharedLeaseIsExclusive(ss: seq<Shared>, es: seq<Event>, ws: seq<Write>, oks: seq<bool>,
                                                  name: string, lease: Lease)
    requires IsRun(ss, es, ws, oks) && es != []
    requires es[0].Acquire? && oks[0] && es[0].name == name
    requires lease == Lease(es[0].identity, es[0].now + EffectiveTtl(es[0].ttl))
    requires forall i: nat | 0 < i < |es| :: Respects(ss[i], es[i], name, lease)
    ensures Granted(ss[|es|].content, name, lease)
    ensures forall i: nat | 0 < i < |es| && es[i].Acquire? && es[i].name == name :: !oks[i]
  {
    var n := |es| - 1;
    assert Step(ss[n], es[n], ws[n], oks[n], ss[n + 1]);
    if n > 0 {
      SharedLeaseIsExclusive(ss[..|es|], es[..n], ws[..n], oks[..n], name, lease);
      LeaseSurvivesStep(ss[n], es[n], ws[n], oks[n], ss[n + 1], name, lease);
    }
  }

  /** A rewrite of the records puts the writer's own lease table into the file: the lease
      survives it exactly when the writer has seen it or the write does not go through. */
  lemma RewriteErasesUnseenLease(s: Shared, e: Event, w: Write, ok: bool, s': Shared, name: string, lease: Lease)
    requires e.Rewrite? && Granted(s.content, name, lease) && Step(s, e, w, ok, s')
    ensures Granted(s'.content, name, lease) <==> w == Refused || Respects(s, e, name, lease)
  {
  }

  /** Two leaders at once: a process that loaded the file before the lease was taken saves a
      record and then takes the same lease. */
  lemma StaleWriterMakesTwoLeaders() returns (ss: seq<Shared>, es: seq<Event>)
    ensures |es| == 3 && es[0].Acquire? && es[1].Rewrite? && es[2].Acquire?
    ensures es[0].identity != es[2].identity && es[0].name == es[2].name
    ensures es[2].now < es[0].now + EffectiveTtl(es[0].ttl)
    ensures IsRun(ss, es, [Stored, Stored, Stored], [true, true, true])
  {
    var a, b := View(map[], map["sweep" := Lease("a", 15)]), View(map[], map["sweep" := Lease("b", 16)]);
    var s0 := Shared(map[1 := EMPTY, 2 := EMPTY], None);
    var s1 := Shared(map[1 := a, 2 := EMPTY], Some(a));
    var s2 := Shared(map[1 := a, 2 := EMPTY], Some(EMPTY));
    var s3 := Shared(map[1 := a, 2 := b], Some(b));
    ss := [s0, s1, s2, s3];
    es := [Event.Acquire(1, "sweep", "a", 15, 0), Event.Rewrite(2, map[], 1), Event.Acquire(2, "sweep", "b", 15, 1)];
    assert Step(s0, es[0], Stored, true, s1);
    assert Step(s1, es[1], Stored, true, s2);
    assert Step(s2, es[2], Stored, true, s3);
  }

  /** After the holder gives a lease up, another process can take it at once, except when it was
      the last lease in the file: then one that remembers it unexpired waits it out. */
  lemma ReleaseReachesPeers(holder: View, peer: View, content: Option<View>, name: string, identity: string,
                            holder': View, content': Option<View>, other: string, ttl: int, now: Time,
                            ok: bool, peer': View, content'': Option<View>)
    requires content.Some? && Holds(content.value.leader, name, identity)
    requires Resigns(holder, content, name, identity, Stored, holder', content')
    requires Acquires(peer, content', name, other, ttl, now, Stored, ok, peer', content'')
    ensures ok <==> !(content.value.leader.Keys == {name} && Barred(peer.leader, name, other, now))
  {
    var left := content.value.leader - {name};
    assert content'.value.leader == left;
    if content.value.leader.Keys != {name} {
      var n :| n in content.value.leader && n != name;
      assert n in left;
    } else {
      assert left.Keys == {};
    }
  }
}
