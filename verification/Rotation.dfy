/** The round-robin and weighted round-robin schedulers: one cursor and one
    counter per backend, and the fairness of the rotation over whole runs. */
module Rotation {
  import opened Basics
  import opened Model
  import opened Ring

  datatype Slot = Slot(pool: PoolName, backend: BackendName)

  datatype Outcome = Granted(backend: BackendName) | UnknownBackend | NoCapacity | QuotaExceeded

  /** What a scheduler knows: where each pool's rotation stands and who holds how much. */
  datatype Counters = Counters(cursors: map<PoolName, int>, active: map<Slot, int>)

  ghost function OnBackend(b: BackendName): Slot -> bool { (k: Slot) => k.backend == b }

  ghost function BackendTotal(active: map<Slot, int>, b: BackendName): int {
    SumWhere(active, OnBackend(b))
  }

  predicate BackendAvailable(cfg: BackendConfig, active: int, activeBackend: int) {
    && cfg.enabled && cfg.healthy
    && active < cfg.maxRunners
    && !(cfg.crossPoolMaxRunners > 0 && activeBackend >= cfg.crossPoolMaxRunners)
  }

  ghost predicate Free(s: Counters, pool: PoolConfig, b: BackendName) {
    && b in pool.backends
    && BackendAvailable(pool.backends[b], Get(s.active, Slot(pool.name, b)), BackendTotal(s.active, b))
  }

  function Took(s: Counters, pool: PoolName, b: BackendName): Counters {
    s.(active := s.active[Slot(pool, b) := Get(s.active, Slot(pool, b)) + 1])
  }

  /** One unpinned reservation: the first free entry at or after the cursor wins,
      and the cursor moves just past it. */
  ghost predicate Rotates(s: Counters, pool: PoolConfig, ring: seq<BackendName>, s': Counters, out: Outcome) {
    var n := |ring|;
    if forall b <- ring :: !Free(s, pool, b) then s' == s && out == NoCapacity
    else
      exists off: nat | off < n ::
        && Entry(s, pool.name, ring, off) == out
        && Free(s, pool, ring[Spot(s, pool.name, n, off)])
        && (forall o: nat | o < off :: !Free(s, pool, ring[Spot(s, pool.name, n, o)]))
        && s' == Took(s, pool.name, ring[Spot(s, pool.name, n, off)])
                 .(cursors := s.cursors[pool.name := Spot(s, pool.name, n, off + 1)])
  }

  /** Where the rotation starts: the pool's cursor, folded into the ring. */
  function Start(s: Counters, pool: PoolName, n: nat): (c: nat)
    requires n > 0
    ensures c < n
  {
    Get(s.cursors, pool) % n
  }

  function Wrap(a: nat, n: nat): (i: nat)
    requires a < 2 * n
    ensures i < n
  {
    if a < n then a else a - n
  }

  lemma ModIsWrap(a: nat, n: nat)
    requires a < 2 * n
    ensures a % n == Wrap(a, n)
  {
    if a >= n { assert a == n + (a - n) && 0 <= a - n < n; }
  }

  /** The ring position off steps after the start. */
  function Spot(s: Counters, pool: PoolName, n: nat, off: nat): (i: nat)
    requires n > 0 && off <= n
    ensures i < n
  {
    Wrap(Start(s, pool, n) + off, n)
  }

  function Entry(s: Counters, pool: PoolName, ring: seq<BackendName>, off: nat): Outcome
    requires off < |ring|
  {
    Granted(ring[Spot(s, pool, |ring|, off)])
  }

  ghost predicate Reserves(s: Counters, pool: PoolConfig, request: Request, s': Counters, out: Outcome) {
    match request.backend
    case Some(b) =>
      if b !in pool.backends then s' == s && out == UnknownBackend
      else if Free(s, pool, b) then s' == Took(s, pool.name, b) && out == Granted(b)
      else s' == s && out == NoCapacity
    case None =>
      exists ring :: IsRing(pool, ring) && Rotates(s, pool, ring, s', out)
  }

  ghost predicate Releases(s: Counters, pool: PoolName, b: BackendName, s': Counters) {
    var k := Slot(pool, b);
    s' == if Get(s.active, k) > 0 then s.(active := s.active[k := s.active[k] - 1]) else s
  }

  class OrderedScheduler {
    var cursors: map<PoolName, int>
    var active: map<Slot, int>

    constructor ()
      ensures View() == Counters(map[], map[])
    {
      cursors, active := map[], map[];
    }

    ghost function View(): Counters
      reads this
    {
      Counters(cursors, active)
    }

    method ActiveBackend(b: BackendName) returns (total: int)
      ensures total == BackendTotal(active, b)
    {
      total := 0;
      var rest := active;
      while rest.Keys != {}
        invariant rest.Keys <= active.Keys && forall k <- rest :: rest[k] == active[k]
        invariant total + SumWhere(rest, OnBackend(b)) == BackendTotal(active, b)
        decreases rest.Keys
      {
        var k := NextKey(rest.Keys);
        SumWhereRemove(rest, k, OnBackend(b));
        if k.backend == b { total := total + rest[k]; }
        rest := rest - {k};
      }
      assert rest == map[];
    }

    method Available(pool: PoolConfig, b: BackendName) returns (ok: bool)
      requires b in pool.backends
      ensures ok == Free(View(), pool, b)
    {
      var total := ActiveBackend(b);
      ok := BackendAvailable(pool.backends[b], Get(active, Slot(pool.name, b)), total);
    }

    method Reserve(pool: PoolConfig, request: Request) returns (out: Outcome)
      modifies this
      ensures Reserves(old(View()), pool, request, View(), out)
    {
      match request.backend {
        case Some(pinned) =>
          if pinned !in pool.backends { return UnknownBackend; }
          var ok := Available(pool, pinned);
          if !ok { return NoCapacity; }
          active := active[Slot(pool.name, pinned) := Get(active, Slot(pool.name, pinned)) + 1];
          return Granted(pinned);
        case None =>
          var ring := CandidateBackends(pool);
          RingMembers(pool, ring);
          out := Rotate(pool, ring);
      }
    }

    method Rotate(pool: PoolConfig, ring: seq<BackendName>) returns (out: Outcome)
      requires SamePool(pool, ring)
      modifies this
      ensures Rotates(old(View()), pool, ring, View(), out)
    {
      if ring == [] { return NoCapacity; }
      var n := |ring|;
      var start := Get(cursors, pool.name) % n;
      ghost var was := View();
      for offset := 0 to n
        invariant View() == was
        invariant forall o: nat | o < offset :: !Free(was, pool, ring[Spot(was, pool.name, n, o)])
      {
        ModIsWrap(start + offset, n);
        ModIsWrap(start + offset + 1, n);
        var candidate := ring[(start + offset) % n];
        assert candidate in ring;
        var ok := Available(pool, candidate);
        if ok {
          active := active[Slot(pool.name, candidate) := Get(active, Slot(pool.name, candidate)) + 1];
          cursors := cursors[pool.name := (start + offset + 1) % n];
          assert Entry(was, pool.name, ring, offset) == Granted(candidate);
          assert View() == Took(was, pool.name, ring[Spot(was, pool.name, n, offset)])
                           .(cursors := was.cursors[pool.name := Spot(was, pool.name, n, offset + 1)]);
          assert exists b :: b in ring && Free(was, pool, b);
          return Granted(candidate);
        }
      }
      RingCovered(was, pool, ring);
      return NoCapacity;
    }

    method Release(pool: PoolName, b: BackendName)
      modifies this
      ensures Releases(old(View()), pool, b, View())
    {
      if Get(active, Slot(pool, b)) > 0 {
        active := active[Slot(pool, b) := active[Slot(pool, b)] - 1];
      }
    }
  }

  /** Steps from ring position c forward to position j, wrapping around. */
  function Distance(c: nat, j: nat, n: nat): (d: nat)
    requires c < n && j < n
    ensures d < n && Wrap(c + d, n) == j
  {
    if j >= c then j - c else j + n - c
  }

  /** Where the rotation stands before a run of moves. */
  function From(s: Counters, pool: PoolName, j: nat, n: nat): (d: nat)
    requires j < n
    ensures d < n && Spot(s, pool, n, d) == j
  {
    Distance(Start(s, pool, n), j, n)
  }

  /** Walking n steps from any cursor visits every ring entry. */
  lemma RingCovered(s: Counters, pool: PoolConfig, ring: seq<BackendName>)
    requires ring != []
    requires forall o: nat | o < |ring| :: !Free(s, pool, ring[Spot(s, pool.name, |ring|, o)])
    ensures forall b <- ring :: !Free(s, pool, b)
  {
    forall b | b in ring ensures !Free(s, pool, b) {
      var j :| 0 <= j < |ring| && ring[j] == b;
      var d := From(s, pool.name, j, |ring|);
      assert !Free(s, pool, ring[Spot(s, pool.name, |ring|, d)]);
    }
  }

  // ------------------------------------------------------------- runs of moves

  /** One scheduler call: an unpinned reservation in the pool under study, or any
      call that leaves that pool's cursor alone. */
  datatype Move =
    | Unpinned(before: Counters, after: Counters, cfg: PoolConfig, out: Outcome)
    | Quiet(before: Counters, after: Counters)

  ghost predicate Legal(move: Move, pool: PoolName, ring: seq<BackendName>) {
    match move
    case Unpinned(s, s', cfg, out) => cfg.name == pool && Rotates(s, cfg, ring, s', out)
    case Quiet(s, s') => Get(s'.cursors, pool) == Get(s.cursors, pool)
  }

  ghost predicate IsRun(moves: seq<Move>, pool: PoolName, ring: seq<BackendName>) {
    && (forall m <- moves :: Legal(m, pool, ring))
    && (forall i: nat | i + 1 < |moves| :: Linked(moves, i))
  }

  predicate Linked(moves: seq<Move>, i: nat)
    requires i + 1 < |moves|
  {
    moves[i + 1].before == moves[i].after
  }

  /** Pinned reservations, releases and other pools' reservations are quiet moves. */
  lemma QuietCalls(s: Counters, pool: PoolName, cfg: PoolConfig, request: Request, s': Counters, out: Outcome,
                   b: BackendName)
    ensures Reserves(s, cfg, request, s', out) && (request.backend.Some? || cfg.name != pool)
            ==> Legal(Quiet(s, s'), pool, [])
    ensures Releases(s, cfg.name, b, s') ==> Legal(Quiet(s, s'), pool, [])
  {
  }

  /** The backends granted by a run's unpinned reservations, in order. */
  function Picks(moves: seq<Move>): seq<BackendName> {
    if moves == [] then []
    else (match moves[0]
          case Unpinned(_, _, _, Granted(b)) => [b]
          case _ => []) + Picks(moves[1..])
  }

  /** b could have been chosen at every unpinned reservation. */
  ghost predicate AlwaysFree(moves: seq<Move>, b: BackendName) {
    forall m <- moves | m.Unpinned? :: Free(m.before, m.cfg, b)
  }

  lemma RunTail(moves: seq<Move>, pool: PoolName, ring: seq<BackendName>)
    requires IsRun(moves, pool, ring) && |moves| > 1
    ensures IsRun(moves[1..], pool, ring) && moves[1..][0].before == moves[0].after
    ensures forall b | AlwaysFree(moves, b) :: AlwaysFree(moves[1..], b)
  {
    var rest := moves[1..];
    forall m <- rest ensures m in moves {}
    forall i: nat | i + 1 < |rest| ensures Linked(rest, i) {
      assert Linked(moves, i + 1);
    }
    assert Linked(moves, 0);
  }

  lemma NewStart(s: Counters, pool: PoolName, n: nat, c: nat)
    requires c < n && Get(s.cursors, pool) == c
    ensures Start(s, pool, n) == c
  {
  }

  /** A rotation with a free entry takes the first free one and moves the cursor past it. */
  lemma RotationTakes(s: Counters, cfg: PoolConfig, ring: seq<BackendName>, s': Counters, out: Outcome)
    returns (off: nat)
    requires ring != [] && Rotates(s, cfg, ring, s', out) && exists b <- ring :: Free(s, cfg, b)
    ensures off < |ring| && out == Granted(ring[Spot(s, cfg.name, |ring|, off)])
    ensures forall o: nat | o < off :: !Free(s, cfg, ring[Spot(s, cfg.name, |ring|, o)])
    ensures Start(s', cfg.name, |ring|) == Wrap(Start(s, cfg.name, |ring|) + off + 1, |ring|)
  {
    var n := |ring|;
    off :| off < n
      && Entry(s, cfg.name, ring, off) == out
      && (forall o: nat | o < off :: !Free(s, cfg, ring[Spot(s, cfg.name, n, o)]))
      && s' == Took(s, cfg.name, ring[Spot(s, cfg.name, n, off)])
               .(cursors := s.cursors[cfg.name := Spot(s, cfg.name, n, off + 1)]);
    NewStart(s', cfg.name, n, Spot(s, cfg.name, n, off + 1));
  }

  /** While b is free, an unpinned reservation either picks b or brings the cursor
      strictly closer to b. */
  lemma PickApproaches(s: Counters, cfg: PoolConfig, ring: seq<BackendName>, s': Counters, out: Outcome, j: nat)
    requires j < |ring| && Free(s, cfg, ring[j])
    requires Rotates(s, cfg, ring, s', out)
    ensures out.Granted?
    ensures out == Granted(ring[j]) ||
            From(s', cfg.name, j, |ring|) < From(s, cfg.name, j, |ring|)
  {
    var n := |ring|;
    assert ring[j] in ring;
    var off := RotationTakes(s, cfg, ring, s', out);
    var c, d := Start(s, cfg.name, n), From(s, cfg.name, j, n);
    assert Spot(s, cfg.name, n, d) == j;
    assert off <= d;
    CloserBy(c, j, n, off);
  }

  /** Moving past off < d positions leaves d - off - 1 to go; arriving needs off == d. */
  lemma CloserBy(c: nat, j: nat, n: nat, off: nat)
    requires c < n && j < n && off <= Distance(c, j, n)
    ensures off < Distance(c, j, n) ==> Distance(Wrap(c + off + 1, n), j, n) == Distance(c, j, n) - off - 1
  {
  }

  /** An always-available backend is chosen within ring-length unpinned
      reservations, from any cursor, whatever else happens in between. */
  lemma RotationReaches(moves: seq<Move>, pool: PoolName, ring: seq<BackendName>, b: BackendName)
    requires IsRun(moves, pool, ring) && b in ring && AlwaysFree(moves, b)
    requires |Picks(moves)| >= |ring|
    ensures b in Picks(moves)
    ensures b in Picks(moves)[..|ring|]
  {
    var j :| 0 <= j < |ring| && ring[j] == b;
    var d := From(moves[0].before, pool, j, |ring|);
    ReachesWithin(moves, pool, ring, j);
    assert b in Picks(moves)[..d + 1];
  }

  lemma {:induction false} ReachesWithin(moves: seq<Move>, pool: PoolName, ring: seq<BackendName>, j: nat)
    requires IsRun(moves, pool, ring) && j < |ring| && AlwaysFree(moves, ring[j]) && moves != []
    requires |Picks(moves)| > From(moves[0].before, pool, j, |ring|)
    ensures ring[j] in Picks(moves)[..From(moves[0].before, pool, j, |ring|) + 1]
  {
    var m := moves[0];
    assert Legal(m, pool, ring);
    var d := From(m.before, pool, j, |ring|);
    if m.Unpinned? {
      PickApproaches(m.before, m.cfg, ring, m.after, m.out, j);
      assert Picks(moves) == [m.out.backend] + Picks(moves[1..]);
      if m.out.backend == ring[j] {
        assert Picks(moves)[..d + 1][0] == ring[j];
      } else {
        RunTail(moves, pool, ring);
        ReachesWithin(moves[1..], pool, ring, j);
        InLongerPrefix(m.out.backend, Picks(moves[1..]), ring[j], From(m.after, pool, j, |ring|) + 1, d);
      }
    } else {
      assert Picks(moves) == Picks(moves[1..]);
      RunTail(moves, pool, ring);
      ReachesWithin(moves[1..], pool, ring, j);
    }
  }

  lemma InLongerPrefix(a: BackendName, s: seq<BackendName>, x: BackendName, k: nat, n: nat)
    requires k <= n <= |s| && x in s[..k]
    ensures x in ([a] + s)[..n + 1]
  {
    var i :| 0 <= i < k && s[i] == x;
    assert ([a] + s)[..n + 1][i + 1] == x;
  }

  /** The first k ring entries read from position c, wrapping around. */
  function ReadFrom(ring: seq<BackendName>, c: nat, k: nat): seq<BackendName>
    requires c < |ring| && k <= |ring|
  {
    if c + k <= |ring| then ring[c..c + k] else ring[c..] + ring[..c + k - |ring|]
  }

  lemma ReadAt(ring: seq<BackendName>, c: nat, k: nat, i: nat)
    requires c < |ring| && i < k <= |ring|
    ensures |ReadFrom(ring, c, k)| == k && ReadFrom(ring, c, k)[i] == ring[Wrap(c + i, |ring|)]
  {
  }

  lemma ReadNext(ring: seq<BackendName>, c: nat, k: nat)
    requires c < |ring| && 0 < k <= |ring|
    ensures ReadFrom(ring, c, k) == [ring[c]] + ReadFrom(ring, Wrap(c + 1, |ring|), k - 1)
  {
    var all, rest := ReadFrom(ring, c, k), ReadFrom(ring, Wrap(c + 1, |ring|), k - 1);
    ReadAt(ring, c, k, 0);
    forall i: nat | 0 < i < k ensures |rest| == k - 1 && all[i] == rest[i - 1] {
      ReadAt(ring, c, k, i);
      ReadAt(ring, Wrap(c + 1, |ring|), k - 1, i - 1);
    }
    if k > 1 { ReadAt(ring, Wrap(c + 1, |ring|), k - 1, 0); }
    SameSequence(all, [ring[c]] + rest);
  }

  lemma SameSequence<T>(a: seq<T>, b: seq<T>)
    requires |a| == |b| && forall i | 0 <= i < |a| :: a[i] == b[i]
    ensures a == b
  {
  }

  /** With every entry always free, the picks read the ring straight through from the cursor. */
  lemma {:induction false} PicksReadTheRing(moves: seq<Move>, pool: PoolName, ring: seq<BackendName>)
    requires IsRun(moves, pool, ring) && ring != [] && moves != []
    requires forall b <- ring :: AlwaysFree(moves, b)
    requires |Picks(moves)| <= |ring|
    ensures Picks(moves) == ReadFrom(ring, Start(moves[0].before, pool, |ring|), |Picks(moves)|)
  {
    HeadPicks(moves, pool, ring);
    if |moves| > 1 {
      RunTail(moves, pool, ring);
      PicksReadTheRing(moves[1..], pool, ring);
    }
    ReadOn(ring, Start(moves[0].before, pool, |ring|), Start(moves[0].after, pool, |ring|),
           Picks(moves), Picks(moves[1..]), moves[0].Unpinned?);
  }

  /** One more entry read, or none. */
  lemma ReadOn(ring: seq<BackendName>, c: nat, c': nat, all: seq<BackendName>, rest: seq<BackendName>, taken: bool)
    requires c < |ring| && c' < |ring| && |all| <= |ring| && |rest| <= |all|
    requires if taken then all == [ring[c]] + rest && c' == Wrap(c + 1, |ring|) else all == rest && c' == c
    requires rest == ReadFrom(ring, c', |rest|)
    ensures all == ReadFrom(ring, c, |all|)
  {
    if taken { ReadNext(ring, c, |all|); }
  }

  lemma HeadPicks(moves: seq<Move>, pool: PoolName, ring: seq<BackendName>)
    requires IsRun(moves, pool, ring) && ring != [] && moves != []
    requires forall b <- ring :: AlwaysFree(moves, b)
    ensures var m, c := moves[0], Start(moves[0].before, pool, |ring|);
            if m.Unpinned?
            then Picks(moves) == [ring[c]] + Picks(moves[1..]) && Start(m.after, pool, |ring|) == Wrap(c + 1, |ring|)
            else Picks(moves) == Picks(moves[1..]) && Start(m.after, pool, |ring|) == c
  {
    var m := moves[0];
    assert Legal(m, pool, ring);
    if m.Unpinned? {
      forall b <- ring ensures Free(m.before, m.cfg, b) { assert AlwaysFree(moves, b); }
      FirstEntryWins(m.before, m.cfg, ring, m.after, m.out);
    }
  }

  lemma FirstEntryWins(s: Counters, cfg: PoolConfig, ring: seq<BackendName>, s': Counters, out: Outcome)
    requires ring != [] && Rotates(s, cfg, ring, s', out)
    requires forall b <- ring :: Free(s, cfg, b)
    ensures out == Granted(ring[Start(s, cfg.name, |ring|)])
    ensures Start(s', cfg.name, |ring|) == Wrap(Start(s, cfg.name, |ring|) + 1, |ring|)
  {
    assert ring[0] in ring && Free(s, cfg, ring[0]);
    assert ring[Spot(s, cfg.name, |ring|, 0)] in ring;
    var off := RotationTakes(s, cfg, ring, s', out);
    assert off == 0;
  }

  /** While every backend stays available, each stretch of ring-length unpinned
      reservations picks every backend exactly as often as the ring holds it:
      its weight under weighted round-robin, once under round-robin. */
  lemma SharesAreExact(moves: seq<Move>, cfg: PoolConfig, ring: seq<BackendName>, b: BackendName)
    requires IsRing(cfg, ring) && b in cfg.backends
    requires IsRun(moves, cfg.name, ring)
    requires forall x <- ring :: AlwaysFree(moves, x)
    requires |Picks(moves)| == |ring|
    ensures Count(Picks(moves), Is(b)) == if cfg.weighted then WeightOf(cfg, b) else 1
  {
    RingMembers(cfg, ring);
    PicksReadTheRing(moves, cfg.name, ring);
    var c := Start(moves[0].before, cfg.name, |ring|);
    assert ReadFrom(ring, c, |ring|) == ring[c..] + ring[..c];
    assert ring == ring[..c] + ring[c..];
    CountConcat(ring[c..], ring[..c], Is(b));
    CountConcat(ring[..c], ring[c..], Is(b));
    RingShares(cfg, ring, b);
  }
}
