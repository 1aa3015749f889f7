/** The candidate ring: backends ordered by cost and preference, optionally repeated by weight. */
module Ring {
  import opened Basics
  import opened Model

  // Backends 0 to 9 are the ten names with a fixed preference, in that order.
  const PREFERRED := 10

  function Rank(b: BackendName): int { if 0 <= b < PREFERRED then b else PREFERRED }

  predicate Before(pool: PoolConfig, a: BackendName, b: BackendName)
    requires a in pool.backends && b in pool.backends
  {
    var ca, cb := pool.backends[a].cost, pool.backends[b].cost;
    ca < cb || (ca == cb && Rank(a) < Rank(b))
  }

  ghost predicate Distinct<T>(s: seq<T>) {
    forall i, j | 0 <= i < j < |s| :: s[i] != s[j]
  }

  /** ring lists exactly the pool's backends, once each, in an order that never
      contradicts cost and preference. Ties come out in map iteration order: any order. */
  ghost predicate IsOrdered(pool: PoolConfig, ring: seq<BackendName>) {
    && Distinct(ring)
    && (forall b :: b in ring <==> b in pool.backends)
    && (forall i, j | 0 <= i < j < |ring| :: !Before(pool, ring[j], ring[i]))
  }

  ghost predicate Prefix(pool: PoolConfig, ring: seq<BackendName>, taken: set<BackendName>) {
    && Distinct(ring)
    && taken <= pool.backends.Keys
    && (forall b :: b in ring <==> b in taken)
    && (forall i, j | 0 <= i < j < |ring| :: !Before(pool, ring[j], ring[i]))
  }

  /** Inserts b behind the entries it does not precede. */
  method Insert(pool: PoolConfig, ring: seq<BackendName>, ghost taken: set<BackendName>, b: BackendName)
    returns (r: seq<BackendName>)
    requires Prefix(pool, ring, taken) && b in pool.backends && b !in taken
    ensures Prefix(pool, r, taken + {b})
  {
    var i := |ring|;
    while i > 0 && Before(pool, b, ring[i - 1])
      invariant 0 <= i <= |ring|
      invariant forall k | i <= k < |ring| :: Before(pool, b, ring[k])
    {
      i := i - 1;
    }
    r := ring[..i] + [b] + ring[i..];
    forall j | 0 <= j < i ensures !Before(pool, b, ring[j]) {
      if j < i - 1 { assert !Before(pool, ring[i - 1], ring[j]); }
    }
    forall x ensures x in r <==> x in taken + {b} {
      assert ring == ring[..i] + ring[i..];
    }
  }

  method OrderedBackends(pool: PoolConfig) returns (ring: seq<BackendName>)
    ensures IsOrdered(pool, ring)
  {
    ring := [];
    ghost var taken := {};
    var rest: set<BackendName> := pool.backends.Keys;
    while rest != {}
      invariant Prefix(pool, ring, taken)
      invariant taken + rest == pool.backends.Keys && taken !! rest
      decreases rest
    {
      var b := NextKey(rest);
      ring := Insert(pool, ring, taken, b);
      rest, taken := rest - {b}, taken + {b};
    }
  }

  /** With no two backends equal in both cost and preference, the ring is the
      same however the backend map is iterated. */
  lemma {:induction false} OrderIsUnique(pool: PoolConfig, r: seq<BackendName>, s: seq<BackendName>)
    requires IsOrdered(pool, r) && IsOrdered(pool, s)
    requires forall a, b | a in pool.backends && b in pool.backends && a != b ::
               Before(pool, a, b) || Before(pool, b, a)
    ensures r == s
  {
    SameHead(pool, r, s, |r|);
    SameHead(pool, s, r, |s|);
    assert r == r[..|r|] && s == s[..|s|];
  }

  lemma {:induction false} SameHead(pool: PoolConfig, r: seq<BackendName>, s: seq<BackendName>, n: nat)
    requires IsOrdered(pool, r) && IsOrdered(pool, s) && n <= |r|
    requires forall a, b | a in pool.backends && b in pool.backends && a != b ::
               Before(pool, a, b) || Before(pool, b, a)
    ensures n <= |s| && r[..n] == s[..n]
  {
    if n > 0 {
      var m := n - 1;
      SameHead(pool, r, s, m);
      assert forall j | 0 <= j < m :: r[j] == r[..m][j] == s[..m][j] == s[j];
      assert r[m] in r;
      var j :| 0 <= j < |s| && s[j] == r[m];
      assert j >= m && m < |s|;
      assert s[m] in s;
      var k :| 0 <= k < |r| && r[k] == s[m];
      assert k >= m;
      assert r[..n] == r[..m] + [r[m]] && s[..n] == s[..m] + [s[m]];
    }
  }

  // ------------------------------------------------------------------- weights

  function Weight(cfg: BackendConfig): (w: nat)
    ensures w > 0
  {
    if cfg.weight > 0 then cfg.weight else 1
  }

  function WeightOf(pool: PoolConfig, b: BackendName): nat {
    if b in pool.backends then Weight(pool.backends[b]) else 0
  }

  function Repeat<T>(x: T, n: nat): seq<T> { seq(n, _ => x) }

  /** Every entry of ring repeated as often as its weight. */
  function Expand(pool: PoolConfig, ring: seq<BackendName>): seq<BackendName> {
    if ring == [] then []
    else Expand(pool, ring[..|ring| - 1]) + Repeat(ring[|ring| - 1], WeightOf(pool, ring[|ring| - 1]))
  }

  method WeightedBackends(pool: PoolConfig) returns (ring: seq<BackendName>, ghost ordered: seq<BackendName>)
    ensures IsOrdered(pool, ordered)
    ensures ring == Expand(pool, ordered)
  {
    var names := OrderedBackends(pool);
    ordered := names;
    ring := [];
    assert forall b <- names :: b in pool.backends;
    for i := 0 to |names|
      invariant ring == Expand(pool, names[..i])
    {
      var weight := Weight(pool.backends[names[i]]);
      ghost var before := ring;
      for k := 0 to weight
        invariant ring == before + Repeat(names[i], k)
      {
        ring := ring + [names[i]];
      }
      assert names[..i + 1][..i] == names[..i];
    }
    assert names[..|names|] == names;
  }

  ghost function Is(b: BackendName): BackendName -> bool { x => x == b }

  lemma {:induction false} CountRepeat(x: BackendName, n: nat, b: BackendName)
    ensures Count(Repeat(x, n), Is(b)) == if x == b then n else 0
  {
    if n > 0 {
      CountRepeat(x, n - 1, b);
      assert Repeat(x, n) == Repeat(x, n - 1) + [x];
      CountAppend(Repeat(x, n - 1), x, Is(b));
    }
  }

  /** In the weighted ring each backend has exactly its weight in slots. */
  lemma {:induction false} ExpandCount(pool: PoolConfig, ring: seq<BackendName>, b: BackendName)
    requires Distinct(ring) && forall x <- ring :: x in pool.backends
    ensures Count(Expand(pool, ring), Is(b)) == if b in ring then WeightOf(pool, b) else 0
  {
    if ring != [] {
      var n := |ring| - 1;
      ExpandCount(pool, ring[..n], b);
      CountRepeat(ring[n], WeightOf(pool, ring[n]), b);
      CountConcat(Expand(pool, ring[..n]), Repeat(ring[n], WeightOf(pool, ring[n])), Is(b));
      assert ring == ring[..n] + [ring[n]];
    }
  }

  ghost predicate SamePool(pool: PoolConfig, ring: seq<BackendName>) {
    forall b :: b in ring <==> b in pool.backends
  }

  lemma {:induction false} ExpandMembers(pool: PoolConfig, ring: seq<BackendName>, b: BackendName)
    requires forall x <- ring :: x in pool.backends
    ensures b in Expand(pool, ring) <==> b in ring
  {
    if ring != [] {
      var n := |ring| - 1;
      ExpandMembers(pool, ring[..n], b);
      assert ring == ring[..n] + [ring[n]];
      assert Repeat(ring[n], WeightOf(pool, ring[n]))[0] == ring[n];
    }
  }

  /** A ring the pool's scheduler may walk: weight-expanded exactly when the pool asks for it. */
  ghost predicate IsRing(pool: PoolConfig, ring: seq<BackendName>) {
    if pool.weighted
    then exists ordered :: IsOrdered(pool, ordered) && ring == Expand(pool, ordered)
    else IsOrdered(pool, ring)
  }

  method CandidateBackends(pool: PoolConfig) returns (ring: seq<BackendName>)
    ensures IsRing(pool, ring)
  {
    if pool.weighted {
      ghost var ordered;
      ring, ordered := WeightedBackends(pool);
    } else {
      ring := OrderedBackends(pool);
    }
  }

  /** Whatever its weights, the ring mentions the pool's backends and nothing else. */
  lemma RingMembers(pool: PoolConfig, ring: seq<BackendName>)
    requires IsRing(pool, ring)
    ensures SamePool(pool, ring)
  {
    if pool.weighted {
      var ordered :| IsOrdered(pool, ordered) && ring == Expand(pool, ordered);
      forall b ensures b in ring <==> b in pool.backends {
        ExpandMembers(pool, ordered, b);
      }
    }
  }

  /** Slots per backend in a ring: the weight in a weighted pool, otherwise one. */
  lemma RingShares(pool: PoolConfig, ring: seq<BackendName>, b: BackendName)
    requires IsRing(pool, ring) && b in pool.backends
    ensures Count(ring, Is(b)) == if pool.weighted then WeightOf(pool, b) else 1
  {
    if pool.weighted {
      var ordered :| IsOrdered(pool, ordered) && ring == Expand(pool, ordered);
      ExpandCount(pool, ordered, b);
    } else {
      DistinctCount(ring, b);
    }
  }

  lemma {:induction false} DistinctCount(ring: seq<BackendName>, b: BackendName)
    requires Distinct(ring)
    ensures Count(ring, Is(b)) == if b in ring then 1 else 0
  {
    if ring != [] {
      var n := |ring| - 1;
      assert ring == ring[..n] + [ring[n]];
      DistinctCount(ring[..n], b);
    }
  }
}
