/** Counting over sequences and maps, used wherever the broker keeps a counter
    that must agree with a collection of records. */
module Basics {

  datatype Option<+T> = None | Some(value: T)

  function Min(a: int, b: int): int { if a <= b then a else b }

  function Max(a: int, b: int): int { if a >= b then a else b }

  /** The counter stored under k; an absent key counts as zero, as in a Go map. */
  function Get<K>(m: map<K, int>, k: K): int { if k in m then m[k] else 0 }

  // ---------------------------------------------------------------- sequences

  /** How many elements of s satisfy p. */
  ghost function Count<T>(s: seq<T>, p: T -> bool): nat {
    if s == [] then 0
    else Count(s[..|s| - 1], p) + (if p(s[|s| - 1]) then 1 else 0)
  }

  lemma CountAppend<T>(s: seq<T>, x: T, p: T -> bool)
    ensures Count(s + [x], p) == Count(s, p) + (if p(x) then 1 else 0)
  {
    assert (s + [x])[..|s|] == s;
  }

  lemma {:induction false} CountConcat<T>(s: seq<T>, t: seq<T>, p: T -> bool)
    ensures Count(s + t, p) == Count(s, p) + Count(t, p)
  {
    if t == [] {
      assert s + t == s;
    } else {
      var n := |t| - 1;
      assert s + t == (s + t[..n]) + [t[n]];
      CountAppend(s + t[..n], t[n], p);
      CountConcat(s, t[..n], p);
    }
  }

  /** s without its element at position i. */
  function Without<T>(s: seq<T>, i: nat): seq<T>
    requires i < |s|
  {
    s[..i] + s[i + 1..]
  }

  lemma {:induction false} CountWithout<T>(s: seq<T>, i: nat, p: T -> bool)
    requires i < |s|
    ensures Count(Without(s, i), p) == Count(s, p) - (if p(s[i]) then 1 else 0)
  {
    var n := |s| - 1;
    if i == n {
      assert Without(s, i) == s[..n];
    } else {
      CountWithout(s[..n], i, p);
      assert Without(s, i) == Without(s[..n], i) + [s[n]];
      CountAppend(Without(s[..n], i), s[n], p);
    }
  }

  lemma {:induction false} CountLe<T>(s: seq<T>, p: T -> bool, q: T -> bool)
    requires forall x <- s :: p(x) ==> q(x)
    ensures Count(s, p) <= Count(s, q)
  {
    if s != [] {
      var n := |s| - 1;
      assert s[n] in s;
      CountLe(s[..n], p, q);
    }
  }

  /** A count splits into the part that also satisfies q and the part that does not. */
  lemma {:induction false} CountSplit<T>(s: seq<T>, p: T -> bool, q: T -> bool, r: T -> bool)
    requires forall x <- s :: (p(x) <==> q(x) || r(x)) && !(q(x) && r(x))
    ensures Count(s, p) == Count(s, q) + Count(s, r)
  {
    if s != [] {
      var n := |s| - 1;
      assert s[n] in s;
      CountSplit(s[..n], p, q, r);
    }
  }

  lemma {:induction false} CountNone<T>(s: seq<T>, p: T -> bool)
    requires forall x <- s :: !p(x)
    ensures Count(s, p) == 0
  {
    if s != [] {
      var n := |s| - 1;
      assert s[n] in s;
      CountNone(s[..n], p);
    }
  }

  lemma {:induction false} CountPositive<T>(s: seq<T>, i: nat, p: T -> bool)
    requires i < |s| && p(s[i])
    ensures Count(s, p) > 0
  {
    if i < |s| - 1 {
      CountPositive(s[..|s| - 1], i, p);
    }
  }

  /** The elements of s that satisfy p, in order. */
  function Filter<T>(s: seq<T>, p: T -> bool): (r: seq<T>)
    ensures |r| <= |s|
  {
    if s == [] then []
    else Filter(s[..|s| - 1], p) + (if p(s[|s| - 1]) then [s[|s| - 1]] else [])
  }

  lemma FilterAppend<T>(s: seq<T>, x: T, p: T -> bool)
    ensures Filter(s + [x], p) == Filter(s, p) + (if p(x) then [x] else [])
  {
    assert (s + [x])[..|s|] == s;
  }

  /** Filtering twice is filtering once by the narrower test. */
  lemma {:induction false} FilterTwice<T>(s: seq<T>, p: T -> bool, q: T -> bool)
    requires forall x <- s :: q(x) ==> p(x)
    ensures Filter(Filter(s, p), q) == Filter(s, q)
  {
    if s != [] {
      var n := |s| - 1;
      var x := s[n];
      assert x in s;
      assert forall y <- s[..n] :: y in s;
      FilterTwice(s[..n], p, q);
      var kept := Filter(s[..n], p);
      if p(x) {
        assert Filter(s, p) == kept + [x];
        FilterAppend(kept, x, q);
      } else {
        assert Filter(s, p) == kept;
      }
    }
  }

  lemma {:induction false} CountFilter<T>(s: seq<T>, p: T -> bool, q: T -> bool, both: T -> bool)
    requires forall x <- s :: both(x) <==> p(x) && q(x)
    ensures Count(Filter(s, p), q) == Count(s, both)
  {
    if s != [] {
      var n := |s| - 1;
      assert s[n] in s;
      CountFilter(s[..n], p, q, both);
      if p(s[n]) {
        CountAppend(Filter(s[..n], p), s[n], q);
      } else {
        assert Filter(s, p) == Filter(s[..n], p);
      }
    }
  }

  // --------------------------------------------------------------------- maps

  /** The key an iteration over a map yields next: any of those not yet visited. */
  method NextKey<K(==)>(rest: set<K>) returns (k: K)
    requires rest != {}
    ensures k in rest
  {
    k :| k in rest;
  }

  /** The keys of m whose value satisfies p. */
  function Where<K, V>(m: map<K, V>, p: V -> bool): set<K> {
    set k | k in m && p(m[k])
  }

  lemma WhereUpdate<K, V>(m: map<K, V>, k: K, v: V, p: V -> bool)
    ensures |Where(m[k := v], p)| == |Where(m, p)|
              - (if k in m && p(m[k]) then 1 else 0) + (if p(v) then 1 else 0)
  {
    assert Where(m[k := v], p) == Where(m, p) - {k} + (if p(v) then {k} else {});
    assert k in Where(m, p) <==> k in m && p(m[k]);
  }

  lemma WhereRemove<K, V>(m: map<K, V>, k: K, p: V -> bool)
    ensures |Where(m - {k}, p)| == |Where(m, p)| - (if k in m && p(m[k]) then 1 else 0)
  {
    assert Where(m - {k}, p) == Where(m, p) - {k};
    assert k in Where(m, p) <==> k in m && p(m[k]);
  }

  /** The sum of the counters of m whose key satisfies p. */
  ghost function SumWhere<K>(m: map<K, int>, p: K -> bool): int
    decreases |m|
  {
    if m == map[] then 0
    else
      var k :| k in m;
      assert |m - {k}| < |m| by { SmallerMap(m, k); }
      (if p(k) then m[k] else 0) + SumWhere(m - {k}, p)
  }

  lemma SmallerMap<K, V>(m: map<K, V>, k: K)
    requires k in m
    ensures |m - {k}| == |m| - 1
  {
    assert (m - {k}).Keys == m.Keys - {k};
    assert |m.Keys| == |m|;
    assert |(m - {k}).Keys| == |m - {k}|;
  }

  /** The sum does not depend on the order in which the keys are visited. */
  lemma {:induction false} SumWhereTake<K>(m: map<K, int>, k: K, p: K -> bool)
    requires k in m
    ensures SumWhere(m, p) == SumWhere(m - {k}, p) + (if p(k) then m[k] else 0)
    decreases |m|
  {
    var j :| j in m && SumWhere(m, p) == (if p(j) then m[j] else 0) + SumWhere(m - {j}, p);
    if j != k {
      SmallerMap(m, j);
      SmallerMap(m, k);
      SumWhereTake(m - {j}, k, p);
      SumWhereTake(m - {k}, j, p);
      assert m - {j} - {k} == m - {k} - {j};
    }
  }

  lemma SumWhereUpdate<K>(m: map<K, int>, k: K, v: int, p: K -> bool)
    ensures SumWhere(m[k := v], p) == SumWhere(m, p) + (if p(k) then v - Get(m, k) else 0)
  {
    SumWhereTake(m[k := v], k, p);
    assert m[k := v] - {k} == m - {k};
    if k in m {
      SumWhereTake(m, k, p);
    } else {
      assert m - {k} == m;
    }
  }

  lemma SumWhereRemove<K>(m: map<K, int>, k: K, p: K -> bool)
    ensures SumWhere(m - {k}, p) == SumWhere(m, p) - (if p(k) then Get(m, k) else 0)
  {
    if k in m {
      SumWhereTake(m, k, p);
    } else {
      assert m - {k} == m;
    }
  }
}
