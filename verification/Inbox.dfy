/** The webhook inbox: a queue of deliveries that are leased to whoever drains it and removed
    only when acknowledged. */
module Inbox {
  import opened Basics

  type Time = int
  type Payload = int

  datatype Item = Item(deliveryId: string, payload: Payload, attempts: nat, receivedAt: Time, lockedUntil: Option<Time>)

  type Queue = map<int, Item>

  predicate IsFree(x: Item, now: Time) { x.lockedUntil.None? || x.lockedUntil.value <= now }

  function Free(m: Queue, now: Time): set<int> { set id | id in m && IsFree(m[id], now) }

  predicate Queued(m: Queue, deliveryId: string) { exists id :: id in m && m[id].deliveryId == deliveryId }

  function Elements(s: seq<int>): set<int> { set x | x in s }

  predicate Ascending(s: seq<int>) { forall i, j | 0 <= i < j < |s| :: s[i] < s[j] }

  /** The queue after one more attempt at each of ids has been leased. */
  function Leased(m: Queue, ids: set<int>, until: Time): Queue {
    map id | id in m :: if id in ids then m[id].(attempts := m[id].attempts + 1, lockedUntil := Some(until)) else m[id]
  }

  /** s is what a claim returns: the oldest free deliveries, oldest first, as many as the limit lets. */
  ghost predicate Claims(m: Queue, limit: int, now: Time, s: seq<int>) {
    && Ascending(s) && Elements(s) <= Free(m, now)
    && |s| == (if limit > 0 then Min(limit, |Free(m, now)|) else |Free(m, now)|)
    && forall id <- Free(m, now) - Elements(s), x <- s :: x < id
  }

  lemma {:induction false} AscendingSize(s: seq<int>)
    requires Ascending(s)
    ensures |Elements(s)| == |s|
  {
    if s != [] {
      var n := |s| - 1;
      AscendingSize(s[..n]);
      assert Elements(s) == Elements(s[..n]) + {s[n]};
    }
  }

  lemma {:induction false} AscendingIsUnique(s: seq<int>, t: seq<int>)
    requires Ascending(s) && Ascending(t) && |s| == |t| && Elements(s) == Elements(t)
    ensures s == t
  {
    if s != [] {
      var n := |s| - 1;
      assert s[n] in Elements(t) && t[n] in Elements(s);
      assert s[n] == t[n];
      forall x ensures x in Elements(s[..n]) <==> x in Elements(t[..n]) {
        assert x in Elements(s) <==> x in Elements(s[..n]) || x == s[n];
        assert x in Elements(t) <==> x in Elements(t[..n]) || x == t[n];
      }
      AscendingIsUnique(s[..n], t[..n]);
    }
  }

  class WebhookInbox {
    var nextId: int
    var items: Queue

    constructor ()
      ensures nextId == 0 && items == map[]
    {
      nextId, items := 0, map[];
    }

    method Enqueue(deliveryId: string, payload: Payload, now: Time)
      modifies this
      ensures if Queued(old(items), deliveryId) then nextId == old(nextId) && items == old(items)
              else nextId == old(nextId) + 1 && items == old(items)[nextId := Item(deliveryId, payload, 0, now, None)]
    {
      var rest := items.Keys;
      while rest != {}
        invariant rest <= items.Keys
        invariant forall id | id in items && id !in rest :: items[id].deliveryId != deliveryId
        invariant nextId == old(nextId) && items == old(items)
        decreases rest
      {
        var id := NextKey(rest);
        if items[id].deliveryId == deliveryId { return; }
        rest := rest - {id};
      }
      nextId := nextId + 1;
      items := items[nextId := Item(deliveryId, payload, 0, now, None)];
    }

    method Claim(limit: int, lease: int, now: Time) returns (out: seq<int>)
      modifies `items
      ensures Claims(old(items), limit, now, out)
      ensures items == Leased(old(items), Elements(out), now + lease)
    {
      out := Unlocked(now);
      AscendingSize(out);
      if limit > 0 && |out| > limit {
        FirstAreOldest(out, limit);
        out := out[..limit];
      }
      assert Claims(items, limit, now, out);
      Lock(out, now + lease);
    }

    method Lock(out: seq<int>, until: Time)
      requires Ascending(out) && Elements(out) <= items.Keys
      modifies `items
      ensures items == Leased(old(items), Elements(out), until)
    {
      ghost var before := items;
      var i := 0;
      LeasedNone(before, until);
      while i < |out|
        invariant 0 <= i <= |out|
        invariant items == Leased(before, Elements(out[..i]), until)
      {
        var id := out[i];
        OneMore(out, i);
        LeasedOneMore(before, Elements(out[..i]), id, until);
        items := items[id := items[id].(attempts := items[id].attempts + 1, lockedUntil := Some(until))];
        i := i + 1;
      }
      assert out[..|out|] == out;
    }

    /** The free deliveries, oldest first. */
    method Unlocked(now: Time) returns (out: seq<int>)
      ensures Ascending(out) && Elements(out) == Free(items, now)
    {
      out := [];
      var rest := items.Keys;
      while rest != {}
        invariant rest <= items.Keys && Ascending(out)
        invariant Elements(out) == set id | id in items && id !in rest && IsFree(items[id], now)
        decreases rest
      {
        var id := NextKey(rest);
        rest := rest - {id};
        if items[id].lockedUntil.Some? && items[id].lockedUntil.value > now { continue; }
        assert id !in Elements(out);
        out := Insert(out, id);
      }
    }

    method Ack(id: int)
      modifies `items
      ensures items == old(items) - {id}
    {
      items := items - {id};
    }

    method Handle(claimed: seq<int>, done: set<int>) returns (acked: nat)
      requires Ascending(claimed)
      modifies `items
      ensures items == old(items) - Elements(claimed) * done && acked == |Elements(claimed) * done|
    {
      acked := 0;
      var i := 0;
      ghost var held, gone := items, {};
      assert held - gone == held;
      while i < |claimed|
        invariant 0 <= i <= |claimed|
        invariant gone == Elements(claimed[..i]) * done && acked == |gone|
        invariant items == held - gone
      {
        var id := claimed[i];
        HandledOneMore(claimed, i, done);
        if id in done {
          TakenOneMore(held, gone, id);
          Ack(id);
          acked := acked + 1;
          gone := gone + {id};
        }
        i := i + 1;
      }
      assert claimed[..|claimed|] == claimed;
    }

    /** Handles batch after batch until none is left to claim. A delivery in done is processed or
        dropped; any other stays leased. All claims happen at now, so within one lease. */
    method Drain(batch: int, lease: int, now: Time, done: set<int>) returns (processed: nat)
      requires batch > 0 && lease > 0
      modifies `items
      ensures DrainedOf(old(items), Free(old(items), now), done, now + lease, items)
      ensures processed == |Free(old(items), now) * done|
    {
      processed := 0;
      ghost var before, seen := items, {};
      assert items.Keys == before.Keys - seen * done;
      while true
        invariant seen <= Free(before, now)
        invariant DrainedOf(before, seen, done, now + lease, items)
        invariant processed == |seen * done|
        decreases |Free(before, now) - seen|
      {
        StillFree(before, seen, done, now, lease, items);
        ghost var held := items;
        var claimed := Claim(batch, lease, now);
        AscendingSize(claimed);
        var acked := Handle(claimed, done);
        processed := processed + acked;
        DrainedMore(before, seen, done, now, lease, held, Elements(claimed));
        seen := seen + Elements(claimed);
        if |claimed| < batch {
          WholeClaim(held, batch, now, claimed);
          assert seen == Free(before, now);
          return;
        }
      }
    }
  }

  /** The state after every delivery in seen has had one more attempt, and those in done are gone. */
  ghost predicate DrainedOf(before: Queue, seen: set<int>, done: set<int>, until: Time, m: Queue) {
    && m.Keys == before.Keys - seen * done
    && forall id <- m :: m[id] == Leased(before, seen, until)[id]
  }

  lemma StillFree(before: Queue, seen: set<int>, done: set<int>, now: Time, lease: int, m: Queue)
    requires lease > 0 && seen <= Free(before, now) && DrainedOf(before, seen, done, now + lease, m)
    ensures Free(m, now) == Free(before, now) - seen
  {
    forall id ensures id in Free(m, now) <==> id in Free(before, now) - seen {
      if id in m { assert m[id] == Leased(before, seen, now + lease)[id]; }
    }
  }

  lemma WholeClaim(m: Queue, limit: int, now: Time, s: seq<int>)
    requires Claims(m, limit, now, s) && 0 <= |s| < limit
    ensures Elements(s) == Free(m, now)
  {
    AscendingSize(s);
    assert Free(m, now) == Elements(s) + (Free(m, now) - Elements(s));
  }

  lemma DrainedMore(before: Queue, seen: set<int>, done: set<int>, now: Time, lease: int, held: Queue, more: set<int>)
    requires lease > 0 && DrainedOf(before, seen, done, now + lease, held) && more <= held.Keys && more !! seen
    ensures DrainedOf(before, seen + more, done, now + lease, Leased(held, more, now + lease) - more * done)
    ensures |(seen + more) * done| == |seen * done| + |more * done|
  {
    assert (seen + more) * done == seen * done + more * done;
    assert seen * done !! more * done;
    var m := Leased(held, more, now + lease) - more * done;
    assert m.Keys == before.Keys - (seen + more) * done;
    forall id <- m ensures m[id] == Leased(before, seen + more, now + lease)[id] {
      assert held[id] == Leased(before, seen, now + lease)[id];
    }
  }

  method Insert(s: seq<int>, x: int) returns (r: seq<int>)
    requires Ascending(s) && x !in s
    ensures Ascending(r) && Elements(r) == Elements(s) + {x}
  {
    var i := |s|;
    while i > 0 && x < s[i - 1]
      invariant 0 <= i <= |s| && forall k | i <= k < |s| :: x < s[k]
    {
      i := i - 1;
    }
    r := s[..i] + [x] + s[i..];
    InsertedAt(s, i, x);
  }

  lemma InsertedAt(s: seq<int>, i: nat, x: int)
    requires Ascending(s) && i <= |s|
    requires (i > 0 ==> s[i - 1] < x) && forall k | i <= k < |s| :: x < s[k]
    ensures Ascending(s[..i] + [x] + s[i..])
    ensures Elements(s[..i] + [x] + s[i..]) == Elements(s) + {x}
  {
    var r := s[..i] + [x] + s[i..];
    forall k | 0 <= k < |r| ensures r[k] == if k < i then s[k] else if k == i then x else s[k - 1] {}
    forall y ensures y in Elements(r) <==> y in Elements(s) + {x} {
      InBoth(s[..i] + [x], s[i..], y);
      InBoth(s[..i], [x], y);
      InBoth(s[..i], s[i..], y);
      assert s == s[..i] + s[i..];
    }
  }

  lemma InBoth(a: seq<int>, b: seq<int>, y: int)
    ensures y in a + b <==> y in a || y in b
  {
  }

  lemma OneMore(s: seq<int>, i: nat)
    requires Ascending(s) && i < |s|
    ensures s[i] in Elements(s) && s[i] !in Elements(s[..i])
    ensures Elements(s[..i + 1]) == Elements(s[..i]) + {s[i]}
  {
  }

  lemma HandledOneMore(s: seq<int>, i: nat, done: set<int>)
    requires Ascending(s) && i < |s|
    ensures s[i] !in Elements(s[..i]) * done
    ensures Elements(s[..i + 1]) * done == Elements(s[..i]) * done + if s[i] in done then {s[i]} else {}
  {
    OneMore(s, i);
  }

  lemma TakenOneMore(m: Queue, gone: set<int>, id: int)
    ensures m - (gone + {id}) == m - gone - {id}
  {
  }

  /** A prefix of an ascending sequence holds its smallest elements. */
  lemma FirstAreOldest(s: seq<int>, n: nat)
    requires Ascending(s) && n <= |s|
    ensures Ascending(s[..n]) && Elements(s[..n]) <= Elements(s)
    ensures forall y <- Elements(s) - Elements(s[..n]), x <- s[..n] :: x < y
  {
    assert s == s[..n] + s[n..];
    forall y <- Elements(s) - Elements(s[..n]), x <- s[..n] ensures x < y {
      assert y in s[n..];
    }
  }

  lemma LeasedNone(m: Queue, until: Time)
    ensures Leased(m, {}, until) == m
  {
    forall id | id in m ensures Leased(m, {}, until)[id] == m[id] {}
  }

  lemma LeasedOneMore(m: Queue, ids: set<int>, id: int, until: Time)
    requires id in m && id !in ids
    ensures var l := Leased(m, ids, until);
            Leased(m, ids + {id}, until) == l[id := l[id].(attempts := l[id].attempts + 1, lockedUntil := Some(until))]
  {
  }

  // ------------------------------------------------------------------------- runs

  datatype Event =
    | Enqueue(deliveryId: string, payload: Payload, at: Time)
    | Claim(limit: int, lease: int, at: Time, out: seq<int>)
    | Ack(id: int, at: Time)

  datatype State = State(nextId: int, items: Queue)

  ghost predicate Step(s: State, e: Event, s': State) {
    match e
    case Enqueue(d, payload, now) =>
      if Queued(s.items, d) then s' == s
      else s' == State(s.nextId + 1, s.items[s.nextId + 1 := Item(d, payload, 0, now, None)])
    case Claim(limit, lease, now, out) =>
      Claims(s.items, limit, now, out) && s' == s.(items := Leased(s.items, Elements(out), now + lease))
    case Ack(id, _) => s' == s.(items := s.items - {id})
  }

  /** Ids come from the counter, and no delivery is queued twice. */
  ghost predicate Sound(s: State) {
    && (forall id <- s.items :: 0 < id <= s.nextId)
    && s.nextId >= 0
    && forall i, j | i in s.items && j in s.items && s.items[i].deliveryId == s.items[j].deliveryId :: i == j
  }

  lemma StepKeepsSound(s: State, e: Event, s': State)
    requires Sound(s) && Step(s, e, s')
    ensures Sound(s')
  {
    if e.Enqueue? && !Queued(s.items, e.deliveryId) {
      forall i, j | i in s'.items && j in s'.items && s'.items[i].deliveryId == s'.items[j].deliveryId
        ensures i == j
      {
        assert i in s.items ==> s.items[i].deliveryId != e.deliveryId;
        assert j in s.items ==> s.items[j].deliveryId != e.deliveryId;
      }
    }
  }

  ghost predicate IsRun(ss: seq<State>, es: seq<Event>) {
    && |ss| == |es| + 1
    && forall i: nat | i < |es| :: Step(ss[i], es[i], ss[i + 1])
  }

  ghost predicate Takes(e: Event, id: int) { e.Claim? && id in e.out }

  ghost function TakesOf(id: int): Event -> bool { (e: Event) => Takes(e, id) }

  /** Until it is acknowledged a delivery stays queued, unchanged but for its lease, and its attempt
      counter is exactly the number of claims that returned it. */
  lemma {:induction false} NothingIsLost(ss: seq<State>, es: seq<Event>, id: int)
    requires IsRun(ss, es) && Sound(ss[0]) && id in ss[0].items
    requires forall e <- es :: e.Ack? ==> e.id != id
    ensures Sound(ss[|es|]) && id in ss[|es|].items
    ensures var x, y := ss[0].items[id], ss[|es|].items[id];
            && y.deliveryId == x.deliveryId && y.payload == x.payload && y.receivedAt == x.receivedAt
            && y.attempts == x.attempts + Count(es, TakesOf(id))
  {
    if es != [] {
      var n := |es| - 1;
      NothingIsLost(ss[..|es|], es[..n], id);
      assert Step(ss[n], es[n], ss[n + 1]);
      assert es[n] in es;
      StepKeepsSound(ss[n], es[n], ss[n + 1]);
    }
  }

  /** A lease is exclusive: after a claim returned a delivery, no claim returns it again until the
      lease has run out, even if the delivery is acknowledged in between. */
  lemma {:induction false} LeasedOnce(ss: seq<State>, es: seq<Event>, id: int, until: Time)
    requires IsRun(ss, es) && Sound(ss[0]) && es != []
    requires Takes(es[0], id) && until == es[0].at + es[0].lease
    requires forall e <- es[1..] | e.Claim? :: e.at < until
    ensures Sound(ss[|es|]) && ss[|es|].nextId >= id
    ensures id in ss[|es|].items ==> ss[|es|].items[id].lockedUntil == Some(until)
    ensures forall i: nat | 0 < i < |es| :: !Takes(es[i], id)
  {
    var n := |es| - 1;
    assert Step(ss[n], es[n], ss[n + 1]);
    if n == 0 {
      assert id in Elements(es[0].out);
      assert id in Free(ss[0].items, es[0].at);
    } else {
      assert es[..n][1..] == es[1..][..n - 1];
      LeasedOnce(ss[..|es|], es[..n], id, until);
      assert es[n] == es[1..][n - 1];
      LeaseHolds(ss[n], es[n], ss[n + 1], id, until);
    }
    StepKeepsSound(ss[n], es[n], ss[n + 1]);
  }

  lemma LeaseHolds(s: State, e: Event, s': State, id: int, until: Time)
    requires Sound(s) && Step(s, e, s') && (e.Claim? ==> e.at < until) && s.nextId >= id
    requires id in s.items ==> s.items[id].lockedUntil == Some(until)
    ensures !Takes(e, id) && s'.nextId >= id
    ensures id in s'.items ==> s'.items[id].lockedUntil == Some(until)
  {
    if e.Claim? {
      assert id !in Free(s.items, e.at);
      assert id !in Elements(e.out);
    }
  }

  /** No starvation: a free delivery is returned by a claim exactly when the claim has no limit,
      or one larger than the number of free deliveries older than it. */
  lemma OldestComeFirst(m: Queue, limit: int, now: Time, out: seq<int>, id: int)
    requires Claims(m, limit, now, out) && id in Free(m, now)
    ensures id in out <==> limit <= 0 || |set j | j in Free(m, now) && j < id| < limit
  {
    var older := set j | j in Free(m, now) && j < id;
    AscendingSize(out);
    if id in out {
      ReturnedHasFewOlder(Free(m, now), out, id, older);
    } else {
      MissedHasManyOlder(Free(m, now), out, id, older);
    }
  }

  lemma ReturnedHasFewOlder(free: set<int>, out: seq<int>, id: int, older: set<int>)
    requires id in out && Elements(out) <= free && |Elements(out)| == |out|
    requires forall j <- free - Elements(out), x <- out :: x < j
    requires older == set j | j in free && j < id
    ensures |older| < |out|
  {
    assert id in Elements(out);
    forall j <- older ensures j in Elements(out) {
      assert j in free - Elements(out) ==> id < j;
    }
    assert Elements(out) == (older + {id}) + (Elements(out) - older - {id});
  }

  lemma MissedHasManyOlder(free: set<int>, out: seq<int>, id: int, older: set<int>)
    requires id in free && id !in out && Elements(out) <= free && |Elements(out)| == |out|
    requires forall j <- free - Elements(out), x <- out :: x < j
    requires older == set j | j in free && j < id
    ensures |out| <= |older| && |out| < |free|
  {
    assert id in free - Elements(out);
    assert Elements(out) <= older;
    assert older == Elements(out) + (older - Elements(out));
    assert free == Elements(out) + (free - Elements(out));
  }

  /** So what a claim returns is determined by the queue. */
  lemma ClaimIsUnique(m: Queue, limit: int, now: Time, s: seq<int>, t: seq<int>)
    requires Claims(m, limit, now, s) && Claims(m, limit, now, t)
    ensures s == t
  {
    forall id <- Free(m, now) ensures id in Elements(s) <==> id in Elements(t) {
      OldestComeFirst(m, limit, now, s, id);
      OldestComeFirst(m, limit, now, t, id);
    }
    assert Elements(s) == Elements(t);
    AscendingIsUnique(s, t);
  }
}
