/** Label leases on long-lived virtual machines: routing labels are lent to a runner together with
    a proof of ownership for each and one marker, and taken back by a cleanup that may be cut short. */
module ManagedLease {
  import opened Basics
  import opened Model

  type LeaseId = string
  type Label = string
  type RunnerId = int

  const LEASE_PREFIX := "uecb-azurevm-"
  const OWNED_PREFIX := "uecb-owned-"

  function Marker(id: LeaseId): Label { LEASE_PREFIX + id }

  function ProofPrefix(id: LeaseId): Label { OWNED_PREFIX + id + "-" }

  /** hash stands for the digest of a label. */
  function Proof(id: LeaseId, hash: Label -> string, l: Label): Label { ProofPrefix(id) + hash(l) }

  predicate IsProof(id: LeaseId, l: Label) { ProofPrefix(id) <= l }

  predicate IsMarker(l: Label) { LEASE_PREFIX <= l }

  ghost predicate Injective(hash: Label -> string) { forall a, b :: hash(a) == hash(b) ==> a == b }

  lemma ProofIsUnique(id: LeaseId, hash: Label -> string, a: Label, b: Label)
    requires Injective(hash) && Proof(id, hash, a) == Proof(id, hash, b)
    ensures a == b
  {
    var n := |ProofPrefix(id)|;
    assert hash(a) == Proof(id, hash, a)[n..] == Proof(id, hash, b)[n..] == hash(b);
  }

  lemma MarkerLetter(l: Label)
    requires IsMarker(l)
    ensures |l| > 5 && l[5] == 'a'
  {
    assert l[5] == LEASE_PREFIX[5];
  }

  lemma ProofLetter(id: LeaseId, l: Label)
    requires IsProof(id, l)
    ensures |l| > 5 && l[5] == 'o'
  {
    assert l[5] == ProofPrefix(id)[5] == OWNED_PREFIX[5];
  }

  /** No label is both a proof and a marker. */
  lemma KindsDiffer(id: LeaseId, l: Label)
    ensures !(IsProof(id, l) && IsMarker(l))
  {
    if IsProof(id, l) && IsMarker(l) {
      MarkerLetter(l);
      ProofLetter(id, l);
      assert false;
    }
  }

  lemma ProofIsProof(id: LeaseId, hash: Label -> string, l: Label)
    ensures IsProof(id, Proof(id, hash, l)) && !IsMarker(Proof(id, hash, l))
  {
    KindsDiffer(id, Proof(id, hash, l));
  }

  lemma MarkerIsMarker(id: LeaseId)
    ensures IsMarker(Marker(id)) && !IsProof(id, Marker(id))
  {
    KindsDiffer(id, Marker(id));
  }

  // --------------------------------------------------------- one runner's labels

  predicate Leased(labels: set<Label>) { exists l <- labels :: IsMarker(l) }

  function Among(s: seq<Label>): set<Label> { set l | l in s }

  /** The wanted labels the runner does not have yet. */
  function Lent(labels: set<Label>, wanted: set<Label>): set<Label> {
    set w | w in wanted && Fold(w) != "" && Fold(w) !in labels :: Fold(w)
  }

  function Proofs(id: LeaseId, hash: Label -> string, lent: set<Label>): set<Label> {
    set l | l in lent :: Proof(id, hash, l)
  }

  /** The runner's labels once the lease is taken. */
  function Taken(id: LeaseId, hash: Label -> string, labels: set<Label>, wanted: set<Label>): set<Label> {
    labels + Lent(labels, wanted) + Proofs(id, hash, Lent(labels, wanted)) + {Marker(id)}
  }

  function ProofsIn(id: LeaseId, labels: set<Label>): set<Label> { set l | l in labels && IsProof(id, l) }

  /** The labels a proof shows to have been added by this lease. */
  function RoutingIn(id: LeaseId, hash: Label -> string, labels: set<Label>, fixedLabels: set<Label>): set<Label> {
    set l | l in labels && !IsProof(id, l) && l !in fixedLabels && Proof(id, hash, l) in labels
  }

  /** The runner's labels after a whole cleanup. */
  function Returned(id: LeaseId, hash: Label -> string, labels: set<Label>, fixedLabels: set<Label>): set<Label> {
    if Marker(id) !in labels then labels
    else labels - RoutingIn(id, hash, labels, fixedLabels) - ProofsIn(id, labels) - {Marker(id)}
  }

  /** What a cleanup may leave: it takes routing labels off first, then proofs, the marker last. */
  ghost predicate Interrupted(id: LeaseId, hash: Label -> string, labels: set<Label>, fixedLabels: set<Label>,
                              labels': set<Label>) {
    if Marker(id) !in labels then labels' == labels
    else
      var routing, gone := RoutingIn(id, hash, labels, fixedLabels), labels - labels';
      && labels' <= labels
      && (gone <= routing
          || (routing <= gone && gone <= routing + ProofsIn(id, labels))
          || labels' == Returned(id, hash, labels, fixedLabels))
  }

  // ---------------------------------------------------------------- the back end

  datatype Runner = Runner(
    name: string, allowed: bool, online: bool, busy: bool, labels: set<Label>, fixedLabels: set<Label>)

  predicate Eligible(r: Runner) { r.allowed && r.online && !r.busy && !Leased(r.labels) }

  predicate SomeEligible(m: map<RunnerId, Runner>, seen: set<RunnerId>) {
    exists k <- seen :: k in m && Eligible(m[k])
  }

  lemma Witness(m: map<RunnerId, Runner>, seen: set<RunnerId>, k: RunnerId)
    requires k in seen && k in m && Eligible(m[k])
    ensures SomeEligible(m, seen)
  {
  }

  predicate Relabeled(r: Runner, r': Runner) { r' == r.(labels := r'.labels) }

  /** No lease came of it: every runner has its own labels, as far as a cleanup got that may have
      started from labels taken for the lease. */
  ghost predicate GaveUp(id: LeaseId, hash: Label -> string, m: map<RunnerId, Runner>, seen: set<RunnerId>,
                         wanted: set<Label>, m': map<RunnerId, Runner>) {
    && m'.Keys == m.Keys
    && forall k <- m ::
         && Relabeled(m[k], m'[k])
         && (Interrupted(id, hash, m[k].labels, m[k].fixedLabels, m'[k].labels)
             || (k in seen && Eligible(m[k])
                 && Interrupted(id, hash, Taken(id, hash, m[k].labels, wanted + {m[k].name}), m[k].fixedLabels,
                                m'[k].labels)))
  }

  lemma NothingTaken(id: LeaseId, hash: Label -> string, m: map<RunnerId, Runner>, seen: set<RunnerId>,
                     wanted: set<Label>)
    ensures GaveUp(id, hash, m, seen, wanted, m)
  {
    forall k <- m ensures Interrupted(id, hash, m[k].labels, m[k].fixedLabels, m[k].labels) {
      assert m[k].labels - m[k].labels == {};
    }
  }

  lemma GivesUp(id: LeaseId, hash: Label -> string, m: map<RunnerId, Runner>, held: map<RunnerId, Runner>,
                chosen: RunnerId,
                seen: set<RunnerId>, wanted: set<Label>, m': map<RunnerId, Runner>)
    requires chosen in seen && chosen in m && Eligible(m[chosen])
    requires || held == m
             || held == m[chosen := m[chosen].(labels := Taken(id, hash, m[chosen].labels, wanted + {m[chosen].name}))]
    requires m'.Keys == held.Keys
    requires forall k <- held :: Relabeled(held[k], m'[k])
               && Interrupted(id, hash, held[k].labels, held[k].fixedLabels, m'[k].labels)
    ensures GaveUp(id, hash, m, seen, wanted, m')
  {
  }

  class ManagedBackend {
    var runners: map<RunnerId, Runner>
    const hash: Label -> string

    constructor (runners: map<RunnerId, Runner>, hash: Label -> string)
      ensures this.runners == runners && this.hash == hash
    {
      this.runners, this.hash := runners, hash;
    }

    method HasLease(labels: set<Label>) returns (yes: bool)
      ensures yes == Leased(labels)
    {
      var rest := labels;
      while rest != {}
        invariant rest <= labels && forall l <- labels - rest :: !IsMarker(l)
        decreases rest
      {
        var l := NextKey(rest);
        if IsMarker(l) { return true; }
        rest := rest - {l};
      }
      return false;
    }

    /** The labels to add for a lease, apart from the marker. */
    method Additions(id: LeaseId, labels: set<Label>, wanted: seq<Label>) returns (add: set<Label>)
      ensures var lent := Lent(labels, Among(wanted)); add == lent + Proofs(id, hash, lent)
    {
      add := {};
      var present := labels;
      var i := 0;
      ghost var lent := {};
      while i < |wanted|
        invariant 0 <= i <= |wanted|
        invariant lent == Lent(labels, Among(wanted[..i]))
        invariant add == lent + Proofs(id, hash, lent) && present == labels + lent
      {
        var key := Fold(wanted[i]);
        LentOneMore(labels, wanted, i);
        if key != "" && key !in present {
          ProofsOneMore(id, hash, lent, key);
          add := add + {key, Proof(id, hash, key)};
          present := present + {key};
          lent := lent + {key};
        }
        i := i + 1;
      }
      assert wanted[..|wanted|] == wanted;
    }

    /** The eligible runner with the lowest id, if any. */
    method Choose(seen: set<RunnerId>) returns (chosen: Option<RunnerId>)
      requires seen <= runners.Keys
      ensures chosen.None? ==> forall r <- seen :: !Eligible(runners[r])
      ensures chosen.Some? ==> chosen.value in seen && Eligible(runners[chosen.value])
                               && forall r <- seen :: Eligible(runners[r]) ==> chosen.value <= r
    {
      chosen := None;
      var rest := seen;
      while rest != {}
        invariant rest <= seen
        invariant chosen.None? ==> forall r <- seen - rest :: !Eligible(runners[r])
        invariant chosen.Some? ==> chosen.value in seen && Eligible(runners[chosen.value])
                                   && forall r <- seen - rest :: Eligible(runners[r]) ==> chosen.value <= r
        decreases rest
      {
        var r := NextKey(rest);
        rest := rest - {r};
        var leased := HasLease(runners[r].labels);
        if !runners[r].allowed || !runners[r].online || runners[r].busy || leased { continue; }
        if chosen.None? || r < chosen.value { chosen := Some(r); }
      }
    }

    /** Leases a runner among those listed. answered is false when the call that adds the labels reports
        an error; applied tells whether it took effect; the labels are then cleaned up at once, as far
        as calls more removals go through. */
    method Provision(id: LeaseId, wanted: seq<Label>, seen: set<RunnerId>, answered: bool, applied: bool, calls: nat)
      returns (leased: Option<RunnerId>)
      requires seen <= runners.Keys && (answered ==> applied)
      modifies this
      ensures runners.Keys == old(runners).Keys
      ensures SomeEligible(old(runners), seen) || (leased.None? && runners == old(runners))
      ensures leased.Some? ==>
                && answered && leased.value in seen && Eligible(old(runners)[leased.value])
                && (forall r <- seen :: Eligible(old(runners)[r]) ==> leased.value <= r)
                && var r := old(runners)[leased.value];
                   runners == old(runners)[leased.value :=
                     r.(labels := Taken(id, hash, r.labels, Among(wanted) + {r.name}))]
      ensures leased.None? ==> GaveUp(id, hash, old(runners), seen, Among(wanted), runners)
    {
      var chosen := Choose(seen);
      if chosen.None? {
        NothingTaken(id, hash, runners, seen, Among(wanted));
        return None;
      }
      var r := runners[chosen.value];
      ghost var before := runners;
      Witness(before, seen, chosen.value);
      ghost var all := Among(wanted) + {r.name};
      assert Among(wanted + [r.name]) == all;
      var add := Additions(id, r.labels, wanted + [r.name]);
      add := add + {Marker(id)};
      assert r.labels + add == Taken(id, hash, r.labels, all);
      if applied {
        runners := runners[chosen.value := r.(labels := r.labels + add)];
      }
      if !answered {
        ghost var held := runners;
        var ok := Cleanup(id, seen, calls);
        GivesUp(id, hash, before, held, chosen.value, seen, Among(wanted), runners);
        return None;
      }
      return chosen;
    }

    /** Takes the lease's labels off every listed runner that carries its marker. Stops for good after
        as many removals as calls. */
    method Cleanup(id: LeaseId, seen: set<RunnerId>, calls: nat) returns (ok: bool)
      requires seen <= runners.Keys
      modifies this
      ensures runners.Keys == old(runners).Keys
      ensures forall k <- runners ::
                var r, r' := old(runners)[k], runners[k];
                && Relabeled(r, r')
                && Interrupted(id, hash, r.labels, r.fixedLabels, r'.labels)
                && (k !in seen || !r.allowed ==> r' == r)
                && (ok && k in seen && r.allowed ==> r'.labels == Returned(id, hash, r.labels, r.fixedLabels))
    {
      var left := calls;
      var rest := seen;
      ghost var before := runners;
      while rest != {}
        invariant rest <= seen && runners.Keys == before.Keys
        invariant forall k <- runners | k in rest || k !in seen || !before[k].allowed :: runners[k] == before[k]
        invariant forall k <- seen - rest | before[k].allowed :: runners[k] == before[k].(labels :=
                    Returned(id, hash, before[k].labels, before[k].fixedLabels))
        decreases rest
      {
        var k := NextKey(rest);
        var r := runners[k];
        rest := rest - {k};
        if !r.allowed || Marker(id) !in r.labels { continue; }
        var labels, done;
        labels, left, done := CleanupRunner(id, r, left);
        runners := runners[k := r.(labels := labels)];
        if !done {
          return false;
        }
      }
      return true;
    }

    method CleanupRunner(id: LeaseId, r: Runner, calls: nat) returns (labels: set<Label>, left: nat, done: bool)
      requires Marker(id) in r.labels
      ensures Interrupted(id, hash, r.labels, r.fixedLabels, labels)
      ensures done ==> labels == Returned(id, hash, r.labels, r.fixedLabels)
    {
      var routing, proofs := RoutingIn(id, hash, r.labels, r.fixedLabels), ProofsIn(id, r.labels);
      labels, left, done := RemoveAll(r.labels, routing, calls);
      if !done { return; }
      labels, left, done := RemoveAll(labels, proofs, left);
      if !done { return; }
      if left == 0 { return labels, 0, false; }
      labels, left := labels - {Marker(id)}, left - 1;
    }
  }

  method RemoveAll(labels: set<Label>, targets: set<Label>, calls: nat)
    returns (labels': set<Label>, left: nat, done: bool)
    ensures labels - targets <= labels' <= labels
    ensures done ==> labels' == labels - targets
  {
    labels', left := labels, calls;
    var rest := targets;
    while rest != {}
      invariant rest <= targets && labels' == labels - (targets - rest)
      decreases rest
    {
      if left == 0 { return labels', 0, false; }
      var l := NextKey(rest);
      labels', left, rest := labels' - {l}, left - 1, rest - {l};
    }
    done := true;
  }

  lemma LentOneMore(labels: set<Label>, wanted: seq<Label>, i: nat)
    requires i < |wanted|
    ensures var key := Fold(wanted[i]);
            Lent(labels, Among(wanted[..i + 1]))
            == Lent(labels, Among(wanted[..i])) + (if key != "" && key !in labels then {key} else {})
  {
    assert Among(wanted[..i + 1]) == Among(wanted[..i]) + {wanted[i]};
  }

  lemma ProofsOneMore(id: LeaseId, hash: Label -> string, lent: set<Label>, key: Label)
    ensures Proofs(id, hash, lent + {key}) == Proofs(id, hash, lent) + {Proof(id, hash, key)}
  {
  }
}
