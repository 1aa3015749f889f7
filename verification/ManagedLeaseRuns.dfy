/** What a lease leaves behind: nothing, however often its cleanup was cut short. */
module ManagedLeaseRuns {
  import opened Basics
  import opened Model
  import opened ManagedLease

  /** The labels a lease may be taken on without losing any: none reads as one of its proofs, and no
      label it is to lend is the proof of one that is already there. */
  ghost predicate Harmless(id: LeaseId, hash: Label -> string, labels: set<Label>, fixedLabels: set<Label>,
                           wanted: set<Label>) {
    && (forall l <- labels :: !IsProof(id, l))
    && (forall l <- labels - fixedLabels :: Proof(id, hash, l) !in Lent(labels, wanted))
  }

  lemma TakenParts(id: LeaseId, hash: Label -> string, labels: set<Label>, fixedLabels: set<Label>, wanted: set<Label>)
    requires Injective(hash) && fixedLabels <= labels && !Leased(labels)
    ensures Marker(id) !in labels
    ensures var t, lent := Taken(id, hash, labels, wanted), Lent(labels, wanted);
            && (forall l :: l in ProofsIn(id, t) <==>
                  (l in labels && IsProof(id, l)) || (l in lent && IsProof(id, l)) || l in Proofs(id, hash, lent))
            && (forall l :: l in lent ==> l in RoutingIn(id, hash, t, fixedLabels) || l in ProofsIn(id, t))
            && (forall l :: l in labels ==> (l in RoutingIn(id, hash, t, fixedLabels) <==>
                  !IsProof(id, l) && l !in fixedLabels && (Proof(id, hash, l) in labels || Proof(id, hash, l) in lent)))
  {
    var t, lent := Taken(id, hash, labels, wanted), Lent(labels, wanted);
    MarkerIsMarker(id);
    forall l ensures l in ProofsIn(id, t) <==>
                       (l in labels && IsProof(id, l)) || (l in lent && IsProof(id, l)) || l in Proofs(id, hash, lent)
    {
      if k :| k in lent && Proof(id, hash, k) == l { ProofIsProof(id, hash, k); }
    }
    forall l | l in lent ensures l in RoutingIn(id, hash, t, fixedLabels) || l in ProofsIn(id, t) {
      assert Proof(id, hash, l) in Proofs(id, hash, lent);
    }
    forall l | l in labels
      ensures l in RoutingIn(id, hash, t, fixedLabels) <==>
                !IsProof(id, l) && l !in fixedLabels && (Proof(id, hash, l) in labels || Proof(id, hash, l) in lent)
    {
      ProofIsProof(id, hash, l);
      if k :| k in lent && Proof(id, hash, k) == Proof(id, hash, l) { ProofIsUnique(id, hash, k, l); }
    }
  }

  /** Round trip: a cleanup after a lease gives a runner back exactly the labels it had, if and only if
      the labels were harmless. */
  lemma LeaseRoundTrip(id: LeaseId, hash: Label -> string, labels: set<Label>, fixedLabels: set<Label>,
                       wanted: set<Label>)
    requires Injective(hash) && fixedLabels <= labels && !Leased(labels)
    ensures Returned(id, hash, Taken(id, hash, labels, wanted), fixedLabels) == labels
            <==> Harmless(id, hash, labels, fixedLabels, wanted)
  {
    var t := Taken(id, hash, labels, wanted);
    var back := Returned(id, hash, t, fixedLabels);
    TakenParts(id, hash, labels, fixedLabels, wanted);
    assert back <= labels;
    if Harmless(id, hash, labels, fixedLabels, wanted) {
      forall l | l in labels ensures l in back { ProofIsProof(id, hash, l); }
    } else if l :| l in labels && IsProof(id, l) {
      assert l !in back;
    } else {
      var l :| l in labels - fixedLabels && Proof(id, hash, l) in Lent(labels, wanted);
      assert l in RoutingIn(id, hash, t, fixedLabels);
      assert l !in back;
    }
  }

  // ------------------------------------------------------------------- restarting

  /** The marker itself was not lent as a routing label. */
  predicate MarkerIsLast(id: LeaseId, hash: Label -> string, labels: set<Label>, fixedLabels: set<Label>) {
    Marker(id) !in RoutingIn(id, hash, labels, fixedLabels)
  }

  lemma OnlyRoutingGone(id: LeaseId, hash: Label -> string, labels: set<Label>, fixedLabels: set<Label>,
                        left: set<Label>)
    requires Marker(id) in labels && MarkerIsLast(id, hash, labels, fixedLabels)
    requires left <= labels && labels - left <= RoutingIn(id, hash, labels, fixedLabels)
    ensures Marker(id) in left && MarkerIsLast(id, hash, left, fixedLabels)
    ensures ProofsIn(id, left) == ProofsIn(id, labels)
    ensures RoutingIn(id, hash, left, fixedLabels) == RoutingIn(id, hash, labels, fixedLabels) * left
  {
    var routing := RoutingIn(id, hash, labels, fixedLabels);
    forall l | l in labels && l !in left ensures l in routing { assert l in labels - left; }
    forall l | l in labels && IsProof(id, l) ensures l in left { assert l !in routing; }
    forall l ensures l in RoutingIn(id, hash, left, fixedLabels) <==> l in routing * left { ProofIsProof(id, hash, l); }
  }

  lemma ProofsGoing(id: LeaseId, hash: Label -> string, labels: set<Label>, fixedLabels: set<Label>, left: set<Label>)
    requires Marker(id) in labels && MarkerIsLast(id, hash, labels, fixedLabels) && left <= labels
    requires RoutingIn(id, hash, labels, fixedLabels) <= labels - left
    requires labels - left <= RoutingIn(id, hash, labels, fixedLabels) + ProofsIn(id, labels)
    ensures Marker(id) in left
    ensures RoutingIn(id, hash, left, fixedLabels) == {}
    ensures ProofsIn(id, left) == ProofsIn(id, labels) * left
  {
    MarkerIsMarker(id);
    assert Marker(id) !in labels - left;
    forall l ensures l !in RoutingIn(id, hash, left, fixedLabels) {
      if l in RoutingIn(id, hash, labels, fixedLabels) { assert l in labels - left; }
    }
  }

  /** After any interruption, a cleanup run to its end leaves what an undisturbed one leaves. */
  lemma CleanupIsRestartable(id: LeaseId, hash: Label -> string, labels: set<Label>, fixedLabels: set<Label>,
                             left: set<Label>)
    requires Marker(id) in labels ==> MarkerIsLast(id, hash, labels, fixedLabels)
    requires Interrupted(id, hash, labels, fixedLabels, left)
    ensures Returned(id, hash, left, fixedLabels) == Returned(id, hash, labels, fixedLabels)
    ensures Marker(id) in left ==> MarkerIsLast(id, hash, left, fixedLabels)
  {
    if Marker(id) in labels && left != Returned(id, hash, labels, fixedLabels) {
      if labels - left <= RoutingIn(id, hash, labels, fixedLabels) {
        OnlyRoutingGone(id, hash, labels, fixedLabels, left);
      } else {
        ProofsGoing(id, hash, labels, fixedLabels, left);
      }
    }
  }

  /** Were the marker lent as a routing label, an interruption could strand the proofs for good. */
  lemma RestartableExactly(id: LeaseId, hash: Label -> string, labels: set<Label>, fixedLabels: set<Label>)
    requires Marker(id) in labels
    ensures MarkerIsLast(id, hash, labels, fixedLabels) <==>
            forall left :: Interrupted(id, hash, labels, fixedLabels, left)
                           ==> Returned(id, hash, left, fixedLabels) == Returned(id, hash, labels, fixedLabels)
  {
    if MarkerIsLast(id, hash, labels, fixedLabels) {
      forall left | Interrupted(id, hash, labels, fixedLabels, left)
        ensures Returned(id, hash, left, fixedLabels) == Returned(id, hash, labels, fixedLabels)
      {
        CleanupIsRestartable(id, hash, labels, fixedLabels, left);
      }
    } else {
      var left := labels - {Marker(id)};
      assert labels - left == {Marker(id)};
      assert Interrupted(id, hash, labels, fixedLabels, left);
      var p := Proof(id, hash, Marker(id));
      ProofIsProof(id, hash, Marker(id));
      assert p in Returned(id, hash, left, fixedLabels) && p !in Returned(id, hash, labels, fixedLabels);
    }
  }

  function LastOf(labels: set<Label>, lefts: seq<set<Label>>): set<Label> {
    if lefts == [] then labels else lefts[|lefts| - 1]
  }

  /** So do any number of interrupted attempts followed by a complete one. */
  lemma {:induction false} AttemptsAddUp(id: LeaseId, hash: Label -> string, labels: set<Label>,
                                         fixedLabels: set<Label>,
                                         lefts: seq<set<Label>>)
    requires Marker(id) in labels ==> MarkerIsLast(id, hash, labels, fixedLabels)
    requires forall i: nat | i < |lefts| :: Interrupted(id, hash, LastOf(labels, lefts[..i]), fixedLabels, lefts[i])
    ensures Returned(id, hash, LastOf(labels, lefts), fixedLabels) == Returned(id, hash, labels, fixedLabels)
    ensures Marker(id) in LastOf(labels, lefts) ==> MarkerIsLast(id, hash, LastOf(labels, lefts), fixedLabels)
  {
    if lefts != [] {
      var n := |lefts| - 1;
      forall i: nat | i < n ensures Interrupted(id, hash, LastOf(labels, lefts[..n][..i]), fixedLabels, lefts[..n][i]) {
        assert lefts[..n][..i] == lefts[..i];
      }
      AttemptsAddUp(id, hash, labels, fixedLabels, lefts[..n]);
      CleanupIsRestartable(id, hash, LastOf(labels, lefts[..n]), fixedLabels, lefts[n]);
    }
  }

  // ------------------------------------------------------------------- one runner

  function Markers(labels: set<Label>): set<Label> { set l | l in labels && IsMarker(l) }

  /** Taking a lease leaves one marker exactly when no other label it lends reads as one. */
  lemma OneMarker(id: LeaseId, hash: Label -> string, labels: set<Label>, wanted: set<Label>)
    requires !Leased(labels)
    ensures Markers(Taken(id, hash, labels, wanted)) == {Marker(id)}
            <==> forall l <- Lent(labels, wanted) :: IsMarker(l) ==> l == Marker(id)
  {
    MarkerIsMarker(id);
    var t, lent := Taken(id, hash, labels, wanted), Lent(labels, wanted);
    forall l ensures l in Markers(t) <==> l == Marker(id) || (l in lent && IsMarker(l)) {
      if k :| k in lent && Proof(id, hash, k) == l { ProofIsProof(id, hash, k); }
    }
    if l :| l in lent && IsMarker(l) && l != Marker(id) {
      assert l in Markers(t);
    }
  }

  datatype Event =
    | Take(id: LeaseId, wanted: set<Label>)
    | Clean(id: LeaseId)

  ghost predicate Step(hash: Label -> string, fixedLabels: set<Label>, labels: set<Label>, e: Event,
                       labels': set<Label>) {
    match e
    case Take(id, wanted) => !Leased(labels) && labels' == Taken(id, hash, labels, wanted)
    case Clean(id) => Interrupted(id, hash, labels, fixedLabels, labels')
  }

  /** Labels that do not look like the broker's, and are not lent as if they were. */
  ghost predicate Plain(own: set<Label>, e: Event) {
    e.Take? ==> forall w <- e.wanted :: Fold(w) in own || (!(OWNED_PREFIX <= Fold(w)) && !IsMarker(Fold(w)))
  }

  /** The runner has its own labels, or a lease holds it that a full cleanup would end. */
  ghost predicate OnLoan(hash: Label -> string, own: set<Label>, fixedLabels: set<Label>, labels: set<Label>) {
    labels == own
    || exists id :: Marker(id) in labels && Markers(labels) == {Marker(id)}
                    && MarkerIsLast(id, hash, labels, fixedLabels) && Returned(id, hash, labels, fixedLabels) == own
  }

  lemma MarkerNames(a: LeaseId, b: LeaseId)
    requires Marker(a) == Marker(b)
    ensures a == b
  {
    assert a == Marker(a)[|LEASE_PREFIX|..] == Marker(b)[|LEASE_PREFIX|..] == b;
  }

  lemma TakeKeepsOnLoan(hash: Label -> string, own: set<Label>, fixedLabels: set<Label>, id: LeaseId,
                        wanted: set<Label>)
    requires Injective(hash) && fixedLabels <= own && !Leased(own) && (forall l <- own :: !(OWNED_PREFIX <= l))
    requires Plain(own, Take(id, wanted))
    ensures OnLoan(hash, own, fixedLabels, Taken(id, hash, own, wanted))
  {
    var t, lent := Taken(id, hash, own, wanted), Lent(own, wanted);
    forall l <- lent ensures !IsMarker(l) && !(OWNED_PREFIX <= l) {
      var w :| w in wanted && Fold(w) == l;
    }
    forall l <- own ensures !IsProof(id, l) && Proof(id, hash, l) !in lent {
      OwnedPrefix(id, l);
      ProofIsProof(id, hash, l);
      OwnedPrefix(id, Proof(id, hash, l));
    }
    OneMarker(id, hash, own, wanted);
    LeaseRoundTrip(id, hash, own, fixedLabels, wanted);
    MarkerIsMarker(id);
    var p := Proof(id, hash, Marker(id));
    ProofIsProof(id, hash, Marker(id));
    OwnedPrefix(id, p);
    if k :| k in lent && Proof(id, hash, k) == p {
      ProofIsUnique(id, hash, k, Marker(id));
      assert false;
    }
    assert p !in t;
  }

  lemma OwnedPrefix(id: LeaseId, l: Label)
    ensures IsProof(id, l) ==> OWNED_PREFIX <= l
  {
  }

  lemma CleanKeepsOnLoan(hash: Label -> string, own: set<Label>, fixedLabels: set<Label>, labels: set<Label>,
                         id: LeaseId,
                         labels': set<Label>)
    requires !Leased(own) && OnLoan(hash, own, fixedLabels, labels)
    requires Interrupted(id, hash, labels, fixedLabels, labels')
    ensures OnLoan(hash, own, fixedLabels, labels')
  {
    MarkerIsMarker(id);
    if Marker(id) in labels {
      var held :| Marker(held) in labels && Markers(labels) == {Marker(held)}
                  && MarkerIsLast(held, hash, labels, fixedLabels) && Returned(held, hash, labels, fixedLabels) == own;
      assert Marker(id) in Markers(labels);
      MarkerNames(id, held);
      CleanupIsRestartable(id, hash, labels, fixedLabels, labels');
      if Marker(id) in labels' {
        assert Markers(labels') == {Marker(id)};
      }
    }
  }

  ghost predicate IsRun(hash: Label -> string, fixedLabels: set<Label>, ls: seq<set<Label>>, es: seq<Event>) {
    && |ls| == |es| + 1
    && forall i: nat | i < |es| :: Step(hash, fixedLabels, ls[i], es[i], ls[i + 1])
  }

  /** Over any run of leases by anyone and cleanups cut short anywhere, a runner never carries two
      markers, and whenever it carries none its labels are exactly those it started with. */
  lemma {:induction false} LeasesLeaveNoTrace(hash: Label -> string, fixedLabels: set<Label>, ls: seq<set<Label>>,
                                              es: seq<Event>)
    requires IsRun(hash, fixedLabels, ls, es) && Injective(hash) && fixedLabels <= ls[0]
    requires !Leased(ls[0]) && (forall l <- ls[0] :: !(OWNED_PREFIX <= l)) && forall e <- es :: Plain(ls[0], e)
    ensures OnLoan(hash, ls[0], fixedLabels, ls[|es|])
    ensures |Markers(ls[|es|])| <= 1
    ensures !Leased(ls[|es|]) ==> ls[|es|] == ls[0]
  {
    if es != [] {
      var n := |es| - 1;
      LeasesLeaveNoTrace(hash, fixedLabels, ls[..|es|], es[..n]);
      assert Step(hash, fixedLabels, ls[n], es[n], ls[n + 1]);
      assert es[n] in es;
      match es[n] {
        case Take(id, wanted) => TakeKeepsOnLoan(hash, ls[0], fixedLabels, id, wanted);
        case Clean(id) => CleanKeepsOnLoan(hash, ls[0], fixedLabels, ls[n], id, ls[n + 1]);
      }
    }
    OnLoanMarkers(hash, ls[0], fixedLabels, ls[|es|]);
  }

  lemma OnLoanMarkers(hash: Label -> string, own: set<Label>, fixedLabels: set<Label>, labels: set<Label>)
    requires !Leased(own) && OnLoan(hash, own, fixedLabels, labels)
    ensures |Markers(labels)| <= 1 && (!Leased(labels) ==> labels == own)
  {
    if labels == own {
      assert Markers(own) == {};
    } else {
      var id :| Marker(id) in labels && Markers(labels) == {Marker(id)};
      MarkerIsMarker(id);
      assert Marker(id) in labels && IsMarker(Marker(id));
    }
  }
}
