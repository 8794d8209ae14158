/**
  When a rotation is planned, and in which order members get the new credentials: synchronous
  standbys first, then the other declared members, the primary last.
*/
module CredentialOrder {
  import opened Common
  import opened Names
  import opened CredentialRotation
  import opened CredentialRuns

  // ------------------------------------------------------------------------------------
  // What a pass plans
  // ------------------------------------------------------------------------------------

  /** The version that the rotation leaves: that of the present plan, or the one active on all data sites. */
  predicate Leaves(s: State, p: nat) {
    p >= 1 && if s.plan.Some? then s.plan.value.previous == p else AllActive(s.sites, p)
  }

  /** A plan that not every site has applied is kept; otherwise a rotation is planned exactly while one is due. */
  ghost predicate Due(s: State, other: bool) {
    !other && exists v: nat, p: nat :: AllStaged(s.sites, v) && Leaves(s, p) && v != p
  }

  lemma StagedIsUnique(sites: seq<Site>, v: nat, w: nat)
    requires AllStaged(sites, v) && AllStaged(sites, w)
    ensures v == w
  {
  }

  lemma ActiveIsUnique(sites: seq<Site>, v: nat, w: nat)
    requires AllActive(sites, v) && AllActive(sites, w)
    ensures v == w
  {
  }

  /**
    In every run, whatever happens to the primary: a pass keeps a plan that some site has not applied.
    Otherwise it plans a rotation exactly when no other operation is planned, all data sites have
    staged one version, and that is not the version to leave; the plan is about these two versions.
  */
  lemma PlansExactlyWhenDue(t: Topology, ss: seq<State>, es: seq<Event>, i: nat)
    requires Run(t, ss, es) && i < |es| && es[i].Pass?
    ensures
      var s, next := ss[i], ss[i + 1].plan;
      if s.plan.Some? && !Applied(s) then next == s.plan
      else
        && (next.Some? <==> Due(s, es[i].other))
        && (next.Some? ==> AllStaged(s.sites, next.value.version) && Leaves(s, next.value.previous))
  {
    var s, next := ss[i], ss[i + 1].plan;
    assert ss[i + 1] == Do(t, s, es[i]);
    if !(s.plan.Some? && !Applied(s)) {
      var v := StagedVersion(s.sites);
      if Due(s, es[i].other) {
        var w: nat, p: nat :| AllStaged(s.sites, w) && Leaves(s, p) && w != p;
        StagedIsUnique(s.sites, v, w);
        if s.plan.None? { ActiveIsUnique(s.sites, ActiveVersion(s.sites), p); }
      }
      if next.Some? {
        assert AllStaged(s.sites, v) && Leaves(s, next.value.previous) && v != next.value.previous;
      }
    }
  }

  /** The host of the primary decides about catalog and revocation; there is one at most. */
  lemma HostIsUnique(sites: seq<Site>, primary: string, i: nat, j: nat)
    requires HostsPrimary(sites, primary, i) && HostsPrimary(sites, primary, j)
    ensures i == j
  {
  }

  /**
    In every run, what a newly planned rotation is: the catalog first, as long as the host of the
    primary has not reported it for the version; then a member, as long as one in the order is
    reported by nobody; then revocation until that host reports it; then the end. After the catalog it
    lists exactly the members that some site reported for the version.
  */
  lemma PhasesFollowReports(t: Topology, ss: seq<State>, es: seq<Event>, i: nat)
    requires Run(t, ss, es) && i < |es| && es[i].Pass? && ss[i + 1].plan != ss[i].plan && ss[i + 1].plan.Some?
    ensures
      var s, r := ss[i], ss[i + 1].plan.value;
      var order := MemberOrder(es[i].standbys, t.expected, s.primary);
      var catalog := exists k :: 0 <= k < |s.sites| && HostsPrimary(s.sites, s.primary, k) && s.sites[k].catalog == r.version;
      var revoked := exists k :: 0 <= k < |s.sites| && HostsPrimary(s.sites, s.primary, k) && s.sites[k].revoked == r.version;
      && (r.phase == Catalog <==> !catalog) && (r.phase == Catalog ==> r.updated == {})
      && (r.phase != Catalog ==>
            forall m :: m in r.updated <==> exists k :: 0 <= k < |s.sites| && ListedBy(s.sites[k], r.version, m))
      && (r.phase == Member <==> catalog && !(Elements(order) <= UpdatedMembers(s.sites, r.version)))
      && (r.phase == Revoke ==> !revoked) && (r.phase == Finalize ==> revoked)
      && (r.phase != Member ==> r.target == "")
  {
    var s, r := ss[i], ss[i + 1].plan.value;
    assert ss[i + 1] == Do(t, s, es[i]);
    if r.phase != Catalog {
      forall m ensures m in r.updated <==> exists k :: 0 <= k < |s.sites| && ListedBy(s.sites[k], r.version, m) {
        if k :| 0 <= k < |s.sites| && ListedBy(s.sites[k], r.version, m) {
          assert m in s.sites[k].members.value.1;
        }
      }
    }
  }

  // ------------------------------------------------------------------------------------
  // The order of members
  // ------------------------------------------------------------------------------------

  lemma {:induction false} ExtendInParts(order: seq<string>, a: seq<string>, b: seq<string>, primary: string)
    ensures Extend(order, a + b, primary) == Extend(Extend(order, a, primary), b, primary)
    decreases |a|
  {
    if a == [] {
      assert a + b == b;
    } else {
      assert (a + b)[0] == a[0] && (a + b)[1..] == a[1..] + b;
      var m := a[0];
      ExtendInParts(if "postgres-" <= m && m != primary && m !in order then order + [m] else order, a[1..], b, primary);
    }
  }

  /** What stands before a name that a prefix of the order does not contain, includes that prefix. */
  lemma PrefixIsBefore(prefix: seq<string>, order: seq<string>, k: int, m: string)
    requires prefix <= order && IsAt(order, k, m) && m !in prefix
    ensures Elements(prefix) <= Elements(order[..k])
  {
    assert forall i :: 0 <= i < |prefix| ==> order[i] == prefix[i];
    assert k >= |prefix|;
    assert order[..k][..|prefix|] == prefix;
    forall x | x in prefix ensures x in order[..k] {
      var i :| 0 <= i < |prefix| && prefix[i] == x;
      assert order[..k][i] == x;
    }
  }

  /** The members that have to be updated before this one is. */
  ghost predicate Precedes(standbys: seq<string>, expected: seq<string>, primary: string, x: string, m: string) {
    if m in standbys then x in standbys && Less(x, m)
    else
      || x in standbys
      || ("postgres-" <= x && x != primary && x in expected &&
          (m == primary || exists j :: IsAt(expected, j, m) && m !in expected[..j] && x in expected[..j]))
  }

  lemma LaterInExpected(standbys: seq<string>, expected: seq<string>, primary: string, order: seq<string>, k: int,
                        x: string, m: string, j: nat)
    requires order == MemberOrder(standbys, expected, primary) && IsAt(order, k, m)
    requires m !in standbys && m != primary && IsAt(expected, j, m) && m !in expected[..j]
    requires "postgres-" <= x && x != primary && x in expected[..j]
    ensures x in order[..k]
  {
    var front := Extend(standbys, expected[..j], primary);
    assert expected == expected[..j] + expected[j..];
    ExtendInParts(standbys, expected[..j], expected[j..], primary);
    ExtendKeepsPrefix(front, expected[j..], primary);
    ExtendCovers(standbys, expected[..j], primary, m);
    ExtendCovers(standbys, expected[..j], primary, x);
    assert front <= order;
    PrefixIsBefore(front, order, k, m);
    assert x in Elements(front);
  }

  lemma EarlierStandby(standbys: seq<string>, order: seq<string>, k: int, x: string, m: string)
    requires Sorted(standbys) && standbys <= order && IsAt(order, k, m) && k < |standbys|
    requires x in standbys && Less(x, m)
    ensures x in order[..k]
  {
    var i :| 0 <= i < |standbys| && standbys[i] == x;
    LessAsymmetric(x, m);
    assert order[..|standbys|] == standbys && standbys[k] == m;
    assert i < k;
    assert order[..k][i] == x;
  }

  /** In the order of updates, whatever has to come before a member does. */
  lemma OrderRespectsPrecedence(standbys: seq<string>, expected: seq<string>, primary: string, order: seq<string>, k: int,
                                x: string, m: string)
    requires Sorted(standbys) && order == MemberOrder(standbys, expected, primary)
    requires IsAt(order, k, m) && m !in order[..k] && Precedes(standbys, expected, primary, x, m)
    ensures x in order[..k]
  {
    var front := Extend(standbys, expected, primary);
    ExtendKeepsPrefix(standbys, expected, primary);
    assert standbys <= order && front <= order;
    if m in standbys {
      PositionOf(standbys, order, k, m);
      EarlierStandby(standbys, order, k, x, m);
    } else if x in standbys {
      PrefixIsBefore(standbys, order, k, m);
      assert x in Elements(standbys);
    } else if m == primary {
      ExtendCovers(standbys, expected, primary, m);
      ExtendCovers(standbys, expected, primary, x);
      PrefixIsBefore(front, order, k, m);
      assert x in Elements(front);
    } else {
      var j :| IsAt(expected, j, m) && m !in expected[..j] && x in expected[..j];
      LaterInExpected(standbys, expected, primary, order, k, x, m, j);
    }
  }

  lemma PositionOf(prefix: seq<string>, order: seq<string>, k: int, m: string)
    requires prefix <= order && IsAt(order, k, m) && m !in order[..k] && m in prefix
    ensures k < |prefix|
  {
    var i :| 0 <= i < |prefix| && prefix[i] == m;
    assert forall j :: 0 <= j < k ==> order[j] == order[..k][j];
    assert order[i] == m;
  }

  /** The chosen member is missing, and nobody who has to come before it is. */
  lemma ChoiceRespectsPrecedence(standbys: seq<string>, expected: seq<string>, primary: string, updated: set<string>,
                                 x: string, m: string)
    requires Sorted(standbys) && FirstMissing(MemberOrder(standbys, expected, primary), updated) == Some(m)
    ensures m !in updated
    ensures Precedes(standbys, expected, primary, x, m) ==> x in updated
  {
    var order := MemberOrder(standbys, expected, primary);
    var k :| IsAt(order, k, m) && Elements(order[..k]) <= updated;
    assert m !in Elements(order[..k]);
    if Precedes(standbys, expected, primary, x, m) {
      OrderRespectsPrecedence(standbys, expected, primary, order, k, x, m);
      assert x in Elements(order[..k]);
    }
  }

  /** A pass that starts a new Member plan. */
  ghost predicate StartsMember(t: Topology, ss: seq<State>, es: seq<Event>, i: nat) {
    && Run(t, ss, es) && i < |es| && es[i].Pass? && ss[i + 1].plan != ss[i].plan
    && ss[i + 1].plan.Some? && ss[i + 1].plan.value.phase == Member
  }

  /**
    In every run, whatever happens to the primary, a newly planned member is not updated yet, and
    everybody who precedes it is: lesser standbys, for others all standbys and the members declared
    before it, and for the primary everybody else.
  */
  lemma TargetsInOrder(t: Topology, ss: seq<State>, es: seq<Event>, i: nat, x: string)
    requires StartsMember(t, ss, es, i) && Sorted(es[i].standbys)
    ensures
      var r := ss[i + 1].plan.value;
      && r.target !in r.updated
      && (Precedes(es[i].standbys, t.expected, ss[i].primary, x, r.target) ==> x in r.updated)
  {
    var r := ss[i + 1].plan.value;
    assert ss[i + 1] == Do(t, ss[i], es[i]);
    ChoiceRespectsPrecedence(es[i].standbys, t.expected, ss[i].primary, r.updated, x, r.target);
  }

  /** In every run, the observed primary is planned only when every other declared member is updated. */
  lemma PrimaryIsPlannedLast(t: Topology, ss: seq<State>, es: seq<Event>, i: nat, m: string)
    requires Declares(t) && StartsMember(t, ss, es, i) && Sorted(es[i].standbys) && ss[i].primary !in es[i].standbys
    requires ss[i + 1].plan.value.target == ss[i].primary && m in t.members && m != ss[i].primary
    ensures m in ss[i + 1].plan.value.updated
  {
    TargetsInOrder(t, ss, es, i, m);
  }

  /** In every run, a member that is no standby is planned only when every observed standby is updated. */
  lemma StandbysArePlannedFirst(t: Topology, ss: seq<State>, es: seq<Event>, i: nat)
    requires StartsMember(t, ss, es, i) && Sorted(es[i].standbys)
    requires ss[i + 1].plan.value.target !in es[i].standbys
    ensures Elements(es[i].standbys) <= ss[i + 1].plan.value.updated
  {
    forall x | x in es[i].standbys ensures x in ss[i + 1].plan.value.updated {
      TargetsInOrder(t, ss, es, i, x);
    }
  }

  // ------------------------------------------------------------------------------------
  // A primary that is listed as a standby
  // ------------------------------------------------------------------------------------

  /** The primary is chosen only when everybody else in the order is updated. */
  ghost predicate PrimaryLast(standbys: seq<string>, expected: seq<string>, primary: string) {
    var order := MemberOrder(standbys, expected, primary);
    forall updated: set<string> :: FirstMissing(order, updated) == Some(primary) ==> Elements(order) - {primary} <= updated
  }

  lemma MissingAfterPrefix(order: seq<string>, k: nat)
    requires k < |order| && order[k] !in order[..k]
    ensures FirstMissing(order, Elements(order[..k])) == Some(order[k])
  {
    var updated := Elements(order[..k]);
    var m := FirstMissing(order, updated);
    assert order[k] in Elements(order) && order[k] !in updated;
    var j :| IsAt(order, j, m.value) && Elements(order[..j]) <= updated;
    assert forall i :: 0 <= i < k ==> order[..k][i] == order[i] && order[i] in updated;
    assert forall i :: 0 <= i < j ==> order[..j][i] == order[i] && order[i] in Elements(order[..j]);
    assert j == k;
  }

  lemma {:induction false} FirstPlace(order: seq<string>, m: string) returns (k: nat)
    requires m in order
    ensures k < |order| && order[k] == m && m !in order[..k]
  {
    var n := |order| - 1;
    assert order == order[..n] + [order[n]];
    if m in order[..n] {
      k := FirstPlace(order[..n], m);
      assert order[..n][..k] == order[..k];
    } else {
      k := n;
    }
  }

  /** The primary comes last exactly when it is no standby, or the last one with nobody behind it. */
  lemma PrimaryLastExactly(standbys: seq<string>, expected: seq<string>, primary: string)
    requires Sorted(standbys) && primary != ""
    ensures PrimaryLast(standbys, expected, primary) <==>
            (primary in standbys ==>
               forall x :: x in MemberOrder(standbys, expected, primary) && x != primary ==> x in standbys && Less(x, primary))
  {
    var order := MemberOrder(standbys, expected, primary);
    assert order[|order| - 1] == primary;
    if primary in standbys ==> forall x :: x in order && x != primary ==> x in standbys && Less(x, primary) {
      forall updated: set<string> | FirstMissing(order, updated) == Some(primary)
        ensures Elements(order) - {primary} <= updated
      {
        forall x | x in order && x != primary ensures x in updated {
          ExtendCovers(standbys, expected, primary, x);
          ChoiceRespectsPrecedence(standbys, expected, primary, updated, x, primary);
        }
      }
    } else {
      var x :| x in order && x != primary && !(x in standbys && Less(x, primary));
      NotLastWitness(standbys, expected, primary, x);
    }
  }

  lemma NotLastWitness(standbys: seq<string>, expected: seq<string>, primary: string, x: string)
    requires Sorted(standbys) && primary in standbys && x in MemberOrder(standbys, expected, primary) && x != primary
    requires !(x in standbys && Less(x, primary))
    ensures !PrimaryLast(standbys, expected, primary)
  {
    var order := MemberOrder(standbys, expected, primary);
    ExtendKeepsPrefix(standbys, expected, primary);
    assert standbys <= order && primary in order;
    var k := FirstPlace(order, primary);
    PositionOf(standbys, order, k, primary);
    MissingAfterPrefix(order, k);
    if x in order[..k] {
      var i :| 0 <= i < k && order[..k][i] == x;
      assert standbys[i] == x && standbys[k] == primary && !Less(primary, x);
      LessTotal(x, primary);
      assert false;
    }
    assert x in Elements(order) - {primary} && x !in Elements(order[..k]);
  }
}
