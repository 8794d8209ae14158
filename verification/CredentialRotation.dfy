/**
  Credential rotation: the hub's choice of the next rotation plan from the conditions that the
  sites reported, and the credential version a site renders for each member.
*/
module CredentialRotation {
  import opened Common
  import opened Names

  datatype Phase = Catalog | Member | Revoke | Finalize

  datatype Rotation = Rotation(version: nat, previous: nat, phase: Phase, target: string, updated: set<string>)

  /** What a site reported, in the order of the status list. Version 0 stands for a condition that is not true. */
  datatype Site = Site(
    name: string,
    isWitness: bool,
    staged: nat,
    active: nat,
    catalog: nat,
    members: Option<(nat, set<string>)>,
    revoked: nat)

  predicate AllStaged(sites: seq<Site>, v: nat) {
    && v >= 1 && (exists i :: 0 <= i < |sites| && !sites[i].isWitness)
    && forall i :: 0 <= i < |sites| && !sites[i].isWitness ==> sites[i].staged == v
  }

  predicate AllActive(sites: seq<Site>, v: nat) {
    && v >= 1 && (exists i :: 0 <= i < |sites| && !sites[i].isWitness)
    && forall i :: 0 <= i < |sites| && !sites[i].isWitness ==> sites[i].active == v
  }

  /** The version every data site has staged, or 0. */
  ghost function StagedVersion(sites: seq<Site>): (v: nat)
    ensures v >= 1 ==> AllStaged(sites, v)
    ensures v == 0 ==> forall w :: !AllStaged(sites, w)
  {
    if v: nat :| AllStaged(sites, v) then v else 0
  }

  ghost function ActiveVersion(sites: seq<Site>): (v: nat)
    ensures v >= 1 ==> AllActive(sites, v)
    ensures v == 0 ==> forall w :: !AllActive(sites, w)
  {
    if v: nat :| AllActive(sites, v) then v else 0
  }

  /** The first site in the list to which the observed primary belongs. */
  predicate HostsPrimary(sites: seq<Site>, primary: string, i: nat) {
    && i < |sites| && BelongsToSite(primary, sites[i].name)
    && forall j :: 0 <= j < i ==> !BelongsToSite(primary, sites[j].name)
  }

  /** The site of the observed primary reported that the catalog holds this version. */
  predicate CatalogUpdated(sites: seq<Site>, primary: string, v: nat) {
    exists i :: 0 <= i < |sites| && HostsPrimary(sites, primary, i) && sites[i].catalog == v
  }

  predicate PreviousRevoked(sites: seq<Site>, primary: string, v: nat) {
    exists i :: 0 <= i < |sites| && HostsPrimary(sites, primary, i) && sites[i].revoked == v
  }

  /** Some site lists the member as running with this version. */
  predicate ListedBy(s: Site, v: nat, m: string) {
    s.members.Some? && s.members.value.0 == v && m in s.members.value.1
  }

  ghost function UpdatedMembers(sites: seq<Site>, v: nat): set<string> {
    set i, m | 0 <= i < |sites| && sites[i].members.Some? && m in sites[i].members.value.1 && ListedBy(sites[i], v, m) :: m
  }

  /** Append the PostgreSQL members that are not yet listed, the primary excepted. */
  function Extend(order: seq<string>, expected: seq<string>, primary: string): seq<string>
    decreases |expected|
  {
    if expected == [] then order
    else
      var m := expected[0];
      Extend(if "postgres-" <= m && m != primary && m !in order then order + [m] else order, expected[1..], primary)
  }

  lemma {:induction false} ExtendCovers(order: seq<string>, expected: seq<string>, primary: string, m: string)
    ensures m in Extend(order, expected, primary) <==>
            m in order || (m in expected && "postgres-" <= m && m != primary)
    decreases |expected|
  {
    if expected != [] {
      var head := expected[0];
      var order' := if "postgres-" <= head && head != primary && head !in order then order + [head] else order;
      assert expected == [head] + expected[1..];
      ExtendCovers(order', expected[1..], primary, m);
    }
  }

  lemma {:induction false} ExtendKeepsPrefix(order: seq<string>, expected: seq<string>, primary: string)
    ensures order <= Extend(order, expected, primary)
    decreases |expected|
  {
    if expected != [] {
      var m := expected[0];
      ExtendKeepsPrefix(if "postgres-" <= m && m != primary && m !in order then order + [m] else order,
                        expected[1..], primary);
    }
  }

  /** Sorted synchronous standbys first, then the others, the primary last. */
  function MemberOrder(standbys: seq<string>, expected: seq<string>, primary: string): seq<string> {
    Extend(standbys, expected, primary) + (if primary == "" then [] else [primary])
  }

  /** The order in which members are updated, for standbys listed in any order. */
  ghost predicate IsOrder(standbys: seq<string>, expected: seq<string>, primary: string, order: seq<string>) {
    exists sorted :: Sorted(sorted) && multiset(sorted) == multiset(standbys) && order == MemberOrder(sorted, expected, primary)
  }

  /** The first member of the order that is not updated. */
  function FirstMissing(order: seq<string>, updated: set<string>): (m: Option<string>)
    ensures m.None? <==> Elements(order) <= updated
    ensures m.Some? ==> m.value !in updated && exists k :: IsAt(order, k, m.value) && Elements(order[..k]) <= updated
  {
    if order == [] then None
    else if order[0] !in updated then
      assert IsAt(order, 0, order[0]) && order[..0] == [];
      Some(order[0])
    else
      var m := FirstMissing(order[1..], updated);
      assert order == [order[0]] + order[1..];
      assert m.Some? ==> forall k :: IsAt(order[1..], k, m.value) ==>
        IsAt(order, k + 1, m.value) && order[..k + 1] == [order[0]] + order[1..][..k];
      m
  }

  predicate IsAt(order: seq<string>, k: int, m: string) { 0 <= k < |order| && order[k] == m }

  /** The next rotation plan. `other` says that another operation is planned. */
  ghost function Decide(sites: seq<Site>, primary: string, order: seq<string>, plan: Option<Rotation>, applied: bool,
                        other: bool): Option<Rotation>
  {
    var version := StagedVersion(sites);
    var previous := if plan.Some? then plan.value.previous else ActiveVersion(sites);
    var updated := UpdatedMembers(sites, version);
    var missing := FirstMissing(order, updated);
    if plan.Some? && !applied then plan
    else if other || version == 0 || previous == 0 || previous == version then None
    else if !CatalogUpdated(sites, primary, version) then Some(Rotation(version, previous, Catalog, "", {}))
    else if missing.Some? then Some(Rotation(version, previous, Member, missing.value, updated))
    else if !PreviousRevoked(sites, primary, version) then Some(Rotation(version, previous, Revoke, "", updated))
    else Some(Rotation(version, previous, Finalize, "", updated))
  }

  /** The version a site renders for one of its members. */
  function RenderedVersion(plan: Option<Rotation>, runtime: nat, m: string): nat {
    if plan.Some? && (m == plan.value.target || m in plan.value.updated) then plan.value.version
    else if plan.Some? && plan.value.previous > 0 then plan.value.previous
    else runtime
  }

  // ------------------------------------------------------------------------------------
  // The loops
  // ------------------------------------------------------------------------------------

  method CommonStagedVersion(sites: seq<Site>) returns (version: nat)
    ensures version == StagedVersion(sites)
  {
    version := 0;
    for k := 0 to |sites|
      invariant version == 0 <==> forall i :: 0 <= i < k ==> sites[i].isWitness
      invariant version >= 1 ==> forall i :: 0 <= i < k && !sites[i].isWitness ==> sites[i].staged == version
    {
      if !sites[k].isWitness {
        if sites[k].staged == 0 || (version != 0 && sites[k].staged != version) {
          return 0;
        }
        version := sites[k].staged;
      }
    }
    assert version >= 1 ==> AllStaged(sites, version);
  }

  method ActiveCredentialVersion(sites: seq<Site>) returns (version: nat)
    ensures version == ActiveVersion(sites)
  {
    version := 0;
    for k := 0 to |sites|
      invariant version == 0 <==> forall i :: 0 <= i < k ==> sites[i].isWitness
      invariant version >= 1 ==> forall i :: 0 <= i < k && !sites[i].isWitness ==> sites[i].active == version
    {
      if !sites[k].isWitness {
        if sites[k].active == 0 || (version != 0 && sites[k].active != version) {
          return 0;
        }
        version := sites[k].active;
      }
    }
    assert version >= 1 ==> AllActive(sites, version);
  }

  method CredentialUpdatedMembers(sites: seq<Site>, version: nat) returns (members: set<string>)
    ensures members == UpdatedMembers(sites, version)
  {
    members := {};
    for k := 0 to |sites|
      invariant members == UpdatedMembers(sites[..k], version)
    {
      assert sites[..k + 1] == sites[..k] + [sites[k]];
      var condition := sites[k].members;
      if condition.Some? && condition.value.0 == version {
        UpdatedByOneMore(sites, version, k);
        members := members + condition.value.1;
      } else {
        UpdatedByOneMore(sites, version, k);
      }
    }
    assert sites[..|sites|] == sites;
  }

  lemma UpdatedByOneMore(sites: seq<Site>, v: nat, k: nat)
    requires k < |sites|
    ensures UpdatedMembers(sites[..k + 1], v) ==
            UpdatedMembers(sites[..k], v) +
            (if sites[k].members.Some? && sites[k].members.value.0 == v then sites[k].members.value.1 else {})
  {
    var a, b := UpdatedMembers(sites[..k], v), UpdatedMembers(sites[..k + 1], v);
    forall m | m in a ensures m in b {
      var i :| 0 <= i < k && ListedBy(sites[..k][i], v, m);
      assert ListedBy(sites[..k + 1][i], v, m);
    }
    forall m | m in b && m !in a ensures ListedBy(sites[k], v, m) {
      var i :| 0 <= i < k + 1 && ListedBy(sites[..k + 1][i], v, m);
      assert i < k ==> ListedBy(sites[..k][i], v, m);
    }
    forall m | ListedBy(sites[k], v, m) ensures m in b {
      assert ListedBy(sites[..k + 1][k], v, m);
    }
  }

  /** The first site that hosts the primary decides, whatever it reported. */
  lemma FirstHost(sites: seq<Site>, primary: string, k: nat)
    requires k < |sites| && BelongsToSite(primary, sites[k].name)
    requires forall i :: 0 <= i < k ==> !BelongsToSite(primary, sites[i].name)
    ensures forall i :: 0 <= i < |sites| && HostsPrimary(sites, primary, i) ==> i == k
    ensures HostsPrimary(sites, primary, k)
  {
  }

  method CredentialCatalogUpdated(sites: seq<Site>, primary: string, version: nat) returns (updated: bool)
    ensures updated <==> CatalogUpdated(sites, primary, version)
  {
    for k := 0 to |sites|
      invariant forall i :: 0 <= i < k ==> !BelongsToSite(primary, sites[i].name)
    {
      if BelongsToSite(primary, sites[k].name) {
        FirstHost(sites, primary, k);
        return sites[k].catalog == version;
      }
    }
    return false;
  }

  method PreviousCredentialsRevoked(sites: seq<Site>, primary: string, version: nat) returns (revoked: bool)
    ensures revoked <==> PreviousRevoked(sites, primary, version)
  {
    for k := 0 to |sites|
      invariant forall i :: 0 <= i < k ==> !BelongsToSite(primary, sites[i].name)
    {
      if BelongsToSite(primary, sites[k].name) {
        FirstHost(sites, primary, k);
        return sites[k].revoked == version;
      }
    }
    return false;
  }

  method CredentialMemberOrder(standbys: seq<string>, expected: seq<string>, primary: string)
    returns (order: seq<string>)
    ensures IsOrder(standbys, expected, primary, order)
    ensures |standbys| <= |order| && Sorted(order[..|standbys|]) && multiset(order[..|standbys|]) == multiset(standbys)
    ensures primary != "" ==> order != [] && order[|order| - 1] == primary
    ensures forall m :: m in order <==>
              m in standbys || (m in expected && "postgres-" <= m && m != primary) || (primary != "" && m == primary)
  {
    order := Sort(standbys);
    ghost var sorted := order;
    for k := 0 to |expected|
      invariant Extend(order, expected[k..], primary) == Extend(sorted, expected, primary)
    {
      var m := expected[k];
      assert expected[k..][1..] == expected[k + 1..];
      if "postgres-" <= m && m != primary && m !in order {
        order := order + [m];
      }
    }
    if primary != "" {
      order := order + [primary];
    }
    assert order == MemberOrder(sorted, expected, primary);
    ExtendKeepsPrefix(sorted, expected, primary);
    assert |sorted| == |standbys| by { assert |multiset(sorted)| == |multiset(standbys)|; }
    assert order[..|standbys|] == sorted;
    forall m ensures m in Extend(sorted, expected, primary) <==>
                     m in standbys || (m in expected && "postgres-" <= m && m != primary)
    {
      ExtendCovers(sorted, expected, primary, m);
      assert m in multiset(sorted) <==> m in multiset(standbys);
    }
  }

  method CredentialRotationPlan(sites: seq<Site>, primary: string, standbys: seq<string>, expected: seq<string>,
                                plan: Option<Rotation>, applied: bool, other: bool)
    returns (next: Option<Rotation>)
    ensures exists order :: IsOrder(standbys, expected, primary, order) &&
                            next == Decide(sites, primary, order, plan, applied, other)
  {
    var order := CredentialMemberOrder(standbys, expected, primary);
    if plan.Some? && !applied {
      return plan;
    }
    if other {
      return None;
    }
    var version := CommonStagedVersion(sites);
    var previous := ActiveCredentialVersion(sites);
    if plan.Some? {
      previous := plan.value.previous;
    }
    if version == 0 || previous == 0 || previous == version {
      return None;
    }
    var catalogUpdated := CredentialCatalogUpdated(sites, primary, version);
    if !catalogUpdated {
      return Some(Rotation(version, previous, Catalog, "", {}));
    }
    var updated := CredentialUpdatedMembers(sites, version);
    for k := 0 to |order|
      invariant FirstMissing(order, updated) == FirstMissing(order[k..], updated)
    {
      if order[k] !in updated {
        return Some(Rotation(version, previous, Member, order[k], updated));
      }
      assert order[k..][1..] == order[k + 1..];
    }
    var revoked := PreviousCredentialsRevoked(sites, primary, version);
    if !revoked {
      return Some(Rotation(version, previous, Revoke, "", updated));
    }
    return Some(Rotation(version, previous, Finalize, "", updated));
  }
}
