/**
  Instances from which the delivery results start: every declared site has applied the plan that
  the hub asks for.
*/
module DeliveryStarts {
  import opened Common
  import opened Names
  import A = AddressDelivery
  import AM = AddressMigration
  import C = CredentialDelivery
  import I = ImageDelivery
  import MU = MinorUpgrade
  import P = PlanProtocol
  import R = CredentialRuns

  /** One revision was issued, and every site received, applied and reported it. */
  function Applied<T(==)>(declared: set<string>, tag: T): P.System<T> {
    P.System(
      P.Hub(tag, 1, Some((0, tag)), map n | n in declared :: P.SiteStatus(1, 1, 1, false),
            map n | n in declared :: P.Plan(1, tag, 0), false),
      [tag, tag], {}, map n | n in declared :: P.Plan(1, tag, 0), set n | n in declared :: (n, 1))
  }

  lemma AppliedIsSound<T>(declared: set<string>, tag: T)
    requires declared != {}
    ensures
      var s := Applied(declared, tag);
      P.Inv(declared, s) && P.AllSitesApplied(s.hub.sites, s.hub.active) && s.issued[s.hub.active] == s.hub.tag == tag
  {
    var s := Applied(declared, tag);
    var n :| n in declared;
    assert n in s.hub.sites;
    assert P.HubInv(declared, s.hub, s.issued);
    assert P.AgentInv(declared, s.issued, s.wire, s.cache, s.results);
  }

  /** For all complete addresses. */
  lemma AddressesCanStart(declared: set<string>, expected: seq<string>, addresses: map<string, string>) returns (s: A.State)
    requires declared != {} && AM.Complete(addresses, expected)
    ensures A.Start(declared, expected, s)
  {
    var tag := AM.Plan(addresses, None);
    AppliedIsSound(declared, tag);
    s := A.State(Applied(declared, tag), addresses, 1, addresses);
  }

  /** For all members and images. */
  lemma ImagesCanStart(declared: set<string>, u: I.Upgrade, image: string) returns (s: I.State)
    requires declared != {} && u.members <= u.all && "" !in u.all
    ensures I.Start(declared, u, s)
  {
    var tag := MU.Minor(MU.Idle, "", {}, "", "", false, image);
    AppliedIsSound(declared, tag);
    s := I.State(Applied(declared, tag), 1, 1, I.Images(u)(tag));
  }

  /** For all staged, unrotated instances; `CredentialMoves.UnrotatedInstance` is one. */
  lemma CredentialsCanStart(x: C.Setting, conditions: R.State) returns (s: C.State)
    requires x.names != [] && Distinct(x.names) && C.Named(x.names, conditions.sites)
    requires R.Start(x.topology, conditions, x.to, x.from)
    ensures C.Start(Elements(x.names), x, s)
  {
    var declared := Elements(x.names);
    assert x.names[0] in declared;
    var tag := C.Tag(None, x.from);
    var all := conditions.(reported := Range(0, |x.names|));
    assert R.Start(x.topology, all, x.to, x.from);
    assert P.Inv(declared, Applied(declared, tag)) && C.AllApplied(Applied(declared, tag)) by {
      AppliedIsSound(declared, tag);
    }
    s := C.State(Applied(declared, tag), all, 1, C.Versions(x)(tag));
    EveryoneReported(x.names, Applied(declared, tag).hub.sites, all.reported);
  }

  lemma EveryoneReported(names: seq<string>, sites: map<string, P.SiteStatus>, reported: set<nat>)
    requires names != [] && Distinct(names) && sites == map n | n in Elements(names) :: P.SiteStatus(1, 1, 1, false)
    requires forall i :: 0 <= i < |names| ==> i in reported
    ensures C.Coupled(names, sites, 1, reported)
  {
    assert sites.Keys == Elements(names);
  }
}
