/**
  The stored instance object and the handlers that change it in place: the instance
  reconciler, the record functions of the control server, the major-upgrade reconciler and
  the deletion handler. Each handler is shown to take the object from representing one state
  of the MajorUpgrade machine to representing the next one.
*/
module HubObject {
  import opened Common
  import opened Names
  import opened UpgradePhases
  import B = PostUpgradeBackup
  import M = MajorUpgrade
  import P = PlanProtocol

  /** The upgrade controller touches nothing of the instance but its annotations. */
  lemma OnlyAnnotationsChange(s: M.State, d: Decision)
    requires s.sys.hub.tag.Some? && s.sys.hub.active < |s.sys.issued|
    ensures
      var t := M.Act(s, d);
      && t.sys.hub == s.sys.hub.(tag := t.sys.hub.tag)
      && t.sys.hub.tag == After(s.sys.hub.tag.value, d)
      && t.expected == if d.Wait? then s.expected else s.sys.hub.active + 1
  {
  }

  class Instance {
    const declared: seq<string>
    var tag: Tag
    var expected: nat
    var active: nat
    var fingerprint: Option<(int, Tag)>
    var sites: map<string, P.SiteStatus>
    var plans: map<string, P.Plan<Tag>>
    var ready: bool

    constructor (declared: seq<string>)
      ensures this.declared == declared && View() == P.Init<Tag>(None).hub && expected == 0
    {
      this.declared := declared;
      tag, expected, active, fingerprint := None, 0, 0, None;
      sites, plans, ready := map[], map[], false;
    }

    function View(): P.Hub<Tag>
      reads this
    {
      P.Hub(tag, active, fingerprint, sites, plans, ready)
    }

    /** This object is the hub part of a state of the upgrade machine. */
    ghost predicate Represents(s: M.State)
      reads this
    {
      s.sys.hub == View() && s.expected == expected && s.sys.hub.active < |s.sys.issued|
    }

    method AllSitesApplied(revision: nat) returns (all: bool)
      ensures all == P.AllSitesApplied(sites, revision)
    {
      if sites == map[] { return false; }
      var rest := sites.Keys;
      while rest != {}
        invariant rest <= sites.Keys
        invariant forall n :: n in sites && n !in rest ==> sites[n].applied == revision
      {
        var n :| n in rest;
        if sites[n].applied != revision { return false; }
        rest := rest - {n};
      }
      return true;
    }

    method MajorUpgradeFailed() returns (failed: bool)
      ensures failed == M.AnyFailed(sites)
    {
      var rest := sites.Keys;
      while rest != {}
        invariant rest <= sites.Keys
        invariant forall n :: n in sites && n !in rest ==> !sites[n].failed
      {
        var n :| n in rest;
        if sites[n].failed { return true; }
        rest := rest - {n};
      }
      return false;
    }

    /** The loop over the declared sites: one plan and one refreshed status for each. */
    method PlanSites(bodies: map<string, int>)
      returns (statuses: map<string, P.SiteStatus>, issued: map<string, P.Plan<Tag>>)
      requires Elements(declared) <= bodies.Keys
      ensures statuses == P.RefreshedSites(sites, Elements(declared), active)
      ensures issued == map n | n in Elements(declared) :: P.Plan(active, tag, bodies[n])
    {
      statuses, issued := map[], map[];
      for i := 0 to |declared|
        invariant statuses == P.RefreshedSites(sites, Elements(declared[..i]), active)
        invariant issued.Keys == Elements(declared[..i])
        invariant forall n :: n in issued ==> n in bodies && issued[n] == P.Plan(active, tag, bodies[n])
      {
        var name := declared[i];
        assert declared[..i + 1] == declared[..i] + [name];
        var status := if name in sites then sites[name] else P.SiteStatus(0, 0, 0, false);
        issued := issued[name := P.Plan(active, tag, bodies[name])];
        statuses := statuses[name := status.(desired := active)];
      }
      assert declared[..|declared|] == declared;
    }

    /** A changed fingerprint is the only reason for a new revision. */
    method NumberRevision(inputs: int)
      modifies this`active, this`fingerprint
      ensures active == old(active) + (if old(fingerprint) == Some((inputs, tag)) then 0 else 1)
      ensures fingerprint == Some((inputs, tag))
    {
      if fingerprint != Some((inputs, tag)) {
        active := active + 1;
        fingerprint := Some((inputs, tag));
      }
    }

    /** One complete pass: number the revision, write one plan per site, refresh the site statuses. */
    method Reconcile(inputs: int, bodies: map<string, int>, healthy: bool)
      requires Elements(declared) <= bodies.Keys
      modifies this
      ensures View() == P.ReconcileInstance(old(View()), Elements(declared), inputs, bodies, healthy)
      ensures expected == old(expected)
    {
      NumberRevision(inputs);
      var statuses, issued := PlanSites(bodies);
      sites, plans := statuses, issued;
      var applied := AllSitesApplied(active);
      ready := healthy && applied;
    }

    /** A report for any other revision than the desired one changes nothing. */
    method RecordResult(site: string, revision: nat, failed: bool) returns (found: bool)
      modifies this`sites
      ensures found == (site in old(sites))
      ensures sites == if !found then old(sites)
                       else old(sites)[site := P.ResultSite(old(sites)[site], revision, failed)]
    {
      if site !in sites { return false; }
      if revision == sites[site].desired {
        sites := sites[site := sites[site].(applied := revision, failed := failed)];
      }
      return true;
    }

    method RecordProgress(site: string, revision: nat, failed: bool) returns (found: bool)
      modifies this`sites
      ensures found == (site in old(sites))
      ensures sites == if !found then old(sites)
                       else old(sites)[site := P.ProgressSite(old(sites)[site], revision, failed)]
    {
      if site !in sites { return false; }
      if revision == sites[site].desired {
        sites := sites[site := sites[site].(failed := failed)];
      }
      return true;
    }

    /** A rejected plan is not acknowledged. */
    method RecordAcknowledgement(site: string, revision: nat, accepted: bool) returns (found: bool)
      modifies this`sites
      ensures found == (site in old(sites))
      ensures sites == if !found || !accepted then old(sites)
                       else old(sites)[site := P.AcknowledgeSite(old(sites)[site], revision)]
    {
      if site !in sites { return false; }
      if revision == sites[site].desired && accepted {
        sites := sites[site := sites[site].(acknowledged := revision)];
      }
      return true;
    }

    method AdvanceMajorPhase(next: Phase)
      requires tag.Some?
      modifies this`tag, this`expected
      ensures tag == Some(old(tag).value.(phase := next)) && expected == active + 1
    {
      tag := Some(tag.value.(phase := next));
      expected := active + 1;
    }

    /** An upgrade takes an instance that is Ready, has no owner and an observed primary under an agreed topology. */
    method BeginMajorUpgrade(uid: string, primary: string, topologyReady: bool, ghost s: M.State) returns (begun: bool)
      requires Represents(s)
      modifies this`tag, this`expected
      ensures begun <==> old(tag).None? && ready && topologyReady && primary != ""
      ensures View() == if begun then M.MoveOn(s, Some(Owner(uid, primary, Preflight))).sys.hub else old(View())
      ensures expected == if begun then active + 1 else old(expected)
    {
      if !ready || tag.Some? || primary == "" || !topologyReady {
        return false;
      }
      tag := Some(Owner(uid, primary, Preflight));
      expected := active + 1;
      return true;
    }

    /**
      The phase switch, once every site applied the phase. `status` is the status of the upgrade
      object, which is consulted in Finalize only.
    */
    method LeavePhase(topologyReady: bool, required: nat, synchronous: bool, status: B.UpgradeStatus, now: int, hash: nat)
      requires tag.Some?
      modifies this`tag, this`expected, status
      ensures
        var d := DecideMajor(old(tag).value.phase, false, true, topologyReady && (required > 0 ==> synchronous),
                             old(status.state).condition == B.Verified);
        && tag == After(old(tag).value, d)
        && (tag.Some? ==> expected == if d.Wait? then old(expected) else active + 1)
      ensures status.state == if old(tag).value.phase == Finalize then B.Ensure(old(status.state), now, hash % 60)
                              else old(status.state)
    {
      match tag.value.phase {
        case Preflight => AdvanceMajorPhase(Drain);
        case Drain => AdvanceMajorPhase(Stop);
        case Stop => AdvanceMajorPhase(Snapshot);
        case Snapshot => AdvanceMajorPhase(UpgradePrimary);
        case UpgradePrimary => AdvanceMajorPhase(StanzaUpgrade);
        case StanzaUpgrade => AdvanceMajorPhase(StartPrimary);
        case StartPrimary => AdvanceMajorPhase(Replicas);
        case Replicas =>
          if topologyReady && !(required > 0 && !synchronous) {
            AdvanceMajorPhase(RestoreWrites);
          }
        case RestoreWrites => AdvanceMajorPhase(Finalize);
        case Finalize =>
          var ready := status.EnsurePostUpgradeBackup(now, hash);
          if ready {
            tag, expected := None, 0;
          }
        case Rollback => AdvanceMajorPhase(RollbackStart);
        case RollbackStart => AdvanceMajorPhase(RollbackRestoreWrites);
        case RollbackRestoreWrites => tag, expected := None, 0;
      }
    }

    /** A failed site starts the rollback of a conversion, does not stop a rollback, and stops everything else. */
    method ReactToFailure() returns (goOn: bool)
      requires tag.Some?
      modifies this`tag, this`expected
      ensures goOn <==> RollingBack(old(tag).value.phase)
      ensures if Convertible(old(tag).value.phase)
              then tag == Some(old(tag).value.(phase := Rollback)) && expected == active + 1
              else tag == old(tag) && expected == old(expected)
    {
      match tag.value.phase {
        case UpgradePrimary | StanzaUpgrade | StartPrimary =>
          AdvanceMajorPhase(Rollback);
          return false;
        case Rollback | RollbackStart | RollbackRestoreWrites => return true;
        case _ => return false;
      }
    }

    /** One pass of the major-upgrade reconciler over the instance it owns. */
    method ReconcileMajorUpgrade(topologyReady: bool, required: nat, synchronous: bool, status: B.UpgradeStatus,
                                 now: int, hash: nat, ghost s: M.State)
      requires Represents(s) && tag.Some?
      modifies this`tag, this`expected, status
      ensures
        var asks := old(tag).value.phase == Finalize && !M.AnyFailed(sites) && M.PhaseApplied(s);
        var t := M.Act(s, M.Decide(s, topologyReady && (required > 0 ==> synchronous),
                                   asks && old(status.state).condition == B.Verified));
        && View() == t.sys.hub
        && (tag.Some? ==> expected == t.expected)
        && status.state == if asks then B.Ensure(old(status.state), now, hash % 60) else old(status.state)
    {
      ghost var asks := tag.value.phase == Finalize && !M.AnyFailed(sites) && M.PhaseApplied(s);
      OnlyAnnotationsChange(s, M.Decide(s, topologyReady && (required > 0 ==> synchronous),
                                        asks && status.state.condition == B.Verified));
      var failed := MajorUpgradeFailed();
      assert failed == M.AnyFailed(s.sys.hub.sites);
      if failed {
        var goOn := ReactToFailure();
        if !goOn {
          return;
        }
      }
      var all := AllSitesApplied(active);
      assert M.PhaseApplied(s) == (active >= expected && all);
      if active >= expected && all {
        LeavePhase(topologyReady, required, synchronous, status, now, hash);
      }
    }

    /** What the finalizer of a deleted upgrade does to the instance it owns. */
    method ReconcileUpgradeDeletion(abandon: bool, ghost s: M.State) returns (removeFinalizer: bool)
      requires Represents(s) && tag.Some?
      modifies this`tag, this`expected
      ensures
        var t := M.ActOnDeletion(s, DecideDeletion(s.sys.hub.tag.value.phase, abandon));
        && View() == t.sys.hub
        && (tag.Some? ==> expected == t.expected)
        && (removeFinalizer <==> tag.None?)
    {
      removeFinalizer := false;
      if abandon {
        tag, expected := None, 0;
        return true;
      }
      match tag.value.phase {
        case Preflight =>
          tag, expected := None, 0;
          removeFinalizer := true;
        case Drain | Stop | Snapshot | UpgradePrimary | StanzaUpgrade | StartPrimary =>
          AdvanceMajorPhase(Rollback);
        case _ =>
      }
    }
  }

}
