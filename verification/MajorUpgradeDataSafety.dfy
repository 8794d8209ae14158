/**
  No member ever runs one major version on the data of another, in every run of major upgrades
  with failures, rollbacks and deletions, but without forced abandonment after Preflight.
*/
module MajorUpgradeDataSafety {
  import opened Common
  import opened Names
  import opened UpgradePhases
  import opened MajorUpgrade
  import opened MajorUpgradeAgent
  import opened MajorUpgradeData
  import opened MajorUpgradeDataSteps
  import opened MajorUpgradeSafety
  import opened MajorUpgradeWork
  import opened MajorVersions
  import P = PlanProtocol

  // ------------------------------------------------------------------------------------
  // Steps of the upgrade machine
  // ------------------------------------------------------------------------------------

  /** More plans are issued, and nothing else that the site sees changes. */
  lemma LongerHistoryKeeps(x: Instance, w: World, t: World, n: string)
    requires n in x.locals && SiteInv(x, w, n) && t.disks == w.disks && t.rendered == w.rendered && t.up.spec == w.up.spec
    requires t.up.s.sys.cache == w.up.s.sys.cache && w.up.s.sys.issued <= t.up.s.sys.issued
    requires t.up.s.floor == w.up.s.floor && t.up.s.done == w.up.s.done
    ensures SiteInv(x, t, n)
  {
  }

  /** The hub moves on: every site runs the active revision, which it has applied. */
  lemma MoveOnKeepsSite(x: Instance, w: World, t: World, n: string)
    requires Pair(x, w, n) && SiteInv(x, w, n) && t.disks == w.disks && t.rendered == w.rendered
    requires t.up.s.sys.cache == w.up.s.sys.cache && t.up.s.sys.issued == w.up.s.sys.issued && t.up.s.done == w.up.s.done
    requires |w.up.s.sys.issued| == t.up.s.floor + 1 && n in w.rendered && t.up.s.floor <= w.rendered[n]
    requires
      var held := w.up.s.sys.issued[t.up.s.floor];
      t.up.spec != w.up.spec ==> held.Some? && held.value.phase == RestoreWrites
    ensures SiteInv(x, t, n)
  {
  }

  /** While a phase that rewrites data is about, all plans that are about are of that operation. */
  lemma RewritingIsOneOperation(recent: seq<Tag>, a: Tag, b: Tag, m: string)
    requires Shape(recent) && NoForcedRelease(recent) && a in recent && b in recent && a.Some? && Touches(a.value, m)
    ensures b.Some? && b.value.uid == a.value.uid
  {
    assert a == recent[0] || a == recent[1] || (|recent| == 3 && a == recent[2]);
    assert b == recent[0] || b == recent[1] || (|recent| == 3 && b == recent[2]);
  }

  /** A later plan that rewrites data is one whose work the site has not finished. */
  lemma LaterIsUnfinished(x: Instance, w: World, n: string, r: nat, m: string)
    requires Window(x, w) && Pair(x, w, n) && DoneWasAccepted(w.up.s)
    requires w.up.s.sys.cache[n].revision <= r < |w.up.s.sys.issued| && w.up.s.sys.issued[r] != w.up.s.sys.cache[n].tag
    requires w.up.s.sys.issued[r].Some? && Touches(w.up.s.sys.issued[r].value, m)
    ensures !Done(w.up.s, n, w.up.s.sys.issued[r])
  {
    var s := w.up.s;
    var y, y' := s.sys.cache[n].tag, s.sys.issued[r];
    RewritingIsOneOperation(s.recent, y', y, m);
    assert InOrder(y, y');
  }

  lemma OnlyRollbackOvertakes(recent: seq<Tag>, a: Tag, b: Tag, m: string)
    requires Shape(recent) && NoForcedRelease(recent) && a in recent && b in recent && a != b && InOrder(a, b)
    requires a != recent[0] && a.Some? && Touches(a.value, m)
    ensures b.Some? && b.value.phase == Rollback
  {
    RewritingIsOneOperation(recent, a, b, m);
    assert a == recent[1];
    assert b != recent[0];
    assert |recent| == 3;
  }

  /** Work in progress is overtaken by a rollback only. */
  lemma UnfinishedIsOvertakenByRollback(x: Instance, w: World, n: string, r: nat, m: string)
    requires Window(x, w) && Pair(x, w, n) && WindowInv(x.sites, w.up.s.sys, w.up.s.done, w.up.s.floor, w.up.s.recent)
    requires n in x.sites && w.up.s.sys.cache[n].revision <= r < |w.up.s.sys.issued|
    requires w.up.s.sys.issued[r] != w.up.s.sys.cache[n].tag
    requires HasWork(x, w.up.s, n) && Touches(w.up.s.sys.cache[n].tag.value, m)
    ensures w.up.s.sys.issued[r].Some? && w.up.s.sys.issued[r].value.phase == Rollback
  {
    var s := w.up.s;
    assert s.sys.cache[n].tag != s.recent[0];
    assert InOrder(s.sys.cache[n].tag, s.sys.issued[r]);
    OnlyRollbackOvertakes(s.recent, s.sys.cache[n].tag, s.sys.issued[r], m);
  }

  /** What the site has on disk for a plan it newly accepts. */
  lemma NewPlanData(x: Instance, w: World, n: string, r: nat, m: string)
    requires Window(x, w) && Pair(x, w, n) && WindowInv(x.sites, w.up.s.sys, w.up.s.done, w.up.s.floor, w.up.s.recent)
    requires n in x.sites && SiteInv(x, w, n) && DoneWasAccepted(w.up.s) && m in x.locals[n]
    requires w.up.s.sys.cache[n].revision <= r < |w.up.s.sys.issued|
    ensures
      var y' := w.up.s.sys.issued[r];
      (!Done(w.up.s, n, y') && Touches(y'.value, m)) || Good(x, w, y', m)
  {
    var s := w.up.s;
    var y, y' := s.sys.cache[n].tag, s.sys.issued[r];
    if y' != y {
      if y'.Some? && Touches(y'.value, m) {
        LaterIsUnfinished(x, w, n, r, m);
      } else {
        if !Done(s, n, y) && Touches(y.value, m) {
          UnfinishedIsOvertakenByRollback(x, w, n, r, m);
          assert false;
        }
        assert InOrder(y, y');
        OthersKeepData(x.target, w.up.spec, s.recent, y, y', m);
      }
    }
  }

  /** A site accepts a plan of the window. */
  lemma ReceiveKeepsSite(x: Instance, w: World, t: World, n: string, plan: P.Plan<Tag>)
    requires Window(x, w) && Pair(x, w, n) && WindowInv(x.sites, w.up.s.sys, w.up.s.done, w.up.s.floor, w.up.s.recent)
    requires n in x.sites && SiteInv(x, w, n) && DoneWasAccepted(w.up.s)
    requires w.up.s.sys.cache[n].revision <= plan.revision < |w.up.s.sys.issued| && w.up.s.sys.issued[plan.revision] == plan.tag
    requires t.up == w.up.(s := t.up.s) && t.up.s == w.up.s.(sys := w.up.s.sys.(cache := w.up.s.sys.cache[n := plan]))
    requires t.disks == w.disks && t.rendered == w.rendered
    ensures SiteInv(x, t, n)
  {
    forall m | m in x.locals[n]
      ensures (!Done(t.up.s, n, plan.tag) && Touches(plan.tag.value, m)) || Good(x, t, plan.tag, m)
    {
      NewPlanData(x, w, n, plan.revision, m);
    }
    if plan.tag != w.up.s.sys.cache[n].tag && plan.tag.Some? && plan.tag.value.phase == Rollback {
      LaterIsUnfinished(x, w, n, plan.revision, "");
    }
  }

  /** A site accepts its first plan. */
  lemma FirstPlanKeepsSite(x: Instance, w: World, t: World, n: string, plan: P.Plan<Tag>)
    requires n in x.locals && n !in w.up.s.sys.cache && SiteInv(x, w, n)
    requires plan.tag == None && w.up.s.floor <= plan.revision < |w.up.s.sys.issued|
    requires t.up == w.up.(s := t.up.s) && t.up.s == w.up.s.(sys := w.up.s.sys.(cache := w.up.s.sys.cache[n := plan]))
    requires t.disks == w.disks && t.rendered == w.rendered
    ensures SiteInv(x, t, n)
  {
  }

  /** A site's plan is no business of the others. */
  lemma ReceiveKeepsOthers(x: Instance, w: World, t: World, n: string, k: string, plan: P.Plan<Tag>)
    requires k in x.locals && k != n && SiteInv(x, w, k)
    requires t.up == w.up.(s := t.up.s) && t.up.s == w.up.s.(sys := w.up.s.sys.(cache := w.up.s.sys.cache[n := plan]))
    requires t.disks == w.disks && t.rendered == w.rendered
    ensures SiteInv(x, t, k)
  {
  }

  /** What the upgrade invariant says about a plan that arrives. */
  ghost predicate Arrives(x: Instance, s: State, n: string, plan: P.Plan<Tag>) {
    && n in x.sites && 1 <= plan.revision < |s.sys.issued| && s.sys.issued[plan.revision] == plan.tag
    && (n !in s.sys.cache ==> plan.tag == None && s.floor <= plan.revision)
  }

  lemma ArrivalFacts(x: Instance, s: State, n: string, plan: P.Plan<Tag>)
    requires MajorUpgrade.Inv(x.sites, s) && (n, plan) in s.sys.wire
    ensures Arrives(x, s, n, plan)
  {
    assert P.GenuinePlan(s.sys.issued, plan);
    if n !in s.sys.cache {
      assert s.floor == 0 && s.recent == [None];
    }
  }

  function Received(w: World, n: string, plan: P.Plan<Tag>): World {
    w.(up := w.up.(s := w.up.s.(sys := w.up.s.sys.(cache := w.up.s.sys.cache[n := plan]))))
  }

  lemma ArrivalKeepsSite(x: Instance, w: World, n: string, plan: P.Plan<Tag>)
    requires Declared(x) && UpInv(x, w.up) && (n, plan) in w.up.s.sys.wire && DoneWasAccepted(w.up.s)
    requires n in x.locals && SiteInv(x, w, n)
    requires n in w.up.s.sys.cache ==> w.up.s.sys.cache[n].revision < plan.revision
    ensures SiteInv(x, Received(w, n, plan), n)
  {
    ArrivalFacts(x, w.up.s, n, plan);
    if n in w.up.s.sys.cache {
      InvGivesWindow(x, w);
      InvGivesPair(x, w, n);
      ReceiveKeepsSite(x, w, Received(w, n, plan), n, plan);
    } else {
      FirstPlanKeepsSite(x, w, Received(w, n, plan), n, plan);
    }
  }

  predicate Receives(e: Event) { e.Protocol? && e.e.Receive? }

  predicate ChangesOwner(e: Event) { e.Begin? || e.UpgradePass? || e.DeletionPass? }

  /** A change of owner or phase waits until every site applied the active revision, or moves no site's window. */
  lemma OwnerChange(sites: Sites, s: State, e: Event)
    requires WindowFacts(s) && (s.sys.hub.ready ==> P.AllSitesApplied(s.sys.hub.sites, s.sys.hub.active))
    requires Enabled(sites, s, e) && ChangesOwner(e)
    ensures
      var t := MajorUpgrade.Do(sites, s, e);
      var finishes := Finishes(s.sys.hub.tag, t.sys.hub.tag);
      && t.sys == Patched(s, t.sys.hub.tag) && t.done == s.done
      && ((t.floor == s.floor && !finishes)
          || (&& t.floor == s.sys.hub.active && P.AllSitesApplied(s.sys.hub.sites, s.sys.hub.active)
              && (finishes ==> s.sys.issued[s.sys.hub.active].Some? &&
                               s.sys.issued[s.sys.hub.active].value.phase == RestoreWrites)))
  {
    if e.UpgradePass? {
      var o := s.sys.hub.tag.value;
      DecisionFollowsChain(o.phase, AnyFailed(s.sys.hub.sites), PhaseApplied(s), e.syncSatisfied, e.backupReady);
    }
  }

  lemma ReleaseStep(sites: Sites, s: State, e: Event)
    requires Shape(s.recent) && s.recent[|s.recent| - 1] == s.sys.hub.tag && NoForcedRelease(s.recent)
    requires Enabled(sites, s, e) && !Abandons(s, e)
    ensures NoForcedRelease(MajorUpgrade.Do(sites, s, e).recent)
  {
  }

  lemma SavedStep(x: Instance, w: World, e: Event)
    requires SavedInv(w) && StepEnabled(x, w, Machine(e)) && ChangesOwner(e)
    ensures SavedInv(DoStep(x, w, Machine(e)))
  {
    var s := w.up.s;
    if e.UpgradePass? {
      DecisionFollowsChain(s.sys.hub.tag.value.phase, AnyFailed(s.sys.hub.sites), PhaseApplied(s), e.syncSatisfied, e.backupReady);
    }
  }

  lemma UpgradeKeeps(x: Instance, up: Versioned, e: Event)
    requires MajorUpgrade.Inv(x.sites, up.s) && Enabled(x.sites, up.s, e)
    ensures MajorUpgrade.Inv(x.sites, DoVersioned(x.sites, x.target, up, e).s)
  {
    MajorUpgrade.StepKeeps(x.sites, up.s, e);
  }

  lemma VersionsKeep(x: Instance, up: Versioned, e: Event)
    requires UpInv(x, up) && Enabled(x.sites, up.s, e)
    ensures VInv(x.target, DoVersioned(x.sites, x.target, up, e))
  {
    assert WindowFacts(up.s) by { InvGivesFacts(x.sites, up.s); }
    StepKeepsVersions(x.sites, x.target, up, e);
  }

  lemma ReleaseKeeps(x: Instance, up: Versioned, e: Event)
    requires WindowInv(x.sites, up.s.sys, up.s.done, up.s.floor, up.s.recent) && NoForcedRelease(up.s.recent)
    requires Enabled(x.sites, up.s, e) && !Abandons(up.s, e)
    ensures NoForcedRelease(DoVersioned(x.sites, x.target, up, e).s.recent)
  {
    ReleaseStep(x.sites, up.s, e);
  }

  lemma MachineKeepsUp(x: Instance, w: World, e: Event)
    requires UpInv(x, w.up) && StepEnabled(x, w, Machine(e))
    ensures UpInv(x, DoStep(x, w, Machine(e)).up)
  {
    VersionsKeep(x, w.up, e);
    ReleaseKeeps(x, w.up, e);
    UpgradeKeeps(x, w.up, e);
  }

  /** Every site holds and runs the active revision. */
  ghost predicate AllRun(x: Instance, w: World) {
    forall n :: n in x.locals ==> Pair(x, w, n) && n in w.rendered && w.up.s.sys.hub.active <= w.rendered[n]
  }

  lemma AppliedIsRun(x: Instance, w: World)
    requires Declared(x) && UpInv(x, w.up) && ReportedIsRendered(w)
    requires P.AllSitesApplied(w.up.s.sys.hub.sites, w.up.s.sys.hub.active)
    ensures AllRun(x, w)
  {
    P.AllAppliedMeansReported(x.sites.Keys, w.up.s.sys);
    forall n | n in x.locals ensures Pair(x, w, n) && n in w.rendered && w.up.s.sys.hub.active <= w.rendered[n] {
      assert (n, w.up.s.sys.hub.active) in w.up.s.sys.results;
      InvGivesPair(x, w, n);
    }
  }

  /** What a change of owner needs of the invariant. */
  ghost predicate OwnerFacts(x: Instance, w: World) {
    var s := w.up.s;
    && WindowFacts(s) && (s.sys.hub.ready ==> P.AllSitesApplied(s.sys.hub.sites, s.sys.hub.active))
    && (P.AllSitesApplied(s.sys.hub.sites, s.sys.hub.active) ==> AllRun(x, w))
  }

  lemma OwnerFactsHold(x: Instance, w: World)
    requires Declared(x) && UpInv(x, w.up) && ReportedIsRendered(w)
    ensures OwnerFacts(x, w)
  {
    InvGivesFacts(x.sites, w.up.s);
    if P.AllSitesApplied(w.up.s.sys.hub.sites, w.up.s.sys.hub.active) {
      AppliedIsRun(x, w);
    }
  }

  lemma OwnerChangeKeepsSites(x: Instance, w: World, e: Event)
    requires OwnerFacts(x, w) && SitesInv(x, w) && StepEnabled(x, w, Machine(e)) && ChangesOwner(e)
    ensures SitesInv(x, DoStep(x, w, Machine(e)))
  {
    var s, t := w.up.s, DoStep(x, w, Machine(e));
    OwnerChange(x.sites, s, e);
    if t.up.s.floor == s.floor && t.up.spec == w.up.spec {
      forall n | n in x.locals ensures SiteInv(x, t, n) { LongerHistoryKeeps(x, w, t, n); }
    } else {
      forall n | n in x.locals ensures SiteInv(x, t, n) { MoveOnKeepsSite(x, w, t, n); }
    }
  }

  /** Everything but a received plan or a change of owner leaves what the sites see, except for new plans. */
  lemma QuietKeepsSites(x: Instance, w: World, e: Event)
    requires SitesInv(x, w) && StepEnabled(x, w, Machine(e)) && !ChangesOwner(e) && !(e.Protocol? && e.e.Receive?)
    ensures SitesInv(x, DoStep(x, w, Machine(e)))
  {
    var t := DoStep(x, w, Machine(e));
    QuietState(x, w, e);
    forall n | n in x.locals ensures SiteInv(x, t, n) { LongerHistoryKeeps(x, w, t, n); }
  }

  lemma QuietState(x: Instance, w: World, e: Event)
    requires StepEnabled(x, w, Machine(e)) && !ChangesOwner(e)
    ensures
      var s, t := w.up.s, DoStep(x, w, Machine(e));
      && t == w.(up := t.up) && t.up.spec == w.up.spec && t.up.s.floor == s.floor && t.up.s.done == s.done
      && t.up.s.ended == s.ended && t.up.s.sys.hub.tag == s.sys.hub.tag && s.sys.issued <= t.up.s.sys.issued
      && (!(e.Protocol? && e.e.Receive?) ==> t.up.s.sys.cache == s.sys.cache)
      && (!(e.Protocol? && e.e.Report?) ==> t.up.s.sys.results == s.sys.results)
  {
  }

  lemma QuietKeepsBooks(x: Instance, w: World, e: Event)
    requires Books(x, w) && StepEnabled(x, w, Machine(e)) && !ChangesOwner(e)
    ensures Books(x, DoStep(x, w, Machine(e)))
  {
    var s, t := w.up.s, DoStep(x, w, Machine(e));
    QuietState(x, w, e);
    assert ReportedIsRendered(t);
    assert SavedInv(t);
    AcceptedStays(x, w, e);
  }

  lemma AcceptedStays(x: Instance, w: World, e: Event)
    requires DoneWasAccepted(w.up.s) && StepEnabled(x, w, Machine(e)) && !ChangesOwner(e)
    ensures DoneWasAccepted(DoStep(x, w, Machine(e)).up.s)
  {
    var s, t := w.up.s, DoStep(x, w, Machine(e)).up.s;
    QuietState(x, w, e);
    assert forall n :: n in s.sys.cache ==> n in t.sys.cache && s.sys.cache[n].revision <= t.sys.cache[n].revision;
    forall d | d in t.done
      ensures d.0 in t.sys.cache &&
              exists r :: 0 <= r < |t.sys.issued| && r <= t.sys.cache[d.0].revision && t.sys.issued[r] == Some(d.1)
    {
      var r :| 0 <= r < |s.sys.issued| && r <= s.sys.cache[d.0].revision && s.sys.issued[r] == Some(d.1);
      assert t.sys.issued[r] == Some(d.1);
    }
  }

  lemma ReceiveStepKeepsSites(x: Instance, w: World, e: Event)
    requires SitesInv(x, w) && StepEnabled(x, w, Machine(e)) && Receives(e)
    requires
      var n, plan := e.e.site, e.e.plan;
      n in x.locals && (n in w.up.s.sys.cache ==> w.up.s.sys.cache[n].revision < plan.revision) ==>
        SiteInv(x, Received(w, n, plan), n)
    ensures SitesInv(x, DoStep(x, w, Machine(e)))
  {
    var s, n, plan := w.up.s, e.e.site, e.e.plan;
    var t := DoStep(x, w, Machine(e));
    QuietState(x, w, e);
    if P.CacheAccepts(s.sys.cache, n, plan) && !(n in s.sys.cache && s.sys.cache[n] == plan) {
      assert t == Received(w, n, plan);
      forall k | k in x.locals ensures SiteInv(x, t, k) {
        if k != n { ReceiveKeepsOthers(x, w, t, n, k, plan); }
      }
    } else {
      assert t.up.s.sys.cache == s.sys.cache;
      forall k | k in x.locals ensures SiteInv(x, t, k) {
        LongerHistoryKeeps(x, w, t, k);
      }
    }
  }

  lemma OwnerChangeKeepsBooks(x: Instance, w: World, e: Event)
    requires OwnerFacts(x, w) && Books(x, w) && StepEnabled(x, w, Machine(e)) && ChangesOwner(e)
    ensures Books(x, DoStep(x, w, Machine(e)))
  {
    OwnerChange(x.sites, w.up.s, e);
    SavedStep(x, w, e);
  }

  lemma OwnerMachineKeeps(x: Instance, w: World, e: Event)
    requires OwnerFacts(x, w) && Books(x, w) && SitesInv(x, w) && StepEnabled(x, w, Machine(e)) && ChangesOwner(e)
    ensures Books(x, DoStep(x, w, Machine(e))) && SitesInv(x, DoStep(x, w, Machine(e)))
  {
    OwnerChangeKeepsBooks(x, w, e);
    OwnerChangeKeepsSites(x, w, e);
  }

  /** What work, capture, rendering and cloning on a site need of the invariant. */
  ghost predicate SiteFacts(x: Instance, w: World, n: string) {
    && Window(x, w) && Pair(x, w, n) && WindowInv(x.sites, w.up.s.sys, w.up.s.done, w.up.s.floor, w.up.s.recent)
    && OwnerInv(w.up.s.sys.issued, w.up.s.sys.hub.tag, w.up.s.expected, w.up.s.ended) && VInv(x.target, w.up)
  }

  lemma SiteFactsHold(x: Instance, w: World, n: string)
    requires UpInv(x, w.up) && n in x.locals && n in w.up.s.sys.cache
    ensures SiteFacts(x, w, n)
  {
    InvGivesWindow(x, w);
    InvGivesPair(x, w, n);
  }

  function SiteOf(e: Step): string
    requires !e.Machine?
  {
    e.site
  }

  lemma SiteStepKeeps(x: Instance, w: World, e: Step)
    requires Declared(x) && Books(x, w) && SitesInv(x, w) && StepEnabled(x, w, e) && !e.Machine?
    requires SiteFacts(x, w, SiteOf(e))
    ensures Books(x, DoStep(x, w, e)) && SitesInv(x, DoStep(x, w, e))
  {
    match e
    case BeginWork(n) => BeginWorkKeeps(x, w, n);
    case FinishWork(n) => FinishWorkKeepsBooks(x, w, n); FinishWorkKeepsSites(x, w, n);
    case CaptureClaim(n, m) => CaptureClaimKeeps(x, w, n, m);
    case Render(n) => RenderKeeps(x, w, n);
    case Clone(n, m) => CloneKeeps(x, w, n, m);
  }

  lemma SiteStepKeepsUp(x: Instance, w: World, e: Step)
    requires UpInv(x, w.up) && StepEnabled(x, w, e) && !e.Machine?
    ensures UpInv(x, DoStep(x, w, e).up)
  {
    if e.FinishWork? {
      FinishWorkKeepsUp(x, w, e.site);
    } else if e.CaptureClaim? {
      CaptureKeepsUp(x, w, e.site, e.member);
    } else {
      assert DoStep(x, w, e).up == w.up;
    }
  }

  /** A site that does something has accepted a plan. */
  lemma ActingSiteHasPlan(x: Instance, w: World, e: Step)
    requires Declared(x) && SitesInv(x, w) && StepEnabled(x, w, e) && !e.Machine?
    ensures SiteOf(e) in x.locals && SiteOf(e) in w.up.s.sys.cache
  {
    if e.Clone? {
      assert SiteInv(x, w, e.site);
    }
  }

  lemma OwnerStepKeeps(x: Instance, w: World, e: Event)
    requires Declared(x) && DataInv(x, w) && StepEnabled(x, w, Machine(e)) && ChangesOwner(e)
    ensures Books(x, DoStep(x, w, Machine(e))) && SitesInv(x, DoStep(x, w, Machine(e)))
  {
    assert OwnerFacts(x, w) by { OwnerFactsHold(x, w); }
    OwnerMachineKeeps(x, w, e);
  }

  lemma ReceivesFromWire(x: Instance, w: World, e: Event)
    requires StepEnabled(x, w, Machine(e)) && Receives(e)
    ensures (e.e.site, e.e.plan) in w.up.s.sys.wire
  {
  }

  /** The site that a plan arrives at keeps its invariant, if it accepts the plan. */
  lemma ReceiverKeeps(x: Instance, w: World, n: string, plan: P.Plan<Tag>)
    requires Declared(x) && DataInv(x, w) && (n, plan) in w.up.s.sys.wire
    ensures n in x.locals && (n in w.up.s.sys.cache ==> w.up.s.sys.cache[n].revision < plan.revision) ==>
              SiteInv(x, Received(w, n, plan), n)
  {
    if n in x.locals && (n in w.up.s.sys.cache ==> w.up.s.sys.cache[n].revision < plan.revision) {
      ArrivalKeepsSite(x, w, n, plan);
    }
  }

  lemma ReceiveStepKeeps(x: Instance, w: World, e: Event)
    requires Declared(x) && DataInv(x, w) && StepEnabled(x, w, Machine(e)) && Receives(e)
    ensures SitesInv(x, DoStep(x, w, Machine(e)))
  {
    ReceivesFromWire(x, w, e);
    ReceiverKeeps(x, w, e.e.site, e.e.plan);
    ReceiveStepKeepsSites(x, w, e);
  }

  lemma LocalStepKeeps(x: Instance, w: World, e: Step)
    requires Declared(x) && DataInv(x, w) && StepEnabled(x, w, e) && !e.Machine?
    ensures Books(x, DoStep(x, w, e)) && SitesInv(x, DoStep(x, w, e))
  {
    ActingSiteHasPlan(x, w, e);
    assert SiteFacts(x, w, SiteOf(e)) by { SiteFactsHold(x, w, SiteOf(e)); }
    SiteStepKeeps(x, w, e);
  }

  lemma StepKeeps(x: Instance, w: World, e: Step)
    requires Declared(x) && DataInv(x, w) && StepEnabled(x, w, e)
    ensures DataInv(x, DoStep(x, w, e))
  {
    if e.Machine? {
      MachineKeepsUp(x, w, e.e);
      if ChangesOwner(e.e) {
        OwnerStepKeeps(x, w, e.e);
      } else {
        QuietKeepsBooks(x, w, e.e);
        if Receives(e.e) { ReceiveStepKeeps(x, w, e.e); } else { QuietKeepsSites(x, w, e.e); }
      }
    } else {
      SiteStepKeepsUp(x, w, e);
      LocalStepKeeps(x, w, e);
    }
  }

  lemma StartHolds(x: Instance, w: World)
    requires Declared(x) && Start(x, w)
    ensures DataInv(x, w)
  {
    assert UpInv(x, w.up) by { InitInv(x.sites); }
    forall n, m | n in x.locals && m in x.locals[n] ensures m in w.disks { LocalIsMember(x, n, m); }
  }

  lemma {:induction false} RunKeeps(x: Instance, ws: seq<World>, es: seq<Step>, i: nat)
    requires DataRun(x, ws, es) && i < |ws|
    ensures DataInv(x, ws[i])
  {
    if i == 0 {
      StartHolds(x, ws[0]);
    } else {
      RunKeeps(x, ws, es, i - 1);
      StepKeeps(x, ws[i - 1], es[i - 1]);
    }
  }

  // ------------------------------------------------------------------------------------
  // The results
  // ------------------------------------------------------------------------------------

  /**
    In every run over any number of upgrades, with lost and late messages, failures, rollbacks and
    deletions, but without forced abandonment after Preflight: a running member's directory is empty,
    to be cloned, or has data of exactly the major version that the member runs with.
  */
  lemma RunsOnItsOwnData(x: Instance, ws: seq<World>, es: seq<Step>, i: nat, n: string, m: string)
    requires DataRun(x, ws, es) && i < |ws| && Runs(x, ws[i], n, m)
    ensures
      var s := ws[i].up.s;
      && m in ws[i].disks && |ws[i].up.versions| == |s.sys.issued|
      && (ws[i].disks[m] == Blank ||
          ws[i].disks[m] == Holds(Version(x.target, s.sys.issued, ws[i].up.versions, ws[i].rendered[n], m)))
  {
    var w := ws[i];
    assert SiteInv(x, w, n) && VInv(x.target, w.up) by { RunKeeps(x, ws, es, i); }
    RunsItsData(x, w, w.rendered[n], m);
  }

  /** In every such run, data are rewritten only of members that do not run. */
  lemma RewritesNoRunningMember(x: Instance, ws: seq<World>, es: seq<Step>, i: nat, n: string, m: string)
    requires DataRun(x, ws, es) && i < |es| && (es[i] == BeginWork(n) || es[i] == FinishWork(n))
    requires m in Touched(ws[i].up.s.sys.cache[n].tag.value, n, x.locals[n])
    ensures !Runs(x, ws[i], n, m)
  {
    var w := ws[i];
    if Runs(x, w, n, m) {
      assert SiteInv(x, w, n) && SiteFacts(x, w, n) by {
        RunKeeps(x, ws, es, i);
        SiteFactsHold(x, w, n);
      }
      WorkStaysLocal(x, w.up.s.sys.cache[n].tag.value, n, n, m);
      WorkIsOnStopped(x, w, n, m);
    }
  }

  lemma EndIsApplied(sites: Sites, s: State, e: Event)
    requires Enabled(sites, s, e) && e.UpgradePass? && MajorUpgrade.Do(sites, s, e).sys.hub.tag.None?
    ensures s.sys.hub.tag.Some? && PhaseApplied(s)
    ensures s.sys.hub.tag.value.phase == Finalize || s.sys.hub.tag.value.phase == RollbackRestoreWrites
  {
    DecisionFollowsChain(s.sys.hub.tag.value.phase, AnyFailed(s.sys.hub.sites), PhaseApplied(s), e.syncSatisfied, e.backupReady);
  }

  /** Once a phase is applied, every site has finished it and holds a plan that carries it. */
  lemma AppliedIsSettled(x: Instance, w: World, n: string)
    requires Declared(x) && UpInv(x, w.up) && n in x.locals && w.up.s.sys.hub.tag.Some? && PhaseApplied(w.up.s)
    ensures
      var s := w.up.s;
      n in s.sys.cache && s.sys.cache[n].tag == s.sys.hub.tag && Done(s, n, s.sys.hub.tag)
  {
    var s := w.up.s;
    AppliedPhaseIsIssued(x.sites, s);
    assert n in s.sys.cache && s.sys.hub.active <= s.sys.cache[n].revision by {
      P.AllAppliedMeansReported(x.sites.Keys, s.sys);
    }
    assert Pair(x, w, n) by { InvGivesPair(x, w, n); }
    assert |s.sys.issued| == s.sys.hub.active + 1;
  }

  /**
    In every such run, an upgrade that ends in order, completed or rolled back, leaves every member of
    every site with data of the version in the specification, which for a completed one is its target.
  */
  lemma EndsWithOneVersion(x: Instance, ws: seq<World>, es: seq<Step>, i: nat, n: string, m: string)
    requires DataRun(x, ws, es) && i < |es| && es[i].Machine? && es[i].e.UpgradePass?
    requires ws[i + 1].up.s.sys.hub.tag.None? && n in x.locals && m in x.locals[n]
    ensures m in ws[i].disks && (ws[i].disks[m] == Blank || ws[i].disks[m] == Holds(ws[i].up.spec))
    ensures
      var o := ws[i].up.s.sys.hub.tag;
      o.Some? && ws[i + 1].up.spec == ws[i].up.spec &&
      if o.value.phase == Finalize then ws[i].up.spec == x.target(o.value.uid) else o.value.phase == RollbackRestoreWrites
  {
    var w := ws[i];
    var tag := w.up.s.sys.hub.tag;
    EndIsApplied(x.sites, w.up.s, es[i].e);
    assert SiteInv(x, w, n) && VInv(x.target, w.up) && n in w.up.s.sys.cache && w.up.s.sys.cache[n].tag == tag &&
           Done(w.up.s, n, tag) by {
      RunKeeps(x, ws, es, i);
      AppliedIsSettled(x, w, n);
    }
    assert Good(x, w, tag, m);
  }
}
