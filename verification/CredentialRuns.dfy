/**
  Rotations over whole runs: hub passes, site reports, staging of versions and changes of the
  observed primary in any order.
*/
module CredentialRuns {
  import opened Common
  import opened Names
  import opened CredentialRotation

  /** The declared PostgreSQL members with their site's place in the list, and all expected members. */
  datatype Topology = Topology(members: map<string, nat>, expected: seq<string>)

  /** `reported` are the sites that applied the active revision; `reloaded` is history. */
  datatype State = State(
    sites: seq<Site>,
    primary: string,
    plan: Option<Rotation>,
    reported: set<nat>,
    reloaded: set<(string, nat)>)

  /**
    `Reissue` is a new revision with the same rotation plan. A report that is not `ready` is progress:
    it carries conditions, but the site does not count as having applied the revision.
  */
  datatype Event =
    | Pass(standbys: seq<string>, other: bool)
    | Reissue
    | Report(site: nat, hasPrimary: bool, ready: bool)
    | Stage(site: nat, version: nat)
    | Observe(primary: string)

  predicate Applied(s: State) {
    forall i :: 0 <= i < |s.sites| ==> i in s.reported
  }

  predicate Enabled(t: Topology, s: State, e: Event) {
    match e
    case Report(i, _, _) => i < |s.sites|
    case Stage(i, _) => i < |s.sites|
    case _ => true
  }

  /** The conditions a site reports once it applied the plan. */
  function AfterApply(site: Site, plan: Option<Rotation>, hasPrimary: bool): Site {
    if plan.None? then site
    else
      var r := plan.value;
      match r.phase
      case Catalog => if hasPrimary then site.(catalog := r.version) else site
      case Member =>
        if BelongsToSite(r.target, site.name) then
          site.(members := Some((r.version, r.updated + {r.target})), active := r.version)
        else site
      case Revoke => if hasPrimary then site.(revoked := r.version) else site
      case Finalize => site.(staged := 0)
  }

  ghost function NextPlan(t: Topology, s: State, standbys: seq<string>, other: bool): Option<Rotation> {
    Decide(s.sites, s.primary, MemberOrder(standbys, t.expected, s.primary), s.plan, Applied(s), other)
  }

  ghost function Do(t: Topology, s: State, e: Event): State
    requires Enabled(t, s, e)
  {
    match e
    case Pass(standbys, other) =>
      var next := NextPlan(t, s, standbys, other);
      if next == s.plan then s else s.(plan := next, reported := {})
    case Reissue => s.(reported := {})
    case Report(i, hasPrimary, ready) =>
      var site := s.sites[i];
      s.(sites := s.sites[i := AfterApply(site, s.plan, hasPrimary)],
         reported := if ready then s.reported + {i} else s.reported,
         reloaded := if s.plan.Some? && s.plan.value.phase == Member && BelongsToSite(s.plan.value.target, site.name)
                     then s.reloaded + {(s.plan.value.target, s.plan.value.version)} else s.reloaded)
    case Stage(i, version) => s.(sites := s.sites[i := s.sites[i].(staged := version)])
    case Observe(primary) => s.(primary := primary)
  }

  ghost predicate Run(t: Topology, ss: seq<State>, es: seq<Event>) {
    && |ss| == |es| + 1
    && forall i :: 0 <= i < |es| ==> Enabled(t, ss[i], es[i]) && ss[i + 1] == Do(t, ss[i], es[i])
  }

  /** Every declared PostgreSQL member is expected, under its PostgreSQL name. */
  predicate Declares(t: Topology) {
    forall m :: m in t.members ==> m in t.expected && "postgres-" <= m
  }

  // ------------------------------------------------------------------------------------
  // Revoke and Finalize, whatever happens to the primary
  // ------------------------------------------------------------------------------------

  /** The order visits every declared member, whatever standbys and primary are observed. */
  lemma OrderCovers(t: Topology, standbys: seq<string>, primary: string)
    requires Declares(t)
    ensures t.members.Keys <= Elements(MemberOrder(standbys, t.expected, primary))
  {
    forall m | m in t.members ensures m in MemberOrder(standbys, t.expected, primary) {
      ExtendCovers(standbys, t.expected, primary, m);
    }
  }

  /** Whoever is listed as updated did reload that version. */
  predicate Reloaded(s: State) {
    && (forall i, m :: 0 <= i < |s.sites| && s.sites[i].members.Some? && m in s.sites[i].members.value.1 ==>
          (m, s.sites[i].members.value.0) in s.reloaded)
    && (s.plan.Some? ==> forall m :: m in s.plan.value.updated ==> (m, s.plan.value.version) in s.reloaded)
  }

  /** Revoke and Finalize come with every declared member in the updated list. */
  predicate Covered(t: Topology, plan: Option<Rotation>) {
    plan.Some? && (plan.value.phase == Revoke || plan.value.phase == Finalize) ==>
      t.members.Keys <= plan.value.updated
  }

  lemma PassCovers(t: Topology, s: State, standbys: seq<string>, other: bool)
    requires Declares(t) && Reloaded(s) && Covered(t, s.plan)
    ensures
      var next := NextPlan(t, s, standbys, other);
      && Covered(t, next)
      && (next.Some? ==> forall m :: m in next.value.updated ==> (m, next.value.version) in s.reloaded)
  {
    OrderCovers(t, standbys, s.primary);
  }

  lemma ReportKeepsReloaded(t: Topology, s: State, e: Event)
    requires Enabled(t, s, e) && e.Report? && Reloaded(s)
    ensures Reloaded(Do(t, s, e))
  {
  }

  lemma StepCovers(t: Topology, s: State, e: Event)
    requires Declares(t) && Enabled(t, s, e) && Reloaded(s) && Covered(t, s.plan)
    ensures Reloaded(Do(t, s, e)) && Covered(t, Do(t, s, e).plan)
  {
    match e
    case Pass(standbys, other) => PassCovers(t, s, standbys, other);
    case Report(_, _, _) => ReportKeepsReloaded(t, s, e);
    case _ =>
  }

  /**
    In every run, with or without a stable primary: previous credentials are revoked, and the
    rotation is finalized, only when every declared member has reloaded the new version.
  */
  lemma {:induction false} RevokeAfterAllReloaded(t: Topology, ss: seq<State>, es: seq<Event>, i: nat)
    requires Declares(t) && Run(t, ss, es) && i < |ss|
    requires Reloaded(ss[0]) && Covered(t, ss[0].plan)
    ensures Reloaded(ss[i]) && Covered(t, ss[i].plan)
    ensures ss[i].plan.Some? && (ss[i].plan.value.phase == Revoke || ss[i].plan.value.phase == Finalize) ==>
              forall m :: m in t.members ==>
                m in ss[i].plan.value.updated && (m, ss[i].plan.value.version) in ss[i].reloaded
  {
    if i > 0 {
      RevokeAfterAllReloaded(t, ss, es, i - 1);
      StepCovers(t, ss[i - 1], es[i - 1]);
    }
  }

  // ------------------------------------------------------------------------------------
  // One member at a time, while the primary is stable
  // ------------------------------------------------------------------------------------

  /** A rotation from version p to version v; members are known to their own site only. */
  ghost predicate Setting(t: Topology, s: State, v: nat, p: nat) {
    && Declares(t) && v >= 1 && p >= 1 && v != p
    && s.primary in t.members && s.primary != ""
    && (forall m :: m in t.expected && "postgres-" <= m ==> m in t.members)
    && (forall m :: m in t.members ==> t.members[m] < |s.sites| && !s.sites[t.members[m]].isWitness)
    && (forall m, i :: m in t.members && 0 <= i < |s.sites| ==>
          (BelongsToSite(m, s.sites[i].name) <==> i == t.members[m]))
  }

  /** No other operation, no new observation, no new staging; a site knows whether it hosts the primary. */
  predicate Stable(t: Topology, s: State, e: Event) {
    match e
    case Pass(standbys, other) => !other && Elements(standbys) <= t.members.Keys
    case Reissue => true
    case Report(i, hasPrimary, _) => i < |s.sites| && hasPrimary == BelongsToSite(s.primary, s.sites[i].name)
    case _ => false
  }

  /** What a plan says about the members listed as updated. */
  predicate RotationInv(members: set<string>, r: Rotation, done: set<string>, v: nat, p: nat) {
    && r.version == v && r.previous == p && r.updated <= done && done <= r.updated + {r.target}
    && (r.phase == Catalog ==> done == {})
    && (r.phase == Member ==> r.target in members && r.target !in r.updated)
    && (r.phase != Member ==> r.target == "" && done == r.updated)
    && (r.phase == Revoke || r.phase == Finalize ==> members <= r.updated)
  }

  /** A site that applied the plan has reported its effect. */
  predicate ReportInv(r: Rotation, home: Site, homeReported: bool, targetReported: bool, done: set<string>) {
    && (r.phase == Catalog && homeReported ==> home.catalog == r.version)
    && (r.phase != Catalog ==> home.catalog == r.version)
    && (r.phase == Member && targetReported ==> r.target in done)
    && (r.phase == Revoke && homeReported ==> home.revoked == r.version)
  }

  predicate StagingInv(sites: seq<Site>, phase: Phase, reported: set<nat>, v: nat) {
    && (phase != Finalize ==> AllStaged(sites, v))
    && (phase == Finalize ==>
          forall i :: 0 <= i < |sites| && !sites[i].isWitness && i in reported ==> sites[i].staged == 0)
  }

  predicate Unstaged(sites: seq<Site>) {
    forall i :: 0 <= i < |sites| && !sites[i].isWitness ==> sites[i].staged == 0
  }

  predicate IdleInv(sites: seq<Site>, members: set<string>, done: set<string>, v: nat, p: nat) {
    || (AllStaged(sites, v) && AllActive(sites, p) && done == {})
    || (Unstaged(sites) && members <= done)
  }

  predicate TargetReported(t: Topology, r: Rotation, reported: set<nat>) {
    r.target in t.members && t.members[r.target] in reported
  }

  ghost predicate PlanInv(t: Topology, s: State, v: nat, p: nat)
    requires s.primary in t.members && t.members[s.primary] < |s.sites|
  {
    var done := UpdatedMembers(s.sites, v);
    var home := t.members[s.primary];
    if s.plan.None? then IdleInv(s.sites, t.members.Keys, done, v, p)
    else
      && RotationInv(t.members.Keys, s.plan.value, done, v, p)
      && ReportInv(s.plan.value, s.sites[home], home in s.reported, TargetReported(t, s.plan.value, s.reported), done)
      && StagingInv(s.sites, s.plan.value.phase, s.reported, v)
  }

  /** A site with an updated member has promoted the new version. */
  predicate ActiveInv(t: Topology, sites: seq<Site>, done: set<string>, v: nat) {
    && done <= t.members.Keys
    && forall m :: m in done && m in t.members && t.members[m] < |sites| ==> sites[t.members[m]].active == v
  }

  ghost predicate StableInv(t: Topology, s: State, v: nat, p: nat) {
    Setting(t, s, v, p) && PlanInv(t, s, v, p) && ActiveInv(t, s.sites, UpdatedMembers(s.sites, v), v)
  }

  lemma PrimaryHome(t: Topology, s: State, v: nat, p: nat)
    requires Setting(t, s, v, p)
    ensures forall i :: HostsPrimary(s.sites, s.primary, i) <==> i == t.members[s.primary]
    ensures forall w :: CatalogUpdated(s.sites, s.primary, w) <==> s.sites[t.members[s.primary]].catalog == w
    ensures forall w :: PreviousRevoked(s.sites, s.primary, w) <==> s.sites[t.members[s.primary]].revoked == w
  {
    var home := t.members[s.primary];
    assert HostsPrimary(s.sites, s.primary, home);
  }

  lemma OrderWithin(t: Topology, s: State, v: nat, p: nat, standbys: seq<string>)
    requires Setting(t, s, v, p) && Elements(standbys) <= t.members.Keys
    ensures Elements(MemberOrder(standbys, t.expected, s.primary)) == t.members.Keys
  {
    var order := MemberOrder(standbys, t.expected, s.primary);
    forall m | m in order ensures m in t.members {
      ExtendCovers(standbys, t.expected, s.primary, m);
      assert m in standbys ==> m in Elements(standbys);
    }
    OrderCovers(t, standbys, s.primary);
  }

  /** The next plan while version v is staged: the catalog, then a member that is missing, then the end. */
  lemma NextWhileStaged(t: Topology, s: State, v: nat, p: nat, standbys: seq<string>)
    requires Setting(t, s, v, p) && Elements(standbys) <= t.members.Keys && AllStaged(s.sites, v)
    requires if s.plan.Some? then s.plan.value.previous == p && Applied(s) else AllActive(s.sites, p)
    ensures
      var done := UpdatedMembers(s.sites, v);
      var home := s.sites[t.members[s.primary]];
      var next := NextPlan(t, s, standbys, false);
      && next.Some? && next.value.version == v && next.value.previous == p
      && (home.catalog != v ==> next.value == Rotation(v, p, Catalog, "", {}))
      && (home.catalog == v ==> next.value.phase != Catalog && next.value.updated == done)
      && (home.catalog == v && !(t.members.Keys <= done) ==>
            next.value.phase == Member && next.value.target in t.members && next.value.target !in done)
      && (home.catalog == v && t.members.Keys <= done ==>
            next.value == Rotation(v, p, if home.revoked == v then Finalize else Revoke, "", done))
  {
    PrimaryHome(t, s, v, p);
    OrderWithin(t, s, v, p, standbys);
    assert StagedVersion(s.sites) == v;
    assert s.plan.None? ==> ActiveVersion(s.sites) == p;
  }

  lemma NextWhenUnstaged(t: Topology, s: State, standbys: seq<string>)
    requires s.plan.Some? ==> Applied(s)
    requires Unstaged(s.sites)
    ensures NextPlan(t, s, standbys, false).None?
  {
    assert forall w :: !AllStaged(s.sites, w);
  }

  function Rendered(t: Topology, s: State, m: string): nat
    requires m in t.members && t.members[m] < |s.sites|
  {
    RenderedVersion(s.plan, s.sites[t.members[m]].active, m)
  }

  /** The rendered version changes for no member but the target of the new plan. */
  ghost predicate OneMemberAtMost(t: Topology, s: State, s': State) {
    forall m :: m in t.members && t.members[m] < |s.sites| && t.members[m] < |s'.sites| &&
                Rendered(t, s, m) != Rendered(t, s', m) ==>
      s'.plan.Some? && m == s'.plan.value.target
  }

  /** Each further Member plan starts with fewer members left to update. */
  ghost predicate FewerLeft(t: Topology, s: State, s': State) {
    s.plan.Some? && s'.plan.Some? && s.plan != s'.plan && s.plan.value.phase == Member ==>
      |t.members.Keys - s'.plan.value.updated| < |t.members.Keys - s.plan.value.updated|
  }

  /** Either the plan stays, or every site applied it and the next one follows from the reports. */
  lemma StablePassPlan(t: Topology, s: State, v: nat, p: nat, e: Event)
    requires StableInv(t, s, v, p) && Enabled(t, s, e) && Stable(t, s, e) && e.Pass?
    requires Do(t, s, e).plan != s.plan
    ensures
      var done := UpdatedMembers(s.sites, v);
      var s' := Do(t, s, e);
      && s' == s.(plan := s'.plan, reported := {})
      && (s.plan.Some? && s.plan.value.phase == Member ==> done == s.plan.value.updated + {s.plan.value.target})
      && (s'.plan.None? ==> s.plan.Some? && s.plan.value.phase == Finalize && Unstaged(s.sites))
      && (s'.plan.Some? ==>
            && AllStaged(s.sites, v) && (s.plan.None? ==> AllActive(s.sites, p) && done == {})
            && RotationInv(t.members.Keys, s'.plan.value, done, v, p) && s'.plan.value.updated == done
            && (s'.plan.value.phase != Catalog ==> s.sites[t.members[s.primary]].catalog == v))
  {
    if s.plan.Some? && !Applied(s) {
    } else if AllStaged(s.sites, v) {
      NextWhileStaged(t, s, v, p, e.standbys);
    } else {
      NextWhenUnstaged(t, s, e.standbys);
    }
  }

  lemma StablePassKeeps(t: Topology, s: State, v: nat, p: nat, e: Event)
    requires StableInv(t, s, v, p) && Enabled(t, s, e) && Stable(t, s, e) && e.Pass?
    ensures StableInv(t, Do(t, s, e), v, p)
  {
    if Do(t, s, e).plan != s.plan {
      StablePassPlan(t, s, v, p, e);
    }
  }

  /** While the observed primary is stable, a pass changes the rendered version of one member at most. */
  lemma StablePassChangesOne(t: Topology, s: State, v: nat, p: nat, e: Event)
    requires StableInv(t, s, v, p) && Enabled(t, s, e) && Stable(t, s, e) && e.Pass?
    ensures OneMemberAtMost(t, s, Do(t, s, e))
  {
    var s' := Do(t, s, e);
    if s'.plan != s.plan {
      StablePassPlan(t, s, v, p, e);
      var done := UpdatedMembers(s.sites, v);
      forall m | m in t.members && t.members[m] < |s.sites|
        ensures Rendered(t, s, m) == if m in done then v else p
        ensures !(s'.plan.Some? && m == s'.plan.value.target) ==> Rendered(t, s', m) == if m in done then v else p
      {
      }
    }
  }

  lemma StablePassLeavesFewer(t: Topology, s: State, v: nat, p: nat, e: Event)
    requires StableInv(t, s, v, p) && Enabled(t, s, e) && Stable(t, s, e) && e.Pass?
    ensures FewerLeft(t, s, Do(t, s, e))
  {
    if Do(t, s, e).plan != s.plan && s.plan.Some? && s.plan.value.phase == Member {
      assert s.plan.value.target in t.members && s.plan.value.target !in s.plan.value.updated;
      StablePassPlan(t, s, v, p, e);
      var r := s.plan.value;
      SubsetSize(t.members.Keys - (r.updated + {r.target}), t.members.Keys - r.updated);
    }
  }

  lemma UpdatedAfterReport(sites: seq<Site>, i: nat, site: Site, v: nat)
    requires i < |sites|
    ensures site.members == sites[i].members ==> UpdatedMembers(sites[i := site], v) == UpdatedMembers(sites, v)
    ensures site.members.Some? && site.members.value.0 == v && UpdatedMembers(sites, v) <= site.members.value.1 ==>
              UpdatedMembers(sites[i := site], v) == site.members.value.1
  {
    var after := sites[i := site];
    forall m, j | 0 <= j < |sites| && j != i && ListedBy(sites[j], v, m) ensures m in UpdatedMembers(after, v) {
      assert ListedBy(after[j], v, m);
    }
    forall m | ListedBy(site, v, m) ensures m in UpdatedMembers(after, v) {
      assert ListedBy(after[i], v, m);
    }
    forall m | m in UpdatedMembers(after, v) ensures ListedBy(site, v, m) || m in UpdatedMembers(sites, v) {
      var j :| 0 <= j < |after| && ListedBy(after[j], v, m);
      assert j != i ==> ListedBy(sites[j], v, m);
    }
    forall m | m in UpdatedMembers(sites, v) ensures ListedBy(sites[i], v, m) || m in UpdatedMembers(after, v) {
      var j :| 0 <= j < |sites| && ListedBy(sites[j], v, m);
    }
  }

  /** The target's report completes the list; every other report leaves it alone. */
  lemma DoneAfterReport(t: Topology, s: State, v: nat, p: nat, e: Event)
    requires StableInv(t, s, v, p) && Enabled(t, s, e) && e.Report?
    ensures
      var done := UpdatedMembers(s.sites, v);
      UpdatedMembers(Do(t, s, e).sites, v) ==
      if s.plan.Some? && s.plan.value.phase == Member && t.members[s.plan.value.target] == e.site
      then done + {s.plan.value.target} else done
  {
    UpdatedAfterReport(s.sites, e.site, AfterApply(s.sites[e.site], s.plan, e.hasPrimary), v);
  }

  lemma ReportKeepsSetting(t: Topology, s: State, v: nat, p: nat, e: Event)
    requires Setting(t, s, v, p) && Enabled(t, s, e) && e.Report?
    ensures Setting(t, Do(t, s, e), v, p)
  {
  }

  lemma ReportKeepsStaging(t: Topology, s: State, v: nat, e: Event)
    requires Enabled(t, s, e) && e.Report? && s.plan.Some? && StagingInv(s.sites, s.plan.value.phase, s.reported, v)
    ensures StagingInv(Do(t, s, e).sites, s.plan.value.phase, Do(t, s, e).reported, v)
  {
    var after := Do(t, s, e).sites;
    if s.plan.value.phase != Finalize {
      var k :| 0 <= k < |s.sites| && !s.sites[k].isWitness;
      assert !after[k].isWitness;
    }
  }

  lemma ReportKeepsActive(t: Topology, s: State, v: nat, p: nat, e: Event)
    requires StableInv(t, s, v, p) && Enabled(t, s, e) && e.Report?
    ensures ActiveInv(t, Do(t, s, e).sites, UpdatedMembers(Do(t, s, e).sites, v), v)
  {
    DoneAfterReport(t, s, v, p, e);
    ActiveAfterReport(t, s, e);
  }

  /**
    What a report changes: it brings the condition that goes with the plan, from the site that the
    plan is about, and leaves every other condition of that site and all other sites alone.
  */
  lemma ReportsExactly(t: Topology, s: State, e: Event)
    requires Enabled(t, s, e) && e.Report?
    ensures
      var before, after := s.sites[e.site], Do(t, s, e).sites[e.site];
      var planned := (p: Phase) => s.plan.Some? && s.plan.value.phase == p;
      var target := planned(Member) && BelongsToSite(s.plan.value.target, before.name);
      && after.name == before.name && after.isWitness == before.isWitness
      && after.catalog == (if planned(Catalog) && e.hasPrimary then s.plan.value.version else before.catalog)
      && after.revoked == (if planned(Revoke) && e.hasPrimary then s.plan.value.version else before.revoked)
      && after.staged == (if planned(Finalize) then 0 else before.staged)
      && after.active == (if target then s.plan.value.version else before.active)
      && after.members == (if target then Some((s.plan.value.version, s.plan.value.updated + {s.plan.value.target}))
                           else before.members)
      && Do(t, s, e).sites == s.sites[e.site := after] && Do(t, s, e).plan == s.plan && Do(t, s, e).primary == s.primary
      && Do(t, s, e).reported == s.reported + (if e.ready then {e.site} else {})
  {
  }

  /** A report leaves a site's active version, except that the target's site promotes the new one. */
  lemma ActiveAfterReport(t: Topology, s: State, e: Event)
    requires Enabled(t, s, e) && e.Report?
    ensures
      var after := Do(t, s, e).sites;
      && |after| == |s.sites|
      && (forall k :: 0 <= k < |after| ==>
            after[k].active == s.sites[k].active || (s.plan.Some? && after[k].active == s.plan.value.version))
      && (s.plan.Some? && s.plan.value.phase == Member && BelongsToSite(s.plan.value.target, s.sites[e.site].name) ==>
            after[e.site].active == s.plan.value.version)
  {
  }

  lemma ReportKeepsReports(t: Topology, s: State, v: nat, p: nat, e: Event)
    requires StableInv(t, s, v, p) && Enabled(t, s, e) && Stable(t, s, e) && e.Report? && s.plan.Some?
    ensures
      var s' := Do(t, s, e);
      var done := UpdatedMembers(s'.sites, v);
      var home := t.members[s.primary];
      && RotationInv(t.members.Keys, s.plan.value, done, v, p)
      && ReportInv(s.plan.value, s'.sites[home], home in s'.reported, TargetReported(t, s.plan.value, s'.reported), done)
  {
    DoneAfterReport(t, s, v, p, e);
  }

  lemma StableReportKeeps(t: Topology, s: State, v: nat, p: nat, e: Event)
    requires StableInv(t, s, v, p) && Enabled(t, s, e) && Stable(t, s, e) && e.Report?
    ensures StableInv(t, Do(t, s, e), v, p)
  {
    ReportKeepsSetting(t, s, v, p, e);
    ReportKeepsActive(t, s, v, p, e);
    if s.plan.Some? {
      ReportKeepsStaging(t, s, v, e);
      ReportKeepsReports(t, s, v, p, e);
    } else {
      assert Do(t, s, e).sites == s.sites;
    }
  }

  lemma ReissueKeeps(t: Topology, s: State, v: nat, p: nat)
    requires StableInv(t, s, v, p)
    ensures StableInv(t, Do(t, s, Reissue), v, p)
  {
  }

  lemma StableStepKeeps(t: Topology, s: State, v: nat, p: nat, e: Event)
    requires StableInv(t, s, v, p) && Enabled(t, s, e) && Stable(t, s, e)
    ensures StableInv(t, Do(t, s, e), v, p)
  {
    match e
    case Pass(_, _) => StablePassKeeps(t, s, v, p, e);
    case Reissue => ReissueKeeps(t, s, v, p);
    case Report(_, _, _) => StableReportKeeps(t, s, v, p, e);
  }

  /** Where a rotation starts: the version is staged everywhere and no member has it yet. */
  ghost predicate Start(t: Topology, s: State, v: nat, p: nat) {
    && Setting(t, s, v, p) && s.plan.None?
    && AllStaged(s.sites, v) && AllActive(s.sites, p) && UpdatedMembers(s.sites, v) == {}
  }

  lemma StartIsStable(t: Topology, s: State, v: nat, p: nat)
    requires Start(t, s, v, p)
    ensures StableInv(t, s, v, p)
  {
  }

  lemma {:induction false} StableRunKeeps(t: Topology, ss: seq<State>, es: seq<Event>, v: nat, p: nat, i: nat)
    requires Run(t, ss, es) && StableInv(t, ss[0], v, p) && i < |ss|
    requires forall k :: 0 <= k < |es| ==> Stable(t, ss[k], es[k])
    ensures StableInv(t, ss[i], v, p)
  {
    if i > 0 {
      StableRunKeeps(t, ss, es, v, p, i - 1);
      var s, e := ss[i - 1], es[i - 1];
      assert Enabled(t, s, e) && Stable(t, s, e) && ss[i] == Do(t, s, e);
      assert StableInv(t, Do(t, s, e), v, p) by { StableStepKeeps(t, s, v, p, e); }
    }
  }

  /**
    Over every run with a stable primary, each pass changes the rendered version of one member at
    most, and each plan that follows a Member plan leaves fewer members to update.
  */
  lemma OneMemberAtATime(t: Topology, ss: seq<State>, es: seq<Event>, v: nat, p: nat, i: nat)
    requires Run(t, ss, es) && Start(t, ss[0], v, p) && i < |es| && es[i].Pass?
    requires forall k :: 0 <= k < |es| ==> Stable(t, ss[k], es[k])
    ensures OneMemberAtMost(t, ss[i], ss[i + 1]) && FewerLeft(t, ss[i], ss[i + 1])
  {
    StartIsStable(t, ss[0], v, p);
    StableRunKeeps(t, ss, es, v, p, i);
    StablePassChangesOne(t, ss[i], v, p, es[i]);
    StablePassLeavesFewer(t, ss[i], v, p, es[i]);
  }
}
