/**
  The plan-revision protocol between the hub and its site agents.

  The hub keeps one numbered plan per site. A reconcile pass raises the number whenever
  the fingerprint of the plan inputs changes. Plans travel over a wire that may lose,
  duplicate and reorder them; an agent caches only revisions that do not go back, works on
  its cached plan and reports the revision when it is Ready. The hub records a report only
  when it is for the revision it currently desires.

  `T` is the part of a plan that the operation controllers steer through annotations of the
  instance (the upgrade or restore phase). Everything else in a plan is the integer `body`,
  and every other fingerprint input is the integer `inputs`; both are free in every pass.
*/
module PlanProtocol {
  import opened Common

  datatype Plan<+T> = Plan(revision: nat, tag: T, body: int)

  datatype SiteStatus = SiteStatus(desired: nat, acknowledged: nat, applied: nat, failed: bool)

  /** The stored instance object: annotations (`tag`), status, and the plan per site. */
  datatype Hub<T(==)> = Hub(
    tag: T,
    active: nat,
    fingerprint: Option<(int, T)>,
    sites: map<string, SiteStatus>,
    plans: map<string, Plan<T>>,
    ready: bool)

  /**
    Hub, wire and agents together. `wire` and `results` hold every message ever sent, so a
    message can be lost (never delivered), duplicated or delivered late. `issued[r]` is the
    tag that revision `r` carries; revision 0 stands for "no plan yet".
  */
  datatype System<T(==)> = System(
    hub: Hub<T>,
    issued: seq<T>,
    wire: set<(string, Plan<T>)>,
    cache: map<string, Plan<T>>,
    results: set<(string, nat)>)

  datatype Event<T> =
    | Pass(inputs: int, bodies: map<string, int>, healthy: bool)
    | BlockedPass
    | Patch(tag: T)
    | Send(site: string)
    | Receive(site: string, plan: Plan<T>)
    | Report(site: string)
    | RecordAcknowledgement(site: string, revision: nat)
    | RecordProgress(site: string, revision: nat, failed: bool)
    | RecordResult(site: string, revision: nat, failed: bool)

  predicate AllSitesApplied(sites: map<string, SiteStatus>, revision: nat) {
    sites != map[] && forall n :: n in sites ==> sites[n].applied == revision
  }

  /** The revision a pass works with: a changed fingerprint is the only reason for a new one. */
  function NextRevision<T(==)>(h: Hub<T>, inputs: int): nat {
    if h.fingerprint == Some((inputs, h.tag)) then h.active else h.active + 1
  }

  /** A site keeps what it reported; a site seen for the first time has reported nothing. */
  function RefreshedSites(sites: map<string, SiteStatus>, declared: set<string>, active: nat): map<string, SiteStatus> {
    map n | n in declared ::
      if n in sites then sites[n].(desired := active) else SiteStatus(active, 0, 0, false)
  }

  /** One complete pass of the instance reconciler. */
  function ReconcileInstance<T(==)>(h: Hub<T>, declared: set<string>, inputs: int,
                                    bodies: map<string, int>, healthy: bool): Hub<T>
    requires declared <= bodies.Keys
  {
    var active := NextRevision(h, inputs);
    var sites := RefreshedSites(h.sites, declared, active);
    Hub(h.tag, active, Some((inputs, h.tag)), sites,
        map n | n in declared :: Plan(active, h.tag, bodies[n]),
        healthy && AllSitesApplied(sites, active))
  }

  function AcknowledgeSite(st: SiteStatus, revision: nat): SiteStatus {
    if revision != st.desired then st else st.(acknowledged := revision)
  }

  function ProgressSite(st: SiteStatus, revision: nat, failed: bool): SiteStatus {
    if revision != st.desired then st else st.(failed := failed)
  }

  function ResultSite(st: SiteStatus, revision: nat, failed: bool): SiteStatus {
    if revision != st.desired then st else st.(applied := revision, failed := failed)
  }

  /** The cache accepts a newer revision, and the cached one only with unchanged contents. */
  predicate CacheAccepts<T(==)>(cache: map<string, Plan<T>>, site: string, plan: Plan<T>) {
    plan.revision >= 1 &&
    (site in cache ==> cache[site].revision < plan.revision || cache[site] == plan)
  }

  predicate Enabled<T(==)>(declared: set<string>, s: System<T>, e: Event<T>) {
    match e
    case Pass(_, bodies, _) => declared <= bodies.Keys
    case BlockedPass => true
    case Patch(_) => true
    case Send(site) => site in s.hub.plans
    case Receive(site, plan) => (site, plan) in s.wire
    case Report(site) => site in s.cache
    case RecordAcknowledgement(site, _) => site in s.hub.sites
    case RecordProgress(site, _, _) => site in s.hub.sites
    case RecordResult(site, revision, _) => site in s.hub.sites && (site, revision) in s.results
  }

  function Do<T(==)>(declared: set<string>, s: System<T>, e: Event<T>): System<T>
    requires Enabled(declared, s, e)
  {
    match e
    case Pass(inputs, bodies, healthy) =>
      var h := ReconcileInstance(s.hub, declared, inputs, bodies, healthy);
      s.(hub := h, issued := if h.active == s.hub.active then s.issued else s.issued + [h.tag])
    case BlockedPass => s.(hub := s.hub.(ready := false))
    case Patch(tag) => s.(hub := s.hub.(tag := tag))
    case Send(site) => s.(wire := s.wire + {(site, s.hub.plans[site])})
    case Receive(site, plan) =>
      if CacheAccepts(s.cache, site, plan) then s.(cache := s.cache[site := plan]) else s
    case Report(site) => s.(results := s.results + {(site, s.cache[site].revision)})
    case RecordAcknowledgement(site, revision) =>
      s.(hub := s.hub.(sites := s.hub.sites[site := AcknowledgeSite(s.hub.sites[site], revision)]))
    case RecordProgress(site, revision, failed) =>
      s.(hub := s.hub.(sites := s.hub.sites[site := ProgressSite(s.hub.sites[site], revision, failed)]))
    case RecordResult(site, revision, failed) =>
      s.(hub := s.hub.(sites := s.hub.sites[site := ResultSite(s.hub.sites[site], revision, failed)]))
  }

  function Init<T(==)>(tag: T): System<T> {
    System(Hub(tag, 0, None, map[], map[], false), [tag], {}, map[], {})
  }

  // ------------------------------------------------------------------------------------
  // What every step keeps
  // ------------------------------------------------------------------------------------

  predicate GenuinePlan<T(==)>(issued: seq<T>, p: Plan<T>) {
    1 <= p.revision < |issued| && p.tag == issued[p.revision]
  }

  /** Applied and acknowledged revisions never pass the desired one, which is the active one. */
  predicate StatusInv(sites: map<string, SiteStatus>, active: nat) {
    forall n :: n in sites ==>
      sites[n].desired == active && sites[n].acknowledged <= active && sites[n].applied <= active
  }

  ghost predicate HubInv<T>(declared: set<string>, h: Hub<T>, issued: seq<T>) {
    && |issued| == h.active + 1
    && (h.active == 0 ==> h.fingerprint.None? && h.sites == map[] && h.plans == map[] && !h.ready)
    && (h.active > 0 ==>
          && h.fingerprint.Some? && h.fingerprint.value.1 == issued[h.active]
          && h.sites.Keys == declared && h.plans.Keys == declared)
    && StatusInv(h.sites, h.active)
    && (forall n :: n in h.plans ==> h.plans[n].revision == h.active && GenuinePlan(issued, h.plans[n]))
    && (h.ready ==> AllSitesApplied(h.sites, h.active))
  }

  ghost predicate AgentInv<T>(declared: set<string>, issued: seq<T>, wire: set<(string, Plan<T>)>,
                              cache: map<string, Plan<T>>, results: set<(string, nat)>)
  {
    && (forall m :: m in wire ==> m.0 in declared && GenuinePlan(issued, m.1))
    && (forall n :: n in cache ==> n in declared && GenuinePlan(issued, cache[n]))
    && (forall m :: m in results ==> m.0 in cache && 1 <= m.1 <= cache[m.0].revision)
  }

  predicate ReportsInv(sites: map<string, SiteStatus>, results: set<(string, nat)>) {
    forall n :: n in sites && sites[n].applied > 0 ==> (n, sites[n].applied) in results
  }

  ghost predicate Inv<T>(declared: set<string>, s: System<T>) {
    && declared != {} && HubInv(declared, s.hub, s.issued)
    && AgentInv(declared, s.issued, s.wire, s.cache, s.results)
    && ReportsInv(s.hub.sites, s.results)
  }

  /** History only grows: revisions keep their tag, caches never go back, reports stay sent. */
  ghost predicate Grows<T>(s: System<T>, t: System<T>) {
    && s.hub.active <= t.hub.active
    && s.issued <= t.issued
    && s.results <= t.results
    && (forall n :: n in s.cache ==> n in t.cache && s.cache[n].revision <= t.cache[n].revision)
    && (forall n :: n in s.hub.sites ==> n in t.hub.sites && s.hub.sites[n].applied <= t.hub.sites[n].applied)
  }

  lemma InitInv<T>(declared: set<string>, tag: T)
    requires declared != {}
    ensures Inv(declared, Init(tag))
  {
  }

  /**
    A pass keeps the hub's invariant. It stays on its revision exactly when the fingerprint it stored is
    that of the same inputs and tag, which it then stores again, and writes each declared site's plan.
  */
  lemma PassKeepsHub<T>(declared: set<string>, s: System<T>, e: Event<T>)
    requires declared != {} && HubInv(declared, s.hub, s.issued) && e.Pass? && Enabled(declared, s, e)
    ensures
      var t := Do(declared, s, e);
      && HubInv(declared, t.hub, t.issued) && t.issued[t.hub.active] == s.hub.tag
      && (t.hub.active == s.hub.active <==> s.hub.fingerprint == t.hub.fingerprint)
      && t.hub.fingerprint == Some((e.inputs, s.hub.tag))
      && (forall n :: n in declared ==> n in t.hub.plans && t.hub.plans[n] == Plan(t.hub.active, s.hub.tag, e.bodies[n]))
  {
    var t := Do(declared, s, e);
    assert t.issued[t.hub.active] == s.hub.tag;
    assert t.hub.sites.Keys == declared && t.hub.plans.Keys == declared;
  }

  lemma PassKeepsReports<T>(declared: set<string>, s: System<T>, e: Event<T>)
    requires ReportsInv(s.hub.sites, s.results) && e.Pass? && Enabled(declared, s, e)
    requires s.hub.sites == map[] || s.hub.sites.Keys == declared
    ensures
      var t := Do(declared, s, e);
      && ReportsInv(t.hub.sites, t.results)
      && (forall n :: n in s.hub.sites ==> n in t.hub.sites && s.hub.sites[n].applied <= t.hub.sites[n].applied)
  {
    var t := Do(declared, s, e);
    forall n | n in t.hub.sites && t.hub.sites[n].applied > 0
      ensures (n, t.hub.sites[n].applied) in t.results
    {
      assert n in s.hub.sites;
    }
  }

  lemma LongerHistoryKeepsAgents<T>(declared: set<string>, issued: seq<T>, longer: seq<T>,
                                    wire: set<(string, Plan<T>)>, cache: map<string, Plan<T>>,
                                    results: set<(string, nat)>)
    requires AgentInv(declared, issued, wire, cache, results) && issued <= longer
    ensures AgentInv(declared, longer, wire, cache, results)
  {
  }

  lemma PassKeeps<T>(declared: set<string>, s: System<T>, e: Event<T>)
    requires Inv(declared, s) && e.Pass? && Enabled(declared, s, e)
    ensures Inv(declared, Do(declared, s, e)) && Grows(s, Do(declared, s, e))
    ensures var t := Do(declared, s, e); t.issued[t.hub.active] == s.hub.tag
  {
    PassKeepsHub(declared, s, e);
    PassKeepsReports(declared, s, e);
    LongerHistoryKeepsAgents(declared, s.issued, Do(declared, s, e).issued, s.wire, s.cache, s.results);
  }

  /** The three record functions change one site entry and never push it past the desired revision. */
  lemma SiteUpdateKeeps<T>(declared: set<string>, s: System<T>, site: string, st: SiteStatus)
    requires Inv(declared, s) && site in s.hub.sites
    requires st.desired == s.hub.active && st.acknowledged <= s.hub.active
    requires s.hub.sites[site].applied <= st.applied <= s.hub.active
    requires st.applied != s.hub.sites[site].applied ==> (site, st.applied) in s.results
    ensures
      var t := s.(hub := s.hub.(sites := s.hub.sites[site := st]));
      Inv(declared, t) && Grows(s, t)
  {
    SiteUpdateKeepsHub(declared, s.hub, s.issued, site, st);
    assert ReportsInv(s.hub.sites[site := st], s.results);
  }

  lemma SiteUpdateKeepsHub<T>(declared: set<string>, h: Hub<T>, issued: seq<T>, site: string, st: SiteStatus)
    requires HubInv(declared, h, issued) && site in h.sites
    requires st.desired == h.active && st.acknowledged <= h.active
    requires h.sites[site].applied <= st.applied <= h.active
    ensures HubInv(declared, h.(sites := h.sites[site := st]), issued)
  {
    var sites := h.sites[site := st];
    assert sites.Keys == h.sites.Keys;
    assert StatusInv(sites, h.active);
    assert h.ready ==> AllSitesApplied(sites, h.active);
  }

  lemma RecordKeeps<T>(declared: set<string>, s: System<T>, e: Event<T>)
    requires Inv(declared, s) && Enabled(declared, s, e)
    requires e.RecordAcknowledgement? || e.RecordProgress? || e.RecordResult?
    ensures Inv(declared, Do(declared, s, e)) && Grows(s, Do(declared, s, e))
  {
    var st := s.hub.sites[e.site];
    match e
    case RecordAcknowledgement(site, revision) =>
      SiteUpdateKeeps(declared, s, site, AcknowledgeSite(st, revision));
    case RecordProgress(site, revision, failed) =>
      SiteUpdateKeeps(declared, s, site, ProgressSite(st, revision, failed));
    case RecordResult(site, revision, failed) =>
      SiteUpdateKeeps(declared, s, site, ResultSite(st, revision, failed));
  }

  lemma SendKeeps<T>(declared: set<string>, s: System<T>, e: Event<T>)
    requires Inv(declared, s) && Enabled(declared, s, e) && e.Send?
    ensures Inv(declared, Do(declared, s, e)) && Grows(s, Do(declared, s, e))
  {
    assert AgentInv(declared, s.issued, Do(declared, s, e).wire, s.cache, s.results);
  }

  lemma ReceiveKeeps<T>(declared: set<string>, s: System<T>, e: Event<T>)
    requires Inv(declared, s) && Enabled(declared, s, e) && e.Receive?
    ensures Inv(declared, Do(declared, s, e)) && Grows(s, Do(declared, s, e))
  {
    assert AgentInv(declared, s.issued, s.wire, Do(declared, s, e).cache, s.results);
  }

  lemma ReportKeeps<T>(declared: set<string>, s: System<T>, e: Event<T>)
    requires Inv(declared, s) && Enabled(declared, s, e) && e.Report?
    ensures Inv(declared, Do(declared, s, e)) && Grows(s, Do(declared, s, e))
  {
    assert GenuinePlan(s.issued, s.cache[e.site]);
    assert AgentInv(declared, s.issued, s.wire, s.cache, Do(declared, s, e).results);
  }

  /** Every step of the protocol keeps the invariant and only extends history. */
  lemma StepKeeps<T>(declared: set<string>, s: System<T>, e: Event<T>)
    requires Inv(declared, s) && Enabled(declared, s, e)
    ensures Inv(declared, Do(declared, s, e)) && Grows(s, Do(declared, s, e))
  {
    if e.Pass? {
      PassKeeps(declared, s, e);
    } else if e.RecordAcknowledgement? || e.RecordProgress? || e.RecordResult? {
      RecordKeeps(declared, s, e);
    } else if e.Send? {
      SendKeeps(declared, s, e);
    } else if e.Receive? {
      ReceiveKeeps(declared, s, e);
    } else if e.Report? {
      ReportKeeps(declared, s, e);
    }
  }

  /** Only a pass issues a revision; only a patch changes the tag. */
  lemma QuietStep<T>(declared: set<string>, s: System<T>, e: Event<T>)
    requires Enabled(declared, s, e) && !e.Pass? && !e.Patch?
    ensures
      var t := Do(declared, s, e);
      && t.issued == s.issued && t.hub.tag == s.hub.tag && t.hub.active == s.hub.active
      && (t.hub.ready ==> s.hub.ready)
      && (!e.Report? ==> t.results == s.results)
  {
  }

  /** "All sites applied the active revision" means each one reported it and holds it, or a newer plan. */
  lemma AllAppliedMeansReported<T>(declared: set<string>, s: System<T>)
    requires Inv(declared, s) && AllSitesApplied(s.hub.sites, s.hub.active)
    ensures s.hub.active > 0
    ensures forall n :: n in declared ==>
              (n, s.hub.active) in s.results && n in s.cache && s.hub.active <= s.cache[n].revision
  {
    assert s.hub.active > 0;
    forall n | n in declared
      ensures (n, s.hub.active) in s.results && n in s.cache && s.hub.active <= s.cache[n].revision
    {
      assert s.hub.sites[n].applied == s.hub.active;
    }
  }

}
