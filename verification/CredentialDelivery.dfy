/**
  Rotation plans delivered over the plan-revision protocol: the hub chooses the rotation plan and
  issues it in one pass, the sites' conditions travel with recorded progress and results, and
  every message may be lost, repeated or late.
*/
module CredentialDelivery {
  import opened Common
  import opened Names
  import opened CredentialRotation
  import R = CredentialRuns
  import D = Delivery
  import P = PlanProtocol

  /** A rotation plan, and the version that sites run with when there is none. */
  datatype Tag = Tag(plan: Option<Rotation>, runtime: nat)

  /** A rotation of one instance from version `from` to version `to`; `names` are its sites, in status order. */
  datatype Setting = Setting(topology: R.Topology, names: seq<string>, to: nat, from: nat)

  /** `conditions` is what the sites reported; `floor` and `previous` are history. */
  datatype State = State(sys: P.System<Tag>, conditions: R.State, floor: nat, previous: map<string, nat>)

  datatype Event =
    | Protocol(e: P.Event<Tag>)
    | Record(site: nat, revision: nat, failed: bool, ready: bool)
    | HubPass(standbys: seq<string>, inputs: int, bodies: map<string, int>)

  /** The version that a plan gives each member. */
  function Versions(x: Setting): Tag -> map<string, nat> {
    (tag: Tag) => map m | m in x.topology.members :: RenderedVersion(tag.plan, tag.runtime, m)
  }

  predicate AllApplied(sys: P.System<Tag>) { P.AllSitesApplied(sys.hub.sites, sys.hub.active) }

  /** A record for a site: the result that it sent, or progress. */
  function Recording(c: R.State, e: Event): P.Event<Tag>
    requires e.Record? && e.site < |c.sites|
  {
    var name := c.sites[e.site].name;
    if e.ready then P.RecordResult(name, e.revision, e.failed) else P.RecordProgress(name, e.revision, e.failed)
  }

  predicate Enabled(declared: set<string>, x: Setting, s: State, e: Event) {
    match e
    case Protocol(e) =>
      P.Enabled(declared, s.sys, e) && !e.Pass? && !e.Patch? && !e.RecordResult? && !e.RecordProgress?
    case Record(i, _, _, _) => i < |s.conditions.sites| && P.Enabled(declared, s.sys, Recording(s.conditions, e))
    case HubPass(standbys, _, bodies) => declared <= bodies.Keys && Elements(standbys) <= x.topology.members.Keys
  }

  /** The conditions after a record: a record for another revision than the desired one changes nothing. */
  ghost function Recorded(x: Setting, s: State, e: Event): R.State
    requires e.Record? && e.site < |s.conditions.sites|
  {
    var c := s.conditions;
    if e.revision != s.sys.hub.active then c
    else R.Do(x.topology, c, R.Report(e.site, BelongsToSite(c.primary, c.sites[e.site].name), e.ready))
  }

  ghost function NextTag(x: Setting, s: State, standbys: seq<string>): Tag {
    var next := R.NextPlan(x.topology, s.conditions, standbys, false);
    Tag(next, if next.None? && s.conditions.plan.Some? then x.to else s.sys.hub.tag.runtime)
  }

  /** A new plan, or a new revision of the old one, has been applied by nobody. */
  ghost function Planned(x: Setting, s: State, standbys: seq<string>, reissued: bool): R.State {
    var c := R.Do(x.topology, s.conditions, R.Pass(standbys, false));
    if reissued then R.Do(x.topology, c, R.Reissue) else c
  }

  function Settled(x: Setting, s: State): State {
    if AllApplied(s.sys) then s.(floor := s.sys.hub.active, previous := Versions(x)(s.sys.hub.tag)) else s
  }

  ghost function Do(declared: set<string>, x: Setting, s: State, e: Event): State
    requires Enabled(declared, x, s, e)
  {
    match e
    case Protocol(e) => s.(sys := P.Do(declared, s.sys, e))
    case Record(_, _, _, _) =>
      s.(sys := P.Do(declared, s.sys, Recording(s.conditions, e)), conditions := Recorded(x, s, e))
    case HubPass(standbys, inputs, bodies) =>
      var sys := P.Do(declared, D.Patched(s.sys, NextTag(x, s, standbys)), P.Pass(inputs, bodies, false));
      Settled(x, s).(sys := sys, conditions := Planned(x, s, standbys, sys.hub.active != s.sys.hub.active))
  }

  // ------------------------------------------------------------------------------------
  // The invariant
  // ------------------------------------------------------------------------------------

  /** The conditions are those of the declared sites. */
  predicate Named(names: seq<string>, sites: seq<Site>) {
    |sites| == |names| && forall i :: 0 <= i < |names| ==> sites[i].name == names[i]
  }

  /** A site counts as having reported exactly if it applied the active revision. */
  predicate Coupled(names: seq<string>, sites: map<string, P.SiteStatus>, active: nat, reported: set<nat>) {
    && names != [] && Distinct(names) && sites.Keys == Elements(names)
    && forall i :: 0 <= i < |names| && names[i] in sites ==> (i in reported <==> sites[names[i]].applied == active)
  }

  /** Without a plan every member runs with the runtime version, and everybody knows it. */
  ghost predicate TagInv(x: Setting, tag: Tag, c: R.State, previous: map<string, nat>) {
    && tag.plan == c.plan
    && (tag.plan.None? ==>
          && previous == Versions(x)(tag)
          && forall m :: m in x.topology.members && x.topology.members[m] < |c.sites| ==>
               c.sites[x.topology.members[m]].active == tag.runtime)
    && DifferInOne(previous, Versions(x)(tag))
  }

  ghost predicate Inv(declared: set<string>, x: Setting, s: State) {
    && P.Inv(declared, s.sys) && s.sys.issued[s.sys.hub.active] == s.sys.hub.tag
    && R.StableInv(x.topology, s.conditions, x.to, x.from)
    && declared == Elements(x.names) && Named(x.names, s.conditions.sites)
    && Coupled(x.names, s.sys.hub.sites, s.sys.hub.active, s.conditions.reported)
    && D.Window(declared, s.sys, Versions(x), s.floor, s.previous)
    && TagInv(x, s.sys.hub.tag, s.conditions, s.previous)
  }

  lemma AppliedIsReported(names: seq<string>, sites: map<string, P.SiteStatus>, active: nat, c: R.State)
    requires Coupled(names, sites, active, c.reported) && Named(names, c.sites)
    ensures P.AllSitesApplied(sites, active) <==> R.Applied(c)
  {
    assert names[0] in Elements(names);
    assert forall i :: 0 <= i < |names| ==> names[i] in Elements(names);
    if R.Applied(c) {
      forall n | n in sites ensures sites[n].applied == active {
        assert n in Elements(names);
        var i :| 0 <= i < |names| && names[i] == n;
      }
    }
  }

  // ------------------------------------------------------------------------------------
  // Records
  // ------------------------------------------------------------------------------------

  /** A recorded result for the active revision makes the site count, and no other one. */
  lemma ResultCounts(names: seq<string>, sites: map<string, P.SiteStatus>, active: nat, reported: set<nat>, i: nat,
                     st: P.SiteStatus)
    requires Coupled(names, sites, active, reported) && i < |names| && names[i] in sites
    requires st.applied == active || st.applied == sites[names[i]].applied
    ensures Coupled(names, sites[names[i] := st], active, if st.applied == active then reported + {i} else reported)
  {
    assert sites[names[i] := st].Keys == sites.Keys;
    assert forall j :: 0 <= j < |names| && j != i ==> names[j] != names[i];
  }

  /** What a record makes of the site's status. */
  function RecordedStatus(st: P.SiteStatus, e: Event): P.SiteStatus
    requires e.Record?
  {
    if e.ready then P.ResultSite(st, e.revision, e.failed) else P.ProgressSite(st, e.revision, e.failed)
  }

  lemma RecordWrites(declared: set<string>, sys: P.System<Tag>, c: R.State, e: Event)
    requires e.Record? && e.site < |c.sites| && P.Enabled(declared, sys, Recording(c, e))
    ensures
      var name := c.sites[e.site].name;
      name in sys.hub.sites &&
      P.Do(declared, sys, Recording(c, e)).hub.sites == sys.hub.sites[name := RecordedStatus(sys.hub.sites[name], e)]
  {
  }

  lemma RecordedSites(x: Setting, s: State, e: Event)
    requires e.Record? && e.site < |s.conditions.sites|
    ensures
      var c := Recorded(x, s, e);
      && |c.sites| == |s.conditions.sites| && (forall i :: 0 <= i < |c.sites| ==> c.sites[i].name == s.conditions.sites[i].name)
      && c.reported == if e.revision == s.sys.hub.active && e.ready then s.conditions.reported + {e.site}
                       else s.conditions.reported
  {
  }

  lemma RecordKeepsCoupling(declared: set<string>, x: Setting, s: State, e: Event)
    requires e.Record? && Enabled(declared, x, s, e) && Named(x.names, s.conditions.sites)
    requires Coupled(x.names, s.sys.hub.sites, s.sys.hub.active, s.conditions.reported)
    requires P.StatusInv(s.sys.hub.sites, s.sys.hub.active)
    ensures
      var t, c := P.Do(declared, s.sys, Recording(s.conditions, e)), Recorded(x, s, e);
      Named(x.names, c.sites) && Coupled(x.names, t.hub.sites, s.sys.hub.active, c.reported)
  {
    RecordWrites(declared, s.sys, s.conditions, e);
    RecordedSites(x, s, e);
    var st := s.sys.hub.sites[x.names[e.site]];
    ResultCounts(x.names, s.sys.hub.sites, s.sys.hub.active, s.conditions.reported, e.site, RecordedStatus(st, e));
    assert st.applied == s.sys.hub.active ==> e.site in s.conditions.reported;
  }

  lemma RecordKeepsTag(x: Setting, s: State, e: Event)
    requires e.Record? && e.site < |s.conditions.sites| && TagInv(x, s.sys.hub.tag, s.conditions, s.previous)
    ensures TagInv(x, s.sys.hub.tag, Recorded(x, s, e), s.previous)
  {
    if e.revision == s.sys.hub.active && s.conditions.plan.None? {
      assert Recorded(x, s, e).sites == s.conditions.sites;
    }
  }

  lemma RecordKeeps(declared: set<string>, x: Setting, s: State, e: Event)
    requires Inv(declared, x, s) && e.Record? && Enabled(declared, x, s, e)
    ensures Inv(declared, x, Do(declared, x, s, e))
  {
    var c := s.conditions;
    var rec := Recording(c, e);
    RecordKeepsCoupling(declared, x, s, e);
    RecordKeepsTag(x, s, e);
    assert R.StableInv(x.topology, Recorded(x, s, e), x.to, x.from) by {
      if e.revision == s.sys.hub.active {
        R.StableReportKeeps(x.topology, c, x.to, x.from,
                            R.Report(e.site, BelongsToSite(c.primary, c.sites[e.site].name), e.ready));
      }
    }
    SystemKeeps(declared, x, s, rec);
  }

  /** A step of the protocol other than a pass keeps what is said about the system alone. */
  lemma SystemKeeps(declared: set<string>, x: Setting, s: State, e: P.Event<Tag>)
    requires P.Inv(declared, s.sys) && P.Enabled(declared, s.sys, e) && !e.Pass? && !e.Patch?
    requires D.Window(declared, s.sys, Versions(x), s.floor, s.previous)
    ensures
      var t := P.Do(declared, s.sys, e);
      && P.Inv(declared, t) && t.issued == s.sys.issued && t.hub.active == s.sys.hub.active && t.hub.tag == s.sys.hub.tag
      && D.Window(declared, t, Versions(x), s.floor, s.previous)
  {
    D.StepKeepsWindow(declared, s.sys, e, Versions(x), s.floor, s.previous);
    P.StepKeeps(declared, s.sys, e);
    P.QuietStep(declared, s.sys, e);
  }

  lemma ProtocolKeeps(declared: set<string>, x: Setting, s: State, e: Event)
    requires Inv(declared, x, s) && e.Protocol? && Enabled(declared, x, s, e)
    ensures Inv(declared, x, Do(declared, x, s, e))
  {
    SystemKeeps(declared, x, s, e.e);
    QuietCoupling(declared, x, s, e.e);
  }

  lemma QuietCoupling(declared: set<string>, x: Setting, s: State, e: P.Event<Tag>)
    requires Coupled(x.names, s.sys.hub.sites, s.sys.hub.active, s.conditions.reported) && P.Enabled(declared, s.sys, e)
    requires !e.Pass? && !e.Patch? && !e.RecordResult? && !e.RecordProgress?
    ensures Coupled(x.names, P.Do(declared, s.sys, e).hub.sites, s.sys.hub.active, s.conditions.reported)
  {
    if e.RecordAcknowledgement? {
      var st := s.sys.hub.sites[e.site];
      assert s.sys.hub.sites[e.site := P.AcknowledgeSite(st, e.revision)].Keys == s.sys.hub.sites.Keys;
    }
  }

  // ------------------------------------------------------------------------------------
  // Passes
  // ------------------------------------------------------------------------------------

  lemma SettledKeeps(declared: set<string>, x: Setting, s: State)
    requires Inv(declared, x, s)
    ensures
      var t := Settled(x, s);
      && D.Window(declared, s.sys, Versions(x), t.floor, t.previous)
      && TagInv(x, s.sys.hub.tag, s.conditions, t.previous)
      && (s.conditions.plan.None? || R.Applied(s.conditions) ==> t.previous == Versions(x)(s.sys.hub.tag))
  {
    AppliedIsReported(x.names, s.sys.hub.sites, s.sys.hub.active, s.conditions);
    if AllApplied(s.sys) {
      D.AppliedSettles(declared, s.sys, Versions(x));
      assert SameBut(Versions(x)(s.sys.hub.tag), Versions(x)(s.sys.hub.tag), "");
    }
  }

  /** Without a plan, the active versions that sites report are the runtime version of the tag. */
  lemma RenderedIsVersion(x: Setting, tag: Tag, c: R.State, m: string)
    requires tag.plan == c.plan && m in x.topology.members && x.topology.members[m] < |c.sites|
    requires tag.plan.None? ==> c.sites[x.topology.members[m]].active == tag.runtime
    requires tag.plan.Some? ==> tag.plan.value.previous > 0
    ensures R.Rendered(x.topology, c, m) == Versions(x)(tag)[m]
  {
  }

  /** A pass leaves the plan, or changes it once every site applied the old one, for one member at most. */
  ghost predicate PassChanges(x: Setting, c: R.State, c': R.State) {
    && c'.sites == c.sites && "" !in x.topology.members && x.from > 0
    && (forall m :: m in x.topology.members ==> x.topology.members[m] < |c.sites|)
    && (c.plan.Some? ==> c.plan.value.previous == x.from) && (c'.plan.Some? ==> c'.plan.value.previous == x.from)
    && (c.plan.Some? ==> R.Applied(c))
    && (c'.plan.None? ==>
          c.plan.Some? && forall m :: m in x.topology.members ==>
            c.sites[x.topology.members[m]].active == x.to && (m == c.plan.value.target || m in c.plan.value.updated))
    && R.OneMemberAtMost(x.topology, c, c')
  }

  lemma NextTagKeeps(x: Setting, s: State, c: R.State, next: Tag, previous: map<string, nat>)
    requires TagInv(x, s.sys.hub.tag, s.conditions, previous) && PassChanges(x, s.conditions, c)
    requires next == Tag(c.plan, if c.plan.None? then x.to else s.sys.hub.tag.runtime)
    requires previous == Versions(x)(s.sys.hub.tag)
    ensures TagInv(x, next, c, previous)
  {
    var tag := s.sys.hub.tag;
    var changing := if next.plan.Some? then next.plan.value.target else "";
    ChangedTag(x, tag, next, s.conditions, c, changing);
    if next.plan.None? {
      assert Versions(x)(tag) == Versions(x)(next);
    }
  }

  lemma ChangedTag(x: Setting, tag: Tag, next: Tag, c: R.State, c': R.State, changing: string)
    requires R.OneMemberAtMost(x.topology, c, c') && c'.sites == c.sites && tag.plan == c.plan && next.plan == c'.plan
    requires forall m :: m in x.topology.members ==> x.topology.members[m] < |c.sites|
    requires forall m :: m in x.topology.members && tag.plan.None? ==> c.sites[x.topology.members[m]].active == tag.runtime
    requires forall m :: m in x.topology.members && next.plan.None? ==> c.sites[x.topology.members[m]].active == next.runtime
    requires (tag.plan.Some? ==> tag.plan.value.previous > 0) && (next.plan.Some? ==> next.plan.value.previous > 0)
    requires next.plan.Some? ==> changing == next.plan.value.target
    ensures SameBut(Versions(x)(tag), Versions(x)(next), changing)
  {
    forall m | m in x.topology.members && m != changing
      ensures Versions(x)(tag)[m] == Versions(x)(next)[m]
    {
      RenderedIsVersion(x, tag, c, m);
      RenderedIsVersion(x, next, c', m);
    }
  }

  lemma StablePassFacts(x: Setting, c: R.State, standbys: seq<string>)
    requires R.StableInv(x.topology, c, x.to, x.from) && Elements(standbys) <= x.topology.members.Keys
    requires R.Do(x.topology, c, R.Pass(standbys, false)).plan != c.plan
    ensures PassChanges(x, c, R.Do(x.topology, c, R.Pass(standbys, false)))
  {
    var pass := R.Pass(standbys, false);
    R.StablePassPlan(x.topology, c, x.to, x.from, pass);
    assert R.OneMemberAtMost(x.topology, c, R.Do(x.topology, c, pass)) by {
      R.StablePassChangesOne(x.topology, c, x.to, x.from, pass);
    }
    assert !("postgres-" <= "");
  }

  /** A new revision is applied by nobody; an unchanged one keeps its reports. */
  lemma NewRevisionCounts(names: seq<string>, sites: map<string, P.SiteStatus>, active: nat, next: nat, reported: set<nat>)
    requires Coupled(names, sites, active, reported) && P.StatusInv(sites, active) && active <= next
    ensures Coupled(names, P.RefreshedSites(sites, Elements(names), next), next, if next == active then reported else {})
  {
    assert forall i :: 0 <= i < |names| ==> names[i] in Elements(names);
  }

  lemma PassKeepsCoupling(declared: set<string>, x: Setting, s: State, e: Event)
    requires declared == Elements(x.names) && Coupled(x.names, s.sys.hub.sites, s.sys.hub.active, s.conditions.reported)
    requires P.StatusInv(s.sys.hub.sites, s.sys.hub.active) && e.HubPass? && Enabled(declared, x, s, e)
    requires s.sys.hub.fingerprint.Some? && s.sys.hub.fingerprint.value.1 == s.sys.hub.tag
    requires s.sys.hub.tag.plan == s.conditions.plan
    ensures
      var t := Do(declared, x, s, e);
      Coupled(x.names, t.sys.hub.sites, t.sys.hub.active, t.conditions.reported)
  {
    var t := Do(declared, x, s, e);
    var next := NextTag(x, s, e.standbys);
    assert t.sys.hub.sites == P.RefreshedSites(s.sys.hub.sites, declared, t.sys.hub.active);
    assert next.plan != s.conditions.plan ==> t.sys.hub.active == s.sys.hub.active + 1;
    assert t.sys.hub.active == s.sys.hub.active ==> t.conditions == s.conditions;
    NewRevisionCounts(x.names, s.sys.hub.sites, s.sys.hub.active, t.sys.hub.active, s.conditions.reported);
  }

  lemma PassKeepsTag(x: Setting, s: State, standbys: seq<string>, previous: map<string, nat>)
    requires R.StableInv(x.topology, s.conditions, x.to, x.from) && Elements(standbys) <= x.topology.members.Keys
    requires TagInv(x, s.sys.hub.tag, s.conditions, previous)
    requires s.conditions.plan.None? || R.Applied(s.conditions) ==> previous == Versions(x)(s.sys.hub.tag)
    ensures
      var next := NextTag(x, s, standbys);
      && TagInv(x, next, R.Do(x.topology, s.conditions, R.Pass(standbys, false)), previous)
      && (next == s.sys.hub.tag || previous == Versions(x)(s.sys.hub.tag))
  {
    var c := R.Do(x.topology, s.conditions, R.Pass(standbys, false));
    if c.plan != s.conditions.plan {
      assert PassChanges(x, s.conditions, c) by { StablePassFacts(x, s.conditions, standbys); }
      NextTagKeeps(x, s, c, NextTag(x, s, standbys), previous);
    }
  }

  /** The half of the invariant that speaks of the sites' conditions. */
  lemma HubPassKeepsConditions(declared: set<string>, x: Setting, s: State, e: Event)
    requires Inv(declared, x, s) && e.HubPass? && Enabled(declared, x, s, e)
    ensures
      var t := Do(declared, x, s, e);
      && R.StableInv(x.topology, t.conditions, x.to, x.from) && Named(x.names, t.conditions.sites)
      && Coupled(x.names, t.sys.hub.sites, t.sys.hub.active, t.conditions.reported)
  {
    var t := Do(declared, x, s, e);
    assert R.StableInv(x.topology, t.conditions, x.to, x.from) && t.conditions.sites == s.conditions.sites by {
      PassKeepsRotation(declared, x, s, e);
    }
    assert Coupled(x.names, t.sys.hub.sites, t.sys.hub.active, t.conditions.reported) by {
      PassKeepsCoupling(declared, x, s, e);
    }
  }

  lemma PlannedShape(x: Setting, s: State, standbys: seq<string>, reissued: bool)
    ensures
      var c, c' := R.Do(x.topology, s.conditions, R.Pass(standbys, false)), Planned(x, s, standbys, reissued);
      c'.plan == c.plan && c'.sites == c.sites
  {
  }

  /** The half that speaks of the plans. */
  lemma HubPassKeepsPlans(declared: set<string>, x: Setting, s: State, e: Event)
    requires P.Inv(declared, s.sys) && e.HubPass? && Enabled(declared, x, s, e)
    requires
      var c, next := Settled(x, s), NextTag(x, s, e.standbys);
      && D.Window(declared, s.sys, Versions(x), c.floor, c.previous)
      && TagInv(x, next, R.Do(x.topology, s.conditions, R.Pass(e.standbys, false)), c.previous)
      && (next == s.sys.hub.tag || c.previous == Versions(x)(s.sys.hub.tag))
    ensures
      var t := Do(declared, x, s, e);
      && P.Inv(declared, t.sys) && t.sys.issued[t.sys.hub.active] == t.sys.hub.tag
      && D.Window(declared, t.sys, Versions(x), t.floor, t.previous)
      && TagInv(x, t.sys.hub.tag, t.conditions, t.previous)
  {
    var c, t := Settled(x, s), Do(declared, x, s, e);
    PassKeepsSystem(declared, x, s, e, c.floor, c.previous);
    PlannedShape(x, s, e.standbys, t.sys.hub.active != s.sys.hub.active);
    TagInvTransfers(x, NextTag(x, s, e.standbys), R.Do(x.topology, s.conditions, R.Pass(e.standbys, false)),
                    t.conditions, c.previous);
  }

  lemma NextPlanIsSafe(declared: set<string>, x: Setting, s: State, standbys: seq<string>)
    requires Inv(declared, x, s) && Elements(standbys) <= x.topology.members.Keys
    ensures
      var c, next := Settled(x, s), NextTag(x, s, standbys);
      && D.Window(declared, s.sys, Versions(x), c.floor, c.previous)
      && TagInv(x, next, R.Do(x.topology, s.conditions, R.Pass(standbys, false)), c.previous)
      && (next == s.sys.hub.tag || c.previous == Versions(x)(s.sys.hub.tag))
  {
    SettledKeeps(declared, x, s);
    PassKeepsTag(x, s, standbys, Settled(x, s).previous);
  }

  lemma TagInvTransfers(x: Setting, tag: Tag, c: R.State, c': R.State, previous: map<string, nat>)
    requires TagInv(x, tag, c, previous) && c'.plan == c.plan && c'.sites == c.sites
    ensures TagInv(x, tag, c', previous)
  {
  }

  lemma HubPassKeeps(declared: set<string>, x: Setting, s: State, e: Event)
    requires Inv(declared, x, s) && e.HubPass? && Enabled(declared, x, s, e)
    ensures Inv(declared, x, Do(declared, x, s, e))
  {
    HubPassKeepsConditions(declared, x, s, e);
    NextPlanIsSafe(declared, x, s, e.standbys);
    HubPassKeepsPlans(declared, x, s, e);
  }

  lemma PassKeepsRotation(declared: set<string>, x: Setting, s: State, e: Event)
    requires R.StableInv(x.topology, s.conditions, x.to, x.from) && e.HubPass? && Enabled(declared, x, s, e)
    ensures
      var t := Do(declared, x, s, e);
      && R.StableInv(x.topology, t.conditions, x.to, x.from)
      && t.conditions.sites == s.conditions.sites
      && t.conditions.plan == R.Do(x.topology, s.conditions, R.Pass(e.standbys, false)).plan
  {
    var pass := R.Pass(e.standbys, false);
    R.StablePassKeeps(x.topology, s.conditions, x.to, x.from, pass);
    R.ReissueKeeps(x.topology, R.Do(x.topology, s.conditions, pass), x.to, x.from);
  }

  lemma PassKeepsSystem(declared: set<string>, x: Setting, s: State, e: Event, floor: nat, previous: map<string, nat>)
    requires P.Inv(declared, s.sys) && e.HubPass? && Enabled(declared, x, s, e)
    requires D.Window(declared, s.sys, Versions(x), floor, previous)
    requires NextTag(x, s, e.standbys) == s.sys.hub.tag || previous == Versions(x)(s.sys.hub.tag)
    ensures
      var t := P.Do(declared, D.Patched(s.sys, NextTag(x, s, e.standbys)), P.Pass(e.inputs, e.bodies, false));
      && P.Inv(declared, t) && t.issued[t.hub.active] == t.hub.tag == NextTag(x, s, e.standbys)
      && D.Window(declared, t, Versions(x), floor, previous)
  {
    var next := NextTag(x, s, e.standbys);
    var patched, pass := D.Patched(s.sys, next), P.Pass(e.inputs, e.bodies, false);
    D.PatchKeepsProtocol(declared, s.sys, next);
    D.PatchKeepsWindow(declared, s.sys, next, Versions(x), floor, previous);
    D.StepKeepsWindow(declared, patched, pass, Versions(x), floor, previous);
    P.PassKeeps(declared, patched, pass);
  }

  // ------------------------------------------------------------------------------------
  // Runs
  // ------------------------------------------------------------------------------------

  /** A version is staged, no plan rotates to it yet, and every site has applied that. */
  ghost predicate Start(declared: set<string>, x: Setting, s: State) {
    && P.Inv(declared, s.sys) && AllApplied(s.sys) && s.sys.issued[s.sys.hub.active] == s.sys.hub.tag == Tag(None, x.from)
    && R.Start(x.topology, s.conditions, x.to, x.from)
    && declared == Elements(x.names) && Named(x.names, s.conditions.sites)
    && Coupled(x.names, s.sys.hub.sites, s.sys.hub.active, s.conditions.reported)
    && s.floor == s.sys.hub.active && s.previous == Versions(x)(s.sys.hub.tag)
  }

  ghost predicate Run(declared: set<string>, x: Setting, ss: seq<State>, es: seq<Event>) {
    && |ss| == |es| + 1
    && forall i :: 0 <= i < |es| ==> Enabled(declared, x, ss[i], es[i]) && ss[i + 1] == Do(declared, x, ss[i], es[i])
  }

  lemma StartInv(declared: set<string>, x: Setting, s: State)
    requires Start(declared, x, s)
    ensures Inv(declared, x, s)
  {
    assert R.StableInv(x.topology, s.conditions, x.to, x.from) by {
      R.StartIsStable(x.topology, s.conditions, x.to, x.from);
    }
    assert D.Window(declared, s.sys, Versions(x), s.floor, s.previous) by {
      D.AppliedSettles(declared, s.sys, Versions(x));
    }
    assert TagInv(x, s.sys.hub.tag, s.conditions, s.previous) by {
      assert SameBut(s.previous, Versions(x)(s.sys.hub.tag), "");
    }
  }

  lemma StepKeeps(declared: set<string>, x: Setting, s: State, e: Event)
    requires Inv(declared, x, s) && Enabled(declared, x, s, e)
    ensures Inv(declared, x, Do(declared, x, s, e))
  {
    match e
    case Protocol(_) => ProtocolKeeps(declared, x, s, e);
    case Record(_, _, _, _) => RecordKeeps(declared, x, s, e);
    case HubPass(_, _, _) => HubPassKeeps(declared, x, s, e);
  }

  lemma {:induction false} RunKeeps(declared: set<string>, x: Setting, ss: seq<State>, es: seq<Event>, i: nat)
    requires Run(declared, x, ss, es) && Inv(declared, x, ss[0]) && i < |ss|
    ensures Inv(declared, x, ss[i])
  {
    if i > 0 {
      RunKeeps(declared, x, ss, es, i - 1);
      StepKeeps(declared, x, ss[i - 1], es[i - 1]);
    }
  }

  /**
    In every run of a rotation with a stable primary, with lost, repeated and late messages: the plans
    that any two sites have accepted give different credential versions to one member at most.
  */
  lemma AcceptedVersionsDifferInOne(declared: set<string>, x: Setting, ss: seq<State>, es: seq<Event>, i: nat,
                                    a: string, b: string)
    requires Run(declared, x, ss, es) && Start(declared, x, ss[0]) && i < |ss| && a in ss[i].sys.cache && b in ss[i].sys.cache
    ensures DifferInOne(Versions(x)(ss[i].sys.cache[a].tag), Versions(x)(ss[i].sys.cache[b].tag))
  {
    var s := ss[i];
    assert P.Inv(declared, s.sys) && D.Window(declared, s.sys, Versions(x), s.floor, s.previous) &&
           DifferInOne(s.previous, Versions(x)(s.sys.hub.tag)) by {
      StartInv(declared, x, ss[0]);
      RunKeeps(declared, x, ss, es, i);
    }
    D.AcceptedIsInWindow(declared, s.sys, Versions(x), s.floor, s.previous, a);
    D.AcceptedIsInWindow(declared, s.sys, Versions(x), s.floor, s.previous, b);
    var k :| SameBut(s.previous, Versions(x)(s.sys.hub.tag), k);
    assert SameBut(Versions(x)(s.sys.cache[a].tag), Versions(x)(s.sys.cache[b].tag), k);
  }
}
