/**
  Which major version runs where, across operations. The specification of the instance names a
  version; a finishing upgrade replaces it by its target; every plan carries the version that the
  specification had when the plan was issued.
*/
module MajorVersions {
  import opened Common
  import opened UpgradePhases
  import opened MajorUpgrade
  import opened MajorUpgradeSafety
  import opened MajorUpgradeAgent
  import P = PlanProtocol

  /** `versions[r]` is the version in the specification when revision r was issued. */
  datatype Versioned = Versioned(s: State, spec: nat, versions: seq<nat>)

  /** The step into Finalize writes the target version of the upgrade into the specification. */
  predicate Finishes(before: Tag, after: Tag) {
    after.Some? && after.value.phase == Finalize && after != before
  }

  function DoVersioned(sites: Sites, target: string -> nat, a: Versioned, e: Event): Versioned
    requires Enabled(sites, a.s, e)
  {
    var t := Do(sites, a.s, e);
    Versioned(t,
              if Finishes(a.s.sys.hub.tag, t.sys.hub.tag) then target(t.sys.hub.tag.value.uid) else a.spec,
              if |t.sys.issued| > |a.s.sys.issued| then a.versions + [a.spec] else a.versions)
  }

  ghost predicate VersionedRun(sites: Sites, target: string -> nat, xs: seq<Versioned>, events: seq<Event>) {
    && sites != map[] && |xs| == |events| + 1 && xs[0].s == Init() && |xs[0].versions| == 1 && xs[0].versions[0] == xs[0].spec
    && forall i :: 0 <= i < |events| ==> Enabled(sites, xs[i].s, events[i]) && xs[i + 1] == DoVersioned(sites, target, xs[i], events[i])
  }

  function States(xs: seq<Versioned>): seq<State> { seq(|xs|, i requires 0 <= i < |xs| => xs[i].s) }

  lemma RunOfStates(sites: Sites, target: string -> nat, xs: seq<Versioned>, events: seq<Event>)
    requires VersionedRun(sites, target, xs, events)
    ensures Run(sites, States(xs), events)
  {
    var states := States(xs);
    forall i | 0 <= i < |events| ensures Next(sites, states[i], events[i], states[i + 1]) {
    }
  }

  /** The version that a member runs with under revision r. */
  function Version(target: string -> nat, issued: seq<Tag>, versions: seq<nat>, r: nat, m: string): nat
    requires r < |issued| == |versions|
  {
    if RunsTarget(issued[r], m) then target(issued[r].value.uid) else versions[r]
  }

  /** From the floor on, plans carry the present version, but for the last ones before it became the target. */
  ghost predicate VersionsInv(target: string -> nat, issued: seq<Tag>, tag: Tag, floor: nat, spec: nat, versions: seq<nat>) {
    && |versions| == |issued|
    && (forall r :: floor <= r < |issued| ==>
          || versions[r] == spec
          || (issued[r].Some? && issued[r].value.phase == RestoreWrites && target(issued[r].value.uid) == spec))
    && (forall r :: floor <= r < |issued| && issued[r].Some? && issued[r].value.phase == Finalize ==>
          target(issued[r].value.uid) == spec)
    && (tag.Some? && tag.value.phase == Finalize ==> target(tag.value.uid) == spec)
  }

  ghost predicate VInv(target: string -> nat, a: Versioned) {
    VersionsInv(target, a.s.sys.issued, a.s.sys.hub.tag, a.s.floor, a.spec, a.versions)
  }

  lemma PassKeepsVersions(sites: Sites, target: string -> nat, a: Versioned, e: Event)
    requires VInv(target, a) && Enabled(sites, a.s, e) && e.Protocol?
    ensures VInv(target, DoVersioned(sites, target, a, e))
  {
    if !e.e.Pass? {
      P.QuietStep(sites.Keys, a.s.sys, e.e);
    }
  }

  /** Moving on narrows the window to the active revision, which every site has applied. */
  lemma MoveOnKeepsVersions(target: string -> nat, a: Versioned, tag: Tag, spec: nat)
    requires VInv(target, a) && a.s.sys.hub.active + 1 == |a.s.sys.issued| && a.s.floor <= a.s.sys.hub.active
    requires
      var held := a.s.sys.issued[a.s.sys.hub.active];
      if tag.Some? && tag.value.phase == Finalize
      then held == Some(tag.value.(phase := RestoreWrites)) && spec == target(tag.value.uid)
      else spec == a.spec
    ensures VersionsInv(target, a.s.sys.issued, tag, a.s.sys.hub.active, spec, a.versions)
  {
  }

  /** What the steps below need of the upgrade invariant. */
  predicate WindowFacts(s: State) {
    && s.sys.hub.active + 1 == |s.sys.issued| && s.floor <= s.sys.hub.active
    && (s.sys.hub.tag.Some? && PhaseApplied(s) ==> s.sys.issued[s.sys.hub.active] == s.sys.hub.tag)
  }

  lemma InvGivesFacts(sites: Sites, s: State)
    requires Inv(sites, s)
    ensures WindowFacts(s)
  {
    if s.sys.hub.tag.Some? && PhaseApplied(s) {
      AppliedPhaseIsIssued(sites, s);
    }
  }

  lemma ActKeepsVersions(target: string -> nat, a: Versioned, d: Decision)
    requires WindowFacts(a.s) && VInv(target, a) && a.s.sys.hub.tag.Some?
    requires d.Advance? && d.phase != Rollback ==> PhaseApplied(a.s) && Successor(a.s.sys.hub.tag.value.phase) == Some(d.phase)
    ensures
      var t := Act(a.s, d);
      var spec := if Finishes(a.s.sys.hub.tag, t.sys.hub.tag) then target(t.sys.hub.tag.value.uid) else a.spec;
      VersionsInv(target, a.s.sys.issued, t.sys.hub.tag, t.floor, spec, a.versions)
  {
    var o := a.s.sys.hub.tag.value;
    if d.Advance? && d.phase != Rollback {
      SuccessorReaches(o.phase);
      var spec := if d.phase == Finalize then target(o.uid) else a.spec;
      MoveOnKeepsVersions(target, a, Some(o.(phase := d.phase)), spec);
    } else if d.Complete? || d.RolledBack? {
      MoveOnKeepsVersions(target, a, None, a.spec);
    }
  }

  lemma UpgradePassKeepsVersions(sites: Sites, target: string -> nat, a: Versioned, e: Event)
    requires WindowFacts(a.s) && VInv(target, a) && Enabled(sites, a.s, e) && e.UpgradePass?
    ensures VInv(target, DoVersioned(sites, target, a, e))
  {
    var d := Decide(a.s, e.syncSatisfied, e.backupReady);
    DecisionFollowsChain(a.s.sys.hub.tag.value.phase, AnyFailed(a.s.sys.hub.sites), PhaseApplied(a.s),
                         e.syncSatisfied, e.backupReady);
    ActKeepsVersions(target, a, d);
    assert Act(a.s, d).sys.issued == a.s.sys.issued;
  }

  lemma StepKeepsVersions(sites: Sites, target: string -> nat, a: Versioned, e: Event)
    requires WindowFacts(a.s) && VInv(target, a) && Enabled(sites, a.s, e)
    ensures VInv(target, DoVersioned(sites, target, a, e))
  {
    match e
    case Protocol(_) => PassKeepsVersions(sites, target, a, e);
    case UpgradePass(_, _) => UpgradePassKeepsVersions(sites, target, a, e);
    case Begin(uid, primary) => MoveOnKeepsVersions(target, a, Some(Owner(uid, primary, Preflight)), a.spec);
    case _ =>
  }

  lemma {:induction false} RunKeepsVersions(sites: Sites, target: string -> nat, xs: seq<Versioned>, events: seq<Event>, i: nat)
    requires VersionedRun(sites, target, xs, events) && i < |xs|
    ensures VInv(target, xs[i])
  {
    if i > 0 {
      RunKeepsVersions(sites, target, xs, events, i - 1);
      assert WindowFacts(xs[i - 1].s) by {
        RunOfStates(sites, target, xs, events);
        RunKeeps(sites, States(xs), events, i - 1);
        InvGivesFacts(sites, xs[i - 1].s);
      }
      StepKeepsVersions(sites, target, xs[i - 1], events[i - 1]);
    }
  }

  /** Two recent tags, one of another operation or of none: both run what the specification says. */
  lemma AcrossOperations(recent: seq<Tag>, x: Tag, y: Tag, m: string)
    requires Shape(recent) && !Released(recent) && x in recent && y in recent
    requires x != y && !(x.Some? && y.Some? && x.value.uid == y.value.uid)
    ensures RunsTarget(x, m) ==> x.value.phase == Finalize
  {
    assert |recent| == 2;
  }

  lemma WindowSharesVersion(target: string -> nat, a: Versioned, r: nat, q: nat, m: string, k: string)
    requires VInv(target, a) && Shape(a.s.recent) && !Released(a.s.recent)
    requires a.s.floor <= r < |a.s.sys.issued| && a.s.floor <= q < |a.s.sys.issued|
    requires
      var x, y := a.s.sys.issued[r], a.s.sys.issued[q];
      x in a.s.recent && y in a.s.recent && !MemberStopped(x, m) && !MemberStopped(y, k)
    ensures Version(target, a.s.sys.issued, a.versions, r, m) == Version(target, a.s.sys.issued, a.versions, q, k)
  {
    var x, y := a.s.sys.issued[r], a.s.sys.issued[q];
    if x.Some? && y.Some? && x.value.uid == y.value.uid {
      RecentSharesVersion(a.s.recent, x, y, m, k);
    } else if x != y {
      AcrossOperations(a.s.recent, x, y, m);
      AcrossOperations(a.s.recent, y, x, k);
    }
  }

  /**
    In every run over any number of upgrades, with failures, rollbacks and deletions: unless an
    upgrade has just been released, all running members of all sites run one major version.
  */
  lemma OneVersionEverywhere(sites: Sites, target: string -> nat, xs: seq<Versioned>, events: seq<Event>, i: nat,
                             a: string, b: string, m: string, k: string)
    requires VersionedRun(sites, target, xs, events) && i < |xs| && !Released(xs[i].s.recent)
    requires a in xs[i].s.sys.cache && b in xs[i].s.sys.cache
    requires !MemberStopped(xs[i].s.sys.cache[a].tag, m) && !MemberStopped(xs[i].s.sys.cache[b].tag, k)
    ensures
      var s := xs[i].s;
      var r, q := s.sys.cache[a].revision, s.sys.cache[b].revision;
      && r < |s.sys.issued| == |xs[i].versions| && q < |s.sys.issued|
      && s.sys.issued[r] == s.sys.cache[a].tag && s.sys.issued[q] == s.sys.cache[b].tag
      && Version(target, s.sys.issued, xs[i].versions, r, m) == Version(target, s.sys.issued, xs[i].versions, q, k)
  {
    var s := xs[i].s;
    var r, q := s.sys.cache[a].revision, s.sys.cache[b].revision;
    RunKeepsVersions(sites, target, xs, events, i);
    assert Shape(s.recent) && s.floor <= r < |s.sys.issued| && s.floor <= q < |s.sys.issued| &&
           s.sys.issued[r] == s.sys.cache[a].tag && s.sys.issued[q] == s.sys.cache[b].tag &&
           s.sys.issued[r] in s.recent && s.sys.issued[q] in s.recent by {
      RunOfStates(sites, target, xs, events);
      RunKeeps(sites, States(xs), events, i);
      HeldInWindow(sites, s, a);
      HeldInWindow(sites, s, b);
    }
    WindowSharesVersion(target, xs[i], r, q, m, k);
  }

  lemma HeldInWindow(sites: Sites, s: State, n: string)
    requires Inv(sites, s) && n in s.sys.cache
    ensures s.floor <= s.sys.cache[n].revision < |s.sys.issued|
    ensures s.sys.issued[s.sys.cache[n].revision] == s.sys.cache[n].tag && s.sys.cache[n].tag in s.recent
  {
    assert n in sites && P.GenuinePlan(s.sys.issued, s.sys.cache[n]);
  }
}
