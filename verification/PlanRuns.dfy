/**
  Whole runs of the plan-revision protocol: when a revision is issued, where the plans on the
  wire and in the caches come from, and which reports a site's status stands for.
*/
module PlanRuns {
  import opened Common
  import opened PlanProtocol

  predicate Run<T(==)>(declared: set<string>, start: T, ss: seq<System<T>>, es: seq<Event<T>>) {
    && declared != {} && |ss| == |es| + 1 && ss[0] == Init(start)
    && forall i :: 0 <= i < |es| ==> Enabled(declared, ss[i], es[i]) && ss[i + 1] == Do(declared, ss[i], es[i])
  }

  lemma {:induction false} RunKeeps<T>(declared: set<string>, start: T, ss: seq<System<T>>, es: seq<Event<T>>, i: nat)
    requires Run(declared, start, ss, es) && i < |ss|
    ensures Inv(declared, ss[i])
  {
    if i == 0 {
      InitInv(declared, start);
    } else {
      RunKeeps(declared, start, ss, es, i - 1);
      StepKeeps(declared, ss[i - 1], es[i - 1]);
    }
  }

  // ------------------------------------------------------------------------------------
  // When a revision is issued
  // ------------------------------------------------------------------------------------

  /** No pass among the events from i on, before j. */
  predicate Quiet<T>(es: seq<Event<T>>, i: nat, j: nat) {
    forall k :: i <= k < j && k < |es| ==> !es[k].Pass?
  }

  lemma {:induction false} QuietKeeps<T>(declared: set<string>, start: T, ss: seq<System<T>>, es: seq<Event<T>>, i: nat, j: nat)
    requires Run(declared, start, ss, es) && i <= j < |ss| && Quiet(es, i, j)
    ensures ss[j].hub.active == ss[i].hub.active && ss[j].hub.fingerprint == ss[i].hub.fingerprint
  {
    if i < j {
      QuietKeeps(declared, start, ss, es, i, j - 1);
    }
  }

  /** The inputs and the tag that a pass works with are the same. */
  predicate SameInputs<T(==)>(ss: seq<System<T>>, es: seq<Event<T>>, i: nat, j: nat)
    requires i < |es| < |ss| && j < |es| && es[i].Pass? && es[j].Pass?
  {
    es[i].inputs == es[j].inputs && ss[i].hub.tag == ss[j].hub.tag
  }

  /**
    In every run, the first pass issues revision 1. A later pass keeps the revision of the pass
    before it exactly when it works with the same inputs and tag, and issues the next one otherwise.
  */
  lemma RevisionsFollowInputs<T>(declared: set<string>, start: T, ss: seq<System<T>>, es: seq<Event<T>>, j: nat)
    requires Run(declared, start, ss, es) && j < |es| && es[j].Pass?
    ensures Quiet(es, 0, j) ==> ss[j + 1].hub.active == 1
    ensures forall i :: 0 <= i < j && es[i].Pass? && Quiet(es, i + 1, j) ==>
              ss[j + 1].hub.active == ss[i + 1].hub.active + if SameInputs(ss, es, i, j) then 0 else 1
  {
    if Quiet(es, 0, j) {
      QuietKeeps(declared, start, ss, es, 0, j);
    }
    forall i | 0 <= i < j && es[i].Pass? && Quiet(es, i + 1, j)
      ensures ss[j + 1].hub.active == ss[i + 1].hub.active + if SameInputs(ss, es, i, j) then 0 else 1
    {
      QuietKeeps(declared, start, ss, es, i + 1, j);
    }
  }

  /** The last pass before an event, if there is one. */
  lemma {:induction false} LastPass<T>(es: seq<Event<T>>, j: nat) returns (i: Option<nat>)
    requires j <= |es|
    ensures i.None? ==> Quiet(es, 0, j)
    ensures i.Some? ==> i.value < j && es[i.value].Pass? && Quiet(es, i.value + 1, j)
  {
    if j == 0 {
      i := None;
    } else if es[j - 1].Pass? {
      i := Some(j - 1);
    } else {
      i := LastPass(es, j - 1);
    }
  }

  lemma {:induction false} RevisionsGrow<T>(declared: set<string>, start: T, ss: seq<System<T>>, es: seq<Event<T>>, i: nat, j: nat)
    requires Run(declared, start, ss, es) && i <= j < |ss|
    ensures ss[i].hub.active <= ss[j].hub.active
  {
    if i < j {
      RevisionsGrow(declared, start, ss, es, i, j - 1);
    }
  }

  /** Two passes of one run that leave the same revision work with the same inputs and tag. */
  lemma {:induction false} SameRevisionSameInputs<T>(declared: set<string>, start: T, ss: seq<System<T>>, es: seq<Event<T>>,
                                                     i: nat, j: nat)
    requires Run(declared, start, ss, es) && i <= j < |es| && es[i].Pass? && es[j].Pass?
    requires ss[i + 1].hub.active == ss[j + 1].hub.active
    ensures SameInputs(ss, es, i, j)
    decreases j
  {
    if i < j {
      var last := LastPass(es, j);
      assert last.Some? && i <= last.value;
      var k := last.value;
      RevisionsFollowInputs(declared, start, ss, es, j);
      RevisionsGrow(declared, start, ss, es, i + 1, k + 1);
      SameRevisionSameInputs(declared, start, ss, es, i, k);
    }
  }

  // ------------------------------------------------------------------------------------
  // Where plans come from
  // ------------------------------------------------------------------------------------

  /** The j-th event is a pass that wrote this plan for the site. */
  predicate Wrote<T(==)>(ss: seq<System<T>>, es: seq<Event<T>>, j: nat, site: string, p: Plan<T>) {
    && j < |es| < |ss| && es[j].Pass? && site in es[j].bodies
    && p == Plan(ss[j + 1].hub.active, ss[j].hub.tag, es[j].bodies[site])
  }

  predicate Written<T(==)>(ss: seq<System<T>>, es: seq<Event<T>>, i: nat, site: string, p: Plan<T>) {
    exists j :: 0 <= j < i && Wrote(ss, es, j, site, p)
  }

  /** A plan of the site that the hub has stored, sent, or that the site has accepted. */
  predicate InFlight<T(==)>(s: System<T>, site: string, p: Plan<T>) {
    || (site in s.hub.plans && s.hub.plans[site] == p)
    || (site, p) in s.wire
    || (site in s.cache && s.cache[site] == p)
  }

  /**
    In every run, each plan that is stored, on the wire or in a cache was written for that site by a
    pass: with the body computed then, the tag set then and the revision left by that pass.
  */
  lemma {:induction false} PlansStemFromPasses<T>(declared: set<string>, start: T, ss: seq<System<T>>, es: seq<Event<T>>,
                                                  i: nat, site: string, p: Plan<T>)
    requires Run(declared, start, ss, es) && i < |ss| && InFlight(ss[i], site, p)
    ensures Written(ss, es, i, site, p)
  {
    assert i > 0;
    var s, e := ss[i - 1], es[i - 1];
    if InFlight(s, site, p) {
      PlansStemFromPasses(declared, start, ss, es, i - 1, site, p);
    } else if e.Pass? {
      assert Wrote(ss, es, i - 1, site, p);
    } else {
      assert e.Receive? && InFlight(s, e.site, e.plan);
    }
  }

  /** Apart from the operation's tag, a plan's contents depend on the fingerprinted inputs alone. */
  predicate BodiesFollowInputs<T(==)>(declared: set<string>, ss: seq<System<T>>, es: seq<Event<T>>, body: (int, T, string) -> int) {
    |es| < |ss| &&
    forall j, n :: 0 <= j < |es| && es[j].Pass? && n in declared && n in es[j].bodies ==>
      es[j].bodies[n] == body(es[j].inputs, ss[j].hub.tag, n)
  }

  lemma {:induction false} PlansAreDeclared<T>(declared: set<string>, start: T, ss: seq<System<T>>, es: seq<Event<T>>,
                                               i: nat, site: string, p: Plan<T>)
    requires Run(declared, start, ss, es) && i < |ss| && InFlight(ss[i], site, p)
    ensures site in declared
  {
    RunKeeps(declared, start, ss, es, i);
  }

  /**
    In every run whose plan contents are determined by the fingerprinted inputs and the tag, a site
    has one plan per revision, whenever and wherever it is met.
  */
  lemma OnePlanPerRevision<T>(declared: set<string>, start: T, ss: seq<System<T>>, es: seq<Event<T>>,
                              body: (int, T, string) -> int, i: nat, k: nat, site: string, p: Plan<T>, q: Plan<T>)
    requires Run(declared, start, ss, es) && BodiesFollowInputs(declared, ss, es, body)
    requires i < |ss| && k < |ss| && InFlight(ss[i], site, p) && InFlight(ss[k], site, q) && p.revision == q.revision
    ensures p == q
  {
    PlansAreDeclared(declared, start, ss, es, i, site, p);
    PlansStemFromPasses(declared, start, ss, es, i, site, p);
    PlansStemFromPasses(declared, start, ss, es, k, site, q);
    var a :| 0 <= a < i && Wrote(ss, es, a, site, p);
    var b :| 0 <= b < k && Wrote(ss, es, b, site, q);
    if a <= b {
      SameRevisionSameInputs(declared, start, ss, es, a, b);
    } else {
      SameRevisionSameInputs(declared, start, ss, es, b, a);
    }
  }

  /**
    Every delivery leaves a site with the newest plan it has seen: the delivered one exactly when its
    revision is greater than the cached one, whose contents never change.
  */
  lemma DeliveryKeepsNewest<T>(declared: set<string>, start: T, ss: seq<System<T>>, es: seq<Event<T>>, i: nat)
    requires Run(declared, start, ss, es) && i < |es| && es[i].Receive?
    ensures
      var site, plan := es[i].site, es[i].plan;
      && site in ss[i + 1].cache && ss[i + 1].cache == ss[i].cache[site := ss[i + 1].cache[site]]
      && ss[i + 1].cache[site] ==
         if site in ss[i].cache && plan.revision <= ss[i].cache[site].revision then ss[i].cache[site] else plan
  {
    RunKeeps(declared, start, ss, es, i);
  }

  // ------------------------------------------------------------------------------------
  // What a site's status stands for
  // ------------------------------------------------------------------------------------

  /** The failure flag that an event records for the site: only reports on the desired revision count. */
  function Flag<T>(s: System<T>, e: Event<T>, site: string): Option<bool> {
    if (e.RecordProgress? || e.RecordResult?) && e.site == site && site in s.hub.sites &&
       e.revision == s.hub.sites[site].desired
    then Some(e.failed) else None
  }

  /** The j-th event records a failure of the site, and no later report before i is about the desired revision. */
  predicate FailedSince<T>(ss: seq<System<T>>, es: seq<Event<T>>, i: nat, site: string, j: nat) {
    j < i <= |es| < |ss| && Flag(ss[j], es[j], site) == Some(true) &&
    forall k :: j < k < i ==> Flag(ss[k], es[k], site).None?
  }

  predicate LastSaidFailed<T>(ss: seq<System<T>>, es: seq<Event<T>>, i: nat, site: string) {
    exists j :: 0 <= j < i && FailedSince(ss, es, i, site, j)
  }

  /** In every run, a site counts as failed exactly when its last report on a desired revision said so. */
  lemma {:induction false} FailedIsLastReport<T>(declared: set<string>, start: T, ss: seq<System<T>>, es: seq<Event<T>>,
                                                 i: nat, site: string)
    requires Run(declared, start, ss, es) && i < |ss|
    ensures Failed(ss[i], site) <==> LastSaidFailed(ss, es, i, site)
  {
    if i > 0 {
      FailedIsLastReport(declared, start, ss, es, i - 1, site);
      assert SitesInv(declared, ss[i - 1]) by { RunKeeps(declared, start, ss, es, i - 1); }
      FailedStep(declared, ss[i - 1], es[i - 1], site);
      SinceStep(ss, es, i, site);
    }
  }

  predicate Failed<T>(s: System<T>, site: string) { site in s.hub.sites && s.hub.sites[site].failed }

  predicate SitesInv<T>(declared: set<string>, s: System<T>) { s.hub.sites == map[] || s.hub.sites.Keys == declared }

  lemma FailedStep<T>(declared: set<string>, s: System<T>, e: Event<T>, site: string)
    requires Enabled(declared, s, e) && SitesInv(declared, s)
    ensures Failed(Do(declared, s, e), site) <==>
            if Flag(s, e, site).Some? then Flag(s, e, site).value else Failed(s, site)
  {
  }

  lemma SinceStep<T>(ss: seq<System<T>>, es: seq<Event<T>>, i: nat, site: string)
    requires 0 < i <= |es| < |ss|
    ensures
      var flag := Flag(ss[i - 1], es[i - 1], site);
      LastSaidFailed(ss, es, i, site) <==> if flag.Some? then flag.value else LastSaidFailed(ss, es, i - 1, site)
  {
    var flag := Flag(ss[i - 1], es[i - 1], site);
    if flag == Some(true) {
      assert FailedSince(ss, es, i, site, i - 1);
    } else if flag == None && LastSaidFailed(ss, es, i - 1, site) {
      var j :| 0 <= j < i - 1 && FailedSince(ss, es, i - 1, site, j);
      assert FailedSince(ss, es, i, site, j);
    }
    if LastSaidFailed(ss, es, i, site) && flag != Some(true) {
      var j :| 0 <= j < i && FailedSince(ss, es, i, site, j);
      assert j < i - 1 && FailedSince(ss, es, i - 1, site, j);
    }
  }

  /** The event is the site's result (or acknowledgement) for the revision that is desired of it. */
  predicate Records<T>(s: System<T>, e: Event<T>, site: string, result: bool) {
    && (if result then e.RecordResult? else e.RecordAcknowledgement?)
    && e.site == site && site in s.hub.sites && e.revision == s.hub.sites[site].desired
  }

  function StatusOf<T>(s: System<T>, site: string): SiteStatus {
    if site in s.hub.sites then s.hub.sites[site] else SiteStatus(0, 0, 0, false)
  }

  lemma StatusStep<T>(declared: set<string>, s: System<T>, e: Event<T>, site: string)
    requires Enabled(declared, s, e) && SitesInv(declared, s)
    ensures
      var before, after := StatusOf(s, site), StatusOf(Do(declared, s, e), site);
      && after.applied == (if Records(s, e, site, true) then before.desired else before.applied)
      && after.acknowledged == (if Records(s, e, site, false) then before.desired else before.acknowledged)
  {
  }

  /**
    In every run, a site is asked for the active revision. Its applied and acknowledged revision
    become the desired one when it reports that revision, and are left alone by everything else:
    passes, reports on other revisions, and reports of other sites.
  */
  lemma StatusFollowsReports<T>(declared: set<string>, start: T, ss: seq<System<T>>, es: seq<Event<T>>, i: nat, site: string)
    requires Run(declared, start, ss, es) && i < |es|
    ensures
      var before, after := StatusOf(ss[i], site), StatusOf(ss[i + 1], site);
      && (site in declared ==> after.desired == ss[i + 1].hub.active)
      && after.applied == (if Records(ss[i], es[i], site, true) then before.desired else before.applied)
      && after.acknowledged == (if Records(ss[i], es[i], site, false) then before.desired else before.acknowledged)
  {
    assert SitesInv(declared, ss[i]) by { RunKeeps(declared, start, ss, es, i); }
    StatusStep(declared, ss[i], es[i], site);
    assert site in declared ==> StatusOf(ss[i + 1], site).desired == ss[i + 1].hub.active by {
      RunKeeps(declared, start, ss, es, i + 1);
    }
  }

  /** Nothing but a pass makes an instance Ready, and a pass that is blocked takes that back. */
  lemma ReadyOnlyByPasses<T>(declared: set<string>, start: T, ss: seq<System<T>>, es: seq<Event<T>>, i: nat)
    requires Run(declared, start, ss, es) && i < |es| && !es[i].Pass?
    ensures ss[i + 1].hub.ready == (ss[i].hub.ready && !es[i].BlockedPass?)
  {
  }

  /** A pass declares the instance Ready exactly when it is healthy and every declared site applied the revision. */
  lemma ReadyExactly<T>(declared: set<string>, start: T, ss: seq<System<T>>, es: seq<Event<T>>, i: nat)
    requires Run(declared, start, ss, es) && i < |es| && es[i].Pass?
    ensures ss[i + 1].hub.ready <==>
            es[i].healthy && forall n :: n in declared ==> StatusOf(ss[i + 1], n).applied == ss[i + 1].hub.active
  {
  }
}
