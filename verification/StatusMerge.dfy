/**
  Merging a reconciler's result into an instance status that agents report into meanwhile.

  The reconciler reads the status, computes for a while, and then writes its own fields into
  whatever the status has become. Reports of the agents land at any moment in between.
*/
module StatusMerge {
  import opened Common
  import P = PlanProtocol

  /** What a site reported besides its revisions. */
  datatype Observation = Observation(addresses: map<string, string>, primary: string, standbys: seq<string>, observedAt: int)

  datatype Phase = PlanIssued | Applying | Ready | DeletionPlanIssued | Deleted

  datatype Site = Site(name: string, ref: string, revisions: P.SiteStatus, phase: Phase, seen: Observation)

  datatype Status = Status(active: nat, fingerprint: int, sites: seq<Site>)

  predicate Has(sites: seq<Site>, name: string) { exists i :: 0 <= i < |sites| && sites[i].name == name }

  /** The first entry of that name. */
  function Lookup(sites: seq<Site>, name: string): (s: Site)
    requires Has(sites, name)
    ensures s.name == name && s in sites
  {
    if sites[0].name == name then sites[0] else Lookup(sites[1..], name)
  }

  /** A declared site keeps what it reported; only what the reconciler owns is taken over. */
  function MergedSite(current: seq<Site>, wanted: Site): Site {
    var observed := if wanted.name != "" && Has(current, wanted.name) then Lookup(current, wanted.name) else wanted;
    Site(wanted.name, wanted.ref, observed.revisions.(desired := wanted.revisions.desired),
         if wanted.phase == DeletionPlanIssued && observed.phase != Deleted then DeletionPlanIssued else observed.phase,
         observed.seen)
  }

  function Merge(current: Status, wanted: Status): Status {
    Status(if wanted.active > current.active then wanted.active else current.active, wanted.fingerprint,
           seq(|wanted.sites|, i requires 0 <= i < |wanted.sites| => MergedSite(current.sites, wanted.sites[i])))
  }

  method PreviousSiteStatus(statuses: seq<Site>, name: string) returns (found: Option<Site>)
    ensures found == if Has(statuses, name) then Some(Lookup(statuses, name)) else None
  {
    for k := 0 to |statuses|
      invariant Has(statuses, name) <==> Has(statuses[k..], name)
      invariant Has(statuses, name) ==> Lookup(statuses, name) == Lookup(statuses[k..], name)
    {
      if statuses[k].name == name {
        assert Has(statuses[k..], name) by { assert statuses[k..][0].name == name; }
        return Some(statuses[k]);
      }
      assert statuses[k..][1..] == statuses[k + 1..];
      DropOther(statuses[k..], name);
    }
    return None;
  }

  lemma DropOther(sites: seq<Site>, name: string)
    requires sites != [] && sites[0].name != name
    ensures Has(sites, name) <==> Has(sites[1..], name)
  {
    if i :| 0 <= i < |sites| && sites[i].name == name {
      assert sites[1..][i - 1].name == name;
    }
  }

  /** The stored status object, as the reconciler and the server update it. */
  class InstanceStatus {
    var status: Status

    constructor (status: Status)
      ensures this.status == status
    {
      this.status := status;
    }

    method MergeReconciledSites(wanted: seq<Site>) returns (merged: seq<Site>)
      ensures |merged| == |wanted|
      ensures forall i :: 0 <= i < |wanted| ==> merged[i] == MergedSite(status.sites, wanted[i])
    {
      merged := [];
      for k := 0 to |wanted|
        invariant |merged| == k
        invariant forall i :: 0 <= i < k ==> merged[i] == MergedSite(status.sites, wanted[i])
      {
        var previous := PreviousSiteStatus(status.sites, wanted[k].name);
        var observed := if previous.Some? && wanted[k].name != "" then previous.value else wanted[k];
        observed := observed.(name := wanted[k].name, ref := wanted[k].ref,
                              revisions := observed.revisions.(desired := wanted[k].revisions.desired));
        if wanted[k].phase == DeletionPlanIssued && observed.phase != Deleted {
          observed := observed.(phase := DeletionPlanIssued);
        }
        merged := merged + [observed];
      }
    }

    method MergeReconciledStatus(wanted: Status)
      modifies this
      ensures status == Merge(old(status), wanted)
    {
      var merged := MergeReconciledSites(wanted.sites);
      var active := status.active;
      if wanted.active > active {
        active := wanted.active;
      }
      status := Status(active, wanted.fingerprint, merged);
    }
  }

  // ------------------------------------------------------------------------------------
  // What a merge keeps
  // ------------------------------------------------------------------------------------

  /** A merge never loses or overwrites what a declared site reported. */
  lemma MergeKeepsReports(current: Status, wanted: Status, i: nat)
    requires i < |wanted.sites| && wanted.sites[i].name != "" && Has(current.sites, wanted.sites[i].name)
    ensures
      var merged := Merge(current, wanted).sites[i];
      var reported := Lookup(current.sites, wanted.sites[i].name);
      && merged.name == reported.name && merged.seen == reported.seen
      && merged.revisions.applied == reported.revisions.applied
      && merged.revisions.acknowledged == reported.revisions.acknowledged
      && merged.revisions.failed == reported.revisions.failed
      && merged.phase == (if reported.phase != Deleted && wanted.sites[i].phase == DeletionPlanIssued
                          then DeletionPlanIssued else reported.phase)
      && merged.revisions.desired == wanted.sites[i].revisions.desired && merged.ref == wanted.sites[i].ref
  {
  }

  /** A site that is new to the status, or has no name, is taken over as it is. */
  lemma MergeAddsNewSites(current: Status, wanted: Status, i: nat)
    requires i < |wanted.sites| && (wanted.sites[i].name == "" || !Has(current.sites, wanted.sites[i].name))
    ensures Merge(current, wanted).sites[i] == wanted.sites[i]
  {
  }

  predicate Bounded(r: P.SiteStatus, limit: nat) { r.applied <= limit && r.acknowledged <= limit }

  /** Every site is asked for the active revision and has not gone past it. */
  predicate Consistent(s: Status) {
    forall i :: 0 <= i < |s.sites| ==> s.sites[i].revisions.desired == s.active && Bounded(s.sites[i].revisions, s.active)
  }

  /**
    A merge keeps the status consistent exactly when the reconciler worked from a status whose
    revision is not behind the stored one.
  */
  lemma MergeKeepsConsistentExactly(current: Status, wanted: Status)
    requires Consistent(current) && Consistent(wanted) && wanted.sites != []
    ensures Consistent(Merge(current, wanted)) <==> wanted.active >= current.active
  {
    var merged := Merge(current, wanted);
    if wanted.active >= current.active {
      forall i | 0 <= i < |merged.sites|
        ensures merged.sites[i].revisions.desired == merged.active && Bounded(merged.sites[i].revisions, merged.active)
      {
        var name := wanted.sites[i].name;
        if name != "" && Has(current.sites, name) {
          var k :| 0 <= k < |current.sites| && current.sites[k] == Lookup(current.sites, name);
        }
      }
    } else {
      assert merged.sites[0].revisions.desired == wanted.active;
    }
  }

  /** The weaker order: applied and acknowledged up to desired, desired up to active. */
  predicate Ordered(s: Status) {
    forall i :: 0 <= i < |s.sites| ==>
      s.sites[i].revisions.desired <= s.active && Bounded(s.sites[i].revisions, s.sites[i].revisions.desired)
  }

  /** Even a stale merge keeps the order, exactly when no declared site has gone past the stale revision. */
  lemma StaleMergeKeepsOrderExactly(current: Status, wanted: Status)
    requires Consistent(current) && Consistent(wanted)
    ensures Ordered(Merge(current, wanted)) <==>
            forall i :: 0 <= i < |wanted.sites| && wanted.sites[i].name != "" && Has(current.sites, wanted.sites[i].name) ==>
              Bounded(Lookup(current.sites, wanted.sites[i].name).revisions, wanted.active)
  {
    var merged := Merge(current, wanted);
    forall i | 0 <= i < |wanted.sites|
      ensures merged.sites[i] == MergedSite(current.sites, wanted.sites[i])
    {
    }
  }

  /** A site that applied revision 2 ends up asked for revision 1 again. */
  lemma StaleMergeBreaksOrder(seen: Observation)
    ensures
      var current := Status(2, 20, [Site("a", "a", P.SiteStatus(2, 2, 2, false), Ready, seen)]);
      var wanted := Status(1, 10, [Site("a", "a", P.SiteStatus(1, 1, 1, false), Ready, seen)]);
      Consistent(current) && Consistent(wanted) && !Ordered(Merge(current, wanted))
  {
    var current := Status(2, 20, [Site("a", "a", P.SiteStatus(2, 2, 2, false), Ready, seen)]);
    var wanted := Status(1, 10, [Site("a", "a", P.SiteStatus(1, 1, 1, false), Ready, seen)]);
    assert current.sites[0].name == "a";
    var merged := Merge(current, wanted);
    assert merged.sites[0].revisions == P.SiteStatus(1, 2, 2, false);
  }

  // ------------------------------------------------------------------------------------
  // Interleavings
  // ------------------------------------------------------------------------------------

  /** `pending` is the result a running pass computed from the status it read. */
  datatype State = State(status: Status, pending: Option<Status>)

  datatype Event =
    | Compute(names: seq<string>, fingerprint: int)
    | Write
    | Acknowledge(site: nat, revision: nat)
    | Progress(site: nat, revision: nat, failed: bool, seen: Observation)
    | Result(site: nat, revision: nat, failed: bool)

  /** The status a pass computes: the declared sites, asked for the (perhaps new) active revision. */
  function Computed(s: Status, names: seq<string>, fingerprint: int): Status {
    var active := if fingerprint == s.fingerprint && s.active > 0 then s.active else s.active + 1;
    Status(active, fingerprint,
           seq(|names|, i requires 0 <= i < |names| =>
             if Has(s.sites, names[i])
             then Lookup(s.sites, names[i]).(revisions := Lookup(s.sites, names[i]).revisions.(desired := active))
             else Site(names[i], names[i], P.SiteStatus(active, 0, 0, false), PlanIssued, Observation(map[], "", [], 0))))
  }

  predicate Enabled(s: State, e: Event) {
    match e
    case Compute(_, _) => s.pending.None?
    case Write => s.pending.Some?
    case Acknowledge(i, _) => i < |s.status.sites|
    case Progress(i, _, _, _) => i < |s.status.sites|
    case Result(i, _, _) => i < |s.status.sites|
  }

  function Reported(s: Status, i: nat, r: P.SiteStatus): Status
    requires i < |s.sites|
  {
    s.(sites := s.sites[i := s.sites[i].(revisions := r)])
  }

  function Do(s: State, e: Event): State
    requires Enabled(s, e)
  {
    match e
    case Compute(names, fingerprint) => s.(pending := Some(Computed(s.status, names, fingerprint)))
    case Write => State(Merge(s.status, s.pending.value), None)
    case Acknowledge(i, r) => s.(status := Reported(s.status, i, P.AcknowledgeSite(s.status.sites[i].revisions, r)))
    case Progress(i, r, failed, seen) =>
      var site := s.status.sites[i];
      if r != site.revisions.desired then s
      else s.(status := s.status.(sites := s.status.sites[i := site.(revisions := site.revisions.(failed := failed), seen := seen)]))
    case Result(i, r, failed) => s.(status := Reported(s.status, i, P.ResultSite(s.status.sites[i].revisions, r, failed)))
  }

  /** Progress on the desired revision brings the site's observation with it; on any other it changes nothing. */
  lemma ProgressIsRecordedExactly(s: State, e: Event)
    requires Enabled(s, e) && e.Progress?
    ensures
      var before, after := s.status.sites[e.site], Do(s, e).status.sites[e.site];
      && |Do(s, e).status.sites| == |s.status.sites|
      && (forall k :: 0 <= k < |s.status.sites| && k != e.site ==> Do(s, e).status.sites[k] == s.status.sites[k])
      && (if e.revision == before.revisions.desired
          then after.seen == e.seen && after.revisions.failed == e.failed else after == before)
      && after.(seen := before.seen, revisions := after.revisions.(failed := before.revisions.failed)) == before
  {
  }

  predicate Inv(s: State) {
    && Consistent(s.status)
    && (s.pending.Some? ==> Consistent(s.pending.value) && s.pending.value.active >= s.status.active)
  }

  /** A pass keeps all that a known site reported, and starts a new one with nothing reported; both are asked for its revision. */
  lemma ComputedKeepsReports(s: Status, names: seq<string>, fingerprint: int, i: nat)
    requires i < |names|
    ensures
      var c := Computed(s, names, fingerprint);
      var r := c.sites[i].revisions;
      && c.sites[i].name == names[i] && r.desired == c.active
      && (if Has(s.sites, names[i])
          then var known := Lookup(s.sites, names[i]);
               r == known.revisions.(desired := r.desired) && c.sites[i].seen == known.seen && c.sites[i].phase == known.phase
          else r.applied == 0 && r.acknowledged == 0 && !r.failed)
  {
  }

  lemma ComputedIsConsistent(s: Status, names: seq<string>, fingerprint: int)
    requires Consistent(s)
    ensures Consistent(Computed(s, names, fingerprint)) && Computed(s, names, fingerprint).active >= s.active
  {
    var c := Computed(s, names, fingerprint);
    forall i | 0 <= i < |c.sites|
      ensures c.sites[i].revisions.desired == c.active && Bounded(c.sites[i].revisions, c.active)
    {
      if Has(s.sites, names[i]) {
        var k :| 0 <= k < |s.sites| && s.sites[k] == Lookup(s.sites, names[i]);
      }
    }
  }

  lemma StepKeeps(s: State, e: Event)
    requires Inv(s) && Enabled(s, e)
    ensures Inv(Do(s, e)) && s.status.active <= Do(s, e).status.active
  {
    match e
    case Compute(names, fingerprint) => ComputedIsConsistent(s.status, names, fingerprint);
    case Write =>
      if s.pending.value.sites != [] {
        MergeKeepsConsistentExactly(s.status, s.pending.value);
      }
    case _ =>
  }

  ghost predicate Run(ss: seq<State>, es: seq<Event>) {
    && |ss| == |es| + 1
    && forall i :: 0 <= i < |es| ==> Enabled(ss[i], es[i]) && ss[i + 1] == Do(ss[i], es[i])
  }

  /** No pass writes among the events from i on, before j. */
  predicate NoWrite(es: seq<Event>, i: nat, j: nat) {
    forall k :: i <= k < j && k < |es| ==> !es[k].Write?
  }

  lemma {:induction false} ReportsKeepFingerprint(ss: seq<State>, es: seq<Event>, i: nat, j: nat)
    requires Run(ss, es) && i <= j < |ss| && NoWrite(es, i, j)
    ensures ss[j].status.active == ss[i].status.active && ss[j].status.fingerprint == ss[i].status.fingerprint
  {
    if i < j {
      ReportsKeepFingerprint(ss, es, i, j - 1);
    }
  }

  /**
    In every interleaving, the pass after a write works with the written revision exactly when it
    computes the same fingerprint, and with the next one otherwise, whatever was reported in between.
  */
  lemma RevisionFollowsFingerprint(ss: seq<State>, es: seq<Event>, i: nat, j: nat)
    requires Run(ss, es) && Inv(ss[0]) && i < j < |es| && es[i].Write? && es[j].Compute? && NoWrite(es, i + 1, j)
    requires ss[i].pending.value.active > 0
    ensures ss[j + 1].pending.value.active ==
            ss[i + 1].status.active + if es[j].fingerprint == ss[i].pending.value.fingerprint then 0 else 1
    ensures ss[i + 1].status.active == ss[i].pending.value.active
  {
    RunKeeps(ss, es, i, i);
    ReportsKeepFingerprint(ss, es, i + 1, j);
  }

  /**
    In every interleaving of passes and reports, the active revision never decreases and every
    site stays between its applied revision and the active one.
  */
  lemma {:induction false} RunKeeps(ss: seq<State>, es: seq<Event>, i: nat, j: nat)
    requires Run(ss, es) && Inv(ss[0]) && i <= j < |ss|
    ensures Inv(ss[j]) && ss[i].status.active <= ss[j].status.active
    ensures forall k :: 0 <= k < |ss[j].status.sites| ==>
              var r := ss[j].status.sites[k].revisions;
              r.applied <= r.desired <= ss[j].status.active && r.acknowledged <= r.desired
  {
    if j > 0 {
      RunKeeps(ss, es, if i < j then i else 0, j - 1);
      StepKeeps(ss[j - 1], es[j - 1]);
    }
  }
}
