/**
  Address migration: the hub moves planned member addresses to the observed ones, one member
  per plan, and a site rewrites an etcd peer only when the other voters form a quorum.
*/
module AddressMigration {
  import opened Common
  import opened Names

  datatype Migration = Migration(member: string, oldAddress: string, newAddress: string)

  datatype Plan = Plan(addresses: map<string, string>, migration: Option<Migration>)

  function Lookup(addresses: map<string, string>, m: string): string {
    if m in addresses then addresses[m] else ""
  }

  predicate Complete(addresses: map<string, string>, expected: seq<string>) {
    expected != [] && forall m :: m in expected ==> Lookup(addresses, m) != ""
  }

  /** Members seen at another address than the planned one. */
  function Differing(observed: map<string, string>, planned: map<string, string>, expected: seq<string>): set<string> {
    set m | m in expected && Lookup(observed, m) != "" && Lookup(observed, m) != Lookup(planned, m)
  }

  /** The next address plan: held while a migration is pending, else one member moves. */
  predicate IsNext(observed: map<string, string>, expected: seq<string>, plan: Plan, applied: bool, next: Plan) {
    if plan.migration.Some? && !applied then next == plan
    else if !Complete(plan.addresses, expected) then next == Plan(observed, None)
    else if Differing(observed, plan.addresses, expected) == {} then next == Plan(plan.addresses, None)
    else
      && next.migration.Some? && IsLeast(next.migration.value.member, Differing(observed, plan.addresses, expected))
      && var m := next.migration.value.member;
         next == Plan(plan.addresses[m := Lookup(observed, m)],
                      Some(Migration(m, Lookup(plan.addresses, m), Lookup(observed, m))))
  }

  /** All sites' reported addresses together; a later site in the list wins. */
  function Observed(sites: seq<map<string, string>>): map<string, string> {
    if sites == [] then map[] else Observed(sites[..|sites| - 1]) + sites[|sites| - 1]
  }

  method AddressPlan(sites: seq<map<string, string>>, expected: seq<string>, plan: Plan, applied: bool)
    returns (next: Plan)
    ensures IsNext(Observed(sites), expected, plan, applied, next)
  {
    var observed := map[];
    for k := 0 to |sites|
      invariant observed == Observed(sites[..k])
    {
      assert sites[..k + 1][..k] == sites[..k];
      observed := observed + sites[k];
    }
    assert sites[..|sites|] == sites;
    if plan.migration.Some? && !applied {
      return plan;
    }
    if !Complete(plan.addresses, expected) {
      return Plan(observed, None);
    }
    var changed := [];
    for k := 0 to |expected|
      invariant forall x :: x in changed <==> x in Differing(observed, plan.addresses, expected[..k])
    {
      assert expected[..k + 1] == expected[..k] + [expected[k]];
      var current := Lookup(observed, expected[k]);
      if current != "" && current != Lookup(plan.addresses, expected[k]) {
        changed := changed + [expected[k]];
      }
    }
    assert expected[..|expected|] == expected;
    if changed == [] {
      return Plan(plan.addresses, None);
    }
    var sorted := Sort(changed);
    SortedHeadIsLeastOf(changed, sorted);
    assert Elements(changed) == Differing(observed, plan.addresses, expected);
    var m := sorted[0];
    return Plan(plan.addresses[m := Lookup(observed, m)],
                Some(Migration(m, Lookup(plan.addresses, m), Lookup(observed, m))));
  }

  // ------------------------------------------------------------------------------------
  // Runs
  // ------------------------------------------------------------------------------------

  /** `settled` is history: all sites have applied a plan since the last address change. */
  datatype State = State(observed: map<string, string>, plan: Plan, applied: bool, settled: bool)

  datatype Event = Pass(next: Plan) | Reissue | Apply | Observe(observed: map<string, string>)

  ghost predicate Next(expected: seq<string>, s: State, e: Event, s': State) {
    match e
    case Pass(next) =>
      && IsNext(s.observed, expected, s.plan, s.applied, next)
      && s' == s.(plan := next, applied := s.applied && next == s.plan,
                  settled := s.settled && next.addresses == s.plan.addresses)
    case Reissue => s' == s.(applied := false)
    case Apply => s' == s.(applied := true, settled := true)
    case Observe(observed) => s' == s.(observed := observed)
  }

  ghost predicate Run(expected: seq<string>, ss: seq<State>, es: seq<Event>) {
    && |ss| == |es| + 1
    && forall i :: 0 <= i < |es| ==> Next(expected, ss[i], es[i], ss[i + 1])
  }

  /** A change that is not yet applied is carried by a pending migration. */
  predicate Inv(expected: seq<string>, s: State) {
    Complete(s.plan.addresses, expected) && (!s.settled ==> s.plan.migration.Some? && !s.applied)
  }

  lemma StepKeeps(expected: seq<string>, s: State, e: Event, s': State)
    requires Inv(expected, s) && Next(expected, s, e, s')
    ensures Inv(expected, s')
    ensures DifferInOne(s.plan.addresses, s'.plan.addresses)
    ensures s'.plan.addresses != s.plan.addresses ==> s.settled
  {
    assert SameBut(s.plan.addresses, s'.plan.addresses,
                   if s'.plan.migration.Some? then s'.plan.migration.value.member else "");
  }

  /**
    In every run from a complete plan, consecutive plans differ in one member's address at most,
    and an address changes only after every site applied a plan carrying the previous change.
  */
  lemma {:induction false} OneAddressAtATime(expected: seq<string>, ss: seq<State>, es: seq<Event>, i: nat)
    requires Run(expected, ss, es) && Inv(expected, ss[0]) && i < |ss|
    ensures Inv(expected, ss[i])
    ensures i < |es| ==> DifferInOne(ss[i].plan.addresses, ss[i + 1].plan.addresses)
    ensures i < |es| && ss[i + 1].plan.addresses != ss[i].plan.addresses ==> ss[i].settled
  {
    if i > 0 {
      OneAddressAtATime(expected, ss, es, i - 1);
      StepKeeps(expected, ss[i - 1], es[i - 1], ss[i]);
    }
    if i < |es| {
      StepKeeps(expected, ss[i], es[i], ss[i + 1]);
    }
  }

  /** Two address changes have an Apply between them. */
  lemma {:induction false} ChangesAreSeparated(expected: seq<string>, ss: seq<State>, es: seq<Event>, i: nat, j: nat)
    requires Run(expected, ss, es) && Inv(expected, ss[0]) && i < j < |es|
    requires ss[i + 1].plan.addresses != ss[i].plan.addresses && ss[j + 1].plan.addresses != ss[j].plan.addresses
    ensures exists k :: i < k < j && es[k] == Apply
  {
    OneAddressAtATime(expected, ss, es, j);
    if forall k :: i < k < j ==> es[k] != Apply {
      StaysUnsettled(expected, ss, es, i + 1, j);
      assert false;
    }
  }

  lemma {:induction false} StaysUnsettled(expected: seq<string>, ss: seq<State>, es: seq<Event>, i: nat, j: nat)
    requires Run(expected, ss, es) && i <= j < |ss| && !ss[i].settled
    requires forall k :: i <= k < j ==> es[k] != Apply
    ensures !ss[j].settled
  {
    if i < j {
      StaysUnsettled(expected, ss, es, i, j - 1);
      assert Next(expected, ss[j - 1], es[j - 1], ss[j]);
    }
  }

  /** With stable observations a pass either is held or brings one differing member home. */
  lemma PassConverges(expected: seq<string>, s: State, next: Plan)
    requires Complete(s.plan.addresses, expected) && IsNext(s.observed, expected, s.plan, s.applied, next)
    ensures
      var before := Differing(s.observed, s.plan.addresses, expected);
      var after := Differing(s.observed, next.addresses, expected);
      if before == {} || (s.plan.migration.Some? && !s.applied) then after == before
      else |after| == |before| - 1
  {
    var before := Differing(s.observed, s.plan.addresses, expected);
    if before != {} && !(s.plan.migration.Some? && !s.applied) {
      var m := next.migration.value.member;
      assert Differing(s.observed, next.addresses, expected) == before - {m};
    }
  }

  /** After as many applied passes as there are differing members, the plan matches the observation. */
  lemma {:induction false} ConvergesToObserved(expected: seq<string>, observed: map<string, string>, plans: seq<Plan>)
    requires |plans| > 0 && Complete(plans[0].addresses, expected)
    requires forall i :: 0 <= i < |plans| - 1 ==> IsNext(observed, expected, plans[i], true, plans[i + 1])
    requires |plans| > |Differing(observed, plans[0].addresses, expected)|
    ensures Differing(observed, plans[|plans| - 1].addresses, expected) == {}
    decreases |plans|
  {
    var left := Differing(observed, plans[0].addresses, expected);
    if |plans| > 1 {
      var s := State(observed, plans[0], true, true);
      PassConverges(expected, s, plans[1]);
      assert Next(expected, s, Pass(plans[1]), s.(plan := plans[1], applied := plans[1] == plans[0],
                                                  settled := plans[1].addresses == plans[0].addresses));
      ConvergesToObserved(expected, observed, plans[1..]);
    }
  }

  // ------------------------------------------------------------------------------------
  // The etcd guard of a site
  // ------------------------------------------------------------------------------------

  datatype Job = NoJob | Endpoints(voters: map<string, string>) | NotQuorate

  predicate Voter(m: string) { "etcd-" <= m }

  /** Every other voter, at its candidate address where one is known. */
  function OtherVoters(addresses: map<string, string>, candidates: map<string, string>, member: string): map<string, string> {
    map m | m in addresses && Voter(m) && m != member ::
      if Lookup(candidates, m) != "" then candidates[m] else addresses[m]
  }

  /** The work of a site for an address plan: nothing, or to rewrite its own voter through the others. */
  predicate IsJob(site: string, plan: Plan, candidates: map<string, string>, job: Job) {
    if plan.migration.None? || !("etcd-" + site + "-" <= plan.migration.value.member) then job == NoJob
    else
      var voters := OtherVoters(plan.addresses, candidates, plan.migration.value.member);
      job == if |voters| >= (|voters| + 1) / 2 + 1 then Endpoints(voters) else NotQuorate
  }

  method AddressMigrationJob(site: string, plan: Plan, candidates: map<string, string>) returns (job: Job)
    ensures IsJob(site, plan, candidates, job)
  {
    if plan.migration.None? || !("etcd-" + site + "-" <= plan.migration.value.member) {
      return NoJob;
    }
    var member := plan.migration.value.member;
    var endpoints: map<string, string> := map[];
    var rest := plan.addresses.Keys;
    while rest != {}
      invariant rest <= plan.addresses.Keys
      invariant endpoints.Keys == set m | m in plan.addresses.Keys - rest && Voter(m) && m != member
      invariant forall m :: m in endpoints ==>
                  endpoints[m] == (if Lookup(candidates, m) != "" then candidates[m] else plan.addresses[m])
    {
      var m :| m in rest;
      if Voter(m) && m != member {
        endpoints := endpoints[m := if Lookup(candidates, m) != "" then candidates[m] else plan.addresses[m]];
      }
      rest := rest - {m};
    }
    assert endpoints == OtherVoters(plan.addresses, candidates, member);
    var total := |endpoints| + 1;
    if |endpoints| < total / 2 + 1 {
      return NotQuorate;
    }
    return Endpoints(endpoints);
  }
}
