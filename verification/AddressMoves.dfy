/**
  What an address plan says: where its addresses come from, what a migration stands for, and what
  a site makes of it.
*/
module AddressMoves {
  import opened Common
  import opened Names
  import opened AddressMigration

  // ------------------------------------------------------------------------------------
  // One pass
  // ------------------------------------------------------------------------------------

  /** A member's address is the one that the last site to list it reported. */
  lemma {:induction false} LastReportWins(sites: seq<map<string, string>>, m: string)
    ensures m in Observed(sites) <==> exists i :: 0 <= i < |sites| && m in sites[i]
    ensures forall i :: 0 <= i < |sites| && m in sites[i] && (forall j :: i < j < |sites| ==> m !in sites[j]) ==>
              m in Observed(sites) && Observed(sites)[m] == sites[i][m]
  {
    if sites != [] {
      var n := |sites| - 1;
      LastReportWins(sites[..n], m);
      if m !in sites[n] {
        forall i | 0 <= i < n && m in sites[i] && (forall j :: i < j < |sites| ==> m !in sites[j])
          ensures m in Observed(sites) && Observed(sites)[m] == sites[i][m]
        {
          assert m in sites[..n][i] && forall j :: i < j < n ==> m !in sites[..n][j];
        }
        if i :| 0 <= i < |sites| && m in sites[i] {
          assert m in sites[..n][i];
        }
      }
    }
  }

  lemma LeastIsUnique(a: string, b: string, s: set<string>)
    requires IsLeast(a, s) && IsLeast(b, s)
    ensures a == b
  {
    LessTotal(a, b);
  }

  /** An observation determines the next address plan. */
  lemma NextIsUnique(observed: map<string, string>, expected: seq<string>, plan: Plan, applied: bool, a: Plan, b: Plan)
    requires IsNext(observed, expected, plan, applied, a) && IsNext(observed, expected, plan, applied, b)
    ensures a == b
  {
    var differing := Differing(observed, plan.addresses, expected);
    if !(plan.migration.Some? && !applied) && Complete(plan.addresses, expected) && differing != {} {
      LeastIsUnique(a.migration.value.member, b.migration.value.member, differing);
    }
  }

  /** The migration says what happens to the addresses: one member, from its old to its new address. */
  ghost predicate Describes(mg: Migration, before: map<string, string>, after: map<string, string>) {
    && SameBut(before, after, mg.member) && mg.oldAddress != mg.newAddress
    && Lookup(before, mg.member) == mg.oldAddress && Lookup(after, mg.member) == mg.newAddress
  }

  /** Somebody is expected, and everybody who is has an address. */
  predicate Everybody(addresses: map<string, string>, expected: seq<string>) {
    |expected| > 0 && forall m :: m in expected ==> m in addresses && addresses[m] != ""
  }

  /**
    A pass that is not held by a pending migration: before the plan is complete it plans what is
    observed, and it is complete exactly when everybody is observed; after that it changes addresses
    exactly when it carries a migration, which describes the change.
  */
  lemma PassPlansExactly(observed: map<string, string>, expected: seq<string>, plan: Plan, applied: bool, next: Plan)
    requires IsNext(observed, expected, plan, applied, next) && (plan.migration.Some? ==> applied)
    ensures !Everybody(plan.addresses, expected) ==>
              && next.migration.None? && (forall m :: Lookup(next.addresses, m) == Lookup(observed, m))
              && (Everybody(next.addresses, expected) <==> Everybody(observed, expected))
    ensures Everybody(plan.addresses, expected) ==>
              && (next.migration.Some? <==> next.addresses != plan.addresses)
              && (next.migration.Some? ==>
                    Describes(next.migration.value, plan.addresses, next.addresses) &&
                    next.migration.value.newAddress == Lookup(observed, next.migration.value.member))
              && (next.migration.None? ==>
                    forall m :: m in expected && Lookup(observed, m) != "" ==> Lookup(plan.addresses, m) == Lookup(observed, m))
  {
    assert forall m :: Lookup(plan.addresses, m) != "" <==> m in plan.addresses && plan.addresses[m] != "";
    if Everybody(plan.addresses, expected) && next.migration.None? {
      forall m | m in expected && Lookup(observed, m) != "" ensures Lookup(plan.addresses, m) == Lookup(observed, m) {
        assert m !in Differing(observed, plan.addresses, expected);
      }
    }
  }

  /** Members before the migrating one are already where they are observed. */
  lemma LeastMovesFirst(observed: map<string, string>, expected: seq<string>, plan: Plan, applied: bool, next: Plan, m: string)
    requires IsNext(observed, expected, plan, applied, next) && (plan.migration.Some? ==> applied)
    requires Complete(plan.addresses, expected) && next.migration.Some?
    requires m in expected && Less(m, next.migration.value.member) && Lookup(observed, m) != ""
    ensures Lookup(plan.addresses, m) == Lookup(observed, m)
  {
    assert m !in Differing(observed, plan.addresses, expected);
  }

  // ------------------------------------------------------------------------------------
  // Whole runs
  // ------------------------------------------------------------------------------------

  const EMPTY := Plan(map[], None)

  ghost predicate NewRun(expected: seq<string>, ss: seq<State>, es: seq<Event>) {
    Run(expected, ss, es) && ss[0].plan == EMPTY
  }

  predicate SeenAt(ss: seq<State>, j: nat, m: string, address: string) {
    j < |ss| && m in ss[j].observed && ss[j].observed[m] == address
  }

  /** In every run of a new instance, each planned address was observed for that member. */
  lemma {:induction false} PlannedWasObserved(expected: seq<string>, ss: seq<State>, es: seq<Event>, i: nat, m: string)
    requires NewRun(expected, ss, es) && i < |ss| && m in ss[i].plan.addresses && ss[i].plan.addresses[m] != ""
    ensures exists j :: 0 <= j <= i && SeenAt(ss, j, m, ss[i].plan.addresses[m])
  {
    assert i > 0;
    var address := ss[i].plan.addresses[m];
    assert Next(expected, ss[i - 1], es[i - 1], ss[i - 1 + 1]);
    if m in ss[i - 1].plan.addresses && ss[i - 1].plan.addresses[m] == address {
      PlannedWasObserved(expected, ss, es, i - 1, m);
      var j :| 0 <= j <= i - 1 && SeenAt(ss, j, m, address);
    } else {
      assert SeenAt(ss, i - 1, m, address);
    }
  }

  /** The j-th step started the migration that the plan still carries. */
  ghost predicate StartedAt(ss: seq<State>, j: nat, plan: Plan) {
    && j + 1 < |ss| && ss[j + 1].plan == plan && plan.migration.Some?
    && Describes(plan.migration.value, ss[j].plan.addresses, plan.addresses)
  }

  /**
    In every run of a new instance, a migration appears only in a complete plan, and describes the
    one change by which that plan came about.
  */
  lemma {:induction false} MigrationIsLastChange(expected: seq<string>, ss: seq<State>, es: seq<Event>, i: nat)
    requires NewRun(expected, ss, es) && i < |ss| && ss[i].plan.migration.Some?
    ensures Complete(ss[i].plan.addresses, expected)
    ensures exists j :: 0 <= j < i && StartedAt(ss, j, ss[i].plan)
  {
    assert i > 0;
    assert Next(expected, ss[i - 1], es[i - 1], ss[i - 1 + 1]);
    if ss[i - 1].plan == ss[i].plan {
      MigrationIsLastChange(expected, ss, es, i - 1);
      var j :| 0 <= j < i - 1 && StartedAt(ss, j, ss[i].plan);
    } else {
      PassPlansExactly(ss[i - 1].observed, expected, ss[i - 1].plan, ss[i - 1].applied, ss[i].plan);
      assert StartedAt(ss, i - 1, ss[i].plan);
    }
  }

  // ------------------------------------------------------------------------------------
  // The etcd guard of a site
  // ------------------------------------------------------------------------------------

  function Voters(addresses: map<string, string>): set<string> { set m | m in addresses && Voter(m) }

  /**
    A site rewrites its own voter exactly when the instance has three voters or more: then the others
    are a majority of all, and each is addressed where it was last seen, or else where it is planned.
  */
  lemma QuorumExactly(site: string, plan: Plan, candidates: map<string, string>, job: Job)
    requires IsJob(site, plan, candidates, job) && plan.migration.Some?
    requires var m := plan.migration.value.member; m in plan.addresses && "etcd-" + site + "-" <= m
    ensures
      var m, all := plan.migration.value.member, Voters(plan.addresses);
      && (job.Endpoints? <==> |all| >= 3) && (job.NotQuorate? <==> |all| < 3)
      && (job.Endpoints? ==>
            && job.voters.Keys == all - {m} && 2 * |job.voters| > |all|
            && forall k :: k in job.voters ==>
                 job.voters[k] == if Lookup(candidates, k) == "" then plan.addresses[k] else Lookup(candidates, k))
  {
    var m := plan.migration.value.member;
    assert "etcd-" <= "etcd-" + site + "-";
    var voters := Voters(plan.addresses);
    var others := OtherVoters(plan.addresses, candidates, m);
    assert others.Keys == voters - {m};
    assert |others| == |others.Keys| == |voters| - 1;
  }

  /** A site has nothing to do for the voters of other sites, nor without a migration. */
  lemma OnlyOwnVoters(site: string, plan: Plan, candidates: map<string, string>, job: Job)
    requires IsJob(site, plan, candidates, job)
    ensures job.NoJob? <==> plan.migration.None? || !("etcd-" + site + "-" <= plan.migration.value.member)
  {
  }
}
