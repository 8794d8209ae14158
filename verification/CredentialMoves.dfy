/**
  What the plan after a Member plan changes, in every situation: with a moved primary, with another
  staged version, and with nothing staged any more.
*/
module CredentialMoves {
  import opened Common
  import opened Names
  import opened CredentialRotation
  import opened CredentialRuns

  /** The members whose rendered version differs between the current plan and another one. */
  function Changed(t: Topology, s: State, next: Option<Rotation>): set<string> {
    set m | m in t.members && t.members[m] < |s.sites| &&
            Rendered(t, s, m) != RenderedVersion(next, s.sites[t.members[m]].active, m)
  }

  /** Every site applied a Member plan, and the members it names are those reported as updated. */
  ghost predicate MemberApplied(t: Topology, s: State, r: Rotation) {
    && Declares(t) && (forall m :: m in t.members ==> t.members[m] < |s.sites|)
    && s.plan == Some(r) && r.phase == Member && Applied(s)
    && r.previous >= 1 && r.version >= 1 && r.previous != r.version
    && UpdatedMembers(s.sites, r.version) == r.updated + {r.target} <= t.members.Keys
  }

  /**
    The members that a next plan moves besides its target, from what the sites reported and staged.
    Without a staged version, or with the previous one staged again, every site falls back to its
    own active version. With a version whose catalog is not reported by the primary's site, all
    updated members go back. With yet another version, those listed for it move as well.
  */
  ghost function Disturbed(t: Topology, s: State, r: Rotation, standbys: seq<string>): set<string> {
    var done := r.updated + {r.target};
    var w := StagedVersion(s.sites);
    var listed := UpdatedMembers(s.sites, w);
    var missing := FirstMissing(MemberOrder(standbys, t.expected, s.primary), listed);
    if w == 0 || w == r.previous then
      set m | m in t.members && t.members[m] < |s.sites| &&
              s.sites[t.members[m]].active != if m in done then r.version else r.previous
    else if !CatalogUpdated(s.sites, s.primary, w) then done
    else if w == r.version then {}
    else done + listed * t.members.Keys + (if missing.Some? then {missing.value} * t.members.Keys else {})
  }

  lemma NamesAreNotEmpty(t: Topology)
    requires Declares(t)
    ensures "" !in t.members
  {
    assert !("postgres-" <= "");
  }

  /** The changed members are the disturbed ones, or, if there are none, the new target alone. */
  lemma ChangedExactly(t: Topology, s: State, r: Rotation, standbys: seq<string>)
    requires MemberApplied(t, s, r)
    ensures
      var next := NextPlan(t, s, standbys, false);
      var w := StagedVersion(s.sites);
      var changed := Changed(t, s, next);
      if w == r.version && CatalogUpdated(s.sites, s.primary, w)
      then next.Some? && changed <= {next.value.target}
      else changed == Disturbed(t, s, r, standbys)
  {
    NamesAreNotEmpty(t);
  }

  /**
    The plan that follows an applied Member plan changes one member at most exactly when it disturbs
    one member at most. While the version stays staged and the primary's site reports its catalog,
    it disturbs nobody; when that site does not report the catalog, it disturbs all updated members.
  */
  lemma NextChangesOneExactly(t: Topology, s: State, r: Rotation, standbys: seq<string>)
    requires MemberApplied(t, s, r)
    ensures |Changed(t, s, NextPlan(t, s, standbys, false))| <= 1 <==> |Disturbed(t, s, r, standbys)| <= 1
  {
    ChangedExactly(t, s, r, standbys);
    var next := NextPlan(t, s, standbys, false);
    if StagedVersion(s.sites) == r.version && CatalogUpdated(s.sites, s.primary, r.version) {
      SubsetSize(Changed(t, s, next), {next.value.target});
    }
  }

  // ------------------------------------------------------------------------------------
  // From a staged, unrotated instance to the failing case
  // ------------------------------------------------------------------------------------

  ghost predicate Reaches(t: Topology, s: State, s': State) {
    exists ss, es :: Run(t, ss, es) && ss[0] == s && ss[|es|] == s'
  }

  lemma ReachSelf(t: Topology, s: State)
    ensures Reaches(t, s, s)
  {
    var none: seq<Event> := [];
    assert Run(t, [s], none) && [s][0] == s && [s][|none|] == s;
  }

  lemma ReachStep(t: Topology, s: State, s': State, e: Event)
    requires Reaches(t, s, s') && Enabled(t, s', e)
    ensures Reaches(t, s, Do(t, s', e))
  {
    var ss, es :| Run(t, ss, es) && ss[0] == s && ss[|es|] == s';
    var longer, more := ss + [Do(t, s', e)], es + [e];
    assert Run(t, longer, more) && longer[0] == s && longer[|more|] == Do(t, s', e);
  }

  /** The same primary, and no new catalog report but from the primary's site. */
  predicate Stays(s: State, s': State, home: nat) {
    && s'.primary == s.primary && |s'.sites| == |s.sites|
    && forall i :: 0 <= i < |s.sites| && i != home ==> s'.sites[i].catalog == s.sites[i].catalog
  }

  /** A state of a stable rotation that a run reaches. */
  ghost predicate Reached(t: Topology, start: State, s: State, v: nat, p: nat) {
    Reaches(t, start, s) && StableInv(t, s, v, p)
  }

  lemma ReportOne(t: Topology, start: State, s: State, v: nat, p: nat, i: nat) returns (s': State)
    requires Reached(t, start, s, v, p) && i < |s.sites|
    ensures Reached(t, start, s', v, p) && Stays(s, s', t.members[s.primary])
    ensures s'.plan == s.plan && s'.reported == s.reported + {i}
  {
    var e := Report(i, BelongsToSite(s.primary, s.sites[i].name), true);
    s' := Do(t, s, e);
    assert Reaches(t, start, s') by { ReachStep(t, start, s, e); }
    assert StableInv(t, s', v, p) by { StableReportKeeps(t, s, v, p, e); }
    assert Stays(s, s', t.members[s.primary]) by { CatalogAfterReport(t, s, v, p, e); }
  }

  predicate ReportedUpTo(s: State, n: nat) { forall i :: 0 <= i < n ==> i in s.reported }

  lemma StaysTransitive(a: State, b: State, c: State, home: nat)
    requires Stays(a, b, home) && Stays(b, c, home)
    ensures Stays(a, c, home)
  {
  }

  /** All sites up to the n-th report the current plan. */
  lemma {:induction false} ReportUpTo(t: Topology, start: State, s: State, v: nat, p: nat, n: nat) returns (s': State)
    requires Reached(t, start, s, v, p) && n <= |s.sites|
    ensures Reached(t, start, s', v, p) && Stays(s, s', t.members[s.primary])
    ensures s'.plan == s.plan && ReportedUpTo(s', n)
  {
    if n == 0 {
      s' := s;
    } else {
      var before := ReportUpTo(t, start, s, v, p, n - 1);
      s' := ReportNext(t, start, before, v, p, n - 1);
      StaysTransitive(s, before, s', t.members[s.primary]);
    }
  }

  lemma ReportNext(t: Topology, start: State, s: State, v: nat, p: nat, n: nat) returns (s': State)
    requires Reached(t, start, s, v, p) && n < |s.sites| && ReportedUpTo(s, n)
    ensures Reached(t, start, s', v, p) && Stays(s, s', t.members[s.primary])
    ensures s'.plan == s.plan && ReportedUpTo(s', n + 1)
  {
    s' := ReportOne(t, start, s, v, p, n);
  }

  lemma CatalogAfterReport(t: Topology, s: State, v: nat, p: nat, e: Event)
    requires Setting(t, s, v, p) && Enabled(t, s, e) && Stable(t, s, e) && e.Report?
    ensures forall i :: 0 <= i < |s.sites| && i != t.members[s.primary] ==> Do(t, s, e).sites[i].catalog == s.sites[i].catalog
  {
  }

  /** While the catalog or a member is planned, the next plan is for a missing member. */
  lemma NextMemberPlan(t: Topology, s: State, v: nat, p: nat)
    requires StableInv(t, s, v, p) && s.plan.Some? && Applied(s)
    requires s.plan.value.phase == Catalog || s.plan.value.phase == Member
    requires !(t.members.Keys <= UpdatedMembers(s.sites, v))
    ensures
      var s' := Do(t, s, Pass([], false));
      && s'.plan.Some? && s'.plan.value.phase == Member && s'.plan.value.updated == UpdatedMembers(s.sites, v)
      && s'.sites == s.sites && s'.primary == s.primary
  {
    NextWhileStaged(t, s, v, p, []);
  }

  /** Members with the new version once every site applied the plan. */
  function DoneCount(plan: Option<Rotation>): nat {
    if plan.Some? && plan.value.phase == Member then |plan.value.updated| + 1 else 0
  }

  lemma AppliedCount(t: Topology, s: State, v: nat, p: nat)
    requires StableInv(t, s, v, p) && Applied(s) && s.plan.Some?
    requires s.plan.value.phase == Catalog || s.plan.value.phase == Member
    ensures |UpdatedMembers(s.sites, v)| == DoneCount(s.plan)
  {
    if s.plan.value.phase == Member {
      OneMoreDone(t, s, v, p);
    }
  }

  /** Every site applies the plan, and the hub plans the next member. */
  lemma ApplyAndPass(t: Topology, start: State, s: State, v: nat, p: nat) returns (s': State)
    requires Reached(t, start, s, v, p) && s.plan.Some? && DoneCount(s.plan) < |t.members.Keys|
    requires s.plan.value.phase == Catalog || s.plan.value.phase == Member
    ensures Reached(t, start, s', v, p) && Stays(s, s', t.members[s.primary])
    ensures s'.plan.Some? && s'.plan.value.phase == Member && |s'.plan.value.updated| == DoneCount(s.plan)
  {
    var applied := ReportUpTo(t, start, s, v, p, |s.sites|);
    assert Applied(applied);
    s' := PassFrom(t, start, applied, v, p);
  }

  lemma PassFrom(t: Topology, start: State, s: State, v: nat, p: nat) returns (s': State)
    requires Reached(t, start, s, v, p) && s.plan.Some? && Applied(s) && DoneCount(s.plan) < |t.members.Keys|
    requires s.plan.value.phase == Catalog || s.plan.value.phase == Member
    ensures Reached(t, start, s', v, p) && s'.sites == s.sites && s'.primary == s.primary
    ensures s'.plan.Some? && s'.plan.value.phase == Member && |s'.plan.value.updated| == DoneCount(s.plan)
  {
    var pass := Pass([], false);
    s' := Do(t, s, pass);
    AppliedCount(t, s, v, p);
    FewUpdated(t, UpdatedMembers(s.sites, v), DoneCount(s.plan));
    NextMemberPlan(t, s, v, p);
    assert Reaches(t, start, s') by { ReachStep(t, start, s, pass); }
    assert StableInv(t, s', v, p) by { StablePassKeeps(t, s, v, p, pass); }
  }

  /** Catalog first: the plan of an unrotated instance. */
  lemma FirstPlan(t: Topology, s: State, v: nat, p: nat) returns (s': State)
    requires Start(t, s, v, p) && s.sites[t.members[s.primary]].catalog != v
    ensures Reached(t, s, s', v, p) && Stays(s, s', t.members[s.primary])
    ensures s'.plan.Some? && s'.plan.value.phase == Catalog
  {
    var pass := Pass([], false);
    s' := Do(t, s, pass);
    NextWhileStaged(t, s, v, p, []);
    assert Reaches(t, s, s') by {
      ReachSelf(t, s);
      ReachStep(t, s, s, pass);
    }
    assert StableInv(t, s', v, p) by { StablePassKeeps(t, s, v, p, pass); }
  }

  /** A rotation of three members or more, not yet reported anywhere, gets to two updated members. */
  lemma ReachTwoUpdated(t: Topology, s: State, v: nat, p: nat) returns (s': State)
    requires Start(t, s, v, p) && |t.members.Keys| >= 3
    requires forall i :: 0 <= i < |s.sites| ==> s.sites[i].catalog != v
    ensures Reached(t, s, s', v, p) && Stays(s, s', t.members[s.primary]) && Applied(s')
    ensures s'.plan.Some? && s'.plan.value.phase == Member && DoneCount(s'.plan) == 2
  {
    var planned := ReachSecondPlan(t, s, v, p);
    s' := ReportUpTo(t, s, planned, v, p, |planned.sites|);
    StaysTransitive(s, planned, s', t.members[s.primary]);
  }

  lemma ReachFirstPlan(t: Topology, s: State, v: nat, p: nat) returns (s': State)
    requires Start(t, s, v, p) && |t.members.Keys| >= 3 && s.sites[t.members[s.primary]].catalog != v
    ensures Reached(t, s, s', v, p) && Stays(s, s', t.members[s.primary])
    ensures s'.plan.Some? && s'.plan.value.phase == Member && |s'.plan.value.updated| == 0
  {
    var planned := FirstPlan(t, s, v, p);
    s' := ApplyAndPass(t, s, planned, v, p);
    StaysTransitive(s, planned, s', t.members[s.primary]);
  }

  lemma ReachSecondPlan(t: Topology, s: State, v: nat, p: nat) returns (s': State)
    requires Start(t, s, v, p) && |t.members.Keys| >= 3 && s.sites[t.members[s.primary]].catalog != v
    ensures Reached(t, s, s', v, p) && Stays(s, s', t.members[s.primary])
    ensures s'.plan.Some? && s'.plan.value.phase == Member && |s'.plan.value.updated| == 1
  {
    var planned := ReachFirstPlan(t, s, v, p);
    s' := ApplyAndPass(t, s, planned, v, p);
    StaysTransitive(s, planned, s', t.members[s.primary]);
  }

  lemma FewUpdated(t: Topology, done: set<string>, n: nat)
    requires |done| <= n < |t.members.Keys|
    ensures !(t.members.Keys <= done)
  {
    if t.members.Keys <= done {
      SubsetSize(t.members.Keys, done);
    }
  }

  /** An applied Member plan has added its target to the updated members. */
  lemma OneMoreDone(t: Topology, s: State, v: nat, p: nat)
    requires StableInv(t, s, v, p) && Applied(s) && s.plan.Some? && s.plan.value.phase == Member
    ensures UpdatedMembers(s.sites, v) == s.plan.value.updated + {s.plan.value.target}
    ensures |UpdatedMembers(s.sites, v)| == |s.plan.value.updated| + 1
    ensures MemberApplied(t, s, s.plan.value)
  {
  }

  lemma ReachMoved(t: Topology, s: State, v: nat, p: nat, to: string) returns (moved: State, r: Rotation)
    requires Start(t, s, v, p) && |t.members.Keys| >= 3
    requires forall i :: 0 <= i < |s.sites| ==> s.sites[i].catalog != v
    requires to in t.members && t.members[to] != t.members[s.primary]
    ensures Reaches(t, s, moved) && moved.primary == to && MemberApplied(t, moved, r)
    ensures !CatalogUpdated(moved.sites, to, v) && StagedVersion(moved.sites) == v == r.version && r.previous == p
    ensures |r.updated + {r.target}| == 2
  {
    var two := ReachTwoUpdated(t, s, v, p);
    r := two.plan.value;
    moved := Do(t, two, Observe(to));
    assert Reaches(t, s, moved) by { ReachStep(t, s, two, Observe(to)); }
    MovedPlan(t, two, v, p, to);
  }

  /**
    From every staged, unrotated instance of three members or more: once two members have the new
    version, the primary need only be observed on a site that has not reported the catalog, and the
    next plan takes both members back to the previous version.
  */
  lemma PrimaryMoveRevertsMembers(t: Topology, s: State, v: nat, p: nat, to: string, standbys: seq<string>)
    returns (moved: State, r: Rotation)
    requires Start(t, s, v, p) && |t.members.Keys| >= 3
    requires forall i :: 0 <= i < |s.sites| ==> s.sites[i].catalog != v
    requires to in t.members && t.members[to] != t.members[s.primary]
    ensures Reaches(t, s, moved) && MemberApplied(t, moved, r) && moved.primary == to
    ensures
      var next := NextPlan(t, moved, standbys, false);
      && next == Some(Rotation(v, p, Catalog, "", {}))
      && Changed(t, moved, next) == r.updated + {r.target} && |r.updated + {r.target}| == 2
  {
    assert v >= 1 && p >= 1 && v != p;
    moved, r := ReachMoved(t, s, v, p, to);
    ChangedExactly(t, moved, r, standbys);
  }

  /** The primary moves while a Member plan is applied: its catalog is not reported there. */
  lemma MovedPlan(t: Topology, s: State, v: nat, p: nat, to: string)
    requires StableInv(t, s, v, p) && Applied(s) && s.plan.Some? && s.plan.value.phase == Member
    requires to in t.members && s.sites[t.members[to]].catalog != v
    ensures
      var moved := s.(primary := to);
      && MemberApplied(t, moved, s.plan.value) && !CatalogUpdated(moved.sites, to, v)
      && StagedVersion(moved.sites) == v == s.plan.value.version && s.plan.value.previous == p
      && |s.plan.value.updated + {s.plan.value.target}| == DoneCount(s.plan)
  {
    OneMoreDone(t, s, v, p);
    MovedHome(t, s, s.(primary := to), v, p, to);
  }

  lemma MovedHome(t: Topology, s: State, moved: State, v: nat, p: nat, to: string)
    requires Setting(t, s, v, p) && to in t.members && moved == s.(primary := to)
    requires s.sites[t.members[to]].catalog != v
    ensures !CatalogUpdated(moved.sites, to, v)
  {
    assert to != "" by { NamesAreNotEmpty(t); }
    assert Setting(t, moved, v, p);
    PrimaryHome(t, moved, v, p);
  }

  /** Two members on the first of two sites, the primary among them, and one on the second. */
  function Unrotated(a0: string, a1: string, b0: string): (Topology, State) {
    (Topology(map[a0 := 0, a1 := 0, b0 := 1], [a0, a1, b0]),
     State([Site("a", false, 2, 1, 0, None, 0), Site("b", false, 2, 1, 0, None, 0)], a0, None, {}, {}))
  }

  lemma UnrotatedStarts(a0: string, a1: string, b0: string)
    requires a0 != a1 && a0 != b0 && a1 != b0 && "postgres-" <= a0 && "postgres-" <= a1 && "postgres-" <= b0
    requires BelongsToSite(a0, "a") && BelongsToSite(a1, "a") && BelongsToSite(b0, "b")
    requires !BelongsToSite(a0, "b") && !BelongsToSite(a1, "b") && !BelongsToSite(b0, "a")
    ensures var (t, s) := Unrotated(a0, a1, b0); Start(t, s, 2, 1)
  {
    var (t, s) := Unrotated(a0, a1, b0);
    assert Setting(t, s, 2, 1);
    assert !s.sites[0].isWitness;
    assert UpdatedMembers(s.sites, 2) == {};
  }

  /** Such an instance exists. */
  lemma UnrotatedInstance() returns (t: Topology, s: State)
    ensures Start(t, s, 2, 1) && |t.members.Keys| >= 3
    ensures forall i :: 0 <= i < |s.sites| ==> s.sites[i].catalog != 2
    ensures |s.sites| == 2 && s.sites[0].name == "a" && s.sites[1].name == "b"
    ensures "postgres-b-0" in t.members && t.members["postgres-b-0"] != t.members[s.primary]
  {
    var a0, a1, b0 := "postgres-a-0", "postgres-a-1", "postgres-b-0";
    MemberNames();
    t, s := Unrotated(a0, a1, b0).0, Unrotated(a0, a1, b0).1;
    assert t.members.Keys == {a0, a1, b0};
    UnrotatedStarts(a0, a1, b0);
  }

  lemma MemberNames()
    ensures "postgres-a-0" != "postgres-a-1" && "postgres-a-0" != "postgres-b-0" && "postgres-a-1" != "postgres-b-0"
    ensures "postgres-" <= "postgres-a-0" && "postgres-" <= "postgres-a-1" && "postgres-" <= "postgres-b-0"
    ensures BelongsToSite("postgres-a-0", "a") && BelongsToSite("postgres-a-1", "a") && BelongsToSite("postgres-b-0", "b")
    ensures !BelongsToSite("postgres-a-0", "b") && !BelongsToSite("postgres-a-1", "b") && !BelongsToSite("postgres-b-0", "a")
  {
    assert "postgres-a-0"[11] != "postgres-a-1"[11];
    assert "postgres-a-0"[9] == "postgres-a-1"[9] == 'a' && "postgres-b-0"[9] == 'b';
    assert ("postgres-" + "a" + "-")[9] == 'a' && ("postgres-" + "b" + "-")[9] == 'b';
  }
}
