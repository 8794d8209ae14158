/**
  Runs that reach what the safety results exclude: deleting an upgrade can outrun the capture
  of rollback artifacts, and can leave a site serving writes while another one destroys data.
*/
module MajorUpgradeWitness {
  import opened Common
  import opened UpgradePhases
  import opened MajorUpgrade
  import opened MajorUpgradeAgent
  import opened MajorUpgradeSafety
  import P = PlanProtocol

  ghost predicate Reachable(sites: Sites, s: State) {
    exists states, events :: Run(sites, states, events) && states[|events|] == s
  }

  lemma ReachStep(sites: Sites, s: State, e: Event) returns (t: State)
    requires Reachable(sites, s) && Enabled(sites, s, e)
    ensures t == Do(sites, s, e) && Reachable(sites, t)
  {
    t := Do(sites, s, e);
    var states, events :| Run(sites, states, events) && states[|events|] == s;
    var longer, more := states + [t], events + [e];
    forall i | 0 <= i < |more| ensures Next(sites, longer[i], more[i], longer[i + 1]) {
      if i < |events| { assert Next(sites, states[i], events[i], states[i + 1]); }
    }
    assert Run(sites, longer, more) && longer[|more|] == t;
  }

  lemma ReachInv(sites: Sites, s: State)
    requires Reachable(sites, s)
    ensures Inv(sites, s)
  {
    var states, events :| Run(sites, states, events) && states[|events|] == s;
    RunKeeps(sites, states, events, |events|);
  }

  /** Two data sites with one PostgreSQL member each. */
  const PAIR: Sites := map["a" := SiteSpec(true, {"postgres-a-0"}), "b" := SiteSpec(true, {"postgres-b-0"})]
  const BODIES: map<string, int> := map["a" := 0, "b" := 0]

  /** The parts of the invariant that the construction below reads. */
  lemma Facts(s: State)
    requires Reachable(PAIR, s)
    ensures
      var h := s.sys.hub;
      && |s.sys.issued| == h.active + 1
      && (h.active == 0 ==> h.sites == map[] && h.fingerprint.None?)
      && (h.active > 0 ==> h.sites.Keys == PAIR.Keys && h.plans.Keys == PAIR.Keys)
      && (forall n :: n in h.sites ==> h.sites[n].desired == h.active)
      && (forall n :: n in h.plans ==> h.plans[n].revision == h.active && h.plans[n].tag == s.sys.issued[h.active])
      && (forall n :: n in s.sys.cache ==> s.sys.cache[n].revision <= h.active)
      && (h.active > 0 ==> h.fingerprint.Some? && h.fingerprint.value.1 == s.sys.issued[h.active])
  {
    ReachInv(PAIR, s);
    forall n | n in s.sys.cache ensures s.sys.cache[n].revision <= s.sys.hub.active {
      assert P.GenuinePlan(s.sys.issued, s.sys.cache[n]);
    }
  }

  /** The hub asks for `tag`, every site applied the last revision, and that one carries `held`. */
  ghost predicate At(s: State, tag: Tag, held: Tag) {
    && Reachable(PAIR, s) && s.sys.hub.tag == tag && held != tag
    && Agreed(s, held)
    && s.expected == s.sys.hub.active + 1 && s.recent == [held, tag]
    && s.deleting == {} && s.ended == {}
    && (tag.Some? && Rank(tag.value.phase) <= Rank(Snapshot) ==> s.artifacts == {})
  }

  /** Both sites hold and applied the active revision, which carries `held`. */
  predicate Agreed(s: State, held: Tag) {
    var h := s.sys.hub;
    && h.active >= 1 && h.fingerprint == Some((0, held))
    && h.sites.Keys == PAIR.Keys
    && (forall n :: n in PAIR ==> h.sites[n].applied == h.active && !h.sites[n].failed)
    && (forall n :: n in PAIR ==> n in s.sys.cache && s.sys.cache[n].tag == held)
  }

  predicate SameUpgrade(s: State, t: State) {
    && t.expected == s.expected && t.deleting == s.deleting && t.ended == s.ended && t.recent == s.recent
  }

  /** One site receives and caches the stored plan. */
  lemma Deliver(s: State, n: string) returns (t: State)
    requires Reachable(PAIR, s) && n in PAIR && n in s.sys.hub.plans
    requires s.sys.hub.plans[n].revision >= 1
    requires n in s.sys.cache ==> s.sys.cache[n].revision < s.sys.hub.plans[n].revision
    ensures Reachable(PAIR, t) && SameUpgrade(s, t) && t.done == s.done && t.artifacts == s.artifacts
    ensures
      && t.sys.hub == s.sys.hub && t.sys.issued == s.sys.issued
      && t.sys.cache == s.sys.cache[n := s.sys.hub.plans[n]]
  {
    Facts(s);
    var s1 := ReachStep(PAIR, s, Protocol(P.Send(n)));
    t := ReachStep(PAIR, s1, Protocol(P.Receive(n, s.sys.hub.plans[n])));
  }

  /** One site finishes the work of its plan and is recorded as having applied it. */
  lemma Finish(s: State, n: string) returns (t: State)
    requires Reachable(PAIR, s) && n in s.sys.cache && n in s.sys.hub.sites && s.sys.hub.active < |s.sys.issued|
    requires s.sys.cache[n].revision == s.sys.hub.sites[n].desired
    requires
      var tag := s.sys.cache[n].tag;
      tag.Some? && tag.value.phase == Snapshot ==> SiteCaptured(PAIR, s.artifacts, n, tag.value.uid)
    ensures Reachable(PAIR, t) && SameUpgrade(s, t) && t.artifacts == s.artifacts
    ensures
      && t.sys.hub == s.sys.hub.(sites := s.sys.hub.sites[n :=
                        s.sys.hub.sites[n].(applied := s.sys.cache[n].revision, failed := false)])
      && t.sys.issued == s.sys.issued && t.sys.cache == s.sys.cache
  {
    var s1 := s;
    if s.sys.cache[n].tag.Some? {
      s1 := ReachStep(PAIR, s, FinishLocal(n));
    }
    var s2 := ReachStep(PAIR, s1, Protocol(P.Report(n)));
    t := ReachStep(PAIR, s2, Protocol(P.RecordResult(n, s.sys.cache[n].revision, false)));
  }

  lemma IssueRevision(s: State) returns (t: State)
    requires Reachable(PAIR, s) && s.sys.hub.fingerprint != Some((0, s.sys.hub.tag))
    ensures Reachable(PAIR, t) && SameUpgrade(s, t) && t.artifacts == s.artifacts
    ensures t.sys.hub == P.ReconcileInstance(s.sys.hub, PAIR.Keys, 0, BODIES, false)
    ensures t.sys.hub.active == s.sys.hub.active + 1 && t.sys.cache == s.sys.cache
    ensures t.sys.hub.plans.Keys == PAIR.Keys && t.sys.hub.sites.Keys == PAIR.Keys
    ensures forall n :: n in PAIR ==> t.sys.hub.plans[n] == P.Plan(t.sys.hub.active, s.sys.hub.tag, 0)
    ensures forall n :: n in s.sys.cache ==> s.sys.cache[n].revision < t.sys.hub.active
    ensures |t.sys.issued| == t.sys.hub.active + 1
  {
    Facts(s);
    t := ReachStep(PAIR, s, Protocol(P.Pass(0, BODIES, false)));
  }

  function MemberOf(n: string): string { if n == "a" then "postgres-a-0" else "postgres-b-0" }

  /** In the Snapshot phase a site captures its claim. */
  lemma CaptureIfAsked(s: State, n: string) returns (t: State)
    requires Reachable(PAIR, s) && n in PAIR && n in s.sys.cache && s.sys.hub.active < |s.sys.issued|
    ensures Reachable(PAIR, t) && SameUpgrade(s, t) && t.sys == s.sys
    ensures
      var tag := s.sys.cache[n].tag;
      if tag.Some? && tag.value.phase == Snapshot then SiteCaptured(PAIR, t.artifacts, n, tag.value.uid)
      else t.artifacts == s.artifacts
  {
    t := s;
    if s.sys.cache[n].tag.Some? && s.sys.cache[n].tag.value.phase == Snapshot {
      assert PAIR[n].members == {MemberOf(n)};
      t := ReachStep(PAIR, s, Capture(n, MemberOf(n)));
    }
  }

  /** One site receives the stored plan, does its work and is recorded as having applied it. */
  lemma ApplyAt(s: State, n: string) returns (t: State)
    requires Reachable(PAIR, s) && n in PAIR && n in s.sys.hub.plans && n in s.sys.hub.sites
    requires s.sys.hub.plans[n].revision >= 1 && s.sys.hub.active < |s.sys.issued|
    requires s.sys.hub.plans[n].revision == s.sys.hub.sites[n].desired
    requires n in s.sys.cache ==> s.sys.cache[n].revision < s.sys.hub.plans[n].revision
    ensures Reachable(PAIR, t) && SameUpgrade(s, t)
    ensures (s.sys.hub.plans[n].tag.Some? && s.sys.hub.plans[n].tag.value.phase == Snapshot) || t.artifacts == s.artifacts
    ensures
      && t.sys.hub == s.sys.hub.(sites := s.sys.hub.sites[n :=
                        s.sys.hub.sites[n].(applied := s.sys.hub.plans[n].revision, failed := false)])
      && t.sys.issued == s.sys.issued && t.sys.cache == s.sys.cache[n := s.sys.hub.plans[n]]
  {
    var s1 := Deliver(s, n);
    var s2 := CaptureIfAsked(s1, n);
    t := Finish(s2, n);
  }

  /** The hub issues its tag and both sites apply it. */
  lemma BothApply(s: State) returns (t: State)
    requires Reachable(PAIR, s) && s.sys.hub.fingerprint != Some((0, s.sys.hub.tag))
    ensures Reachable(PAIR, t) && SameUpgrade(s, t)
    ensures (s.sys.hub.tag.Some? && s.sys.hub.tag.value.phase == Snapshot) || t.artifacts == s.artifacts
    ensures t.sys.hub.tag == s.sys.hub.tag && t.sys.hub.active == s.sys.hub.active + 1
    ensures |t.sys.issued| == t.sys.hub.active + 1 && Agreed(t, s.sys.hub.tag)
  {
    var s1 := IssueRevision(s);
    var s2 := ApplyAt(s1, "a");
    t := ApplyAt(s2, "b");
    assert t.sys.hub.sites.Keys == PAIR.Keys;
  }

  lemma ReachPreflight(uid: string) returns (s: State)
    ensures At(s, Some(Owner(uid, "postgres-a-0", Preflight)), None)
  {
    var s0 := Init();
    var none: seq<Event> := [];
    assert PAIR != map[] by { assert "a" in PAIR; }
    assert Run(PAIR, [s0], none) && [s0][|none|] == s0;
    var s1 := BothApply(s0);
    var s2 := ReachStep(PAIR, s1, Protocol(P.Pass(0, BODIES, true)));
    assert s2.sys.hub.sites.Keys == PAIR.Keys;
    assert P.AllSitesApplied(s2.sys.hub.sites, s2.sys.hub.active);
    Facts(s2);
    s := ReachStep(PAIR, s2, Begin(uid, "postgres-a-0"));
  }

  lemma AgreedIsApplied(s: State, held: Tag)
    requires Agreed(s, held) && s.expected <= s.sys.hub.active
    ensures PhaseApplied(s) && !AnyFailed(s.sys.hub.sites)
  {
    assert "a" in s.sys.hub.sites;
  }

  lemma NextPhase(s: State, o: Owner, held: Tag, p: Phase) returns (t: State)
    requires At(s, Some(o), held) && Successor(o.phase) == Some(p)
    requires Rank(o.phase) < Rank(StartPrimary)
    ensures At(t, Some(o.(phase := p)), Some(o))
  {
    var s1 := BothApply(s);
    t := AdvanceFrom(s1, o, p);
  }

  lemma AdvanceFrom(s: State, o: Owner, p: Phase) returns (t: State)
    requires Reachable(PAIR, s) && Agreed(s, Some(o)) && s.sys.hub.tag == Some(o) && s.deleting == {} && s.ended == {}
    requires s.expected <= s.sys.hub.active && |s.sys.issued| == s.sys.hub.active + 1
    requires Successor(o.phase) == Some(p) && Rank(o.phase) < Rank(StartPrimary)
    requires Rank(p) <= Rank(Snapshot) ==> s.artifacts == {}
    ensures At(t, Some(o.(phase := p)), Some(o))
  {
    AgreedAdvances(s, o, p);
    t := ReachStep(PAIR, s, UpgradePass(true, true));
    assert s.sys.issued[s.sys.hub.active] == Some(o) by { Facts(s); }
  }

  lemma AgreedAdvances(s: State, o: Owner, p: Phase)
    requires Agreed(s, Some(o)) && s.expected <= s.sys.hub.active < |s.sys.issued| && s.sys.hub.tag == Some(o)
    requires Successor(o.phase) == Some(p) && Rank(o.phase) < Rank(StartPrimary)
    ensures
      var t := Act(s, Decide(s, true, true));
      && t == MoveOn(s, Some(o.(phase := p)))
      && t.sys.hub.active == s.sys.hub.active && t.sys.hub.sites == s.sys.hub.sites && t.sys.cache == s.sys.cache
  {
    AgreedIsApplied(s, Some(o));
    SuccessorReaches(o.phase);
  }

  function Before(p: Phase): Phase {
    match p
    case Drain => Preflight
    case Stop => Drain
    case Snapshot => Stop
    case UpgradePrimary => Snapshot
    case StanzaUpgrade => UpgradePrimary
    case _ => StanzaUpgrade
  }

  /** A healthy upgrade of two sites reaches each of the phases up to StartPrimary. */
  lemma {:induction false} ReachPhase(uid: string, p: Phase) returns (s: State, held: Tag)
    requires Rank(p) <= Rank(StartPrimary)
    ensures At(s, Some(Owner(uid, "postgres-a-0", p)), held)
    ensures p == Drain ==> held == Some(Owner(uid, "postgres-a-0", Preflight))
    ensures held.Some? ==> held.value.phase != Rollback
    decreases Rank(p)
  {
    if p == Preflight {
      s := ReachPreflight(uid);
      held := None;
    } else {
      var before := Before(p);
      var s0, held0 := ReachPhase(uid, before);
      held := Some(Owner(uid, "postgres-a-0", before));
      s := NextPhase(s0, held.value, held0, p);
    }
  }

  lemma DeleteAt(s: State, o: Owner, held: Tag) returns (t: State)
    requires At(s, Some(o), held) && DecideDeletion(o.phase, false) == EnterRollback
    ensures Reachable(PAIR, t)
    ensures t.sys == s.sys.(hub := s.sys.hub.(tag := Some(o.(phase := Rollback))))
    ensures t.artifacts == s.artifacts && t.deleting == {o.uid}
    ensures t.recent == s.recent + [Some(o.(phase := Rollback))]
  {
    Facts(s);
    var s1 := ReachStep(PAIR, s, RequestDeletion(o.uid));
    t := ReachStep(PAIR, s1, DeletionPass(false));
  }

  /**
    Deleting an upgrade in Drain, Stop or Snapshot starts a rollback that no artifact covers.
    Together with `DeletionRollbackIsCovered`, a rollback by deletion is sure to be covered
    exactly when it leaves UpgradePrimary, StanzaUpgrade or StartPrimary.
  */
  lemma DeletionOutrunsCapture(uid: string, p: Phase) returns (s: State)
    requires p == Drain || p == Stop || p == Snapshot
    ensures Reachable(PAIR, s)
    ensures s.sys.hub.tag == Some(Owner(uid, "postgres-a-0", Rollback))
    ensures forall n :: n in PAIR ==> !SiteCaptured(PAIR, s.artifacts, n, uid)
  {
    var s0, held := ReachPhase(uid, p);
    s := DeleteAt(s0, Owner(uid, "postgres-a-0", p), held);
    assert "postgres-a-0" in PAIR["a"].members && "postgres-b-0" in PAIR["b"].members;
  }

  /** Deleted while draining: one site may delete its claims while the other one still serves writes. */
  lemma DrainDeletionCanServe(uid: string) returns (s: State)
    ensures Reachable(PAIR, s) && DeletedWhileDraining(s.recent)
    ensures Destructive(s, "a") && "b" in s.sys.cache && !WriteServiceStopped(s.sys.cache["b"].tag)
  {
    var s0, held := ReachPhase(uid, Drain);
    var o := Owner(uid, "postgres-a-0", Drain);
    var s1 := DeleteAt(s0, o, held);
    var s2 := IssueRevision(s1);
    s := Deliver(s2, "a");
  }

  /**
    An upgrade whose phase one site has accepted is abandoned, and the other site accepts the plan
    without it.
  */
  lemma AbandonAt(uid: string, p: Phase) returns (s: State)
    requires Rank(Drain) < Rank(p) <= Rank(StartPrimary)
    ensures Reachable(PAIR, s) && Released(s.recent) && "a" in s.sys.cache && "b" in s.sys.cache
    ensures s.sys.cache["a"].tag == Some(Owner(uid, "postgres-a-0", p)) && s.sys.cache["b"].tag == None
  {
    var s0, held := ReachPhase(uid, p);
    var s1 := IssueRevision(s0);
    var s2 := Deliver(s1, "a");
    var s4 := Abandon(s2, Owner(uid, "postgres-a-0", p));
    var s5 := IssueRevision(s4);
    s := Deliver(s5, "b");
  }

  lemma Abandon(s: State, o: Owner) returns (t: State)
    requires Reachable(PAIR, s) && s.sys.hub.tag == Some(o) && s.sys.hub.fingerprint == Some((0, Some(o)))
    ensures Reachable(PAIR, t) && t.sys == s.sys.(hub := s.sys.hub.(tag := None)) && t.recent == s.recent + [None]
  {
    Facts(s);
    var s1 := ReachStep(PAIR, s, RequestDeletion(o.uid));
    t := ReachStep(PAIR, s1, DeletionPass(true));
  }

  /** Abandoned during conversion: one site still converts the primary while the other one serves writes. */
  lemma ReleasedUpgradeCanServe(uid: string) returns (s: State)
    ensures Reachable(PAIR, s) && Released(s.recent)
    ensures Destructive(s, "a") && s.sys.cache["a"].tag.value.phase == UpgradePrimary
    ensures "b" in s.sys.cache && !WriteServiceStopped(s.sys.cache["b"].tag)
  {
    s := AbandonAt(uid, UpgradePrimary);
  }

  /**
    Abandoned after the start of the primary: it runs the target version on one site, while the other
    site runs its member with the version of the specification.
  */
  lemma ReleasedUpgradeMixesVersions(uid: string) returns (s: State)
    ensures Reachable(PAIR, s) && Released(s.recent) && "a" in s.sys.cache && "b" in s.sys.cache
    ensures
      var x, y := s.sys.cache["a"].tag, s.sys.cache["b"].tag;
      && !MemberStopped(x, "postgres-a-0") && RunsTarget(x, "postgres-a-0")
      && !MemberStopped(y, "postgres-b-0") && !RunsTarget(y, "postgres-b-0")
  {
    s := AbandonAt(uid, StartPrimary);
  }
}
