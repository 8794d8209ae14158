/**
  What holds in every run of major upgrades, with lost, duplicated and late messages,
  failures, deletions and forced abandonment.
*/
module MajorUpgradeSafety {
  import opened Common
  import opened UpgradePhases
  import opened MajorUpgrade
  import P = PlanProtocol

  predicate Next(sites: Sites, s: State, e: Event, t: State) {
    Enabled(sites, s, e) && t == Do(sites, s, e)
  }

  predicate Run(sites: Sites, states: seq<State>, events: seq<Event>) {
    && sites != map[] && |states| == |events| + 1 && states[0] == Init()
    && forall i :: 0 <= i < |events| ==> Next(sites, states[i], events[i], states[i + 1])
  }

  lemma {:induction false} RunKeeps(sites: Sites, states: seq<State>, events: seq<Event>, i: nat)
    requires Run(sites, states, events) && i < |states|
    ensures Inv(sites, states[i])
  {
    if i == 0 {
      InitInv(sites);
    } else {
      RunKeeps(sites, states, events, i - 1);
      assert Next(sites, states[i - 1], events[i - 1], states[i - 1 + 1]);
      StepKeeps(sites, states[i - 1], events[i - 1]);
    }
  }

  /** A site has reported Ready on a plan that carries this tag. */
  predicate ReportedReady(s: State, site: string, tag: Tag) {
    exists r :: 0 <= r < |s.sys.issued| && s.sys.issued[r] == tag && (site, r) in s.sys.results
  }

  /** The hub left this phase for another one, completed the upgrade or ended its rollback. */
  predicate MovesOn(before: Tag, after: Tag, e: Event) {
    before.Some? && after != before && if after.Some? then after.value.phase != Rollback else e.UpgradePass?
  }

  /**
    In every run, an operation leaves a phase, completes, or ends its rollback only after every
    site reported Ready on a plan that carries the phase it leaves. Entering Rollback and being
    released by deletion are the only moves that wait for nobody.
  */
  lemma PhaseMovesAreWitnessed(sites: Sites, states: seq<State>, events: seq<Event>, i: nat)
    requires Run(sites, states, events) && i < |events|
    ensures
      var before, after := states[i].sys.hub.tag, states[i + 1].sys.hub.tag;
      && (MovesOn(before, after, events[i]) ==> forall n :: n in sites ==> ReportedReady(states[i], n, before))
      && (before.Some? && after != before && !MovesOn(before, after, events[i]) ==>
            if after.Some? then after == Some(before.value.(phase := Rollback)) else events[i].DeletionPass?)
  {
    RunKeeps(sites, states, events, i);
    assert Next(sites, states[i], events[i], states[i + 1]);
    var s := states[i];
    var before, after := s.sys.hub.tag, states[i + 1].sys.hub.tag;
    if before.Some? && after != before {
      MovesFollowDecisions(sites, s, events[i]);
      if MovesOn(before, after, events[i]) {
        AppliedPhaseIsIssued(sites, s);
        forall n | n in sites ensures ReportedReady(s, n, before) {
          assert s.sys.issued[s.sys.hub.active] == before && (n, s.sys.hub.active) in s.sys.results;
        }
      }
    }
  }

  lemma MovesFollowDecisions(sites: Sites, s: State, e: Event)
    requires Enabled(sites, s, e) && s.sys.hub.tag.Some? && Do(sites, s, e).sys.hub.tag != s.sys.hub.tag
    ensures
      var before, after := s.sys.hub.tag, Do(sites, s, e).sys.hub.tag;
      if MovesOn(before, after, e) then PhaseApplied(s)
      else if after.Some? then after == Some(before.value.(phase := Rollback))
      else e.DeletionPass?
  {
    match e
    case Protocol(p) => if !p.Pass? { P.QuietStep(sites.Keys, s.sys, p); }
    case UpgradePass(syncSatisfied, backupReady) =>
      DecisionFollowsChain(s.sys.hub.tag.value.phase, AnyFailed(s.sys.hub.sites), PhaseApplied(s),
                           syncSatisfied, backupReady);
    case _ =>
  }

  /** Whatever a site has accepted is one of the recent tags, and during an operation every site has a plan. */
  lemma AcceptedIsRecent(sites: Sites, s: State, n: string)
    requires Inv(sites, s) && n in sites
    ensures n in s.sys.cache ==> s.sys.cache[n].tag in s.recent
    ensures s.recent != [None] ==> n in s.sys.cache
  {
    assert n in s.sys.cache ==> P.GenuinePlan(s.sys.issued, s.sys.cache[n]);
  }

  /**
    In every run, the plans that any two sites have accepted are at most one forward phase of
    the same operation apart.
  */
  lemma AcceptedPlansAreAdjacent(sites: Sites, states: seq<State>, events: seq<Event>, i: nat, a: string, b: string)
    requires Run(sites, states, events) && i < |states|
    requires a in states[i].sys.cache && b in states[i].sys.cache
    ensures
      var x, y := states[i].sys.cache[a].tag, states[i].sys.cache[b].tag;
      x.Some? && y.Some? && x.value.uid == y.value.uid && Forward(x.value.phase) && Forward(y.value.phase) ==>
        Rank(x.value.phase) <= Rank(y.value.phase) + 1
  {
    var s := states[i];
    var x, y := s.sys.cache[a].tag, s.sys.cache[b].tag;
    assert x in s.recent && y in s.recent && Shape(s.recent) by {
      RunKeeps(sites, states, events, i);
      AcceptedIsRecent(sites, s, a);
      AcceptedIsRecent(sites, s, b);
    }
    if x.Some? && y.Some? && x.value.uid == y.value.uid && Forward(x.value.phase) && Forward(y.value.phase) {
      RecentIsAdjacent(s.recent, x, y);
    }
  }

  lemma RecentIsAdjacent(recent: seq<Tag>, x: Tag, y: Tag)
    requires Shape(recent) && x in recent && y in recent && x.Some? && y.Some?
    requires x.value.uid == y.value.uid && Forward(x.value.phase) && Forward(y.value.phase)
    ensures Rank(x.value.phase) <= Rank(y.value.phase) + 1
  {
    assert x == recent[0] || x == recent[1];
    assert y == recent[0] || y == recent[1];
  }

  /** The local work of the accepted plan may convert the primary, wipe a standby or delete a claim. */
  predicate Destructive(s: State, n: string) {
    n in s.sys.cache && s.sys.cache[n].tag.Some? &&
    var o := s.sys.cache[n].tag.value;
    || o.phase == UpgradePrimary || o.phase == Rollback
    || ((o.phase == Replicas || o.phase == RollbackStart) && (n, o) !in s.done)
  }

  /** The last operation was let go by deleting it, and no other has begun since. */
  predicate Released(recent: seq<Tag>) { |recent| >= 3 && recent[|recent| - 1].None? }

  /** Rollback was entered by deleting the upgrade while it drained writes. */
  predicate DeletedWhileDraining(recent: seq<Tag>) {
    |recent| == 3 && recent[1].Some? && recent[1].value.phase == Drain && recent[2].Some?
  }

  lemma RecentIsDrained(recent: seq<Tag>, x: Tag, y: Tag)
    requires Shape(recent) && !Released(recent) && !DeletedWhileDraining(recent)
    requires x in recent && y in recent && x.Some?
    requires
      || x.value.phase == UpgradePrimary || x.value.phase == Rollback
      || ((x.value.phase == Replicas || x.value.phase == RollbackStart) && x != recent[0])
    ensures WriteServiceStopped(y)
    ensures x.value.phase == UpgradePrimary ==> forall m :: MemberStopped(y, m)
  {
    assert x == recent[0] || x == recent[1] || (|recent| == 3 && x == recent[2]);
    assert y == recent[0] || y == recent[1] || (|recent| == 3 && y == recent[2]);
  }

  /**
    Whenever a site may convert the primary, wipe a standby or delete a claim, every site's
    accepted plan keeps Pgpool at zero; while a site may convert, every PostgreSQL member of
    every site is stopped as well. The upgrade must not have been released, or deleted while
    draining: `ReleasedUpgradeCanServe` and `DrainDeletionCanServe` reach the excluded states.
  */
  lemma DestructiveWorkIsDrained(sites: Sites, states: seq<State>, events: seq<Event>, i: nat, a: string, b: string)
    requires Run(sites, states, events) && i < |states|
    requires Destructive(states[i], a) && b in sites
    requires !Released(states[i].recent) && !DeletedWhileDraining(states[i].recent)
    ensures b in states[i].sys.cache && WriteServiceStopped(states[i].sys.cache[b].tag)
    ensures states[i].sys.cache[a].tag.value.phase == UpgradePrimary ==>
              forall m :: MemberStopped(states[i].sys.cache[b].tag, m)
  {
    var s := states[i];
    var x := s.sys.cache[a].tag;
    assert b in s.sys.cache && x in s.recent && s.sys.cache[b].tag in s.recent && Shape(s.recent) &&
           (x == s.recent[0] ==> (a, x.value) in s.done) by {
      RunKeeps(sites, states, events, i);
      AcceptedIsRecent(sites, s, a);
      AcceptedIsRecent(sites, s, b);
    }
    RecentIsDrained(s.recent, x, s.sys.cache[b].tag);
  }

  /** An upgrade without a deletion timestamp is in neither of the excluded situations. */
  lemma UndeletedUpgradeIsDrained(sites: Sites, states: seq<State>, events: seq<Event>, i: nat, a: string, b: string)
    requires Run(sites, states, events) && i < |states| && states[i].deleting == {}
    requires Destructive(states[i], a) && b in sites
    ensures b in states[i].sys.cache && WriteServiceStopped(states[i].sys.cache[b].tag)
    ensures states[i].sys.cache[a].tag.value.phase == UpgradePrimary ==>
              forall m :: MemberStopped(states[i].sys.cache[b].tag, m)
  {
    assert !Released(states[i].recent) && !DeletedWhileDraining(states[i].recent) by {
      RunKeeps(sites, states, events, i);
    }
    DestructiveWorkIsDrained(sites, states, events, i, a, b);
  }

  /**
    In every run, also with deletion, the phases of one operation are issued in order, and once
    Replicas or a later phase has been issued no later plan of that operation rolls back.
  */
  lemma NoRollbackAfterReplicas(sites: Sites, states: seq<State>, events: seq<Event>, i: nat, q: nat, r: nat)
    requires Run(sites, states, events) && i < |states|
    requires q <= r < |states[i].sys.issued|
    requires var x, y := states[i].sys.issued[q], states[i].sys.issued[r];
             x.Some? && y.Some? && x.value.uid == y.value.uid
    ensures
      var x, y := states[i].sys.issued[q].value, states[i].sys.issued[r].value;
      && Rank(x.phase) <= Rank(y.phase)
      && (Rank(Replicas) <= Rank(x.phase) && Forward(x.phase) ==> Forward(y.phase))
  {
    assert Ordered(states[i].sys.issued[q], states[i].sys.issued[r]) by {
      RunKeeps(sites, states, events, i);
    }
  }

  /** A rollback that answers a failure starts only with a ready artifact for every claim of every data site. */
  lemma FailureRollbackIsCovered(sites: Sites, states: seq<State>, events: seq<Event>, i: nat)
    requires Run(sites, states, events) && i < |events| && events[i].UpgradePass?
    requires var before, after := states[i].sys.hub.tag, states[i + 1].sys.hub.tag;
             after.Some? && after != before && after.value.phase == Rollback
    ensures Captured(sites, states[i + 1].artifacts, states[i + 1].sys.hub.tag.value.uid)
  {
    var s := states[i];
    assert WorkInv(sites, s.sys, s.done, s.artifacts) by { RunKeeps(sites, states, events, i); }
    assert Next(sites, s, events[i], states[i + 1]);
    DecisionFollowsChain(s.sys.hub.tag.value.phase, AnyFailed(s.sys.hub.sites), PhaseApplied(s),
                         events[i].syncSatisfied, events[i].backupReady);
  }

  /** The same for a rollback that answers deletion in one of the phases where failures roll back. */
  lemma DeletionRollbackIsCovered(sites: Sites, states: seq<State>, events: seq<Event>, i: nat)
    requires Run(sites, states, events) && i < |events| && events[i].DeletionPass?
    requires states[i + 1].sys.hub.tag.Some? && states[i + 1].sys.hub.tag != states[i].sys.hub.tag
    requires states[i].sys.hub.tag.Some? && Convertible(states[i].sys.hub.tag.value.phase)
    ensures states[i + 1].sys.hub.tag.value.phase == Rollback
    ensures Captured(sites, states[i + 1].artifacts, states[i + 1].sys.hub.tag.value.uid)
  {
    var s := states[i];
    assert WorkInv(sites, s.sys, s.done, s.artifacts) by { RunKeeps(sites, states, events, i); }
    assert Next(sites, s, events[i], states[i + 1]);
  }

}
