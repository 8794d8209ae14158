/**
  When a major upgrade moves, in every run: the gate of each phase, the order of the phases, what
  deletion does, and what the sites hold at the moment a phase is left.
*/
module MajorUpgradeMoves {
  import opened Common
  import opened UpgradePhases
  import opened MajorUpgrade
  import opened MajorUpgradeAgent
  import opened MajorUpgradeSafety
  import P = PlanProtocol

  const FORWARD := [Preflight, Drain, Stop, Snapshot, UpgradePrimary, StanzaUpgrade, StartPrimary, Replicas,
                    RestoreWrites, Finalize]
  const BACKWARD := [Rollback, RollbackStart, RollbackRestoreWrites]

  /** The phase has this place in the chain. */
  predicate Place(chain: seq<Phase>, k: int, p: Phase) { 0 <= k < |chain| && chain[k] == p }

  /** Every site applied the newest plan, and that plan carries what the hub asks for. */
  predicate AppliedEverywhere(sites: Sites, s: State) {
    && s.sys.hub.active < |s.sys.issued| && s.sys.issued[s.sys.hub.active] == s.sys.hub.tag
    && forall n :: n in sites ==> n in s.sys.hub.sites && s.sys.hub.sites[n].applied == s.sys.hub.active
  }

  /** The revision annotation does its job: the test on it says that the applied plan carries the phase. */
  lemma AppliedExactly(sites: Sites, s: State)
    requires Inv(sites, s) && s.sys.hub.tag.Some?
    ensures PhaseApplied(s) <==> AppliedEverywhere(sites, s)
  {
    if PhaseApplied(s) {
      AppliedPhaseIsIssued(sites, s);
    } else if AppliedEverywhere(sites, s) {
      AnySite(sites, s);
    }
  }

  lemma AnySite(sites: Sites, s: State)
    requires P.Inv(sites.Keys, s.sys) && s.sys.hub.active > 0
    requires forall n :: n in sites ==> n in s.sys.hub.sites && s.sys.hub.sites[n].applied == s.sys.hub.active
    ensures P.AllSitesApplied(s.sys.hub.sites, s.sys.hub.active)
  {
    var n :| n in sites;
    assert n in s.sys.hub.sites;
  }

  /** What a phase waits for besides its sites. */
  predicate Gate(p: Phase, e: Event)
    requires e.UpgradePass?
  {
    (p == Replicas ==> e.syncSatisfied) && (p == Finalize ==> e.backupReady)
  }

  predicate SomeSiteFailed(s: State) { exists n :: n in s.sys.hub.sites && s.sys.hub.sites[n].failed }

  /** Each phase has one place, in one of the two chains. */
  lemma PhasesHavePlaces(p: Phase) returns (k: nat)
    ensures Place(FORWARD, k, p) != Place(BACKWARD, k, p)
    ensures forall j :: Place(FORWARD, j, p) || Place(BACKWARD, j, p) ==> j == k
  {
    k := if Forward(p) then Rank(p) else Rank(p) - 10;
  }

  lemma PassDecides(sites: Sites, states: seq<State>, events: seq<Event>, i: nat)
    requires Run(sites, states, events) && i < |events| && events[i].UpgradePass?
    requires states[i].sys.hub.tag.Some?
    ensures
      var s, e := states[i], events[i];
      var before := s.sys.hub.tag.value;
      var d := DecideMajor(before.phase, SomeSiteFailed(s), AppliedEverywhere(sites, s), e.syncSatisfied, e.backupReady);
      states[i + 1].sys.hub.tag == After(before, d)
  {
    var s := states[i];
    assert Next(sites, s, events[i], states[i + 1]);
    assert PhaseApplied(s) <==> AppliedEverywhere(sites, s) by {
      RunKeeps(sites, states, events, i);
      AppliedExactly(sites, s);
    }
  }

  /**
    In every run, an upgrade pass leaves a forward phase exactly when every site applied a plan that
    carries it and its gate is open: synchronous standbys before writes return, the verified backup
    before the end. It then goes to the next phase, or completes. A failed site stops the upgrade
    where it is, except that the three conversion phases go to Rollback at once.
  */
  lemma ForwardMovesExactly(sites: Sites, states: seq<State>, events: seq<Event>, i: nat, k: nat)
    requires Run(sites, states, events) && i < |events| && events[i].UpgradePass?
    requires states[i].sys.hub.tag.Some? && Place(FORWARD, k, states[i].sys.hub.tag.value.phase)
    ensures
      var s := states[i];
      var before := s.sys.hub.tag.value;
      states[i + 1].sys.hub.tag ==
      if SomeSiteFailed(s) then Some(if 4 <= k <= 6 then before.(phase := Rollback) else before)
      else if !(AppliedEverywhere(sites, s) && Gate(before.phase, events[i])) then Some(before)
      else if k + 1 < |FORWARD| then Some(before.(phase := FORWARD[k + 1]))
      else None
  {
    PassDecides(sites, states, events, i);
  }

  /** The same for a rollback, which no failure stops. */
  lemma BackwardMovesExactly(sites: Sites, states: seq<State>, events: seq<Event>, i: nat, k: nat)
    requires Run(sites, states, events) && i < |events| && events[i].UpgradePass?
    requires states[i].sys.hub.tag.Some? && Place(BACKWARD, k, states[i].sys.hub.tag.value.phase)
    ensures
      var before := states[i].sys.hub.tag.value;
      states[i + 1].sys.hub.tag ==
      if !AppliedEverywhere(sites, states[i]) then Some(before)
      else if k + 1 < |BACKWARD| then Some(before.(phase := BACKWARD[k + 1]))
      else None
  {
    PassDecides(sites, states, events, i);
  }

  /** In every run, writes return after an upgrade only once every site applied Replicas and the standbys are in sync. */
  lemma WritesReturnInSync(sites: Sites, states: seq<State>, events: seq<Event>, i: nat)
    requires Run(sites, states, events) && i < |events|
    requires
      var before, after := states[i].sys.hub.tag, states[i + 1].sys.hub.tag;
      after.Some? && after.value.phase == RestoreWrites && after != before
    ensures events[i].UpgradePass? && events[i].syncSatisfied
    ensures
      var before := states[i].sys.hub.tag;
      before.Some? && before.value.phase == Replicas && AppliedEverywhere(sites, states[i])
  {
    if events[i].UpgradePass? {
      assert Next(sites, states[i], events[i], states[i + 1]);
      var k := PhasesHavePlaces(states[i].sys.hub.tag.value.phase);
      if Place(FORWARD, k, states[i].sys.hub.tag.value.phase) {
        ForwardMovesExactly(sites, states, events, i, k);
      } else {
        BackwardMovesExactly(sites, states, events, i, k);
      }
    } else if events[i].DeletionPass? {
      DeletionExactly(sites, states, events, i);
    } else {
      OwnersBeginNew(sites, states, events, i);
    }
  }

  /**
    In every run, deleting an upgrade lets the instance go at once when it is abandoned or nothing
    has been drained yet, rolls back as long as no standby has been replaced, and otherwise waits.
  */
  lemma DeletionExactly(sites: Sites, states: seq<State>, events: seq<Event>, i: nat)
    requires Run(sites, states, events) && i < |events| && events[i].DeletionPass?
    ensures states[i].sys.hub.tag.Some?
    ensures
      var before := states[i].sys.hub.tag.value;
      states[i + 1].sys.hub.tag ==
      if events[i].abandon || before.phase == FORWARD[0] then None
      else if before.phase in FORWARD[1..7] then Some(before.(phase := Rollback))
      else Some(before)
  {
    assert Next(sites, states[i], events[i], states[i + 1]);
    assert FORWARD[1..7] == [Drain, Stop, Snapshot, UpgradePrimary, StanzaUpgrade, StartPrimary];
  }

  /**
    In every run the instance gets an owner only while it has none and is Ready, by an upgrade whose
    name no plan has carried before; and nothing but an upgrade or deletion pass changes the owner.
  */
  lemma OwnersBeginNew(sites: Sites, states: seq<State>, events: seq<Event>, i: nat)
    requires Run(sites, states, events) && i < |events|
    requires states[i + 1].sys.hub.tag != states[i].sys.hub.tag
    requires !events[i].UpgradePass? && !events[i].DeletionPass?
    ensures
      var s, after := states[i], states[i + 1].sys.hub.tag;
      && events[i].Begin? && s.sys.hub.tag.None? && s.sys.hub.ready
      && after == Some(Owner(events[i].uid, events[i].primary, FORWARD[0]))
      && forall r :: 0 <= r < |s.sys.issued| && s.sys.issued[r].Some? ==> s.sys.issued[r].value.uid != events[i].uid
  {
    var s, e := states[i], events[i];
    assert Next(sites, s, e, states[i + 1]);
    assert HistoryInv(s.sys.issued, s.sys.hub.tag, s.ended) by { RunKeeps(sites, states, events, i); }
    if e.Protocol? && !e.e.Pass? {
      P.QuietStep(sites.Keys, s.sys, e.e);
    }
    assert e.Begin?;
    forall r | 0 <= r < |s.sys.issued| && s.sys.issued[r].Some? ensures s.sys.issued[r].value.uid != e.uid {
      assert Accounted(s.sys.issued[r], s.sys.hub.tag, s.ended);
    }
  }

  /** In every run, when the hub leaves a phase in order, every site holds exactly the newest plan, with that phase. */
  lemma LeftPhaseIsHeld(sites: Sites, states: seq<State>, events: seq<Event>, i: nat, n: string)
    requires Run(sites, states, events) && i < |events| && n in sites
    requires MovesOn(states[i].sys.hub.tag, states[i + 1].sys.hub.tag, events[i])
    ensures n in states[i].sys.cache && states[i].sys.cache[n].tag == states[i].sys.hub.tag
    ensures states[i].sys.cache[n].revision == states[i].sys.hub.active
  {
    var s := states[i];
    RunKeeps(sites, states, events, i);
    assert Next(sites, s, events[i], states[i + 1]);
    MovesFollowDecisions(sites, s, events[i]);
    AppliedPhaseIsIssued(sites, s);
    assert n in s.sys.cache && s.sys.hub.active <= s.sys.cache[n].revision by { P.AllAppliedMeansReported(sites.Keys, s.sys); }
    assert P.GenuinePlan(s.sys.issued, s.sys.cache[n]);
  }

  /**
    In every run, when the hub leaves a forward phase, what every site renders is settled: Pgpool is
    away exactly from Drain to Replicas; no member runs from Stop to StanzaUpgrade and the primary
    alone in StartPrimary; and the members that run have the target version exactly from there on.
  */
  lemma OutageIsExact(sites: Sites, states: seq<State>, events: seq<Event>, i: nat, k: nat, n: string, m: string)
    requires Run(sites, states, events) && i < |events| && n in sites
    requires MovesOn(states[i].sys.hub.tag, states[i + 1].sys.hub.tag, events[i])
    requires Place(FORWARD, k, states[i].sys.hub.tag.value.phase)
    ensures n in states[i].sys.cache
    ensures
      var tag, primary := states[i].sys.cache[n].tag, states[i].sys.hub.tag.value.primary;
      && (WriteServiceStopped(tag) <==> 1 <= k <= 7)
      && (MemberStopped(tag, m) <==> 2 <= k <= 5 || (k == 6 && m != primary))
      && (RunsTarget(tag, m) <==> (k == 6 && m == primary) || 7 <= k)
  {
    LeftPhaseIsHeld(sites, states, events, i, n);
  }

  /** The same for a rollback, which runs the source version throughout. */
  lemma RollbackOutageIsExact(sites: Sites, states: seq<State>, events: seq<Event>, i: nat, k: nat, n: string, m: string)
    requires Run(sites, states, events) && i < |events| && n in sites
    requires MovesOn(states[i].sys.hub.tag, states[i + 1].sys.hub.tag, events[i])
    requires Place(BACKWARD, k, states[i].sys.hub.tag.value.phase)
    ensures n in states[i].sys.cache
    ensures
      var tag, primary := states[i].sys.cache[n].tag, states[i].sys.hub.tag.value.primary;
      && (WriteServiceStopped(tag) <==> k <= 1)
      && (MemberStopped(tag, m) <==> k == 0 || (k == 1 && m != primary))
      && !RunsTarget(tag, m)
  {
    LeftPhaseIsHeld(sites, states, events, i, n);
  }
}
