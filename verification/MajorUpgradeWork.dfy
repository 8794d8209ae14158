/**
  Which site does which work of a major upgrade, and that the work of every phase is finished on
  all sites before a later phase is planned.
*/
module MajorUpgradeWork {
  import opened Common
  import opened Names
  import opened UpgradePhases
  import opened MajorUpgrade
  import opened MajorUpgradeAgent
  import opened MajorUpgradeMoves
  import opened MajorUpgradeSafety
  import P = PlanProtocol

  /** Each site's members in ordinal order, named after the site; no site name extends another by a dash. */
  ghost predicate Declares(sites: Sites, locals: map<string, seq<string>>) {
    && locals.Keys == sites.Keys
    && (forall n :: n in sites ==> Elements(locals[n]) == sites[n].members)
    && (forall n, m :: n in sites && m in sites[n].members ==> exists d :: Decimal(d) && m == PostgresMember(n, d))
    && (forall n, k :: n in sites && k in sites ==> !(k + "-" <= n))
  }

  function Members(sites: Sites): set<string> { set n, m | n in sites && m in sites[n].members :: m }

  /** The prefix test finds the one site that declares the member. */
  lemma PrimaryHasOneHome(sites: Sites, locals: map<string, seq<string>>, home: string, m: string, n: string)
    requires Declares(sites, locals) && home in sites && m in sites[home].members && n in sites
    ensures BelongsToSite(m, n) <==> n == home
    ensures m in locals[n] <==> n == home
  {
    var d :| Decimal(d) && m == PostgresMember(home, d);
    BelongsExactly(home, d, n);
    assert m in Elements(locals[n]) <==> m in sites[n].members;
    if m in sites[n].members {
      var d' :| Decimal(d') && m == PostgresMember(n, d');
      BelongsExactly(n, d', home);
    }
  }

  /**
    The primary is converted, and the backup stanza upgraded, by the one site that declares it and by
    no other; every site captures and restores its claims; the phases that only start or stop
    workloads have no work.
  */
  lemma WorkIsPlaced(sites: Sites, locals: map<string, seq<string>>, o: Owner, home: string, n: string)
    requires Declares(sites, locals) && home in sites && o.primary in sites[home].members && n in sites
    ensures
      var work := LocalWork(o, n, locals[n]);
      && (work.ConvertPrimary? <==> o.phase == UpgradePrimary && n == home)
      && (work.ConvertPrimary? ==> work.member == o.primary && work.member in locals[n])
      && (work.UpgradeStanza? <==> o.phase == StanzaUpgrade && n == home)
      && (work.CaptureClaims? <==> o.phase == Snapshot)
      && (work.RestoreClaims? <==> o.phase == Rollback)
      && (work.ResetReplicas? <==> o.phase == Replicas || o.phase == RollbackStart)
  {
    PrimaryHasOneHome(sites, locals, home, o.primary, n);
  }

  /** What the sites reset in this phase, all together. */
  function ResetMembers(sites: Sites, locals: map<string, seq<string>>, o: Owner): set<string>
    requires locals.Keys == sites.Keys
  {
    set n, m | n in sites && LocalWork(o, n, locals[n]).ResetReplicas? && m in LocalWork(o, n, locals[n]).members :: m
  }

  lemma SiteResets(sites: Sites, locals: map<string, seq<string>>, o: Owner, n: string)
    requires Declares(sites, locals) && n in sites
    ensures LocalWork(o, n, locals[n]).ResetReplicas? <==> o.phase == Replicas || o.phase == RollbackStart
    ensures LocalWork(o, n, locals[n]).ResetReplicas? ==>
              Elements(LocalWork(o, n, locals[n]).members) == sites[n].members - {o.primary}
  {
    assert forall m :: m in locals[n] <==> m in Elements(locals[n]);
  }

  /** The sites together reset exactly the declared members other than the primary, each one its own. */
  lemma ResetsCoverStandbys(sites: Sites, locals: map<string, seq<string>>, o: Owner)
    requires Declares(sites, locals)
    ensures ResetMembers(sites, locals, o) ==
            if o.phase == Replicas || o.phase == RollbackStart then Members(sites) - {o.primary} else {}
    ensures forall n :: n in sites && LocalWork(o, n, locals[n]).ResetReplicas? ==>
              Elements(LocalWork(o, n, locals[n]).members) == sites[n].members - {o.primary}
  {
    forall n | n in sites
      ensures LocalWork(o, n, locals[n]).ResetReplicas? <==> o.phase == Replicas || o.phase == RollbackStart
      ensures LocalWork(o, n, locals[n]).ResetReplicas? ==>
                Elements(LocalWork(o, n, locals[n]).members) == sites[n].members - {o.primary}
    {
      SiteResets(sites, locals, o, n);
    }
    var reset := ResetMembers(sites, locals, o);
    forall m | m in reset
      ensures (o.phase == Replicas || o.phase == RollbackStart) && m in Members(sites) - {o.primary}
    {
      var n :| n in sites && LocalWork(o, n, locals[n]).ResetReplicas? && m in LocalWork(o, n, locals[n]).members;
      assert m in Elements(LocalWork(o, n, locals[n]).members);
    }
    if o.phase == Replicas || o.phase == RollbackStart {
      forall m | m in Members(sites) - {o.primary} ensures m in reset {
        var n :| n in sites && m in sites[n].members;
        assert m in Elements(LocalWork(o, n, locals[n]).members);
      }
    }
  }

  // ------------------------------------------------------------------------------------
  // Finished before the next phase
  // ------------------------------------------------------------------------------------

  /** All phases before the k-th of the chain are finished on every site. */
  predicate DoneUpTo(sites: Sites, done: set<(string, Owner)>, o: Owner, chain: seq<Phase>, k: int) {
    forall j :: 0 <= j < k && j < |chain| ==> DoneEverywhere(sites, done, o.(phase := chain[j]))
  }

  /** All earlier phases of the owner's chain are finished on every site. */
  ghost predicate EarlierDone(sites: Sites, done: set<(string, Owner)>, tag: Tag) {
    tag.Some? ==>
      && (forall k :: Place(FORWARD, k, tag.value.phase) ==> DoneUpTo(sites, done, tag.value, FORWARD, k))
      && (forall k :: Place(BACKWARD, k, tag.value.phase) ==> DoneUpTo(sites, done, tag.value, BACKWARD, k))
  }

  lemma DoneGrows(sites: Sites, states: seq<State>, events: seq<Event>, i: nat)
    requires Run(sites, states, events) && i < |events|
    ensures states[i].done <= states[i + 1].done
  {
    assert Next(sites, states[i], events[i], states[i + 1]);
  }

  lemma EarlierStaysDone(sites: Sites, done: set<(string, Owner)>, more: set<(string, Owner)>, tag: Tag)
    requires EarlierDone(sites, done, tag) && done <= more
    ensures EarlierDone(sites, more, tag)
  {
  }

  /** One more phase of the chain is finished. */
  lemma NextIsDone(sites: Sites, done: set<(string, Owner)>, o: Owner, chain: seq<Phase>, k: nat)
    requires chain == FORWARD || chain == BACKWARD
    requires EarlierDone(sites, done, Some(o)) && DoneEverywhere(sites, done, o) && Place(chain, k, o.phase)
    requires k + 1 < |chain|
    ensures EarlierDone(sites, done, Some(o.(phase := chain[k + 1])))
  {
    var next := o.(phase := chain[k + 1]);
    var j := PhasesHavePlaces(next.phase);
    assert DoneUpTo(sites, done, o, chain, k);
    assert o.(phase := chain[k]) == o;
    assert DoneUpTo(sites, done, next, chain, k + 1);
    assert Place(chain, k + 1, next.phase);
  }

  lemma AppliedPhaseIsDone(sites: Sites, states: seq<State>, events: seq<Event>, i: nat)
    requires Run(sites, states, events) && i < |states| && states[i].sys.hub.tag.Some? && AppliedEverywhere(sites, states[i])
    ensures DoneEverywhere(sites, states[i].done, states[i].sys.hub.tag.value)
  {
    RunKeeps(sites, states, events, i);
    AppliedExactly(sites, states[i]);
    AppliedPhaseIsIssued(sites, states[i]);
  }

  lemma PassKeepsEarlier(sites: Sites, states: seq<State>, events: seq<Event>, i: nat)
    requires Run(sites, states, events) && i < |events| && events[i].UpgradePass?
    requires states[i].sys.hub.tag.Some? && EarlierDone(sites, states[i].done, states[i].sys.hub.tag)
    ensures EarlierDone(sites, states[i].done, states[i + 1].sys.hub.tag)
  {
    var o := states[i].sys.hub.tag.value;
    var k := PhasesHavePlaces(o.phase);
    if AppliedEverywhere(sites, states[i]) {
      AppliedPhaseIsDone(sites, states, events, i);
    }
    if Place(FORWARD, k, o.phase) {
      ForwardMovesExactly(sites, states, events, i, k);
      if AppliedEverywhere(sites, states[i]) && k + 1 < |FORWARD| {
        NextIsDone(sites, states[i].done, o, FORWARD, k);
      }
    } else {
      BackwardMovesExactly(sites, states, events, i, k);
      if AppliedEverywhere(sites, states[i]) && k + 1 < |BACKWARD| {
        NextIsDone(sites, states[i].done, o, BACKWARD, k);
      }
    }
  }

  /** Nothing comes before the first phase of a chain. */
  lemma FirstIsDone(sites: Sites, done: set<(string, Owner)>, o: Owner)
    requires o.phase == Preflight || o.phase == Rollback
    ensures EarlierDone(sites, done, Some(o))
  {
    var k := PhasesHavePlaces(o.phase);
    assert Place(if o.phase == Preflight then FORWARD else BACKWARD, 0, o.phase);
  }

  lemma DeletionKeepsEarlier(sites: Sites, states: seq<State>, events: seq<Event>, i: nat)
    requires Run(sites, states, events) && i < |events| && events[i].DeletionPass?
    requires EarlierDone(sites, states[i].done, states[i].sys.hub.tag)
    ensures EarlierDone(sites, states[i].done, states[i + 1].sys.hub.tag)
  {
    DeletionExactly(sites, states, events, i);
    FirstIsDone(sites, states[i].done, states[i].sys.hub.tag.value.(phase := Rollback));
  }

  lemma OthersKeepEarlier(sites: Sites, states: seq<State>, events: seq<Event>, i: nat)
    requires Run(sites, states, events) && i < |events| && !events[i].UpgradePass? && !events[i].DeletionPass?
    requires EarlierDone(sites, states[i].done, states[i].sys.hub.tag)
    ensures EarlierDone(sites, states[i].done, states[i + 1].sys.hub.tag)
  {
    if states[i + 1].sys.hub.tag != states[i].sys.hub.tag {
      OwnersBeginNew(sites, states, events, i);
      FirstIsDone(sites, states[i].done, states[i + 1].sys.hub.tag.value);
    }
  }

  /** In every run, all earlier phases of what the hub asks for are finished on every site. */
  lemma {:induction false} OwnerEarlierDone(sites: Sites, states: seq<State>, events: seq<Event>, i: nat)
    requires Run(sites, states, events) && i < |states|
    ensures EarlierDone(sites, states[i].done, states[i].sys.hub.tag)
  {
    if i > 0 {
      OwnerEarlierDone(sites, states, events, i - 1);
      if events[i - 1].UpgradePass? {
        assert Next(sites, states[i - 1], events[i - 1], states[i - 1 + 1]);
        PassKeepsEarlier(sites, states, events, i - 1);
      } else if events[i - 1].DeletionPass? {
        DeletionKeepsEarlier(sites, states, events, i - 1);
      } else {
        OthersKeepEarlier(sites, states, events, i - 1);
      }
      DoneGrows(sites, states, events, i - 1);
      EarlierStaysDone(sites, states[i - 1].done, states[i].done, states[i].sys.hub.tag);
    }
  }

  lemma IssuedGrow(sites: Sites, states: seq<State>, events: seq<Event>, i: nat)
    requires Run(sites, states, events) && i < |events|
    ensures states[i + 1].sys.issued == states[i].sys.issued ||
            states[i + 1].sys.issued == states[i].sys.issued + [states[i].sys.hub.tag]
  {
    assert Next(sites, states[i], events[i], states[i + 1]);
    if events[i].Protocol? && !events[i].e.Pass? {
      P.QuietStep(sites.Keys, states[i].sys, events[i].e);
    }
  }

  lemma {:induction false} IssuedEarlierDone(sites: Sites, states: seq<State>, events: seq<Event>, i: nat, r: nat)
    requires Run(sites, states, events) && i < |states| && r < |states[i].sys.issued|
    ensures EarlierDone(sites, states[i].done, states[i].sys.issued[r])
  {
    if i > 0 {
      IssuedGrow(sites, states, events, i - 1);
      DoneGrows(sites, states, events, i - 1);
      if r < |states[i - 1].sys.issued| {
        IssuedEarlierDone(sites, states, events, i - 1, r);
        EarlierStaysDone(sites, states[i - 1].done, states[i].done, states[i].sys.issued[r]);
      } else {
        OwnerEarlierDone(sites, states, events, i - 1);
        EarlierStaysDone(sites, states[i - 1].done, states[i].done, states[i].sys.issued[r]);
      }
    }
  }

  /** The site has finished the work of this phase of the operation. */
  predicate Finished(s: State, site: string, o: Owner, p: Phase) { (site, o.(phase := p)) in s.done }

  /**
    In every run, a site holds a plan of some phase only after all sites have finished the work of
    all phases before it: claims are captured before the primary is converted, the primary and the
    stanza are converted before it starts, every standby is replaced before writes return; and in a
    rollback every claim is restored and every standby replaced before writes return.
  */
  lemma WorkIsFinishedInOrder(sites: Sites, states: seq<State>, events: seq<Event>, i: nat, n: string,
                              chain: seq<Phase>, j: nat, k: nat, other: string)
    requires Run(sites, states, events) && i < |states| && n in states[i].sys.cache && other in sites
    requires chain == FORWARD || chain == BACKWARD
    requires states[i].sys.cache[n].tag.Some? && Place(chain, k, states[i].sys.cache[n].tag.value.phase) && j < k
    ensures Finished(states[i], other, states[i].sys.cache[n].tag.value, chain[j])
  {
    var s := states[i];
    var o := s.sys.cache[n].tag.value;
    assert P.GenuinePlan(s.sys.issued, s.sys.cache[n]) by { RunKeeps(sites, states, events, i); }
    IssuedEarlierDone(sites, states, events, i, s.sys.cache[n].revision);
    assert DoneUpTo(sites, s.done, o, chain, k);
    assert DoneEverywhere(sites, s.done, o.(phase := chain[j]));
  }

  /**
    So when a plan that starts the upgraded primary is accepted anywhere, the primary's own site has
    converted it; and when a plan that brings writes back is accepted anywhere, every declared member
    but the primary has been replaced by its own site.
  */
  lemma ReplacedBeforeWrites(sites: Sites, locals: map<string, seq<string>>, states: seq<State>, events: seq<Event>, i: nat,
                             n: string, home: string, other: string)
    requires Run(sites, states, events) && i < |states| && n in states[i].sys.cache && other in sites
    requires Declares(sites, locals) && home in sites && states[i].sys.cache[n].tag.Some?
    requires states[i].sys.cache[n].tag.value.primary in sites[home].members
    ensures
      var s := states[i];
      var o := s.sys.cache[n].tag.value;
      && (Forward(o.phase) && Rank(StartPrimary) <= Rank(o.phase) ==>
            Finished(s, home, o, UpgradePrimary) &&
            LocalWork(o.(phase := UpgradePrimary), home, locals[home]) == ConvertPrimary(o.primary))
      && (Forward(o.phase) && !WriteServiceStopped(Some(o)) && o.phase != Preflight ==>
            Finished(s, other, o, Replicas) &&
            LocalWork(o.(phase := Replicas), other, locals[other]).ResetReplicas? &&
            Elements(LocalWork(o.(phase := Replicas), other, locals[other]).members) == sites[other].members - {o.primary})
  {
    var o := states[i].sys.cache[n].tag.value;
    PrimaryHasOneHome(sites, locals, home, o.primary, home);
    SiteResets(sites, locals, o.(phase := Replicas), other);
    if Forward(o.phase) {
      var k := Rank(o.phase);
      assert Place(FORWARD, k, o.phase);
      if Rank(StartPrimary) <= k {
        WorkIsFinishedInOrder(sites, states, events, i, n, FORWARD, 4, k, home);
      }
      if Rank(RestoreWrites) <= k {
        WorkIsFinishedInOrder(sites, states, events, i, n, FORWARD, 7, k, other);
      }
    }
  }
}
