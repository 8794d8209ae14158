/**
  Major upgrades over the plan-revision protocol.

  A state is the hub, the wire and the agents, plus the upgrade bookkeeping. A run is any
  sequence of events: reconcile passes, lost, duplicated and late messages, agent work,
  failures, deletion requests and forced abandonment, over any number of successive upgrades.
*/
module MajorUpgrade {
  import opened Common
  import opened UpgradePhases
  import P = PlanProtocol

  datatype SiteSpec = SiteSpec(isData: bool, members: set<string>)

  /** The declared sites, fixed during an operation. */
  type Sites = map<string, SiteSpec>

  /**
    `expected` is the revision annotation written with each phase. `ended` holds upgrades that
    are completed, failed or gone; `deleting` those with a deletion timestamp. `done` records
    that a site finished the local work of a phase, `artifacts` the ready rollback artifacts.
    `floor` and `recent` are history: every site holds revision `floor` or a newer one, and
    `recent` lists the tags the hub asked for from then on, starting with that of `floor`.
  */
  datatype State = State(
    sys: P.System<Tag>,
    expected: nat,
    ended: set<string>,
    deleting: set<string>,
    done: set<(string, Owner)>,
    artifacts: set<(string, string)>,
    floor: nat,
    recent: seq<Tag>)

  datatype Event =
    | Protocol(e: P.Event<Tag>)
    | Begin(uid: string, primary: string)
    | UpgradePass(syncSatisfied: bool, backupReady: bool)
    | RequestDeletion(uid: string)
    | DeletionPass(abandon: bool)
    | Capture(site: string, member: string)
    | FinishLocal(site: string)

  predicate AnyFailed(sites: map<string, P.SiteStatus>) {
    exists n :: n in sites && sites[n].failed
  }

  /** Every site applied the active revision, and that revision was issued after the phase was set. */
  predicate PhaseApplied(s: State) {
    s.expected <= s.sys.hub.active && P.AllSitesApplied(s.sys.hub.sites, s.sys.hub.active)
  }

  function Decide(s: State, syncSatisfied: bool, backupReady: bool): Decision
    requires s.sys.hub.tag.Some?
  {
    DecideMajor(s.sys.hub.tag.value.phase, AnyFailed(s.sys.hub.sites), PhaseApplied(s),
                syncSatisfied, backupReady)
  }

  /** A site has captured a ready artifact for each of its PostgreSQL claims. */
  predicate SiteCaptured(sites: Sites, artifacts: set<(string, string)>, site: string, uid: string) {
    site in sites && sites[site].isData ==> forall m :: m in sites[site].members ==> (uid, m) in artifacts
  }

  predicate Captured(sites: Sites, artifacts: set<(string, string)>, uid: string) {
    forall n :: n in sites ==> SiteCaptured(sites, artifacts, n, uid)
  }

  predicate Enabled(sites: Sites, s: State, e: Event) {
    var tag := s.sys.hub.tag;
    s.sys.hub.active < |s.sys.issued| &&
    match e
    case Protocol(e) =>
      && P.Enabled(sites.Keys, s.sys, e)
      && !e.Patch?
      && (e.Pass? && e.healthy ==> ReadyAllowed(tag))
      && (e.Report? && s.sys.cache[e.site].tag.Some? ==> (e.site, s.sys.cache[e.site].tag.value) in s.done)
    case Begin(uid, _) => tag.None? && uid !in s.ended && uid !in s.deleting && s.sys.hub.ready
    case UpgradePass(_, _) => tag.Some? && tag.value.uid !in s.deleting
    case RequestDeletion(_) => true
    case DeletionPass(_) => tag.Some? && tag.value.uid in s.deleting
    case Capture(site, member) =>
      && site in s.sys.cache && s.sys.cache[site].tag.Some?
      && s.sys.cache[site].tag.value.phase == Snapshot
      && site in sites && sites[site].isData && member in sites[site].members
    case FinishLocal(site) =>
      && site in s.sys.cache && s.sys.cache[site].tag.Some?
      && (s.sys.cache[site].tag.value.phase == Snapshot ==>
            SiteCaptured(sites, s.artifacts, site, s.sys.cache[site].tag.value.uid))
  }

  function Patched(s: State, tag: Tag): P.System<Tag> { s.sys.(hub := s.sys.hub.(tag := tag)) }

  /** A phase change after every site applied the last one (or, at the start, is Ready). */
  function MoveOn(s: State, tag: Tag): State
    requires s.sys.hub.active < |s.sys.issued|
  {
    s.(sys := Patched(s, tag), expected := s.sys.hub.active + 1,
       floor := s.sys.hub.active, recent := [s.sys.issued[s.sys.hub.active], tag])
  }

  /** A phase change that waits for nobody. */
  function Interrupt(s: State, tag: Tag): State {
    s.(sys := Patched(s, tag), expected := s.sys.hub.active + 1, recent := s.recent + [tag])
  }

  function EndOwner(s: State): set<string> {
    if s.sys.hub.tag.Some? then s.ended + {s.sys.hub.tag.value.uid} else s.ended
  }

  function Act(s: State, d: Decision): State
    requires s.sys.hub.tag.Some? && s.sys.hub.active < |s.sys.issued|
  {
    var o := s.sys.hub.tag.value;
    match d
    case Wait => s
    case Advance(p) =>
      if p == Rollback then Interrupt(s, Some(o.(phase := p))) else MoveOn(s, Some(o.(phase := p)))
    case Complete => MoveOn(s, None).(ended := EndOwner(s))
    case RolledBack => MoveOn(s, None).(ended := EndOwner(s))
  }

  function ActOnDeletion(s: State, d: DeletionDecision): State
    requires s.sys.hub.tag.Some?
  {
    match d
    case Release => Interrupt(s, None).(ended := EndOwner(s))
    case EnterRollback => Interrupt(s, Some(s.sys.hub.tag.value.(phase := Rollback)))
    case Hold => s
  }

  function Do(sites: Sites, s: State, e: Event): State
    requires Enabled(sites, s, e)
  {
    match e
    case Protocol(e) => s.(sys := P.Do(sites.Keys, s.sys, e))
    case Begin(uid, primary) => MoveOn(s, Some(Owner(uid, primary, Preflight)))
    case UpgradePass(syncSatisfied, backupReady) =>
      Act(s, Decide(s, syncSatisfied, backupReady))
    case RequestDeletion(uid) => s.(deleting := s.deleting + {uid})
    case DeletionPass(abandon) =>
      ActOnDeletion(s, DecideDeletion(s.sys.hub.tag.value.phase, abandon))
    case Capture(site, member) =>
      s.(artifacts := s.artifacts + {(s.sys.cache[site].tag.value.uid, member)})
    case FinishLocal(site) => s.(done := s.done + {(site, s.sys.cache[site].tag.value)})
  }

  function Init(): State {
    State(P.Init(None), 0, {}, {}, {}, {}, 0, [None])
  }

  // ------------------------------------------------------------------------------------
  // The invariant
  // ------------------------------------------------------------------------------------

  /** A tag change that happened with every site on `a`. */
  predicate Settled(a: Tag, b: Tag) {
    || (b.Some? && b.value.phase == Preflight && ReadyAllowed(a))
    || (b.None? && a.Some? && Successor(a.value.phase).None?)
    || (a.Some? && b.Some? && SameOperation(a.value, b.value) && Successor(a.value.phase) == Some(b.value.phase))
  }

  /** Rollback entered at once, by a failure or by deletion. */
  predicate RollbackFrom(a: Tag, b: Tag) {
    && a.Some? && b.Some? && SameOperation(a.value, b.value) && b.value.phase == Rollback
    && Rank(Drain) <= Rank(a.value.phase) <= Rank(StartPrimary)
  }

  /** The tags that sites can still hold: one settled change, perhaps a rollback, perhaps a release. */
  predicate Shape(recent: seq<Tag>) {
    || recent == [None]
    || (&& 2 <= |recent| <= 4 && Settled(recent[0], recent[1])
        && (|recent| == 3 ==> RollbackFrom(recent[1], recent[2]) || (recent[1].Some? && recent[2].None?))
        && (|recent| == 4 ==> RollbackFrom(recent[1], recent[2]) && recent[3].None?))
  }

  /** Every revision from `floor` on carries a recent tag, and every site holds such a revision. */
  ghost predicate WindowInv(sites: Sites, sys: P.System<Tag>, done: set<(string, Owner)>, floor: nat,
                            recent: seq<Tag>)
  {
    && Shape(recent) && recent[|recent| - 1] == sys.hub.tag
    && (floor == 0 ==> recent == [None])
    && floor < |sys.issued| && sys.issued[floor] == recent[0]
    && (forall r :: floor <= r < |sys.issued| ==> sys.issued[r] in recent)
    && (floor > 0 ==> Held(sites, sys.cache, floor))
    && (floor > 0 && recent[0].Some? ==> DoneEverywhere(sites, done, recent[0].value))
  }

  predicate Held(sites: Sites, cache: map<string, P.Plan<Tag>>, floor: nat) {
    forall n :: n in sites ==> n in cache && floor <= cache[n].revision
  }

  predicate DoneEverywhere(sites: Sites, done: set<(string, Owner)>, o: Owner) {
    forall n :: n in sites ==> (n, o) in done
  }

  /** The owner's phase is carried by exactly the revisions from `expected` on. */
  ghost predicate OwnerInv(issued: seq<Tag>, tag: Tag, expected: nat, ended: set<string>) {
    tag.Some? ==>
      && tag.value.uid !in ended
      && expected <= |issued|
      && (forall r :: 0 <= r < |issued| ==> (issued[r] == tag <==> expected <= r))
  }

  /** Two tags of one operation, the first issued before the second. */
  predicate Ordered(a: Tag, b: Tag) {
    a.Some? && b.Some? && a.value.uid == b.value.uid ==>
      SameOperation(a.value, b.value) && Reaches(a.value.phase, b.value.phase)
  }

  /** An issued tag belongs to the current owner, at this phase or an earlier one, or to an ended upgrade. */
  predicate Accounted(a: Tag, tag: Tag, ended: set<string>) {
    a.Some? ==>
      || a.value.uid in ended
      || (tag.Some? && SameOperation(a.value, tag.value) && Reaches(a.value.phase, tag.value.phase))
  }

  ghost predicate HistoryInv(issued: seq<Tag>, tag: Tag, ended: set<string>) {
    && (forall r :: 0 <= r < |issued| ==> Accounted(issued[r], tag, ended))
    && (forall q, r :: 0 <= q <= r < |issued| ==> Ordered(issued[q], issued[r]))
  }

  ghost predicate WorkInv(sites: Sites, sys: P.System<Tag>, done: set<(string, Owner)>,
                          artifacts: set<(string, string)>)
  {
    && sys.hub.active < |sys.issued|
    && (sys.hub.ready ==> ReadyAllowed(sys.issued[sys.hub.active]))
    && ReportedWork(sys.issued, sys.results, done)
    && (forall d :: d in done && d.1.phase == Snapshot ==> SiteCaptured(sites, artifacts, d.0, d.1.uid))
    && (sys.hub.tag.Some? && Convertible(sys.hub.tag.value.phase) ==>
          Captured(sites, artifacts, sys.hub.tag.value.uid))
  }

  /** Without a deletion timestamp nothing is released, and only a conversion phase was rolled back. */
  predicate DeletionInv(recent: seq<Tag>, deleting: set<string>) {
    |recent| >= 3 && recent[1].Some? && recent[1].value.uid !in deleting ==>
      |recent| == 3 && recent[2].Some? && Convertible(recent[1].value.phase)
  }

  predicate ReportedWork(issued: seq<Tag>, results: set<(string, nat)>, done: set<(string, Owner)>) {
    forall m :: m in results && m.1 < |issued| && issued[m.1].Some? ==> (m.0, issued[m.1].value) in done
  }

  ghost predicate Inv(sites: Sites, s: State) {
    && P.Inv(sites.Keys, s.sys)
    && WindowInv(sites, s.sys, s.done, s.floor, s.recent)
    && OwnerInv(s.sys.issued, s.sys.hub.tag, s.expected, s.ended)
    && HistoryInv(s.sys.issued, s.sys.hub.tag, s.ended)
    && WorkInv(sites, s.sys, s.done, s.artifacts)
    && DeletionInv(s.recent, s.deleting)
  }

  lemma InitInv(sites: Sites)
    requires sites != map[]
    ensures Inv(sites, Init())
  {
    P.InitInv<Tag>(sites.Keys, None);
  }

  // Issuing one more revision.

  lemma ExtendWindow(sites: Sites, a: P.System<Tag>, b: P.System<Tag>, done: set<(string, Owner)>,
                     floor: nat, recent: seq<Tag>)
    requires WindowInv(sites, a, done, floor, recent)
    requires b.cache == a.cache && b.hub.tag == a.hub.tag
    requires b.issued == a.issued || b.issued == a.issued + [a.hub.tag]
    ensures WindowInv(sites, b, done, floor, recent)
  {
    assert a.hub.tag in recent;
  }

  lemma ExtendOwner(issued: seq<Tag>, tag: Tag, expected: nat, ended: set<string>)
    requires OwnerInv(issued, tag, expected, ended)
    ensures OwnerInv(issued + [tag], tag, expected, ended)
  {
  }

  lemma ExtendHistory(issued: seq<Tag>, tag: Tag, ended: set<string>)
    requires HistoryInv(issued, tag, ended)
    requires tag.Some? ==> tag.value.uid !in ended
    ensures HistoryInv(issued + [tag], tag, ended)
  {
    var longer := issued + [tag];
    forall r | 0 <= r < |longer| ensures Accounted(longer[r], tag, ended) {
      assert r < |issued| ==> longer[r] == issued[r];
    }
    forall q, r | 0 <= q <= r < |longer| ensures Ordered(longer[q], longer[r]) {
      if q < |issued| {
        assert longer[q] == issued[q] && Accounted(issued[q], tag, ended);
        if r < |issued| { assert longer[r] == issued[r]; }
      }
    }
  }

  lemma ExtendWork(sites: Sites, a: P.System<Tag>, b: P.System<Tag>, done: set<(string, Owner)>,
                   artifacts: set<(string, string)>)
    requires P.Inv(sites.Keys, a) && WorkInv(sites, a, done, artifacts)
    requires b.hub.tag == a.hub.tag && b.results == a.results
    requires b.issued == a.issued || b.issued == a.issued + [a.hub.tag]
    requires b.hub.active < |b.issued| && b.issued[b.hub.active] == a.hub.tag
    requires b.hub.ready ==> ReadyAllowed(a.hub.tag)
    ensures WorkInv(sites, b, done, artifacts)
  {
    forall m | m in b.results && m.1 < |b.issued| && b.issued[m.1].Some?
      ensures (m.0, b.issued[m.1].value) in done
    {
      assert P.GenuinePlan(a.issued, a.cache[m.0]);
      assert b.issued[m.1] == a.issued[m.1];
    }
  }

  lemma PassKeeps(sites: Sites, s: State, e: Event)
    requires Inv(sites, s) && Enabled(sites, s, e) && e.Protocol? && e.e.Pass?
    ensures Inv(sites, Do(sites, s, e))
  {
    var t := Do(sites, s, e);
    assert t.sys.issued == s.sys.issued || t.sys.issued == s.sys.issued + [s.sys.hub.tag];
    P.PassKeeps(sites.Keys, s.sys, e.e);
    ExtendWindow(sites, s.sys, t.sys, s.done, s.floor, s.recent);
    ExtendWork(sites, s.sys, t.sys, s.done, s.artifacts);
    ExtendOwner(s.sys.issued, s.sys.hub.tag, s.expected, s.ended);
    ExtendHistory(s.sys.issued, s.sys.hub.tag, s.ended);
  }

  /** Messages and reports leave the plan history alone. */
  lemma QuietProtocolKeeps(sites: Sites, s: State, e: Event)
    requires Inv(sites, s) && Enabled(sites, s, e) && e.Protocol? && !e.e.Pass?
    ensures Inv(sites, Do(sites, s, e))
  {
    P.StepKeeps(sites.Keys, s.sys, e.e);
    var t := Do(sites, s, e);
    P.QuietStep(sites.Keys, s.sys, e.e);
    QuietWindow(sites, s.sys, t.sys, s.done, s.floor, s.recent);
    QuietReports(sites, s, e.e);
    QuietWork(sites, s.sys, t.sys, s.done, s.artifacts);
  }

  lemma QuietWork(sites: Sites, a: P.System<Tag>, b: P.System<Tag>, done: set<(string, Owner)>,
                  artifacts: set<(string, string)>)
    requires WorkInv(sites, a, done, artifacts)
    requires b.issued == a.issued && b.hub.tag == a.hub.tag && b.hub.active == a.hub.active
    requires b.hub.ready ==> a.hub.ready
    requires ReportedWork(b.issued, b.results, done)
    ensures WorkInv(sites, b, done, artifacts)
  {
  }

  lemma QuietWindow(sites: Sites, a: P.System<Tag>, b: P.System<Tag>, done: set<(string, Owner)>,
                    floor: nat, recent: seq<Tag>)
    requires WindowInv(sites, a, done, floor, recent)
    requires P.Grows(a, b) && b.issued == a.issued && b.hub.tag == a.hub.tag
    ensures WindowInv(sites, b, done, floor, recent)
  {
    assert floor > 0 ==> Held(sites, b.cache, floor);
  }

  lemma QuietReports(sites: Sites, s: State, e: P.Event<Tag>)
    requires P.Inv(sites.Keys, s.sys) && ReportedWork(s.sys.issued, s.sys.results, s.done)
    requires Enabled(sites, s, Protocol(e)) && !e.Pass?
    ensures ReportedWork(s.sys.issued, P.Do(sites.Keys, s.sys, e).results, s.done)
  {
    if e.Report? {
      assert P.GenuinePlan(s.sys.issued, s.sys.cache[e.site]);
    }
  }

  // Changing the tag.

  lemma PatchedKeepsProtocol(sites: Sites, s: State, tag: Tag)
    requires P.Inv(sites.Keys, s.sys)
    ensures P.Inv(sites.Keys, Patched(s, tag))
  {
    P.StepKeeps(sites.Keys, s.sys, P.Event.Patch(tag));
  }

  /** The new tag is new to this history and takes over from the old owner or follows its end. */
  ghost predicate Follows(s: State, tag: Tag, ended: set<string>) {
    && s.ended <= ended
    && (tag.Some? ==> tag.value.uid !in ended)
    && (s.sys.hub.tag.Some? ==> s.sys.hub.tag.value.uid in ended ||
                                (tag.Some? && SameOperation(s.sys.hub.tag.value, tag.value) &&
                                 Reaches(s.sys.hub.tag.value.phase, tag.value.phase) &&
                                 s.sys.hub.tag.value.phase != tag.value.phase))
  }

  lemma FollowsIsFresh(issued: seq<Tag>, s: State, tag: Tag, ended: set<string>)
    requires HistoryInv(issued, s.sys.hub.tag, s.ended) && Follows(s, tag, ended)
    ensures HistoryInv(issued, tag, ended)
    ensures OwnerInv(issued, tag, |issued|, ended)
  {
    forall r | 0 <= r < |issued|
      ensures Accounted(issued[r], tag, ended) && (tag.Some? ==> issued[r] != tag)
    {
      assert Accounted(issued[r], s.sys.hub.tag, s.ended);
    }
  }

  /** With every site on the active revision, the hub may move to any tag that follows it. */
  lemma MoveOnKeeps(sites: Sites, s: State, tag: Tag, ended: set<string>)
    requires Inv(sites, s) && P.AllSitesApplied(s.sys.hub.sites, s.sys.hub.active)
    requires Settled(s.sys.issued[s.sys.hub.active], tag)
    requires Follows(s, tag, ended)
    requires tag.Some? && Convertible(tag.value.phase) ==> Captured(sites, s.artifacts, tag.value.uid)
    ensures Inv(sites, MoveOn(s, tag).(ended := ended))
  {
    var t := MoveOn(s, tag).(ended := ended);
    P.AllAppliedMeansReported(sites.Keys, s.sys);
    PatchedKeepsProtocol(sites, s, tag);
    FollowsIsFresh(s.sys.issued, s, tag, ended);
    MoveOnWindow(sites, s, tag);
    PatchedWork(sites, s, tag);
  }

  lemma PatchedWork(sites: Sites, s: State, tag: Tag)
    requires WorkInv(sites, s.sys, s.done, s.artifacts)
    requires tag.Some? && Convertible(tag.value.phase) ==> Captured(sites, s.artifacts, tag.value.uid)
    ensures WorkInv(sites, Patched(s, tag), s.done, s.artifacts)
  {
  }

  lemma MoveOnWindow(sites: Sites, s: State, tag: Tag)
    requires s.sys.hub.active > 0 && |s.sys.issued| == s.sys.hub.active + 1
    requires ReportedWork(s.sys.issued, s.sys.results, s.done)
    requires Settled(s.sys.issued[s.sys.hub.active], tag)
    requires forall n :: n in sites ==>
               (n, s.sys.hub.active) in s.sys.results && n in s.sys.cache && s.sys.hub.active <= s.sys.cache[n].revision
    ensures WindowInv(sites, Patched(s, tag), s.done, s.sys.hub.active, [s.sys.issued[s.sys.hub.active], tag])
  {
    var base := s.sys.issued[s.sys.hub.active];
    if base.Some? {
      forall n | n in sites ensures (n, base.value) in s.done {
        assert (n, s.sys.hub.active) in s.sys.results;
      }
    }
  }

  /** Rollback and release may happen at once, whatever the sites hold. */
  lemma InterruptKeeps(sites: Sites, s: State, tag: Tag, ended: set<string>)
    requires Inv(sites, s) && s.sys.hub.tag.Some?
    requires RollbackFrom(s.sys.hub.tag, tag) || tag.None?
    requires s.sys.hub.tag.value.uid in s.deleting || (tag.Some? && Convertible(s.sys.hub.tag.value.phase))
    requires Follows(s, tag, ended)
    ensures Inv(sites, Interrupt(s, tag).(ended := ended))
  {
    PatchedKeepsProtocol(sites, s, tag);
    FollowsIsFresh(s.sys.issued, s, tag, ended);
    InterruptWindow(sites, s, tag);
    PatchedWork(sites, s, tag);
  }

  lemma InterruptWindow(sites: Sites, s: State, tag: Tag)
    requires WindowInv(sites, s.sys, s.done, s.floor, s.recent) && s.sys.hub.tag.Some?
    requires RollbackFrom(s.sys.hub.tag, tag) || tag.None?
    requires DeletionInv(s.recent, s.deleting)
    requires s.sys.hub.tag.value.uid in s.deleting || (tag.Some? && Convertible(s.sys.hub.tag.value.phase))
    ensures WindowInv(sites, Patched(s, tag), s.done, s.floor, s.recent + [tag])
    ensures DeletionInv(s.recent + [tag], s.deleting)
  {
    var longer := s.recent + [tag];
    assert longer[0] == s.recent[0] && longer[1] == (s.recent + [tag])[1];
    assert Shape(longer);
    forall r | s.floor <= r < |s.sys.issued| ensures s.sys.issued[r] in longer {
      assert s.sys.issued[r] in s.recent;
    }
  }

  /** When a phase is applied, every site finished it and reported a plan that carries exactly it. */
  lemma AppliedPhaseIsIssued(sites: Sites, s: State)
    requires Inv(sites, s) && s.sys.hub.tag.Some? && PhaseApplied(s)
    ensures s.sys.issued[s.sys.hub.active] == s.sys.hub.tag
    ensures forall n :: n in sites ==> (n, s.sys.hub.active) in s.sys.results
    ensures DoneEverywhere(sites, s.done, s.sys.hub.tag.value)
  {
    P.AllAppliedMeansReported(sites.Keys, s.sys);
    assert s.sys.issued[s.sys.hub.active] == s.sys.hub.tag;
    forall n | n in sites ensures (n, s.sys.hub.tag.value) in s.done {
      assert (n, s.sys.hub.active) in s.sys.results;
    }
  }

  lemma BeginKeeps(sites: Sites, s: State, e: Event)
    requires Inv(sites, s) && Enabled(sites, s, e) && e.Begin?
    ensures Inv(sites, Do(sites, s, e))
  {
    MoveOnKeeps(sites, s, Some(Owner(e.uid, e.primary, Preflight)), s.ended);
  }

  lemma AdvanceKeeps(sites: Sites, s: State, p: Phase)
    requires Inv(sites, s) && s.sys.hub.tag.Some? && PhaseApplied(s)
    requires Successor(s.sys.hub.tag.value.phase) == Some(p)
    ensures Inv(sites, MoveOn(s, Some(s.sys.hub.tag.value.(phase := p))))
  {
    var o := s.sys.hub.tag.value;
    AppliedPhaseIsIssued(sites, s);
    SuccessorReaches(o.phase);
    if Convertible(p) {
      SnapshotIsCaptured(sites, s.done, s.artifacts, o);
    }
    assert Follows(s, Some(o.(phase := p)), s.ended);
    assert Settled(s.sys.hub.tag, Some(o.(phase := p)));
    MoveOnKeeps(sites, s, Some(o.(phase := p)), s.ended);
  }

  lemma SnapshotIsCaptured(sites: Sites, done: set<(string, Owner)>, artifacts: set<(string, string)>, o: Owner)
    requires forall d :: d in done && d.1.phase == Snapshot ==> SiteCaptured(sites, artifacts, d.0, d.1.uid)
    requires DoneEverywhere(sites, done, o)
    requires o.phase == Snapshot || Captured(sites, artifacts, o.uid)
    ensures Captured(sites, artifacts, o.uid)
  {
    if o.phase == Snapshot {
      forall n | n in sites ensures SiteCaptured(sites, artifacts, n, o.uid) {
        assert (n, o) in done;
      }
    }
  }

  lemma RollbackKeeps(sites: Sites, s: State)
    requires Inv(sites, s) && s.sys.hub.tag.Some?
    requires var o := s.sys.hub.tag.value;
             Convertible(o.phase) || (DecideDeletion(o.phase, false) == EnterRollback && o.uid in s.deleting)
    ensures Inv(sites, Interrupt(s, Some(s.sys.hub.tag.value.(phase := Rollback))))
  {
    var o := s.sys.hub.tag.value;
    RollbackReachable(o.phase);
    assert Follows(s, Some(o.(phase := Rollback)), s.ended);
    InterruptKeeps(sites, s, Some(o.(phase := Rollback)), s.ended);
  }

  lemma EndKeeps(sites: Sites, s: State)
    requires Inv(sites, s) && s.sys.hub.tag.Some? && PhaseApplied(s)
    requires Successor(s.sys.hub.tag.value.phase).None?
    ensures Inv(sites, MoveOn(s, None).(ended := EndOwner(s)))
  {
    AppliedPhaseIsIssued(sites, s);
    MoveOnKeeps(sites, s, None, EndOwner(s));
  }

  lemma UpgradePassKeeps(sites: Sites, s: State, d: Decision)
    requires Inv(sites, s) && s.sys.hub.tag.Some?
    requires var p := s.sys.hub.tag.value.phase;
             && (d.Advance? && d.phase == Rollback ==> Convertible(p))
             && (d.Advance? && d.phase != Rollback ==> PhaseApplied(s) && Successor(p) == Some(d.phase))
             && (d.Complete? || d.RolledBack? ==> PhaseApplied(s) && Successor(p).None?)
    ensures Inv(sites, Act(s, d))
  {
    match d
    case Wait =>
    case Advance(p) => if p == Rollback { RollbackKeeps(sites, s); } else { AdvanceKeeps(sites, s, p); }
    case Complete => EndKeeps(sites, s);
    case RolledBack => EndKeeps(sites, s);
  }

  lemma DeletionPassKeeps(sites: Sites, s: State, d: DeletionDecision)
    requires Inv(sites, s) && s.sys.hub.tag.Some? && s.sys.hub.tag.value.uid in s.deleting
    requires d.EnterRollback? ==> DecideDeletion(s.sys.hub.tag.value.phase, false) == EnterRollback
    ensures Inv(sites, ActOnDeletion(s, d))
  {
    match d
    case Release => InterruptKeeps(sites, s, None, EndOwner(s));
    case EnterRollback => RollbackKeeps(sites, s);
    case Hold =>
  }

  lemma CaptureKeeps(sites: Sites, s: State, e: Event)
    requires Inv(sites, s) && Enabled(sites, s, e) && e.Capture?
    ensures Inv(sites, Do(sites, s, e))
  {
    assert WorkInv(sites, s.sys, s.done, Do(sites, s, e).artifacts);
  }

  lemma FinishLocalKeeps(sites: Sites, s: State, e: Event)
    requires Inv(sites, s) && Enabled(sites, s, e) && e.FinishLocal?
    ensures Inv(sites, Do(sites, s, e))
  {
    var t := Do(sites, s, e);
    assert WindowInv(sites, s.sys, t.done, s.floor, s.recent);
    assert WorkInv(sites, s.sys, t.done, s.artifacts);
  }

  /** Every event of every run keeps the invariant. */
  lemma StepKeeps(sites: Sites, s: State, e: Event)
    requires Inv(sites, s) && Enabled(sites, s, e)
    ensures Inv(sites, Do(sites, s, e))
  {
    match e
    case Protocol(p) => if p.Pass? { PassKeeps(sites, s, e); } else { QuietProtocolKeeps(sites, s, e); }
    case Begin(_, _) => BeginKeeps(sites, s, e);
    case UpgradePass(syncSatisfied, backupReady) =>
      DecisionFollowsChain(s.sys.hub.tag.value.phase, AnyFailed(s.sys.hub.sites), PhaseApplied(s),
                           syncSatisfied, backupReady);
      UpgradePassKeeps(sites, s, Decide(s, syncSatisfied, backupReady));
    case DeletionPass(abandon) =>
      DeletionPassKeeps(sites, s, DecideDeletion(s.sys.hub.tag.value.phase, abandon));
    case RequestDeletion(_) =>
    case Capture(_, _) => CaptureKeeps(sites, s, e);
    case FinishLocal(_) => FinishLocalKeeps(sites, s, e);
  }

}
