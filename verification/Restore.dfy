/**
  Point-in-time restore into an isolated target, over the plan-revision protocol.

  The target's annotations carry the restore phase and, separately, the owner of a running
  upgrade; both are part of every plan. Runs contain instance passes, messages, restore
  passes whose last write may be lost, deletion of the restore record, forced abandonment,
  and upgrades that try to begin at any moment.
*/
module Restore {
  import opened Common
  import opened Names
  import opened UpgradePhases
  import P = PlanProtocol

  datatype RestorePhase = Seed | SeedReplicas | Verify | Finished

  datatype Mark = Mark(restore: Option<RestorePhase>, upgrade: Tag)

  datatype RecordStatus = NoStatus | InProgress | Completed

  /** The stored restore object. */
  datatype Record = Gone | Live(status: RecordStatus)

  /** What an instance pass observed and published: the topology verdict and the standbys. */
  datatype Observation = Observation(trustReady: bool, topologyReady: bool, standbys: nat)

  datatype State = State(sys: P.System<Mark>, record: Record, observed: Observation)

  datatype Event =
    | Protocol(e: P.Event<Mark>)
    | InstancePass(inputs: int, bodies: map<string, int>, seen: Observation)
    | RestorePass(preflight: bool, seedIsPrimary: bool, tdeVerified: bool, statusWritten: bool)
    | DeleteRecord
    | ForceAbandon
    | BeginUpgrade(owner: Owner)
    | ChangeUpgrade(to: Tag)

  predicate Unfinished(m: Mark) { m.restore.Some? && m.restore.value != Finished }

  /** Ready is withheld while a restore is not yet verifying and while an upgrade stops writes. */
  predicate AppliedReady(m: Mark, seen: Observation, required: nat) {
    && (Unfinished(m) ==> m.restore.value == Verify)
    && ReadyAllowed(m.upgrade)
    && seen.trustReady && seen.topologyReady && seen.standbys >= required
  }

  /** The phase switch of the restore reconciler; the same phase means that it keeps waiting. */
  function NextPhase(p: RestorePhase, seedIsPrimary: bool, seen: Observation, required: nat, ready: bool,
                     tdeVerified: bool): RestorePhase
  {
    match p
    case Seed => if seedIsPrimary && seen.topologyReady then SeedReplicas else Seed
    case SeedReplicas => if seen.topologyReady && seen.standbys >= required then Verify else SeedReplicas
    case Verify => if ready && seen.topologyReady && tdeVerified then Finished else Verify
    case Finished => Finished
  }

  predicate Enabled(declared: set<string>, s: State, e: Event) {
    match e
    case Protocol(e) => P.Enabled(declared, s.sys, e) && !e.Patch? && !e.Pass?
    case InstancePass(_, bodies, _) =>
      declared <= bodies.Keys && (Unfinished(s.sys.hub.tag) ==> s.record.Live?)
    case RestorePass(_, _, _, _) => s.record.Live? && s.record.status != Completed
    case DeleteRecord => s.record.Live? && s.record.status != InProgress
    case ForceAbandon => s.record.Live? && s.record.status == InProgress
    case BeginUpgrade(_) =>
      && s.sys.hub.ready && s.sys.hub.tag.upgrade.None?
      && (s.record.Live? ==> s.record.status == Completed)
    case ChangeUpgrade(_) => s.sys.hub.tag.upgrade.Some?
  }

  function Patched(s: State, m: Mark): State { s.(sys := s.sys.(hub := s.sys.hub.(tag := m))) }

  function DoRestore(s: State, required: nat, preflight: bool, seedIsPrimary: bool, tdeVerified: bool,
                     statusWritten: bool): State
    requires s.record.Live?
  {
    var m := s.sys.hub.tag;
    if !preflight || m.restore.None? then s.(record := Live(InProgress))
    else
      var next := NextPhase(m.restore.value, seedIsPrimary, s.observed, required, s.sys.hub.ready, tdeVerified);
      Patched(s, m.(restore := Some(next)))
      .(record := if next == Finished && statusWritten then Live(Completed) else Live(InProgress))
  }

  function Do(declared: set<string>, required: nat, s: State, e: Event): State
    requires Enabled(declared, s, e)
  {
    match e
    case Protocol(e) => s.(sys := P.Do(declared, s.sys, e))
    case InstancePass(inputs, bodies, seen) =>
      s.(sys := P.Do(declared, s.sys, P.Pass(inputs, bodies, AppliedReady(s.sys.hub.tag, seen, required))),
         observed := seen)
    case RestorePass(preflight, seedIsPrimary, tdeVerified, statusWritten) =>
      DoRestore(s, required, preflight, seedIsPrimary, tdeVerified, statusWritten)
    case DeleteRecord => s.(record := Gone)
    case ForceAbandon => Patched(s, s.sys.hub.tag.(restore := None)).(record := Gone)
    case BeginUpgrade(owner) => Patched(s, s.sys.hub.tag.(upgrade := Some(owner)))
    case ChangeUpgrade(owner) => Patched(s, s.sys.hub.tag.(upgrade := owner))
  }

  /** A restore target is born with phase Seed; any other instance never had a restore. */
  function Init(target: bool): State {
    State(P.Init(Mark(if target then Some(Seed) else None, None)), if target then Live(NoStatus) else Gone,
          Observation(false, false, 0))
  }

  ghost predicate Run(declared: set<string>, required: nat, ss: seq<State>, es: seq<Event>) {
    && |ss| == |es| + 1 && declared != {}
    && (exists target :: ss[0] == Init(target))
    && forall i :: 0 <= i < |es| ==> Enabled(declared, ss[i], es[i]) && ss[i + 1] == Do(declared, required, ss[i], es[i])
  }

  // ------------------------------------------------------------------------------------
  // What every step keeps
  // ------------------------------------------------------------------------------------

  function Order(p: RestorePhase): nat {
    match p
    case Seed => 0
    case SeedReplicas => 1
    case Verify => 2
    case Finished => 3
  }

  /** While a restore is unfinished, every issued plan carries its phase or an earlier one. */
  predicate IssuedInv(issued: seq<Mark>, m: Mark) {
    Unfinished(m) ==>
      forall r :: 0 <= r < |issued| ==> Unfinished(issued[r]) && Order(issued[r].restore.value) <= Order(m.restore.value)
  }

  /** An unfinished restore excludes an upgrade, and its object is there unless nothing has happened yet. */
  predicate RecordInv(m: Mark, record: Record) {
    Unfinished(m) ==>
      && m.upgrade.None?
      && (record.Live? ==> record.status != Completed && (record.status == NoStatus ==> m.restore.value == Seed))
      && (record.Gone? ==> m.restore.value == Seed)
  }

  predicate ReadyInv(h: P.Hub<Mark>, issued: seq<Mark>, seen: Observation, required: nat) {
    h.ready ==> h.active < |issued| && AppliedReady(issued[h.active], seen, required)
  }

  ghost predicate Inv(declared: set<string>, required: nat, s: State) {
    && P.Inv(declared, s.sys)
    && IssuedInv(s.sys.issued, s.sys.hub.tag)
    && RecordInv(s.sys.hub.tag, s.record)
    && ReadyInv(s.sys.hub, s.sys.issued, s.observed, required)
  }

  lemma ProtocolKeeps(declared: set<string>, required: nat, s: State, e: Event)
    requires Inv(declared, required, s) && e.Protocol? && Enabled(declared, s, e)
    ensures Inv(declared, required, Do(declared, required, s, e))
  {
    assert P.Inv(declared, P.Do(declared, s.sys, e.e)) by { P.StepKeeps(declared, s.sys, e.e); }
    P.QuietStep(declared, s.sys, e.e);
  }

  lemma InstancePassKeeps(declared: set<string>, required: nat, s: State, e: Event)
    requires Inv(declared, required, s) && e.InstancePass? && Enabled(declared, s, e)
    ensures Inv(declared, required, Do(declared, required, s, e))
  {
    var pass := P.Pass(e.inputs, e.bodies, AppliedReady(s.sys.hub.tag, e.seen, required));
    var t := P.Do(declared, s.sys, pass);
    assert P.Inv(declared, t) by { P.StepKeeps(declared, s.sys, pass); }
    assert t.issued[t.hub.active] == s.sys.hub.tag by { P.PassKeepsHub(declared, s.sys, pass); }
    assert t.issued == s.sys.issued || t.issued == s.sys.issued + [s.sys.hub.tag];
    assert t.hub.ready ==> AppliedReady(s.sys.hub.tag, e.seen, required);
    IssuedOneMore(s.sys.issued, s.sys.hub.tag);
  }

  lemma IssuedOneMore(issued: seq<Mark>, m: Mark)
    requires IssuedInv(issued, m)
    ensures IssuedInv(issued + [m], m)
  {
  }

  lemma PatchKeeps(declared: set<string>, required: nat, s: State, m: Mark)
    requires P.Inv(declared, s.sys) && ReadyInv(s.sys.hub, s.sys.issued, s.observed, required)
    ensures
      var t := Patched(s, m);
      P.Inv(declared, t.sys) && ReadyInv(t.sys.hub, t.sys.issued, t.observed, required)
  {
  }

  /** A ready instance with an unfinished restore has issued Verify to every site. */
  lemma ReadyIsVerified(declared: set<string>, required: nat, s: State)
    requires Inv(declared, required, s) && s.sys.hub.ready && Unfinished(s.sys.hub.tag)
    ensures s.sys.issued[s.sys.hub.active].restore == Some(Verify) && s.sys.hub.tag.restore == Some(Verify)
  {
  }

  /** The marks and the record after an event that changes nothing else. */
  lemma MarksKeep(declared: set<string>, required: nat, s: State, e: Event)
    requires Enabled(declared, s, e) && !e.Protocol? && !e.InstancePass?
    requires IssuedInv(s.sys.issued, s.sys.hub.tag) && RecordInv(s.sys.hub.tag, s.record)
    requires s.sys.hub.ready && Unfinished(s.sys.hub.tag) ==> s.sys.hub.tag.restore == Some(Verify)
    ensures
      var t := Do(declared, required, s, e);
      && IssuedInv(t.sys.issued, t.sys.hub.tag) && RecordInv(t.sys.hub.tag, t.record)
      && t.sys == Patched(s, t.sys.hub.tag).sys && t.observed == s.observed
  {
  }

  /** Every event of every run keeps the invariant. */
  lemma StepKeeps(declared: set<string>, required: nat, s: State, e: Event)
    requires Inv(declared, required, s) && Enabled(declared, s, e)
    ensures Inv(declared, required, Do(declared, required, s, e))
  {
    if e.Protocol? {
      ProtocolKeeps(declared, required, s, e);
    } else if e.InstancePass? {
      InstancePassKeeps(declared, required, s, e);
    } else {
      if s.sys.hub.ready && Unfinished(s.sys.hub.tag) {
        ReadyIsVerified(declared, required, s);
      }
      MarksKeep(declared, required, s, e);
      PatchKeeps(declared, required, s, Do(declared, required, s, e).sys.hub.tag);
    }
  }

  lemma {:induction false} RunKeeps(declared: set<string>, required: nat, ss: seq<State>, es: seq<Event>, i: nat)
    requires Run(declared, required, ss, es) && i < |ss|
    ensures Inv(declared, required, ss[i])
  {
    if i > 0 {
      RunKeeps(declared, required, ss, es, i - 1);
      StepKeeps(declared, required, ss[i - 1], es[i - 1]);
    }
  }

  /** In every run, no instance ever carries both an unfinished restore and an upgrade owner. */
  lemma RestoreExcludesUpgrade(declared: set<string>, required: nat, ss: seq<State>, es: seq<Event>, i: nat)
    requires Run(declared, required, ss, es) && i < |ss|
    ensures !(Unfinished(ss[i].sys.hub.tag) && ss[i].sys.hub.tag.upgrade.Some?)
  {
    RunKeeps(declared, required, ss, es, i);
  }

  /** Every site reported the active revision, which carries Verify, under an agreed topology with the standbys. */
  ghost predicate Accepted(declared: set<string>, required: nat, s: State) {
    var h := s.sys.hub;
    && h.active < |s.sys.issued| && s.sys.issued[h.active].restore == Some(Verify)
    && P.AllSitesApplied(h.sites, h.active) && h.sites.Keys == declared
    && (forall n :: n in declared ==> (n, h.active) in s.sys.results)
    && s.observed.topologyReady && s.observed.standbys >= required
  }

  predicate Done(s: State) {
    s.sys.hub.tag.restore == Some(Finished) || s.record == Live(Completed)
  }

  lemma FinishingIsAccepted(declared: set<string>, required: nat, s: State, e: Event)
    requires Inv(declared, required, s) && Enabled(declared, s, e)
    requires !Done(s) && Done(Do(declared, required, s, e))
    ensures Accepted(declared, required, s)
  {
    if e.Protocol? {
      P.QuietStep(declared, s.sys, e.e);
    } else {
      ReadyIsVerified(declared, required, s);
      P.AllAppliedMeansReported(declared, s.sys);
    }
  }

  /** In every run, a restore is Completed only after a state in which it was accepted. */
  lemma {:induction false} CompletedWasAccepted(declared: set<string>, required: nat, ss: seq<State>, es: seq<Event>, j: nat)
    requires Run(declared, required, ss, es) && j < |ss| && Done(ss[j])
    ensures exists i :: 0 <= i <= j && Accepted(declared, required, ss[i])
  {
    if j > 0 {
      if Done(ss[j - 1]) {
        CompletedWasAccepted(declared, required, ss, es, j - 1);
      } else {
        assert Accepted(declared, required, ss[j - 1]) by {
          RunKeeps(declared, required, ss, es, j - 1);
          FinishingIsAccepted(declared, required, ss[j - 1], es[j - 1]);
        }
      }
    }
  }

  /** The annotations of the target and the status of the restore object, as the controller updates them. */
  class RestoreController {
    var mark: Mark
    var record: Record

    constructor (mark: Mark, record: Record)
      ensures this.mark == mark && this.record == record
    {
      this.mark, this.record := mark, record;
    }

    ghost predicate Represents(s: State)
      reads this
    {
      s.sys.hub.tag == mark && s.record == record
    }

    method SetTargetPhase(phase: RestorePhase)
      modifies this`mark
      ensures mark == old(mark).(restore := Some(phase))
    {
      mark := mark.(restore := Some(phase));
    }

    method Reconcile(preflight: bool, seedIsPrimary: bool, seen: Observation, required: nat, ready: bool,
                     tdeVerified: bool, statusWritten: bool, ghost s: State)
      requires Represents(s) && record.Live? && s.observed == seen && s.sys.hub.ready == ready
      modifies this
      ensures Represents(DoRestore(s, required, preflight, seedIsPrimary, tdeVerified, statusWritten))
    {
      record := Live(InProgress);
      if !preflight || mark.restore.None? {
        return;
      }
      match mark.restore.value {
        case Seed =>
          if seedIsPrimary && seen.topologyReady {
            SetTargetPhase(SeedReplicas);
          }
        case SeedReplicas =>
          if seen.topologyReady && seen.standbys >= required {
            SetTargetPhase(Verify);
          }
        case Verify =>
          if ready && seen.topologyReady && tdeVerified {
            SetTargetPhase(Finished);
            if statusWritten {
              record := Live(Completed);
            }
          }
        case Finished =>
          if statusWritten {
            record := Live(Completed);
          }
      }
    }
  }

  // ------------------------------------------------------------------------------------
  // Conflicting operations
  // ------------------------------------------------------------------------------------

  datatype OperationPhase = Open | Complete | Failed

  /** An upgrade or restore object in the namespace, with the instance it works on. */
  datatype Operation = Operation(name: string, instance: string, phase: OperationPhase)

  predicate Blocks(o: Operation, instance: string) { o.instance == instance && o.phase == Open }

  /** A restore is blocked exactly by an open upgrade of its target, or by another open restore into it. */
  method OperationConflict(upgrades: seq<Operation>, restores: seq<Operation>, instance: string, name: string)
    returns (conflict: bool)
    ensures conflict <==>
            || (exists o :: o in upgrades && o.instance == instance && o.phase !in {OperationPhase.Complete, OperationPhase.Failed})
            || (exists o :: o in restores && o.name != name && o.instance == instance && o.phase !in {OperationPhase.Complete, OperationPhase.Failed})
  {
    for i := 0 to |upgrades|
      invariant forall o :: o in upgrades[..i] ==> !Blocks(o, instance)
    {
      if Blocks(upgrades[i], instance) {
        return true;
      }
    }
    assert upgrades[..|upgrades|] == upgrades;
    for i := 0 to |restores|
      invariant forall o :: o in restores[..i] ==> o.name == name || !Blocks(o, instance)
    {
      if restores[i].name != name && Blocks(restores[i], instance) {
        return true;
      }
    }
    assert restores[..|restores|] == restores;
    return false;
  }

  // ------------------------------------------------------------------------------------
  // The seed
  // ------------------------------------------------------------------------------------

  datatype SeedSite = SeedSite(name: string, isData: bool, replicas: int, preference: int)

  predicate Eligible(s: SeedSite) { s.isData && s.replicas >= 1 }

  /** Highest preference first, then the least name. */
  predicate Preferred(a: SeedSite, b: SeedSite) {
    a.preference > b.preference || (a.preference == b.preference && Less(a.name, b.name))
  }

  /** The one seed of a topology: eligible, and no other eligible site is preferred to it. */
  predicate IsSeed(sites: seq<SeedSite>, s: SeedSite) {
    s in sites && Eligible(s) && forall t :: t in sites && Eligible(t) ==> !Preferred(t, s)
  }

  method SelectRestoreSeed(sites: seq<SeedSite>) returns (seed: Option<SeedSite>)
    ensures seed.None? <==> forall t :: t in sites ==> !Eligible(t)
    ensures seed.Some? ==> IsSeed(sites, seed.value)
  {
    seed := None;
    for i := 0 to |sites|
      invariant seed.None? <==> forall t :: t in sites[..i] ==> !Eligible(t)
      invariant seed.Some? ==> IsSeed(sites[..i], seed.value)
    {
      var site := sites[i];
      assert sites[..i + 1] == sites[..i] + [site];
      if Eligible(site) && (seed.None? || Preferred(site, seed.value)) {
        if seed.Some? {
          PreferredExtends(sites[..i], seed.value, site);
        }
        if Less(site.name, site.name) { LessAsymmetric(site.name, site.name); }
        seed := Some(site);
      }
    }
    assert sites[..|sites|] == sites;
  }

  lemma PreferredExtends(sites: seq<SeedSite>, before: SeedSite, after: SeedSite)
    requires IsSeed(sites, before) && Preferred(after, before)
    ensures forall t :: t in sites && Eligible(t) ==> !Preferred(t, after)
  {
    forall t | t in sites && Eligible(t) && Preferred(t, after)
      ensures Preferred(t, before)
    {
      if t.preference == before.preference {
        LessTransitive(t.name, after.name, before.name);
      }
    }
  }

  /** The seed is a data site with a member; no such site has a higher preference, or the same and a lesser name. */
  lemma SeedIsBest(sites: seq<SeedSite>, s: SeedSite, t: SeedSite)
    requires IsSeed(sites, s) && t in sites && t.isData && t.replicas > 0
    ensures s.isData && s.replicas > 0 && t.preference <= s.preference
    ensures t.preference == s.preference ==> t.name == s.name || Less(s.name, t.name)
  {
    LessTotal(s.name, t.name);
  }

  /** Hub, target validation and restore plan agree: with distinct names there is one seed only. */
  lemma SeedIsUnique(sites: seq<SeedSite>, a: SeedSite, b: SeedSite)
    requires IsSeed(sites, a) && IsSeed(sites, b)
    requires forall x, y :: x in sites && y in sites && x.name == y.name ==> x == y
    ensures a == b
  {
    if a.name != b.name {
      LessTotal(a.name, b.name);
    }
  }
}
