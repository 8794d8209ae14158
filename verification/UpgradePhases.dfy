/**
  The thirteen phases of a major upgrade: what the hub decides in each of them, and what a
  site renders for each of them.
*/
module UpgradePhases {
  import opened Common

  datatype Phase =
    | Preflight | Drain | Stop | Snapshot | UpgradePrimary | StanzaUpgrade | StartPrimary
    | Replicas | RestoreWrites | Finalize
    | Rollback | RollbackStart | RollbackRestoreWrites

  /** The upgrade that owns an instance, as its annotations and plans carry it. */
  datatype Owner = Owner(uid: string, primary: string, phase: Phase)

  type Tag = Option<Owner>

  function Rank(p: Phase): nat {
    match p
    case Preflight => 0
    case Drain => 1
    case Stop => 2
    case Snapshot => 3
    case UpgradePrimary => 4
    case StanzaUpgrade => 5
    case StartPrimary => 6
    case Replicas => 7
    case RestoreWrites => 8
    case Finalize => 9
    case Rollback => 10
    case RollbackStart => 11
    case RollbackRestoreWrites => 12
  }

  predicate Forward(p: Phase) { Rank(p) <= 9 }

  /** Phases in which an automatic rollback is still allowed when a site fails. */
  predicate Convertible(p: Phase) {
    p == UpgradePrimary || p == StanzaUpgrade || p == StartPrimary
  }

  predicate RollingBack(p: Phase) {
    p == Rollback || p == RollbackStart || p == RollbackRestoreWrites
  }

  /** The phase that follows once every site applied this one; the last of each chain has none. */
  function Successor(p: Phase): Option<Phase> {
    match p
    case Preflight => Some(Drain)
    case Drain => Some(Stop)
    case Stop => Some(Snapshot)
    case Snapshot => Some(UpgradePrimary)
    case UpgradePrimary => Some(StanzaUpgrade)
    case StanzaUpgrade => Some(StartPrimary)
    case StartPrimary => Some(Replicas)
    case Replicas => Some(RestoreWrites)
    case RestoreWrites => Some(Finalize)
    case Finalize => None
    case Rollback => Some(RollbackStart)
    case RollbackStart => Some(RollbackRestoreWrites)
    case RollbackRestoreWrites => None
  }

  datatype Decision = Wait | Advance(phase: Phase) | Complete | RolledBack

  /** The phase switch of the major-upgrade reconciler. */
  function DecideMajor(p: Phase, failed: bool, applied: bool, syncSatisfied: bool, backupReady: bool): Decision {
    if failed && Convertible(p) then Advance(Rollback)
    else if failed && !RollingBack(p) then Wait
    else if !applied then Wait
    else match p
      case Replicas => if syncSatisfied then Advance(RestoreWrites) else Wait
      case Finalize => if backupReady then Complete else Wait
      case RollbackRestoreWrites => RolledBack
      case _ => Advance(Successor(p).value)
  }

  /** The owner that a decision leaves. */
  function After(o: Owner, d: Decision): Tag {
    match d
    case Wait => Some(o)
    case Advance(p) => Some(o.(phase := p))
    case _ => None
  }

  datatype DeletionDecision = Release | EnterRollback | Hold

  /** What deleting the upgrade object does to the instance it owns. */
  function DecideDeletion(p: Phase, abandon: bool): DeletionDecision {
    if abandon then Release
    else match p
      case Preflight => Release
      case Drain => EnterRollback
      case Stop => EnterRollback
      case Snapshot => EnterRollback
      case UpgradePrimary => EnterRollback
      case StanzaUpgrade => EnterRollback
      case StartPrimary => EnterRollback
      case _ => Hold
  }

  /** Phases during which an instance may be declared Ready although it is being upgraded. */
  predicate ReadyAllowed(tag: Tag) {
    tag.None? || tag.value.phase == Preflight || tag.value.phase == RollbackRestoreWrites
  }

  /** The plan keeps Pgpool at zero replicas. */
  predicate WriteServiceStopped(tag: Tag) {
    tag.Some? &&
    match tag.value.phase
    case Drain | Stop | Snapshot | UpgradePrimary | StanzaUpgrade | StartPrimary | Replicas
       | Rollback | RollbackStart => true
    case _ => false
  }

  /** The plan keeps this PostgreSQL member at zero replicas. */
  predicate MemberStopped(tag: Tag, member: string) {
    tag.Some? &&
    match tag.value.phase
    case Stop | Snapshot | UpgradePrimary | StanzaUpgrade | Rollback => true
    case StartPrimary | RollbackStart => member != tag.value.primary
    case _ => false
  }

  predicate SameOperation(a: Owner, b: Owner) { a.uid == b.uid && a.primary == b.primary }

  /** `q` can follow `p` within one operation. */
  predicate Reaches(p: Phase, q: Phase) {
    if Forward(p) && Forward(q) then Rank(p) <= Rank(q)
    else if Forward(p) then Rank(p) <= Rank(StartPrimary)
    else !Forward(q) && Rank(p) <= Rank(q)
  }

  /** A major upgrade moves only along its chain, and only a conversion phase jumps to rollback. */
  lemma DecisionFollowsChain(p: Phase, failed: bool, applied: bool, syncSatisfied: bool, backupReady: bool)
    ensures
      var d := DecideMajor(p, failed, applied, syncSatisfied, backupReady);
      && (d.Advance? && d.phase == Rollback ==> failed && Convertible(p))
      && (d.Advance? && d.phase != Rollback ==> applied && Successor(p) == Some(d.phase))
      && (d.Complete? || d.RolledBack? ==> applied && Successor(p).None?)
  {
  }

  lemma SuccessorReaches(p: Phase)
    ensures Successor(p).Some? ==> Reaches(p, Successor(p).value) && Successor(p).value != p
    ensures Successor(p).Some? ==> Successor(p).value != Preflight && Successor(p).value != Rollback
    ensures Successor(p) == Some(UpgradePrimary) ==> p == Snapshot
    ensures Successor(p).Some? && Convertible(Successor(p).value) ==> p == Snapshot || Convertible(p)
  {
  }

  lemma RollbackReachable(p: Phase)
    requires Convertible(p) || DecideDeletion(p, false) == EnterRollback
    ensures Reaches(p, Rollback) && p != Rollback && Rank(Drain) <= Rank(p) <= Rank(StartPrimary)
  {
  }
}
