/**
  Major upgrades together with their post-upgrade backups: a pass in the Finalize phase consults the
  backup status of the upgrade object, and results of backup directives arrive at any time.
*/
module UpgradeCompletion {
  import opened Common
  import opened UpgradePhases
  import opened MajorUpgradeMoves
  import M = MajorUpgrade
  import S = MajorUpgradeSafety
  import W = MajorUpgradeWitness
  import P = PlanProtocol
  import B = PostUpgradeBackup

  /** `backups` has the backup status of each upgrade object that asked for one. */
  datatype State = State(up: M.State, backups: map<string, B.State>)

  datatype Event =
    | Machine(e: M.Event)
    | Reconcile(syncSatisfied: bool, now: int, jitter: nat)
    | BackupResult(uid: string, attempt: nat, success: bool)

  /** The pass reaches the Finalize case of its phase switch. */
  predicate AsksForBackup(s: M.State) {
    s.sys.hub.tag.Some? && s.sys.hub.tag.value.phase == Finalize && !M.AnyFailed(s.sys.hub.sites) && M.PhaseApplied(s)
  }

  function BackupOf(s: State, uid: string, now: int): B.State {
    if uid in s.backups then s.backups[uid] else B.Initial(now)
  }

  /** PostUpgradeBackupReady is true. */
  predicate Verified(s: State, uid: string) { uid in s.backups && s.backups[uid].condition == B.Verified }

  function UpgradeEvent(s: State, e: Event): M.Event
    requires e.Reconcile?
  {
    M.UpgradePass(e.syncSatisfied,
                  AsksForBackup(s.up) && Verified(s, s.up.sys.hub.tag.value.uid))
  }

  predicate Enabled(sites: M.Sites, s: State, e: Event) {
    match e
    case Machine(m) => !m.UpgradePass? && M.Enabled(sites, s.up, m)
    case Reconcile(_, now, jitter) =>
      && M.Enabled(sites, s.up, UpgradeEvent(s, e))
      && (AsksForBackup(s.up) ==> B.Enabled(BackupOf(s, s.up.sys.hub.tag.value.uid, now), B.Pass(now, jitter)))
    case BackupResult(uid, attempt, success) => uid in s.backups && B.Enabled(s.backups[uid], B.Result(attempt, success))
  }

  function Do(sites: M.Sites, s: State, e: Event): State
    requires Enabled(sites, s, e)
  {
    match e
    case Machine(m) => s.(up := M.Do(sites, s.up, m))
    case Reconcile(_, now, jitter) =>
      var up := M.Do(sites, s.up, UpgradeEvent(s, e));
      if AsksForBackup(s.up) then
        var uid := s.up.sys.hub.tag.value.uid;
        State(up, s.backups[uid := B.Do(BackupOf(s, uid, now), B.Pass(now, jitter))])
      else s.(up := up)
    case BackupResult(uid, attempt, success) =>
      s.(backups := s.backups[uid := B.Do(s.backups[uid], B.Result(attempt, success))])
  }

  predicate Run(sites: M.Sites, ss: seq<State>, es: seq<Event>) {
    && sites != map[] && |ss| == |es| + 1 && ss[0] == State(M.Init(), map[])
    && forall i :: 0 <= i < |es| ==> Enabled(sites, ss[i], es[i]) && ss[i + 1] == Do(sites, ss[i], es[i])
  }

  // ------------------------------------------------------------------------------------
  // What every run keeps
  // ------------------------------------------------------------------------------------

  lemma InitReachable(sites: M.Sites)
    requires sites != map[]
    ensures W.Reachable(sites, M.Init())
  {
    var none: seq<M.Event> := [];
    assert S.Run(sites, [M.Init()], none) && [M.Init()][|none|] == M.Init();
  }

  /** The upgrade part of a run is a run of the upgrade machine. */
  lemma {:induction false} UpgradePartIsRun(sites: M.Sites, ss: seq<State>, es: seq<Event>, i: nat)
    requires Run(sites, ss, es) && i < |ss|
    ensures W.Reachable(sites, ss[i].up)
  {
    if i == 0 {
      InitReachable(sites);
    } else {
      UpgradePartIsRun(sites, ss, es, i - 1);
      var s, e := ss[i - 1], es[i - 1];
      assert Enabled(sites, s, e) && ss[i] == Do(sites, s, e);
      match e
      case Machine(m) => var t := W.ReachStep(sites, s.up, m);
      case Reconcile(_, _, _) => var t := W.ReachStep(sites, s.up, UpgradeEvent(s, e));
      case BackupResult(_, _, _) =>
    }
  }

  /** An earlier event reported this attempt of the upgrade's backup successful. */
  predicate Reported(es: seq<Event>, i: nat, uid: string, attempt: nat) {
    exists j :: 0 <= j < i && j < |es| && es[j] == BackupResult(uid, attempt, true)
  }

  ghost predicate BackupInv(es: seq<Event>, i: nat, uid: string, b: B.State) {
    B.Inv(b) && forall a :: a in b.succeeded ==> Reported(es, i, uid, a)
  }

  lemma BackupStepKeeps(es: seq<Event>, i: nat, uid: string, b: B.State, e: B.Event)
    requires i < |es| && BackupInv(es, i, uid, b) && B.Enabled(b, e)
    requires e.Result? && e.success ==> es[i] == BackupResult(uid, e.attempt, true)
    ensures BackupInv(es, i + 1, uid, B.Do(b, e))
  {
    B.StepKeeps(b, e);
    forall a | a in B.Do(b, e).succeeded ensures Reported(es, i + 1, uid, a) {
      if a in b.succeeded {
        var j :| 0 <= j < i && es[j] == BackupResult(uid, a, true);
      } else {
        assert es[i] == BackupResult(uid, a, true);
      }
    }
  }

  lemma BackupLater(es: seq<Event>, i: nat, uid: string, b: B.State)
    requires BackupInv(es, i, uid, b)
    ensures BackupInv(es, i + 1, uid, b)
  {
    forall a | a in b.succeeded ensures Reported(es, i + 1, uid, a) {
      var j :| 0 <= j < i && j < |es| && es[j] == BackupResult(uid, a, true);
    }
  }

  lemma {:induction false} BackupsKeep(sites: M.Sites, ss: seq<State>, es: seq<Event>, i: nat, uid: string)
    requires Run(sites, ss, es) && i < |ss| && uid in ss[i].backups
    ensures BackupInv(es, i, uid, ss[i].backups[uid])
  {
    if i > 0 {
      var s, e := ss[i - 1], es[i - 1];
      assert Enabled(sites, s, e) && ss[i] == Do(sites, s, e);
      if uid in s.backups {
        BackupsKeep(sites, ss, es, i - 1, uid);
        if s.backups[uid] == ss[i].backups[uid] {
          BackupLater(es, i - 1, uid, s.backups[uid]);
        } else {
          BackupStepKeeps(es, i - 1, uid, s.backups[uid],
                          if e.Reconcile? then B.Pass(e.now, e.jitter) else B.Result(e.attempt, e.success));
        }
      } else {
        assert e.Reconcile?;
        BackupStepKeeps(es, i - 1, uid, B.Initial(e.now), B.Pass(e.now, e.jitter));
      }
    }
  }

  // ------------------------------------------------------------------------------------
  // Completion
  // ------------------------------------------------------------------------------------

  /** A reachable machine state and one more event make a run. */
  lemma LastStep(sites: M.Sites, s: M.State, e: M.Event) returns (states: seq<M.State>, events: seq<M.Event>)
    requires W.Reachable(sites, s) && M.Enabled(sites, s, e)
    ensures S.Run(sites, states, events) && |events| > 0 && events[|events| - 1] == e
    ensures states[|events| - 1] == s && states[|events|] == M.Do(sites, s, e)
  {
    states, events :| S.Run(sites, states, events) && states[|events|] == s;
    var longer, more := states + [M.Do(sites, s, e)], events + [e];
    forall i | 0 <= i < |more| ensures S.Next(sites, longer[i], more[i], longer[i + 1]) {
      if i < |events| { assert S.Next(sites, states[i], events[i], states[i + 1]); }
    }
    states, events := longer, more;
  }

  /**
    In every run, a reconcile pass completes an upgrade in Finalize exactly when every site applied
    that phase, no site failed, and PostUpgradeBackupReady is true.
  */
  lemma CompletesExactly(sites: M.Sites, ss: seq<State>, es: seq<Event>, i: nat)
    requires Run(sites, ss, es) && i < |es| && es[i].Reconcile?
    requires ss[i].up.sys.hub.tag.Some? && ss[i].up.sys.hub.tag.value.phase == Finalize
    ensures ss[i + 1].up.sys.hub.tag.None? <==>
            && AppliedEverywhere(sites, ss[i].up) && !SomeSiteFailed(ss[i].up)
            && Verified(ss[i], ss[i].up.sys.hub.tag.value.uid)
  {
    var s := ss[i].up;
    var e := UpgradeEvent(ss[i], es[i]);
    assert Enabled(sites, ss[i], es[i]) && ss[i + 1] == Do(sites, ss[i], es[i]);
    UpgradePartIsRun(sites, ss, es, i);
    var states, events := LastStep(sites, s, e);
    ForwardMovesExactly(sites, states, events, |events| - 1, 9);
    assert M.PhaseApplied(s) <==> AppliedEverywhere(sites, s) by {
      S.RunKeeps(sites, states, events, |events| - 1);
      AppliedExactly(sites, s);
    }
  }

  lemma OtherEventsEndByForce(sites: M.Sites, s: M.State, e: M.Event)
    requires W.Reachable(sites, s) && M.Enabled(sites, s, e) && !e.UpgradePass?
    requires s.sys.hub.tag.Some? && s.sys.hub.tag.value.phase == Finalize
    requires M.Do(sites, s, e).sys.hub.tag != s.sys.hub.tag
    ensures e.DeletionPass? && e.abandon
  {
    var states, events := LastStep(sites, s, e);
    if e.DeletionPass? {
      DeletionExactly(sites, states, events, |events| - 1);
      assert FORWARD[1..7] == [Drain, Stop, Snapshot, UpgradePrimary, StanzaUpgrade, StartPrimary];
    } else {
      OwnersBeginNew(sites, states, events, |events| - 1);
    }
  }

  /** In Finalize, a reconcile pass keeps the instance or lets it go. */
  lemma FinalizeStaysOrEnds(sites: M.Sites, s: M.State, e: M.Event)
    requires W.Reachable(sites, s) && M.Enabled(sites, s, e) && e.UpgradePass?
    requires s.sys.hub.tag.Some? && s.sys.hub.tag.value.phase == Finalize
    ensures M.Do(sites, s, e).sys.hub.tag in {s.sys.hub.tag, None}
  {
    var states, events := LastStep(sites, s, e);
    ForwardMovesExactly(sites, states, events, |events| - 1, 9);
  }

  /** The backup behind a completed upgrade. */
  predicate BackedUp(es: seq<Event>, i: nat, uid: string, directives: set<nat>) {
    |directives| <= 6 && exists a :: a in directives && Reported(es, i, uid, a)
  }

  lemma VerifiedIsBackedUp(sites: M.Sites, ss: seq<State>, es: seq<Event>, i: nat, uid: string)
    requires Run(sites, ss, es) && i < |ss| && Verified(ss[i], uid)
    ensures BackedUp(es, i, uid, ss[i].backups[uid].directives.Keys)
  {
    BackupsKeep(sites, ss, es, i, uid);
    B.AtMostSix(ss[i].backups[uid].directives.Keys);
    var a :| a in ss[i].backups[uid].succeeded;
    assert a in ss[i].backups[uid].directives.Keys && Reported(es, i, uid, a);
  }

  /**
    In every run, an upgrade that has reached Finalize ends in one of two ways: it is abandoned by
    force, or it completes after one of at most six backup directives was reported successful.
  */
  lemma CompletionIsBackedUp(sites: M.Sites, ss: seq<State>, es: seq<Event>, i: nat)
    requires Run(sites, ss, es) && i < |es|
    requires ss[i].up.sys.hub.tag.Some? && ss[i].up.sys.hub.tag.value.phase == Finalize
    requires ss[i + 1].up.sys.hub.tag != ss[i].up.sys.hub.tag
    ensures
      var uid := ss[i].up.sys.hub.tag.value.uid;
      || (es[i].Machine? && es[i].e.DeletionPass? && es[i].e.abandon)
      || (es[i].Reconcile? && uid in ss[i].backups && BackedUp(es, i, uid, ss[i].backups[uid].directives.Keys))
  {
    var s, e := ss[i], es[i];
    assert Enabled(sites, s, e) && ss[i + 1] == Do(sites, s, e);
    UpgradePartIsRun(sites, ss, es, i);
    if e.Reconcile? {
      FinalizeStaysOrEnds(sites, s.up, UpgradeEvent(s, e));
      CompletesExactly(sites, ss, es, i);
      VerifiedIsBackedUp(sites, ss, es, i, s.up.sys.hub.tag.value.uid);
    } else {
      OtherEventsEndByForce(sites, s.up, e.e);
    }
  }

  // ------------------------------------------------------------------------------------
  // Backups come after the upgrade
  // ------------------------------------------------------------------------------------

  /** Every site has reported Ready on a plan that carries the Finalize phase of this upgrade. */
  ghost predicate FinalizeReported(sites: M.Sites, s: M.State, uid: string) {
    exists o: Owner :: o.uid == uid && o.phase == Finalize && forall n :: n in sites ==> S.ReportedReady(s, n, Some(o))
  }

  lemma HistoryGrows(sites: M.Sites, s: M.State, e: M.Event)
    requires M.Enabled(sites, s, e)
    ensures s.sys.issued <= M.Do(sites, s, e).sys.issued && s.sys.results <= M.Do(sites, s, e).sys.results
  {
  }

  lemma ReportsStay(sites: M.Sites, s: M.State, t: M.State, uid: string)
    requires FinalizeReported(sites, s, uid) && s.sys.issued <= t.sys.issued && s.sys.results <= t.sys.results
    ensures FinalizeReported(sites, t, uid)
  {
    var o: Owner :| o.uid == uid && o.phase == Finalize && forall n :: n in sites ==> S.ReportedReady(s, n, Some(o));
    forall n | n in sites ensures S.ReportedReady(t, n, Some(o)) {
      var r :| 0 <= r < |s.sys.issued| && s.sys.issued[r] == Some(o) && (n, r) in s.sys.results;
      assert t.sys.issued[r] == Some(o);
    }
  }

  lemma AskingIsReported(sites: M.Sites, s: M.State)
    requires M.Inv(sites, s) && AsksForBackup(s)
    ensures FinalizeReported(sites, s, s.sys.hub.tag.value.uid)
  {
    M.AppliedPhaseIsIssued(sites, s);
    forall n | n in sites ensures S.ReportedReady(s, n, s.sys.hub.tag) {
      assert s.sys.issued[s.sys.hub.active] == s.sys.hub.tag && (n, s.sys.hub.active) in s.sys.results;
    }
  }

  lemma UpgradeHistoryGrows(sites: M.Sites, s: State, e: Event)
    requires Enabled(sites, s, e)
    ensures s.up.sys.issued <= Do(sites, s, e).up.sys.issued && s.up.sys.results <= Do(sites, s, e).up.sys.results
  {
    match e
    case Machine(m) => HistoryGrows(sites, s.up, m);
    case Reconcile(_, _, _) => HistoryGrows(sites, s.up, UpgradeEvent(s, e));
    case BackupResult(_, _, _) =>
  }

  /** Only a pass that asks for it gives an upgrade a backup status. */
  lemma NewBackupIsAskedFor(sites: M.Sites, s: State, e: Event, uid: string)
    requires Enabled(sites, s, e) && uid in Do(sites, s, e).backups && uid !in s.backups
    ensures AsksForBackup(s.up) && s.up.sys.hub.tag.value.uid == uid
  {
  }

  /**
    In every run, the backup of an upgrade is asked for only after every site has reported Ready on
    a plan with its Finalize phase, so it is a backup of the upgraded cluster.
  */
  lemma {:induction false} BackupsFollowFinalize(sites: M.Sites, ss: seq<State>, es: seq<Event>, i: nat, uid: string)
    requires Run(sites, ss, es) && i < |ss| && uid in ss[i].backups
    ensures FinalizeReported(sites, ss[i].up, uid)
  {
    if i > 0 {
      var s, e := ss[i - 1], es[i - 1];
      assert Enabled(sites, s, e) && ss[i] == Do(sites, s, e);
      if uid in s.backups {
        BackupsFollowFinalize(sites, ss, es, i - 1, uid);
      } else {
        NewBackupIsAskedFor(sites, s, e, uid);
        assert FinalizeReported(sites, s.up, uid) by {
          UpgradePartIsRun(sites, ss, es, i - 1);
          W.ReachInv(sites, s.up);
          AskingIsReported(sites, s.up);
        }
      }
      UpgradeHistoryGrows(sites, s, e);
      ReportsStay(sites, s.up, ss[i].up, uid);
    }
  }
}
