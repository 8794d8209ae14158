/**
  When a restore moves, in every run: the condition of each phase, the order of the phases, and
  when an instance counts as Ready meanwhile.
*/
module RestoreMoves {
  import opened Common
  import opened Restore
  import P = PlanProtocol
  import U = UpgradePhases

  const CHAIN := [Seed, SeedReplicas, Verify, Finished]

  predicate Place(k: int, p: RestorePhase) { 0 <= k < |CHAIN| && CHAIN[k] == p }

  /** Each phase has its place. */
  lemma PlaceOf(p: RestorePhase) returns (k: nat)
    ensures Place(k, p) && forall j :: Place(j, p) ==> j == k
  {
    k := Order(p);
  }

  /** What has to be observed for the phase at this place to be left. */
  predicate Accomplished(k: int, s: State, e: Event, required: nat)
    requires e.RestorePass?
  {
    && e.preflight && s.observed.topologyReady
    && (k == 0 ==> e.seedIsPrimary)
    && (k == 1 ==> s.observed.standbys >= required)
    && (k == 2 ==> s.sys.hub.ready && e.tdeVerified)
  }

  /**
    In every run, a restore pass goes one phase further exactly when the phase is accomplished: the
    seed is the agreed primary; then the agreed topology has the required standbys; then the
    instance is Ready and the encryption verified.
  */
  lemma RestoreMovesExactly(declared: set<string>, required: nat, ss: seq<State>, es: seq<Event>, i: nat, k: nat)
    requires Run(declared, required, ss, es) && i < |es| && es[i].RestorePass?
    requires ss[i].sys.hub.tag.restore.Some? && Place(k, ss[i].sys.hub.tag.restore.value)
    ensures ss[i + 1].sys.hub.tag.restore ==
            Some(if k + 1 < |CHAIN| && Accomplished(k, ss[i], es[i], required) then CHAIN[k + 1] else CHAIN[k])
  {
  }

  /** Nothing else but forced abandonment changes the phase, and that ends the restore. */
  lemma OnlyPassesMove(declared: set<string>, required: nat, ss: seq<State>, es: seq<Event>, i: nat)
    requires Run(declared, required, ss, es) && i < |es|
    requires ss[i + 1].sys.hub.tag.restore != ss[i].sys.hub.tag.restore
    ensures ss[i].sys.hub.tag.restore.Some?
    ensures if ss[i + 1].sys.hub.tag.restore.None? then es[i].ForceAbandon? else es[i].RestorePass?
  {
    if es[i].Protocol? {
      P.QuietStep(declared, ss[i].sys, es[i].e);
    }
  }

  /** In every run, the phases come in order: each but the first was reached from the one before it. */
  lemma {:induction false} PhasesComeInOrder(declared: set<string>, required: nat, ss: seq<State>, es: seq<Event>, i: nat, k: nat)
    requires Run(declared, required, ss, es) && i < |ss| && k + 1 < |CHAIN|
    requires ss[i].sys.hub.tag.restore == Some(CHAIN[k + 1])
    ensures exists j :: 0 <= j < i && LeavesAt(declared, required, ss, es, j, k)
    decreases i
  {
    if ss[i - 1].sys.hub.tag.restore == Some(CHAIN[k + 1]) {
      PhasesComeInOrder(declared, required, ss, es, i - 1, k);
      var j :| 0 <= j < i - 1 && LeavesAt(declared, required, ss, es, j, k);
    } else {
      OnlyPassesMove(declared, required, ss, es, i - 1);
      var p := PlaceOf(ss[i - 1].sys.hub.tag.restore.value);
      RestoreMovesExactly(declared, required, ss, es, i - 1, p);
      var q := PlaceOf(CHAIN[k + 1]);
      assert p == k by { assert Place(p + 1, CHAIN[k + 1]) && Place(k + 1, CHAIN[k + 1]); }
      assert LeavesAt(declared, required, ss, es, i - 1, k);
    }
  }

  /** A pass leaves the phase at this place, which is accomplished. */
  predicate LeavesAt(declared: set<string>, required: nat, ss: seq<State>, es: seq<Event>, j: int, k: int) {
    && 0 <= j < |es| < |ss| && 0 <= k < |CHAIN| && es[j].RestorePass?
    && ss[j].sys.hub.tag.restore == Some(CHAIN[k]) && Accomplished(k, ss[j], es[j], required)
  }

  /**
    In every run, a finished restore went through all of its phases: one after the other, the seed
    was the agreed primary, the required standbys were there, and the instance was Ready with Verify.
  */
  lemma FinishedWentThrough(declared: set<string>, required: nat, ss: seq<State>, es: seq<Event>, i: nat)
    requires Run(declared, required, ss, es) && i < |ss| && ss[i].sys.hub.tag.restore == Some(Finished)
    ensures exists a, b, c ::
              && 0 <= a < b < c < i
              && LeavesAt(declared, required, ss, es, a, 0) && LeavesAt(declared, required, ss, es, b, 1)
              && LeavesAt(declared, required, ss, es, c, 2)
  {
    PhasesComeInOrder(declared, required, ss, es, i, 2);
    var c :| 0 <= c < i && LeavesAt(declared, required, ss, es, c, 2);
    PhasesComeInOrder(declared, required, ss, es, c, 1);
    var b :| 0 <= b < c && LeavesAt(declared, required, ss, es, b, 1);
    PhasesComeInOrder(declared, required, ss, es, b, 0);
    var a :| 0 <= a < b && LeavesAt(declared, required, ss, es, a, 0);
  }

  /** In every run, the restore object says Completed exactly from a pass on that finds the phase finished and writes it. */
  lemma CompletedExactly(declared: set<string>, required: nat, ss: seq<State>, es: seq<Event>, i: nat)
    requires Run(declared, required, ss, es) && i < |es|
    requires ss[i].record != Live(Completed)
    ensures ss[i + 1].record == Live(Completed) <==>
            && es[i].RestorePass? && es[i].statusWritten && es[i].preflight
            && ss[i + 1].sys.hub.tag.restore == Some(Finished)
  {
  }

  /** The restore object goes exactly when it is deleted in a phase that allows it, or abandoned by force; that ends the restore. */
  lemma RecordEndsExactly(declared: set<string>, required: nat, ss: seq<State>, es: seq<Event>, i: nat)
    requires Run(declared, required, ss, es) && i < |es| && ss[i].record.Live?
    ensures ss[i + 1].record.Gone? <==> es[i].DeleteRecord? || es[i].ForceAbandon?
    ensures es[i].DeleteRecord? ==> ss[i].record.status != InProgress && ss[i + 1].sys == ss[i].sys
    ensures es[i].ForceAbandon? ==> ss[i].record.status == InProgress && ss[i + 1].sys.hub.tag == ss[i].sys.hub.tag.(restore := None)
  {
  }

  /**
    In every run, an instance pass declares Ready exactly when all sites applied the revision, trust,
    topology and standbys are as required, and neither a restore before Verify nor an upgrade phase
    with writes stopped or just returning is under way.
  */
  lemma InstanceReadyExactly(declared: set<string>, required: nat, ss: seq<State>, es: seq<Event>, i: nat)
    requires Run(declared, required, ss, es) && i < |es| && es[i].InstancePass?
    ensures
      var m, seen, h := ss[i].sys.hub.tag, es[i].seen, ss[i + 1].sys.hub;
      h.ready <==>
        && (forall n :: n in declared ==> n in h.sites && h.sites[n].applied == h.active)
        && seen.trustReady && seen.topologyReady && seen.standbys >= required
        && m.restore !in {Some(Seed), Some(SeedReplicas)}
        && (m.upgrade.Some? ==> m.upgrade.value.phase in {U.Preflight, U.RollbackRestoreWrites})
  {
  }
}
