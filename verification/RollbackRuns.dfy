/**
  Rollback over whole runs: restore passes cut off anywhere, interleaved with everything the
  cluster does on its own (Pods and claims going away, claims binding, Pods still writing,
  Jobs replacing deleted Pods).
*/
module RollbackRuns {
  import opened Common
  import opened RollbackStorage

  datatype Event =
    | Pass(budget: nat)
    | PodGone(pod: nat)
    | ClaimGone(member: string)
    | Bind(member: string)
    | Write(pod: nat, member: string, data: int)
    | ReplacePod(pod: nat)

  predicate Unused(pods: seq<Pod>, m: string) {
    forall i :: 0 <= i < |pods| ==> m !in pods[i].claims
  }

  predicate Captured(artifacts: map<ArtifactName, Artifact>, name: ArtifactName) {
    name in artifacts && artifacts[name].ready
  }

  predicate Enabled(w: World, e: Event) {
    match e
    case Pass(_) => true
    case PodGone(i) => i < |w.pods| && w.pods[i].terminating
    case ClaimGone(m) => m in w.claims && w.claims[m].terminating && Unused(w.pods, m)
    case Bind(m) =>
      && m in w.claims && !w.claims[m].bound
      && (w.claims[m].source.Some? ==> Captured(w.artifacts, w.claims[m].source.value))
    case Write(i, m, _) => i < |w.pods| && m in w.pods[i].claims && m in w.claims && w.claims[m].bound
    case ReplacePod(i) =>
      i < |w.pods| && w.pods[i].terminating && w.pods[i].job.Some? && w.pods[i].job.value in w.jobs
  }

  function Do(w: World, op: string, members: seq<string>, e: Event): World
    requires Enabled(w, e)
  {
    match e
    case Pass(budget) => RestorePass(w, op, members, budget).0
    case PodGone(i) => w.(pods := w.pods[..i] + w.pods[i + 1..])
    case ClaimGone(m) => w.(claims := w.claims - {m})
    case Bind(m) =>
      var c := w.claims[m];
      w.(claims := w.claims[m := c.(bound := true, data := if c.source.Some? then w.artifacts[c.source.value].data
                                                           else c.data)])
    case Write(_, m, data) => w.(claims := w.claims[m := w.claims[m].(data := data)])
    case ReplacePod(i) => w.(pods := w.pods + [w.pods[i].(terminating := false)])
  }

  ghost predicate Run(op: string, members: seq<string>, ws: seq<World>, es: seq<Event>) {
    && |ws| == |es| + 1
    && forall i :: 0 <= i < |es| ==> Enabled(ws[i], es[i]) && ws[i + 1] == Do(ws[i], op, members, es[i])
  }

  // ------------------------------------------------------------------------------------
  // What every step keeps
  // ------------------------------------------------------------------------------------

  /** A restored claim is not being deleted, has no consumer, and once bound holds the captured data. */
  predicate RestoredInv(w: World, op: string) {
    forall m :: m in w.claims && Restored(w.claims, op, m) ==>
      && !w.claims[m].terminating
      && Unused(w.pods, m)
      && (w.claims[m].bound ==>
            Captured(w.artifacts, (op, m)) && w.claims[m].data == w.artifacts[(op, m)].data)
  }

  /** Pods use existing claims, and no Job is left that would replace a Pod being deleted. */
  predicate PodsInv(w: World) {
    && (forall i, m :: 0 <= i < |w.pods| && m in w.pods[i].claims ==> m in w.claims)
    && (forall i :: 0 <= i < |w.pods| && w.pods[i].terminating && w.pods[i].job.Some? ==>
          w.pods[i].job.value !in w.jobs)
  }

  predicate Inv(w: World, op: string) { RestoredInv(w, op) && PodsInv(w) }

  /** Where a rollback starts: nothing restored for this operation yet, no Pod being deleted. */
  predicate Start(w: World, op: string) {
    && (forall m :: m in w.claims ==> !Restored(w.claims, op, m))
    && (forall i, m :: 0 <= i < |w.pods| && m in w.pods[i].claims ==> m in w.claims)
    && (forall i :: 0 <= i < |w.pods| ==> !w.pods[i].terminating)
  }

  /** Pods only get marked, each with its Job gone; a sweep that finds nothing changes nothing. */
  ghost predicate SweptFrom(pods: seq<Pod>, jobs: set<string>, claim: string, i: nat, d: Sweep) {
    && |d.pods| == |pods| && d.jobs <= jobs
    && (forall j :: 0 <= j < |pods| ==>
          || d.pods[j] == pods[j]
          || (&& i <= j && claim in pods[j].claims && pods[j].managed && d.pods[j] == pods[j].(terminating := true)
              && (pods[j].job.Some? ==> pods[j].job.value !in d.jobs)))
  }

  lemma {:induction false} SweepShape(pods: seq<Pod>, jobs: set<string>, claim: string, i: nat, budget: nat, found: bool)
    requires i <= |pods|
    ensures SweptFrom(pods, jobs, claim, i, DropConsumers(pods, jobs, claim, i, budget, found))
    decreases |pods| - i
  {
    if i < |pods| && claim !in pods[i].claims {
      SweepShape(pods, jobs, claim, i + 1, budget, found);
    } else if i < |pods| && pods[i].managed {
      var calls := if pods[i].job.Some? then 2 else 1;
      var jobs' := if pods[i].job.Some? && budget >= 1 then jobs - {pods[i].job.value} else jobs;
      if budget >= calls {
        SweepShape(pods[i := pods[i].(terminating := true)], jobs', claim, i + 1, budget - calls, true);
      }
    }
  }

  /** A sweep that reaches the end has marked every consumer; one that found none left all as it was. */
  lemma {:induction false} SweepResult(pods: seq<Pod>, jobs: set<string>, claim: string, i: nat, budget: nat, found: bool)
    requires i <= |pods|
    ensures
      var d := DropConsumers(pods, jobs, claim, i, budget, found);
      && (d.outcome.Waiting? ==>
            forall j :: i <= j < |pods| && claim in pods[j].claims ==>
              d.found && pods[j].managed && j < |d.pods| && d.pods[j].terminating)
      && (found ==> d.found)
      && (!d.found && d.outcome.Waiting? ==> d == Sweep(pods, jobs, budget, false, Waiting))
    decreases |pods| - i
  {
    SweepShape(pods, jobs, claim, i, budget, found);
    if i < |pods| && claim !in pods[i].claims {
      SweepResult(pods, jobs, claim, i + 1, budget, found);
    } else if i < |pods| && pods[i].managed {
      var calls := if pods[i].job.Some? then 2 else 1;
      var jobs' := if pods[i].job.Some? && budget >= 1 then jobs - {pods[i].job.value} else jobs;
      if budget >= calls {
        var marked := pods[i := pods[i].(terminating := true)];
        SweepResult(marked, jobs', claim, i + 1, budget - calls, true);
        SweepShape(marked, jobs', claim, i + 1, budget - calls, true);
      }
    }
  }

  /** Claims after a pass: one more is created empty, or one unused and unrestored is being deleted, or none. */
  lemma PassEffect(w: World, op: string, members: seq<string>, budget: nat)
    ensures
      var v := RestorePass(w, op, members, budget).0;
      && v.artifacts == w.artifacts
      && |v.pods| == |w.pods| && v.jobs <= w.jobs
      && (v.claims == w.claims
          || (exists m :: m !in w.claims && v.pods == w.pods &&
                          v.claims == w.claims[m := Claim(Some((op, m)), false, false, 0)])
          || (exists m :: m in w.claims && !Restored(w.claims, op, m) && Unused(w.pods, m) && v.pods == w.pods &&
                          v.claims == w.claims[m := w.claims[m].(terminating := true)]))
      && (forall j :: 0 <= j < |w.pods| ==>
            || v.pods[j] == w.pods[j]
            || (&& w.pods[j].managed && v.pods[j] == w.pods[j].(terminating := true)
                && (w.pods[j].job.Some? ==> w.pods[j].job.value !in v.jobs)))
  {
    var k := FirstUnfinished(w.claims, op, members, 0);
    if k < |members| {
      SweepShape(w.pods, w.jobs, members[k], 0, budget, false);
      SweepResult(w.pods, w.jobs, members[k], 0, budget, false);
    }
  }

  lemma {:induction false} SweepWithoutWrites(pods: seq<Pod>, jobs: set<string>, claim: string, i: nat, found: bool)
    requires i <= |pods|
    ensures
      var d := DropConsumers(pods, jobs, claim, i, 0, found);
      d.pods == pods && d.jobs == jobs && d.budget == 0
    decreases |pods| - i
  {
    if i < |pods| && claim !in pods[i].claims {
      SweepWithoutWrites(pods, jobs, claim, i + 1, found);
    }
  }

  /** A pass that gets no write through changes nothing. */
  lemma NoWriteNoChange(w: World, op: string, members: seq<string>)
    ensures RestorePass(w, op, members, 0).0 == w && CapturePass(w, op, members, 0).0 == w
  {
    var k := FirstUnfinished(w.claims, op, members, 0);
    if k < |members| {
      SweepWithoutWrites(w.pods, w.jobs, members[k], 0, false);
    }
  }

  /**
    Which sites act: a site changes a claim, Pod or artifact, or reports anything but success, only if
    it is a data site with a rollback policy; a capture also needs a known strategy.
  */
  lemma OnlyDataSitesAct(policy: Option<Policy>, isData: bool, w: World, op: string, members: seq<string>, budget: nat)
    ensures SiteRestorePass(policy, isData, w, op, members, budget) != (w, Ready) ==> isData && policy.Some?
    ensures SiteCapturePass(policy, isData, w, op, members, budget) != (w, Ready) ==> isData && policy.Some?
    ensures SiteCapturePass(policy, isData, w, op, members, budget).0 != w ==> policy != Some(UnsupportedStrategy)
    ensures isData && policy.Some? && members != [] ==>
              (SiteCapturePass(policy, isData, w, op, members, budget).1 == Failed <==> policy == Some(UnsupportedStrategy))
  {
  }

  /** A capture pass leaves claims, Pods and existing artifacts alone, and asks for one artifact at most, of a local member. */
  lemma CaptureEffect(w: World, op: string, members: seq<string>, budget: nat)
    ensures
      var v := CapturePass(w, op, members, budget).0;
      && v.(artifacts := w.artifacts) == w
      && (v.artifacts == w.artifacts
          || exists m :: m in members && (op, m) !in w.artifacts && v.artifacts == w.artifacts[(op, m) := Artifact(false, 0)])
  {
  }

  /** What no step undoes: the artifacts, and a claim restored from its own artifact. */
  ghost predicate Kept(w: World, v: World, op: string) {
    && v.artifacts == w.artifacts
    && (forall m :: m in w.claims && Restored(w.claims, op, m) ==>
          && Restored(v.claims, op, m)
          && (w.claims[m].bound ==> v.claims[m] == w.claims[m]))
  }

  lemma StepKeeps(w: World, op: string, members: seq<string>, e: Event)
    requires Inv(w, op) && Enabled(w, e)
    ensures Inv(Do(w, op, members, e), op) && Kept(w, Do(w, op, members, e), op)
    ensures !e.ReplacePod?
  {
    if e.Pass? {
      PassEffect(w, op, members, e.budget);
    }
  }

  /** Over every run: the invariant, the artifacts, and every restored claim survive. */
  lemma {:induction false} RunKeeps(op: string, members: seq<string>, ws: seq<World>, es: seq<Event>, i: nat, j: nat)
    requires Run(op, members, ws, es) && Inv(ws[0], op) && i <= j < |ws|
    ensures Inv(ws[j], op) && Kept(ws[i], ws[j], op)
  {
    if j == 0 {
    } else if i == j {
      RunKeeps(op, members, ws, es, 0, j - 1);
      StepKeeps(ws[j - 1], op, members, es[j - 1]);
    } else {
      RunKeeps(op, members, ws, es, i, j - 1);
      StepKeeps(ws[j - 1], op, members, es[j - 1]);
    }
  }

  /**
    A pass reports success exactly when every local claim is restored and bound, and then every
    claim holds the data its artifact had when the rollback began.
  */
  lemma SuccessMeansRestored(op: string, members: seq<string>, ws: seq<World>, es: seq<Event>, j: nat, budget: nat)
    requires Run(op, members, ws, es) && Start(ws[0], op) && j < |ws|
    ensures RestorePass(ws[j], op, members, budget).1.Ready? <==>
            forall m :: m in members ==> Finished(ws[j].claims, op, m)
    ensures RestorePass(ws[j], op, members, budget).1.Ready? ==>
              forall m :: m in members ==>
                Captured(ws[0].artifacts, (op, m)) && ws[j].claims[m].data == ws[0].artifacts[(op, m)].data
  {
    RunKeeps(op, members, ws, es, 0, j);
    var w := ws[j];
    var k := FirstUnfinished(w.claims, op, members, 0);
    if k < |members| {
      assert members[k] in members;
    } else {
      forall m | m in members
        ensures Finished(w.claims, op, m)
      {
        var i :| 0 <= i < |members| && members[i] == m;
      }
    }
  }
}
