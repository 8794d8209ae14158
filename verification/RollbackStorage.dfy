/**
  Rollback artifacts and the restore of data claims on one site.

  The agent's loops over the local members are methods of `SiteStorage`. `budget` is the
  number of API writes that get through before the pass is cut off, so one call with every
  possible budget covers an interruption after any write.
*/
module RollbackStorage {
  import opened Common

  /** Names an artifact; the operation hash of the source is taken to be collision-free. */
  type ArtifactName = (string, string)

  datatype Claim = Claim(source: Option<ArtifactName>, bound: bool, terminating: bool, data: int)

  datatype Pod = Pod(claims: set<string>, managed: bool, job: Option<string>, terminating: bool)

  datatype Artifact = Artifact(ready: bool, data: int)

  /** The cluster objects of one site. A member's data claim is named by the member. */
  datatype World = World(
    claims: map<string, Claim>,
    pods: seq<Pod>,
    jobs: set<string>,
    artifacts: map<ArtifactName, Artifact>)

  datatype Policy = VolumeSnapshot | PvcClone | UnsupportedStrategy

  datatype Outcome = Ready | Waiting | Failed | Interrupted

  // ------------------------------------------------------------------------------------
  // One pass
  // ------------------------------------------------------------------------------------

  datatype Sweep = Sweep(pods: seq<Pod>, jobs: set<string>, budget: nat, found: bool, outcome: Outcome)

  /** Delete the Pods that use a claim, each one's Job before the Pod itself. */
  function DropConsumers(pods: seq<Pod>, jobs: set<string>, claim: string, i: nat, budget: nat, found: bool): (d: Sweep)
    requires i <= |pods|
    ensures !d.outcome.Ready?
    decreases |pods| - i
  {
    if i == |pods| then Sweep(pods, jobs, budget, found, Waiting)
    else if claim !in pods[i].claims then DropConsumers(pods, jobs, claim, i + 1, budget, found)
    else if !pods[i].managed then Sweep(pods, jobs, budget, found, Failed)
    else
      var calls := if pods[i].job.Some? then 2 else 1;
      var jobs' := if pods[i].job.Some? && budget >= 1 then jobs - {pods[i].job.value} else jobs;
      if budget < calls then Sweep(pods, jobs', 0, true, Interrupted)
      else DropConsumers(pods[i := pods[i].(terminating := true)], jobs', claim, i + 1, budget - calls, true)
  }

  predicate Restored(claims: map<string, Claim>, op: string, m: string) {
    m in claims && claims[m].source == Some((op, m))
  }

  predicate Finished(claims: map<string, Claim>, op: string, m: string) {
    Restored(claims, op, m) && claims[m].bound
  }

  /** The first member, from position i on, whose claim is not yet restored and bound. */
  function FirstUnfinished(claims: map<string, Claim>, op: string, members: seq<string>, i: nat): (k: nat)
    requires i <= |members|
    ensures i <= k <= |members|
    ensures forall j :: i <= j < k ==> Finished(claims, op, members[j])
    ensures k < |members| ==> !Finished(claims, op, members[k])
    decreases |members| - i
  {
    if i < |members| && Finished(claims, op, members[i]) then FirstUnfinished(claims, op, members, i + 1) else i
  }

  /** What a pass does to the first unfinished member. */
  function RestoreMember(w: World, op: string, m: string, budget: nat): (World, Outcome) {
    if m !in w.claims then
      if budget == 0 then (w, Interrupted)
      else (w.(claims := w.claims[m := Claim(Some((op, m)), false, false, 0)]), Waiting)
    else if !Restored(w.claims, op, m) then
      var d := DropConsumers(w.pods, w.jobs, m, 0, budget, false);
      var v := w.(pods := d.pods, jobs := d.jobs);
      if !d.outcome.Waiting? then (v, d.outcome)
      else if d.found then (v, Waiting)
      else if d.budget == 0 then (v, Interrupted)
      else (v.(claims := v.claims[m := v.claims[m].(terminating := true)]), Waiting)
    else (w, Waiting)
  }

  function RestorePass(w: World, op: string, members: seq<string>, budget: nat): (World, Outcome) {
    var k := FirstUnfinished(w.claims, op, members, 0);
    if k == |members| then (w, Ready) else RestoreMember(w, op, members[k], budget)
  }

  function FirstUncaptured(artifacts: map<ArtifactName, Artifact>, op: string, members: seq<string>, i: nat): (k: nat)
    requires i <= |members|
    ensures i <= k <= |members|
    ensures forall j :: i <= j < k ==> (op, members[j]) in artifacts && artifacts[(op, members[j])].ready
    ensures k < |members| ==> !((op, members[k]) in artifacts && artifacts[(op, members[k])].ready)
    decreases |members| - i
  {
    if i < |members| && (op, members[i]) in artifacts && artifacts[(op, members[i])].ready then
      FirstUncaptured(artifacts, op, members, i + 1)
    else i
  }

  /** Artifacts are requested one member at a time; an existing one is left as it is. */
  function CapturePass(w: World, op: string, members: seq<string>, budget: nat): (World, Outcome) {
    var k := FirstUncaptured(w.artifacts, op, members, 0);
    if k == |members| then (w, if budget < k then Interrupted else Ready)
    else if budget <= k then (w, Interrupted)
    else if (op, members[k]) in w.artifacts then (w, Waiting)
    else (w.(artifacts := w.artifacts[(op, members[k]) := Artifact(false, 0)]), Waiting)
  }

  /** The restore pass of a site: one without data or without a rollback policy has nothing to do. */
  function SiteRestorePass(policy: Option<Policy>, isData: bool, w: World, op: string, members: seq<string>,
                           budget: nat): (World, Outcome)
  {
    if policy.None? || !isData then (w, Ready) else RestorePass(w, op, members, budget)
  }

  /** The capture pass of a site, which fails at the first claim if the strategy is unknown. */
  function SiteCapturePass(policy: Option<Policy>, isData: bool, w: World, op: string, members: seq<string>,
                           budget: nat): (World, Outcome)
  {
    if policy.None? || !isData then (w, Ready)
    else if policy.value.UnsupportedStrategy? then (w, if members == [] then Ready else Failed)
    else CapturePass(w, op, members, budget)
  }

  class SiteStorage {
    const op: string
    const members: seq<string>
    const isData: bool
    const policy: Option<Policy>
    var claims: map<string, Claim>
    var pods: seq<Pod>
    var jobs: set<string>
    var artifacts: map<ArtifactName, Artifact>

    constructor (op: string, members: seq<string>, isData: bool, policy: Option<Policy>, w: World)
      ensures this.op == op && this.members == members && this.isData == isData && this.policy == policy
      ensures View() == w
    {
      this.op, this.members, this.isData, this.policy := op, members, isData, policy;
      claims, pods, jobs, artifacts := w.claims, w.pods, w.jobs, w.artifacts;
    }

    function View(): World
      reads this
    {
      World(claims, pods, jobs, artifacts)
    }

    /** Nothing found means the claim has no consumer left. */
    method DeleteManagedConsumers(claim: string, budget: nat) returns (found: bool, left: nat, outcome: Outcome)
      modifies this`pods, this`jobs
      ensures Sweep(pods, jobs, left, found, outcome) == DropConsumers(old(pods), old(jobs), claim, 0, budget, false)
    {
      found, left, outcome := false, budget, Waiting;
      ghost var target := DropConsumers(pods, jobs, claim, 0, budget, false);
      var i := 0;
      while i < |pods|
        invariant i <= |pods|
        invariant DropConsumers(pods, jobs, claim, i, left, found) == target
        invariant outcome == Waiting
        decreases |pods| - i
      {
        var pod := pods[i];
        if claim in pod.claims {
          if !pod.managed {
            return found, left, Failed;
          }
          found := true;
          if pod.job.Some? {
            if left == 0 {
              return true, 0, Interrupted;
            }
            jobs, left := jobs - {pod.job.value}, left - 1;
          }
          if left == 0 {
            return true, 0, Interrupted;
          }
          pods, left := pods[i := pod.(terminating := true)], left - 1;
        }
        i := i + 1;
      }
    }

    method ReconcileRollbackRestore(budget: nat) returns (outcome: Outcome)
      modifies this`claims, this`pods, this`jobs
      ensures (View(), outcome) == SiteRestorePass(policy, isData, old(View()), op, members, budget)
    {
      if policy.None? || !isData {
        return Ready;
      }
      for ordinal := 0 to |members|
        invariant View() == old(View())
        invariant FirstUnfinished(claims, op, members, 0) == FirstUnfinished(claims, op, members, ordinal)
      {
        var m := members[ordinal];
        if m in claims && claims[m].source != Some((op, m)) {
          var found, left, swept := DeleteManagedConsumers(m, budget);
          if swept != Waiting {
            return swept;
          }
          if found {
            return Waiting;
          }
          if left == 0 {
            return Interrupted;
          }
          claims := claims[m := claims[m].(terminating := true)];
          return Waiting;
        }
        if m !in claims {
          if budget == 0 {
            return Interrupted;
          }
          claims := claims[m := Claim(Some((op, m)), false, false, 0)];
          return Waiting;
        }
        if !claims[m].bound {
          return Waiting;
        }
      }
      return Ready;
    }

    method ReconcileRollbackStorage(budget: nat) returns (outcome: Outcome)
      modifies this`artifacts
      ensures (View(), outcome) == SiteCapturePass(policy, isData, old(View()), op, members, budget)
    {
      if policy.None? || !isData {
        return Ready;
      }
      var left := budget;
      for ordinal := 0 to |members|
        invariant View() == old(View())
        invariant policy.value.UnsupportedStrategy? ==> ordinal == 0
        invariant left == budget - ordinal
        invariant FirstUncaptured(artifacts, op, members, 0) == FirstUncaptured(artifacts, op, members, ordinal)
      {
        var name := (op, members[ordinal]);
        match policy.value {
          case UnsupportedStrategy => return Failed;
          case VolumeSnapshot | PvcClone =>
            if left == 0 {
              return Interrupted;
            }
            left := left - 1;
            if name !in artifacts {
              artifacts := artifacts[name := Artifact(false, 0)];
            }
            if !artifacts[name].ready {
              return Waiting;
            }
        }
      }
      return Ready;
    }
  }
}
