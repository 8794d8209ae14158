/**
  Why a rollback gets done: a measure per claim that no step of a run raises and that every
  completion of a pending delete or bind lowers, and the exact condition under which a
  rollback can succeed at all.
*/
module RollbackProgress {
  import opened Common
  import opened RollbackStorage
  import opened RollbackRuns

  /** Consumers of a claim, those not yet being deleted counted twice. */
  function Consumers(pods: seq<Pod>, m: string): nat {
    if pods == [] then 0
    else Consumers(pods[1..], m) +
         (if m !in pods[0].claims then 0 else if pods[0].terminating then 1 else 2)
  }

  /** Bound and restored is 0; then unbound, absent, being deleted, present, in use. */
  function Measure(w: World, op: string, m: string): nat {
    if m !in w.claims then 2
    else if Restored(w.claims, op, m) then if w.claims[m].bound then 0 else 1
    else 3 + (if w.claims[m].terminating then 0 else 1) + Consumers(w.pods, m)
  }

  lemma {:induction false} ConsumersOfConcat(a: seq<Pod>, b: seq<Pod>, m: string)
    ensures Consumers(a + b, m) == Consumers(a, m) + Consumers(b, m)
  {
    if a == [] {
      assert a + b == b;
    } else {
      ConsumersOfConcat(a[1..], b, m);
      assert (a + b)[1..] == a[1..] + b;
    }
  }

  lemma PodGoneLowers(pods: seq<Pod>, i: nat, m: string)
    requires i < |pods|
    ensures Consumers(pods[..i] + pods[i + 1..], m) <= Consumers(pods, m)
    ensures m in pods[i].claims ==> Consumers(pods[..i] + pods[i + 1..], m) < Consumers(pods, m)
  {
    assert pods == pods[..i] + pods[i..];
    ConsumersOfConcat(pods[..i], pods[i..], m);
    ConsumersOfConcat(pods[..i], pods[i + 1..], m);
    assert pods[i..][1..] == pods[i + 1..];
  }

  lemma {:induction false} UnusedHasNone(pods: seq<Pod>, m: string)
    requires Unused(pods, m)
    ensures Consumers(pods, m) == 0
  {
    if pods != [] {
      UnusedHasNone(pods[1..], m);
    }
  }

  /** Marking Pods never raises the count, and marking an unmarked consumer lowers it. */
  lemma {:induction false} MarkingLowers(a: seq<Pod>, b: seq<Pod>, m: string)
    requires |a| == |b|
    requires forall j :: 0 <= j < |a| ==> b[j] == a[j] || b[j] == a[j].(terminating := true)
    ensures Consumers(b, m) <= Consumers(a, m)
    ensures (exists j :: 0 <= j < |a| && m in a[j].claims && !a[j].terminating && b[j].terminating) ==>
              Consumers(b, m) < Consumers(a, m)
  {
    if a != [] {
      MarkingLowers(a[1..], b[1..], m);
      if j :| 0 < j < |a| && m in a[j].claims && !a[j].terminating && b[j].terminating {
        assert m in a[1..][j - 1].claims && !a[1..][j - 1].terminating && b[1..][j - 1].terminating;
      }
    }
  }

  /** No pass, however cut off, raises the measure of any claim. */
  lemma PassNeverRaises(w: World, op: string, members: seq<string>, budget: nat, m: string)
    requires Inv(w, op)
    ensures Measure(RestorePass(w, op, members, budget).0, op, m) <= Measure(w, op, m)
  {
    PassEffect(w, op, members, budget);
    MarkingLowers(w.pods, RestorePass(w, op, members, budget).0.pods, m);
  }

  predicate Completion(e: Event) { e.PodGone? || e.ClaimGone? || e.Bind? }

  predicate Concerns(w: World, op: string, e: Event, m: string)
    requires Enabled(w, e)
  {
    match e
    case PodGone(i) => m in w.pods[i].claims && m in w.claims
    case ClaimGone(n) => n == m
    case Bind(n) => n == m && Restored(w.claims, op, n)
    case _ => false
  }

  /**
    Whenever the cluster finishes a pending delete or bind, the measure of the claims concerned
    goes down; no event of a run raises the measure of any claim.
  */
  lemma StepLowers(w: World, op: string, members: seq<string>, e: Event, m: string)
    requires Inv(w, op) && Enabled(w, e)
    ensures Measure(Do(w, op, members, e), op, m) <= Measure(w, op, m)
    ensures Completion(e) && Concerns(w, op, e, m) ==> Measure(Do(w, op, members, e), op, m) < Measure(w, op, m)
  {
    match e
    case Pass(budget) => PassNeverRaises(w, op, members, budget, m);
    case PodGone(i) => PodGoneLowers(w.pods, i, m);
    case ClaimGone(n) => UnusedHasNone(w.pods, n);
    case _ => StepKeeps(w, op, members, e);
  }

  // ------------------------------------------------------------------------------------
  // When a rollback can succeed
  // ------------------------------------------------------------------------------------

  predicate AllCaptured(artifacts: map<ArtifactName, Artifact>, op: string, members: seq<string>) {
    forall m :: m in members ==> Captured(artifacts, (op, m))
  }

  /** A Pod the operator does not manage, that stays, on a claim that has yet to be restored. */
  predicate ForeignConsumer(w: World, op: string, members: seq<string>) {
    exists i, m :: 0 <= i < |w.pods| && m in w.pods[i].claims && m in members && !Restored(w.claims, op, m) &&
                   !w.pods[i].managed && !w.pods[i].terminating
  }

  ghost predicate CanSucceed(w: World, op: string, members: seq<string>) {
    exists ws: seq<World>, es: seq<Event> :: Run(op, members, ws, es) && ws[0] == w &&
                     RestorePass(ws[|ws| - 1], op, members, 0).1.Ready?
  }

  function Total(w: World, op: string, members: seq<string>): nat {
    if members == [] then 0 else Measure(w, op, members[0]) + Total(w, op, members[1..])
  }

  lemma {:induction false} TotalLowers(w: World, v: World, op: string, members: seq<string>)
    requires forall m :: m in members ==> Measure(v, op, m) <= Measure(w, op, m)
    ensures Total(v, op, members) <= Total(w, op, members)
    ensures (exists m :: m in members && Measure(v, op, m) < Measure(w, op, m)) ==>
              Total(v, op, members) < Total(w, op, members)
  {
    if members != [] {
      assert forall m :: m in members[1..] ==> m in members;
      TotalLowers(w, v, op, members[1..]);
      if m :| m in members && Measure(v, op, m) < Measure(w, op, m) {
        assert m == members[0] || m in members[1..];
      }
    }
  }

  /** While a claim is unfinished, some event lowers its measure. */
  lemma NextMove(w: World, op: string, members: seq<string>, m: string) returns (e: Event)
    requires Inv(w, op) && AllCaptured(w.artifacts, op, members) && !ForeignConsumer(w, op, members)
    requires m in members && FirstUnfinished(w.claims, op, members, 0) < |members|
    requires m == members[FirstUnfinished(w.claims, op, members, 0)]
    ensures Enabled(w, e)
    ensures Measure(Do(w, op, members, e), op, m) < Measure(w, op, m)
  {
    if m !in w.claims {
      e := Pass(1);
    } else if Restored(w.claims, op, m) {
      e := Bind(m);
    } else if i :| 0 <= i < |w.pods| && m in w.pods[i].claims && w.pods[i].terminating {
      e := PodGone(i);
      PodGoneLowers(w.pods, i, m);
    } else if Unused(w.pods, m) {
      SweepResult(w.pods, w.jobs, m, 0, 1, false);
      UnusedSweep(w.pods, w.jobs, m, 0, 1);
      e := if w.claims[m].terminating then ClaimGone(m) else Pass(1);
      UnusedHasNone(w.pods, m);
    } else {
      e := Pass(2 * |w.pods|);
      FullSweep(w.pods, w.jobs, m, 0, 2 * |w.pods|, false);
      SweepResult(w.pods, w.jobs, m, 0, 2 * |w.pods|, false);
      SweepShape(w.pods, w.jobs, m, 0, 2 * |w.pods|, false);
      MarkingLowers(w.pods, Do(w, op, members, e).pods, m);
    }
  }

  lemma {:induction false} UnusedSweep(pods: seq<Pod>, jobs: set<string>, m: string, i: nat, budget: nat)
    requires i <= |pods| && Unused(pods, m)
    ensures DropConsumers(pods, jobs, m, i, budget, false) == Sweep(pods, jobs, budget, false, Waiting)
    decreases |pods| - i
  {
    if i < |pods| {
      UnusedSweep(pods, jobs, m, i + 1, budget);
    }
  }

  /** With managed consumers only and enough writes, a sweep gets to the end. */
  lemma {:induction false} FullSweep(pods: seq<Pod>, jobs: set<string>, m: string, i: nat, budget: nat, found: bool)
    requires i <= |pods| && budget >= 2 * (|pods| - i)
    requires forall j :: i <= j < |pods| && m in pods[j].claims ==> pods[j].managed
    ensures DropConsumers(pods, jobs, m, i, budget, found).outcome.Waiting?
    decreases |pods| - i
  {
    if i < |pods| && m !in pods[i].claims {
      FullSweep(pods, jobs, m, i + 1, budget, found);
    } else if i < |pods| {
      var calls := if pods[i].job.Some? then 2 else 1;
      var jobs' := if pods[i].job.Some? then jobs - {pods[i].job.value} else jobs;
      FullSweep(pods[i := pods[i].(terminating := true)], jobs', m, i + 1, budget - calls, true);
    }
  }

  lemma NoForeignerArrives(w: World, op: string, members: seq<string>, e: Event)
    requires Inv(w, op) && Enabled(w, e) && !ForeignConsumer(w, op, members)
    ensures !ForeignConsumer(Do(w, op, members, e), op, members)
  {
    var v := Do(w, op, members, e);
    StepKeeps(w, op, members, e);
    if e.Pass? {
      PassEffect(w, op, members, e.budget);
    }
    if e.PodGone? {
      assert forall i :: 0 <= i < |v.pods| ==> v.pods[i] == w.pods[if i >= e.pod then i + 1 else i];
    }
  }

  lemma {:induction false} SucceedsFrom(w: World, op: string, members: seq<string>)
    requires Inv(w, op) && AllCaptured(w.artifacts, op, members) && !ForeignConsumer(w, op, members)
    ensures CanSucceed(w, op, members)
    decreases Total(w, op, members)
  {
    var k := FirstUnfinished(w.claims, op, members, 0);
    if k == |members| {
      assert Run(op, members, [w], []) && [w][0] == w;
    } else {
      var e := NextMove(w, op, members, members[k]);
      var v := Do(w, op, members, e);
      StepKeeps(w, op, members, e);
      NoForeignerArrives(w, op, members, e);
      forall m | m in members
        ensures Measure(v, op, m) <= Measure(w, op, m)
      {
        StepLowers(w, op, members, e, m);
      }
      TotalLowers(w, v, op, members);
      SucceedsFrom(v, op, members);
      var ws: seq<World>, es: seq<Event> :| Run(op, members, ws, es) && ws[0] == v && RestorePass(ws[|ws| - 1], op, members, 0).1.Ready?;
      PrependStep(op, members, w, e, ws, es);
    }
  }

  lemma PrependStep(op: string, members: seq<string>, w: World, e: Event, ws: seq<World>, es: seq<Event>)
    requires Run(op, members, ws, es) && Enabled(w, e) && ws[0] == Do(w, op, members, e)
    requires RestorePass(ws[|ws| - 1], op, members, 0).1.Ready?
    ensures CanSucceed(w, op, members)
  {
    var vs, fs := [w] + ws, [e] + es;
    forall i | 0 <= i < |fs|
      ensures Enabled(vs[i], fs[i]) && vs[i + 1] == Do(vs[i], op, members, fs[i])
    {
      if i > 0 {
        assert vs[i] == ws[i - 1] && fs[i] == es[i - 1] && vs[i + 1] == ws[i];
      }
    }
    assert vs[|vs| - 1] == ws[|ws| - 1];
    assert Run(op, members, vs, fs) && vs[0] == w;
  }

  /** A foreign consumer never goes away, and keeps its claim from being restored. */
  lemma {:induction false} ForeignerStays(op: string, members: seq<string>, ws: seq<World>, es: seq<Event>, j: nat)
    requires Run(op, members, ws, es) && Inv(ws[0], op) && ForeignConsumer(ws[0], op, members) && j < |ws|
    ensures ForeignConsumer(ws[j], op, members)
  {
    if j > 0 {
      ForeignerStays(op, members, ws, es, j - 1);
      RunKeeps(op, members, ws, es, 0, j - 1);
      ForeignerStaysOneStep(ws[j - 1], op, members, es[j - 1]);
    }
  }

  lemma ForeignerStaysOneStep(w: World, op: string, members: seq<string>, e: Event)
    requires Inv(w, op) && Enabled(w, e) && ForeignConsumer(w, op, members)
    ensures ForeignConsumer(Do(w, op, members, e), op, members)
  {
    var v := Do(w, op, members, e);
    var i, m :| 0 <= i < |w.pods| && m in w.pods[i].claims && m in members && !Restored(w.claims, op, m) &&
                !w.pods[i].managed && !w.pods[i].terminating;
    if e.Pass? {
      PassEffect(w, op, members, e.budget);
    }
    var j := if e.PodGone? && i > e.pod then i - 1 else i;
    assert v.pods[j] == w.pods[i] && !Restored(v.claims, op, m);
  }

  /**
    A rollback can succeed exactly when every local claim has a ready artifact and no Pod outside
    the operator's control holds on to a claim that has yet to be restored.
  */
  lemma RollbackCanSucceed(w: World, op: string, members: seq<string>)
    requires Inv(w, op)
    ensures CanSucceed(w, op, members) <==>
            AllCaptured(w.artifacts, op, members) && !ForeignConsumer(w, op, members)
  {
    if CanSucceed(w, op, members) {
      var ws: seq<World>, es: seq<Event> :| Run(op, members, ws, es) && ws[0] == w && RestorePass(ws[|ws| - 1], op, members, 0).1.Ready?;
      var last := |ws| - 1;
      RunKeeps(op, members, ws, es, 0, last);
      forall m | m in members
        ensures Finished(ws[last].claims, op, m)
      {
        var i :| 0 <= i < |members| && members[i] == m;
      }
      if ForeignConsumer(w, op, members) {
        ForeignerStays(op, members, ws, es, last);
        assert false;
      }
    }
    if AllCaptured(w.artifacts, op, members) && !ForeignConsumer(w, op, members) {
      SucceedsFrom(w, op, members);
    }
  }

  // ------------------------------------------------------------------------------------
  // Capture, convert, roll back
  // ------------------------------------------------------------------------------------

  datatype CaptureEvent = Request(budget: nat) | ArtifactReady(member: string)

  /** During capture every member is stopped, so only requests and completed copies happen. */
  predicate CaptureEnabled(w: World, op: string, e: CaptureEvent) {
    e.ArtifactReady? ==> (op, e.member) in w.artifacts && !w.artifacts[(op, e.member)].ready && e.member in w.claims
  }

  function DoCapture(w: World, op: string, members: seq<string>, e: CaptureEvent): World
    requires CaptureEnabled(w, op, e)
  {
    match e
    case Request(budget) => CapturePass(w, op, members, budget).0
    case ArtifactReady(m) => w.(artifacts := w.artifacts[(op, m) := Artifact(true, w.claims[m].data)])
  }

  ghost predicate CaptureRun(op: string, members: seq<string>, ws: seq<World>, es: seq<CaptureEvent>) {
    && |ws| == |es| + 1
    && (forall m :: (op, m) !in ws[0].artifacts)
    && forall i :: 0 <= i < |es| ==> CaptureEnabled(ws[i], op, es[i]) && ws[i + 1] == DoCapture(ws[i], op, members, es[i])
  }

  lemma {:induction false} CaptureCopies(op: string, members: seq<string>, ws: seq<World>, es: seq<CaptureEvent>, j: nat)
    requires CaptureRun(op, members, ws, es) && j < |ws|
    ensures ws[j].claims == ws[0].claims
    ensures forall m :: Captured(ws[j].artifacts, (op, m)) ==>
              m in ws[0].claims && ws[j].artifacts[(op, m)].data == ws[0].claims[m].data
  {
    if j > 0 {
      CaptureCopies(op, members, ws, es, j - 1);
    }
  }

  /**
    The round trip: once a capture pass reported success, whatever a conversion then does to the
    claims, Pods and Jobs, a rollback that reports success leaves every local claim with the
    data it had before the capture.
  */
  lemma RollbackRestoresCapturedData(op: string, members: seq<string>, cs: seq<World>, ces: seq<CaptureEvent>,
                                     ws: seq<World>, es: seq<Event>, budget: nat)
    requires CaptureRun(op, members, cs, ces) && CapturePass(cs[|cs| - 1], op, members, budget).1.Ready?
    requires Run(op, members, ws, es) && Start(ws[0], op) && ws[0].artifacts == cs[|cs| - 1].artifacts
    ensures CanSucceed(ws[0], op, members) <==> !ForeignConsumer(ws[0], op, members)
    ensures forall j, b: nat :: 0 <= j < |ws| && RestorePass(ws[j], op, members, b).1.Ready? ==>
              forall m :: m in members ==>
                m in cs[0].claims && Finished(ws[j].claims, op, m) && ws[j].claims[m].data == cs[0].claims[m].data
  {
    var last := |cs| - 1;
    CaptureCopies(op, members, cs, ces, last);
    forall m | m in members
      ensures Captured(cs[last].artifacts, (op, m))
    {
      var i :| 0 <= i < |members| && members[i] == m;
    }
    RollbackCanSucceed(ws[0], op, members);
    forall j, b: nat | 0 <= j < |ws| && RestorePass(ws[j], op, members, b).1.Ready?
      ensures forall m :: m in members ==>
                m in cs[0].claims && Finished(ws[j].claims, op, m) && ws[j].claims[m].data == cs[0].claims[m].data
    {
      SuccessMeansRestored(op, members, ws, es, j, b);
    }
  }
}
