/**
  The runs with data directories cover those of the upgrade machine: to every run without forced
  abandonment after Preflight, in which claims are restored from existing artifacts, there is one with data that
  reaches the same state.
*/
module MajorUpgradeDataRuns {
  import opened Common
  import opened Names
  import opened UpgradePhases
  import opened MajorUpgrade
  import opened MajorUpgradeAgent
  import opened MajorUpgradeData
  import opened MajorUpgradeDataSteps
  import opened MajorUpgradeSafety
  import opened MajorUpgradeWork
  import opened MajorVersions
  import P = PlanProtocol

  /** No forced abandonment after Preflight, and a rollback is finished only with an artifact for each local member. */
  predicate Covered(sites: Sites, s: State, e: Event) {
    && !Abandons(s, e)
    && (e.FinishLocal? && e.site in s.sys.cache && s.sys.cache[e.site].tag.Some? &&
        s.sys.cache[e.site].tag.value.phase == Rollback && e.site in sites ==>
          forall m :: m in sites[e.site].members ==> (s.sys.cache[e.site].tag.value.uid, m) in s.artifacts)
  }

  /** A run with data leads to this world, and every artifact of the machine is there. */
  ghost predicate Reached(x: Instance, w: World) {
    && (exists ws, es :: DataRun(x, ws, es) && ws[|es|] == w)
    && forall a :: a in w.up.s.artifacts ==> a in w.saved
  }

  lemma ReachStep(x: Instance, w: World, e: Step) returns (t: World)
    requires Reached(x, w) && StepEnabled(x, w, e)
    requires forall a :: a in DoStep(x, w, e).up.s.artifacts ==> a in DoStep(x, w, e).saved
    ensures t == DoStep(x, w, e) && Reached(x, t)
  {
    t := DoStep(x, w, e);
    var ws, es :| DataRun(x, ws, es) && ws[|es|] == w;
    var longer, more := ws + [t], es + [e];
    forall i | 0 <= i < |more|
      ensures StepEnabled(x, longer[i], more[i]) && longer[i + 1] == DoStep(x, longer[i], more[i])
    {
      if i < |es| { assert longer[i] == ws[i] && more[i] == es[i] && longer[i + 1] == ws[i + 1]; }
    }
    assert DataRun(x, longer, more) && longer[|more|] == t;
  }

  /** The site renders what it has accepted. */
  lemma RenderFirst(x: Instance, w: World, n: string) returns (t: World)
    requires Reached(x, w) && StepEnabled(x, w, Render(n))
    ensures Reached(x, t) && t.up == w.up && t.saved == w.saved && RendersAccepted(t, n)
  {
    t := ReachStep(x, w, Render(n));
  }

  lemma CoverFinish(x: Instance, w: World, n: string) returns (t: World)
    requires Declared(x) && Reached(x, w) && Enabled(x.sites, w.up.s, FinishLocal(n)) && Covered(x.sites, w.up.s, FinishLocal(n))
    requires n in x.locals
    ensures Reached(x, t) && t.up.s == MajorUpgrade.Do(x.sites, w.up.s, FinishLocal(n))
  {
    var o := w.up.s.sys.cache[n].tag.value;
    if (n, o) in w.up.s.done {
      t := w;
      assert w.up.s.done + {(n, o)} == w.up.s.done;
    } else if o.phase == Rollback {
      var r := RenderFirst(x, w, n);
      forall m | m in x.locals[n] ensures (o.uid, m) in r.saved {
        assert m in Elements(x.locals[n]);
      }
      t := ReachStep(x, r, FinishWork(n));
    } else {
      t := ReachStep(x, w, FinishWork(n));
    }
  }

  lemma CoverCapture(x: Instance, w: World, n: string, m: string) returns (t: World)
    requires Reached(x, w) && Enabled(x.sites, w.up.s, Capture(n, m)) && m in w.disks
    ensures Reached(x, t) && t.up.s == MajorUpgrade.Do(x.sites, w.up.s, Capture(n, m))
  {
    t := ReachStep(x, w, CaptureClaim(n, m));
  }

  lemma CoverReport(x: Instance, w: World, e: Event) returns (t: World)
    requires Reached(x, w) && Enabled(x.sites, w.up.s, e) && e.Protocol? && e.e.Report? && e.e.site in x.locals
    ensures Reached(x, t) && t.up.s == MajorUpgrade.Do(x.sites, w.up.s, e)
  {
    var r := RenderFirst(x, w, e.e.site);
    t := ReachStep(x, r, Machine(e));
  }

  lemma CoverOther(x: Instance, w: World, e: Event) returns (t: World)
    requires Reached(x, w) && Enabled(x.sites, w.up.s, e) && Covered(x.sites, w.up.s, e)
    requires !e.FinishLocal? && !e.Capture? && !(e.Protocol? && e.e.Report?)
    ensures Reached(x, t) && t.up.s == MajorUpgrade.Do(x.sites, w.up.s, e)
  {
    t := ReachStep(x, w, Machine(e));
  }

  lemma StepKeepsKeys(x: Instance, w: World, e: Step)
    requires StepEnabled(x, w, e)
    ensures DoStep(x, w, e).disks.Keys == w.disks.Keys
  {
  }

  lemma {:induction false} DisksAreMembers(x: Instance, ws: seq<World>, es: seq<Step>, i: nat)
    requires DataRun(x, ws, es) && i < |ws|
    ensures ws[i].disks.Keys == Members(x.sites)
  {
    if i > 0 {
      DisksAreMembers(x, ws, es, i - 1);
      StepKeepsKeys(x, ws[i - 1], es[i - 1]);
    }
  }

  lemma CoverStep(x: Instance, w: World, e: Event) returns (t: World)
    requires Declared(x) && Reached(x, w) && Enabled(x.sites, w.up.s, e) && Covered(x.sites, w.up.s, e)
    requires forall n :: n in w.up.s.sys.cache ==> n in x.locals
    ensures Reached(x, t) && t.up.s == MajorUpgrade.Do(x.sites, w.up.s, e)
  {
    if e.FinishLocal? {
      t := CoverFinish(x, w, e.site);
    } else if e.Capture? {
      assert e.member in w.disks by {
        var ws, es :| DataRun(x, ws, es) && ws[|es|] == w;
        DisksAreMembers(x, ws, es, |es|);
      }
      t := CoverCapture(x, w, e.site, e.member);
    } else if e.Protocol? && e.e.Report? {
      t := CoverReport(x, w, e);
    } else {
      t := CoverOther(x, w, e);
    }
  }

  /** A new instance of this specification. */
  function NewWorld(x: Instance, spec: nat): World {
    World(Versioned(Init(), spec, [spec]), map m | m in Members(x.sites) :: Holds(spec), map[], map[])
  }

  /**
    Every run of the upgrade machine without forced abandonment after Preflight, in which a rollback is
    finished only with its artifacts, is the upgrade part of a run with data directories.
  */
  lemma {:induction false} EveryRunHasData(x: Instance, spec: nat, states: seq<State>, events: seq<Event>, i: nat) returns (w: World)
    requires Declared(x) && Run(x.sites, states, events) && i < |states|
    requires forall k :: 0 <= k < |events| ==> Covered(x.sites, states[k], events[k])
    ensures Reached(x, w) && w.up.s == states[i]
  {
    if i == 0 {
      w := NewWorld(x, spec);
      var none: seq<Step> := [];
      assert DataRun(x, [w], none) && [w][|none|] == w;
    } else {
      var before := EveryRunHasData(x, spec, states, events, i - 1);
      assert Next(x.sites, states[i - 1], events[i - 1], states[i - 1 + 1]);
      forall n | n in states[i - 1].sys.cache ensures n in x.locals {
        RunKeeps(x.sites, states, events, i - 1);
      }
      w := CoverStep(x, before, events[i - 1]);
    }
  }
}
