/**
  What every step keeps of the data directories: the invariant, and the steps that a site takes on
  its own, which are work, capture, rendering and cloning.
*/
module MajorUpgradeDataSteps {
  import opened Common
  import opened Names
  import opened UpgradePhases
  import opened MajorUpgrade
  import opened MajorUpgradeAgent
  import opened MajorUpgradeData
  import opened MajorUpgradeSafety
  import opened MajorUpgradeWork
  import opened MajorVersions
  import P = PlanProtocol

  // ------------------------------------------------------------------------------------
  // The invariant
  // ------------------------------------------------------------------------------------

  /** The directory is empty, or has the data that go with the tag. */
  predicate Good(x: Instance, w: World, tag: Tag, m: string) {
    m in w.disks && (w.disks[m] == Blank || w.disks[m] == Holds(DataVersion(x.target, w.up.spec, tag, m)))
  }

  predicate Done(s: State, n: string, tag: Tag) { tag.None? || (n, tag.value) in s.done }

  /** What a site has on disk for the plan it accepted: all but the work it has yet to finish. */
  predicate AcceptedData(x: Instance, w: World, n: string)
    requires n in x.locals && n in w.up.s.sys.cache
  {
    var tag := w.up.s.sys.cache[n].tag;
    forall m :: m in x.locals[n] ==>
      (!Done(w.up.s, n, tag) && Touches(tag.value, m)) || Good(x, w, tag, m)
  }

  /** What runs on a site has the data that go with it. */
  predicate RunningData(x: Instance, w: World, n: string)
    requires n in x.locals && n in w.rendered && w.rendered[n] < |w.up.s.sys.issued|
  {
    var tag := w.up.s.sys.issued[w.rendered[n]];
    forall m :: m in x.locals[n] && !MemberStopped(tag, m) ==> Good(x, w, tag, m)
  }

  /** A site runs an accepted plan, this one or an earlier one, whose work it has finished; or it has stopped for a rollback. */
  predicate RendersRecent(w: World, n: string) {
    n in w.rendered ==>
      && n in w.up.s.sys.cache && w.up.s.floor <= w.rendered[n] <= w.up.s.sys.cache[n].revision < |w.up.s.sys.issued|
      && var tag := w.up.s.sys.issued[w.rendered[n]];
         Done(w.up.s, n, tag) || tag.value.phase == Rollback
  }

  /** A site restores its claims with everything stopped for that. */
  predicate RollbackIsRendered(w: World, n: string) {
    var s := w.up.s;
    n in s.sys.cache && s.sys.cache[n].tag.Some? && s.sys.cache[n].tag.value.phase == Rollback && Done(s, n, s.sys.cache[n].tag) ==>
      n in w.rendered && w.rendered[n] < |s.sys.issued| && s.sys.issued[w.rendered[n]] == s.sys.cache[n].tag
  }

  /** A site that has not accepted any plan yet has the data it started with. */
  predicate Untouched(x: Instance, w: World, n: string)
    requires n in x.locals
  {
    n !in w.up.s.sys.cache ==> forall m :: m in x.locals[n] ==> Good(x, w, None, m)
  }

  ghost predicate SiteInv(x: Instance, w: World, n: string)
    requires n in x.locals
  {
    && RendersRecent(w, n) && RollbackIsRendered(w, n) && Untouched(x, w, n)
    && (n in w.up.s.sys.cache ==> AcceptedData(x, w, n))
    && (n in w.rendered ==> RunningData(x, w, n))
  }

  /** A site reported Ready only on what it had rendered. */
  predicate ReportedIsRendered(w: World) {
    forall m :: m in w.up.s.sys.results ==> m.0 in w.rendered && m.1 <= w.rendered[m.0]
  }

  /** Finished work belongs to a plan that the site had accepted. */
  predicate DoneWasAccepted(s: State) {
    forall d :: d in s.done ==>
      d.0 in s.sys.cache && exists r :: 0 <= r < |s.sys.issued| && r <= s.sys.cache[d.0].revision && s.sys.issued[r] == Some(d.1)
  }

  /** The artifacts of the present upgrade hold the data from before it. */
  predicate SavedInv(w: World) {
    var tag := w.up.s.sys.hub.tag;
    forall a :: a in w.saved ==>
      || a.0 in w.up.s.ended
      || (&& tag.Some? && a.0 == tag.value.uid
          && (tag.value.phase != Finalize ==> w.saved[a] == Blank || w.saved[a] == Holds(w.up.spec)))
  }

  ghost predicate UpInv(x: Instance, up: Versioned) {
    MajorUpgrade.Inv(x.sites, up.s) && VInv(x.target, up) && NoForcedRelease(up.s.recent)
  }

  predicate Books(x: Instance, w: World) {
    w.disks.Keys == Members(x.sites) && ReportedIsRendered(w) && DoneWasAccepted(w.up.s) && SavedInv(w)
  }

  ghost predicate SitesInv(x: Instance, w: World) {
    forall n :: n in x.locals ==> SiteInv(x, w, n)
  }

  ghost predicate DataInv(x: Instance, w: World) { UpInv(x, w.up) && Books(x, w) && SitesInv(x, w) }

  // ------------------------------------------------------------------------------------
  // The window
  // ------------------------------------------------------------------------------------

  /** What the steps below need of the upgrade invariant: the tags that are about, and their order. */
  ghost predicate Window(x: Instance, w: World) {
    var s := w.up.s;
    && Shape(s.recent) && NoForcedRelease(s.recent) && FinalizeIsSpec(x.target, w.up.spec, s.recent)
    && |w.up.versions| == |s.sys.issued|
    && (forall r :: s.floor <= r < |s.sys.issued| ==> s.sys.issued[r] in s.recent)
    && (forall q, r :: 0 <= q <= r < |s.sys.issued| ==> InOrder(s.sys.issued[q], s.sys.issued[r]))
  }

  lemma FinalizeFacts(x: Instance, w: World)
    requires WindowInv(x.sites, w.up.s.sys, w.up.s.done, w.up.s.floor, w.up.s.recent) && VInv(x.target, w.up)
    requires NoForcedRelease(w.up.s.recent)
    ensures FinalizeIsSpec(x.target, w.up.spec, w.up.s.recent)
  {
    var s := w.up.s;
    forall i | 0 <= i < |s.recent| && s.recent[i].Some? && s.recent[i].value.phase == Finalize
      ensures x.target(s.recent[i].value.uid) == w.up.spec
    {
      assert i == 0 || i == |s.recent| - 1;
      assert s.recent[0] == s.sys.issued[s.floor];
    }
  }

  lemma OrderFacts(issued: seq<Tag>, tag: Tag, ended: set<string>)
    requires HistoryInv(issued, tag, ended)
    ensures forall q, r :: 0 <= q <= r < |issued| ==> InOrder(issued[q], issued[r])
  {
    forall q, r | 0 <= q <= r < |issued| ensures InOrder(issued[q], issued[r]) {
      assert Ordered(issued[q], issued[r]);
    }
  }

  lemma InvGivesWindow(x: Instance, w: World)
    requires UpInv(x, w.up)
    ensures Window(x, w)
  {
    FinalizeFacts(x, w);
    OrderFacts(w.up.s.sys.issued, w.up.s.sys.hub.tag, w.up.s.ended);
  }

  /** In the window, the version a member runs with is the version of its data. */
  lemma RunsItsData(x: Instance, w: World, r: nat, m: string)
    requires VInv(x.target, w.up) && w.up.s.floor <= r < |w.up.s.sys.issued|
    requires !MemberStopped(w.up.s.sys.issued[r], m)
    ensures Version(x.target, w.up.s.sys.issued, w.up.versions, r, m) ==
            DataVersion(x.target, w.up.spec, w.up.s.sys.issued[r], m)
  {
  }

  // ------------------------------------------------------------------------------------
  // Work, rendering and cloning on one site
  // ------------------------------------------------------------------------------------

  /** The facts about one site's two plans: the rendered one and the accepted one. */
  ghost predicate Pair(x: Instance, w: World, n: string) {
    var s := w.up.s;
    && n in x.locals && n in s.sys.cache && s.floor <= s.sys.cache[n].revision < |s.sys.issued|
    && s.sys.issued[s.sys.cache[n].revision] == s.sys.cache[n].tag && s.sys.cache[n].tag in s.recent
  }

  lemma InvGivesPair(x: Instance, w: World, n: string)
    requires UpInv(x, w.up) && n in w.up.s.sys.cache && n in x.locals
    ensures Pair(x, w, n)
  {
    HeldInWindow(x.sites, w.up.s, n);
  }

  /** Members whose data the accepted plan has yet to rewrite, or has rewritten, do not run under the rendered one. */
  lemma TouchedIsStopped(x: Instance, w: World, n: string, m: string)
    requires Window(x, w) && Pair(x, w, n) && n in w.rendered && RendersRecent(w, n)
    requires
      var y := w.up.s.sys.cache[n].tag;
      y.Some? && Touches(y.value, m) && (y.value.phase == Rollback ==> w.up.s.sys.issued[w.rendered[n]] == y)
    requires w.up.s.sys.issued[w.rendered[n]] != w.up.s.sys.cache[n].tag || w.up.s.sys.cache[n].tag.value.phase == Rollback
    ensures MemberStopped(w.up.s.sys.issued[w.rendered[n]], m)
  {
    var s := w.up.s;
    var a, b := s.sys.issued[w.rendered[n]], s.sys.cache[n].tag;
    if b.value.phase != Rollback {
      assert InOrder(a, b);
      RewritesStoppedOnly(s.recent, a, b, m);
    }
  }

  ghost predicate Declared(x: Instance) { x.sites != map[] && Declares(x.sites, x.locals) }

  lemma LocalIsMember(x: Instance, n: string, m: string)
    requires Declared(x) && n in x.locals && m in x.locals[n]
    ensures m in Members(x.sites)
  {
    assert m in Elements(x.locals[n]);
    assert m in x.sites[n].members;
  }

  /** A site's work leaves the members of other sites alone. */
  lemma WorkStaysLocal(x: Instance, o: Owner, n: string, k: string, m: string)
    requires Declared(x) && n in x.locals && k in x.locals && m in x.locals[k]
    ensures m in Touched(o, n, x.locals[n]) <==> n == k && Touches(o, m)
  {
    LocalIsMember(x, k, m);
    TouchedExactly(x.sites, x.locals, o, n, m);
    assert m in Elements(x.locals[k]);
    PrimaryHasOneHome(x.sites, x.locals, k, m, n);
  }

  /** A site whose directories stay as they are keeps its invariant. */
  lemma SameDisksKeep(x: Instance, w: World, disks: map<string, Disk>, n: string)
    requires n in x.locals && SiteInv(x, w, n)
    requires forall m :: m in x.locals[n] && m in w.disks ==> m in disks && disks[m] == w.disks[m]
    ensures SiteInv(x, w.(disks := disks), n)
  {
  }

  /** The accepted plan of a site with work left is not the one it runs, unless that is a rollback. */
  lemma WorkIsOnStopped(x: Instance, w: World, n: string, m: string)
    requires Window(x, w) && Pair(x, w, n) && RendersRecent(w, n) && HasWork(x, w.up.s, n)
    requires w.up.s.sys.cache[n].tag.value.phase == Rollback ==> RendersAccepted(w, n)
    requires Touches(w.up.s.sys.cache[n].tag.value, m) && n in w.rendered
    ensures MemberStopped(w.up.s.sys.issued[w.rendered[n]], m)
  {
    TouchedIsStopped(x, w, n, m);
  }

  lemma BeginWorkKeepsSite(x: Instance, w: World, n: string)
    requires Declared(x) && Window(x, w) && Pair(x, w, n) && StepEnabled(x, w, BeginWork(n)) && SiteInv(x, w, n)
    ensures SiteInv(x, DoStep(x, w, BeginWork(n)), n)
  {
    var o := w.up.s.sys.cache[n].tag.value;
    forall m | m in x.locals[n] ensures m in Touched(o, n, x.locals[n]) <==> Touches(o, m) {
      WorkStaysLocal(x, o, n, n, m);
    }
    forall m | m in x.locals[n] && Touches(o, m) && n in w.rendered
      ensures MemberStopped(w.up.s.sys.issued[w.rendered[n]], m)
    {
      WorkIsOnStopped(x, w, n, m);
    }
  }

  lemma BeginWorkKeepsOthers(x: Instance, w: World, n: string, k: string)
    requires Declared(x) && StepEnabled(x, w, BeginWork(n)) && k in x.locals && k != n && SiteInv(x, w, k)
    ensures SiteInv(x, DoStep(x, w, BeginWork(n)), k)
  {
    var o := w.up.s.sys.cache[n].tag.value;
    forall m | m in x.locals[k] ensures m !in Touched(o, n, x.locals[n]) {
      WorkStaysLocal(x, o, n, k, m);
    }
    SameDisksKeep(x, w, DoStep(x, w, BeginWork(n)).disks, k);
  }

  lemma BeginWorkKeeps(x: Instance, w: World, n: string)
    requires Declared(x) && Window(x, w) && Pair(x, w, n) && Books(x, w) && SitesInv(x, w)
    requires StepEnabled(x, w, BeginWork(n))
    ensures var t := DoStep(x, w, BeginWork(n)); t.up == w.up && Books(x, t) && SitesInv(x, t)
  {
    var t := DoStep(x, w, BeginWork(n));
    assert t.disks.Keys == w.disks.Keys;
    forall k | k in x.locals ensures SiteInv(x, t, k) {
      if k == n { BeginWorkKeepsSite(x, w, n); } else { BeginWorkKeepsOthers(x, w, n, k); }
    }
  }

  /** A rollback that a site has yet to finish is what the hub asks for. */
  lemma RollbackIsOwner(x: Instance, w: World, n: string)
    requires Window(x, w) && Pair(x, w, n) && WindowInv(x.sites, w.up.s.sys, w.up.s.done, w.up.s.floor, w.up.s.recent)
    requires n in x.sites && HasWork(x, w.up.s, n) && w.up.s.sys.cache[n].tag.value.phase == Rollback
    ensures w.up.s.sys.hub.tag == w.up.s.sys.cache[n].tag
  {
    var y := w.up.s.sys.cache[n].tag;
    assert y != w.up.s.recent[0] by {
      assert w.up.s.floor > 0;
    }
  }

  /** Finished work leaves the data that go with the plan. */
  lemma FinishedIsGood(x: Instance, w: World, n: string, m: string)
    requires Declared(x) && StepEnabled(x, w, FinishWork(n)) && m in x.locals[n] && m in w.disks
    requires Touches(w.up.s.sys.cache[n].tag.value, m)
    requires
      var o := w.up.s.sys.cache[n].tag.value;
      o.phase == Rollback ==> w.saved[(o.uid, m)] == Blank || w.saved[(o.uid, m)] == Holds(w.up.spec)
    ensures
      var o := w.up.s.sys.cache[n].tag.value;
      var d := Rewritten(x, w, o, n, m);
      d == Blank || d == Holds(DataVersion(x.target, w.up.spec, Some(o), m))
  {
    var o := w.up.s.sys.cache[n].tag.value;
    if o.phase == UpgradePrimary {
      assert m in Elements(x.locals[n]);
      PrimaryHasOneHome(x.sites, x.locals, n, m, n);
    }
  }

  /** The upgrade part after finished work: one more entry in the history of finished work. */
  lemma FinishedState(x: Instance, w: World, n: string)
    requires StepEnabled(x, w, FinishWork(n))
    ensures
      var t := DoStep(x, w, FinishWork(n));
      && t.up == w.up.(s := w.up.s.(done := w.up.s.done + {(n, w.up.s.sys.cache[n].tag.value)}))
      && t.saved == w.saved && t.rendered == w.rendered && t.disks.Keys == w.disks.Keys
  {
  }

  /** The artifacts that a restore reads hold the data from before the upgrade. */
  lemma RestoresOldData(x: Instance, w: World, n: string, m: string)
    requires Window(x, w) && Pair(x, w, n) && WindowInv(x.sites, w.up.s.sys, w.up.s.done, w.up.s.floor, w.up.s.recent)
    requires OwnerInv(w.up.s.sys.issued, w.up.s.sys.hub.tag, w.up.s.expected, w.up.s.ended) && SavedInv(w)
    requires StepEnabled(x, w, FinishWork(n)) && n in x.sites && m in x.locals[n]
    requires w.up.s.sys.cache[n].tag.value.phase == Rollback
    ensures
      var o := w.up.s.sys.cache[n].tag.value;
      (o.uid, m) in w.saved && (w.saved[(o.uid, m)] == Blank || w.saved[(o.uid, m)] == Holds(w.up.spec))
  {
    RollbackIsOwner(x, w, n);
  }

  lemma FinishWorkKeepsSite(x: Instance, w: World, n: string)
    requires Declared(x) && Window(x, w) && Pair(x, w, n) && StepEnabled(x, w, FinishWork(n)) && SiteInv(x, w, n)
    requires forall m :: m in x.locals[n] ==> m in w.disks
    requires
      var o := w.up.s.sys.cache[n].tag.value;
      o.phase == Rollback ==>
        forall m :: m in x.locals[n] ==>
          (o.uid, m) in w.saved && (w.saved[(o.uid, m)] == Blank || w.saved[(o.uid, m)] == Holds(w.up.spec))
    ensures SiteInv(x, DoStep(x, w, FinishWork(n)), n)
  {
    var o := w.up.s.sys.cache[n].tag.value;
    var t := DoStep(x, w, FinishWork(n));
    FinishedState(x, w, n);
    forall m | m in x.locals[n]
      ensures if Touches(o, m) then t.disks[m] == Rewritten(x, w, o, n, m) else t.disks[m] == w.disks[m]
      ensures Good(x, t, Some(o), m)
    {
      WorkStaysLocal(x, o, n, n, m);
      if Touches(o, m) {
        FinishedIsGood(x, w, n, m);
      }
    }
    forall m | m in x.locals[n] && Touches(o, m) && n in w.rendered
      ensures MemberStopped(w.up.s.sys.issued[w.rendered[n]], m)
    {
      WorkIsOnStopped(x, w, n, m);
    }
  }

  lemma FinishWorkKeepsOthers(x: Instance, w: World, n: string, k: string)
    requires Declared(x) && StepEnabled(x, w, FinishWork(n)) && k in x.locals && k != n && SiteInv(x, w, k)
    ensures SiteInv(x, DoStep(x, w, FinishWork(n)), k)
  {
    var o := w.up.s.sys.cache[n].tag.value;
    var t := DoStep(x, w, FinishWork(n));
    FinishedState(x, w, n);
    forall m | m in x.locals[k] ensures m !in Touched(o, n, x.locals[n]) {
      WorkStaysLocal(x, o, n, k, m);
    }
    SameDisksKeep(x, w, t.disks, k);
  }

  lemma FinishWorkKeepsBooks(x: Instance, w: World, n: string)
    requires Pair(x, w, n) && StepEnabled(x, w, FinishWork(n)) && Books(x, w)
    ensures Books(x, DoStep(x, w, FinishWork(n)))
  {
    FinishedState(x, w, n);
    var s := w.up.s;
    assert s.sys.issued[s.sys.cache[n].revision] == Some(s.sys.cache[n].tag.value);
  }

  lemma FinishWorkKeepsSites(x: Instance, w: World, n: string)
    requires Declared(x) && Window(x, w) && Pair(x, w, n) && Books(x, w) && SitesInv(x, w)
    requires WindowInv(x.sites, w.up.s.sys, w.up.s.done, w.up.s.floor, w.up.s.recent)
    requires OwnerInv(w.up.s.sys.issued, w.up.s.sys.hub.tag, w.up.s.expected, w.up.s.ended)
    requires StepEnabled(x, w, FinishWork(n))
    ensures SitesInv(x, DoStep(x, w, FinishWork(n)))
  {
    forall m | m in x.locals[n] ensures m in w.disks { LocalIsMember(x, n, m); }
    if w.up.s.sys.cache[n].tag.value.phase == Rollback {
      forall m | m in x.locals[n]
        ensures
          var o := w.up.s.sys.cache[n].tag.value;
          (o.uid, m) in w.saved && (w.saved[(o.uid, m)] == Blank || w.saved[(o.uid, m)] == Holds(w.up.spec))
      {
        RestoresOldData(x, w, n, m);
      }
    }
    forall k | k in x.locals ensures SiteInv(x, DoStep(x, w, FinishWork(n)), k) {
      if k == n { FinishWorkKeepsSite(x, w, n); } else { FinishWorkKeepsOthers(x, w, n, k); }
    }
  }

  lemma FinishWorkKeepsUp(x: Instance, w: World, n: string)
    requires UpInv(x, w.up) && StepEnabled(x, w, FinishWork(n))
    ensures UpInv(x, DoStep(x, w, FinishWork(n)).up)
  {
    MajorUpgrade.StepKeeps(x.sites, w.up.s, FinishLocal(n));
    InvGivesFacts(x.sites, w.up.s);
    StepKeepsVersions(x.sites, x.target, w.up, FinishLocal(n));
    FinishedState(x, w, n);
  }

  // Capture

  lemma SnapshotIsOwner(x: Instance, w: World, n: string)
    requires Window(x, w) && Pair(x, w, n) && w.up.s.recent[|w.up.s.recent| - 1] == w.up.s.sys.hub.tag
    requires w.up.s.sys.cache[n].tag.Some? && w.up.s.sys.cache[n].tag.value.phase == Snapshot
    ensures
      var tag := w.up.s.sys.hub.tag;
      tag.Some? && tag.value.uid == w.up.s.sys.cache[n].tag.value.uid && tag.value.phase != Finalize
  {
  }

  lemma CaptureState(x: Instance, w: World, n: string, m: string)
    requires StepEnabled(x, w, CaptureClaim(n, m))
    ensures
      var t, name := DoStep(x, w, CaptureClaim(n, m)), (w.up.s.sys.cache[n].tag.value.uid, m);
      && t.up == w.up.(s := w.up.s.(artifacts := t.up.s.artifacts)) && t.disks == w.disks && t.rendered == w.rendered
      && t.saved == if name in w.saved then w.saved else w.saved[name := w.disks[m]]
  {
  }

  /** The site sees nothing of what has changed. */
  lemma SameViewKeeps(x: Instance, w: World, t: World, n: string)
    requires n in x.locals && SiteInv(x, w, n) && t.disks == w.disks && t.rendered == w.rendered && t.up.spec == w.up.spec
    requires t.up.s.sys.cache == w.up.s.sys.cache && t.up.s.sys.issued == w.up.s.sys.issued
    requires t.up.s.floor == w.up.s.floor && t.up.s.done == w.up.s.done
    ensures SiteInv(x, t, n)
  {
  }

  lemma CaptureClaimKeeps(x: Instance, w: World, n: string, m: string)
    requires Declared(x) && Window(x, w) && Pair(x, w, n) && Books(x, w) && SitesInv(x, w)
    requires w.up.s.recent[|w.up.s.recent| - 1] == w.up.s.sys.hub.tag
    requires StepEnabled(x, w, CaptureClaim(n, m))
    ensures var t := DoStep(x, w, CaptureClaim(n, m)); Books(x, t) && SitesInv(x, t)
  {
    var t := DoStep(x, w, CaptureClaim(n, m));
    CaptureState(x, w, n, m);
    assert Books(x, t) by {
      SnapshotIsOwner(x, w, n);
      assert m in Elements(x.locals[n]);
      assert SiteInv(x, w, n) && Good(x, w, w.up.s.sys.cache[n].tag, m);
    }
    forall k | k in x.locals ensures SiteInv(x, t, k) {
      SameViewKeeps(x, w, t, k);
    }
  }

  lemma CaptureKeepsUp(x: Instance, w: World, n: string, m: string)
    requires UpInv(x, w.up) && StepEnabled(x, w, CaptureClaim(n, m))
    ensures UpInv(x, DoStep(x, w, CaptureClaim(n, m)).up)
  {
    MajorUpgrade.StepKeeps(x.sites, w.up.s, Capture(n, m));
    InvGivesFacts(x.sites, w.up.s);
    StepKeepsVersions(x.sites, x.target, w.up, Capture(n, m));
  }

  // Rendering and cloning

  lemma RenderKeepsSite(x: Instance, w: World, n: string)
    requires Pair(x, w, n) && StepEnabled(x, w, Render(n)) && SiteInv(x, w, n)
    ensures SiteInv(x, DoStep(x, w, Render(n)), n)
  {
  }

  lemma RenderKeepsOthers(x: Instance, w: World, n: string, k: string)
    requires StepEnabled(x, w, Render(n)) && k in x.locals && k != n && SiteInv(x, w, k)
    ensures SiteInv(x, DoStep(x, w, Render(n)), k)
  {
  }

  lemma RenderKeeps(x: Instance, w: World, n: string)
    requires Pair(x, w, n) && StepEnabled(x, w, Render(n)) && Books(x, w) && SitesInv(x, w)
    ensures var t := DoStep(x, w, Render(n)); t.up == w.up && Books(x, t) && SitesInv(x, t)
  {
    assert SiteInv(x, w, n);
    forall k | k in x.locals ensures SiteInv(x, DoStep(x, w, Render(n)), k) {
      if k == n { RenderKeepsSite(x, w, n); } else { RenderKeepsOthers(x, w, n, k); }
    }
  }

  /** A running member's data go with the accepted plan too, as far as its work does not rewrite them. */
  lemma RunningKeepsData(x: Instance, w: World, n: string, m: string)
    requires Window(x, w) && Pair(x, w, n) && SiteInv(x, w, n) && Runs(x, w, n, m)
    requires Done(w.up.s, n, w.up.s.sys.cache[n].tag) || !Touches(w.up.s.sys.cache[n].tag.value, m)
    ensures
      var a, b := w.up.s.sys.issued[w.rendered[n]], w.up.s.sys.cache[n].tag;
      DataVersion(x.target, w.up.spec, a, m) == DataVersion(x.target, w.up.spec, b, m)
  {
    var a, b := w.up.s.sys.issued[w.rendered[n]], w.up.s.sys.cache[n].tag;
    if a != b {
      assert InOrder(a, b);
      if b.Some? && Touches(b.value, m) {
        TouchedIsStopped(x, w, n, m);
        assert false;
      }
      OthersKeepData(x.target, w.up.spec, w.up.s.recent, a, b, m);
    }
  }

  lemma CloneKeepsSite(x: Instance, w: World, n: string, m: string)
    requires Declared(x) && Window(x, w) && VInv(x.target, w.up) && Pair(x, w, n) && SiteInv(x, w, n)
    requires StepEnabled(x, w, Clone(n, m))
    ensures SiteInv(x, DoStep(x, w, Clone(n, m)), n)
  {
    RunsItsData(x, w, w.rendered[n], m);
    if Done(w.up.s, n, w.up.s.sys.cache[n].tag) || !Touches(w.up.s.sys.cache[n].tag.value, m) {
      RunningKeepsData(x, w, n, m);
    }
  }

  lemma CloneKeeps(x: Instance, w: World, n: string, m: string)
    requires Declared(x) && Window(x, w) && VInv(x.target, w.up) && Pair(x, w, n) && Books(x, w) && SitesInv(x, w)
    requires StepEnabled(x, w, Clone(n, m))
    ensures var t := DoStep(x, w, Clone(n, m)); t.up == w.up && Books(x, t) && SitesInv(x, t)
  {
    var t := DoStep(x, w, Clone(n, m));
    assert t.disks.Keys == w.disks.Keys;
    forall k | k in x.locals ensures SiteInv(x, t, k) {
      if k == n {
        CloneKeepsSite(x, w, n, m);
      } else {
        assert m !in x.locals[k] by {
          assert m in Elements(x.locals[n]);
          PrimaryHasOneHome(x.sites, x.locals, n, m, k);
        }
        SameDisksKeep(x, w, t.disks, k);
      }
    }
  }
}
