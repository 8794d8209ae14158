/**
  Major upgrades down to the data directories: which version of data each member has, which
  workloads each site runs, and the work that rewrites data in between. A run is any sequence of
  machine steps, site work cut in two, renderings and clones, in which no upgrade is abandoned by
  force after Preflight.
*/
module MajorUpgradeData {
  import opened Common
  import opened Names
  import opened UpgradePhases
  import opened MajorUpgrade
  import opened MajorUpgradeAgent
  import opened MajorUpgradeSafety
  import opened MajorUpgradeWork
  import opened MajorVersions
  import P = PlanProtocol

  /** A data directory: with data of one version, empty, or in the middle of being rewritten. */
  datatype Disk = Holds(version: nat) | Blank | Torn

  /** `saved` are the rollback artifacts; `rendered` is the revision whose workloads a site runs. */
  datatype World = World(
    up: Versioned,
    disks: map<string, Disk>,
    saved: map<(string, string), Disk>,
    rendered: map<string, nat>)

  /** The instance: its sites, their members in order, and the target version of each upgrade. */
  datatype Instance = Instance(sites: Sites, locals: map<string, seq<string>>, target: string -> nat)

  /** A running member with an empty directory clones the data of its cluster. */
  datatype Step =
    | Machine(e: Event)
    | BeginWork(site: string)
    | FinishWork(site: string)
    | CaptureClaim(site: string, member: string)
    | Render(site: string)
    | Clone(site: string, member: string)

  /** The members whose data the site's work rewrites. */
  function Touched(o: Owner, site: string, local: seq<string>): set<string> {
    match LocalWork(o, site, local)
    case ConvertPrimary(m) => {m}
    case ResetReplicas(ms) => Elements(ms)
    case RestoreClaims => Elements(local)
    case _ => {}
  }

  /** What the finished work leaves in a member's directory. */
  function Rewritten(x: Instance, w: World, o: Owner, site: string, m: string): Disk
    requires site in x.locals
  {
    match LocalWork(o, site, x.locals[site])
    case ConvertPrimary(_) => Holds(x.target(o.uid))
    case RestoreClaims => if (o.uid, m) in w.saved then w.saved[(o.uid, m)] else Blank
    case _ => Blank
  }

  /** The site has an accepted plan of an upgrade whose work it has not finished. */
  predicate HasWork(x: Instance, s: State, n: string) {
    && n in x.locals && n in s.sys.cache && s.sys.cache[n].tag.Some? && (n, s.sys.cache[n].tag.value) !in s.done
  }

  predicate RendersAccepted(w: World, n: string) {
    n in w.rendered && n in w.up.s.sys.cache && w.rendered[n] == w.up.s.sys.cache[n].revision
  }

  /** The member runs under the workloads of the site. */
  predicate Runs(x: Instance, w: World, n: string, m: string) {
    && n in x.locals && m in x.locals[n] && n in w.rendered && w.rendered[n] < |w.up.s.sys.issued|
    && !MemberStopped(w.up.s.sys.issued[w.rendered[n]], m)
  }

  /** The upgrade is abandoned by force when its work may have begun. */
  predicate Abandons(s: State, e: Event) {
    e.DeletionPass? && e.abandon && s.sys.hub.tag.Some? && s.sys.hub.tag.value.phase != Preflight
  }

  /**
    A site reports Ready on a plan only when it runs the workloads of it. It renders them after the
    work of the plan, and stops everything before it restores claims.
  */
  predicate StepEnabled(x: Instance, w: World, e: Step) {
    var s := w.up.s;
    match e
    case Machine(e) =>
      && Enabled(x.sites, s, e) && !e.FinishLocal? && !e.Capture? && !Abandons(s, e)
      && (e.Protocol? && e.e.Report? ==> RendersAccepted(w, e.e.site))
    case BeginWork(n) =>
      HasWork(x, s, n) && (s.sys.cache[n].tag.value.phase == Rollback ==> RendersAccepted(w, n))
    case FinishWork(n) =>
      && HasWork(x, s, n) && Enabled(x.sites, s, FinishLocal(n))
      && (s.sys.cache[n].tag.value.phase == Rollback ==>
            RendersAccepted(w, n) &&
            forall m :: m in x.locals[n] ==> (s.sys.cache[n].tag.value.uid, m) in w.saved)
    case CaptureClaim(n, m) => Enabled(x.sites, s, Capture(n, m)) && m in w.disks
    case Render(n) =>
      && n in x.locals && n in s.sys.cache
      && (s.sys.cache[n].tag.Some? && s.sys.cache[n].tag.value.phase != Rollback ==> (n, s.sys.cache[n].tag.value) in s.done)
    case Clone(n, m) =>
      Runs(x, w, n, m) && m in w.disks && w.disks[m] == Blank && |w.up.versions| == |s.sys.issued|
  }

  function DoStep(x: Instance, w: World, e: Step): World
    requires StepEnabled(x, w, e)
  {
    var s := w.up.s;
    match e
    case Machine(e) => w.(up := DoVersioned(x.sites, x.target, w.up, e))
    case BeginWork(n) =>
      var touched := Touched(s.sys.cache[n].tag.value, n, x.locals[n]);
      w.(disks := map m | m in w.disks :: if m in touched then Torn else w.disks[m])
    case FinishWork(n) =>
      var o := s.sys.cache[n].tag.value;
      var touched := Touched(o, n, x.locals[n]);
      w.(up := DoVersioned(x.sites, x.target, w.up, FinishLocal(n)),
         disks := map m | m in w.disks :: if m in touched then Rewritten(x, w, o, n, m) else w.disks[m])
    case CaptureClaim(n, m) =>
      var name := (s.sys.cache[n].tag.value.uid, m);
      w.(up := DoVersioned(x.sites, x.target, w.up, Capture(n, m)),
         saved := if name in w.saved then w.saved else w.saved[name := w.disks[m]])
    case Render(n) => w.(rendered := w.rendered[n := s.sys.cache[n].revision])
    case Clone(n, m) =>
      w.(disks := w.disks[m := Holds(Version(x.target, s.sys.issued, w.up.versions, w.rendered[n], m))])
  }

  /** A new instance: every member has data of the version in the specification. */
  predicate Start(x: Instance, w: World) {
    && w.up.s == Init() && w.up.versions == [w.up.spec]
    && w.disks == (map m | m in Members(x.sites) :: Holds(w.up.spec))
    && w.saved == map[] && w.rendered == map[]
  }

  ghost predicate DataRun(x: Instance, ws: seq<World>, es: seq<Step>) {
    && x.sites != map[] && Declares(x.sites, x.locals) && |ws| == |es| + 1 && Start(x, ws[0])
    && forall i :: 0 <= i < |es| ==> StepEnabled(x, ws[i], es[i]) && ws[i + 1] == DoStep(x, ws[i], es[i])
  }

  // ------------------------------------------------------------------------------------
  // Tags that sites can hold at the same time
  // ------------------------------------------------------------------------------------

  /** The phase rewrites the data of this member. */
  predicate Touches(o: Owner, m: string) {
    match o.phase
    case UpgradePrimary => m == o.primary
    case Replicas | RollbackStart => m != o.primary
    case Rollback => true
    case _ => false
  }

  /** A site rewrites the data of its own members only, of those that the phase is about. */
  lemma TouchedExactly(sites: Sites, locals: map<string, seq<string>>, o: Owner, n: string, m: string)
    requires Declares(sites, locals) && n in sites && m in Members(sites)
    ensures m in Touched(o, n, locals[n]) <==> m in locals[n] && Touches(o, m)
  {
    var home :| home in sites && m in sites[home].members;
    PrimaryHasOneHome(sites, locals, home, m, n);
    assert m in Elements(locals[n]) <==> m in locals[n];
  }

  /** The version of data that a member has once its site finished the work of this tag. */
  function DataVersion(target: string -> nat, spec: nat, tag: Tag, m: string): nat {
    if tag.None? then spec
    else match tag.value.phase
      case UpgradePrimary | StanzaUpgrade | StartPrimary => if m == tag.value.primary then target(tag.value.uid) else spec
      case Replicas | RestoreWrites | Finalize => target(tag.value.uid)
      case _ => spec
  }

  /** The tag may be followed by the other one: within one operation the phases are in order. */
  predicate InOrder(a: Tag, b: Tag) {
    a.Some? && b.Some? && a.value.uid == b.value.uid ==>
      SameOperation(a.value, b.value) && Reaches(a.value.phase, b.value.phase)
  }

  /** An operation is let go before its end only in Preflight. */
  predicate NoForcedRelease(recent: seq<Tag>) {
    Released(recent) ==> |recent| == 3 && recent[1].Some? && recent[1].value.phase == Preflight
  }

  /** A plan with Finalize goes with the new version in the specification. */
  predicate FinalizeIsSpec(target: string -> nat, spec: nat, recent: seq<Tag>) {
    forall i :: 0 <= i < |recent| && recent[i].Some? && recent[i].value.phase == Finalize ==> target(recent[i].value.uid) == spec
  }

  /** Of two tags at the same time, the later one rewrites only data of members that the earlier one keeps stopped. */
  lemma RewritesStoppedOnly(recent: seq<Tag>, a: Tag, b: Tag, m: string)
    requires Shape(recent) && NoForcedRelease(recent) && a in recent && b in recent && a != b && InOrder(a, b)
    requires b.Some? && b.value.phase != Rollback && Touches(b.value, m)
    ensures MemberStopped(a, m)
  {
    assert b == recent[0] || b == recent[1];
    assert a == recent[0] || a == recent[1];
  }

  /** All other members have the same version of data under both. */
  lemma OthersKeepData(target: string -> nat, spec: nat, recent: seq<Tag>, a: Tag, b: Tag, m: string)
    requires Shape(recent) && NoForcedRelease(recent) && FinalizeIsSpec(target, spec, recent)
    requires a in recent && b in recent && InOrder(a, b)
    requires b.Some? ==> b.value.phase != Rollback && !Touches(b.value, m)
    ensures DataVersion(target, spec, a, m) == DataVersion(target, spec, b, m)
  {
    assert a == recent[0] || a == recent[1] || (|recent| == 3 && a == recent[2]);
    assert b == recent[0] || b == recent[1] || (|recent| == 3 && b == recent[2]);
  }
}
