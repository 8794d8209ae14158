/**
  What a site does for its accepted major-upgrade plan: the local work of each phase, and the
  major version each member runs.
*/
module MajorUpgradeAgent {
  import opened Common
  import opened Names
  import opened UpgradePhases
  import opened MajorUpgrade
  import opened MajorUpgradeSafety
  import RS = RollbackStorage

  datatype Work =
    | NoWork
    | CaptureClaims
    | ConvertPrimary(member: string)
    | UpgradeStanza
    | ResetReplicas(members: seq<string>)
    | RestoreClaims

  /** The local members other than the primary, in ordinal order. */
  function LocalReplicas(local: seq<string>, primary: string): (r: seq<string>)
    ensures forall m :: m in r <==> m in local && m != primary
  {
    if local == [] then []
    else
      var n := |local| - 1;
      assert local == local[..n] + [local[n]];
      LocalReplicas(local[..n], primary) + if local[n] != primary then [local[n]] else []
  }

  method MajorReplicaResetJobs(local: seq<string>, primary: string) returns (jobs: seq<string>)
    ensures jobs == LocalReplicas(local, primary)
  {
    jobs := [];
    for ordinal := 0 to |local|
      invariant jobs == LocalReplicas(local[..ordinal], primary)
    {
      assert local[..ordinal + 1][..ordinal] == local[..ordinal];
      if local[ordinal] != primary {
        jobs := jobs + [local[ordinal]];
      }
    }
    assert local[..|local|] == local;
  }

  /** The work an agent has to finish before it renders the workloads of the phase. */
  function LocalWork(o: Owner, site: string, local: seq<string>): Work {
    match o.phase
    case Snapshot => CaptureClaims
    case UpgradePrimary => if BelongsToSite(o.primary, site) then ConvertPrimary(o.primary) else NoWork
    case StanzaUpgrade => if BelongsToSite(o.primary, site) then UpgradeStanza else NoWork
    case Replicas | RollbackStart => ResetReplicas(LocalReplicas(local, o.primary))
    case Rollback => RestoreClaims
    case _ => NoWork
  }

  /** The member is rendered with the target major version. */
  predicate RunsTarget(tag: Tag, m: string) {
    tag.Some? &&
    match tag.value.phase
    case StartPrimary => m == tag.value.primary
    case Replicas | RestoreWrites | Finalize => true
    case _ => false
  }

  lemma RecentSharesVersion(recent: seq<Tag>, x: Tag, y: Tag, m: string, k: string)
    requires Shape(recent) && x in recent && y in recent && x.Some? && y.Some? && x.value.uid == y.value.uid
    requires !MemberStopped(x, m) && !MemberStopped(y, k)
    ensures RunsTarget(x, m) <==> RunsTarget(y, k)
  {
    assert x == recent[0] || x == recent[1];
    assert y == recent[0] || y == recent[1];
  }

  /**
    In every run, also with failures, deletion and abandonment: no two members, on whichever sites,
    run different major versions at the same time under accepted plans of one operation.
  */
  lemma NoMixedVersions(sites: Sites, states: seq<State>, events: seq<Event>, i: nat, a: string, b: string,
                        m: string, k: string)
    requires Run(sites, states, events) && i < |states|
    requires a in states[i].sys.cache && b in states[i].sys.cache
    requires
      var x, y := states[i].sys.cache[a].tag, states[i].sys.cache[b].tag;
      x.Some? && y.Some? && x.value.uid == y.value.uid && !MemberStopped(x, m) && !MemberStopped(y, k)
    ensures RunsTarget(states[i].sys.cache[a].tag, m) <==> RunsTarget(states[i].sys.cache[b].tag, k)
  {
    var s := states[i];
    var x, y := s.sys.cache[a].tag, s.sys.cache[b].tag;
    assert x in s.recent && y in s.recent && Shape(s.recent) by {
      RunKeeps(sites, states, events, i);
      AcceptedIsRecent(sites, s, a);
      AcceptedIsRecent(sites, s, b);
    }
    RecentSharesVersion(s.recent, x, y, m, k);
  }

  /** Work that changes or removes data directories, still to be done by the site. */
  predicate ChangesData(s: State, n: string, local: seq<string>) {
    n in s.sys.cache && s.sys.cache[n].tag.Some? && (n, s.sys.cache[n].tag.value) !in s.done &&
    var work := LocalWork(s.sys.cache[n].tag.value, n, local);
    work.ConvertPrimary? || work.RestoreClaims? || (work.ResetReplicas? && work.members != [])
  }

  /**
    While a site has data-changing work to do, Pgpool is at zero on every site; while the primary is
    converted, every member of every site is stopped; and the work never wipes the primary.
  */
  lemma DataChangesAreDrained(sites: Sites, states: seq<State>, events: seq<Event>, i: nat, a: string, b: string,
                              local: seq<string>)
    requires Run(sites, states, events) && i < |states| && b in sites
    requires ChangesData(states[i], a, local) && !Released(states[i].recent) && !DeletedWhileDraining(states[i].recent)
    ensures b in states[i].sys.cache && WriteServiceStopped(states[i].sys.cache[b].tag)
    ensures
      var o := states[i].sys.cache[a].tag.value;
      var work := LocalWork(o, a, local);
      && (work.ConvertPrimary? ==> forall m :: MemberStopped(states[i].sys.cache[b].tag, m))
      && (work.ResetReplicas? ==> o.primary !in work.members)
  {
    DestructiveWorkIsDrained(sites, states, events, i, a, b);
  }

  /** The ready artifacts among the objects of a site. */
  function ReadyArtifacts(w: RS.World): set<(string, string)> {
    set n | n in w.artifacts && w.artifacts[n].ready
  }

  /**
    A site may finish the Snapshot phase exactly when its capture pass reports success: a pass with
    enough writes is Ready exactly when the site is captured, and a pass cut off is never Ready before.
  */
  lemma CaptureReadyExactly(sites: Sites, site: string, members: seq<string>, w: RS.World, uid: string, budget: nat)
    requires site in sites && sites[site].isData && sites[site].members == Elements(members)
    ensures RS.CapturePass(w, uid, members, budget).1.Ready? <==>
            SiteCaptured(sites, ReadyArtifacts(w), site, uid) && budget >= |members|
  {
    var k := RS.FirstUncaptured(w.artifacts, uid, members, 0);
    if k == |members| {
      forall m | m in sites[site].members ensures (uid, m) in ReadyArtifacts(w) {
        var i :| 0 <= i < |members| && members[i] == m;
      }
    } else {
      assert members[k] in sites[site].members && (uid, members[k]) !in ReadyArtifacts(w);
    }
  }
}
