/**
  Minor upgrades delivered over the plan-revision protocol: the upgrade controller patches the
  annotations, later passes issue them, and every message may be lost, repeated or late.
*/
module ImageDelivery {
  import opened Common
  import opened Names
  import opened MinorUpgrade
  import D = Delivery
  import P = PlanProtocol

  /** The upgraded instance: its members, these with the standby picked first, and the new image. */
  datatype Upgrade = Upgrade(members: set<string>, all: set<string>, target: string)

  /** `expected` is the revision annotation; `floor` and `previous` are history. */
  datatype State = State(sys: P.System<Minor>, expected: nat, floor: nat, previous: map<string, string>)

  datatype Event =
    | Protocol(e: P.Event<Minor>)
    | UpgradePass(o: Observed, next: Minor)

  /** The image that a plan gives each member. */
  function Images(u: Upgrade): Minor -> map<string, string> {
    (m: Minor) => map k | k in u.members :: RenderedImage(m, u.target, k)
  }

  /** Every site applied the active revision, and that one was issued after the last step. */
  predicate StepApplied(s: State) {
    s.expected <= s.sys.hub.active && P.AllSitesApplied(s.sys.hub.sites, s.sys.hub.active)
  }

  ghost predicate Enabled(declared: set<string>, u: Upgrade, s: State, e: Event) {
    match e
    case Protocol(e) => P.Enabled(declared, s.sys, e) && !e.Patch?
    case UpgradePass(o, next) =>
      && Next(u.members, u.target, s.sys.hub.tag, o, next) && PicksFrom(u.all, s.sys.hub.tag, next)
      && (o.ready ==> StepApplied(s))
  }

  function Settled(u: Upgrade, s: State): State {
    if StepApplied(s) then s.(floor := s.sys.hub.active, previous := Images(u)(s.sys.hub.tag)) else s
  }

  function Do(declared: set<string>, u: Upgrade, s: State, e: Event): State
    requires e.Protocol? ==> P.Enabled(declared, s.sys, e.e)
  {
    match e
    case Protocol(e) => s.(sys := P.Do(declared, s.sys, e))
    case UpgradePass(_, next) =>
      if next == s.sys.hub.tag then s
      else Settled(u, s).(sys := D.Patched(s.sys, next), expected := s.sys.hub.active + 1)
  }

  /** No upgrade is running, and every site has applied that. */
  ghost predicate Start(declared: set<string>, u: Upgrade, s: State) {
    && u.members <= u.all && "" !in u.all
    && P.Inv(declared, s.sys) && StepApplied(s) && s.expected == s.sys.hub.active
    && s.sys.issued[s.sys.hub.active] == s.sys.hub.tag && s.sys.hub.tag.phase == Idle && !s.sys.hub.tag.switched
    && s.floor == s.sys.hub.active && s.previous == Images(u)(s.sys.hub.tag)
  }

  ghost predicate Run(declared: set<string>, u: Upgrade, ss: seq<State>, es: seq<Event>) {
    && |ss| == |es| + 1 && Start(declared, u, ss[0])
    && forall i :: 0 <= i < |es| ==> Enabled(declared, u, ss[i], es[i]) && ss[i + 1] == Do(declared, u, ss[i], es[i])
  }

  /** Idle and Switchover plans have the images that all sites have already. */
  ghost predicate TagInv(u: Upgrade, m: Minor, previous: map<string, string>) {
    && u.members <= u.all && "" !in u.all
    && MinorUpgrade.Inv(u.all, m) && (m.phase == Finalize ==> m.image == u.target)
    && (m.phase == Idle || m.phase == Switchover ==> previous == Images(u)(m))
    && DifferInOne(previous, Images(u)(m))
  }

  ghost predicate Inv(declared: set<string>, u: Upgrade, s: State) {
    && P.Inv(declared, s.sys)
    && s.expected <= |s.sys.issued| && (forall r :: s.expected <= r < |s.sys.issued| ==> s.sys.issued[r] == s.sys.hub.tag)
    && D.Window(declared, s.sys, Images(u), s.floor, s.previous)
    && TagInv(u, s.sys.hub.tag, s.previous)
  }

  lemma SettledKeeps(declared: set<string>, u: Upgrade, s: State)
    requires Inv(declared, u, s)
    ensures Inv(declared, u, Settled(u, s)) && (StepApplied(s) ==> Settled(u, s).previous == Images(u)(s.sys.hub.tag))
  {
    if StepApplied(s) {
      assert |s.sys.issued| == s.sys.hub.active + 1;
      D.AppliedSettles(declared, s.sys, Images(u));
      assert SameBut(Images(u)(s.sys.hub.tag), Images(u)(s.sys.hub.tag), "");
    }
  }

  /** A step changes the images only when all sites have the present ones, and then one of them. */
  lemma NextKeeps(u: Upgrade, m: Minor, previous: map<string, string>, o: Observed, next: Minor)
    requires TagInv(u, m, previous) && Next(u.members, u.target, m, o, next) && PicksFrom(u.all, m, next) && next != m
    requires o.ready ==> previous == Images(u)(m)
    ensures TagInv(u, next, previous) && previous == Images(u)(m)
  {
    assert previous == Images(u)(m);
    MinorUpgrade.StepKeeps(u.members, u.all, u.target, m, o, next);
    MinorUpgrade.StepChangesImages(u.members, u.all, u.target, m, o, next);
    assert SameBut(previous, Images(u)(next), if next.phase == Finalize then o.primary else next.member);
    if next.phase == Idle || next.phase == Switchover {
      assert Images(u)(next) == Images(u)(m);
    }
  }

  lemma UpgradePassKeeps(declared: set<string>, u: Upgrade, s: State, e: Event)
    requires Inv(declared, u, s) && e.UpgradePass? && Enabled(declared, u, s, e)
    ensures Inv(declared, u, Do(declared, u, s, e))
  {
    if e.next != s.sys.hub.tag {
      var c := Settled(u, s);
      SettledKeeps(declared, u, s);
      NextKeeps(u, s.sys.hub.tag, c.previous, e.o, e.next);
      D.PatchKeepsProtocol(declared, c.sys, e.next);
      D.PatchKeepsWindow(declared, c.sys, e.next, Images(u), c.floor, c.previous);
    }
  }

  lemma ProtocolKeeps(declared: set<string>, u: Upgrade, s: State, e: Event)
    requires Inv(declared, u, s) && e.Protocol? && Enabled(declared, u, s, e)
    ensures Inv(declared, u, Do(declared, u, s, e))
  {
    var t := P.Do(declared, s.sys, e.e);
    assert D.Window(declared, t, Images(u), s.floor, s.previous) by {
      D.StepKeepsWindow(declared, s.sys, e.e, Images(u), s.floor, s.previous);
    }
    assert P.Inv(declared, t) by { P.StepKeeps(declared, s.sys, e.e); }
    IssuedFromExpected(declared, s, e.e);
  }

  lemma IssuedFromExpected(declared: set<string>, s: State, e: P.Event<Minor>)
    requires P.Enabled(declared, s.sys, e) && !e.Patch?
    requires s.expected <= |s.sys.issued| && (forall r :: s.expected <= r < |s.sys.issued| ==> s.sys.issued[r] == s.sys.hub.tag)
    ensures
      var t := P.Do(declared, s.sys, e);
      && t.hub.tag == s.sys.hub.tag
      && s.expected <= |t.issued| && (forall r :: s.expected <= r < |t.issued| ==> t.issued[r] == t.hub.tag)
  {
    if !e.Pass? {
      P.QuietStep(declared, s.sys, e);
    }
  }

  lemma {:induction false} RunKeeps(declared: set<string>, u: Upgrade, ss: seq<State>, es: seq<Event>, i: nat)
    requires Run(declared, u, ss, es) && i < |ss|
    ensures Inv(declared, u, ss[i])
  {
    if i == 0 {
      D.AppliedSettles(declared, ss[0].sys, Images(u));
      assert SameBut(ss[0].previous, Images(u)(ss[0].sys.hub.tag), "");
    } else {
      RunKeeps(declared, u, ss, es, i - 1);
      if es[i - 1].Protocol? {
        ProtocolKeeps(declared, u, ss[i - 1], es[i - 1]);
      } else {
        UpgradePassKeeps(declared, u, ss[i - 1], es[i - 1]);
      }
    }
  }

  /**
    In every run of a minor upgrade, with lost, repeated and late messages: the plans that any two
    sites have accepted give different images to one member at most.
  */
  lemma AcceptedImagesDifferInOne(declared: set<string>, u: Upgrade, ss: seq<State>, es: seq<Event>, i: nat,
                                  a: string, b: string)
    requires Run(declared, u, ss, es) && i < |ss| && a in ss[i].sys.cache && b in ss[i].sys.cache
    ensures DifferInOne(Images(u)(ss[i].sys.cache[a].tag), Images(u)(ss[i].sys.cache[b].tag))
  {
    var s := ss[i];
    RunKeeps(declared, u, ss, es, i);
    D.AcceptedIsInWindow(declared, s.sys, Images(u), s.floor, s.previous, a);
    D.AcceptedIsInWindow(declared, s.sys, Images(u), s.floor, s.previous, b);
    var x :| SameBut(s.previous, Images(u)(s.sys.hub.tag), x);
    assert SameBut(Images(u)(s.sys.cache[a].tag), Images(u)(s.sys.cache[b].tag), x);
  }
}
