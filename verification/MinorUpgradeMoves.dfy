/**
  When a minor upgrade moves, in every run: what a pass waits for in each phase, and that the
  primary role has moved to an upgraded member before any further member is touched.
*/
module MinorUpgradeMoves {
  import opened Common
  import opened Names
  import opened MinorUpgrade

  /** The declared members that are still to be upgraded, the observed primary excepted. */
  function Remaining(members: set<string>, upgraded: set<string>, o: Observed): set<string> {
    members - upgraded - {o.primary}
  }

  /** What has to be observed for the upgrade to go on from here. */
  predicate MayMove(members: set<string>, target: string, m: Minor, o: Observed) {
    match m.phase
    case Idle =>
      && m.image != target && (exists s :: s in o.standbys && s != o.primary)
      && (forall s :: s in o.standbys && s != o.primary ==> s != "")
    case Member => o.ready
    case Switchover =>
      && o.primary == m.candidate && m.from != "" && o.topologyReady
      && Remaining(members, m.upgraded, o) != {}
    case Finalize => o.ready
  }

  /** The candidate of a switchover is the one member that has been upgraded. */
  predicate CandidateInv(m: Minor) {
    m.phase == Switchover ==> m.candidate == m.member != "" && m.upgraded == {m.candidate}
  }

  lemma {:induction false} CandidateIsUpgraded(members: set<string>, all: set<string>, target: string, ms: seq<Minor>,
                                               os: seq<Observed>, i: nat)
    requires Run(members, all, target, ms, os) && i < |ms|
    ensures CandidateInv(ms[i])
  {
    if i > 0 {
      CandidateIsUpgraded(members, all, target, ms, os, i - 1);
      RunKeeps(members, all, target, ms, os, i - 1);
      assert Next(members, target, ms[i - 1], os[i - 1], ms[i - 1 + 1]);
    }
  }

  /** A pass begins an upgrade unless there is no standby, or one without a name. */
  lemma IdleChoice(members: set<string>, target: string, m: Minor, o: Observed, next: string)
    requires m.phase == Idle && Selects(members, o, {}, next)
    ensures Step(m, o, target, next) != m <==> MayMove(members, target, m, o)
  {
    var c := Candidates(members, o, {});
    assert forall s :: s in c <==> s in o.standbys && s != o.primary;
    if "" in c {
      assert !Less("", next);
      assert next == "";
    }
  }

  lemma RemainingAreCandidates(members: set<string>, upgraded: set<string>, o: Observed)
    requires upgraded != {}
    ensures Remaining(members, upgraded, o) == Candidates(members, o, upgraded)
  {
  }

  /**
    In every run a pass changes something exactly when what its phase waits for is observed: a
    synchronous standby to begin with, every site ready on the step, or the candidate as the agreed
    primary with members left to upgrade.
  */
  lemma MovesExactly(members: set<string>, all: set<string>, target: string, ms: seq<Minor>, os: seq<Observed>, i: nat)
    requires Run(members, all, target, ms, os) && i < |os|
    ensures ms[i + 1] != ms[i] <==> MayMove(members, target, ms[i], os[i])
  {
    var m, o := ms[i], os[i];
    RunKeeps(members, all, target, ms, os, i);
    CandidateIsUpgraded(members, all, target, ms, os, i);
    assert Next(members, target, m, o, ms[i + 1]);
    var next :| Selects(members, o, Upgraded(m), next) && ms[i + 1] == Step(m, o, target, next);
    match m.phase
    case Idle => IdleChoice(members, target, m, o, next);
    case Member => RemainingAreCandidates(members, Upgraded(m), o);
    case Switchover => RemainingAreCandidates(members, m.upgraded, o);
    case Finalize =>
  }

  /**
    In every run, what a step leads to: the first is the least synchronous standby; when every site
    has it, the switchover to it from the primary of that moment; then the least members left, one by
    one, and Finalize when the observed primary alone is left; the end keeps nothing but the image.
  */
  lemma StepsInOrder(members: set<string>, all: set<string>, target: string, ms: seq<Minor>, os: seq<Observed>, i: nat)
    requires Run(members, all, target, ms, os) && i < |os| && ms[i + 1] != ms[i]
    ensures
      var m, o, m' := ms[i], os[i], ms[i + 1];
      var upgraded := m.upgraded + {m.member};
      match m.phase
      case Idle =>
        && m'.phase == Member && m'.upgraded == {} && !m'.switched && m'.image == m.image
        && IsLeast(m'.member, Elements(o.standbys) - {o.primary})
      case Member =>
        if !m.switched then
          && m'.phase == Switchover && m'.upgraded == upgraded && m'.image == m.image
          && m'.candidate == m.member && m'.from == o.primary
        else if members <= upgraded + {o.primary} then m'.phase == Finalize && m'.image == target
        else
          && m'.phase == Member && m'.upgraded == upgraded && m'.switched && m'.image == m.image
          && IsLeast(m'.member, Remaining(members, upgraded, o))
      case Switchover =>
        && m'.phase == Member && m'.upgraded == m.upgraded && m'.switched && m'.image == m.image
        && IsLeast(m'.member, Remaining(members, m.upgraded, o))
      case Finalize => m' == Minor(Idle, "", {}, "", "", false, target)
  {
    var m, o := ms[i], os[i];
    RunKeeps(members, all, target, ms, os, i);
    FinalImage(members, all, target, ms, os, i);
    assert Next(members, target, m, o, ms[i + 1]);
    var next :| Selects(members, o, Upgraded(m), next) && ms[i + 1] == Step(m, o, target, next);
    if m.phase == Member || m.phase == Switchover {
      RemainingAreCandidates(members, Upgraded(m), o);
      LeastIsNamed(members, all, Upgraded(m), o, next);
    }
  }

  lemma LeastIsNamed(members: set<string>, all: set<string>, upgraded: set<string>, o: Observed, next: string)
    requires Selects(members, o, upgraded, next) && upgraded != {} && members <= all && "" !in all
    ensures next == "" <==> Remaining(members, upgraded, o) == {}
    ensures next == "" <==> members <= upgraded + {o.primary}
  {
    assert Remaining(members, upgraded, o) == {} <==> members <= upgraded + {o.primary} by {
      if Remaining(members, upgraded, o) == {} {
        forall x | x in members ensures x in upgraded + {o.primary} {
          assert x !in Remaining(members, upgraded, o);
        }
      }
    }
  }

  /** At this pass, the agreed primary is the upgraded candidate of the switchover. */
  predicate RoleMoved(ms: seq<Minor>, os: seq<Observed>, j: nat) {
    && j < |os| < |ms| && ms[j].phase == Switchover && os[j].topologyReady
    && os[j].primary == ms[j].candidate && os[j].primary in ms[j].upgraded
  }

  /**
    In every run, no second member is upgraded before the primary role was seen to have moved, under
    an agreed topology, to the member that was upgraded first.
  */
  lemma {:induction false} RoleMovesBeforeSecond(members: set<string>, all: set<string>, target: string, ms: seq<Minor>,
                                                 os: seq<Observed>, i: nat)
    requires Run(members, all, target, ms, os) && i < |ms| && ms[i].switched
    ensures exists j :: 0 <= j < i && RoleMoved(ms, os, j)
  {
    if ms[i - 1].switched {
      RoleMovesBeforeSecond(members, all, target, ms, os, i - 1);
      var j :| 0 <= j < i - 1 && RoleMoved(ms, os, j);
    } else {
      CandidateIsUpgraded(members, all, target, ms, os, i - 1);
      assert Next(members, target, ms[i - 1], os[i - 1], ms[i - 1 + 1]);
      assert RoleMoved(ms, os, i - 1);
    }
  }
}
