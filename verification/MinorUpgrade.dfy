/**
  Minor rolling upgrades: one member at a time, a switchover after the first one, and the new
  image as the stable one at the end.
*/
module MinorUpgrade {
  import opened Common
  import opened Names

  datatype Phase = Idle | Member | Switchover | Finalize

  /** The upgrade annotations of the instance, and the image in its specification. */
  datatype Minor = Minor(
    phase: Phase,
    member: string,
    upgraded: set<string>,
    from: string,
    candidate: string,
    switched: bool,
    image: string)

  /** What a pass observes. `ready` says that every site applied the revision of the last step. */
  datatype Observed = Observed(primary: string, standbys: seq<string>, ready: bool, topologyReady: bool)

  /** The first member is a synchronous standby; later ones are any declared members still missing. */
  function Candidates(members: set<string>, o: Observed, upgraded: set<string>): set<string> {
    (if upgraded == {} then Elements(o.standbys) else members - upgraded) - {o.primary}
  }

  /** The least candidate; the empty string when there is none. */
  predicate Selects(members: set<string>, o: Observed, upgraded: set<string>, next: string) {
    var c := Candidates(members, o, upgraded);
    if c == {} then next == "" else IsLeast(next, c)
  }

  /** One pass of the minor-upgrade reconciler, given the candidate it selects. */
  function Step(m: Minor, o: Observed, target: string, next: string): Minor {
    match m.phase
    case Idle =>
      if m.image == target || next == "" then m
      else m.(phase := Member, member := next, upgraded := {})
    case Member =>
      if m.member == "" || !o.ready then m
      else if !m.switched then
        m.(phase := Switchover, upgraded := m.upgraded + {m.member}, from := o.primary, candidate := m.member)
      else if next == "" then m.(phase := Finalize, image := target)
      else m.(member := next, upgraded := m.upgraded + {m.member})
    case Switchover =>
      if m.candidate == "" || m.from == "" || o.primary != m.candidate || !o.topologyReady || next == "" then m
      else m.(phase := Member, member := next, switched := true)
    case Finalize => if o.ready then Cleared(m) else m
  }

  function Cleared(m: Minor): Minor { Minor(Idle, "", {}, "", "", false, m.image) }

  /** The members the selection leaves out in this pass. */
  function Upgraded(m: Minor): set<string> {
    if m.phase == Idle then {} else if m.phase == Member then m.upgraded + {m.member} else m.upgraded
  }

  ghost predicate Next(members: set<string>, target: string, m: Minor, o: Observed, m': Minor) {
    exists next :: Selects(members, o, Upgraded(m), next) && m' == Step(m, o, target, next)
  }

  /** The image a site renders for a member. */
  function RenderedImage(m: Minor, target: string, member: string): string {
    if m.phase == Idle then m.image
    else if member == m.member || member in m.upgraded then target
    else m.image
  }

  // ------------------------------------------------------------------------------------
  // The handler
  // ------------------------------------------------------------------------------------

  method SelectUpgradeCandidate(members: seq<string>, o: Observed, upgraded: set<string>) returns (next: string)
    ensures Selects(Elements(members), o, upgraded, next)
  {
    var pool := if upgraded == {} then o.standbys else members;
    var candidates := [];
    for k := 0 to |pool|
      invariant forall x :: x in candidates <==> x in pool[..k] && x != o.primary && (upgraded == {} || x !in upgraded)
    {
      assert pool[..k + 1] == pool[..k] + [pool[k]];
      if pool[k] != o.primary && (upgraded == {} || pool[k] !in upgraded) {
        candidates := candidates + [pool[k]];
      }
    }
    assert pool[..|pool|] == pool;
    assert Elements(candidates) == Candidates(Elements(members), o, upgraded);
    var sorted := Sort(candidates);
    if |candidates| == 0 {
      return "";
    }
    SortedHeadIsLeastOf(candidates, sorted);
    return sorted[0];
  }

  class MinorUpgradeController {
    const members: seq<string>
    const target: string
    var state: Minor

    constructor (members: seq<string>, target: string, image: string)
      ensures this.members == members && this.target == target
      ensures state == Minor(Idle, "", {}, "", "", false, image)
    {
      this.members, this.target := members, target;
      state := Minor(Idle, "", {}, "", "", false, image);
    }

    method Reconcile(o: Observed)
      modifies this`state
      ensures Next(Elements(members), target, old(state), o, state)
    {
      var next := SelectUpgradeCandidate(members, o, Upgraded(state));
      match state.phase {
        case Idle =>
          if state.image != target && next != "" {
            state := state.(phase := Member, member := next, upgraded := {});
          }
        case Member =>
          if state.member == "" || !o.ready {
            return;
          }
          var upgraded := state.upgraded + {state.member};
          if !state.switched {
            state := state.(phase := Switchover, upgraded := upgraded, from := o.primary, candidate := state.member);
          } else if next == "" {
            state := state.(phase := Finalize, image := target);
          } else {
            state := state.(member := next, upgraded := upgraded);
          }
        case Switchover =>
          if state.candidate != "" && state.from != "" && o.primary == state.candidate && o.topologyReady && next != "" {
            state := state.(phase := Member, member := next, switched := true);
          }
        case Finalize =>
          if o.ready {
            state := Cleared(state);
          }
      }
    }
  }

  // ------------------------------------------------------------------------------------
  // Whole upgrades
  // ------------------------------------------------------------------------------------

  /** `all` holds the declared members and the standby picked first, which need not be declared. */
  predicate Inv(all: set<string>, m: Minor) {
    match m.phase
    case Idle => !m.switched
    case Member =>
      && m.member in all && m.member !in m.upgraded && m.upgraded <= all
      && (m.switched <==> m.upgraded != {})
    case Switchover => m.upgraded == {m.member} <= all && !m.switched
    case Finalize => true
  }

  /** The first step picks a standby of `all`. */
  predicate PicksFrom(all: set<string>, m: Minor, m': Minor) {
    m.phase == Idle && m'.phase != Idle ==> m'.member in all
  }

  ghost predicate Run(members: set<string>, all: set<string>, target: string, ms: seq<Minor>, os: seq<Observed>) {
    && |ms| == |os| + 1 && members <= all && "" !in all
    && ms[0].phase == Idle && !ms[0].switched
    && forall i :: 0 <= i < |os| ==>
         Next(members, target, ms[i], os[i], ms[i + 1]) && PicksFrom(all, ms[i], ms[i + 1])
  }

  lemma StepKeeps(members: set<string>, all: set<string>, target: string, m: Minor, o: Observed, m': Minor)
    requires Inv(all, m) && members <= all && "" !in all && PicksFrom(all, m, m')
    requires Next(members, target, m, o, m')
    ensures Inv(all, m')
  {
    var next :| Selects(members, o, Upgraded(m), next) && m' == Step(m, o, target, next);
    assert next != "" ==> next in Candidates(members, o, Upgraded(m));
  }

  lemma {:induction false} RunKeeps(members: set<string>, all: set<string>, target: string, ms: seq<Minor>,
                                    os: seq<Observed>, i: nat)
    requires Run(members, all, target, ms, os) && i < |ms|
    ensures Inv(all, ms[i])
  {
    if i > 0 {
      RunKeeps(members, all, target, ms, os, i - 1);
      StepKeeps(members, all, target, ms[i - 1], os[i - 1], ms[i]);
    }
  }

  /** One step: the newly chosen member changes, or the observed primary at the end, or nobody. */
  lemma StepChangesImages(members: set<string>, all: set<string>, target: string, m: Minor, o: Observed, m': Minor)
    requires Inv(all, m) && members <= all && "" !in all && PicksFrom(all, m, m')
    requires Next(members, target, m, o, m') && (m.phase == Finalize ==> m.image == target)
    ensures m'.phase != Finalize ==>
              forall k :: k in members && RenderedImage(m, target, k) != RenderedImage(m', target, k) ==>
                k == m'.member && k != o.primary
    ensures m'.phase == Finalize && m.phase != Finalize ==>
              forall k :: k in members && k != o.primary ==> RenderedImage(m, target, k) == target
    ensures m'.phase == Finalize ==> forall k :: k in members ==> RenderedImage(m', target, k) == target
  {
    var next :| Selects(members, o, Upgraded(m), next) && m' == Step(m, o, target, next);
    assert next != "" ==> next in Candidates(members, o, Upgraded(m));
    if m.phase == Member && m'.phase == Finalize {
      forall k | k in members && k != o.primary ensures k in Upgraded(m) {
        assert k in Candidates(members, o, Upgraded(m)) || k in Upgraded(m);
      }
    }
  }

  /**
    In every step of every run at most one member's rendered image changes. Before Finalize it is
    the newly chosen member and never the primary observed at the decision. At Finalize everyone
    but that primary already has the new image.
  */
  lemma OneImageAtATime(members: set<string>, all: set<string>, target: string, ms: seq<Minor>, os: seq<Observed>,
                        i: nat)
    requires Run(members, all, target, ms, os) && i < |os|
    ensures ms[i + 1].phase != Finalize ==>
              forall m :: m in members && RenderedImage(ms[i], target, m) != RenderedImage(ms[i + 1], target, m) ==>
                m == ms[i + 1].member && m != os[i].primary
    ensures ms[i + 1].phase == Finalize && ms[i].phase != Finalize ==>
              forall m :: m in members && m != os[i].primary ==> RenderedImage(ms[i], target, m) == target
    ensures ms[i + 1].phase == Finalize ==> forall m :: m in members ==> RenderedImage(ms[i + 1], target, m) == target
  {
    RunKeeps(members, all, target, ms, os, i);
    FinalImage(members, all, target, ms, os, i);
    StepChangesImages(members, all, target, ms[i], os[i], ms[i + 1]);
  }

  /** Once in Finalize, the specification carries the new image. */
  lemma {:induction false} FinalImage(members: set<string>, all: set<string>, target: string, ms: seq<Minor>,
                                      os: seq<Observed>, i: nat)
    requires Run(members, all, target, ms, os) && i < |ms|
    ensures ms[i].phase == Finalize ==> ms[i].image == target
  {
    if i > 0 {
      FinalImage(members, all, target, ms, os, i - 1);
    }
  }

  /** How many more steps an upgrade can issue. */
  function StepsLeft(all: set<string>, m: Minor, target: string): int {
    match m.phase
    case Idle => if m.image == target then 0 else |all| + 2
    case Member => if m.switched then |all| - |m.upgraded| else |all| + 1
    case Switchover => |all|
    case Finalize => 0
  }

  /** Issued steps: everything but the final clearing of the annotations. */
  function StepsIssued(ms: seq<Minor>): nat {
    if |ms| <= 1 then 0
    else StepsIssued(ms[..|ms| - 1]) +
         (if ms[|ms| - 2] != ms[|ms| - 1] && ms[|ms| - 1].phase != Idle then 1 else 0)
  }

  lemma StepCounts(members: set<string>, all: set<string>, target: string, m: Minor, o: Observed, m': Minor)
    requires Inv(all, m) && members <= all && "" !in all && PicksFrom(all, m, m')
    requires Next(members, target, m, o, m') && (m.phase == Finalize ==> m.image == target)
    ensures StepsLeft(all, m', target) <=
            StepsLeft(all, m, target) - (if m != m' && m'.phase != Idle then 1 else 0)
    ensures StepsLeft(all, m', target) >= 0
  {
    StepKeeps(members, all, target, m, o, m');
    var next :| Selects(members, o, Upgraded(m), next) && m' == Step(m, o, target, next);
    if m.phase == Member {
      SubsetSize(m.upgraded + {m.member}, all);
    }
  }

  /** An upgrade issues at most n + 2 steps, n counting the members and the standby picked first. */
  lemma {:induction false} StepsAreBounded(members: set<string>, all: set<string>, target: string, ms: seq<Minor>,
                                           os: seq<Observed>)
    requires Run(members, all, target, ms, os)
    ensures StepsIssued(ms) + StepsLeft(all, ms[|ms| - 1], target) <= |all| + 2
    ensures StepsIssued(ms) <= |all| + 2
    decreases |ms|
  {
    var n := |os|;
    if n > 0 {
      StepsAreBounded(members, all, target, ms[..n], os[..n - 1]);
      RunKeeps(members, all, target, ms, os, n - 1);
      FinalImage(members, all, target, ms, os, n - 1);
      StepCounts(members, all, target, ms[n - 1], os[n - 1], ms[n]);
    }
  }

  // ------------------------------------------------------------------------------------
  // An undeclared standby
  // ------------------------------------------------------------------------------------

  /** A run that picks `first` first, issues n steps and ends in m. */
  ghost predicate Reached(members: set<string>, first: string, target: string, m: Minor, n: nat) {
    exists ms, os :: Run(members, members + {first}, target, ms, os) && ms[|os|] == m && StepsIssued(ms) == n
  }

  lemma ReachNext(members: set<string>, first: string, target: string, m: Minor, n: nat, o: Observed, next: string)
    returns (m': Minor)
    requires Reached(members, first, target, m, n) && Selects(members, o, Upgraded(m), next)
    requires
      var t := Step(m, o, target, next);
      t != m && t.phase != Idle && PicksFrom(members + {first}, m, t)
    ensures m' == Step(m, o, target, next) && Reached(members, first, target, m', n + 1)
  {
    m' := Step(m, o, target, next);
    var ms, os :| Run(members, members + {first}, target, ms, os) && ms[|os|] == m && StepsIssued(ms) == n;
    var longer, more := ms + [m'], os + [o];
    assert longer[..|longer| - 1] == ms;
    assert Next(members, target, m, o, m');
    forall i | 0 <= i < |more|
      ensures Next(members, target, longer[i], more[i], longer[i + 1]) && PicksFrom(members + {first}, longer[i], longer[i + 1])
    {
      if i < |os| {
        assert Next(members, target, ms[i], os[i], ms[i + 1]);
      }
    }
    assert Run(members, members + {first}, target, longer, more) && longer[|more|] == m';
  }

  lemma {:induction false} LeastExists(s: set<string>) returns (x: string)
    requires s != {}
    ensures IsLeast(x, s)
    decreases |s|
  {
    x :| x in s;
    var rest := s - {x};
    if rest != {} {
      var y := LeastExists(rest);
      LessTotal(x, y);
      if Less(y, x) {
        assert forall z :: z in s && Less(z, y) ==> z == x;
        if Less(x, y) { LessAsymmetric(x, y); }
        x := y;
      } else {
        forall z | z in s ensures !Less(z, x) {
          if z == x {
            if Less(x, x) { LessAsymmetric(x, x); }
          } else if Less(z, x) && x != y {
            LessTransitive(z, x, y);
          }
        }
      }
    } else {
      assert s == {x};
      if Less(x, x) { LessAsymmetric(x, x); }
    }
  }

  /** Every observation with this primary lets the next step happen. */
  function Settled(primary: string, standbys: seq<string>): Observed { Observed(primary, standbys, true, true) }

  /** With the first standby as primary, the declared members follow one by one, and then Finalize. */
  lemma {:induction false} RollOn(members: set<string>, first: string, target: string, m: Minor, n: nat)
    returns (t: Minor)
    requires Reached(members, first, target, m, n) && "" !in members && first !in members
    requires m.phase == Member && m.switched && m.member in members && first in m.upgraded
    ensures Reached(members, first, target, t, n + |members - m.upgraded - {m.member}| + 1)
    decreases |members - m.upgraded - {m.member}|
  {
    var o := Settled(first, []);
    var rest := Candidates(members, o, Upgraded(m));
    assert rest == members - m.upgraded - {m.member};
    if rest == {} {
      t := ReachNext(members, first, target, m, n, o, "");
      assert |members - m.upgraded - {m.member}| == 0;
    } else {
      var next := LeastExists(rest);
      var m' := ReachNext(members, first, target, m, n, o, next);
      assert members - m'.upgraded - {m'.member} == rest - {next};
      t := RollOn(members, first, target, m', n + 1);
    }
  }

  /** The undeclared standby is upgraded and becomes the primary. */
  lemma SwitchToUndeclared(members: set<string>, first: string, target: string, image: string) returns (m: Minor)
    requires "" !in members && first !in members && first != "" && image != target
    ensures Reached(members, first, target, m, 2)
    ensures m.phase == Switchover && m.upgraded == {first} && m.candidate == first && m.from != "" && !m.switched
  {
    var m0 := Minor(Idle, "", {}, "", "", false, image);
    var none: seq<Observed> := [];
    assert Run(members, members + {first}, target, [m0], none) && [m0][|none|] == m0;
    var former := first + "-";
    assert former != first by { assert |former| != |first|; }
    var pick := Settled(former, [first]);
    assert Candidates(members, pick, {}) == {first};
    if Less(first, first) { LessAsymmetric(first, first); }
    var m1 := ReachNext(members, first, target, m0, 0, pick, first);
    var o := Settled(former, []);
    var any := AnySelection(members, o, Upgraded(m1));
    m := ReachNext(members, first, target, m1, 1, o, any);
  }

  /** An undeclared standby that is picked first costs a step: n members then take n + 3 steps. */
  lemma UndeclaredStandbyCostsAStep(members: set<string>, first: string, target: string, image: string)
    returns (t: Minor)
    requires members != {} && "" !in members && first !in members && first != "" && image != target
    ensures Reached(members, first, target, t, |members| + 3)
  {
    var m := SwitchToUndeclared(members, first, target, image);
    var o := Settled(first, []);
    assert Candidates(members, o, Upgraded(m)) == members;
    var next := LeastExists(members);
    var m' := ReachNext(members, first, target, m, 2, o, next);
    t := RollOn(members, first, target, m', 3);
    assert members - m'.upgraded - {m'.member} == members - {next};
  }

  lemma AnySelection(members: set<string>, o: Observed, upgraded: set<string>) returns (next: string)
    ensures Selects(members, o, upgraded, next)
  {
    next := "";
    if Candidates(members, o, upgraded) != {} {
      next := LeastExists(Candidates(members, o, upgraded));
    }
  }

  /** Every upgrade of n members that picks this standby first takes n + 2 steps at most, exactly when it is declared. */
  lemma BoundHoldsExactly(members: set<string>, first: string, target: string)
    requires members != {} && "" !in members && first != ""
    ensures (forall m, n: nat :: Reached(members, first, target, m, n) ==> n <= |members| + 2) <==> first in members
  {
    if first in members {
      assert members + {first} == members;
      forall m, n: nat | Reached(members, first, target, m, n) ensures n <= |members| + 2 {
        var ms, os :| Run(members, members + {first}, target, ms, os) && ms[|os|] == m && StepsIssued(ms) == n;
        StepsAreBounded(members, members + {first}, target, ms, os);
      }
    } else {
      assert target + "-old" != target by { assert |target + "-old"| != |target|; }
      var t := UndeclaredStandbyCostsAStep(members, first, target, target + "-old");
    }
  }
}
