/**
  Address plans delivered over the plan-revision protocol: the hub chooses the address plan and
  issues it in one pass, and every message may be lost, repeated or late.
*/
module AddressDelivery {
  import opened Common
  import opened AddressMigration
  import D = Delivery
  import P = PlanProtocol

  /** `floor` and `previous` are history: see the window of delivered plans. */
  datatype State = State(sys: P.System<Plan>, observed: map<string, string>, floor: nat, previous: map<string, string>)

  datatype Event =
    | Protocol(e: P.Event<Plan>)
    | HubPass(next: Plan, inputs: int, bodies: map<string, int>)
    | Observe(observed: map<string, string>)

  function Content(p: Plan): map<string, string> { p.addresses }

  predicate AllApplied(s: State) { P.AllSitesApplied(s.sys.hub.sites, s.sys.hub.active) }

  ghost predicate Enabled(declared: set<string>, expected: seq<string>, s: State, e: Event) {
    match e
    case Protocol(e) => P.Enabled(declared, s.sys, e) && !e.Pass? && !e.Patch?
    case HubPass(next, _, bodies) =>
      declared <= bodies.Keys && IsNext(s.observed, expected, s.sys.hub.tag, AllApplied(s), next)
    case Observe(_) => true
  }

  function Settled(s: State): State {
    if AllApplied(s) then s.(floor := s.sys.hub.active, previous := s.sys.hub.tag.addresses) else s
  }

  function Do(declared: set<string>, s: State, e: Event): State
    requires e.Protocol? ==> P.Enabled(declared, s.sys, e.e)
    requires e.HubPass? ==> declared <= e.bodies.Keys
  {
    match e
    case Protocol(e) => s.(sys := P.Do(declared, s.sys, e))
    case HubPass(next, inputs, bodies) =>
      Settled(s).(sys := P.Do(declared, D.Patched(s.sys, next), P.Pass(inputs, bodies, false)))
    case Observe(observed) => s.(observed := observed)
  }

  /** Every site has applied a complete plan. */
  ghost predicate Start(declared: set<string>, expected: seq<string>, s: State) {
    && P.Inv(declared, s.sys) && AllApplied(s) && s.sys.issued[s.sys.hub.active] == s.sys.hub.tag
    && Complete(s.sys.hub.tag.addresses, expected)
    && s.floor == s.sys.hub.active && s.previous == s.sys.hub.tag.addresses
  }

  ghost predicate Run(declared: set<string>, expected: seq<string>, ss: seq<State>, es: seq<Event>) {
    && |ss| == |es| + 1 && Start(declared, expected, ss[0])
    && forall i :: 0 <= i < |es| ==> Enabled(declared, expected, ss[i], es[i]) && ss[i + 1] == Do(declared, ss[i], es[i])
  }

  /** A change that is not known to be everywhere is carried by a pending migration. */
  ghost predicate PlanInv(expected: seq<string>, tag: Plan, previous: map<string, string>) {
    && Complete(tag.addresses, expected)
    && (previous != tag.addresses ==> tag.migration.Some?)
    && DifferInOne(previous, tag.addresses)
  }

  ghost predicate Inv(declared: set<string>, expected: seq<string>, s: State) {
    && P.Inv(declared, s.sys)
    && s.sys.hub.active < |s.sys.issued| && s.sys.issued[s.sys.hub.active] == s.sys.hub.tag
    && D.Window(declared, s.sys, Content, s.floor, s.previous)
    && PlanInv(expected, s.sys.hub.tag, s.previous)
  }

  lemma SettledKeeps(declared: set<string>, expected: seq<string>, s: State)
    requires Inv(declared, expected, s)
    ensures Inv(declared, expected, Settled(s))
    ensures !(s.sys.hub.tag.migration.Some? && !AllApplied(s)) ==> Settled(s).previous == s.sys.hub.tag.addresses
  {
    if AllApplied(s) {
      D.AppliedSettles(declared, s.sys, Content);
      assert SameBut(s.sys.hub.tag.addresses, s.sys.hub.tag.addresses, "");
    }
  }

  /** The next plan is the same, has the same addresses, or moves one member from addresses all sites have. */
  lemma NextKeeps(expected: seq<string>, s: State, previous: map<string, string>, next: Plan)
    requires PlanInv(expected, s.sys.hub.tag, previous)
    requires IsNext(s.observed, expected, s.sys.hub.tag, AllApplied(s), next)
    requires !(s.sys.hub.tag.migration.Some? && !AllApplied(s)) ==> previous == s.sys.hub.tag.addresses
    ensures PlanInv(expected, next, previous)
    ensures next.addresses == s.sys.hub.tag.addresses || previous == s.sys.hub.tag.addresses
  {
    var tag := s.sys.hub.tag;
    if !(tag.migration.Some? && !AllApplied(s)) && next.migration.Some? {
      assert SameBut(previous, next.addresses, next.migration.value.member);
    }
  }

  lemma HubPassKeeps(declared: set<string>, expected: seq<string>, s: State, e: Event)
    requires Inv(declared, expected, s) && e.HubPass? && Enabled(declared, expected, s, e)
    ensures Inv(declared, expected, Do(declared, s, e))
  {
    var c := Settled(s);
    SettledKeeps(declared, expected, s);
    NextKeeps(expected, s, c.previous, e.next);
    var patched := D.Patched(c.sys, e.next);
    D.PatchKeepsProtocol(declared, c.sys, e.next);
    D.PatchKeepsWindow(declared, c.sys, e.next, Content, c.floor, c.previous);
    var pass := P.Pass(e.inputs, e.bodies, false);
    D.StepKeepsWindow(declared, patched, pass, Content, c.floor, c.previous);
    P.PassKeeps(declared, patched, pass);
  }

  lemma ProtocolKeeps(declared: set<string>, expected: seq<string>, s: State, e: Event)
    requires Inv(declared, expected, s) && e.Protocol? && Enabled(declared, expected, s, e)
    ensures Inv(declared, expected, Do(declared, s, e))
  {
    D.StepKeepsWindow(declared, s.sys, e.e, Content, s.floor, s.previous);
    P.StepKeeps(declared, s.sys, e.e);
    P.QuietStep(declared, s.sys, e.e);
  }

  lemma {:induction false} RunKeeps(declared: set<string>, expected: seq<string>, ss: seq<State>, es: seq<Event>, i: nat)
    requires Run(declared, expected, ss, es) && i < |ss|
    ensures Inv(declared, expected, ss[i])
  {
    if i == 0 {
      D.AppliedSettles(declared, ss[0].sys, Content);
      assert SameBut(ss[0].previous, ss[0].sys.hub.tag.addresses, "");
    } else {
      RunKeeps(declared, expected, ss, es, i - 1);
      var e := es[i - 1];
      match e
      case Protocol(_) => ProtocolKeeps(declared, expected, ss[i - 1], e);
      case HubPass(_, _, _) => HubPassKeeps(declared, expected, ss[i - 1], e);
      case Observe(_) =>
    }
  }

  /**
    In every run from a complete plan that all sites applied, with lost, repeated and late messages:
    the plans that any two sites have accepted differ in one member's address at most.
  */
  lemma AcceptedAddressesDifferInOne(declared: set<string>, expected: seq<string>, ss: seq<State>, es: seq<Event>,
                                     i: nat, a: string, b: string)
    requires Run(declared, expected, ss, es) && i < |ss| && a in ss[i].sys.cache && b in ss[i].sys.cache
    ensures DifferInOne(ss[i].sys.cache[a].tag.addresses, ss[i].sys.cache[b].tag.addresses)
  {
    var s := ss[i];
    RunKeeps(declared, expected, ss, es, i);
    D.AcceptedIsInWindow(declared, s.sys, Content, s.floor, s.previous, a);
    D.AcceptedIsInWindow(declared, s.sys, Content, s.floor, s.previous, b);
    var x :| SameBut(s.previous, s.sys.hub.tag.addresses, x);
    assert SameBut(s.sys.cache[a].tag.addresses, s.sys.cache[b].tag.addresses, x);
  }
}
