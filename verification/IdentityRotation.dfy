/**
  Rotation of a site agent's identity between two Secret slots.

  The rotator works through single API writes and may be cut off after any of them; `budget`
  is the number of writes that get through. After a restart, or after another replica has
  been elected, the rotator's mounted identity is any one the Deployment has named so far.
*/
module IdentityRotation {
  import opened Common

  /** A certificate, with the private key it was issued for. */
  datatype Certificate = Certificate(serial: int, keyId: int)

  datatype Identity = Identity(certificate: Certificate, key: int, ca: int, planKey: int)

  datatype Secret = Secret(identity: Identity, managed: bool)

  datatype Response = Response(id: int, certificate: Certificate, ca: int, valid: bool)

  const SLOTS := ["mspsql-agent-identity-a", "mspsql-agent-identity-b"]

  /** The namespace's Secrets and the identity volume of the Deployment. `deployed` is history. */
  datatype World = World(secrets: map<string, Secret>, deployment: string, deployed: set<Identity>)

  predicate Matching(i: Identity) { i.certificate.keyId == i.key }

  function OtherSlot(current: string): (name: string)
    ensures name in SLOTS && name != current
  {
    if current == SLOTS[0] then SLOTS[1] else SLOTS[0]
  }

  // ------------------------------------------------------------------------------------
  // Install and cleanup, cut off after any write
  // ------------------------------------------------------------------------------------

  /** The Secret that the deletion leaves in the slot: none, unless something still holds on to it. */
  function AfterDelete(w: World, name: string, lingers: bool): map<string, Secret> {
    if lingers then w.secrets else w.secrets - {name}
  }

  /** The slot still holds another certificate when the new one is to be created. */
  predicate Conflict(w: World, certificate: Certificate, lingers: bool) {
    var name := OtherSlot(w.deployment);
    lingers && name in w.secrets && w.secrets[name].identity.certificate != certificate
  }

  /**
    Delete the free slot, create the new identity there, then point the Deployment at it. A Secret
    that lingers in the slot is used if it holds the new certificate already.
  */
  function InstallInto(w: World, identity: Identity, lingers: bool, budget: nat): World {
    var name := OtherSlot(w.deployment);
    var removed := AfterDelete(w, name, lingers);
    var created := if name in removed then removed else removed[name := Secret(identity, true)];
    if budget == 0 then w
    else if budget == 1 || Conflict(w, identity.certificate, lingers) then w.(secrets := removed)
    else if budget == 2 then w.(secrets := created)
    else World(created, name, w.deployed + {created[name].identity})
  }

  predicate Stale(w: World, name: string, current: Certificate) {
    && name != w.deployment && name in w.secrets
    && w.secrets[name].managed && w.secrets[name].identity.certificate != current
  }

  function CleanSlot(w: World, name: string, current: Certificate, budget: nat): (World, nat) {
    if Stale(w, name, current) && budget > 0 then (w.(secrets := w.secrets - {name}), budget - 1) else (w, budget)
  }

  function CleanSlots(w: World, names: seq<string>, current: Certificate, budget: nat): World
    decreases |names|
  {
    if names == [] || (Stale(w, names[0], current) && budget == 0) then w
    else
      var (v, left) := CleanSlot(w, names[0], current, budget);
      CleanSlots(v, names[1..], current, left)
  }

  class Rotator {
    var world: World
    var mount: Identity
    var pending: Option<(int, int)>

    constructor (world: World, mount: Identity)
      ensures this.world == world && this.mount == mount && pending == None
    {
      this.world, this.mount, pending := world, mount, None;
    }

    function View(): State
      reads this
    {
      State(world, mount, pending)
    }

    /** Returns whether the new identity is in use. */
    method Install(response: Response, lingers: bool, budget: nat) returns (done: bool)
      modifies this`world, this`pending
      ensures View() == Do(old(View()), Event.Install(response, lingers, budget))
      ensures done <==> old(pending).Some? && pending.None?
    {
      if pending.None? || response.id != pending.value.0 {
        return false;
      }
      if !response.valid || response.certificate.keyId != pending.value.1 {
        return false;
      }
      var identity := mount.(certificate := response.certificate, key := pending.value.1, ca := response.ca);
      var name := OtherSlot(world.deployment);
      if budget == 0 {
        return false;
      }
      if !lingers {
        world := world.(secrets := world.secrets - {name});
      }
      if budget == 1 {
        return false;
      }
      if name !in world.secrets {
        world := world.(secrets := world.secrets[name := Secret(identity, true)]);
      } else if world.secrets[name].identity.certificate != response.certificate {
        return false;
      }
      if budget == 2 {
        return false;
      }
      world := world.(deployment := name, deployed := world.deployed + {world.secrets[name].identity});
      pending := None;
      return true;
    }

    method Cleanup(current: Certificate, rolledOut: bool, budget: nat)
      modifies this`world
      ensures world == if rolledOut then CleanSlots(old(world), SLOTS, current, budget) else old(world)
    {
      if !rolledOut {
        return;
      }
      var left := budget;
      for k := 0 to |SLOTS|
        invariant CleanSlots(old(world), SLOTS, current, budget) == CleanSlots(world, SLOTS[k..], current, left)
      {
        var name := SLOTS[k];
        assert SLOTS[k..][1..] == SLOTS[k + 1..];
        if name != world.deployment && name in world.secrets && world.secrets[name].managed &&
           world.secrets[name].identity.certificate != current {
          if left == 0 {
            return;
          }
          world := world.(secrets := world.secrets - {name});
          left := left - 1;
        }
      }
    }

    /** Cleans up and prepares a renewal, unless the Deployment already names another identity. */
    method Request(rolledOut: bool, expiring: bool, id: int, key: int, budget: nat) returns (requested: bool)
      modifies this`world, this`pending
      ensures View() == Do(old(View()), Event.Request(rolledOut, expiring, id, key, budget))
      ensures requested ==> pending == Some((id, key))
      ensures !requested ==> pending == old(pending)
    {
      if world.deployment !in world.secrets ||
         world.secrets[world.deployment].identity.certificate != mount.certificate {
        return false;
      }
      Cleanup(mount.certificate, rolledOut, budget);
      if !expiring {
        return false;
      }
      pending := Some((id, key));
      return true;
    }
  }

  // ------------------------------------------------------------------------------------
  // Whole runs
  // ------------------------------------------------------------------------------------

  datatype State = State(world: World, mount: Identity, pending: Option<(int, int)>)

  datatype Event =
    | Install(response: Response, lingers: bool, budget: nat)
    | Request(rolledOut: bool, expiring: bool, id: int, key: int, budget: nat)
    | Elect(mount: Identity)

  predicate Enabled(s: State, e: Event) { e.Elect? ==> e.mount in s.world.deployed }

  function Do(s: State, e: Event): State {
    match e
    case Install(response, lingers, budget) =>
      if && s.pending.Some? && response.id == s.pending.value.0 && response.valid
         && response.certificate.keyId == s.pending.value.1
      then
        s.(world := InstallInto(s.world, Identity(response.certificate, s.pending.value.1, response.ca, s.mount.planKey),
                                lingers, budget),
           pending := if budget >= 3 && !Conflict(s.world, response.certificate, lingers) then None else s.pending)
      else s
    case Request(rolledOut, expiring, id, key, budget) =>
      if s.world.deployment in s.world.secrets &&
         s.world.secrets[s.world.deployment].identity.certificate == s.mount.certificate
      then
        s.(world := if rolledOut then CleanSlots(s.world, SLOTS, s.mount.certificate, budget) else s.world,
           pending := if expiring then Some((id, key)) else s.pending)
      else s
    case Elect(mount) => State(s.world, mount, None)
  }

  ghost predicate Run(ss: seq<State>, es: seq<Event>) {
    && |ss| == |es| + 1
    && forall i :: 0 <= i < |es| ==> Enabled(ss[i], es[i]) && ss[i + 1] == Do(ss[i], es[i])
  }

  /** The identity in use exists, and it, like all that was put into the slots, is whole and carries the plan key. */
  predicate InUse(w: World, planKey: int) {
    && w.deployment in w.secrets
    && w.secrets[w.deployment].identity in w.deployed
    && (forall i :: i in w.deployed ==> Matching(i) && i.planKey == planKey)
    && (forall n :: n in SLOTS && n in w.secrets ==>
          Matching(w.secrets[n].identity) && w.secrets[n].identity.planKey == planKey)
  }

  predicate Inv(s: State, planKey: int) { InUse(s.world, planKey) && s.mount in s.world.deployed }

  /** Cleanup never touches the identity in use, whatever is passed as the current certificate. */
  lemma {:induction false} CleanupSparesInUse(w: World, names: seq<string>, current: Certificate, budget: nat)
    ensures
      var v := CleanSlots(w, names, current, budget);
      && v.deployment == w.deployment && v.deployed == w.deployed
      && (w.deployment in w.secrets ==> w.deployment in v.secrets && v.secrets[w.deployment] == w.secrets[w.deployment])
      && (forall n :: n in v.secrets ==> n in w.secrets && v.secrets[n] == w.secrets[n])
      && (forall n :: n in w.secrets && n !in v.secrets ==>
            n in names && w.secrets[n].managed && w.secrets[n].identity.certificate != current)
    decreases |names|
  {
    if names != [] && !(Stale(w, names[0], current) && budget == 0) {
      var (v, left) := CleanSlot(w, names[0], current, budget);
      CleanupSparesInUse(v, names[1..], current, left);
    }
  }

  /** Cut off anywhere, an installation leaves the old identity in use or has one with the new certificate in place. */
  lemma InstallSwitchesWhole(w: World, identity: Identity, lingers: bool, budget: nat)
    requires w.deployment in w.secrets
    ensures
      var v := InstallInto(w, identity, lingers, budget);
      && w.deployment in v.secrets && v.secrets[w.deployment] == w.secrets[w.deployment]
      && v.deployment in v.secrets
      && (if budget >= 3 && !Conflict(w, identity.certificate, lingers)
          then v.deployment != w.deployment && v.secrets[v.deployment].identity.certificate == identity.certificate
          else v.deployment == w.deployment)
      && (forall n :: n in v.secrets ==> v.secrets[n].identity == identity || (n in w.secrets && v.secrets[n] == w.secrets[n]))
  {
  }

  /** An installation gets through exactly when it is not cut off and its slot is free or holds the new certificate. */
  lemma InstallsExactly(w: World, identity: Identity, lingers: bool, budget: nat)
    ensures
      var v, slot := InstallInto(w, identity, lingers, budget), OtherSlot(w.deployment);
      v.deployment == slot <==>
      budget >= 3 && (lingers && slot in w.secrets ==> w.secrets[slot].identity.certificate == identity.certificate)
  {
  }

  lemma StepKeeps(s: State, e: Event, planKey: int)
    requires Inv(s, planKey) && Enabled(s, e)
    ensures Inv(Do(s, e), planKey)
  {
    match e
    case Install(response, lingers, budget) =>
      if s.pending.Some? {
        InstallSwitchesWhole(s.world, Identity(response.certificate, s.pending.value.1, response.ca, s.mount.planKey),
                             lingers, budget);
      }
    case Request(_, _, _, _, budget) => CleanupSparesInUse(s.world, SLOTS, s.mount.certificate, budget);
    case Elect(_) =>
  }

  /** The j-th event asked for a renewal with this key, while the mounted identity was the one in use. */
  predicate AskedAt(ss: seq<State>, es: seq<Event>, j: nat, id: int, key: int) {
    && j < |es| <= |ss| && es[j].Request? && es[j].expiring && es[j].id == id && es[j].key == key
    && var w := ss[j].world;
       w.deployment in w.secrets && w.secrets[w.deployment].identity.certificate == ss[j].mount.certificate
  }

  lemma {:induction false} PendingWasAsked(ss: seq<State>, es: seq<Event>, i: nat)
    requires Run(ss, es) && ss[0].pending.None? && i < |ss| && ss[i].pending.Some?
    ensures exists j :: 0 <= j < i && AskedAt(ss, es, j, ss[i].pending.value.0, ss[i].pending.value.1)
  {
    var p := ss[i].pending.value;
    if ss[i - 1].pending == ss[i].pending {
      PendingWasAsked(ss, es, i - 1);
      var j :| 0 <= j < i - 1 && AskedAt(ss, es, j, p.0, p.1);
    } else {
      assert AskedAt(ss, es, i - 1, p.0, p.1);
    }
  }

  /**
    In every run, the Deployment is pointed elsewhere only by a valid answer to a renewal that was asked
    for while the mounted identity was in use: with the id of that request, and a certificate for
    its key. A freed slot then holds that certificate and key, the answer's CA and the old plan key.
  */
  lemma SwitchAnswersRequest(ss: seq<State>, es: seq<Event>, i: nat)
    requires Run(ss, es) && ss[0].pending.None? && i < |es| && ss[i + 1].world.deployment != ss[i].world.deployment
    ensures es[i].Install? && es[i].response.valid
    ensures exists j :: 0 <= j < i && AskedAt(ss, es, j, es[i].response.id, es[i].response.certificate.keyId)
    ensures ss[i + 1].world.deployment == OtherSlot(ss[i].world.deployment) && ss[i + 1].pending.None?
    ensures
      var w, r := ss[i + 1].world, es[i].response;
      && w.deployment in w.secrets && w.secrets[w.deployment].identity.certificate == r.certificate
      && (!es[i].lingers ==> w.secrets[w.deployment].managed && w.secrets[w.deployment].identity ==
                             Identity(r.certificate, r.certificate.keyId, r.ca, ss[i].mount.planKey))
  {
    if es[i].Request? {
      CleanupSparesInUse(ss[i].world, SLOTS, ss[i].mount.certificate, es[i].budget);
    }
    assert ss[i].pending.Some?;
    PendingWasAsked(ss, es, i);
  }

  /** Cleanup happens only after a rollout and while the mounted identity is in use; and it alone deletes without installing. */
  lemma RequestDeletesStaleOnly(ss: seq<State>, es: seq<Event>, i: nat, n: string)
    requires Run(ss, es) && i < |es| && es[i].Request? && n in ss[i].world.secrets && n !in ss[i + 1].world.secrets
    ensures
      var w, current := ss[i].world, ss[i].mount.certificate;
      && es[i].rolledOut && w.deployment in w.secrets && w.secrets[w.deployment].identity.certificate == current
      && n in SLOTS && n != w.deployment && w.secrets[n].managed && w.secrets[n].identity.certificate != current
  {
    CleanupSparesInUse(ss[i].world, SLOTS, ss[i].mount.certificate, es[i].budget);
  }

  /**
    In every run, however often the rotator is cut off or replaced, the Deployment names an
    existing Secret with matching certificate and key and with the plan key it had at the start.
  */
  lemma {:induction false} IdentityAlwaysUsable(ss: seq<State>, es: seq<Event>, planKey: int, i: nat)
    requires Run(ss, es) && Inv(ss[0], planKey) && i < |ss|
    ensures Inv(ss[i], planKey)
    ensures
      var w := ss[i].world;
      w.deployment in w.secrets && Matching(w.secrets[w.deployment].identity) &&
      w.secrets[w.deployment].identity.planKey == planKey
  {
    if i > 0 {
      IdentityAlwaysUsable(ss, es, planKey, i - 1);
      StepKeeps(ss[i - 1], es[i - 1], planKey);
    }
  }

  /** A cleanup that is not cut off leaves in each slot the identity in use, the current one, one it does not manage, or none. */
  lemma {:induction false} CleanupFinishes(w: World, names: seq<string>, current: Certificate, budget: nat)
    requires budget >= |names|
    ensures
      var v := CleanSlots(w, names, current, budget);
      forall n :: n in names && n in v.secrets ==>
        n == v.deployment || !v.secrets[n].managed || v.secrets[n].identity.certificate == current
    decreases |names|
  {
    if names != [] {
      var (v, left) := CleanSlot(w, names[0], current, budget);
      CleanupFinishes(v, names[1..], current, left);
      CleanupSparesInUse(v, names[1..], current, left);
      assert names == [names[0]] + names[1..];
    }
  }
}
