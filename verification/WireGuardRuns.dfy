/**
  Authorization and revocation of WireGuard peers as interleaved sequences of API calls.
*/
module WireGuardRuns {
  import opened Common
  import opened WireGuard

  datatype Store = Missing | Stored(version: nat, data: map<string, nat>)

  datatype Peer = Peer(address: nat, key: string)

  /** What an operation of one site does next. */
  datatype Operation =
    | ReadForReserve(key: string)
    | WriteReserve(key: string, seen: Store, address: nat)
    | CreatePeer(key: string, address: nat)
    | DeletePeer
    | ReadForRelease
    | WriteRelease(seen: Store)

  datatype State = State(store: Store, peers: map<string, Peer>, operations: map<string, Operation>)

  datatype Event =
    | BeginAuthorize(uid: string, key: string)
    | BeginRevoke(uid: string)
    | Call(uid: string, choice: Choice)
    | Stop(uid: string)

  function Data(s: Store): map<string, nat> { if s.Missing? then map[] else s.data }

  /** The stored object has not been written since it was read. */
  predicate Unwritten(seen: Store, now: Store) {
    (seen.Missing? && now.Missing?) || (seen.Stored? && now.Stored? && seen.version == now.version)
  }

  function Written(s: Store, data: map<string, nat>): Store {
    Stored(if s.Missing? then 1 else s.version + 1, data)
  }

  ghost predicate Enabled(net: Network, s: State, e: Event)
    requires net.Valid()
  {
    match e
    case BeginAuthorize(u, _) => u !in s.operations
    case BeginRevoke(u) => u !in s.operations
    case Call(u, c) =>
      u in s.operations && (s.operations[u].ReadForReserve? ==> Chooses(net, Data(s.store), u, c))
    case Stop(u) => u in s.operations
  }

  function Become(s: State, u: string, op: Operation): State { s.(operations := s.operations[u := op]) }

  function End(s: State, u: string): State { s.(operations := s.operations - {u}) }

  /** One API call of a site's operation. */
  function DoCall(s: State, u: string, c: Choice): State
    requires u in s.operations
  {
    match s.operations[u]
    case ReadForReserve(key) =>
      (match c
       case Existing(a) => Become(s, u, CreatePeer(key, a))
       case Fresh(a) => Become(s, u, WriteReserve(key, s.store, a))
       case _ => End(s, u))
    case WriteReserve(key, seen, a) =>
      if Unwritten(seen, s.store)
      then Become(s, u, CreatePeer(key, a)).(store := Written(s.store, Data(seen)[u := a]))
      else Become(s, u, ReadForReserve(key))
    case CreatePeer(key, a) =>
      End(s, u).(peers := if u in s.peers then s.peers else s.peers[u := Peer(a, key)])
    case DeletePeer => Become(s, u, ReadForRelease).(peers := s.peers - {u})
    case ReadForRelease => if u in Data(s.store) then Become(s, u, WriteRelease(s.store)) else End(s, u)
    case WriteRelease(seen) =>
      if Unwritten(seen, s.store) then End(s, u).(store := Written(s.store, Data(seen) - {u}))
      else Become(s, u, ReadForRelease)
  }

  function Do(s: State, e: Event): State
    requires e.Call? ==> e.uid in s.operations
  {
    match e
    case BeginAuthorize(u, key) => Become(s, u, ReadForReserve(key))
    case BeginRevoke(u) => Become(s, u, DeletePeer)
    case Call(u, c) => DoCall(s, u, c)
    case Stop(u) => End(s, u)
  }

  ghost predicate Run(net: Network, ss: seq<State>, es: seq<Event>) {
    && net.Valid() && |ss| == |es| + 1 && ss[0] == State(Missing, map[], map[])
    && forall i :: 0 <= i < |es| ==> Enabled(net, ss[i], es[i]) && ss[i + 1] == Do(ss[i], es[i])
  }

  /** A version stands for one content. */
  predicate Snapshot(seen: Store, now: Store) {
    && (seen.Stored? ==> now.Stored? && seen.version <= now.version)
    && (Unwritten(seen, now) ==> seen == now)
  }

  /** What an operation relies on while other sites go on. */
  predicate OperationInv(net: Network, u: string, op: Operation, store: Store, authorized: bool)
    requires net.Valid()
  {
    match op
    case CreatePeer(_, a) => u in Data(store) && Data(store)[u] == a
    case WriteReserve(_, seen, a) =>
      Snapshot(seen, store) && u !in Data(seen) && net.Peer(a) && a !in Data(seen).Values
    case ReadForRelease => !authorized
    case WriteRelease(seen) => Snapshot(seen, store) && !authorized
    case _ => true
  }

  predicate PeersInv(peers: map<string, Peer>, data: map<string, nat>) {
    forall u :: u in peers ==> u in data && data[u] == peers[u].address
  }

  predicate Inv(net: Network, s: State)
    requires net.Valid()
  {
    && Sound(net, Data(s.store))
    && PeersInv(s.peers, Data(s.store))
    && forall u :: u in s.operations ==> OperationInv(net, u, s.operations[u], s.store, u in s.peers)
  }

  /** A write by one site leaves what every other site relies on. */
  lemma WriteKeepsOthers(net: Network, u: string, op: Operation, store: Store, data: map<string, nat>, authorized: bool)
    requires net.Valid() && OperationInv(net, u, op, store, authorized)
    requires u in Data(store) ==> u in data && data[u] == Data(store)[u]
    ensures OperationInv(net, u, op, Written(store, data), authorized)
  {
  }

  lemma ReserveKeeps(net: Network, s: State, u: string, c: Choice)
    requires net.Valid() && Inv(net, s) && u in s.operations && s.operations[u].WriteReserve?
    ensures Inv(net, DoCall(s, u, c))
  {
    var op := s.operations[u];
    if Unwritten(op.seen, s.store) {
      var data := Data(op.seen)[u := op.address];
      forall w | w in s.operations && w != u
        ensures OperationInv(net, w, s.operations[w], Written(s.store, data), w in s.peers)
      {
        WriteKeepsOthers(net, w, s.operations[w], s.store, data, w in s.peers);
      }
      ReservedIsSound(net, Data(op.seen), s.peers, u, op.address);
    }
  }

  lemma ReservedIsSound(net: Network, data: map<string, nat>, peers: map<string, Peer>, u: string, a: nat)
    requires net.Valid() && Sound(net, data) && PeersInv(peers, data) && u !in data && net.Peer(a) && a !in data.Values
    ensures Sound(net, data[u := a]) && PeersInv(peers, data[u := a])
  {
    assert forall w :: w in data ==> data[w] in data.Values;
  }

  lemma ReleaseKeeps(net: Network, s: State, u: string, c: Choice)
    requires net.Valid() && Inv(net, s) && u in s.operations && s.operations[u].WriteRelease?
    ensures Inv(net, DoCall(s, u, c))
  {
    var op := s.operations[u];
    if Unwritten(op.seen, s.store) {
      var data := Data(op.seen) - {u};
      forall w | w in s.operations && w != u
        ensures OperationInv(net, w, s.operations[w], Written(s.store, data), w in s.peers)
      {
        WriteKeepsOthers(net, w, s.operations[w], s.store, data, w in s.peers);
      }
    }
  }

  lemma PeerCallKeeps(net: Network, s: State, u: string, c: Choice)
    requires net.Valid() && Inv(net, s) && u in s.operations
    requires s.operations[u].CreatePeer? || s.operations[u].DeletePeer?
    ensures Inv(net, DoCall(s, u, c))
  {
  }

  lemma ReadKeeps(net: Network, s: State, u: string, c: Choice)
    requires net.Valid() && Inv(net, s) && Enabled(net, s, Call(u, c))
    requires s.operations[u].ReadForReserve? || s.operations[u].ReadForRelease?
    ensures Inv(net, DoCall(s, u, c))
  {
  }

  lemma StepKeeps(net: Network, s: State, e: Event)
    requires net.Valid() && Inv(net, s) && Enabled(net, s, e)
    ensures Inv(net, Do(s, e))
  {
    if e.Call? {
      match s.operations[e.uid]
      case WriteReserve(_, _, _) => ReserveKeeps(net, s, e.uid, e.choice);
      case WriteRelease(_) => ReleaseKeeps(net, s, e.uid, e.choice);
      case CreatePeer(_, _) | DeletePeer => PeerCallKeeps(net, s, e.uid, e.choice);
      case _ => ReadKeeps(net, s, e.uid, e.choice);
    }
  }

  lemma {:induction false} RunKeeps(net: Network, ss: seq<State>, es: seq<Event>, i: nat)
    requires Run(net, ss, es) && i < |ss|
    ensures Inv(net, ss[i])
  {
    if i > 0 {
      RunKeeps(net, ss, es, i - 1);
      StepKeeps(net, ss[i - 1], es[i - 1]);
    }
  }

  /**
    In every interleaving, no two authorized peers share an address, each peer's address is its
    stored allocation, and none is the network, hub or last address.
  */
  lemma PeersAreSound(net: Network, ss: seq<State>, es: seq<Event>, i: nat)
    requires Run(net, ss, es) && i < |ss|
    ensures
      var peers := ss[i].peers;
      && (forall u, w :: u in peers && w in peers && peers[u].address == peers[w].address ==> u == w)
      && (forall u :: u in peers ==>
            && u in Data(ss[i].store) && Data(ss[i].store)[u] == peers[u].address
            && net.base + 2 <= peers[u].address < net.base + Pow2(32 - net.bits) - 1)
  {
    RunKeeps(net, ss, es, i);
  }

  lemma StepKeepsAllocation(net: Network, s: State, e: Event, u: string)
    requires net.Valid() && Enabled(net, s, e) && u in Data(s.store)
    requires e.Call? ==> OperationInv(net, e.uid, s.operations[e.uid], s.store, e.uid in s.peers)
    requires !(e.Call? && e.uid == u && s.operations[u].WriteRelease?)
    ensures u in Data(Do(s, e).store) && Data(Do(s, e).store)[u] == Data(s.store)[u]
  {
  }

  /** A site keeps its allocation until its own release is written, whatever the others do. */
  lemma AllocationIsStable(net: Network, ss: seq<State>, es: seq<Event>, i: nat, u: string)
    requires Run(net, ss, es) && i < |es| && u in Data(ss[i].store)
    requires !(es[i].Call? && es[i].uid == u && ss[i].operations[u].WriteRelease?)
    ensures u in Data(ss[i + 1].store) && Data(ss[i + 1].store)[u] == Data(ss[i].store)[u]
  {
    RunKeeps(net, ss, es, i);
    StepKeepsAllocation(net, ss[i], es[i], u);
  }

  // ------------------------------------------------------------------------------------
  // How operations end
  // ------------------------------------------------------------------------------------

  predicate Revoking(op: Operation) { op.DeletePeer? || op.ReadForRelease? || op.WriteRelease? }

  /** In every run, a revocation that is not stopped ends only when the site has neither a peer nor an allocation. */
  lemma RevocationEndsReleased(net: Network, ss: seq<State>, es: seq<Event>, i: nat)
    requires Run(net, ss, es) && i < |es| && es[i].Call? && es[i].uid in ss[i].operations
    requires Revoking(ss[i].operations[es[i].uid]) && es[i].uid !in ss[i + 1].operations
    ensures es[i].uid !in ss[i + 1].peers && es[i].uid !in Data(ss[i + 1].store)
  {
    RunKeeps(net, ss, es, i);
  }

  /**
    In every run, an authorization that is not stopped ends with the peer in place, or at once when the
    network is full or the stored allocation is no address of it.
  */
  lemma AuthorizationEndsWithPeer(net: Network, ss: seq<State>, es: seq<Event>, i: nat)
    requires Run(net, ss, es) && i < |es| && es[i].Call? && es[i].uid in ss[i].operations
    requires !Revoking(ss[i].operations[es[i].uid])
    ensures
      var op, refused := ss[i].operations[es[i].uid], es[i].choice.NoSpace? || es[i].choice.InvalidStored?;
      && (op.ReadForReserve? && refused ==> ss[i + 1] == End(ss[i], es[i].uid))
      && (es[i].uid !in ss[i + 1].operations ==> (op.ReadForReserve? && refused) || es[i].uid in ss[i + 1].peers)
  {
  }

  /** A peer stays as it is until the site's own revocation deletes it. */
  lemma PeerIsStable(net: Network, ss: seq<State>, es: seq<Event>, i: nat, u: string)
    requires Run(net, ss, es) && i < |es| && u in ss[i].peers
    requires !(es[i].Call? && es[i].uid == u && ss[i].operations[u].DeletePeer?)
    ensures u in ss[i + 1].peers && ss[i + 1].peers[u] == ss[i].peers[u]
  {
  }

  predicate Asked(es: seq<Event>, i: nat, u: string, key: string) {
    exists j :: 0 <= j < i && j < |es| && es[j] == BeginAuthorize(u, key)
  }

  lemma AskedLater(es: seq<Event>, i: nat, u: string, key: string)
    requires Asked(es, i, u, key)
    ensures Asked(es, i + 1, u, key)
  {
    var j :| 0 <= j < i && j < |es| && es[j] == BeginAuthorize(u, key);
  }

  lemma KeyStep(s: State, e: Event, u: string)
    requires e.Call? ==> e.uid in s.operations
    requires u in Do(s, e).operations && !Revoking(Do(s, e).operations[u])
    ensures
      var key := Do(s, e).operations[u].key;
      || e == BeginAuthorize(u, key)
      || (u in s.operations && !Revoking(s.operations[u]) && s.operations[u].key == key)
  {
  }

  lemma {:induction false} OperationKeyWasAsked(net: Network, ss: seq<State>, es: seq<Event>, i: nat, u: string)
    requires Run(net, ss, es) && i < |ss| && u in ss[i].operations && !Revoking(ss[i].operations[u])
    ensures Asked(es, i, u, ss[i].operations[u].key)
  {
    assert i > 0;
    var key := ss[i].operations[u].key;
    KeyStep(ss[i - 1], es[i - 1], u);
    if es[i - 1] != BeginAuthorize(u, key) {
      OperationKeyWasAsked(net, ss, es, i - 1, u);
      AskedLater(es, i - 1, u, key);
    }
  }

  /** In every run, a peer has a key with which its site was authorized. */
  lemma {:induction false} PeerKeyWasAsked(net: Network, ss: seq<State>, es: seq<Event>, i: nat, u: string)
    requires Run(net, ss, es) && i < |ss| && u in ss[i].peers
    ensures Asked(es, i, u, ss[i].peers[u].key)
  {
    if u in ss[i - 1].peers && ss[i - 1].peers[u] == ss[i].peers[u] {
      PeerKeyWasAsked(net, ss, es, i - 1, u);
    } else {
      OperationKeyWasAsked(net, ss, es, i - 1, u);
    }
    AskedLater(es, i - 1, u, ss[i].peers[u].key);
  }
}
