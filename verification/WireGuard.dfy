/**
  The WireGuard address allocator of the hub.

  Addresses are the numbers of IPv4 addresses. Allocations live in one stored object that is
  replaced by compare-and-swap on its version. Authorizing and revoking a peer are sequences
  of single API calls; operations of different sites interleave freely, one site runs one
  operation at a time, and any operation may stop after any call.
*/
module WireGuard {
  import opened Common

  datatype Network = Network(base: nat, bits: nat) {
    function Size(): nat
      requires bits <= 32
    {
      Pow2(32 - bits)
    }

    predicate Valid() { bits <= 29 && base % Size() == 0 && base < Pow2(32) }

    predicate Contains(a: nat)
      requires bits <= 32
    {
      base <= a < base + Size()
    }

    /** Neither the network address, nor the hub's, nor the last one. */
    predicate Peer(a: nat)
      requires bits <= 32
    {
      base + 2 <= a < base + Size() - 1
    }
  }

  function ParseNetwork(base: nat, bits: nat): (n: Option<Network>)
    requires base < Pow2(32) && bits <= 32
    ensures n.Some? <==> bits <= 29 && base % Pow2(32 - bits) == 0
    ensures n.Some? ==> n.value == Network(base, bits) && n.value.Valid()
  {
    if bits > 29 || base % Pow2(32 - bits) != 0 then None else Some(Network(base, bits))
  }

  lemma {:induction false} Pow2Splits(a: nat, b: nat)
    ensures Pow2(a + b) == Pow2(a) * Pow2(b)
  {
    if a > 0 {
      Pow2Splits(a - 1, b);
    }
  }

  lemma Multiples(size: nat, a: nat, b: nat)
    requires a <= b
    ensures size * a <= size * b
  {
    assert size * b == size * a + size * (b - a);
  }

  lemma AlignedFits(base: nat, size: nat, all: nat)
    requires size >= 1 && base % size == 0 && base < size * all
    ensures base + size <= size * all
  {
    var k := base / size;
    if all <= k {
      Multiples(size, all, k);
    }
    Multiples(size, k + 1, all);
  }

  lemma SizeAtLeastEight(bits: nat)
    requires bits <= 29
    ensures Pow2(32 - bits) >= 8
  {
    Pow2Splits(3, 29 - bits);
    assert Pow2(3) == 8;
    assert 3 + (29 - bits) == 32 - bits;
  }

  /** A valid network has eight addresses or more, all of them IPv4 addresses. */
  lemma NetworkFits(n: Network)
    requires n.Valid()
    ensures n.Size() >= 8 && n.base + n.Size() <= Pow2(32)
  {
    SizeAtLeastEight(n.bits);
    Pow2Splits(32 - n.bits, n.bits);
    assert (32 - n.bits) + n.bits == 32;
    AlignedFits(n.base, n.Size(), Pow2(n.bits));
  }

  lemma Quotient(a: nat, size: nat)
    requires size >= 1
    ensures size * (a / size) <= a < size * (a / size) + size && a == size * (a / size) + a % size
  {
  }

  lemma QuotientIsUnique(a: nat, size: nat, k: nat)
    requires size >= 1 && size * k <= a < size * k + size
    ensures a / size == k
  {
    Quotient(a, size);
    var q := a / size;
    if q < k {
      Multiples(size, q + 1, k);
    } else if k < q {
      Multiples(size, k + 1, q);
    }
  }

  /** An address is the first of its block exactly when it is a multiple of the size. */
  lemma BlockStart(base: nat, size: nat)
    requires size >= 1
    ensures base % size == 0 <==> forall a: nat :: a / size == base / size ==> base <= a
  {
    var first := size * (base / size);
    Quotient(base, size);
    QuotientIsUnique(first, size, base / size);
    forall a: nat | a / size == base / size ensures first <= a {
      Quotient(a, size);
    }
  }

  lemma SmallSizes(bits: nat)
    requires 29 < bits <= 32
    ensures Pow2(32 - bits) <= 4
  {
    assert Pow2(0) == 1 && Pow2(1) == 2 && Pow2(2) == 4;
  }

  /** A network is accepted exactly when it has six usable addresses and is given by the first address of its block. */
  lemma ParsesExactly(base: nat, bits: nat)
    requires base < Pow2(32) && bits <= 32
    ensures
      var size := Pow2(32 - bits);
      ParseNetwork(base, bits).Some? <==> size - 2 >= 6 && forall a: nat :: a / size == base / size ==> base <= a
  {
    if bits <= 29 {
      SizeAtLeastEight(bits);
    } else {
      SmallSizes(bits);
    }
    BlockStart(base, Pow2(32 - bits));
  }

  // ------------------------------------------------------------------------------------
  // Choosing an address
  // ------------------------------------------------------------------------------------

  datatype Choice = Existing(address: nat) | Fresh(address: nat) | InvalidStored | NoSpace

  /** What a reservation makes of the allocations it read. */
  ghost predicate Chooses(net: Network, data: map<string, nat>, uid: string, c: Choice)
    requires net.Valid()
  {
    if uid in data then c == if net.Contains(data[uid]) then Existing(data[uid]) else InvalidStored
    else match c
      case Fresh(a) =>
        net.Peer(a) && a !in data.Values && forall b: nat :: net.Peer(b) && b < a ==> b in data.Values
      case NoSpace => forall b: nat :: net.Peer(b) ==> b in data.Values
      case _ => false
  }

  method ChooseAddress(net: Network, data: map<string, nat>, uid: string) returns (c: Choice)
    requires net.Valid()
    ensures Chooses(net, data, uid, c)
  {
    if uid in data {
      return if net.Contains(data[uid]) then Existing(data[uid]) else InvalidStored;
    }
    NetworkFits(net);
    var used := data.Values;
    var candidate := net.base + 2;
    while net.Contains(candidate + 1)
      invariant net.base + 2 <= candidate < net.base + net.Size()
      invariant forall b: nat :: net.Peer(b) && b < candidate ==> b in used
      decreases net.base + net.Size() - candidate
    {
      if candidate !in used {
        return Fresh(candidate);
      }
      candidate := candidate + 1;
    }
    return NoSpace;
  }

  /** The stored allocations, changed in place by one operation at a time. */
  class AllocationStore {
    const net: Network
    var data: map<string, nat>

    constructor (net: Network)
      ensures this.net == net && data == map[]
    {
      this.net, data := net, map[];
    }

    method Reserve(uid: string) returns (c: Choice)
      requires net.Valid()
      modifies this`data
      ensures Chooses(net, old(data), uid, c)
      ensures data == if c.Fresh? then old(data)[uid := c.address] else old(data)
    {
      c := ChooseAddress(net, data, uid);
      if c.Fresh? {
        data := data[uid := c.address];
      }
    }

    method Release(uid: string)
      modifies this`data
      ensures data == old(data) - {uid}
    {
      if uid in data {
        data := data - {uid};
      }
    }
  }

  /** No two sites share an address, and every address is one for peers. */
  predicate Sound(net: Network, data: map<string, nat>)
    requires net.Valid()
  {
    && (forall u :: u in data ==> net.Peer(data[u]))
    && (forall u, w :: u in data && w in data && data[u] == data[w] ==> u == w)
  }

  lemma {:induction false} InjectiveValues(data: map<string, nat>)
    requires forall u, w :: u in data && w in data && data[u] == data[w] ==> u == w
    ensures |data.Values| == |data|
    decreases |data|
  {
    if data != map[] {
      var u :| u in data;
      var rest := data - {u};
      InjectiveValues(rest);
      assert data.Values == rest.Values + {data[u]} by {
        forall a | a in data.Values ensures a in rest.Values || a == data[u] {
          var w :| w in data && data[w] == a;
          assert w != u ==> w in rest && rest[w] == a;
        }
      }
      assert data[u] !in rest.Values;
      assert data.Keys == rest.Keys + {u};
    } else {
      assert data.Values == {};
    }
  }

  lemma AllTakenExactly(data: map<string, nat>, peers: set<nat>)
    requires forall u, w :: u in data && w in data && data[u] == data[w] ==> u == w
    requires data.Values <= peers
    ensures |data| == |peers| <==> peers <= data.Values
  {
    InjectiveValues(data);
    SubsetSize(data.Values, peers);
  }

  lemma PeerAddresses(net: Network) returns (peers: set<nat>)
    requires net.Valid()
    ensures |peers| == net.Size() - 3 && forall b: nat :: b in peers <==> net.Peer(b)
  {
    NetworkFits(net);
    peers := Range(net.base + 2, net.base + net.Size() - 1);
  }

  /** A new site finds no space exactly when all 2^(32-bits) - 3 peer addresses are taken. */
  lemma FullExactly(net: Network, data: map<string, nat>, uid: string, c: Choice)
    requires net.Valid() && Sound(net, data) && uid !in data && Chooses(net, data, uid, c)
    ensures c.NoSpace? <==> |data| == Pow2(32 - net.bits) - 3
  {
    var peers := PeerAddresses(net);
    AllTakenExactly(data, peers);
  }

  /** Whatever is stored, a site is given an address of the network, and a stored one outside of it is refused. */
  lemma GivesNetworkAddresses(net: Network, data: map<string, nat>, uid: string, c: Choice)
    requires net.Valid() && Chooses(net, data, uid, c)
    ensures c.Existing? || c.Fresh? ==> net.base <= c.address < net.base + Pow2(32 - net.bits)
    ensures c.InvalidStored? <==> uid in data && !(net.base <= data[uid] < net.base + Pow2(32 - net.bits))
  {
    NetworkFits(net);
  }

  /** A reservation keeps the allocations sound, and asking again returns the same address. */
  lemma ReserveIsStable(net: Network, data: map<string, nat>, uid: string, c: Choice, again: Choice)
    requires net.Valid() && Sound(net, data) && Chooses(net, data, uid, c) && !c.NoSpace?
    requires Chooses(net, if c.Fresh? then data[uid := c.address] else data, uid, again)
    ensures (c.Fresh? || c.Existing?) && again == Existing(c.address)
    ensures Sound(net, if c.Fresh? then data[uid := c.address] else data)
  {
    if c.Fresh? {
      var after := data[uid := c.address];
      assert forall u :: u in data ==> data[u] in data.Values;
      NetworkFits(net);
    }
  }
}
