/**
  The agent's durable plan cache: one stored object per cache name, and verification of every
  envelope that goes in or comes out.
*/
module PlanCache {
  import opened Common

  datatype SitePlan = SitePlan(protocol: string, siteUid: string, instanceUid: string, revision: int, body: int)

  /** `genuine` stands for the signature check of this plan under the hub's public key. */
  datatype Envelope = Envelope(plan: SitePlan, signature: int, genuine: bool)

  datatype Result = Ok(plan: SitePlan) | NotFound | Rejected

  const PROTOCOL := "v1alpha1"

  function Verify(e: Envelope, siteUid: string, instanceUid: string, minimum: int): (r: Result)
    ensures r.Ok? || r.Rejected?
    ensures r.Ok? <==>
            && e.genuine && e.plan.protocol == PROTOCOL && e.plan.siteUid == siteUid
            && e.plan.instanceUid == instanceUid && minimum <= e.plan.revision
    ensures r.Ok? ==> r.plan == e.plan
  {
    if !e.genuine || e.plan.protocol != PROTOCOL then Rejected
    else if e.plan.siteUid != siteUid || e.plan.instanceUid != instanceUid then Rejected
    else if e.plan.revision < minimum then Rejected
    else Ok(e.plan)
  }

  /** The hub signs only plans with an identity and a positive revision. */
  function Sign(plan: SitePlan, signature: int): Option<Envelope> {
    if plan.revision < 1 || plan.siteUid == "" || plan.instanceUid == "" then None
    else Some(Envelope(plan.(protocol := PROTOCOL), signature, true))
  }

  /**
    A plan can be signed exactly when it names a site and an instance and has a positive revision. A
    signed plan verifies for its own site and instance, for no other, and for no later revision.
  */
  lemma SignedPlanVerifiesExactly(plan: SitePlan, signature: int, siteUid: string, instanceUid: string, minimum: int)
    ensures
      var e := Sign(plan, signature);
      && (e.Some? <==> |plan.siteUid| > 0 && |plan.instanceUid| > 0 && plan.revision > 0)
      && (e.Some? ==>
        (Verify(e.value, siteUid, instanceUid, minimum) == Ok(plan.(protocol := PROTOCOL)) <==>
         plan.siteUid == siteUid && plan.instanceUid == instanceUid && minimum <= plan.revision))
  {
  }

  function Normalize(c: char): char {
    if 'A' <= c <= 'Z' then (c as int + 32) as char else if c == '_' then '-' else c
  }

  /** The one letter in lower case, the other in upper case. */
  predicate CaseOf(c: char, d: char) { 'A' <= d <= 'Z' && c as int == d as int + 32 }

  /** Two characters become the same exactly when they are, or differ in case only, or are underscore and dash. */
  lemma NormalizesExactly(c: char, d: char)
    ensures Normalize(c) == Normalize(d) <==> c == d || CaseOf(c, d) || CaseOf(d, c) || {c, d} == {'_', '-'}
  {
    assert {c, d} == {'_', '-'} <==> (c == '_' && d == '-') || (c == '-' && d == '_');
  }

  /** Instance UIDs are folded to lower case, underscores become dashes, and 40 characters are kept. */
  function CacheName(uid: string): string {
    var n := seq(|uid|, i requires 0 <= i < |uid| => Normalize(uid[i]));
    "multisite-postgres-plan-" + if |n| > 40 then n[..40] else n
  }

  function Length(uid: string): nat { if |uid| > 40 then 40 else |uid| }

  /** Two UIDs have one cache name exactly when their first forty characters agree up to case and underscores. */
  lemma NamesCollideExactly(a: string, b: string)
    ensures CacheName(a) == CacheName(b) <==>
            Length(a) == Length(b) && forall i :: 0 <= i < Length(a) ==> Normalize(a[i]) == Normalize(b[i])
  {
    var prefix := "multisite-postgres-plan-";
    var x, y := CacheName(a)[|prefix|..], CacheName(b)[|prefix|..];
    assert CacheName(a) == prefix + x && CacheName(b) == prefix + y;
    assert |x| == Length(a) && forall i :: 0 <= i < |x| ==> x[i] == Normalize(a[i]);
    assert |y| == Length(b) && forall i :: 0 <= i < |y| ==> y[i] == Normalize(b[i]);
    if Length(a) == Length(b) && forall i :: 0 <= i < Length(a) ==> Normalize(a[i]) == Normalize(b[i]) {
      assert x == y;
    }
  }

  type Entries = map<string, Envelope>

  function LoadFrom(entries: Entries, siteUid: string, uid: string): Result {
    if CacheName(uid) !in entries then NotFound else Verify(entries[CacheName(uid)], siteUid, uid, 1)
  }

  /** The result of a store, and the entries it leaves. */
  function StoreInto(entries: Entries, siteUid: string, e: Envelope, uid: string): (Entries, Result) {
    var current := LoadFrom(entries, siteUid, uid);
    var name := CacheName(uid);
    if current.Rejected? then (entries, Rejected)
    else
      var verified := Verify(e, siteUid, uid, if current.Ok? then current.plan.revision else 1);
      if !verified.Ok? then (entries, Rejected)
      else if name in entries && entries[name].plan.revision == e.plan.revision then
        (entries, if entries[name] == e then verified else Rejected)
      else (entries[name := e], verified)
  }

  class Cache {
    const siteUid: string
    var entries: Entries

    constructor (siteUid: string)
      ensures this.siteUid == siteUid && entries == map[]
    {
      this.siteUid, entries := siteUid, map[];
    }

    method Load(uid: string) returns (r: Result)
      ensures r == LoadFrom(entries, siteUid, uid)
    {
      if CacheName(uid) !in entries {
        return NotFound;
      }
      return Verify(entries[CacheName(uid)], siteUid, uid, 1);
    }

    method Store(e: Envelope, uid: string) returns (r: Result)
      modifies this`entries
      ensures (entries, r) == StoreInto(old(entries), siteUid, e, uid)
    {
      var current := Load(uid);
      var minimum := 1;
      if current.Ok? {
        minimum := current.plan.revision;
      } else if !current.NotFound? {
        return Rejected;
      }
      r := Verify(e, siteUid, uid, minimum);
      if !r.Ok? {
        return;
      }
      var name := CacheName(uid);
      if name in entries && entries[name] == e {
        return;
      }
      if name in entries && entries[name].plan.revision == e.plan.revision {
        return Rejected;
      }
      entries := entries[name := e];
    }
  }

  // ------------------------------------------------------------------------------------
  // Any sequence of stores
  // ------------------------------------------------------------------------------------

  /** Every entry is a genuine plan of the instance whose name it carries. */
  predicate Inv(siteUid: string, entries: Entries) {
    forall n :: n in entries ==>
      && CacheName(entries[n].plan.instanceUid) == n
      && Verify(entries[n], siteUid, entries[n].plan.instanceUid, 1).Ok?
  }

  /** Entries stay with their instance, never go back, and one revision has one content. */
  predicate Forward(before: Entries, after: Entries) {
    forall n :: n in before ==>
      && n in after
      && after[n].plan.instanceUid == before[n].plan.instanceUid
      && before[n].plan.revision <= after[n].plan.revision
      && (before[n].plan.revision == after[n].plan.revision ==> before[n] == after[n])
  }

  ghost predicate Run(siteUid: string, caches: seq<Entries>, stores: seq<(Envelope, string)>) {
    && |caches| == |stores| + 1 && caches[0] == map[]
    && forall i :: 0 <= i < |stores| ==> caches[i + 1] == StoreInto(caches[i], siteUid, stores[i].0, stores[i].1).0
  }

  lemma StoreKeeps(siteUid: string, entries: Entries, e: Envelope, uid: string)
    requires Inv(siteUid, entries)
    ensures Inv(siteUid, StoreInto(entries, siteUid, e, uid).0) && Forward(entries, StoreInto(entries, siteUid, e, uid).0)
  {
  }

  /**
    Over any sequence of stores the cached revision of an instance never decreases, a revision has
    one cached content, and an entry is never taken over by another instance.
  */
  lemma {:induction false} CacheOnlyMovesForward(siteUid: string, caches: seq<Entries>, stores: seq<(Envelope, string)>,
                                                i: nat, j: nat)
    requires Run(siteUid, caches, stores) && i <= j < |caches|
    ensures Inv(siteUid, caches[j]) && Forward(caches[i], caches[j])
  {
    if j > 0 {
      CacheOnlyMovesForward(siteUid, caches, stores, if i < j then i else 0, j - 1);
      StoreKeeps(siteUid, caches[j - 1], stores[j - 1].0, stores[j - 1].1);
    }
  }

  /**
    Over any sequence of stores, what is cached was stored under its name before: a plan with the hub's
    signature, in this protocol, for this site and the instance it was stored for, of a positive revision.
  */
  lemma {:induction false} CachedWasStored(siteUid: string, caches: seq<Entries>, stores: seq<(Envelope, string)>, j: nat, n: string)
    requires Run(siteUid, caches, stores) && j < |caches| && n in caches[j]
    ensures exists i :: 0 <= i < j && stores[i].0 == caches[j][n] && CacheName(stores[i].1) == n &&
                        stores[i].1 == caches[j][n].plan.instanceUid
    ensures
      var e := caches[j][n];
      e.genuine && e.plan.protocol == "v1alpha1" && e.plan.siteUid == siteUid && e.plan.revision >= 1
  {
    if n in caches[j - 1] && caches[j - 1][n] == caches[j][n] {
      CachedWasStored(siteUid, caches, stores, j - 1, n);
    } else {
      CacheOnlyMovesForward(siteUid, caches, stores, 0, j);
      assert stores[j - 1].0 == caches[j][n];
    }
  }

  /** A plan is refused for a name collision exactly when the entry belongs to another instance. */
  lemma CollisionIsRefusedExactly(siteUid: string, entries: Entries, e: Envelope, uid: string)
    requires Inv(siteUid, entries) && Verify(e, siteUid, uid, 1).Ok?
    requires forall n :: n in entries && entries[n].plan.instanceUid == uid ==> entries[n].plan.revision < e.plan.revision
    ensures
      var (after, r) := StoreInto(entries, siteUid, e, uid);
      && (r == Rejected <==> CacheName(uid) in entries && entries[CacheName(uid)].plan.instanceUid != uid)
      && (r == Rejected ==> after == entries)
      && (r != Rejected ==> LoadFrom(after, siteUid, uid) == Ok(e.plan))
  {
  }

  /** A stored plan is what a later load returns. */
  lemma StoreThenLoad(siteUid: string, entries: Entries, e: Envelope, uid: string)
    ensures
      var (after, r) := StoreInto(entries, siteUid, e, uid);
      r.Ok? && Inv(siteUid, entries) ==> LoadFrom(after, siteUid, uid) == r
  {
  }
}
