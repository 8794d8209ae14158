/**
  The plan cache call by call: a store loads and verifies, reads the stored object again, and then
  creates or updates it against the version it read. Stores of several workers interleave, and a
  worker may stop after any call.
*/
module PlanCacheRuns {
  import opened Common
  import opened PlanCache

  /** A stored object with its version. */
  datatype Slot = Slot(version: nat, envelope: Envelope)

  type Slots = map<string, Slot>

  datatype Step = Loading | Rereading | Writing(seen: Option<Slot>)

  datatype Worker = Worker(uid: string, envelope: Envelope, step: Step)

  datatype State = State(slots: Slots, workers: map<nat, Worker>)

  datatype Event = Begin(id: nat, uid: string, envelope: Envelope) | Call(id: nat) | Stop(id: nat)

  function EntriesOf(slots: Slots): Entries { map n | n in slots :: slots[n].envelope }

  function SlotAt(slots: Slots, name: string): Option<Slot> {
    if name in slots then Some(slots[name]) else None
  }

  predicate Enabled(s: State, e: Event) {
    if e.Begin? then e.id !in s.workers else e.id in s.workers
  }

  function End(s: State, id: nat): State { s.(workers := s.workers - {id}) }

  function Become(s: State, id: nat, step: Step): State
    requires id in s.workers
  {
    s.(workers := s.workers[id := s.workers[id].(step := step)])
  }

  /** The write succeeds only if the object is as it was read. */
  predicate Unwritten(slots: Slots, name: string, seen: Option<Slot>) {
    if seen.None? then name !in slots else name in slots && slots[name].version == seen.value.version
  }

  function DoCall(site: string, s: State, id: nat): State
    requires id in s.workers
  {
    var w := s.workers[id];
    var name := CacheName(w.uid);
    match w.step
    case Loading =>
      var current := LoadFrom(EntriesOf(s.slots), site, w.uid);
      if current.Rejected? || !Verify(w.envelope, site, w.uid, if current.Ok? then current.plan.revision else 1).Ok?
      then End(s, id)
      else Become(s, id, Rereading)
    case Rereading =>
      if name in s.slots && s.slots[name].envelope.plan.revision == w.envelope.plan.revision then End(s, id)
      else Become(s, id, Writing(SlotAt(s.slots, name)))
    case Writing(seen) =>
      if !Unwritten(s.slots, name, seen) then End(s, id)
      else End(s, id).(slots := s.slots[name := Slot(if seen.None? then 1 else seen.value.version + 1, w.envelope)])
  }

  function Do(site: string, s: State, e: Event): State
    requires Enabled(s, e)
  {
    match e
    case Begin(id, uid, envelope) => s.(workers := s.workers[id := Worker(uid, envelope, Loading)])
    case Call(id) => DoCall(site, s, id)
    case Stop(id) => End(s, id)
  }

  const START := State(map[], map[])

  ghost predicate Run(site: string, ss: seq<State>, es: seq<Event>) {
    && |ss| == |es| + 1 && ss[0] == START
    && forall i :: 0 <= i < |es| ==> Enabled(ss[i], es[i]) && ss[i + 1] == Do(site, ss[i], es[i])
  }

  /** The calls of one store, without another worker in between. */
  function Calls(site: string, s: State, id: nat, n: nat): State
    decreases n
  {
    if n == 0 || id !in s.workers then s else Calls(site, DoCall(site, s, id), id, n - 1)
  }

  /** Three calls in a row are the store of the one-step model. */
  lemma UndisturbedCallsAreStore(site: string, s: State, id: nat)
    requires id in s.workers && s.workers[id].step.Loading?
    ensures
      var w := s.workers[id];
      EntriesOf(Calls(site, s, id, 3).slots) == StoreInto(EntriesOf(s.slots), site, w.envelope, w.uid).0
  {
    var s1 := DoCall(site, s, id);
    assert s1.slots == s.slots;
    if id in s1.workers {
      var s2 := DoCall(site, s1, id);
      assert Calls(site, s, id, 3) == Calls(site, s1, id, 2) == Calls(site, s2, id, 1);
      if id in s2.workers {
        assert Calls(site, s2, id, 1) == DoCall(site, s2, id);
      }
    }
  }

  // ------------------------------------------------------------------------------------
  // What one write does
  // ------------------------------------------------------------------------------------

  /** A version stands for one content, and a worker past its load has a genuine plan. */
  predicate Honest(site: string, slots: Slots, w: Worker) {
    && (!w.step.Loading? ==> Verify(w.envelope, site, w.uid, 1).Ok?)
    && (w.step.Writing? && w.step.seen.Some? ==>
          && CacheName(w.uid) in slots && w.step.seen.value.version <= slots[CacheName(w.uid)].version
          && (w.step.seen.value.version == slots[CacheName(w.uid)].version ==> w.step.seen.value == slots[CacheName(w.uid)])
          && w.step.seen.value.envelope.plan.revision != w.envelope.plan.revision)
  }

  predicate Inv(site: string, s: State) {
    && PlanCache.Inv(site, EntriesOf(s.slots))
    && forall id :: id in s.workers ==> Honest(site, s.slots, s.workers[id])
  }

  lemma WriteKeeps(site: string, s: State, id: nat)
    requires Inv(site, s) && id in s.workers && s.workers[id].step.Writing?
    ensures Inv(site, DoCall(site, s, id))
  {
    var w := s.workers[id];
    var t := DoCall(site, s, id);
    forall k | k in t.workers ensures Honest(site, t.slots, t.workers[k]) {
      assert Honest(site, s.slots, s.workers[k]);
    }
    assert EntriesOf(t.slots) == EntriesOf(s.slots) || EntriesOf(t.slots) == EntriesOf(s.slots)[CacheName(w.uid) := w.envelope];
  }

  lemma StepKeeps(site: string, s: State, e: Event)
    requires Inv(site, s) && Enabled(s, e)
    ensures Inv(site, Do(site, s, e))
  {
    if e.Call? && s.workers[e.id].step.Writing? {
      WriteKeeps(site, s, e.id);
    } else if e.Call? {
      assert Honest(site, s.slots, s.workers[e.id]);
    }
  }

  lemma {:induction false} RunKeeps(site: string, ss: seq<State>, es: seq<Event>, i: nat)
    requires Run(site, ss, es) && i < |ss|
    ensures Inv(site, ss[i])
  {
    if i > 0 {
      RunKeeps(site, ss, es, i - 1);
      StepKeeps(site, ss[i - 1], es[i - 1]);
    }
  }

  /** The second read found another instance's plan, or a newer one. */
  predicate Overtaken(w: Worker) {
    w.step.Writing? && w.step.seen.Some? &&
    var plan := w.step.seen.value.envelope.plan;
    plan.instanceUid != w.uid || plan.revision > w.envelope.plan.revision
  }

  /**
    In every run, a step takes the cache back, or to another instance, exactly when it is a write
    that goes through for a worker whose second read found a newer plan or another instance's plan.
  */
  lemma StepGoesBackExactly(site: string, ss: seq<State>, es: seq<Event>, i: nat)
    requires Run(site, ss, es) && i < |es|
    ensures
      var e := es[i];
      !Forward(EntriesOf(ss[i].slots), EntriesOf(ss[i + 1].slots)) <==>
      && e.Call? && Overtaken(ss[i].workers[e.id])
      && Unwritten(ss[i].slots, CacheName(ss[i].workers[e.id].uid), ss[i].workers[e.id].step.seen)
  {
    RunKeeps(site, ss, es, i);
    StepBack(site, ss[i], es[i]);
  }

  lemma StepBack(site: string, s: State, e: Event)
    requires Inv(site, s) && Enabled(s, e)
    ensures
      !Forward(EntriesOf(s.slots), EntriesOf(Do(site, s, e).slots)) <==>
      && e.Call? && Overtaken(s.workers[e.id])
      && Unwritten(s.slots, CacheName(s.workers[e.id].uid), s.workers[e.id].step.seen)
  {
    if e.Call? && s.workers[e.id].step.Writing? {
      var w := s.workers[e.id];
      var name := CacheName(w.uid);
      assert Honest(site, s.slots, w);
      var before, after := EntriesOf(s.slots), EntriesOf(Do(site, s, e).slots);
      if Unwritten(s.slots, name, w.step.seen) {
        assert after == before[name := w.envelope];
        assert name in before ==> before[name] == w.step.seen.value.envelope;
      } else {
        assert after == before;
      }
    } else {
      assert Do(site, s, e).slots == s.slots;
    }
  }

  // ------------------------------------------------------------------------------------
  // One worker per cache name
  // ------------------------------------------------------------------------------------

  /** A worker begins only after every worker of its cache name has been stopped for good. */
  predicate Exclusive(s: State, e: Event) {
    e.Begin? ==> forall id :: id in s.workers ==> CacheName(s.workers[id].uid) != CacheName(e.uid)
  }

  /** Between its load and its write nobody else writes a worker's entry. */
  predicate Undisturbed(slots: Slots, w: Worker) {
    !w.step.Loading? && CacheName(w.uid) in slots ==>
      && slots[CacheName(w.uid)].envelope.plan.instanceUid == w.uid
      && slots[CacheName(w.uid)].envelope.plan.revision <= w.envelope.plan.revision
  }

  predicate Alone(s: State) {
    && (forall i, j :: i in s.workers && j in s.workers && CacheName(s.workers[i].uid) == CacheName(s.workers[j].uid) ==> i == j)
    && (forall id :: id in s.workers ==> Undisturbed(s.slots, s.workers[id]) && !Overtaken(s.workers[id]))
  }

  lemma ExclusiveKeeps(site: string, s: State, e: Event)
    requires Inv(site, s) && Alone(s) && Enabled(s, e) && Exclusive(s, e)
    ensures Alone(Do(site, s, e)) && Forward(EntriesOf(s.slots), EntriesOf(Do(site, s, e).slots))
  {
    StepBack(site, s, e);
    var t := Do(site, s, e);
    forall id | id in t.workers
      ensures Undisturbed(t.slots, t.workers[id]) && !Overtaken(t.workers[id])
    {
      if id in s.workers {
        assert Undisturbed(s.slots, s.workers[id]) && !Overtaken(s.workers[id]);
        if e.Call? && e.id == id && s.workers[id].step.Loading? {
          LoadedIsUndisturbed(site, s, id);
        }
      }
    }
  }

  lemma LoadedIsUndisturbed(site: string, s: State, id: nat)
    requires id in s.workers && s.workers[id].step.Loading? && id in DoCall(site, s, id).workers
    ensures Undisturbed(s.slots, DoCall(site, s, id).workers[id])
  {
  }

  lemma {:induction false} ExclusiveRunKeeps(site: string, ss: seq<State>, es: seq<Event>, i: nat)
    requires Run(site, ss, es) && i < |ss| && forall k :: 0 <= k < |es| ==> Exclusive(ss[k], es[k])
    ensures Inv(site, ss[i]) && Alone(ss[i])
  {
    if i > 0 {
      ExclusiveRunKeeps(site, ss, es, i - 1);
      StepKeeps(site, ss[i - 1], es[i - 1]);
      ExclusiveKeeps(site, ss[i - 1], es[i - 1]);
    }
  }

  lemma ForwardTransitive(a: Entries, b: Entries, c: Entries)
    requires Forward(a, b) && Forward(b, c)
    ensures Forward(a, c)
  {
  }

  /**
    In every interleaving of calls in which a worker begins only after the others of its cache name
    have stopped: cached revisions never decrease, a revision has one content, and no entry is taken
    over by another instance.
  */
  lemma {:induction false} CacheMovesForwardCallByCall(site: string, ss: seq<State>, es: seq<Event>, i: nat, j: nat)
    requires Run(site, ss, es) && i <= j < |ss| && forall k :: 0 <= k < |es| ==> Exclusive(ss[k], es[k])
    ensures Forward(EntriesOf(ss[i].slots), EntriesOf(ss[j].slots))
  {
    if i < j {
      CacheMovesForwardCallByCall(site, ss, es, i, j - 1);
      ExclusiveRunKeeps(site, ss, es, j - 1);
      ExclusiveKeeps(site, ss[j - 1], es[j - 1]);
      ForwardTransitive(EntriesOf(ss[i].slots), EntriesOf(ss[j - 1].slots), EntriesOf(ss[j].slots));
    }
  }

  /** UIDs of at most forty characters without capitals and underscores have names of their own. */
  predicate Plain(uid: string) {
    |uid| <= 40 && forall i :: 0 <= i < |uid| ==> !('A' <= uid[i] <= 'Z') && uid[i] != '_'
  }

  /** For such UIDs one worker per instance is one worker per cache name. */
  lemma PlainNamesAreDistinct(a: string, b: string)
    requires Plain(a) && Plain(b)
    ensures CacheName(a) == CacheName(b) <==> a == b
  {
    NameOfPlain(a);
    NameOfPlain(b);
    var prefix := "multisite-postgres-plan-";
    if prefix + a == prefix + b {
      assert a == (prefix + a)[|prefix|..] == (prefix + b)[|prefix|..] == b;
    }
  }

  lemma NameOfPlain(uid: string)
    requires Plain(uid)
    ensures CacheName(uid) == "multisite-postgres-plan-" + uid
  {
    assert seq(|uid|, i requires 0 <= i < |uid| => Normalize(uid[i])) == uid;
  }

  // ------------------------------------------------------------------------------------
  // Two workers at once
  // ------------------------------------------------------------------------------------

  ghost predicate Reachable(site: string, s: State) {
    exists ss, es :: Run(site, ss, es) && ss[|es|] == s
  }

  lemma ReachStep(site: string, s: State, e: Event) returns (t: State)
    requires Reachable(site, s) && Enabled(s, e)
    ensures t == Do(site, s, e) && Reachable(site, t)
  {
    t := Do(site, s, e);
    var ss, es :| Run(site, ss, es) && ss[|es|] == s;
    assert Run(site, ss + [t], es + [e]) && (ss + [t])[|es + [e]|] == t;
  }

  /**
    Two workers with different plans under one cache name both load before either writes. The second
    plan is stored, and then the first: a newer revision gives way to an older one of the instance,
    or an instance loses its entry to another.
  */
  lemma InterleavedStoresGoBack(site: string, a: Envelope, b: Envelope) returns (s: State, t: State)
    requires Verify(a, site, a.plan.instanceUid, 1).Ok? && Verify(b, site, b.plan.instanceUid, 1).Ok?
    requires CacheName(a.plan.instanceUid) == CacheName(b.plan.instanceUid)
    requires a.plan.revision < b.plan.revision || (a.plan.instanceUid != b.plan.instanceUid && a.plan.revision != b.plan.revision)
    ensures Reachable(site, s) && Reachable(site, t)
    ensures
      var name := CacheName(a.plan.instanceUid);
      EntriesOf(s.slots) == map[name := b] && EntriesOf(t.slots) == map[name := a]
    ensures !Forward(EntriesOf(s.slots), EntriesOf(t.slots))
  {
    s := LoadBoth(site, a, b);
    s := StoreSecond(site, s, a, b);
    t := ReachStep(site, s, Call(1));
    t := ReachStep(site, t, Call(1));
  }

  lemma LoadBoth(site: string, a: Envelope, b: Envelope) returns (s: State)
    requires Verify(a, site, a.plan.instanceUid, 1).Ok? && Verify(b, site, b.plan.instanceUid, 1).Ok?
    ensures Reachable(site, s)
    ensures s == State(map[], map[1 := Worker(a.plan.instanceUid, a, Rereading), 2 := Worker(b.plan.instanceUid, b, Rereading)])
  {
    var none: seq<Event> := [];
    assert Run(site, [START], none) && [START][|none|] == START;
    s := ReachStep(site, START, Begin(1, a.plan.instanceUid, a));
    s := ReachStep(site, s, Begin(2, b.plan.instanceUid, b));
    s := ReachStep(site, s, Call(1));
    s := ReachStep(site, s, Call(2));
  }

  lemma StoreSecond(site: string, s: State, a: Envelope, b: Envelope) returns (t: State)
    requires Reachable(site, s)
    requires s == State(map[], map[1 := Worker(a.plan.instanceUid, a, Rereading), 2 := Worker(b.plan.instanceUid, b, Rereading)])
    ensures Reachable(site, t)
    ensures t == State(map[CacheName(b.plan.instanceUid) := Slot(1, b)], map[1 := Worker(a.plan.instanceUid, a, Rereading)])
  {
    t := ReachStep(site, s, Call(2));
    t := ReachStep(site, t, Call(2));
  }
}
