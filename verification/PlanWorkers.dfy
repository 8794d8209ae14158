/**
  Plan delivery on one connection: the hub's send loop, and the agent's table of plan workers.
*/
module PlanWorkers {
  import opened Common

  // ------------------------------------------------------------------------------------
  // The send loop
  // ------------------------------------------------------------------------------------

  datatype Message = Message(instance: string, revision: nat)

  /** Later messages for one instance carry greater revisions. */
  predicate Increasing(ms: seq<Message>) {
    forall i, j :: 0 <= i < j < |ms| && ms[i].instance == ms[j].instance ==> ms[i].revision < ms[j].revision
  }

  class Sender {
    var sent: map<string, nat>
    var stream: seq<Message>

    constructor ()
      ensures Valid() && stream == []
    {
      sent, stream := map[], [];
    }

    /** `sent` is the last revision on the stream, per instance. */
    ghost predicate Valid()
      reads this
    {
      && Increasing(stream)
      && (forall i :: 0 <= i < |stream| ==> stream[i].instance in sent && stream[i].revision <= sent[stream[i].instance])
      && (forall u :: u in sent ==> Message(u, sent[u]) in stream)
    }

    /** One round over the listed plans, whatever revisions the listing shows. */
    method SendPlans(listed: seq<Message>)
      requires Valid()
      modifies this
      ensures Valid() && old(stream) <= stream
      ensures forall m :: m in stream[|old(stream)|..] ==> m in listed
      ensures forall i :: 0 <= i < |listed| && listed[i].revision > 0 ==>
                listed[i].instance in sent && listed[i].revision <= sent[listed[i].instance]
    {
      for k := 0 to |listed|
        invariant Valid() && old(stream) <= stream
        invariant forall m :: m in stream[|old(stream)|..] ==> m in listed
        invariant forall i :: 0 <= i < k && listed[i].revision > 0 ==>
                    listed[i].instance in sent && listed[i].revision <= sent[listed[i].instance]
      {
        ghost var before := stream;
        SendOne(listed[k]);
        assert stream[|old(stream)|..] == before[|old(stream)|..] + stream[|before|..];
      }
    }

    /** A plan is sent if it is newer than the last one sent for its instance. */
    method SendOne(m: Message)
      requires Valid()
      modifies this
      ensures Valid() && old(sent).Keys <= sent.Keys && forall u :: u in old(sent) ==> old(sent)[u] <= sent[u]
      ensures stream == old(stream) || stream == old(stream) + [m]
      ensures m.revision > 0 ==> m.instance in sent && m.revision <= sent[m.instance]
    {
      if (if m.instance in sent then sent[m.instance] else 0) < m.revision {
        stream := stream + [m];
        sent := sent[m.instance := m.revision];
        assert m in stream;
      }
    }
  }

  // ------------------------------------------------------------------------------------
  // The worker table
  // ------------------------------------------------------------------------------------

  /** A started worker. It runs on after being cancelled until it notices. */
  datatype Worker = Worker(instance: string, revision: nat, cancelled: bool)

  /** `workers` holds every worker ever started; `running` those not yet reported back. */
  datatype State = State(workers: seq<Worker>, running: set<nat>, table: map<string, nat>)

  datatype Event = Plan(message: Message) | Completion(worker: nat)

  predicate WellFormed(s: State) {
    && (forall w :: w in s.running ==> w < |s.workers|)
    && (forall u :: u in s.table ==>
          s.table[u] in s.running && s.table[u] < |s.workers| && s.workers[s.table[u]].instance == u
          && !s.workers[s.table[u]].cancelled)
  }

  predicate Accepted(s: State, m: Message) {
    m.instance in s.table && s.table[m.instance] < |s.workers| ==> s.workers[s.table[m.instance]].revision < m.revision
  }

  function DoPlan(s: State, m: Message): State {
    if !Accepted(s, m) then s
    else
      var cancelled :=
        if m.instance in s.table && s.table[m.instance] < |s.workers|
        then s.workers[s.table[m.instance] := s.workers[s.table[m.instance]].(cancelled := true)]
        else s.workers;
      State(cancelled + [Worker(m.instance, m.revision, false)], s.running + {|s.workers|},
            s.table[m.instance := |s.workers|])
  }

  /** A worker reports back: the table forgets the entry of that instance if the revision is the same. */
  function DoCompletion(s: State, w: nat): State
    requires w < |s.workers|
  {
    var u := s.workers[w].instance;
    var same := u in s.table && s.table[u] < |s.workers| && s.workers[s.table[u]].revision == s.workers[w].revision;
    s.(running := s.running - {w}, table := if same then s.table - {u} else s.table)
  }

  predicate Enabled(s: State, e: Event) { e.Completion? ==> e.worker in s.running && e.worker < |s.workers| }

  function Do(s: State, e: Event): State
    requires Enabled(s, e)
  {
    match e
    case Plan(m) => DoPlan(s, m)
    case Completion(w) => DoCompletion(s, w)
  }

  class WorkerTable {
    var state: State

    constructor ()
      ensures state == State([], {}, map[])
    {
      state := State([], {}, map[]);
    }

    method OnPlan(m: Message)
      requires WellFormed(state)
      modifies this
      ensures state == DoPlan(old(state), m)
    {
      var workers := state.workers;
      if m.instance in state.table {
        var superseded := state.table[m.instance];
        if workers[superseded].revision >= m.revision {
          return;
        }
        workers := workers[superseded := workers[superseded].(cancelled := true)];
      }
      state := State(workers + [Worker(m.instance, m.revision, false)], state.running + {|workers|},
                     state.table[m.instance := |workers|]);
    }

    method OnCompletion(w: nat)
      requires WellFormed(state) && w in state.running
      modifies this
      ensures state == DoCompletion(old(state), w)
    {
      var worker := state.workers[w];
      var table := state.table;
      if worker.instance in table && state.workers[table[worker.instance]].revision == worker.revision {
        table := table - {worker.instance};
      }
      state := state.(running := state.running - {w}, table := table);
    }
  }

  /** Every uncancelled running worker has the entry of its instance; so there is one at most. */
  predicate OneLiveWorker(s: State) {
    && WellFormed(s)
    && (forall w :: w in s.running && !s.workers[w].cancelled ==>
          s.workers[w].instance in s.table && s.table[s.workers[w].instance] == w)
  }

  /** Running workers of one instance have different revisions. */
  predicate DistinctRevisions(s: State) {
    WellFormed(s) &&
    forall v, w :: v in s.running && w in s.running && v != w && s.workers[v].instance == s.workers[w].instance ==>
      s.workers[v].revision != s.workers[w].revision
  }

  predicate Repeats(s: State, m: Message) {
    exists w :: w in s.running && w < |s.workers| && s.workers[w].instance == m.instance && s.workers[w].revision == m.revision
  }

  lemma PlanKeepsOne(s: State, m: Message)
    requires OneLiveWorker(s)
    ensures OneLiveWorker(DoPlan(s, m))
  {
  }

  lemma PlanKeepsDistinct(s: State, m: Message)
    requires DistinctRevisions(s) && !Repeats(s, m) && WellFormed(DoPlan(s, m))
    ensures DistinctRevisions(DoPlan(s, m))
  {
    if Accepted(s, m) {
      var t := DoPlan(s, m);
      assert forall w :: w in s.running ==>
          t.workers[w].instance == s.workers[w].instance && t.workers[w].revision == s.workers[w].revision;
    }
  }

  /** A completion touches no entry but that of the completed worker. */
  lemma CompletionKeeps(s: State, w: nat)
    requires OneLiveWorker(s) && DistinctRevisions(s) && w in s.running
    ensures OneLiveWorker(DoCompletion(s, w)) && DistinctRevisions(DoCompletion(s, w))
    ensures forall u :: u in s.table && s.table[u] != w ==>
              u in DoCompletion(s, w).table && DoCompletion(s, w).table[u] == s.table[u]
  {
  }

  ghost predicate Run(ss: seq<State>, es: seq<Event>) {
    && |ss| == |es| + 1 && ss[0] == State([], {}, map[])
    && forall i :: 0 <= i < |es| ==> Enabled(ss[i], es[i]) && ss[i + 1] == Do(ss[i], es[i])
  }

  /** The revision that the table has for an instance. */
  function Entry(s: State, u: string): Option<nat> {
    if u in s.table && s.table[u] < |s.workers| then Some(s.workers[s.table[u]].revision) else None
  }

  /**
    A plan starts a worker exactly when the table has no entry of that revision or a newer one for its
    instance; the worker then has the entry, and the one it takes over from is cancelled.
  */
  lemma PlanTakesEntryExactly(s: State, m: Message)
    requires WellFormed(s)
    ensures
      var t := DoPlan(s, m);
      if Entry(s, m.instance).Some? && m.revision <= Entry(s, m.instance).value then t == s
      else
        && t.workers[..|s.workers|] == (if m.instance in s.table
                                        then s.workers[s.table[m.instance] := s.workers[s.table[m.instance]].(cancelled := true)]
                                        else s.workers)
        && t.workers[|s.workers|..] == [Worker(m.instance, m.revision, false)]
        && t.running == s.running + {|s.workers|} && t.table == s.table[m.instance := |s.workers|]
  {
  }

  /** A completion ends its worker, and gives up the entry of its instance exactly when that has its revision. */
  lemma CompletionFreesExactly(s: State, w: nat)
    requires WellFormed(s) && w in s.running
    ensures
      var t, u := DoCompletion(s, w), s.workers[w].instance;
      && t.workers == s.workers && t.running == s.running - {w}
      && (forall x :: x != u ==> Entry(t, x) == Entry(s, x))
      && Entry(t, u) == if Entry(s, u) == Some(s.workers[w].revision) then None else Entry(s, u)
  {
  }

  /** The plans of an instance arrive with increasing revisions, as the send loop sends them. */
  predicate IncreasingPlans(es: seq<Event>) {
    forall i, j :: 0 <= i < j < |es| && es[i].Plan? && es[j].Plan? && es[i].message.instance == es[j].message.instance ==>
      es[i].message.revision < es[j].message.revision
  }

  function PlansOf(es: seq<Event>): seq<Message> {
    if es == [] then []
    else PlansOf(es[..|es| - 1]) + (if es[|es| - 1].Plan? then [es[|es| - 1].message] else [])
  }

  lemma {:induction false} PlansAreListed(es: seq<Event>, i: nat)
    requires i < |es| && es[i].Plan?
    ensures es[i].message in PlansOf(es)
  {
    if i < |es| - 1 {
      PlansAreListed(es[..|es| - 1], i);
    }
  }

  /** What a sender put on the stream in order arrives as increasing plans. */
  lemma {:induction false} StreamIsIncreasing(es: seq<Event>)
    requires Increasing(PlansOf(es))
    ensures IncreasingPlans(es)
  {
    if es != [] {
      var n := |es| - 1;
      var before := PlansOf(es[..n]);
      forall i, j | 0 <= i < j < |before| && before[i].instance == before[j].instance
        ensures before[i].revision < before[j].revision
      {
        assert PlansOf(es)[i] == before[i] && PlansOf(es)[j] == before[j];
      }
      StreamIsIncreasing(es[..n]);
      forall i | 0 <= i < n && es[i].Plan? && es[n].Plan? && es[i].message.instance == es[n].message.instance
        ensures es[i].message.revision < es[n].message.revision
      {
        PlansAreListed(es[..n], i);
        var k :| 0 <= k < |before| && before[k] == es[i].message;
        assert PlansOf(es)[k] == before[k] && PlansOf(es)[|before|] == es[n].message;
      }
      assert forall i, j :: 0 <= i < j < n ==> es[..n][i] == es[i] && es[..n][j] == es[j];
    }
  }

  ghost predicate Arrived(es: seq<Event>, i: nat, m: Message)
    requires i <= |es|
  {
    exists k :: 0 <= k < i && es[k] == Plan(m)
  }

  /** Every started worker stems from a plan message that has arrived. */
  ghost predicate Traced(s: State, es: seq<Event>, i: nat)
    requires i <= |es|
  {
    forall w :: 0 <= w < |s.workers| ==> Arrived(es, i, Message(s.workers[w].instance, s.workers[w].revision))
  }

  lemma StepTraced(s: State, es: seq<Event>, i: nat)
    requires i < |es| && Traced(s, es, i) && Enabled(s, es[i])
    ensures Traced(Do(s, es[i]), es, i + 1)
  {
    var t := Do(s, es[i]);
    forall w | 0 <= w < |t.workers|
      ensures Arrived(es, i + 1, Message(t.workers[w].instance, t.workers[w].revision))
    {
      if w < |s.workers| {
        assert Arrived(es, i, Message(s.workers[w].instance, s.workers[w].revision));
      } else {
        assert es[i] == Plan(Message(t.workers[w].instance, t.workers[w].revision));
      }
    }
  }

  /**
    On one connection there is never more than one uncancelled worker per instance, and the
    completion of a superseded worker never removes the newer entry.
  */
  lemma {:induction false} OneWorkerPerInstance(ss: seq<State>, es: seq<Event>, i: nat)
    requires Run(ss, es) && Increasing(PlansOf(es)) && i < |ss|
    ensures OneLiveWorker(ss[i]) && DistinctRevisions(ss[i]) && Traced(ss[i], es, i)
    ensures i < |es| && es[i].Completion? ==>
              forall u :: u in ss[i].table && ss[i].table[u] != es[i].worker ==>
                u in ss[i + 1].table && ss[i + 1].table[u] == ss[i].table[u]
  {
    StreamIsIncreasing(es);
    if i > 0 {
      var s, e := ss[i - 1], es[i - 1];
      OneWorkerPerInstance(ss, es, i - 1);
      StepTraced(s, es, i - 1);
      if e.Plan? {
        PlanKeepsOne(s, e.message);
        NotRepeated(s, es, i - 1);
        PlanKeepsDistinct(s, e.message);
      } else {
        CompletionKeeps(s, e.worker);
      }
    }
    if i < |es| && es[i].Completion? {
      CompletionKeeps(ss[i], es[i].worker);
    }
  }

  lemma NotRepeated(s: State, es: seq<Event>, i: nat)
    requires i < |es| && IncreasingPlans(es) && Traced(s, es, i) && es[i].Plan?
    ensures !Repeats(s, es[i].message)
  {
    forall w | w in s.running && w < |s.workers| && s.workers[w].instance == es[i].message.instance
      ensures s.workers[w].revision != es[i].message.revision
    {
      assert Arrived(es, i, Message(s.workers[w].instance, s.workers[w].revision));
    }
  }

  /**
    Without that order the table can lose a live worker: after an accepted plan, the completion of
    some older worker removes the new entry exactly when a running worker repeats the revision.
  */
  lemma EntryIsLostExactly(s: State, m: Message)
    requires OneLiveWorker(s) && Accepted(s, m)
    ensures
      var t := DoPlan(s, m);
      (exists w :: w in s.running && w in t.running && w < |t.workers| && m.instance !in DoCompletion(t, w).table)
      <==> Repeats(s, m)
  {
    var t := DoPlan(s, m);
    assert t.workers[t.table[m.instance]].revision == m.revision;
    assert forall w :: w in s.running ==>
        w in t.running && t.workers[w].instance == s.workers[w].instance && t.workers[w].revision == s.workers[w].revision;
    if Repeats(s, m) {
      var w :| w in s.running && w < |s.workers| && s.workers[w].instance == m.instance && s.workers[w].revision == m.revision;
      assert m.instance !in DoCompletion(t, w).table;
    }
  }

  /** Revision 5, superseded by 6, which finishes; 5 again; and then the first worker reports back. */
  lemma RepeatedRevisionLosesWorker(u: string)
    ensures
      var s1 := DoPlan(DoPlan(State([], {}, map[]), Message(u, 5)), Message(u, 6));
      var s2 := DoPlan(DoCompletion(s1, 1), Message(u, 5));
      && 0 in s2.running && 2 in s2.running && !s2.workers[2].cancelled && s2.table == map[u := 2]
      && DoCompletion(s2, 0).table == map[] && 2 in DoCompletion(s2, 0).running
  {
  }
}
