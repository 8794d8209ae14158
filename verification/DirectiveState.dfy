/**
  Durable directive results on an agent.

  A handler of a delivered directive is a sequence of single steps, and the agent may crash
  between any two of them. An operation has one handler at a time; directives are delivered
  and redelivered in any order.
*/
module DirectiveState {
  import opened Common

  datatype ConditionStatus = True | False | Unknown

  datatype Condition = Condition(kind: string, status: ConditionStatus)

  datatype Phase = Running | Succeeded | Failed

  datatype Record = Record(instance: string, phase: Phase, conditions: seq<Condition>)

  type Store = map<string, Record>

  const SUCCEEDED := "Succeeded"

  predicate Terminal(r: Record) { r.phase == Succeeded || r.phase == Failed }

  /** A terminal record is never overwritten. */
  function Upsert(store: Store, op: string, r: Record): Store {
    if op in store && Terminal(store[op]) then store else store[op := r]
  }

  predicate ReportsFailure(cs: seq<Condition>) {
    exists i :: 0 <= i < |cs| && cs[i].kind == SUCCEEDED && cs[i].status == False
  }

  function TerminalRecord(instance: string, cs: seq<Condition>): Record {
    Record(instance, if ReportsFailure(cs) then Failed else Succeeded, cs)
  }

  class StateStore {
    var records: Store

    constructor ()
      ensures records == map[]
    {
      records := map[];
    }

    method MarkRunning(op: string, instance: string)
      modifies this
      ensures records == Upsert(old(records), op, Record(instance, Running, []))
    {
      if op in records && (records[op].phase == Succeeded || records[op].phase == Failed) {
        return;
      }
      records := records[op := Record(instance, Running, [])];
    }

    method MarkTerminal(op: string, instance: string, conditions: seq<Condition>)
      modifies this
      ensures records == Upsert(old(records), op, TerminalRecord(instance, conditions))
    {
      var phase := Succeeded;
      for k := 0 to |conditions|
        invariant records == old(records)
        invariant phase == Succeeded && !ReportsFailure(conditions[..k])
      {
        if conditions[k].kind == SUCCEEDED && conditions[k].status == False {
          phase := Failed;
          assert ReportsFailure(conditions);
          break;
        }
      }
      assert phase == Succeeded ==> conditions[..|conditions|] == conditions;
      if op in records && (records[op].phase == Succeeded || records[op].phase == Failed) {
        return;
      }
      records := records[op := Record(instance, phase, conditions)];
    }
  }

  /** The hub's reading of a reported result. */
  method DirectiveSucceeded(reported: seq<Condition>) returns (ok: bool)
    ensures ok <==> HubSucceeded(reported)
  {
    var found := false;
    for k := 0 to |reported|
      invariant found <==> exists i :: 0 <= i < k && reported[i].kind == SUCCEEDED
      invariant forall i :: 0 <= i < k && reported[i].kind == SUCCEEDED ==> reported[i].status == True
    {
      if reported[k].kind == SUCCEEDED {
        found := true;
        if reported[k].status != True {
          return false;
        }
      }
    }
    return found;
  }

  predicate HubSucceeded(cs: seq<Condition>) {
    && (exists i :: 0 <= i < |cs| && cs[i].kind == SUCCEEDED)
    && forall i :: 0 <= i < |cs| && cs[i].kind == SUCCEEDED ==> cs[i].status == True
  }

  /** A condition list on which agent and hub differ: nothing says that it failed, nothing plainly that it succeeded. */
  predicate Ambiguous(cs: seq<Condition>) {
    && (forall i :: 0 <= i < |cs| && cs[i].kind == SUCCEEDED ==> cs[i].status != False)
    && ((forall i :: 0 <= i < |cs| ==> cs[i].kind != SUCCEEDED)
        || (exists i :: 0 <= i < |cs| && cs[i].kind == SUCCEEDED && cs[i].status == Unknown))
  }

  /** The stored verdict and the hub's verdict differ exactly on ambiguous lists, the empty one among them. */
  lemma VerdictsDifferExactly(instance: string, cs: seq<Condition>)
    ensures (TerminalRecord(instance, cs).phase == Succeeded) != HubSucceeded(cs) <==> Ambiguous(cs)
    ensures Ambiguous([]) && TerminalRecord(instance, []).phase == Succeeded && !HubSucceeded([])
  {
  }

  /**
    What an executor returns: on success the one Succeeded condition of the finished Job, followed
    by other evidence; with an error, whatever it had collected.
  */
  predicate ExecutorReturns(cs: seq<Condition>, failed: bool) {
    !failed ==>
      && cs != [] && cs[0] == Condition(SUCCEEDED, True)
      && forall i :: 1 <= i < |cs| ==> cs[i].kind != SUCCEEDED
  }

  /** The handler adds a false Succeeded condition to the conditions of a failed execution. */
  function Collected(cs: seq<Condition>, failed: bool): seq<Condition> {
    if failed then cs + [Condition(SUCCEEDED, False)] else cs
  }

  /** Agent and hub agree on every result that a handler can collect, and on what happened. */
  lemma CollectedResultsAgree(instance: string, cs: seq<Condition>, failed: bool)
    requires ExecutorReturns(cs, failed)
    ensures
      var result := Collected(cs, failed);
      && !Ambiguous(result)
      && (TerminalRecord(instance, result).phase == Succeeded <==> !failed)
      && (HubSucceeded(result) <==> !failed)
  {
    if failed {
      var result := Collected(cs, failed);
      assert result[|cs|].kind == SUCCEEDED && result[|cs|].status == False;
    }
  }

  // ------------------------------------------------------------------------------------
  // Handlers
  // ------------------------------------------------------------------------------------

  datatype Step =
    | Loading
    | Marking
    | Executing
    | Storing(conditions: seq<Condition>)
    | Reporting(conditions: seq<Condition>)

  datatype Handler = Handler(instance: string, step: Step)

  /** An execution or a report, of an operation for an instance. `executed` and `reports` are history. */
  datatype State = State(
    store: Store,
    handlers: map<string, Handler>,
    executed: seq<(string, string)>,
    reports: seq<(string, string, seq<Condition>)>)

  datatype Event = Deliver(op: string, instance: string) | Advance(op: string, outcome: seq<Condition>) | Crash(op: string)

  predicate Enabled(s: State, e: Event) {
    if e.Deliver? then e.op !in s.handlers else e.op in s.handlers
  }

  function At(s: State, op: string, step: Step): State
    requires op in s.handlers
  {
    s.(handlers := s.handlers[op := s.handlers[op].(step := step)])
  }

  predicate Answered(s: State, op: string, instance: string) {
    op in s.store && s.store[op].instance == instance && Terminal(s.store[op])
  }

  function DoAdvance(s: State, op: string, outcome: seq<Condition>): State
    requires op in s.handlers
  {
    var h := s.handlers[op];
    match h.step
    case Loading => if Answered(s, op, h.instance) then At(s, op, Reporting(s.store[op].conditions)) else At(s, op, Marking)
    case Marking => At(s, op, Executing).(store := Upsert(s.store, op, Record(h.instance, Running, [])))
    case Executing => At(s, op, Storing(outcome)).(executed := s.executed + [(op, h.instance)])
    case Storing(cs) => At(s, op, Reporting(cs)).(store := Upsert(s.store, op, TerminalRecord(h.instance, cs)))
    case Reporting(cs) => s.(handlers := s.handlers - {op}, reports := s.reports + [(op, h.instance, cs)])
  }

  function Do(s: State, e: Event): State
    requires Enabled(s, e)
  {
    match e
    case Deliver(op, instance) => s.(handlers := s.handlers[op := Handler(instance, Loading)])
    case Advance(op, outcome) => DoAdvance(s, op, outcome)
    case Crash(op) => s.(handlers := s.handlers - {op})
  }

  const START := State(map[], map[], [], [])

  /** Deliveries may name any instance. */
  ghost predicate Run(ss: seq<State>, es: seq<Event>) {
    && |ss| == |es| + 1 && ss[0] == START
    && forall i :: 0 <= i < |es| ==> Enabled(ss[i], es[i]) && ss[i + 1] == Do(ss[i], es[i])
  }

  predicate Stored(s: State, op: string) { op in s.store && Terminal(s.store[op]) }

  /** A handler works on an operation only while no result is stored for its own instance. */
  predicate HandlerInv(store: Store, op: string, h: Handler) {
    var stored := op in store && Terminal(store[op]);
    match h.step
    case Loading => true
    case Reporting(cs) => stored && (store[op].instance == h.instance ==> store[op].conditions == cs)
    case _ => stored ==> store[op].instance != h.instance
  }

  predicate Inv(s: State) {
    forall op :: op in s.handlers ==> HandlerInv(s.store, op, s.handlers[op])
  }

  /** What a step does to an operation whose result is stored: for that instance, at most report the result. */
  ghost predicate Final(s: State, t: State, op: string) {
    Stored(s, op) ==>
      && op in t.store && t.store[op] == s.store[op]
      && (t.executed == s.executed || exists x :: x != (op, s.store[op].instance) && t.executed == s.executed + [x])
      && (t.reports == s.reports
          || exists r :: t.reports == s.reports + [r] &&
                         (r.0 == op && r.1 == s.store[op].instance ==> r.2 == s.store[op].conditions))
  }

  lemma WriteKeeps(s: State, op: string, r: Record, h: Handler)
    requires Inv(s) && HandlerInv(Upsert(s.store, op, r), op, h)
    ensures Inv(s.(store := Upsert(s.store, op, r), handlers := s.handlers[op := h]))
  {
  }

  lemma StepKeeps(s: State, e: Event)
    requires Inv(s) && Enabled(s, e)
    ensures Inv(Do(s, e))
  {
    if e.Advance? {
      var h := s.handlers[e.op];
      match h.step
      case Marking => WriteKeeps(s, e.op, Record(h.instance, Running, []), h.(step := Executing));
      case Storing(cs) => WriteKeeps(s, e.op, TerminalRecord(h.instance, cs), h.(step := Reporting(cs)));
      case _ =>
    }
  }

  lemma StepIsFinal(s: State, e: Event, op: string)
    requires Inv(s) && Enabled(s, e)
    ensures Final(s, Do(s, e), op)
  {
    if e.Advance? {
      var t, h := DoAdvance(s, e.op, e.outcome), s.handlers[e.op];
      match h.step
      case Reporting(cs) =>
        var r := (e.op, h.instance, cs);
        assert t.reports == s.reports + [r];
      case Executing =>
        var x := (e.op, h.instance);
        assert t.executed == s.executed + [x];
      case _ =>
    }
  }

  lemma {:induction false} RunKeeps(ss: seq<State>, es: seq<Event>, i: nat)
    requires Run(ss, es) && i < |ss|
    ensures Inv(ss[i])
  {
    if i > 0 {
      RunKeeps(ss, es, i - 1);
      StepKeeps(ss[i - 1], es[i - 1]);
    }
  }

  /**
    In every run, whichever instances the deliveries name: once a terminal result is stored it never
    changes, the operation is never executed again for that instance, and every later report of it
    for that instance carries the stored conditions.
  */
  lemma {:induction false} StoredResultIsFinal(ss: seq<State>, es: seq<Event>, op: string, i: nat, j: nat)
    requires Run(ss, es) && i <= j < |ss| && Stored(ss[i], op)
    ensures op in ss[j].store && ss[j].store[op] == ss[i].store[op]
    ensures ss[i].executed <= ss[j].executed && (op, ss[i].store[op].instance) !in ss[j].executed[|ss[i].executed|..]
    ensures ss[i].reports <= ss[j].reports
    ensures forall k :: |ss[i].reports| <= k < |ss[j].reports| &&
                        ss[j].reports[k].0 == op && ss[j].reports[k].1 == ss[i].store[op].instance ==>
              ss[j].reports[k].2 == ss[i].store[op].conditions
  {
    if i < j {
      StoredResultIsFinal(ss, es, op, i, j - 1);
      RunKeeps(ss, es, j - 1);
      StepIsFinal(ss[j - 1], es[j - 1], op);
    }
  }

  /** A handler that executes, or has executed, has left a mark: its own, or a final one of another instance. */
  predicate Marked(store: Store, op: string, h: Handler) {
    h.step.Executing? || h.step.Storing? ==>
      op in store && (store[op] == Record(h.instance, Running, []) || (Terminal(store[op]) && store[op].instance != h.instance))
  }

  lemma {:induction false} RunMarks(ss: seq<State>, es: seq<Event>, i: nat, op: string)
    requires Run(ss, es) && i < |ss| && op in ss[i].handlers
    ensures Marked(ss[i].store, op, ss[i].handlers[op])
  {
    if i > 0 {
      RunKeeps(ss, es, i - 1);
      if op in ss[i - 1].handlers {
        RunMarks(ss, es, i - 1, op);
      }
    }
  }

  /** In every run, an operation is executed only after it was marked as running, or as done for another instance. */
  lemma ExecutionIsMarked(ss: seq<State>, es: seq<Event>, i: nat)
    requires Run(ss, es) && i < |es| && ss[i + 1].executed != ss[i].executed
    ensures es[i].Advance? && ss[i + 1].executed == ss[i].executed + [(es[i].op, ss[i].handlers[es[i].op].instance)]
    ensures
      var op, h := es[i].op, ss[i].handlers[es[i].op];
      op in ss[i].store &&
      (ss[i].store[op] == Record(h.instance, Running, []) || (Terminal(ss[i].store[op]) && ss[i].store[op].instance != h.instance))
  {
    RunMarks(ss, es, i, es[i].op);
  }

  // ------------------------------------------------------------------------------------
  // One operation for two instances
  // ------------------------------------------------------------------------------------

  /** A declared database or user. Its operation depends on the object alone, its instance is looked up by name. */
  datatype Declaration = Declaration(operation: string, instanceRef: string)

  /** The directive the hub sends for a declaration, given the instances by name. */
  function Directive(d: Declaration, instances: map<string, string>): Option<Event> {
    if d.instanceRef in instances then Some(Deliver(d.operation, instances[d.instanceRef])) else None
  }

  /** Three steps of a handler: load, mark and execute. */
  function Driven(s: State, op: string, instance: string, outcome: seq<Condition>): State
    requires op !in s.handlers
  {
    var s1 := Do(s, Deliver(op, instance));
    var s2 := DoAdvance(s1, op, outcome);
    var s3 := DoAdvance(s2, op, outcome);
    if op in s3.handlers then DoAdvance(s3, op, outcome) else s3
  }

  /**
    An answered operation that is delivered again executes exactly when the delivery names another
    instance; the stored record stays, so every further delivery for that instance executes too.
  */
  lemma ReexecutesExactly(s: State, op: string, instance: string, outcome: seq<Condition>)
    requires Stored(s, op) && op !in s.handlers
    ensures
      var t := Driven(s, op, instance, outcome);
      && (t.executed != s.executed <==> s.store[op].instance != instance)
      && (t.executed != s.executed ==> t.executed == s.executed + [(op, instance)])
      && t.store == s.store
  {
  }

  /** A result that is stored for the instance is reported again at every further delivery, without being executed. */
  lemma RedeliveryReportsStored(s: State, op: string, outcome: seq<Condition>)
    requires Stored(s, op) && op !in s.handlers
    ensures
      var s1 := Do(s, Deliver(op, s.store[op].instance));
      var s2 := DoAdvance(s1, op, outcome);
      op in s2.handlers &&
      DoAdvance(s2, op, outcome) == s.(reports := s.reports + [(op, s.store[op].instance, s.store[op].conditions)])
  {
    var s1 := Do(s, Deliver(op, s.store[op].instance));
    var s2 := DoAdvance(s1, op, outcome);
    assert s2.handlers - {op} == s.handlers;
  }

  ghost predicate Reachable(s: State) {
    exists ss, es :: Run(ss, es) && ss[|es|] == s
  }

  lemma ReachStep(s: State, e: Event) returns (t: State)
    requires Reachable(s) && Enabled(s, e)
    ensures t == Do(s, e) && Reachable(t)
  {
    t := Do(s, e);
    var ss, es :| Run(ss, es) && ss[|es|] == s;
    assert Run(ss + [t], es + [e]) && (ss + [t])[|es + [e]|] == t;
  }

  /** An operation is delivered, executed, stored and reported. */
  lemma Answer(op: string, instance: string, cs: seq<Condition>) returns (s: State)
    ensures Reachable(s) && op !in s.handlers
    ensures s.store == map[op := TerminalRecord(instance, cs)] && s.executed == [(op, instance)]
  {
    var none: seq<Event> := [];
    assert Run([START], none) && [START][|none|] == START;
    s := ReachStep(START, Deliver(op, instance));
    s := ReachStep(s, Advance(op, cs));
    s := ReachStep(s, Advance(op, cs));
    s := ReachStep(s, Advance(op, cs));
    s := ReachStep(s, Advance(op, cs));
    s := ReachStep(s, Advance(op, cs));
  }

  /**
    An instance is deleted and created again under its name: the declaration keeps its operation, the
    directive now names the new instance, and the agent executes an operation it has stored as done.
  */
  lemma RecreatedInstanceReexecutes(d: Declaration, first: string, second: string, cs: seq<Condition>)
    returns (s: State, t: State)
    requires first != second
    ensures Directive(d, map[d.instanceRef := first]) == Some(Deliver(d.operation, first))
    ensures Directive(d, map[d.instanceRef := second]) == Some(Deliver(d.operation, second))
    ensures Reachable(s) && Stored(s, d.operation) && Reachable(t)
    ensures t.executed == [(d.operation, first), (d.operation, second)] && t.store == s.store
  {
    s := Answer(d.operation, first, cs);
    t := ReachStep(s, Deliver(d.operation, second));
    t := ReachStep(t, Advance(d.operation, cs));
    t := ReachStep(t, Advance(d.operation, cs));
    t := ReachStep(t, Advance(d.operation, cs));
  }
}
