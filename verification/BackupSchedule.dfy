/**
  Scheduled backups: which slots a pass dispatches, and which directives the hub then trusts.

  A schedule is its `next` function, which gives the first slot after a moment. Time is
  counted in seconds.
*/
module BackupSchedule {
  import opened Common

  type Schedule = int -> int

  /** `next` gives the least slot after a moment. */
  ghost predicate Regular(next: Schedule) {
    && (forall t :: next(t) > t)
    && (forall t, u :: t <= u < next(t) ==> next(u) == next(t))
  }

  ghost predicate Slot(next: Schedule, s: int) { exists t :: next(t) == s }

  datatype Status = Status(kind: string, last: Option<int>, next: Option<int>)

  datatype Configured = Configured(kind: string, next: Schedule)

  /** What a pass makes of one schedule: its new status, and the slot it dispatches. */
  ghost predicate Advances(s: Status, next: Schedule, now: int, canRun: bool, t: Status, due: Option<int>) {
    t.kind == s.kind &&
    if s.next.None? then due.None? && t == s.(next := Some(next(now)))
    else if s.next.value > now || !canRun then due.None? && t == s
    else
      && due.Some? && s.next.value <= due.value <= now < next(due.value)
      && (due.value == s.next.value || Slot(next, due.value))
      && t == s.(last := due, next := Some(next(due.value)))
  }

  method CatchUp(next: Schedule, first: int, now: int) returns (due: int, following: int)
    requires Regular(next) && first <= now
    ensures first <= due <= now < following == next(due)
    ensures due == first || Slot(next, due)
  {
    due := first;
    following := next(due);
    while following <= now
      invariant first <= due <= now && following == next(due)
      invariant due == first || Slot(next, due)
      decreases now - following
    {
      due := following;
      following := next(following);
    }
  }

  /** The dispatched slot is the greatest due one. */
  lemma GreatestDueSlot(next: Schedule, due: int, now: int, s: int)
    requires Regular(next) && due <= now < next(due) && Slot(next, s) && s <= now
    ensures s <= due
  {
    var t :| next(t) == s;
    assert t <= due < next(t) ==> next(due) == next(t);
    assert due <= t < next(due) ==> next(t) == next(due);
  }

  const SECOND := 1
  const BLOCKED_REQUEUE := 30

  /** Zero stands for "no requeue yet". */
  function MinimumPositive(current: int, candidate: int): (r: int)
    requires current >= 0
    ensures r >= SECOND && (current > 0 ==> r <= current) && (candidate >= SECOND ==> r <= candidate)
    ensures r == current || r == candidate || r == SECOND
  {
    var c := if candidate < SECOND then SECOND else candidate;
    if current == 0 || c < current then c else current
  }

  predicate DistinctKinds(cs: seq<Configured>) {
    forall i, j :: 0 <= i < j < |cs| ==> cs[i].kind != cs[j].kind
  }

  /** Full, differential and incremental as configured; the default schedule when none is. */
  function ConfiguredSchedules(full: Option<Schedule>, diff: Option<Schedule>, incr: Option<Schedule>,
                               fallback: Schedule): (cs: seq<Configured>)
    ensures DistinctKinds(cs) && cs != []
    ensures cs == [Configured("full", fallback)] <== full.None? && diff.None? && incr.None?
  {
    var cs :=
      (if full.Some? then [Configured("full", full.value)] else []) +
      (if diff.Some? then [Configured("diff", diff.value)] else []) +
      (if incr.Some? then [Configured("incr", incr.value)] else []);
    if cs == [] then [Configured("full", fallback)] else cs
  }

  /** A schedule is in force for a kind exactly when it is configured for it, or is the default when nothing is. */
  lemma ConfiguredExactly(full: Option<Schedule>, diff: Option<Schedule>, incr: Option<Schedule>, fallback: Schedule,
                          kind: string, next: Schedule)
    ensures
      var wanted := match kind case "full" => full case "diff" => diff case "incr" => incr case _ => None;
      Configured(kind, next) in ConfiguredSchedules(full, diff, incr, fallback) <==>
      if full.None? && diff.None? && incr.None? then kind == "full" && next == fallback else wanted == Some(next)
  {
  }

  predicate HasKind(statuses: seq<Status>, kind: string) { exists i :: 0 <= i < |statuses| && statuses[i].kind == kind }

  /** The status kept for a kind; a kind seen for the first time has none. */
  function Previous(statuses: seq<Status>, kind: string): (s: Status)
    ensures s.kind == kind
    ensures if HasKind(statuses, kind) then s in statuses else s == Status(kind, None, None)
  {
    if statuses == [] then Status(kind, None, None)
    else if statuses[0].kind == kind then statuses[0]
    else
      assert HasKind(statuses, kind) ==> HasKind(statuses[1..], kind) by {
        if i :| 0 <= i < |statuses| && statuses[i].kind == kind {
          assert statuses[1..][i - 1].kind == kind;
        }
      }
      assert HasKind(statuses[1..], kind) ==> HasKind(statuses, kind) by {
        if i :| 0 <= i < |statuses[1..]| && statuses[1..][i].kind == kind {
          assert statuses[i + 1].kind == kind;
        }
      }
      Previous(statuses[1..], kind)
  }

  /** One schedule in one pass; `wait` is how long until it needs attention again. */
  method AdvanceOne(previous: Status, next: Schedule, now: int, canRun: bool)
    returns (status: Status, due: Option<int>, wait: int)
    requires Regular(next)
    ensures Advances(previous, next, now, canRun, status, due)
    ensures status.next.Some?
    ensures wait == if status.next.value > now then status.next.value - now else 30
  {
    status, due, wait := previous, None, BLOCKED_REQUEUE;
    if status.next.None? {
      status := status.(next := Some(next(now)));
      wait := status.next.value - now;
    } else if status.next.value > now {
      wait := status.next.value - now;
    } else if canRun {
      var slot, following := CatchUp(next, status.next.value, now);
      due := Some(slot);
      status := status.(last := due, next := Some(following));
      wait := following - now;
    }
  }

  class Scheduler {
    var statuses: seq<Status>

    constructor ()
      ensures statuses == []
    {
      statuses := [];
    }

    /** `dispatched[i]` is the slot for which the i-th schedule's directive is created. */
    method ReconcileBackupSchedules(schedules: seq<Configured>, now: int, canRun: bool)
      returns (requeue: int, dispatched: seq<Option<int>>)
      requires forall i :: 0 <= i < |schedules| ==> Regular(schedules[i].next)
      modifies this
      ensures |statuses| == |schedules| == |dispatched|
      ensures forall i :: 0 <= i < |schedules| ==>
                Advances(Previous(old(statuses), schedules[i].kind), schedules[i].next, now, canRun, statuses[i], dispatched[i])
      ensures forall i :: 0 <= i < |schedules| ==> statuses[i].kind == schedules[i].kind
      ensures schedules != [] ==> requeue >= SECOND
      ensures forall i :: 0 <= i < |schedules| ==>
                && statuses[i].next.Some?
                && requeue <= if statuses[i].next.value > now then statuses[i].next.value - now else 30
    {
      requeue, dispatched := 0, [];
      var updated: seq<Status> := [];
      for k := 0 to |schedules|
        invariant statuses == old(statuses) && |updated| == k == |dispatched| && requeue >= 0
        invariant k > 0 ==> requeue >= SECOND
        invariant forall i :: 0 <= i < k ==> updated[i].kind == schedules[i].kind
        invariant forall i :: 0 <= i < k ==>
                    Advances(Previous(statuses, schedules[i].kind), schedules[i].next, now, canRun, updated[i], dispatched[i])
        invariant forall i :: 0 <= i < k ==>
                    && updated[i].next.Some?
                    && requeue <= if updated[i].next.value > now then updated[i].next.value - now else 30
      {
        var status, due, wait := AdvanceOne(Previous(statuses, schedules[k].kind), schedules[k].next, now, canRun);
        updated := updated + [status];
        dispatched := dispatched + [due];
        requeue := MinimumPositive(requeue, wait);
      }
      statuses := updated;
    }
  }

  // ------------------------------------------------------------------------------------
  // Whole runs of one kind
  // ------------------------------------------------------------------------------------

  /** One pass for a kind; `None` as schedule means that the kind is not configured in this pass. */
  datatype Pass = Pass(now: int, canRun: bool, schedule: Option<Schedule>)

  /** `dispatched` is history. A kind that is not configured loses its status. */
  datatype State = State(status: Status, clock: int, dispatched: seq<int>)

  ghost predicate Next(s: State, p: Pass, t: State) {
    && s.clock <= p.now == t.clock
    && if p.schedule.None? then t.status == Status(s.status.kind, None, None) && t.dispatched == s.dispatched
       else
         exists due ::
           && Advances(s.status, p.schedule.value, p.now, p.canRun, t.status, due)
           && t.dispatched == s.dispatched + if due.Some? then [due.value] else []
  }

  ghost predicate Run(ss: seq<State>, ps: seq<Pass>) {
    && |ss| == |ps| + 1 && ss[0].dispatched == [] && ss[0].status.last.None? && ss[0].status.next.None?
    && forall i :: 0 <= i < |ps| ==>
         Next(ss[i], ps[i], ss[i + 1]) && (ps[i].schedule.Some? ==> Regular(ps[i].schedule.value))
  }

  predicate Increasing(d: seq<int>) { forall i, j :: 0 <= i < j < |d| ==> d[i] < d[j] }

  /** Dispatched slots lie in the past, and before the next one. */
  predicate Inv(s: State) {
    && Increasing(s.dispatched)
    && (forall i :: 0 <= i < |s.dispatched| ==> s.dispatched[i] <= s.clock)
    && (forall i :: 0 <= i < |s.dispatched| && s.status.next.Some? ==> s.dispatched[i] < s.status.next.value)
    && (s.status.last.Some? ==> s.status.last.value in s.dispatched)
  }

  lemma StepKeeps(s: State, p: Pass, t: State)
    requires Inv(s) && Next(s, p, t) && (p.schedule.Some? ==> Regular(p.schedule.value))
    ensures Inv(t)
    ensures p.schedule.Some? && p.canRun && t.status.last.Some? && s.status.next.Some? && s.status.next.value <= p.now ==>
              t.status.last.value <= p.now && t.status.next == Some(p.schedule.value(t.status.last.value)) &&
              p.now < t.status.next.value
    ensures p.schedule.Some? && !p.canRun && s.status.next.Some? && s.status.next.value <= p.now ==> t.status == s.status
  {
  }

  /** The first slot after a moment. */
  ghost predicate FirstSlotAfter(next: Schedule, now: int, s: int) {
    now < s && Slot(next, s) && forall t :: Slot(next, t) && now < t ==> s <= t
  }

  lemma NextIsFirstSlot(next: Schedule, now: int)
    requires Regular(next)
    ensures FirstSlotAfter(next, now, next(now))
  {
    forall s | Slot(next, s) && now < s ensures next(now) <= s {
      var t :| next(t) == s;
      assert t <= now < next(t) ==> next(now) == next(t);
      assert now <= t < next(now) ==> next(t) == next(now);
    }
  }

  /**
    A pass plans the first slot after it, for a kind seen for the first time without dispatching
    anything, and for a due one that may run after dispatching the last slot that was due.
  */
  lemma PassPlansFirstSlot(s: State, p: Pass, t: State)
    requires Next(s, p, t) && p.schedule.Some? && Regular(p.schedule.value)
    requires s.status.next.None? || (p.canRun && s.status.next.value <= p.now)
    ensures t.status.next.Some? && FirstSlotAfter(p.schedule.value, p.now, t.status.next.value)
    ensures t.dispatched == s.dispatched <==> s.status.next.None?
  {
    var next := p.schedule.value;
    NextIsFirstSlot(next, p.now);
    if s.status.next.Some? {
      var due :| Advances(s.status, next, p.now, p.canRun, t.status, due);
      assert due.value <= p.now < next(due.value);
      assert next(p.now) == next(due.value);
    }
  }

  /**
    Over every run the dispatched slots strictly increase, also when schedules change, are removed
    and come back, and when passes are blocked.
  */
  lemma {:induction false} SlotsIncrease(ss: seq<State>, ps: seq<Pass>, i: nat)
    requires Run(ss, ps) && i < |ss|
    ensures Inv(ss[i])
  {
    if i > 0 {
      SlotsIncrease(ss, ps, i - 1);
      StepKeeps(ss[i - 1], ps[i - 1], ss[i]);
    }
  }

  // ------------------------------------------------------------------------------------
  // Trust
  // ------------------------------------------------------------------------------------

  datatype Directive = Directive(name: (string, int), operation: (string, string, int), kind: string, slot: int,
                                 owner: string, deleting: bool)

  /** The hub sends a scheduled directive only for the slot last recorded for its kind. */
  predicate Trusted(d: Directive, owner: string, statuses: seq<Status>) {
    && d.owner == owner && !d.deleting
    && (exists i :: 0 <= i < |statuses| && statuses[i].kind == d.kind && statuses[i].last == Some(d.slot))
    && d.name == (d.kind, d.slot) && d.operation == (owner, d.kind, d.slot)
  }

  /** The directive that a pass creates for a slot. */
  function Dispatched(owner: string, kind: string, slot: int): Directive {
    Directive((kind, slot), (owner, kind, slot), kind, slot, owner, false)
  }

  /** A directive is trusted exactly when it is the one created for the slot last recorded for some kind. */
  lemma TrustedExactly(d: Directive, owner: string, statuses: seq<Status>)
    ensures Trusted(d, owner, statuses) <==>
            exists i :: 0 <= i < |statuses| && statuses[i].last.Some? &&
                        d == Dispatched(owner, statuses[i].kind, statuses[i].last.value)
  {
    if Trusted(d, owner, statuses) {
      var i :| 0 <= i < |statuses| && statuses[i].kind == d.kind && statuses[i].last == Some(d.slot);
      assert d == Dispatched(owner, statuses[i].kind, statuses[i].last.value);
    }
  }

  /** At any time at most one scheduled directive per kind is trusted. */
  lemma OneTrustedPerKind(c: Directive, d: Directive, owner: string, statuses: seq<Status>, configured: seq<Configured>)
    requires |configured| == |statuses| && DistinctKinds(configured)
    requires forall i :: 0 <= i < |configured| ==> statuses[i].kind == configured[i].kind
    requires Trusted(c, owner, statuses) && Trusted(d, owner, statuses) && c.kind == d.kind
    ensures c == d
  {
  }
}
