/**
  The backup that a major upgrade needs before it completes: bounded retries with jitter.
*/
module PostUpgradeBackup {
  import opened Common

  const SECOND := 1_000_000_000
  const RETRY_BASE := 60 * SECOND
  const RETRY_MAX := 1800 * SECOND
  const MAX_ATTEMPTS := 5
  const INT64_LIMIT := 0x8000_0000_0000_0000

  function Min(a: int, b: int): int { if a < b then a else b }

  /** The delay before an attempt, in nanoseconds, with a jitter of whole seconds. */
  function Delay(attempt: nat, jitter: nat): int
    requires attempt >= 1
  {
    Min(RETRY_BASE * Pow2(attempt - 1) + jitter * SECOND, RETRY_MAX)
  }

  /** `hash` is the 32-bit hash of operation and attempt. No product or sum leaves 64 bits. */
  method RetryDelay(attempt: int, hash: nat) returns (delay: int, jitter: nat)
    ensures jitter == hash % 60
    ensures delay == Delay(if attempt < 1 then 1 else attempt, jitter)
    ensures RETRY_BASE <= delay <= RETRY_MAX
  {
    var a := if attempt < 1 then 1 else attempt;
    delay := RETRY_BASE;
    var i := 1;
    while i < a
      invariant 1 <= i <= a && RETRY_BASE <= delay < RETRY_MAX
      invariant delay == RETRY_BASE * Pow2(i - 1)
    {
      assert delay * 2 < INT64_LIMIT;
      delay := delay * 2;
      if delay >= RETRY_MAX {
        Pow2Grows(i, a - 1);
        delay := RETRY_MAX;
        break;
      }
      i := i + 1;
    }
    jitter := hash % (RETRY_BASE / SECOND);
    assert delay == Min(RETRY_BASE * Pow2(a - 1), RETRY_MAX);
    assert delay + jitter * SECOND < INT64_LIMIT;
    delay := delay + jitter * SECOND;
    if delay > RETRY_MAX {
      delay := RETRY_MAX;
    }
  }

  lemma {:induction false} Pow2Grows(a: nat, b: nat)
    requires a <= b
    ensures Pow2(a) <= Pow2(b)
    ensures a < b ==> 2 * Pow2(a) <= Pow2(b)
  {
    if a < b {
      Pow2Grows(a, b - 1);
    }
  }

  /** Whatever the jitters are, a later attempt waits longer until the cap is reached. */
  lemma DelayIncreasesUntilCap(a: nat, b: nat, j: nat, k: nat)
    requires 1 <= a < b && j < 60 && k < 60
    ensures Delay(a, j) < Delay(b, k) || Delay(a, j) == Delay(b, k) == RETRY_MAX
  {
    Pow2Grows(a - 1, b - 1);
    var x, y := Pow2(a - 1), Pow2(b - 1);
    assert RETRY_BASE * y >= RETRY_BASE * (2 * x);
    assert RETRY_BASE * (2 * x) == RETRY_BASE * x + RETRY_BASE * x;
    assert j * SECOND < RETRY_BASE <= RETRY_BASE * x;
  }

  /** The five retries wait 1, 2, 4, 8 and 16 minutes and the jitter; any further one would wait half an hour. */
  lemma RetrySchedule(a: nat, j: nat)
    requires a >= 1 && j < 60
    ensures a <= 5 ==> Delay(a, j) == (60 * [1, 2, 4, 8, 16][a - 1] + j) * 1_000_000_000
    ensures a >= 6 ==> Delay(a, j) == 30 * 60 * 1_000_000_000
  {
    assert Pow2(0) == 1 && Pow2(1) == 2 && Pow2(2) == 4 && Pow2(3) == 8 && Pow2(4) == 16 && Pow2(5) == 32;
    if a >= 6 {
      Pow2Grows(5, a - 1);
    }
  }

  // ------------------------------------------------------------------------------------
  // The attempts of one upgrade
  // ------------------------------------------------------------------------------------

  datatype Condition = Absent | BackupRequested | RetryRequested | BackupFailed | ManualIntervention | Verified

  /**
    `directives` has the attempts with a created directive, each with the time it was requested for;
    `succeeded` those reported successful.
    `failedAt` is history: when a pass last saw a failure.
  */
  datatype State = State(
    attempt: nat,
    condition: Condition,
    requestedAt: Option<int>,
    nextRetryAt: Option<int>,
    directives: map<nat, int>,
    succeeded: set<nat>,
    completed: bool,
    clock: int,
    failedAt: int)

  function Initial(now: int): State { State(0, Absent, None, None, map[], {}, false, now, now) }

  datatype Event = Pass(now: int, jitter: nat) | Result(attempt: nat, success: bool)

  /** One pass in the Finalize phase. */
  function Ensure(s: State, now: int, jitter: nat): State {
    if s.condition == Verified then s.(completed := true, nextRetryAt := None)
    else if s.condition == BackupFailed then
      if s.attempt >= MAX_ATTEMPTS then s.(condition := ManualIntervention, nextRetryAt := None)
      else s.(attempt := s.attempt + 1, requestedAt := None, condition := RetryRequested, failedAt := now,
              nextRetryAt := Some(now + Delay(s.attempt + 1, jitter)))
    else if s.condition == RetryRequested && s.nextRetryAt.Some? && now < s.nextRetryAt.value then s
    else if s.requestedAt.None? then s.(requestedAt := Some(now), condition := BackupRequested, nextRetryAt := None)
    else if s.attempt in s.directives then s
    else s.(directives := s.directives[s.attempt := s.requestedAt.value])
  }

  /** The status of the upgrade object, as the handler updates it. */
  class UpgradeStatus {
    var state: State

    constructor (now: int)
      ensures state == Initial(now)
    {
      state := Initial(now);
    }

    method EnsurePostUpgradeBackup(now: int, hash: nat) returns (ready: bool)
      modifies this
      ensures state == Ensure(old(state), now, hash % 60)
      ensures ready <==> old(state).condition == Verified
    {
      ready := false;
      if state.condition == Verified {
        state := state.(completed := true, nextRetryAt := None);
        return true;
      }
      if state.condition == BackupFailed {
        if state.attempt >= MAX_ATTEMPTS {
          state := state.(condition := ManualIntervention, nextRetryAt := None);
          return;
        }
        var delay, _ := RetryDelay(state.attempt + 1, hash);
        state := state.(attempt := state.attempt + 1, requestedAt := None, condition := RetryRequested,
                        failedAt := now, nextRetryAt := Some(now + delay));
        return;
      }
      if state.condition == RetryRequested && state.nextRetryAt.Some? && now < state.nextRetryAt.value {
        return;
      }
      if state.requestedAt.None? {
        state := state.(requestedAt := Some(now), condition := BackupRequested, nextRetryAt := None);
        return;
      }
      if state.attempt !in state.directives {
        state := state.(directives := state.directives[state.attempt := state.requestedAt.value]);
      }
    }
  }

  predicate Enabled(s: State, e: Event) {
    match e
    case Pass(now, jitter) => !s.completed && s.clock <= now && jitter < 60
    case Result(attempt, _) => attempt in s.directives
  }

  function Do(s: State, e: Event): State
    requires Enabled(s, e)
  {
    match e
    case Pass(now, jitter) => Ensure(s, now, jitter).(clock := now)
    case Result(attempt, success) =>
      if success then s.(condition := Verified, succeeded := s.succeeded + {attempt})
      else s.(condition := BackupFailed)
  }

  ghost predicate Run(ss: seq<State>, es: seq<Event>) {
    && |ss| == |es| + 1
    && (exists now :: ss[0] == Initial(now))
    && forall i :: 0 <= i < |es| ==> Enabled(ss[i], es[i]) && ss[i + 1] == Do(ss[i], es[i])
  }

  predicate Inv(s: State) {
    && s.attempt <= MAX_ATTEMPTS
    && (forall a :: a in s.directives ==> a <= s.attempt)
    && s.succeeded <= s.directives.Keys
    && (s.condition == Verified || s.completed ==> s.succeeded != {})
    && (s.condition == Absent ==> s.attempt == 0)
    && (s.condition == BackupRequested ==> s.requestedAt.Some?)
    && (s.condition == RetryRequested ==>
          && s.requestedAt.None? && s.attempt >= 1
          && s.nextRetryAt.Some? && s.nextRetryAt.value >= s.failedAt + Delay(s.attempt, 0))
  }

  lemma StepKeeps(s: State, e: Event)
    requires Inv(s) && Enabled(s, e)
    ensures Inv(Do(s, e))
  {
  }

  lemma {:induction false} RunKeeps(ss: seq<State>, es: seq<Event>, i: nat)
    requires Run(ss, es) && i < |ss|
    ensures Inv(ss[i])
  {
    if i > 0 {
      RunKeeps(ss, es, i - 1);
      StepKeeps(ss[i - 1], es[i - 1]);
    }
  }

  lemma AtMostSix(a: set<nat>)
    requires forall x :: x in a ==> x <= MAX_ATTEMPTS
    ensures |a| <= 6
  {
    var all := {0, 1, 2, 3, 4, 5};
    assert a <= all;
    SubsetSize(a, all);
  }

  /**
    One upgrade issues at most six post-upgrade backup directives, and completes exactly when a pass
    finds the PostUpgradeBackupReady condition true, which one of them has been reported to be.
  */
  lemma CompletesAfterVerifiedBackup(ss: seq<State>, es: seq<Event>, i: nat)
    requires Run(ss, es) && i < |ss|
    ensures |ss[i].directives.Keys| <= 6
    ensures ss[i].completed ==> exists a :: a in ss[i].succeeded && a in ss[i].directives
    ensures i < |es| && !ss[i].completed ==>
              (ss[i + 1].completed <==> es[i].Pass? && ss[i].condition == Verified)
  {
    RunKeeps(ss, es, i);
    AtMostSix(ss[i].directives.Keys);
    if ss[i].completed {
      var a :| a in ss[i].succeeded;
    }
  }

  /** The j-th event is the pass that requested this attempt, at this time, without a directive for it yet. */
  predicate RequestedAt(ss: seq<State>, es: seq<Event>, j: nat, attempt: nat, time: int) {
    && j < |es| < |ss| && es[j].Pass? && es[j].now == time && ss[j].attempt == attempt == ss[j + 1].attempt
    && ss[j].requestedAt.None? && ss[j + 1].requestedAt == Some(time) && attempt !in ss[j + 1].directives
  }

  predicate Requested(ss: seq<State>, es: seq<Event>, i: nat, attempt: nat, time: int) {
    exists j :: 0 <= j < i && RequestedAt(ss, es, j, attempt, time)
  }

  predicate OlderAttempts(s: State) {
    forall a :: a in s.directives ==> a < s.attempt || (a == s.attempt && s.requestedAt.Some?)
  }

  /** A pass records a request, or creates the directive of a recorded one, or does neither. */
  lemma RequestStep(s: State, e: Event)
    requires Enabled(s, e) && OlderAttempts(s)
    ensures
      var t := Do(s, e);
      && OlderAttempts(t)
      && (t.requestedAt.Some? ==>
            && t.attempt == s.attempt
            && (t.requestedAt == s.requestedAt
                || (e.Pass? && s.requestedAt.None? && t.requestedAt == Some(e.now) && t.attempt !in t.directives)))
      && (t.directives == s.directives
          || (e.Pass? && s.attempt !in s.directives && s.requestedAt.Some? &&
              t.directives == s.directives[s.attempt := s.requestedAt.value]))
  {
  }

  lemma {:induction false} DirectivesAreOlder(ss: seq<State>, es: seq<Event>, i: nat)
    requires Run(ss, es) && i < |ss|
    ensures OlderAttempts(ss[i])
  {
    if i > 0 {
      DirectivesAreOlder(ss, es, i - 1);
      RequestStep(ss[i - 1], es[i - 1]);
    }
  }

  lemma {:induction false} RequestIsRecorded(ss: seq<State>, es: seq<Event>, i: nat)
    requires Run(ss, es) && i < |ss| && ss[i].requestedAt.Some?
    ensures Requested(ss, es, i, ss[i].attempt, ss[i].requestedAt.value)
  {
    assert i > 0;
    DirectivesAreOlder(ss, es, i - 1);
    RequestStep(ss[i - 1], es[i - 1]);
    if ss[i - 1].requestedAt == ss[i].requestedAt {
      RequestIsRecorded(ss, es, i - 1);
      var j :| 0 <= j < i - 1 && RequestedAt(ss, es, j, ss[i].attempt, ss[i].requestedAt.value);
    } else {
      assert RequestedAt(ss, es, i - 1, ss[i].attempt, ss[i].requestedAt.value);
    }
  }

  /**
    In every run, each directive was asked for by an earlier pass, which recorded the time that the
    directive carries, and it keeps that time.
  */
  lemma {:induction false} DirectivesWereRequested(ss: seq<State>, es: seq<Event>, i: nat, a: nat)
    requires Run(ss, es) && i < |ss| && a in ss[i].directives
    ensures Requested(ss, es, i, a, ss[i].directives[a])
    ensures i < |es| ==> a in ss[i + 1].directives && ss[i + 1].directives[a] == ss[i].directives[a]
  {
    assert i > 0;
    DirectivesAreOlder(ss, es, i - 1);
    RequestStep(ss[i - 1], es[i - 1]);
    if a in ss[i - 1].directives {
      DirectivesWereRequested(ss, es, i - 1, a);
    } else {
      RequestIsRecorded(ss, es, i - 1);
    }
    RequestedLater(ss, es, i - 1, a, ss[i].directives[a]);
    if i < |es| {
      DirectivesAreOlder(ss, es, i);
      RequestStep(ss[i], es[i]);
    }
  }

  lemma RequestedLater(ss: seq<State>, es: seq<Event>, i: nat, attempt: nat, time: int)
    requires Requested(ss, es, i, attempt, time)
    ensures Requested(ss, es, i + 1, attempt, time)
  {
    var j :| 0 <= j < i && RequestedAt(ss, es, j, attempt, time);
  }

  /** A retry that was waited for is requested no earlier than its delay after the failure was seen. */
  lemma RetryWaits(ss: seq<State>, es: seq<Event>, i: nat)
    requires Run(ss, es) && i < |es| && es[i].Pass?
    requires ss[i].condition == RetryRequested && ss[i + 1].condition != RetryRequested
    ensures ss[i + 1].requestedAt == Some(es[i].now) && ss[i].attempt >= 1
    ensures es[i].now >= ss[i].failedAt + Delay(ss[i].attempt, 0)
  {
    RunKeeps(ss, es, i);
  }

  /**
    During the wait for a retry, a pass requests it anyway exactly when it finds the condition
    ManualInterventionRequired.
  */
  lemma UnwaitedRequestExactly(ss: seq<State>, es: seq<Event>, i: nat)
    requires Run(ss, es) && i < |es| && es[i].Pass?
    requires ss[i].attempt >= 1 && ss[i].requestedAt.None? && es[i].now < ss[i].failedAt + Delay(ss[i].attempt, 0)
    ensures ss[i + 1].requestedAt.Some? <==> ss[i].condition == ManualIntervention
  {
    RunKeeps(ss, es, i);
  }

  /** An attempt that was passed over gets no directive any more. */
  lemma {:induction false} SkippedAttemptStaysSkipped(ss: seq<State>, es: seq<Event>, i: nat, j: nat, a: nat)
    requires Run(ss, es) && i <= j < |ss| && a < ss[i].attempt && a !in ss[i].directives
    ensures a < ss[j].attempt && a !in ss[j].directives
  {
    if i < j {
      SkippedAttemptStaysSkipped(ss, es, i, j - 1, a);
    }
  }

  lemma DelayIsPositive(a: nat)
    requires a >= 1
    ensures Delay(a, 0) > 0
  {
    assert RETRY_BASE * Pow2(a - 1) >= RETRY_BASE;
  }

  // ------------------------------------------------------------------------------------
  // A failure that is reported twice
  // ------------------------------------------------------------------------------------

  ghost predicate Reachable(s: State) {
    exists ss, es :: Run(ss, es) && ss[|es|] == s
  }

  lemma ReachStep(s: State, e: Event) returns (t: State)
    requires Reachable(s) && Enabled(s, e)
    ensures t == Do(s, e) && Reachable(t)
  {
    t := Do(s, e);
    var ss, es :| Run(ss, es) && ss[|es|] == s;
    assert Run(ss + [t], es + [e]) && (ss + [t])[|es + [e]|] == t;
  }

  /** The wait for attempt `a`, with a directive for each attempt before it. */
  ghost predicate Waiting(s: State, a: nat) {
    && a >= 1 && Reachable(s) && s.attempt == a && s.condition == RetryRequested && !s.completed && s.requestedAt.None?
    && s.clock == s.failedAt && s.nextRetryAt == Some(s.failedAt + Delay(a, 0))
    && (forall k: nat :: k in s.directives <==> k < a)
  }

  /** An attempt is requested, its directive is created and fails, and a pass sees the failure. */
  lemma FailAttempt(s: State, now: int) returns (t: State)
    requires Reachable(s) && !s.completed && s.requestedAt.None? && s.clock <= now && s.attempt < MAX_ATTEMPTS
    requires s.condition == Absent || (s.condition == RetryRequested && s.nextRetryAt.Some? && s.nextRetryAt.value <= now)
    requires forall k: nat :: k in s.directives <==> k < s.attempt
    ensures Waiting(t, s.attempt + 1)
  {
    t := ReachStep(s, Pass(now, 0));
    t := ReachStep(t, Pass(now, 0));
    t := ReachStep(t, Result(s.attempt, false));
    t := ReachStep(t, Pass(now, 0));
  }

  /** An upgrade whose backups keep failing waits for each of the attempts in turn. */
  lemma {:induction false} ReachWait(a: nat) returns (s: State)
    requires 1 <= a <= MAX_ATTEMPTS
    ensures Waiting(s, a)
  {
    if a == 1 {
      var none: seq<Event> := [];
      var start := Initial(0);
      assert Run([start], none) && [start][|none|] == start;
      s := FailAttempt(start, 0);
    } else {
      var before := ReachWait(a - 1);
      DelayIsPositive(a - 1);
      s := FailAttempt(before, before.nextRetryAt.value);
    }
  }

  lemma CountBelow(a: set<nat>, n: nat)
    requires forall k: nat :: k in a <==> k < n
    ensures |a| == n
  {
    assert a == Range(0, n);
  }

  /** All six directives can be needed. */
  lemma SixDirectivesCanBeNeeded() returns (t: State)
    ensures Reachable(t) && |t.directives.Keys| == 6
  {
    var s := ReachWait(MAX_ATTEMPTS);
    DelayIsPositive(MAX_ATTEMPTS);
    t := ReachStep(s, Pass(s.nextRetryAt.value, 0));
    t := ReachStep(t, Pass(s.nextRetryAt.value, 0));
    CountBelow(t.directives.Keys, MAX_ATTEMPTS + 1);
  }

  /**
    The last failure is reported once more during the wait for the last attempt: two passes later,
    at the same moment, the attempt is requested.
  */
  lemma LateFailureSkipsWait() returns (s: State, t: State)
    ensures Waiting(s, MAX_ATTEMPTS) && Reachable(t)
    ensures t.attempt == MAX_ATTEMPTS && t.failedAt == s.failedAt && t.condition == BackupRequested
    ensures t.requestedAt == Some(s.failedAt) && s.failedAt < s.failedAt + Delay(MAX_ATTEMPTS, 0)
  {
    s := ReachWait(MAX_ATTEMPTS);
    t := ReachStep(s, Result(MAX_ATTEMPTS - 1, false));
    t := ReachStep(t, Pass(s.clock, 0));
    t := ReachStep(t, Pass(s.clock, 0));
    DelayIsPositive(MAX_ATTEMPTS);
  }

  /** The same report during an earlier wait uses up an attempt for which no directive is ever created. */
  lemma LateFailureUsesUpAttempt(a: nat) returns (s: State, t: State)
    requires 1 <= a < MAX_ATTEMPTS
    ensures Waiting(s, a) && Reachable(t)
    ensures t.attempt == a + 1 && t.condition == RetryRequested && a !in t.directives
  {
    s := ReachWait(a);
    t := ReachStep(s, Result(a - 1, false));
    t := ReachStep(t, Pass(s.clock, 0));
  }
}
