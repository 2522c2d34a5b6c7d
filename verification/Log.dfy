/**
 The tables as folds of the log, and the grammar of the logs the store writes.

 `Live` and `TimersOf` compute, from a run's history alone, the rows the queue tables should hold.
 `WellFormed` says which event may follow which log. Everything promised about attempts, outcomes,
 timers and closing is a consequence of the grammar.
 */
module Log {
  import opened Basics
  import opened History
  import opened Program
  import opened Backoff

  datatype RunStatus = StatusRunning | StatusCompleted | StatusFailed

  /** The columns of an activity row that the log determines. */
  datatype ActivityColumns = ActivityColumns(
    queue: string, activityId: string, activityType: string, input: Bytes, blob: Option<RetryPolicy>,
    attempt: int, lastStarted: int, visibleAt: int)

  datatype TimerRow = TimerRow(timerId: string, fireAt: int, fired: bool)

  /** The all-zero policy encodes to no bytes at all. */
  function Marshal(p: RetryPolicy): Option<RetryPolicy> {
    if p == RetryPolicy(0, 0.0, 0, 0) then None else Some(p)
  }

  /** The policy consulted on failure: an empty column means the default. */
  function EffectivePolicy(c: ActivityColumns): RetryPolicy {
    PolicyOrDefault(c.blob)
  }

  function FirstColumns(call: ActivityCall, time: int): ActivityColumns {
    ActivityColumns(call.queue, call.activityId, call.activityType, call.input, Marshal(call.policy), 1, 0, time)
  }

  function LiveStep(m: map<int, ActivityColumns>, e: Event): map<int, ActivityColumns> {
    match e.attrs
    case ActivityScheduled(call) => m[e.id := FirstColumns(call, e.time)]
    case ActivityStarted(s, _, n) => if s in m then m[s := m[s].(lastStarted := n)] else m
    case ActivityRetryScheduled(s, n, t, _) => if s in m then m[s := m[s].(attempt := n, visibleAt := t)] else m
    case ActivityCompleted(s, _) => m - {s}
    case ActivityFailed(s, _, _) => m - {s}
    case _ => m
  }

  /** Activities scheduled and not yet resolved. */
  function Live(h: seq<Event>): map<int, ActivityColumns> {
    if h == [] then map[] else LiveStep(Live(h[..|h| - 1]), h[|h| - 1])
  }

  function TimerStep(m: map<int, TimerRow>, e: Event): map<int, TimerRow> {
    match e.attrs
    case TimerStarted(id, _, at) => m[e.id := TimerRow(id, at, false)]
    case TimerFired(_, s) => if s in m then m[s := m[s].(fired := true)] else m
    case _ => m
  }

  function TimersOf(h: seq<Event>): map<int, TimerRow> {
    if h == [] then map[] else TimerStep(TimersOf(h[..|h| - 1]), h[|h| - 1])
  }

  function StatusOf(h: seq<Event>): RunStatus {
    match CloseOf(h)
    case None => StatusRunning
    case Some(Succeed(_)) => StatusCompleted
    case Some(Abort(_)) => StatusFailed
  }

  predicate Startable(c: ActivityColumns, attempt: int, time: int) {
    attempt == c.attempt && c.lastStarted == attempt - 1 && c.visibleAt <= time
  }

  /** The current attempt has been handed out. */
  predicate UnderWay(c: ActivityColumns) {
    c.lastStarted == c.attempt
  }

  /** The wait is the policy's delay, on some platform. */
  ghost predicate Backs(p: RetryPolicy, attempt: int, wait: int) {
    exists outOfRange :: wait == Delay(p, attempt, outOfRange)
  }

  /** Which event may follow which log. */
  ghost predicate Legal(h: seq<Event>, e: Event) {
    match e.attrs
    case WorkflowStarted(_, _, _) => h == []
    case ActivityScheduled(_) => h != [] && !Closed(h)
    case TimerStarted(_, timeout, at) => h != [] && !Closed(h) && at == e.time + timeout
    case ActivityStarted(s, _, n) => s in Live(h) && Startable(Live(h)[s], n, e.time)
    case ActivityRetryScheduled(s, n, t, _) =>
      && s in Live(h) && UnderWay(Live(h)[s]) && n == Live(h)[s].attempt + 1
      && CanRetry(EffectivePolicy(Live(h)[s]), n - 1)
      && Backs(EffectivePolicy(Live(h)[s]), n - 1, t - e.time)
    case ActivityCompleted(s, _) => s in Live(h) && UnderWay(Live(h)[s])
    case ActivityFailed(s, _, retryable) =>
      s in Live(h) && UnderWay(Live(h)[s]) && (retryable ==> !CanRetry(EffectivePolicy(Live(h)[s]), Live(h)[s].attempt))
    case TimerFired(id, s) =>
      s in TimersOf(h) && !TimersOf(h)[s].fired && TimersOf(h)[s].timerId == id && TimersOf(h)[s].fireAt <= e.time
    case Signaled(_, _) => h != [] && !Closed(h)
    case WorkflowCompleted(_) => h != [] && !Closed(h)
    case WorkflowFailed(_) => h != [] && !Closed(h)
  }

  ghost predicate WellFormed(h: seq<Event>) {
    h != [] ==> WellFormed(h[..|h| - 1]) && h[|h| - 1].id == |h| && Legal(h[..|h| - 1], h[|h| - 1])
  }

  lemma LogAppend(h: seq<Event>, e: Event)
    ensures Live(h + [e]) == LiveStep(Live(h), e)
    ensures TimersOf(h + [e]) == TimerStep(TimersOf(h), e)
    ensures WellFormed(h + [e]) <==> WellFormed(h) && e.id == |h| + 1 && Legal(h, e)
  {
    hide Legal, LiveStep, TimerStep;
    assert (h + [e])[..|h|] == h;
  }

  lemma StatusAppend(h: seq<Event>, e: Event)
    ensures !IsClose(e.attrs) ==> StatusOf(h + [e]) == StatusOf(h)
    ensures !Closed(h) && e.attrs.WorkflowCompleted? ==> StatusOf(h + [e]) == StatusCompleted
    ensures !Closed(h) && e.attrs.WorkflowFailed? ==> StatusOf(h + [e]) == StatusFailed
    ensures StatusOf(h) == StatusRunning <==> !Closed(h)
  {
    ClosedIffCloseOf(h);
    assert (h + [e])[..|h|] == h;
  }

  // ---------------------------------------------------------------- consequences of the grammar

  lemma {:induction false} PrefixWellFormed(h: seq<Event>, i: nat)
    requires WellFormed(h) && i <= |h|
    ensures WellFormed(h[..i])
    ensures i < |h| ==> h[i].id == i + 1 && Legal(h[..i], h[i])
  {
    hide Legal;
    if i == |h| {
      assert h[..i] == h;
    } else if i < |h| - 1 {
      var init := h[..|h| - 1];
      PrefixWellFormed(init, i);
      assert init[..i] == h[..i] && init[i] == h[i];
    }
  }

  /** Event ids are 1, 2, 3, ... without gaps, and only event 1 is a start. */
  lemma GapFree(h: seq<Event>, i: nat)
    requires WellFormed(h) && i < |h|
    ensures h[i].id == i + 1
    ensures h[i].attrs.WorkflowStarted? <==> i == 0
  {
    PrefixWellFormed(h, i);
    if i == 0 {
      assert h[..0] == [];
      EmptyFolds();
    }
  }

  lemma EmptyFolds()
    ensures Live([]) == map[] && TimersOf([]) == map[] && !Closed([])
  {
  }

  function OutcomeCount(h: seq<Event>, s: int): nat {
    if h == [] then 0 else OutcomeCount(h[..|h| - 1], s) + (if Resolves(h[|h| - 1].attrs, s) then 1 else 0)
  }

  predicate Schedules(e: Event, s: int) {
    e.attrs.ActivityScheduled? && e.id == s
  }

  function ScheduleCount(h: seq<Event>, s: int): nat {
    if h == [] then 0 else ScheduleCount(h[..|h| - 1], s) + (if Schedules(h[|h| - 1], s) then 1 else 0)
  }

  /** Event s schedules an activity. */
  predicate SchedulesAt(h: seq<Event>, s: int) {
    1 <= s <= |h| && h[s - 1].attrs.ActivityScheduled?
  }

  lemma {:induction false} FutureIdsUnused(h: seq<Event>, s: int)
    requires WellFormed(h) && s > |h|
    ensures ScheduleCount(h, s) == 0 && s !in Live(h) && OutcomeCount(h, s) == 0 && s !in TimersOf(h)
  {
    if h != [] {
      FutureIdsUnused(h[..|h| - 1], s);
    }
  }

  /** One scheduled activity is live or has one outcome, never both, never neither, never twice. */
  lemma {:induction false} ExactlyOneOutcome(h: seq<Event>, s: int)
    requires WellFormed(h)
    ensures (if s in Live(h) then 1 else 0) + OutcomeCount(h, s) == ScheduleCount(h, s) <= 1
  {
    if h != [] {
      var init, e := h[..|h| - 1], h[|h| - 1];
      ExactlyOneOutcome(init, s);
      if Schedules(e, s) {
        FutureIdsUnused(init, s);
      }
    }
  }

  lemma {:induction false} ScheduledOnce(h: seq<Event>, s: int)
    requires WellFormed(h)
    ensures ScheduleCount(h, s) == (if SchedulesAt(h, s) then 1 else 0)
  {
    if h != [] {
      hide Legal;
      ScheduledOnce(h[..|h| - 1], s);
    }
  }

  lemma {:induction false} ResolvedCounts(h: seq<Event>, s: int)
    ensures Resolved(h, s) <==> OutcomeCount(h, s) > 0
  {
    if h != [] {
      hide Resolved, Resolves;
      ResolvedCounts(h[..|h| - 1], s);
      ResolvedAppend(h[..|h| - 1], h[|h| - 1], s);
      assert h == h[..|h| - 1] + [h[|h| - 1]];
    } else {
      assert !Resolved(h, s);
    }
  }

  /** Every event after the first only adds to what replay may answer. */
  lemma LegalIsAdmissible(h: seq<Event>, e: Event)
    requires WellFormed(h) && Legal(h, e) && h != []
    ensures Admissible(h, e)
  {
    hide WellFormed, Live, TimersOf, Closed, Resolved;
    forall s | Resolves(e.attrs, s)
      ensures !Resolved(h, s)
    {
      ExactlyOneOutcome(h, s);
      ResolvedCounts(h, s);
    }
  }

  // ---------------------------------------------------------------- attempts

  function UpTo(n: nat): seq<int> {
    seq(n, i => i + 1)
  }

  /** The attempt numbers of the started events of one activity, in log order. */
  function StartedAttempts(h: seq<Event>, s: int): seq<int> {
    if h == [] then [] else
      StartedAttempts(h[..|h| - 1], s) +
      (match h[|h| - 1].attrs
       case ActivityStarted(t, _, n) => if t == s then [n] else []
       case _ => [])
  }

  function RetryCount(h: seq<Event>, s: int): nat {
    if h == [] then 0 else
      RetryCount(h[..|h| - 1], s) +
      (if h[|h| - 1].attrs.ActivityRetryScheduled? && h[|h| - 1].attrs.scheduledId == s then 1 else 0)
  }

  ghost predicate AttemptsAgree(h: seq<Event>, s: int, c: ActivityColumns) {
    && c.attempt == 1 + RetryCount(h, s)
    && c.attempt - 1 <= c.lastStarted <= c.attempt
    && |StartedAttempts(h, s)| == c.lastStarted
    && (EffectivePolicy(c).maxAttempts > 0 ==> c.attempt <= EffectivePolicy(c).maxAttempts)
  }

  lemma {:induction false} NothingBeforeScheduling(h: seq<Event>, s: int)
    requires WellFormed(h) && s > |h|
    ensures RetryCount(h, s) == 0 && StartedAttempts(h, s) == []
  {
    if h != [] {
      var init := h[..|h| - 1];
      NothingBeforeScheduling(init, s);
      FutureIdsUnused(init, s);
    }
  }

  lemma AttemptStep(h: seq<Event>, e: Event, s: int)
    requires WellFormed(h) && Legal(h, e) && e.id == |h| + 1
    requires s in Live(h) ==> AttemptsAgree(h, s, Live(h)[s])
    requires s in LiveStep(Live(h), e)
    ensures AttemptsAgree(h + [e], s, LiveStep(Live(h), e)[s])
  {
    hide WellFormed, Live, TimersOf, Closed;
    assert (h + [e])[..|h|] == h;
    if Schedules(e, s) {
      NothingBeforeScheduling(h, s);
    }
  }

  /**
   Attempt discipline. Started events of an activity carry attempts 1, 2, 3, ... once each and in
   order. While the activity is live its attempt is one plus its retries, the current attempt has
   been started or is the very next, and a positive bound on attempts is never exceeded.
   */
  lemma {:induction false} AttemptDiscipline(h: seq<Event>, s: int)
    requires WellFormed(h)
    ensures StartedAttempts(h, s) == UpTo(|StartedAttempts(h, s)|)
    ensures s in Live(h) ==> AttemptsAgree(h, s, Live(h)[s])
  {
    if h != [] {
      hide Legal, LiveStep, AttemptsAgree, TimersOf, Closed;
      var init, e := h[..|h| - 1], h[|h| - 1];
      AttemptDiscipline(init, s);
      assert h == init + [e];
      if s in Live(h) {
        AttemptStep(init, e, s);
      }
      StartedInOrder(init, e, s);
    }
  }

  lemma StartedInOrder(h: seq<Event>, e: Event, s: int)
    requires Legal(h, e)
    requires StartedAttempts(h, s) == UpTo(|StartedAttempts(h, s)|)
    requires s in Live(h) ==> AttemptsAgree(h, s, Live(h)[s])
    ensures StartedAttempts(h + [e], s) == UpTo(|StartedAttempts(h + [e], s)|)
  {
    hide Live, TimersOf, Closed;
    assert (h + [e])[..|h|] == h;
  }

  /** A second or later attempt becomes visible at the time its retry event announced. */
  lemma {:induction false} VisibleFromRetry(h: seq<Event>, s: int) returns (j: nat)
    requires WellFormed(h) && s in Live(h) && Live(h)[s].attempt > 1
    ensures j < |h| && h[j].attrs.ActivityRetryScheduled? && h[j].attrs.scheduledId == s
    ensures h[j].attrs.attempt == Live(h)[s].attempt && h[j].attrs.nextTime == Live(h)[s].visibleAt
  {
    var init, e := h[..|h| - 1], h[|h| - 1];
    if e.attrs.ActivityRetryScheduled? && e.attrs.scheduledId == s {
      j := |h| - 1;
    } else {
      j := VisibleFromRetry(init, s);
    }
  }

  /** No retried attempt is handed out before its backoff has ended. */
  lemma BackoffRespected(h: seq<Event>, i: nat) returns (j: nat)
    requires WellFormed(h) && i < |h| && h[i].attrs.ActivityStarted? && h[i].attrs.attempt > 1
    ensures j < i && h[j].attrs.ActivityRetryScheduled?
    ensures h[j].attrs.scheduledId == h[i].attrs.scheduledId && h[j].attrs.attempt == h[i].attrs.attempt
    ensures h[j].attrs.nextTime <= h[i].time
  {
    PrefixWellFormed(h, i);
    j := VisibleFromRetry(h[..i], h[i].attrs.scheduledId);
  }

  // ---------------------------------------------------------------- timers

  function FiredCount(h: seq<Event>, s: int): nat {
    if h == [] then 0 else
      FiredCount(h[..|h| - 1], s) +
      (if h[|h| - 1].attrs.TimerFired? && h[|h| - 1].attrs.startedId == s then 1 else 0)
  }

  /** A timer fires at most once, its row says whether it did, and only started timers fire. */
  lemma {:induction false} FiresAtMostOnce(h: seq<Event>, s: int)
    requires WellFormed(h)
    ensures FiredCount(h, s) <= 1
    ensures FiredCount(h, s) == 1 <==> s in TimersOf(h) && TimersOf(h)[s].fired
  {
    if h != [] {
      var init, e := h[..|h| - 1], h[|h| - 1];
      FiresAtMostOnce(init, s);
      if e.attrs.TimerStarted? {
        FutureIdsUnused(init, e.id);
      }
    }
  }

  lemma {:induction false} TimerRowFromLog(h: seq<Event>, s: int)
    requires WellFormed(h) && s in TimersOf(h)
    ensures 1 <= s <= |h| && h[s - 1].attrs.TimerStarted?
    ensures h[s - 1].attrs.fireTime == TimersOf(h)[s].fireAt == h[s - 1].time + h[s - 1].attrs.timeout
    ensures TimersOf(h)[s].timerId == h[s - 1].attrs.timerId
  {
    var init, e := h[..|h| - 1], h[|h| - 1];
    if !(e.attrs.TimerStarted? && e.id == s) {
      TimerRowFromLog(init, s);
    }
  }

  /** No timer fires before the deadline its start event recorded. */
  lemma NeverFiresEarly(h: seq<Event>, i: nat)
    requires WellFormed(h) && i < |h| && h[i].attrs.TimerFired?
    ensures var s := h[i].attrs.startedId;
            && 1 <= s <= i && h[s - 1].attrs.TimerStarted?
            && h[s - 1].time + h[s - 1].attrs.timeout <= h[i].time && h[i].attrs.timerId == h[s - 1].attrs.timerId
  {
    PrefixWellFormed(h, i);
    TimerRowFromLog(h[..i], h[i].attrs.startedId);
  }

  // ---------------------------------------------------------------- closing

  /** After a close no activity or timer is started, no signal accepted and no second close written. */
  lemma CloseIsFinal(h: seq<Event>, i: nat, j: nat)
    requires WellFormed(h) && i < j < |h| && IsClose(h[i].attrs)
    ensures !IsClose(h[j].attrs) && !IsRecord(h[j].attrs) && !h[j].attrs.Signaled?
  {
    hide WellFormed, Live, TimersOf;
    PrefixWellFormed(h, j);
    assert IsClose(h[..j][i].attrs);
    assert Closed(h[..j]);
  }
}
