/** Counting events of a well-formed log: how many steps a run can take in all. */
module Totals {
  import opened Basics
  import opened History
  import opened Program
  import opened Backoff
  import opened Log
  import opened Sequential
  import opened Progress

  /** Events that mark progress: everything but the start and the hand-outs of attempts. */
  predicate IsMilestone(a: Attributes) {
    !a.WorkflowStarted? && !a.ActivityStarted?
  }

  function Milestones(h: seq<Event>): nat {
    if h == [] then 0 else Milestones(h[..|h| - 1]) + (if IsMilestone(h[|h| - 1].attrs) then 1 else 0)
  }

  function Outcomes(h: seq<Event>): nat {
    if h == [] then 0 else
      Outcomes(h[..|h| - 1]) + (if h[|h| - 1].attrs.ActivityCompleted? || h[|h| - 1].attrs.ActivityFailed? then 1 else 0)
  }

  function Fires(h: seq<Event>): nat {
    if h == [] then 0 else Fires(h[..|h| - 1]) + (if h[|h| - 1].attrs.TimerFired? then 1 else 0)
  }

  function Retries(h: seq<Event>): nat {
    if h == [] then 0 else Retries(h[..|h| - 1]) + (if h[|h| - 1].attrs.ActivityRetryScheduled? then 1 else 0)
  }

  function Closes(h: seq<Event>): nat {
    if h == [] then 0 else Closes(h[..|h| - 1]) + (if IsClose(h[|h| - 1].attrs) then 1 else 0)
  }

  function Signals(h: seq<Event>): nat {
    if h == [] then 0 else Signals(h[..|h| - 1]) + (if h[|h| - 1].attrs.Signaled? then 1 else 0)
  }

  lemma {:induction false} MilestonesSplit(h: seq<Event>)
    ensures Milestones(h) == |Records(h)| + Outcomes(h) + Fires(h) + Retries(h) + Closes(h) + Signals(h)
  {
    if h != [] {
      MilestonesSplit(h[..|h| - 1]);
    }
  }

  lemma RecordCounts(h: seq<Event>, e: Event)
    ensures ActivityCount(Records(h + [e])) == ActivityCount(Records(h)) + (if e.attrs.ActivityScheduled? then 1 else 0)
    ensures TimerCount(Records(h + [e])) == TimerCount(Records(h)) + (if e.attrs.TimerStarted? then 1 else 0)
  {
    hide Records;
    RecordsAppend(h, e);
    var before, after := Records(h), Records(h + [e]);
    if IsRecord(e.attrs) {
      assert after[..|after| - 1] == before;
    } else {
      assert after == before;
    }
  }

  lemma LiveBalance(h: seq<Event>, e: Event)
    requires WellFormed(h) && Legal(h, e) && e.id == |h| + 1
    ensures |Live(h + [e])| == |Live(h)| + (if e.attrs.ActivityScheduled? then 1 else 0)
                               - (if e.attrs.ActivityCompleted? || e.attrs.ActivityFailed? then 1 else 0)
  {
    hide WellFormed, Live, TimersOf, Closed;
    LogAppend(h, e);
    if e.attrs.ActivityScheduled? {
      FutureIdsUnused(h, e.id);
      GrownByOne(Live(h), Live(h + [e]), e.id);
    } else if e.attrs.TimerStarted? {
    } else {
      LiveStepCount(h, e);
    }
  }

  lemma GrownByOne<T, U>(m: map<T, U>, m': map<T, U>, t: T)
    requires t !in m && t in m' && m' == m[t := m'[t]]
    ensures |m'| == |m| + 1
  {
    assert m'.Keys == m.Keys + {t};
    assert |m'| == |m'.Keys| && |m| == |m.Keys|;
  }

  lemma UnfiredBalance(h: seq<Event>, e: Event)
    requires WellFormed(h) && Legal(h, e) && e.id == |h| + 1
    ensures |Unfired(h + [e])| == |Unfired(h)| + (if e.attrs.TimerStarted? then 1 else 0) - (if e.attrs.TimerFired? then 1 else 0)
  {
    hide WellFormed, Live, TimersOf, Closed;
    LogAppend(h, e);
    FutureIdsUnused(h, e.id);
    if e.attrs.TimerStarted? {
      assert Unfired(h + [e]) == Unfired(h) + {e.id};
    } else if e.attrs.ActivityScheduled? {
      assert Unfired(h + [e]) == Unfired(h);
    } else {
      UnfiredStep(h, e);
    }
  }

  lemma EventCounts(h: seq<Event>, e: Event)
    ensures Outcomes(h + [e]) == Outcomes(h) + (if e.attrs.ActivityCompleted? || e.attrs.ActivityFailed? then 1 else 0)
    ensures Fires(h + [e]) == Fires(h) + (if e.attrs.TimerFired? then 1 else 0)
    ensures Retries(h + [e]) == Retries(h) + (if e.attrs.ActivityRetryScheduled? then 1 else 0)
  {
    assert (h + [e])[..|h|] == h;
  }

  lemma Unsnoc(h: seq<Event>)
    requires WellFormed(h) && h != []
    ensures h == h[..|h| - 1] + [h[|h| - 1]]
    ensures WellFormed(h[..|h| - 1]) && Legal(h[..|h| - 1], h[|h| - 1]) && h[|h| - 1].id == |h|
  {
  }

  /** Scheduled activities are the resolved ones plus the live ones; started timers likewise. */
  lemma {:induction false} Balance(h: seq<Event>)
    requires WellFormed(h)
    ensures Outcomes(h) + |Live(h)| == ActivityCount(Records(h))
    ensures Fires(h) + |Unfired(h)| == TimerCount(Records(h))
  {
    hide *;
    if h == [] {
      EmptyBalance();
    } else {
      Unsnoc(h);
      var init, e := h[..|h| - 1], h[|h| - 1];
      Balance(init);
      RecordCounts(init, e);
      LiveBalance(init, e);
      UnfiredBalance(init, e);
      EventCounts(init, e);
    }
  }

  lemma EmptyBalance()
    ensures Outcomes([]) + |Live([])| == ActivityCount(Records([]))
    ensures Fires([]) + |Unfired([])| == TimerCount(Records([]))
  {
    EmptyFolds();
    assert forall s :: s !in Unfired([]);
  }

  lemma {:induction false} ClosesOnce(h: seq<Event>)
    requires WellFormed(h)
    ensures Closes(h) == (if Closed(h) then 1 else 0)
  {
    if h == [] {
      EmptyFolds();
    } else {
      var init, e := h[..|h| - 1], h[|h| - 1];
      ClosesOnce(init);
      ClosedAppend(init, e);
      assert h == init + [e];
    }
  }

  // ---------------------------------------------------------------- retries

  function SumTo(f: int -> nat, n: nat): nat {
    if n == 0 then 0 else SumTo(f, n - 1) + f(n)
  }

  lemma {:induction false} SumBump(f: int -> nat, g: int -> nat, n: nat, at: int, extra: nat)
    requires forall s :: s != at ==> g(s) == f(s)
    requires g(at) == f(at) + extra
    ensures SumTo(g, n) == SumTo(f, n) + (if 1 <= at <= n then extra else 0)
  {
    if n > 0 {
      SumBump(f, g, n - 1, at, extra);
    }
  }

  lemma {:induction false} SumScale(f: int -> nat, g: int -> nat, n: nat, c: nat)
    requires forall s :: f(s) <= c * g(s)
    ensures SumTo(f, n) <= c * SumTo(g, n)
  {
    if n > 0 {
      SumScale(f, g, n - 1, c);
      assert f(n) <= c * g(n);
      assert c * SumTo(g, n) == c * SumTo(g, n - 1) + c * g(n);
    } else {
      assert c * SumTo(g, 0) == 0;
    }
  }

  ghost function RetriesOf(h: seq<Event>): int -> nat {
    s => RetryCount(h, s)
  }

  ghost function SchedulesOf(h: seq<Event>): int -> nat {
    s => ScheduleCount(h, s)
  }

  /** A live activity was scheduled by the event its id names, with that event's policy. */
  lemma {:induction false} LiveOrigin(h: seq<Event>, s: int)
    requires WellFormed(h) && s in Live(h)
    ensures 1 <= s <= |h| && h[s - 1].attrs.ActivityScheduled?
    ensures Live(h)[s].blob == Marshal(h[s - 1].attrs.call.policy)
    ensures Live(h)[s].activityId == h[s - 1].attrs.call.activityId
    ensures Live(h)[s].activityType == h[s - 1].attrs.call.activityType
    ensures Live(h)[s].input == h[s - 1].attrs.call.input && Live(h)[s].queue == h[s - 1].attrs.call.queue
    ensures Live(h)[s].attempt == 1 ==> Live(h)[s].visibleAt == h[s - 1].time
  {
    var init, e := h[..|h| - 1], h[|h| - 1];
    if !Schedules(e, s) {
      LiveOrigin(init, s);
      AttemptDiscipline(init, s);
    }
  }

  lemma CountsAppend(h: seq<Event>, e: Event, s: int)
    ensures RetryCount(h + [e], s) == RetryCount(h, s) + (if e.attrs.ActivityRetryScheduled? && e.attrs.scheduledId == s then 1 else 0)
    ensures ScheduleCount(h + [e], s) == ScheduleCount(h, s) + (if Schedules(e, s) then 1 else 0)
  {
    assert (h + [e])[..|h|] == h;
  }

  lemma SumsAppend(h: seq<Event>, e: Event, n: nat)
    requires WellFormed(h) && Legal(h, e) && e.id == |h| + 1 <= n
    ensures SumTo(RetriesOf(h + [e]), n) == SumTo(RetriesOf(h), n) + (if e.attrs.ActivityRetryScheduled? then 1 else 0)
    ensures SumTo(SchedulesOf(h + [e]), n) == SumTo(SchedulesOf(h), n) + (if e.attrs.ActivityScheduled? then 1 else 0)
  {
    hide WellFormed, Live, TimersOf, Closed, RetryCount, ScheduleCount;
    forall s
      ensures RetryCount(h + [e], s) == RetryCount(h, s) + (if e.attrs.ActivityRetryScheduled? && e.attrs.scheduledId == s then 1 else 0)
      ensures ScheduleCount(h + [e], s) == ScheduleCount(h, s) + (if Schedules(e, s) then 1 else 0)
    {
      CountsAppend(h, e, s);
    }
    var r := if e.attrs.ActivityRetryScheduled? then e.attrs.scheduledId else 1;
    if e.attrs.ActivityRetryScheduled? {
      LiveOrigin(h, r);
    }
    SumBump(RetriesOf(h), RetriesOf(h + [e]), n, r, if e.attrs.ActivityRetryScheduled? then 1 else 0);
    SumBump(SchedulesOf(h), SchedulesOf(h + [e]), n, e.id, if e.attrs.ActivityScheduled? then 1 else 0);
  }

  lemma {:induction false} RetriesSum(h: seq<Event>, n: nat)
    requires WellFormed(h) && |h| <= n
    ensures Retries(h) == SumTo(RetriesOf(h), n)
    ensures ActivityCount(Records(h)) == SumTo(SchedulesOf(h), n)
  {
    if h == [] {
      SumZero(RetriesOf(h), n);
      SumZero(SchedulesOf(h), n);
    } else {
      hide *;
      Unsnoc(h);
      var init, e := h[..|h| - 1], h[|h| - 1];
      RetriesSum(init, n);
      SumsAppend(init, e, n);
      RecordCounts(init, e);
      EventCounts(init, e);
    }
  }

  lemma {:induction false} SumZero(f: int -> nat, n: nat)
    requires forall s :: f(s) == 0
    ensures SumTo(f, n) == 0
  {
    if n > 0 {
      SumZero(f, n - 1);
    }
  }

  /** Every scheduled activity allows at most `max` attempts. */
  ghost predicate AttemptsBounded(h: seq<Event>, max: nat) {
    forall i :: 0 <= i < |h| && h[i].attrs.ActivityScheduled? ==>
      0 < PolicyOrDefault(Marshal(h[i].attrs.call.policy)).maxAttempts <= max
  }

  lemma {:induction false} RetryBound(h: seq<Event>, s: int, max: nat)
    requires WellFormed(h) && AttemptsBounded(h, max) && max > 0
    ensures RetryCount(h, s) <= (max - 1) * ScheduleCount(h, s)
  {
    if h != [] {
      var init, e := h[..|h| - 1], h[|h| - 1];
      RetryBound(init, s, max);
      ExactlyOneOutcome(init, s);
      ExactlyOneOutcome(h, s);
      if e.attrs.ActivityRetryScheduled? && e.attrs.scheduledId == s {
        hide Legal, Closed, TimersOf;
        LiveAfterRetry(init, e, s);
        AttemptDiscipline(h, s);
        LiveOrigin(h, s);
        assert ScheduleCount(h, s) == 1;
      } else {
        assert ScheduleCount(init, s) <= ScheduleCount(h, s);
      }
    }
  }

  lemma LiveAfterRetry(h: seq<Event>, e: Event, s: int)
    requires Legal(h, e) && e.attrs.ActivityRetryScheduled? && e.attrs.scheduledId == s
    ensures s in Live(h + [e])
  {
    hide Live, Closed, TimersOf;
    LogAppend(h, e);
  }

  lemma RetriesBounded(h: seq<Event>, max: nat)
    requires WellFormed(h) && AttemptsBounded(h, max) && max > 0
    ensures Retries(h) <= (max - 1) * ActivityCount(Records(h))
  {
    hide WellFormed, Live, RetryCount, ScheduleCount, Records, SumTo;
    RetriesSum(h, |h|);
    forall s
      ensures RetriesOf(h)(s) <= (max - 1) * SchedulesOf(h)(s)
    {
      RetryBound(h, s, max);
    }
    SumScale(RetriesOf(h), SchedulesOf(h), |h|, max - 1);
  }

  /** The most progress an unsignaled run can ever make, from the calls it records. */
  lemma MilestoneBound(h: seq<Event>, max: nat)
    requires WellFormed(h) && AttemptsBounded(h, max) && max > 0 && Signals(h) == 0
    ensures Milestones(h) <= |Records(h)| + ActivityCount(Records(h)) + TimerCount(Records(h)) + (max - 1) * ActivityCount(Records(h)) + 1
  {
    hide WellFormed, Live, Records;
    MilestonesSplit(h);
    Balance(h);
    RetriesBounded(h, max);
    ClosesOnce(h);
  }
}
