/**
 The one-pass projection refines declarative lookup: entry n describes the n-th scheduled activity (or
 started timer) of the log, and its status and payload are those of the event that names it.
 */
module Projection {
  import opened Basics
  import opened History
  import opened Program
  import opened Replay
  import opened Backoff
  import opened Log
  import opened Sequential
  import opened Totals

  predicate CompletesAt(h: seq<Event>, j: int, s: int) {
    0 <= j < |h| && h[j].attrs.ActivityCompleted? && h[j].attrs.scheduledId == s
  }

  predicate FailsAt(h: seq<Event>, j: int, s: int) {
    0 <= j < |h| && h[j].attrs.ActivityFailed? && h[j].attrs.scheduledId == s
  }

  predicate FiresAt(h: seq<Event>, j: int, s: int) {
    0 <= j < |h| && h[j].attrs.TimerFired? && h[j].attrs.startedId == s
  }

  /** Event s schedules an activity, the n-th of the log. */
  predicate SchedulesNth(h: seq<Event>, s: int, n: nat) {
    1 <= s <= |h| && h[s - 1].attrs.ActivityScheduled? && ActivityCount(Records(h[..s - 1])) == n
  }

  predicate StartsNth(h: seq<Event>, s: int, n: nat) {
    1 <= s <= |h| && h[s - 1].attrs.TimerStarted? && TimerCount(Records(h[..s - 1])) == n
  }

  ghost predicate DescribesOutcome(h: seq<Event>, st: ActivityState) {
    && (st.completed <==> exists j :: CompletesAt(h, j, st.id))
    && (forall j :: CompletesAt(h, j, st.id) ==> st.result == h[j].attrs.result)
    && (st.failed <==> exists j :: FailsAt(h, j, st.id))
    && (forall j :: FailsAt(h, j, st.id) ==> st.failure == h[j].attrs.failure)
  }

  ghost predicate DescribesActivity(h: seq<Event>, st: ActivityState, n: nat) {
    SchedulesNth(h, st.id, n) && st.activityType == h[st.id - 1].attrs.call.activityType && DescribesOutcome(h, st)
  }

  ghost predicate DescribesTimer(h: seq<Event>, st: TimerState, n: nat) {
    StartsNth(h, st.id, n) && (st.fired <==> exists j :: FiresAt(h, j, st.id))
  }

  // ---------------------------------------------------------------- one more event

  lemma NthAppend(h: seq<Event>, e: Event, s: int, n: nat)
    requires 1 <= s <= |h|
    ensures SchedulesNth(h + [e], s, n) <==> SchedulesNth(h, s, n)
    ensures StartsNth(h + [e], s, n) <==> StartsNth(h, s, n)
  {
    hide Records, ActivityCount;
    assert (h + [e])[..s - 1] == h[..s - 1];
  }

  lemma NamingAppend(h: seq<Event>, e: Event, s: int)
    ensures forall j :: CompletesAt(h + [e], j, s) <==>
              CompletesAt(h, j, s) || (j == |h| && e.attrs.ActivityCompleted? && e.attrs.scheduledId == s)
    ensures forall j :: FailsAt(h + [e], j, s) <==>
              FailsAt(h, j, s) || (j == |h| && e.attrs.ActivityFailed? && e.attrs.scheduledId == s)
    ensures forall j :: FiresAt(h + [e], j, s) <==>
              FiresAt(h, j, s) || (j == |h| && e.attrs.TimerFired? && e.attrs.startedId == s)
  {
  }

  /** Nothing names an activity that is live, or an id not yet used. */
  lemma UnresolvedUnnamed(h: seq<Event>, s: int)
    requires WellFormed(h) && (s in Live(h) || s > |h|)
    ensures forall j :: !CompletesAt(h, j, s) && !FailsAt(h, j, s)
  {
    hide WellFormed, Live;
    ExactlyOneOutcome(h, s);
    if s > |h| {
      FutureIdsUnused(h, s);
    }
    ResolvedCounts(h, s);
    assert forall j :: CompletesAt(h, j, s) || FailsAt(h, j, s) ==> Resolves(h[j].attrs, s);
  }

  lemma OutcomeStep(h: seq<Event>, e: Event, st: ActivityState, st': ActivityState)
    requires DescribesOutcome(h, st) && st'.id == st.id
    requires Resolves(e.attrs, st.id) ==> forall j :: !CompletesAt(h, j, st.id) && !FailsAt(h, j, st.id)
    requires match e.attrs
             case ActivityCompleted(s, r) =>
               st' == if s == st.id then st.(completed := true, result := r) else st
             case ActivityFailed(s, f, _) =>
               st' == if s == st.id then st.(failed := true, failure := f) else st
             case _ => st' == st
    ensures DescribesOutcome(h + [e], st')
  {
    NamingAppend(h, e, st.id);
    if Resolves(e.attrs, st.id) {
      assert (h + [e])[|h|] == e;
      assert CompletesAt(h + [e], |h|, st.id) || FailsAt(h + [e], |h|, st.id);
    }
    if st.completed {
      var j :| CompletesAt(h, j, st.id);
      assert CompletesAt(h + [e], j, st.id);
    }
    if st.failed {
      var j :| FailsAt(h, j, st.id);
      assert FailsAt(h + [e], j, st.id);
    }
  }

  lemma NewActivity(h: seq<Event>, e: Event)
    requires WellFormed(h) && e.id == |h| + 1 && e.attrs.ActivityScheduled?
    ensures DescribesActivity(h + [e], ActivityState(e.id, e.attrs.call.activityType, false, [], false, None), ActivityCount(Records(h)))
  {
    hide WellFormed, Records, ActivityCount;
    UnresolvedUnnamed(h, e.id);
    NamingAppend(h, e, e.id);
    assert (h + [e])[..|h|] == h;
  }

  /** What a single event does to one entry of the projection. */
  lemma EntryStep(v: View, e: Event, n: nat)
    requires n < |v.activities|
    requires forall i, j :: 0 <= i < j < |v.activities| ==> v.activities[i].id != v.activities[j].id
    ensures var st, v' := v.activities[n], Absorb(v, e);
            && |v'.activities| >= |v.activities|
            && match e.attrs
               case ActivityCompleted(s, r) =>
                 v'.activities[n] == if s == st.id then st.(completed := true, result := r) else st
               case ActivityFailed(s, f, _) =>
                 v'.activities[n] == if s == st.id then st.(failed := true, failure := f) else st
               case _ => v'.activities[n] == st
  {
    hide Fire;
  }

  lemma ActivityEntry(h: seq<Event>, e: Event, n: nat)
    requires WellFormed(h) && e.id == |h| + 1 && Legal(h, e)
    requires n < |Absorb(ViewOf(h), e).activities|
    requires n < |ViewOf(h).activities| ==> DescribesActivity(h, ViewOf(h).activities[n], n)
    ensures DescribesActivity(h + [e], Absorb(ViewOf(h), e).activities[n], n)
  {
    hide WellFormed, Records, ActivityCount, DescribesOutcome, ViewOf, SchedulesNth, Live, TimersOf, Closed, ActivitiesMirror, Complete, MarkFailed;
    var v := ViewOf(h);
    if n < |v.activities| {
      DistinctIds(h);
      EntryStep(v, e, n);
      var st, st' := v.activities[n], Absorb(v, e).activities[n];
      if Resolves(e.attrs, st.id) {
        UnresolvedUnnamed(h, st.id);
      }
      OutcomeStep(h, e, st, st');
      NthIsPast(h, st.id, n);
      NthAppend(h, e, st.id, n);
    } else {
      assert n == ActivityCount(Records(h)) by { ProjectedCounts(h); }
      NewActivity(h, e);
    }
  }

  lemma NthIsPast(h: seq<Event>, s: int, n: nat)
    requires SchedulesNth(h, s, n)
    ensures 1 <= s <= |h|
  {
  }

  lemma DistinctIds(h: seq<Event>)
    requires WellFormed(h)
    ensures forall i, j :: 0 <= i < j < |ViewOf(h).activities| ==> ViewOf(h).activities[i].id != ViewOf(h).activities[j].id
    ensures forall i, j :: 0 <= i < j < |ViewOf(h).timers| ==> ViewOf(h).timers[i].id != ViewOf(h).timers[j].id
  {
    hide WellFormed, ViewOf, Live, TimersOf;
    ProjectionMirrorsTables(h);
  }

  lemma ProjectedCounts(h: seq<Event>)
    ensures |ViewOf(h).activities| == ActivityCount(Records(h)) && |ViewOf(h).timers| == TimerCount(Records(h))
  {
    hide ViewOf, Records, ActivityCount, Closed;
    ViewProjects(h);
  }

  lemma TimerEntry(h: seq<Event>, e: Event, n: nat)
    requires WellFormed(h) && e.id == |h| + 1 && Legal(h, e)
    requires n < |Absorb(ViewOf(h), e).timers|
    requires n < |ViewOf(h).timers| ==> DescribesTimer(h, ViewOf(h).timers[n], n)
    ensures DescribesTimer(h + [e], Absorb(ViewOf(h), e).timers[n], n)
  {
    hide WellFormed, Records, ActivityCount, ViewOf, Live, TimersOf, Closed, Complete, MarkFailed;
    var v := ViewOf(h);
    if n < |v.timers| {
      DistinctIds(h);
      var st := v.timers[n];
      NthAppend(h, e, st.id, n);
      NamingAppend(h, e, st.id);
      if st.fired {
        var j :| FiresAt(h, j, st.id);
        assert FiresAt(h + [e], j, st.id);
      }
      if e.attrs.TimerFired? && e.attrs.startedId == st.id {
        assert FiresAt(h + [e], |h|, st.id);
      }
    } else {
      assert n == TimerCount(Records(h)) by { ProjectedCounts(h); }
      assert (h + [e])[..|h|] == h;
      NamingAppend(h, e, e.id);
      UnfiredUnnamed(h, e.id);
    }
  }

  lemma UnfiredUnnamed(h: seq<Event>, s: int)
    requires WellFormed(h) && s > |h|
    ensures forall j :: !FiresAt(h, j, s)
  {
    hide WellFormed, TimersOf;
    forall j | FiresAt(h, j, s)
      ensures false
    {
      NeverFiresEarly(h, j);
    }
  }

  // ---------------------------------------------------------------- theorem

  ghost predicate DescribesLog(v: View, h: seq<Event>) {
    && (forall n :: 0 <= n < |v.activities| ==> DescribesActivity(h, v.activities[n], n))
    && (forall n :: 0 <= n < |v.timers| ==> DescribesTimer(h, v.timers[n], n))
  }

  /** Entry n of the projection is the n-th scheduled activity, or started timer, as the log tells it. */
  lemma {:induction false} ProjectionIsLookup(h: seq<Event>)
    requires WellFormed(h)
    ensures |ViewOf(h).activities| == ActivityCount(Records(h)) && |ViewOf(h).timers| == TimerCount(Records(h))
    ensures DescribesLog(ViewOf(h), h)
  {
    hide *;
    ProjectedCounts(h);
    if h == [] {
      EmptyDescribed();
    } else {
      Unsnoc(h);
      var init, e := h[..|h| - 1], h[|h| - 1];
      ProjectionIsLookup(init);
      ViewAppend(init, e);
      EntriesStep(init, e);
    }
  }

  lemma EmptyDescribed()
    ensures DescribesLog(ViewOf([]), [])
  {
  }

  lemma EntriesStep(h: seq<Event>, e: Event)
    requires WellFormed(h) && e.id == |h| + 1 && Legal(h, e) && DescribesLog(ViewOf(h), h)
    ensures DescribesLog(Absorb(ViewOf(h), e), h + [e])
  {
    hide WellFormed, Legal, ViewOf, Absorb, DescribesActivity, DescribesTimer;
    var v' := Absorb(ViewOf(h), e);
    forall n | 0 <= n < |v'.activities|
      ensures DescribesActivity(h + [e], v'.activities[n], n)
    {
      ActivityEntry(h, e, n);
    }
    forall n | 0 <= n < |v'.timers|
      ensures DescribesTimer(h + [e], v'.timers[n], n)
    {
      TimerEntry(h, e, n);
    }
  }

  // ---------------------------------------------------------------- every scheduled activity has an entry

  lemma {:induction false} RecordsPrefix(h: seq<Event>, i: nat, j: nat)
    requires i <= j <= |h|
    ensures Records(h[..i]) <= Records(h[..j])
  {
    if i < j {
      RecordsPrefix(h, i, j - 1);
      assert h[..j] == h[..j - 1] + [h[j - 1]];
      RecordsAppend(h[..j - 1], h[j - 1]);
    }
  }

  lemma RankGrows(h: seq<Event>, s: int, t: int)
    requires 1 <= s < t <= |h| && h[s - 1].attrs.ActivityScheduled?
    ensures ActivityCount(Records(h[..s - 1])) < ActivityCount(Records(h[..t - 1]))
  {
    hide Records;
    assert h[..s] == h[..s - 1] + [h[s - 1]];
    RecordCounts(h[..s - 1], h[s - 1]);
    RecordsPrefix(h, s, t - 1);
    CountPrefix(Records(h[..s]), Records(h[..t - 1]));
  }

  lemma EntryOf(h: seq<Event>, s: int) returns (n: nat)
    requires WellFormed(h) && 1 <= s <= |h| && h[s - 1].attrs.ActivityScheduled?
    ensures n < |ViewOf(h).activities| && ViewOf(h).activities[n].id == s && DescribesActivity(h, ViewOf(h).activities[n], n)
  {
    hide WellFormed, Records, ActivityCount, ViewOf, DescribesOutcome, DescribesTimer;
    ProjectionIsLookup(h);
    n := ActivityCount(Records(h[..s - 1]));
    RankGrowsToEnd(h, s);
    var t := ViewOf(h).activities[n].id;
    assert DescribesActivity(h, ViewOf(h).activities[n], n);
    if s < t {
      RankGrows(h, s, t);
    } else if t < s {
      RankGrows(h, t, s);
    }
  }

  lemma RankGrowsToEnd(h: seq<Event>, s: int)
    requires 1 <= s <= |h| && h[s - 1].attrs.ActivityScheduled?
    ensures ActivityCount(Records(h[..s - 1])) < ActivityCount(Records(h))
  {
    hide Records, ActivityCount;
    assert h[..s] == h[..s - 1] + [h[s - 1]];
    RecordCounts(h[..s - 1], h[s - 1]);
    RecordsPrefix(h, s, |h|);
    assert h[..|h|] == h;
    CountPrefix(Records(h[..s]), Records(h));
  }
}
