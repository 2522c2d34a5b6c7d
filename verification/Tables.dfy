/** The promises about one run's tables and log, in every reachable state of the whole system. */
module Tables {
  import opened Basics
  import opened History
  import opened Program
  import opened Replay
  import opened Backoff
  import opened Log
  import opened Store
  import opened RunInvariant
  import opened System
  import opened Durability
  import opened Sequential
  import opened Totals

  lemma ReachableIndexed(reg: Registry, states: seq<System>, actions: seq<Action>, i: nat, k: RunKey)
    requires Behavior(reg, states, actions) && i < |states| && k in states[i].store.runs
    ensures Indexed(states[i].store.runs[k])
  {
    hide Step, Indexed, TokensKnown, TokensUnique, OneRunning, MessagesOk;
    ReachableInv(reg, states, actions, i);
  }

  /**
   Status, event allocator, activity rows and timer rows are folds of the log, whose ids are 1, 2, 3, ...
   without gaps and whose only start event is the first.
   */
  lemma TablesIndexLog(reg: Registry, states: seq<System>, actions: seq<Action>, i: nat, k: RunKey)
    requires Behavior(reg, states, actions) && i < |states| && k in states[i].store.runs
    ensures var r := states[i].store.runs[k];
            && r.status == StatusOf(r.history)
            && r.nextEventId == |r.history| + 1
            && Columns(r.activities) == Live(r.history)
            && r.timers == TimersOf(r.history)
            && forall j :: 0 <= j < |r.history| ==>
                 r.history[j].id == j + 1 && (r.history[j].attrs.WorkflowStarted? <==> j == 0)
  {
    hide Behavior, WellFormed, Live, TimersOf, StatusOf;
    ReachableIndexed(reg, states, actions, i, k);
    var h := states[i].store.runs[k].history;
    forall j | 0 <= j < |h|
      ensures h[j].id == j + 1 && (h[j].attrs.WorkflowStarted? <==> j == 0)
    {
      GapFree(h, j);
    }
  }

  /**
   Exactly one outcome. For a scheduled event, live rows plus outcome events are exactly one; for
   any other id both are zero, so an outcome always names an earlier scheduled event.
   */
  lemma OneOutcomeEach(reg: Registry, states: seq<System>, actions: seq<Action>, i: nat, k: RunKey, s: int)
    requires Behavior(reg, states, actions) && i < |states| && k in states[i].store.runs
    ensures var r := states[i].store.runs[k];
            && (if s in r.activities then 1 else 0) + OutcomeCount(r.history, s) == (if SchedulesAt(r.history, s) then 1 else 0)
            && forall j :: 0 <= j < |r.history| && Resolves(r.history[j].attrs, s) ==> s <= j && SchedulesAt(r.history, s)
  {
    hide Behavior, WellFormed, Live, TimersOf, StatusOf, OutcomeCount, ScheduleCount;
    ReachableIndexed(reg, states, actions, i, k);
    var r := states[i].store.runs[k];
    ExactlyOneOutcome(r.history, s);
    ScheduledOnce(r.history, s);
    assert s in r.activities <==> s in Columns(r.activities);
    forall j | 0 <= j < |r.history| && Resolves(r.history[j].attrs, s)
      ensures s <= j && SchedulesAt(r.history, s)
    {
      OutcomeNamesEarlier(r.history, j, s);
    }
  }

  lemma OutcomeNamesEarlier(h: seq<Event>, j: nat, s: int)
    requires WellFormed(h) && j < |h| && Resolves(h[j].attrs, s)
    ensures s <= j && SchedulesAt(h, s)
  {
    hide WellFormed, Live, TimersOf, Closed;
    PrefixWellFormed(h, j);
    LiveOrigin(h[..j], s);
  }

  /** At most one close event, RUNNING exactly without one, and nothing is started after it. */
  lemma CloseIsFinalEverywhere(reg: Registry, states: seq<System>, actions: seq<Action>, i: nat, k: RunKey)
    requires Behavior(reg, states, actions) && i < |states| && k in states[i].store.runs
    ensures var r := states[i].store.runs[k];
            && Closes(r.history) == (if r.status == StatusRunning then 0 else 1)
            && forall a, b :: 0 <= a < b < |r.history| && IsClose(r.history[a].attrs) ==>
                 !IsClose(r.history[b].attrs) && !IsRecord(r.history[b].attrs) && !r.history[b].attrs.Signaled?
  {
    hide Behavior, WellFormed, Live, TimersOf, StatusOf, Closes;
    ReachableIndexed(reg, states, actions, i, k);
    var r := states[i].store.runs[k];
    ClosesOnce(r.history);
    ClosedStatus(r);
    forall a, b | 0 <= a < b < |r.history| && IsClose(r.history[a].attrs)
      ensures !IsClose(r.history[b].attrs) && !IsRecord(r.history[b].attrs) && !r.history[b].attrs.Signaled?
    {
      CloseIsFinal(r.history, a, b);
    }
  }

  /** The attempt columns of every live row against the started and retry events of the log. */
  lemma AttemptsEverywhere(reg: Registry, states: seq<System>, actions: seq<Action>, i: nat, k: RunKey, s: int)
    requires Behavior(reg, states, actions) && i < |states| && k in states[i].store.runs
    ensures var r := states[i].store.runs[k];
            && StartedAttempts(r.history, s) == UpTo(|StartedAttempts(r.history, s)|)
            && (s in r.activities ==>
                  var t := r.activities[s];
                  AttemptsAgree(r.history, s, t.columns) && (t.lockedBy.Some? ==> t.columns.lastStarted == t.columns.attempt))
  {
    hide Behavior, WellFormed, Live, TimersOf, StatusOf, AttemptsAgree, StartedAttempts;
    ReachableIndexed(reg, states, actions, i, k);
    var r := states[i].store.runs[k];
    AttemptDiscipline(r.history, s);
    assert s in r.activities ==> Columns(r.activities)[s] == r.activities[s].columns;
  }

  /** Each started timer has at most one fired event, no earlier than its deadline; the flag records it. */
  lemma TimersEverywhere(reg: Registry, states: seq<System>, actions: seq<Action>, i: nat, k: RunKey, s: int)
    requires Behavior(reg, states, actions) && i < |states| && k in states[i].store.runs
    ensures var r := states[i].store.runs[k];
            && FiredCount(r.history, s) == (if s in r.timers && r.timers[s].fired then 1 else 0)
            && forall j :: 0 <= j < |r.history| && r.history[j].attrs.TimerFired? ==>
                 var t := r.history[j].attrs.startedId;
                 && 1 <= t <= j && r.history[t - 1].attrs.TimerStarted?
                 && r.history[t - 1].time + r.history[t - 1].attrs.timeout <= r.history[j].time
                 && r.history[j].attrs.timerId == r.history[t - 1].attrs.timerId
  {
    hide Behavior, WellFormed, Live, TimersOf, StatusOf, FiredCount;
    ReachableIndexed(reg, states, actions, i, k);
    var r := states[i].store.runs[k];
    FiresAtMostOnce(r.history, s);
    forall j | 0 <= j < |r.history| && r.history[j].attrs.TimerFired?
      ensures var t := r.history[j].attrs.startedId;
              && 1 <= t <= j && r.history[t - 1].attrs.TimerStarted?
              && r.history[t - 1].time + r.history[t - 1].attrs.timeout <= r.history[j].time
              && r.history[j].attrs.timerId == r.history[t - 1].attrs.timerId
    {
      NeverFiresEarly(r.history, j);
    }
  }

  /** The row is the scheduled event's call, to the last column. */
  ghost predicate RowFromEvent(row: ActivityColumns, e: Event) {
    && e.attrs.ActivityScheduled?
    && row.activityId == e.attrs.call.activityId && row.activityType == e.attrs.call.activityType
    && row.queue == e.attrs.call.queue && row.input == e.attrs.call.input
    && (row.attempt == 1 ==> row.visibleAt == e.time)
  }

  lemma RowOfLog(r: Run, s: int)
    requires Indexed(r) && s in r.activities
    ensures 1 <= s <= |r.history| && RowFromEvent(r.activities[s].columns, r.history[s - 1])
  {
    hide WellFormed, Live, TimersOf, StatusOf;
    assert Columns(r.activities)[s] == r.activities[s].columns;
    LiveOrigin(r.history, s);
  }

  /** In every reachable state a live row carries its scheduled event's id, type, queue and input. */
  lemma RowsFromLog(reg: Registry, states: seq<System>, actions: seq<Action>, i: nat, k: RunKey, s: int)
    requires Behavior(reg, states, actions) && i < |states|
    requires k in states[i].store.runs && s in states[i].store.runs[k].activities
    ensures var r := states[i].store.runs[k];
            1 <= s <= |r.history| && RowFromEvent(r.activities[s].columns, r.history[s - 1])
  {
    hide Behavior, Indexed, RowFromEvent;
    ReachableIndexed(reg, states, actions, i, k);
    RowOfLog(states[i].store.runs[k], s);
  }
}
