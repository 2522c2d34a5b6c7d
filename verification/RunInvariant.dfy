/** What every transaction keeps of one run: the log is well formed and the tables are its fold. */
module RunInvariant {
  import opened Basics
  import opened History
  import opened Program
  import opened Backoff
  import opened Replay
  import opened Log
  import opened Store

  function Columns(m: map<int, ActivityTask>): map<int, ActivityColumns> {
    map s | s in m :: m[s].columns
  }

  /** A locked activity is one whose current attempt has been started. */
  predicate LocksStarted(m: map<int, ActivityTask>) {
    forall s :: s in m && m[s].lockedBy.Some? ==> UnderWay(m[s].columns)
  }

  ghost predicate Indexed(r: Run) {
    && WellFormed(r.history)
    && r.history != []
    && r.nextEventId == |r.history| + 1
    && r.status == StatusOf(r.history)
    && Columns(r.activities) == Live(r.history)
    && r.timers == TimersOf(r.history)
    && LocksStarted(r.activities)
    && r.history[0].attrs == WorkflowStarted(r.workflowType, r.queue, r.input)
    && (r.task.Some? ==> r.task.value.queue == r.queue)
  }

  /** Appending a legal event keeps the index, provided the rows follow the fold. */
  lemma AppendKeeps(r: Run, now: int, a: Attributes, r': Run)
    requires Indexed(r)
    requires Legal(r.history, Event(r.nextEventId, now, a))
    requires r'.history == Append(r, now, a).history && r'.nextEventId == r.nextEventId + 1
    requires r'.workflowType == r.workflowType && r'.queue == r.queue && r'.input == r.input
    requires Columns(r'.activities) == LiveStep(Live(r.history), Event(r.nextEventId, now, a))
    requires r'.timers == TimerStep(TimersOf(r.history), Event(r.nextEventId, now, a))
    requires LocksStarted(r'.activities)
    requires r'.status == (match a case WorkflowCompleted(_) => StatusCompleted case WorkflowFailed(_) => StatusFailed case _ => r.status)
    requires r'.task.Some? ==> r'.task.value.queue == r.queue
    ensures Indexed(r')
  {
    hide WellFormed, Live, TimersOf, LiveStep, TimerStep, StatusOf, Columns, LocksStarted;
    var e := Event(r.nextEventId, now, a);
    LogAppend(r.history, e);
    StatusAppend(r.history, e);
  }

  /** The next event id is no row's key yet, so inserting a row never violates a unique index. */
  lemma NextIdIsFresh(r: Run)
    requires Indexed(r)
    ensures r.nextEventId !in r.activities && r.nextEventId !in r.timers
  {
    ColumnsAt(r, r.nextEventId);
    FutureIdsUnused(r.history, r.nextEventId);
  }

  lemma NewRunIndexed(workflowType: string, queue: string, input: Bytes, token: nat, now: int)
    ensures Indexed(NewRun(workflowType, queue, input, token, now))
  {
    var r := NewRun(workflowType, queue, input, token, now);
    var e := Event(1, now, WorkflowStarted(workflowType, queue, input));
    assert r.history == [] + [e];
    LogAppend([], e);
    StatusAppend([], e);
    EmptyFolds();
  }

  lemma EnqueueKeeps(r: Run, token: nat, now: int)
    requires Indexed(r)
    ensures Indexed(Enqueue(r, token, now))
  {
  }

  lemma SignalKeeps(r: Run, now: int, name: string, input: Bytes)
    requires Indexed(r) && r.status == StatusRunning
    ensures Indexed(Append(r, now, Signaled(name, input)))
  {
    StatusAppend(r.history, Event(r.nextEventId, now, Signaled(name, input)));
    AppendKeeps(r, now, Signaled(name, input), Append(r, now, Signaled(name, input)));
  }

  /** A command on an open run writes its event and its row together. */
  lemma CommandKeeps(r: Run, now: int, token: nat, c: Command)
    requires Indexed(r) && !Closed(r.history)
    ensures Indexed(ApplyCommand(r, now, token, c))
    ensures Closed(ApplyCommand(r, now, token, c).history) == IsTerminal(c)
  {
    hide WellFormed, Live, TimersOf, StatusOf, Closed;
    var r' := ApplyCommand(r, now, token, c);
    var e := r'.history[|r.history|];
    ClosedAppend(r.history, e);
    AppendKeeps(r, now, e.attrs, r');
  }

  lemma {:induction false} CommandsKeep(r: Run, now: int, token: nat, cs: seq<Command>)
    requires Indexed(r)
    requires cs != [] ==> !Closed(r.history)
    ensures Indexed(ApplyCommands(r, now, token, cs))
    decreases |cs|
  {
    hide Indexed, ApplyCommand, Closed;
    if cs != [] {
      CommandKeeps(r, now, token, cs[0]);
      if !IsTerminal(cs[0]) {
        CommandsKeep(ApplyCommand(r, now, token, cs[0]), now, token + TokensFor(cs[0]), cs[1..]);
      }
    }
  }

  lemma CommitKeeps(r: Run, now: int, token: nat, cs: seq<Command>)
    requires Indexed(r)
    requires cs != [] ==> !Closed(r.history)
    ensures Indexed(Commit(r, now, token, cs))
  {
    hide ApplyCommands, WellFormed, Live, TimersOf, StatusOf;
    CommandsKeep(r, now, token, cs);
  }

  lemma LeaseTaskKeeps(r: Run, now: int, identity: string, lease: int)
    requires Indexed(r) && r.task.Some?
    ensures Indexed(LeaseTask(r, now, identity, lease))
  {
  }

  lemma ColumnsUpdate(m: map<int, ActivityTask>, s: int, t: ActivityTask)
    ensures Columns(m[s := t]) == Columns(m)[s := t.columns]
    ensures LocksStarted(m) && (t.lockedBy.Some? ==> UnderWay(t.columns)) ==> LocksStarted(m[s := t])
  {
  }

  lemma ColumnsRemove(m: map<int, ActivityTask>, s: int)
    ensures Columns(m - {s}) == Columns(m) - {s}
    ensures LocksStarted(m) ==> LocksStarted(m - {s})
  {
  }

  lemma ColumnsAt(r: Run, s: int)
    requires Indexed(r)
    ensures s in r.activities <==> s in Live(r.history)
    ensures s in r.activities ==> Live(r.history)[s] == r.activities[s].columns
  {
    assert s in r.activities <==> s in Columns(r.activities);
  }

  /** Handing out an activity records the attempt once, whatever the number of deliveries. */
  lemma LeaseActivityKeeps(r: Run, s: int, now: int, identity: string, lease: int)
    requires Indexed(r) && Pollable(r, s, now)
    ensures Indexed(LeaseActivity(r, s, now, identity, lease))
    ensures LeaseActivity(r, s, now, identity, lease).history ==
            r.history + (if UnderWay(r.activities[s].columns) then [] else
                           [Event(r.nextEventId, now, ActivityStarted(s, identity, r.activities[s].columns.attempt))])
  {
    hide WellFormed, Live, TimersOf, StatusOf, Columns, LocksStarted, Closed;
    var r' := LeaseActivity(r, s, now, identity, lease);
    var c := r.activities[s].columns;
    ColumnsAt(r, s);
    AttemptDiscipline(r.history, s);
    ColumnsUpdate(r.activities, s, r'.activities[s]);
    if c.attempt > c.lastStarted {
      AppendKeeps(r, now, ActivityStarted(s, identity, c.attempt), r');
    } else {
      SameColumns(r.activities, s, c);
    }
  }

  lemma SameColumns(m: map<int, ActivityTask>, s: int, c: ActivityColumns)
    requires s in m && m[s].columns == c
    ensures Columns(m)[s := c] == Columns(m)
  {
  }

  /** An outcome removes the row it names. */
  lemma ResolveKeeps(r: Run, s: int, now: int, a: Attributes, token: nat)
    requires Indexed(r) && s in r.activities && r.activities[s].lockedBy.Some?
    requires Resolves(a, s)
    requires a.ActivityFailed? && a.retryable ==> !CanRetry(EffectivePolicy(r.activities[s].columns), r.activities[s].columns.attempt)
    ensures Indexed(ResolveActivity(r, s, now, a, token))
  {
    hide WellFormed, Live, TimersOf, StatusOf, Columns, Closed;
    var r' := Append(r, now, a).(activities := r.activities - {s});
    ColumnsAt(r, s);
    ColumnsRemove(r.activities, s);
    AppendKeeps(r, now, a, r');
    EnqueueKeeps(r', token, now);
  }

  lemma RetryKeeps(r: Run, s: int, now: int, failure: Option<Failure>, outOfRange: int)
    requires Indexed(r) && s in r.activities && r.activities[s].lockedBy.Some?
    requires CanRetry(EffectivePolicy(r.activities[s].columns), r.activities[s].columns.attempt)
    ensures var c := r.activities[s].columns;
            Indexed(RetryActivity(r, s, now, failure, Delay(EffectivePolicy(c), c.attempt, outOfRange)))
  {
    hide WellFormed, Live, TimersOf, StatusOf, Columns, Closed, Delay, CanRetry;
    var c := r.activities[s].columns;
    var delay := Delay(EffectivePolicy(c), c.attempt, outOfRange);
    var r' := RetryActivity(r, s, now, failure, delay);
    ColumnsAt(r, s);
    ColumnsUpdate(r.activities, s, r'.activities[s]);
    assert Backs(EffectivePolicy(c), c.attempt, now + delay - now);
    AppendKeeps(r, now, ActivityRetryScheduled(s, c.attempt + 1, now + delay, failure), r');
  }

  /** Firing marks the row and writes the event together. */
  lemma FireKeeps(r: Run, s: int, now: int, token: nat)
    requires Indexed(r) && Due(r, s, now)
    ensures Indexed(FireTimer(r, s, now, token))
  {
    hide WellFormed, Live, TimersOf, StatusOf, Columns, Closed;
    var a := TimerFired(r.timers[s].timerId, s);
    var r' := Append(r, now, a).(timers := r.timers[s := r.timers[s].(fired := true)]);
    AppendKeeps(r, now, a, r');
    EnqueueKeeps(r', token, now);
  }

  lemma HeartbeatKeeps(r: Run, s: int, until: int)
    requires Indexed(r) && s in r.activities
    ensures Indexed(r.(activities := r.activities[s := r.activities[s].(lockedUntil := Some(until))]))
  {
    hide WellFormed, Live, TimersOf, StatusOf, Columns;
    var t := r.activities[s].(lockedUntil := Some(until));
    ColumnsUpdate(r.activities, s, t);
    SameColumns(r.activities, s, t.columns);
  }
}
