/**
 The log as an account of what was done. For every action this module says, on the state before it, which
 events it adds to which log and with which payload. Signals, results and failures therefore reach the log,
 and from there the workflow code, exactly as they were reported.
 */
module Journal {
  import opened Basics
  import opened History
  import opened Program
  import opened Replay
  import opened Backoff
  import opened Log
  import opened Store
  import opened RunInvariant
  import opened System
  import opened Durability

  // ---------------------------------------------------------------- one action

  /** The identity holds the lock of the row with this task id. */
  ghost predicate Holds(c: System, k: RunKey, s: int, token: int, identity: string) {
    && k in c.store.runs && s in c.store.runs[k].activities
    && c.store.runs[k].activities[s].taskId == token && c.store.runs[k].activities[s].lockedBy == Some(identity)
  }

  ghost predicate HoldsTask(c: System, k: RunKey, token: int, identity: string) {
    && k in c.store.runs && c.store.runs[k].task.Some?
    && c.store.runs[k].task.value.taskId == token && c.store.runs[k].task.value.lockedBy == Some(identity)
  }

  function LogAt(c: System, k: RunKey): seq<Event> {
    if k in c.store.runs then c.store.runs[k].history else []
  }

  /** Exactly one event was added, with the next id and the current time. */
  ghost predicate Adds(c: System, k: RunKey, h': seq<Event>, a: Attributes) {
    h' == LogAt(c, k) + [Event(|LogAt(c, k)| + 1, c.store.now, a)]
  }

  /** A retry event with the reported failure; how long it waits is `Policies.RecordedWait`. */
  ghost predicate AddsRetry(c: System, k: RunKey, s: int, h': seq<Event>, attempt: int, failure: Option<Failure>) {
    && |h'| == |LogAt(c, k)| + 1 && h'[|LogAt(c, k)|].attrs.ActivityRetryScheduled?
    && Adds(c, k, h', ActivityRetryScheduled(s, attempt, h'[|LogAt(c, k)|].attrs.nextTime, failure))
  }

  /** A reported failure: retried while the policy allows and the failure is retryable, final otherwise. */
  ghost predicate AddsFailure(c: System, k: RunKey, s: int, h': seq<Event>, failure: Option<Failure>, retryable: bool)
    requires k in c.store.runs && s in c.store.runs[k].activities
  {
    var row := c.store.runs[k].activities[s].columns;
    var max := if row.blob.Some? then row.blob.value.maxAttempts else 5;
    if retryable && !(0 < max <= row.attempt) then
      AddsRetry(c, k, s, h', row.attempt + 1, failure)
    else
      Adds(c, k, h', ActivityFailed(s, failure, retryable))
  }

  /** The event a command of a decision becomes. */
  function EventFor(c: Command, now: int): Attributes {
    match c
    case ScheduleActivity(id, t, q, input, policy, timeout) =>
      ActivityScheduled(ActivityCall(id, t, q, input,
                                     if policy.Some? then policy.value else RetryPolicy(1_000_000_000, 2.0, 100_000_000_000, 5), timeout))
    case StartTimer(id, timeout) => TimerStarted(id, timeout, now + timeout)
    case CompleteWorkflow(result) => WorkflowCompleted(result)
    case FailWorkflow(failure) => WorkflowFailed(failure)
  }

  /** One event a command, in order, up to the first that ends the run. */
  function CommandEvents(cs: seq<Command>, next: int, now: int): seq<Event>
    decreases |cs|
  {
    if cs == [] then []
    else if cs[0].CompleteWorkflow? || cs[0].FailWorkflow? then [Event(next, now, EventFor(cs[0], now))]
    else [Event(next, now, EventFor(cs[0], now))] + CommandEvents(cs[1..], next + 1, now)
  }

  /** Timers fire in the order given; each event names the timer's own id. */
  ghost predicate AddsFires(c: System, k: RunKey, due: seq<(RunKey, int)>, h': seq<Event>) {
    h' == LogAt(c, k) + FiredEvents(c, k, due, |LogAt(c, k)| + 1)
  }

  ghost function FiredEvents(c: System, k: RunKey, due: seq<(RunKey, int)>, next: int): seq<Event>
    decreases |due|
  {
    if due == [] then []
    else if due[0].0 == k && k in c.store.runs && due[0].1 in c.store.runs[k].timers then
      [Event(next, c.store.now, TimerFired(c.store.runs[k].timers[due[0].1].timerId, due[0].1))]
      + FiredEvents(c, k, due[1..], next + 1)
    else FiredEvents(c, k, due[1..], next)
  }

  /** What an action adds to the log of k, told from the state before it. */
  ghost predicate Accounts(c: System, a: Action, k: RunKey, h': seq<Event>) {
    match a
    case Start(key, workflowType, queue, input) =>
      if key == k && k !in c.store.runs then Adds(c, k, h', WorkflowStarted(workflowType, queue, input)) else h' == LogAt(c, k)
    case Signal(key, name, input) =>
      if key == k && k in c.store.runs && c.store.runs[k].status == StatusRunning then Adds(c, k, h', Signaled(name, input))
      else h' == LogAt(c, k)
    case RespondWorkflow(m) =>
      if HoldsTask(c, k, m.token, m.identity) then h' == LogAt(c, k) + CommandEvents(m.decision.commands, |LogAt(c, k)| + 1, c.store.now)
      else h' == LogAt(c, k)
    case PollActivity(key, s, identity, _) =>
      if key == k && k in c.store.runs && s in c.store.runs[k].activities
         && c.store.runs[k].activities[s].columns.lastStarted < c.store.runs[k].activities[s].columns.attempt
      then Adds(c, k, h', ActivityStarted(s, identity, c.store.runs[k].activities[s].columns.attempt))
      else h' == LogAt(c, k)
    case RespondCompleted(token, identity, result) =>
      if exists s :: Holds(c, k, s, token, identity)
      then exists s :: Holds(c, k, s, token, identity) && Adds(c, k, h', ActivityCompleted(s, result))
      else h' == LogAt(c, k)
    case RespondFailed(token, identity, failure, retryable, _) =>
      if exists s :: Holds(c, k, s, token, identity)
      then exists s :: Holds(c, k, s, token, identity) && AddsFailure(c, k, s, h', failure, retryable)
      else h' == LogAt(c, k)
    case FireTimers(due) => AddsFires(c, k, due, h')
    case _ => h' == LogAt(c, k)
  }

  // ---------------------------------------------------------------- proofs

  lemma NextId(reg: Registry, c: System, k: RunKey)
    requires Inv(reg, c) && k in c.store.runs
    ensures c.store.runs[k].nextEventId == |LogAt(c, k)| + 1
  {
    hide WellFormed, Live, TimersOf, StatusOf, TokensKnown, TokensUnique, OneRunning, MessagesOk;
    assert Indexed(c.store.runs[k]);
  }

  lemma {:induction false} CommandsAccounted(r: Run, now: int, token: nat, cs: seq<Command>)
    requires r.nextEventId == |r.history| + 1
    ensures ApplyCommands(r, now, token, cs).history == r.history + CommandEvents(cs, |r.history| + 1, now)
    decreases |cs|
  {
    if cs != [] {
      CommandAccounted(r, now, token, cs[0]);
      hide ApplyCommand, EventFor;
      if !IsTerminal(cs[0]) {
        CommandsAccounted(ApplyCommand(r, now, token, cs[0]), now, token + TokensFor(cs[0]), cs[1..]);
      }
    }
  }

  lemma CommandAccounted(r: Run, now: int, token: nat, c: Command)
    requires r.nextEventId == |r.history| + 1
    ensures var r' := ApplyCommand(r, now, token, c);
            && r'.history == r.history + [Event(|r.history| + 1, now, EventFor(c, now))]
            && r'.nextEventId == |r'.history| + 1
  {
  }

  /** Firing one timer touches no other timer's id and no other run's log. */
  lemma {:induction false} FiresAccounted(c: System, k: RunKey, due: seq<(RunKey, int)>, c': System)
    requires FiresAll(c.store, due, c'.store) && k in c.store.runs
    requires c.store.runs[k].nextEventId == |LogAt(c, k)| + 1
    ensures AddsFires(c, k, due, LogAt(c', k))
    decreases |due|
  {
    hide FireOne, Due, FiredEvents, SameTimerIds;
    if due == [] {
      assert FiredEvents(c, k, due, |LogAt(c, k)| + 1) == [] by { NoneFired(c, k, |LogAt(c, k)| + 1); }
    } else {
      assert due[0].0 in c.store.runs && due[0].1 in c.store.runs[due[0].0].timers by { DueExists(c.store, due, c'.store); }
      var c1 := c.(store := FireOne(c.store, due[0].0, due[0].1));
      FiredOnce(c, k, due[0], c1);
      FiresAccounted(c1, k, due[1..], c');
      SameFiredEvents(c, c1, k, due[1..], |LogAt(c1, k)| + 1);
      FirstFired(c, k, due, |LogAt(c, k)| + 1);
    }
  }

  lemma NoneFired(c: System, k: RunKey, next: int)
    ensures FiredEvents(c, k, [], next) == []
  {
  }

  lemma FirstFired(c: System, k: RunKey, due: seq<(RunKey, int)>, next: int)
    requires due != [] && k in c.store.runs && due[0].0 in c.store.runs && due[0].1 in c.store.runs[due[0].0].timers
    ensures FiredEvents(c, k, due, next) ==
              if due[0].0 == k then
                [Event(next, c.store.now, TimerFired(c.store.runs[k].timers[due[0].1].timerId, due[0].1))] + FiredEvents(c, k, due[1..], next + 1)
              else FiredEvents(c, k, due[1..], next)
  {
  }

  lemma DueExists(s: State, due: seq<(RunKey, int)>, s': State)
    requires FiresAll(s, due, s') && due != []
    ensures due[0].0 in s.runs && due[0].1 in s.runs[due[0].0].timers
  {
    hide FireOne;
  }

  lemma FiredOnce(c: System, k: RunKey, d: (RunKey, int), c1: System)
    requires k in c.store.runs && d.0 in c.store.runs && d.1 in c.store.runs[d.0].timers
    requires c1 == c.(store := FireOne(c.store, d.0, d.1)) && c.store.runs[k].nextEventId == |LogAt(c, k)| + 1
    ensures k in c1.store.runs && c1.store.now == c.store.now && c1.store.runs[k].nextEventId == |LogAt(c1, k)| + 1
    ensures SameTimerIds(c, c1, k)
    ensures LogAt(c1, k) == LogAt(c, k) +
              (if d.0 == k then [Event(|LogAt(c, k)| + 1, c.store.now, TimerFired(c.store.runs[k].timers[d.1].timerId, d.1))] else [])
  {
    hide Enqueue;
    EnqueueFrame();
  }

  ghost predicate SameTimerIds(c: System, c1: System, k: RunKey) {
    && k in c.store.runs && k in c1.store.runs && c1.store.now == c.store.now
    && c1.store.runs[k].timers.Keys == c.store.runs[k].timers.Keys
    && forall t :: t in c.store.runs[k].timers ==> c1.store.runs[k].timers[t].timerId == c.store.runs[k].timers[t].timerId
  }

  lemma {:induction false} SameFiredEvents(c: System, c1: System, k: RunKey, due: seq<(RunKey, int)>, next: int)
    requires SameTimerIds(c, c1, k)
    ensures FiredEvents(c1, k, due, next) == FiredEvents(c, k, due, next)
    decreases |due|
  {
    if due != [] {
      SameFiredEvents(c, c1, k, due[1..], next + 1);
      SameFiredEvents(c, c1, k, due[1..], next);
    }
  }

  lemma AppendsNext(r: Run, now: int, a: Attributes)
    requires r.nextEventId == |r.history| + 1
    ensures Append(r, now, a).history == r.history + [Event(|r.history| + 1, now, a)]
  {
  }

  lemma CompletedAccounted(reg: Registry, c: System, a: Action, c': System, k: RunKey)
    requires Inv(reg, c) && Step(reg, c, a, c') && a.RespondCompleted? && k in c.store.runs
    ensures k in c'.store.runs && Accounts(c, a, k, LogAt(c', k))
  {
    hide AllIndexed, TokensKnown, OneRunning, MessagesOk, Enqueue, Append;
    NextId(reg, c, k);
    EnqueueFrame();
    AppendFrame();
    if s :| Holds(c, k, s, a.token, a.identity) {
      assert HoldsActivity(c.store, k, s, a.token);
      AppendsNext(c.store.runs[k], c.store.now, ActivityCompleted(s, a.result));
      assert Adds(c, k, LogAt(c', k), ActivityCompleted(s, a.result));
    }
  }

  lemma FailedAccounted(reg: Registry, c: System, a: Action, c': System, k: RunKey)
    requires Inv(reg, c) && Step(reg, c, a, c') && a.RespondFailed? && k in c.store.runs
    ensures k in c'.store.runs && Accounts(c, a, k, LogAt(c', k))
  {
    hide AllIndexed, TokensKnown, OneRunning, MessagesOk, Enqueue, Append, Delay;
    NextId(reg, c, k);
    EnqueueFrame();
    AppendFrame();
    if s :| Holds(c, k, s, a.token, a.identity) {
      assert HoldsActivity(c.store, k, s, a.token);
      var row := c.store.runs[k].activities[s].columns;
      var wait := Delay(EffectivePolicy(row), row.attempt, a.outOfRange);
      AppendsNext(c.store.runs[k], c.store.now, ActivityFailed(s, a.failure, a.retryable));
      AppendsNext(c.store.runs[k], c.store.now, ActivityRetryScheduled(s, row.attempt + 1, c.store.now + wait, a.failure));
      if a.retryable && CanRetry(EffectivePolicy(row), row.attempt) {
        assert Adds(c, k, LogAt(c', k), ActivityRetryScheduled(s, row.attempt + 1, c.store.now + wait, a.failure));
      }
      assert AddsFailure(c, k, s, LogAt(c', k), a.failure, a.retryable);
    } else if c' != c {
      var k2, s2 :| HoldsActivity(c.store, k2, s2, a.token)
        && c' == c.(store := FailActivityTask(c.store, k2, s2, a.identity, a.failure, a.retryable, a.outOfRange).0);
      assert Holds(c, k2, s2, a.token, a.identity);
    }
  }

  lemma CommitAccounted(reg: Registry, c: System, a: Action, c': System, k: RunKey)
    requires Inv(reg, c) && Step(reg, c, a, c') && a.RespondWorkflow? && k in c.store.runs
    ensures k in c'.store.runs && Accounts(c, a, k, LogAt(c', k))
  {
    hide AllIndexed, TokensKnown, OneRunning, MessagesOk, ApplyCommands, TokensUsed, CommandEvents;
    NextId(reg, c, k);
    var m := a.message;
    CommandsAccounted(c.store.runs[k], c.store.now, c.store.activitySeq, m.decision.commands);
    assert HoldsTask(c, k, m.token, m.identity) ==> HoldsWorkflow(c.store, k, m.token);
  }

  lemma OtherAccounted(reg: Registry, c: System, a: Action, c': System, k: RunKey)
    requires Inv(reg, c) && Step(reg, c, a, c') && k in c.store.runs
    requires a.Start? || a.Signal? || a.PollWorkflow? || a.PollActivity? || a.Heartbeat? || a.Tick?
    ensures k in c'.store.runs && Accounts(c, a, k, LogAt(c', k))
  {
    hide AllIndexed, TokensKnown, TokensUnique, OneRunning, MessagesOk, Enqueue, Append, NewRun, Honest;
    NextId(reg, c, k);
    EnqueueFrame();
    AppendFrame();
    if a.Signal? {
      AppendsNext(c.store.runs[k], c.store.now, Signaled(a.name, a.input));
    } else if a.PollActivity? && a.key == k {
      AppendsNext(c.store.runs[k], c.store.now,
                  ActivityStarted(a.scheduledId, a.identity, c.store.runs[k].activities[a.scheduledId].columns.attempt));
    }
  }

  lemma NewRunAccounted(workflowType: string, queue: string, input: Bytes, token: nat, now: int)
    ensures NewRun(workflowType, queue, input, token, now).history == [Event(1, now, WorkflowStarted(workflowType, queue, input))]
  {
  }

  /** Every action adds to every log exactly the events accounted for here. */
  lemma StepAccounts(reg: Registry, c: System, a: Action, c': System, k: RunKey)
    requires Inv(reg, c) && Step(reg, c, a, c') && k in c'.store.runs
    ensures Accounts(c, a, k, LogAt(c', k))
  {
    if k in c.store.runs {
      hide Step, Inv, Accounts;
      match a
      case RespondCompleted(_, _, _) => CompletedAccounted(reg, c, a, c', k);
      case RespondFailed(_, _, _, _, _) => FailedAccounted(reg, c, a, c', k);
      case RespondWorkflow(_) => CommitAccounted(reg, c, a, c', k);
      case FireTimers(due) => TimersAccounted(reg, c, a, c', k);
      case _ => OtherAccounted(reg, c, a, c', k);
    } else {
      hide Step, Inv, NewRun;
      NewRuns(reg, c, a, c', k);
      NewRunAccounted(a.workflowType, a.queue, a.input, c.store.workflowSeq, c.store.now);
    }
  }

  lemma TimersAccounted(reg: Registry, c: System, a: Action, c': System, k: RunKey)
    requires Inv(reg, c) && Step(reg, c, a, c') && a.FireTimers? && k in c.store.runs
    ensures Accounts(c, a, k, LogAt(c', k))
  {
    hide Inv, FiresAll, AddsFires;
    NextId(reg, c, k);
    FiresAccounted(c, k, a.due, c');
  }

  // ---------------------------------------------------------------- signals

  function SignalOf(a: Attributes): seq<Signal> {
    match a
    case Signaled(name, input) => [Signal.Signal(name, input)]
    case _ => []
  }

  /** The signals a log holds, in order. */
  function SignalsOf(h: seq<Event>): seq<Signal> {
    if h == [] then [] else SignalsOf(h[..|h| - 1]) + SignalOf(h[|h| - 1].attrs)
  }

  lemma {:induction false} SignalsConcat(h: seq<Event>, g: seq<Event>)
    ensures SignalsOf(h + g) == SignalsOf(h) + SignalsOf(g)
  {
    hide SignalOf;
    if g == [] {
      assert h + g == h;
    } else {
      assert (h + g)[..|h + g| - 1] == h + g[..|g| - 1];
      SignalsConcat(h, g[..|g| - 1]);
    }
  }

  lemma SignalsOfOne(e: Event)
    ensures SignalsOf([e]) == SignalOf(e.attrs)
  {
    assert SignalsOf([e][..0]) == [];
  }

  /** The engine reads back exactly these. */
  lemma {:induction false} ProjectedSignals(h: seq<Event>)
    ensures ViewOf(h).signals == SignalsOf(h)
  {
    if h != [] {
      ProjectedSignals(h[..|h| - 1]);
      AbsorbedSignal(ViewOf(h[..|h| - 1]), h[|h| - 1]);
    }
  }

  lemma AbsorbedSignal(v: View, e: Event)
    ensures Absorb(v, e).signals == v.signals + SignalOf(e.attrs)
  {
  }

  /** Signal actions that the run accepted before state i, in order. */
  ghost function SignalsSent(states: seq<System>, actions: seq<Action>, i: nat, k: RunKey): seq<Signal>
    requires |states| == |actions| + 1 && i < |states|
  {
    if i == 0 then [] else
      var c, a := states[i - 1], actions[i - 1];
      SignalsSent(states, actions, i - 1, k) +
      (if a.Signal? && a.key == k && k in c.store.runs && c.store.runs[k].status == StatusRunning
       then [Signal.Signal(a.name, a.input)] else [])
  }

  lemma CommandNeutral(c: Command, now: int)
    ensures SignalOf(EventFor(c, now)) == [] && ReportOf(EventFor(c, now)) == []
  {
  }

  lemma {:induction false} CommandsNeutral(cs: seq<Command>, next: int, now: int)
    ensures SignalsOf(CommandEvents(cs, next, now)) == [] && ReportsOf(CommandEvents(cs, next, now)) == []
    decreases |cs|
  {
    hide SignalsOf, ReportsOf, EventFor, SignalOf, ReportOf;
    if cs == [] {
      NothingReported();
    } else {
      var e := Event(next, now, EventFor(cs[0], now));
      CommandNeutral(cs[0], now);
      SignalsOfOne(e);
      ReportsOfOne(e);
      if !(cs[0].CompleteWorkflow? || cs[0].FailWorkflow?) {
        CommandsNeutral(cs[1..], next + 1, now);
        SignalsConcat([e], CommandEvents(cs[1..], next + 1, now));
        ReportsConcat([e], CommandEvents(cs[1..], next + 1, now));
      }
    }
  }

  lemma {:induction false} FiresNeutral(c: System, k: RunKey, due: seq<(RunKey, int)>, next: int)
    ensures SignalsOf(FiredEvents(c, k, due, next)) == [] && ReportsOf(FiredEvents(c, k, due, next)) == []
    decreases |due|
  {
    hide SignalsOf, ReportsOf;
    if due == [] {
      NothingReported();
    } else {
      FiresNeutral(c, k, due[1..], next + 1);
      FiresNeutral(c, k, due[1..], next);
      if due[0].0 == k && k in c.store.runs && due[0].1 in c.store.runs[k].timers {
        var e := Event(next, c.store.now, TimerFired(c.store.runs[k].timers[due[0].1].timerId, due[0].1));
        SignalsOfOne(e);
        ReportsOfOne(e);
        SignalsConcat([e], FiredEvents(c, k, due[1..], next + 1));
        ReportsConcat([e], FiredEvents(c, k, due[1..], next + 1));
      }
    }
  }

  // ---------------------------------------------------------------- results and failures

  /** What a worker reports about an activity. */
  datatype Report = Result(scheduledId: int, result: Bytes) | Problem(scheduledId: int, failure: Option<Failure>, retryable: bool)

  function ReportOf(a: Attributes): seq<Report> {
    match a
    case ActivityCompleted(s, result) => [Result(s, result)]
    case ActivityFailed(s, failure, retryable) => [Problem(s, failure, retryable)]
    case ActivityRetryScheduled(s, _, _, failure) => [Problem(s, failure, true)]
    case _ => []
  }

  /** The reports a log holds, retried ones included, in order. */
  function ReportsOf(h: seq<Event>): seq<Report> {
    if h == [] then [] else ReportsOf(h[..|h| - 1]) + ReportOf(h[|h| - 1].attrs)
  }

  lemma {:induction false} ReportsConcat(h: seq<Event>, g: seq<Event>)
    ensures ReportsOf(h + g) == ReportsOf(h) + ReportsOf(g)
  {
    hide ReportOf;
    if g == [] {
      assert h + g == h;
    } else {
      assert (h + g)[..|h + g| - 1] == h + g[..|g| - 1];
      ReportsConcat(h, g[..|g| - 1]);
    }
  }

  lemma ReportsOfOne(e: Event)
    ensures ReportsOf([e]) == ReportOf(e.attrs)
  {
    assert ReportsOf([e][..0]) == [];
  }

  /** The report an action makes to run k, if the lock it needs is held. */
  ghost function Made(c: System, a: Action, k: RunKey): seq<Report> {
    match a
    case RespondCompleted(token, identity, result) =>
      if exists s :: Holds(c, k, s, token, identity) then
        var s :| Holds(c, k, s, token, identity);
        [Result(s, result)]
      else []
    case RespondFailed(token, identity, failure, retryable, _) =>
      if exists s :: Holds(c, k, s, token, identity) then
        var s :| Holds(c, k, s, token, identity);
        [Problem(s, failure, retryable)]
      else []
    case _ => []
  }

  /** Reports that were accepted for the run before state i, in order. */
  ghost function ReportsMade(states: seq<System>, actions: seq<Action>, i: nat, k: RunKey): seq<Report>
    requires |states| == |actions| + 1 && i < |states|
  {
    if i == 0 then [] else ReportsMade(states, actions, i - 1, k) + Made(states[i - 1], actions[i - 1], k)
  }

  lemma OneHolder(reg: Registry, c: System, k: RunKey, s: int, t: int, token: int, identity: string)
    requires Inv(reg, c) && Holds(c, k, s, token, identity) && Holds(c, k, t, token, identity)
    ensures s == t
  {
    hide AllIndexed, TokensKnown, OneRunning, MessagesOk;
    assert HoldsActivity(c.store, k, s, token) && HoldsActivity(c.store, k, t, token);
  }

  lemma AddedOne(c: System, k: RunKey, h': seq<Event>, a: Attributes)
    requires Adds(c, k, h', a)
    ensures SignalsOf(h') == SignalsOf(LogAt(c, k)) + SignalOf(a)
    ensures ReportsOf(h') == ReportsOf(LogAt(c, k)) + ReportOf(a)
  {
    assert h'[..|h'| - 1] == LogAt(c, k);
  }

  /** What one action adds to the signals and reports of a log. */
  lemma AccountedNews(reg: Registry, c: System, a: Action, k: RunKey, h': seq<Event>)
    requires Inv(reg, c) && Accounts(c, a, k, h')
    ensures ReportsOf(h') == ReportsOf(LogAt(c, k)) + Made(c, a, k)
    ensures SignalsOf(h') == SignalsOf(LogAt(c, k)) +
              (if a.Signal? && a.key == k && k in c.store.runs && c.store.runs[k].status == StatusRunning
               then [Signal.Signal(a.name, a.input)] else [])
  {
    hide Inv, SignalsOf, ReportsOf, Adds, CommandEvents, FiredEvents, Holds, HoldsTask;
    match a
    case Start(key, workflowType, queue, input) =>
      if key == k && k !in c.store.runs {
        AddedOne(c, k, h', WorkflowStarted(workflowType, queue, input));
      }
    case Signal(key, name, input) =>
      if h' != LogAt(c, k) {
        AddedOne(c, k, h', Signaled(name, input));
      }
      assert h' != LogAt(c, k) <==> key == k && k in c.store.runs && c.store.runs[k].status == StatusRunning by { Grows(c, k, h'); }
    case RespondWorkflow(m) =>
      CommandsNeutral(m.decision.commands, |LogAt(c, k)| + 1, c.store.now);
      SignalsConcat(LogAt(c, k), CommandEvents(m.decision.commands, |LogAt(c, k)| + 1, c.store.now));
      ReportsConcat(LogAt(c, k), CommandEvents(m.decision.commands, |LogAt(c, k)| + 1, c.store.now));
    case PollActivity(key, s, identity, _) =>
      if h' != LogAt(c, k) {
        AddedOne(c, k, h', ActivityStarted(s, identity, c.store.runs[k].activities[s].columns.attempt));
      }
    case FireTimers(due) =>
      FiresNeutral(c, k, due, |LogAt(c, k)| + 1);
      SignalsConcat(LogAt(c, k), FiredEvents(c, k, due, |LogAt(c, k)| + 1));
      ReportsConcat(LogAt(c, k), FiredEvents(c, k, due, |LogAt(c, k)| + 1));
    case RespondCompleted(_, _, _) => ReportedNews(reg, c, a, k, h');
    case RespondFailed(_, _, _, _, _) => ReportedNews(reg, c, a, k, h');
    case _ =>
  }

  lemma Grows(c: System, k: RunKey, h': seq<Event>)
    ensures forall a :: Adds(c, k, h', a) ==> h' != LogAt(c, k)
  {
  }

  lemma ReportedNews(reg: Registry, c: System, a: Action, k: RunKey, h': seq<Event>)
    requires Inv(reg, c) && Accounts(c, a, k, h') && (a.RespondCompleted? || a.RespondFailed?)
    ensures ReportsOf(h') == ReportsOf(LogAt(c, k)) + Made(c, a, k)
    ensures SignalsOf(h') == SignalsOf(LogAt(c, k))
  {
    hide Inv, SignalsOf, ReportsOf, Adds, Holds;
    if t :| Holds(c, k, t, a.token, a.identity) {
      HolderRuns(c, k, t, a.token, a.identity);
      forall s | Holds(c, k, s, a.token, a.identity)
        ensures s == t
      {
        OneHolder(reg, c, k, s, t, a.token, a.identity);
      }
      if a.RespondCompleted? {
        AddedOne(c, k, h', ActivityCompleted(t, a.result));
      } else if Adds(c, k, h', ActivityFailed(t, a.failure, a.retryable)) {
        AddedOne(c, k, h', ActivityFailed(t, a.failure, a.retryable));
      } else {
        var attempt := c.store.runs[k].activities[t].columns.attempt + 1;
        AddedOne(c, k, h', ActivityRetryScheduled(t, attempt, h'[|LogAt(c, k)|].attrs.nextTime, a.failure));
      }
    }
  }

  lemma HolderRuns(c: System, k: RunKey, s: int, token: int, identity: string)
    requires Holds(c, k, s, token, identity)
    ensures k in c.store.runs && s in c.store.runs[k].activities
  {
  }

  // ---------------------------------------------------------------- theorems

  /**
   Nothing reported is lost, invented or altered. In every reachable state the signals of a run's log are
   the accepted signal actions, in order and payload for payload, and its completed, failed and retry
   events are the accepted responses, with the results, failures and flags that were reported.
   */
  lemma {:induction false} LogIsAccount(reg: Registry, states: seq<System>, actions: seq<Action>, i: nat, k: RunKey)
    requires Behavior(reg, states, actions) && i < |states|
    ensures SignalsOf(LogAt(states[i], k)) == SignalsSent(states, actions, i, k)
    ensures ReportsOf(LogAt(states[i], k)) == ReportsMade(states, actions, i, k)
  {
    hide Step, Inv, SignalsOf, ReportsOf, Accounts, Made;
    if i > 0 {
      LogIsAccount(reg, states, actions, i - 1, k);
      assert Taken(reg, states, actions, i - 1);
      ReachableInv(reg, states, actions, i - 1);
      if k in states[i].store.runs {
        StepAccounts(reg, states[i - 1], actions[i - 1], states[i], k);
        AccountedNews(reg, states[i - 1], actions[i - 1], k, LogAt(states[i], k));
      } else {
        NotThere(reg, states[i - 1], actions[i - 1], states[i], k);
      }
    } else {
      NothingReported();
    }
  }

  lemma NothingReported()
    ensures SignalsOf([]) == [] && ReportsOf([]) == []
  {
  }

  lemma NotThere(reg: Registry, c: System, a: Action, c': System, k: RunKey)
    requires Inv(reg, c) && Step(reg, c, a, c') && k !in c'.store.runs
    ensures k !in c.store.runs && Made(c, a, k) == []
  {
    hide Step, Inv, SameRun;
    if k in c.store.runs {
      StepAppends(reg, c, a, c', k);
    }
  }

  /** The n-th await of a name is answered with the payload of the n-th accepted signal of that name. */
  lemma AwaitedPayload(reg: Registry, states: seq<System>, actions: seq<Action>, i: nat, k: RunKey, name: string, n: nat)
    requires Behavior(reg, states, actions) && i < |states| && k in states[i].store.runs
    requires n < |Named(SignalsSent(states, actions, i, k), name)|
    ensures var script := ScriptOf(ViewOf(states[i].store.runs[k].history));
            forall e: Eval :: e.taken[name] == n ==>
              NextSignal(script, e, name) == Some(Named(SignalsSent(states, actions, i, k), name)[n])
  {
    hide Behavior, ViewOf, SignalsOf, ReportsOf, SignalsSent, ReportsMade;
    LogIsAccount(reg, states, actions, i, k);
    ProjectedSignals(states[i].store.runs[k].history);
  }
}
