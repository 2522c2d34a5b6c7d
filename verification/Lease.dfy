/** Leases over whole behaviours: how far apart two hand-outs of one attempt must be. */
module Lease {
  import opened Basics
  import opened History
  import opened Program
  import opened Replay
  import opened Growth
  import opened Backoff
  import opened Log
  import opened Store
  import opened RunInvariant
  import opened System
  import opened Durability

  /** Every hand-out and heartbeat uses the same lease. */
  ghost predicate FixedLease(actions: seq<Action>, lease: int) {
    forall i :: 0 <= i < |actions| ==>
      && (actions[i].PollActivity? ==> actions[i].lease == lease)
      && (actions[i].Heartbeat? ==> actions[i].lease == lease)
  }

  predicate Polls(a: Action, k: RunKey, s: int) {
    a.PollActivity? && a.key == k && a.scheduledId == s
  }

  /** The heartbeat names this row and is accepted. */
  predicate Beats(c: System, a: Action, k: RunKey, s: int) {
    && a.Heartbeat? && k in c.store.runs && s in c.store.runs[k].activities
    && c.store.runs[k].activities[s].taskId == a.token
    && c.store.runs[k].activities[s].lockedUntil.Some? && c.store.runs[k].activities[s].lockedUntil.value > c.store.now
  }

  // ---------------------------------------------------------------- one row across one step

  /** How a surviving row changes: not at all, leased, extended while leased, or put back for retry. */
  ghost predicate RowChanges(c: System, a: Action, k: RunKey, s: int, t: ActivityTask, t': ActivityTask) {
    || t' == t
    || (Polls(a, k, s) && Available(t.lockedUntil, c.store.now) && t'.lockedUntil == Some(c.store.now + a.lease)
        && t'.lockedBy == Some(a.identity) && t'.columns.attempt == t.columns.attempt)
    || (Beats(c, a, k, s) && t' == t.(lockedUntil := Some(c.store.now + a.lease)))
    || (a.RespondFailed? && t'.columns.attempt == t.columns.attempt + 1 && t'.lockedUntil.None? && t'.lockedBy.None?)
  }

  ghost predicate RowFollows(c: System, a: Action, c': System, k: RunKey, s: int)
    requires k in c.store.runs && k in c'.store.runs
  {
    s in c'.store.runs[k].activities ==>
      && s in c.store.runs[k].activities
      && RowChanges(c, a, k, s, c.store.runs[k].activities[s], c'.store.runs[k].activities[s])
  }

  lemma {:induction false} CommandsKeepRow(r: Run, now: int, token: nat, cs: seq<Command>, s: int)
    requires s < r.nextEventId
    ensures var r' := ApplyCommands(r, now, token, cs);
            s in r'.activities ==> s in r.activities && r'.activities[s] == r.activities[s]
    decreases |cs|
  {
    if cs != [] && !IsTerminal(cs[0]) {
      CommandsKeepRow(ApplyCommand(r, now, token, cs[0]), now, token + TokensFor(cs[0]), cs[1..], s);
    }
  }

  lemma {:induction false} FireAllKeepsRows(s: State, due: seq<(RunKey, int)>, s': State, k: RunKey)
    requires FiresAll(s, due, s') && k in s.runs
    ensures k in s'.runs && s'.runs[k].activities == s.runs[k].activities
    decreases |due|
  {
    if due != [] {
      FireAllKeepsRows(FireOne(s, due[0].0, due[0].1), due[1..], s', k);
    }
  }

  lemma ResponseRow(reg: Registry, c: System, a: Action, c': System, k: RunKey, s: int)
    requires Step(reg, c, a, c') && k in c.store.runs && k in c'.store.runs
    requires a.RespondCompleted? || a.RespondFailed?
    ensures RowFollows(c, a, c', k, s)
  {
    hide EffectivePolicy, Delay, CanRetry, Append;
    AppendFrame();
    EnqueueFrame();
  }

  lemma HeartbeatRow(reg: Registry, c: System, a: Action, c': System, k: RunKey, s: int)
    requires Step(reg, c, a, c') && k in c.store.runs && k in c'.store.runs && a.Heartbeat?
    ensures RowFollows(c, a, c', k, s)
  {
  }

  lemma PollRow(reg: Registry, c: System, a: Action, c': System, k: RunKey, s: int)
    requires Step(reg, c, a, c') && k in c.store.runs && k in c'.store.runs && a.PollActivity?
    ensures RowFollows(c, a, c', k, s)
  {
    hide Append;
    AppendFrame();
    EnqueueFrame();
  }

  /** One row across one step, whatever the action. */
  lemma StepRow(reg: Registry, c: System, a: Action, c': System, k: RunKey, s: int)
    requires Inv(reg, c) && Step(reg, c, a, c') && k in c.store.runs && k in c'.store.runs
    requires s <= |c.store.runs[k].history|
    ensures RowFollows(c, a, c', k, s)
  {
    if a.RespondCompleted? || a.RespondFailed? {
      hide Step, Inv, RowFollows;
      ResponseRow(reg, c, a, c', k, s);
    } else if a.Heartbeat? {
      hide Step, Inv, RowFollows;
      HeartbeatRow(reg, c, a, c', k, s);
    } else if a.PollActivity? {
      hide Step, Inv, RowFollows;
      PollRow(reg, c, a, c', k, s);
    } else {
      OtherRow(reg, c, a, c', k, s);
    }
  }

  lemma OtherRow(reg: Registry, c: System, a: Action, c': System, k: RunKey, s: int)
    requires Inv(reg, c) && Step(reg, c, a, c') && k in c.store.runs && k in c'.store.runs
    requires s <= |c.store.runs[k].history| && !a.RespondCompleted? && !a.RespondFailed? && !a.Heartbeat? && !a.PollActivity?
    ensures RowFollows(c, a, c', k, s)
  {
    hide Honest, ApplyCommands, NewRun, FiresAll, TokensUsed, Marshal, Append, Enqueue, StartWorkflow, Available,
         WellFormed, Live, TimersOf, StatusOf, TokensKnown, TokensUnique, OneRunning, MessagesOk, Columns, LocksStarted;
    assert Indexed(c.store.runs[k]);
    AppendFrame();
    EnqueueFrame();
    match a
    case Start(k', workflowType, queue, input) =>
      var reply :| StartWorkflow(c.store, k', workflowType, queue, input, c'.store, reply);
      StartKeepsRun(c.store, k', workflowType, queue, input, c'.store, reply, k);
    case RespondWorkflow(m) =>
      CommandsKeepRow(c.store.runs[k], c.store.now, c.store.activitySeq, m.decision.commands, s);
    case FireTimers(due) => FireAllKeepsRows(c.store, due, c'.store, k);
    case _ =>
  }

  lemma StartKeepsRun(s: State, k: RunKey, workflowType: string, queue: string, input: Bytes, s': State, reply: StartReply, k': RunKey)
    requires StartWorkflow(s, k, workflowType, queue, input, s', reply) && k' in s.runs
    ensures k' in s'.runs && s'.runs[k'] == s.runs[k'] && s.workflowSeq <= s'.workflowSeq
  {
    hide NewRun;
  }

  lemma StepClock(reg: Registry, c: System, a: Action, c': System)
    requires Step(reg, c, a, c')
    ensures c.store.now <= c'.store.now
  {
    hide Honest, Commit, NewRun, LeaseTask, LeaseActivity, ResolveActivity, RetryActivity, EffectivePolicy, Delay, CanRetry, FiresAll, TokensUsed;
    if a.FireTimers? {
      FireAllDomain(c.store, a.due, c'.store);
    }
  }

  // ---------------------------------------------------------------- exclusivity

  /** The row, if it still exists, has moved to a later attempt or is locked at least until then. */
  ghost predicate Guarded(c: System, k: RunKey, s: int, attempt: int, until: int) {
    && k in c.store.runs && s <= |c.store.runs[k].history|
    && (s in c.store.runs[k].activities ==>
          var t := c.store.runs[k].activities[s];
          t.columns.attempt > attempt
          || (t.columns.attempt == attempt && t.lockedUntil.Some? && t.lockedUntil.value >= until))
  }

  lemma StepKeepsGuard(reg: Registry, c: System, a: Action, c': System, k: RunKey, s: int, attempt: int, until: int, lease: int)
    requires Inv(reg, c) && Step(reg, c, a, c') && Guarded(c, k, s, attempt, until)
    requires (a.PollActivity? || a.Heartbeat?) ==> a.lease == lease
    requires until <= c.store.now + lease
    ensures Guarded(c', k, s, attempt, until)
  {
    hide Inv, Step, SameRun;
    StepAppends(reg, c, a, c', k);
    StepRow(reg, c, a, c', k, s);
  }

  lemma {:induction false} GuardHolds(reg: Registry, states: seq<System>, actions: seq<Action>, i: nat, j: nat,
                                      k: RunKey, s: int, attempt: int, until: int, lease: int)
    requires Behavior(reg, states, actions) && FixedLease(actions, lease) && i <= j < |states|
    requires Guarded(states[i], k, s, attempt, until) && until <= states[i].store.now + lease
    ensures Guarded(states[j], k, s, attempt, until) && states[i].store.now <= states[j].store.now
  {
    hide Inv, Step, Guarded;
    if i < j {
      GuardHolds(reg, states, actions, i, j - 1, k, s, attempt, until, lease);
      ReachableInv(reg, states, actions, j - 1);
      assert Taken(reg, states, actions, j - 1);
      StepClock(reg, states[j - 1], actions[j - 1], states[j]);
      StepKeepsGuard(reg, states[j - 1], actions[j - 1], states[j], k, s, attempt, until, lease);
    }
  }

  lemma RowIsPast(reg: Registry, c: System, k: RunKey, s: int)
    requires Inv(reg, c) && k in c.store.runs && s in c.store.runs[k].activities
    ensures s <= |c.store.runs[k].history|
  {
    hide WellFormed, Live, TimersOf, StatusOf, TokensKnown, TokensUnique, OneRunning, MessagesOk;
    var r := c.store.runs[k];
    assert Indexed(r);
    assert s in Columns(r.activities);
    if s > |r.history| {
      FutureIdsUnused(r.history, s);
    }
  }

  /** A hand-out or accepted heartbeat at step i: the row is held for a lease from then on. */
  lemma Acquires(reg: Registry, c: System, a: Action, c': System, k: RunKey, s: int)
    requires Inv(reg, c) && Step(reg, c, a, c') && (Polls(a, k, s) || Beats(c, a, k, s))
    ensures k in c.store.runs && s in c.store.runs[k].activities
    ensures Guarded(c', k, s, c.store.runs[k].activities[s].columns.attempt, c.store.now + a.lease)
  {
    hide Indexed, Honest, Columns, TokensKnown, OneRunning, MessagesOk;
    assert k in c.store.runs && s in c.store.runs[k].activities;
    RowIsPast(reg, c, k, s);
    if a.Heartbeat? {
      assert HoldsActivity(c.store, k, s, a.token);
    }
  }

  /**
   Lease exclusivity. Under a fixed lease, an attempt handed out or kept alive by an accepted heartbeat
   at step i is not handed out again at any later step j until a full lease has passed.
   */
  lemma LeaseExclusive(reg: Registry, states: seq<System>, actions: seq<Action>, i: nat, j: nat, k: RunKey, s: int, lease: int)
    requires Behavior(reg, states, actions) && FixedLease(actions, lease) && i < j < |actions|
    requires Polls(actions[i], k, s) || Beats(states[i], actions[i], k, s)
    requires Polls(actions[j], k, s)
    ensures k in states[i].store.runs && s in states[i].store.runs[k].activities
    ensures k in states[j].store.runs && s in states[j].store.runs[k].activities
    ensures states[j].store.runs[k].activities[s].columns.attempt == states[i].store.runs[k].activities[s].columns.attempt
            ==> states[j].store.now >= states[i].store.now + lease
  {
    hide Inv, Step;
    ReachableInv(reg, states, actions, i);
    assert Taken(reg, states, actions, i);
    Acquires(reg, states[i], actions[i], states[i + 1], k, s);
    StepClock(reg, states[i], actions[i], states[i + 1]);
    GuardHolds(reg, states, actions, i + 1, j, k, s, states[i].store.runs[k].activities[s].columns.attempt,
               states[i].store.now + lease, lease);
    assert Taken(reg, states, actions, j);
    PolledWasFree(reg, states[j], actions[j], states[j + 1], k, s);
  }

  lemma PolledWasFree(reg: Registry, c: System, a: Action, c': System, k: RunKey, s: int)
    requires Step(reg, c, a, c') && Polls(a, k, s)
    ensures k in c.store.runs && s in c.store.runs[k].activities
    ensures Available(c.store.runs[k].activities[s].lockedUntil, c.store.now)
    ensures c.store.runs[k].activities[s].columns.visibleAt <= c.store.now
  {
    hide Honest, LeaseActivity;
  }

  // ---------------------------------------------------------------- rows not yet handed out

  lemma {:induction false} NewRowsFree(r: Run, now: int, token: nat, cs: seq<Command>, s: int)
    requires s !in r.activities
    ensures var rows := ApplyCommands(r, now, token, cs).activities;
            s in rows ==> rows[s].lockedUntil.None? && rows[s].lockedBy.None?
    decreases |cs|
  {
    if cs != [] && !IsTerminal(cs[0]) {
      var r1 := ApplyCommand(r, now, token, cs[0]);
      if s in r1.activities {
        CommandsKeepRow(r1, now, token + TokensFor(cs[0]), cs[1..], s);
      } else {
        NewRowsFree(r1, now, token + TokensFor(cs[0]), cs[1..], s);
      }
    }
  }

  /** A row appears only by being scheduled, unlocked. */
  lemma BornFree(reg: Registry, c: System, a: Action, c': System, k: RunKey, s: int)
    requires Inv(reg, c) && Step(reg, c, a, c') && k in c'.store.runs && s in c'.store.runs[k].activities
    requires k in c.store.runs ==> s !in c.store.runs[k].activities
    ensures c'.store.runs[k].activities[s].lockedUntil.None? && c'.store.runs[k].activities[s].lockedBy.None?
  {
    hide Inv;
    if k !in c.store.runs {
      hide Step, NewRun;
      NewRuns(reg, c, a, c', k);
      NewRunRows(a.workflowType, a.queue, a.input, c.store.workflowSeq, c.store.now);
      assert false;
    } else if a.RespondWorkflow? {
      hide ApplyCommands, TokensUsed;
      NewRowsFree(c.store.runs[k], c.store.now, c.store.activitySeq, a.message.decision.commands, s);
    } else if s <= |c.store.runs[k].history| {
      hide Step;
      StepRow(reg, c, a, c', k, s);
      assert false;
    } else {
      NoNewRows(reg, c, a, c', k, s);
      assert false;
    }
  }

  /** Only commits add rows. */
  lemma NoNewRows(reg: Registry, c: System, a: Action, c': System, k: RunKey, s: int)
    requires Step(reg, c, a, c') && k in c.store.runs && k in c'.store.runs && s in c'.store.runs[k].activities && !a.RespondWorkflow?
    ensures s in c.store.runs[k].activities
  {
    hide Honest, NewRun, FiresAll, StartWorkflow, Append, Enqueue, EffectivePolicy, Delay, CanRetry;
    AppendFrame();
    EnqueueFrame();
    match a
    case Start(k', workflowType, queue, input) =>
      var reply :| StartWorkflow(c.store, k', workflowType, queue, input, c'.store, reply);
      StartKeepsRun(c.store, k', workflowType, queue, input, c'.store, reply, k);
    case FireTimers(due) => FireAllKeepsRows(c.store, due, c'.store, k);
    case _ =>
  }

  /** In every reachable state an attempt that was not handed out yet is not locked. */
  lemma {:induction false} UnstartedIsFree(reg: Registry, states: seq<System>, actions: seq<Action>, i: nat, k: RunKey, s: int)
    requires Behavior(reg, states, actions) && i < |states|
    requires k in states[i].store.runs && s in states[i].store.runs[k].activities
    ensures var t := states[i].store.runs[k].activities[s];
            t.columns.lastStarted < t.columns.attempt ==> t.lockedUntil.None? && t.lockedBy.None?
  {
    hide Inv, Step;
    if i > 0 {
      var c, a, c' := states[i - 1], actions[i - 1], states[i];
      assert Taken(reg, states, actions, i - 1);
      ReachableInv(reg, states, actions, i - 1);
      ReachableInv(reg, states, actions, i);
      if k in c.store.runs && s in c.store.runs[k].activities {
        UnstartedIsFree(reg, states, actions, i - 1, k, s);
        RowIsPast(reg, c, k, s);
        StepRow(reg, c, a, c', k, s);
        LockedIsStarted(reg, c', k, s);
      } else {
        BornFree(reg, c, a, c', k, s);
      }
    }
  }

  lemma LockedIsStarted(reg: Registry, c: System, k: RunKey, s: int)
    requires Inv(reg, c) && k in c.store.runs && s in c.store.runs[k].activities
    ensures c.store.runs[k].activities[s].lockedBy.Some? ==>
              c.store.runs[k].activities[s].columns.lastStarted == c.store.runs[k].activities[s].columns.attempt
  {
    hide WellFormed, Live, TimersOf, StatusOf, TokensKnown, TokensUnique, OneRunning, MessagesOk;
    assert Indexed(c.store.runs[k]);
  }

  // ---------------------------------------------------------------- ownership

  /** The row, if it still exists, has moved to a later attempt or is locked by this identity. */
  ghost predicate OwnedBy(c: System, k: RunKey, s: int, attempt: int, identity: string) {
    && k in c.store.runs && s <= |c.store.runs[k].history|
    && (s in c.store.runs[k].activities ==>
          var t := c.store.runs[k].activities[s];
          t.columns.attempt > attempt || (t.columns.attempt == attempt && t.lockedBy == Some(identity)))
  }

  lemma {:induction false} OwnershipHolds(reg: Registry, states: seq<System>, actions: seq<Action>, i: nat, j: nat,
                                          k: RunKey, s: int, attempt: int, identity: string)
    requires Behavior(reg, states, actions) && i <= j < |states| && OwnedBy(states[i], k, s, attempt, identity)
    requires forall m :: i <= m < j ==> !Polls(actions[m], k, s)
    ensures OwnedBy(states[j], k, s, attempt, identity)
  {
    hide Inv, Step, SameRun;
    if i < j {
      OwnershipHolds(reg, states, actions, i, j - 1, k, s, attempt, identity);
      ReachableInv(reg, states, actions, j - 1);
      assert Taken(reg, states, actions, j - 1);
      StepAppends(reg, states[j - 1], actions[j - 1], states[j], k);
      StepRow(reg, states[j - 1], actions[j - 1], states[j], k, s);
    }
  }

  lemma PollOwns(reg: Registry, c: System, a: Action, c': System, k: RunKey, s: int)
    requires Inv(reg, c) && Step(reg, c, a, c') && Polls(a, k, s)
    ensures k in c.store.runs && s in c.store.runs[k].activities
    ensures OwnedBy(c', k, s, c.store.runs[k].activities[s].columns.attempt, a.identity)
  {
    hide Indexed, Honest, Columns, TokensKnown, OneRunning, MessagesOk;
    RowIsPast(reg, c, k, s);
  }

  function Heard(accepted: bool): Option<StoreError> {
    if accepted then None else Some(ErrTaskLost)
  }

  /**
   The worker an attempt was handed to owns it until the attempt is resolved, retried or handed out
   again, however long ago its lease ran out: its result or failure is accepted, and nobody else's is.
   */
  lemma OwnerIsHeard(reg: Registry, states: seq<System>, actions: seq<Action>, i: nat, j: nat, k: RunKey, s: int, identity: string,
                     result: Bytes, failure: Option<Failure>, retryable: bool, outOfRange: int)
    requires Behavior(reg, states, actions) && i < j < |states| && Polls(actions[i], k, s)
    requires forall m :: i < m < j ==> !Polls(actions[m], k, s)
    requires k in states[i].store.runs && s in states[i].store.runs[k].activities
    requires k in states[j].store.runs && s in states[j].store.runs[k].activities
    requires states[j].store.runs[k].activities[s].columns.attempt == states[i].store.runs[k].activities[s].columns.attempt
    ensures CompleteActivityTask(states[j].store, k, s, identity, result).1 == Heard(identity == actions[i].identity)
    ensures FailActivityTask(states[j].store, k, s, identity, failure, retryable, outOfRange).1 == Heard(identity == actions[i].identity)
  {
    hide Inv, Step, CanRetry, Delay;
    ReachableInv(reg, states, actions, i);
    assert Taken(reg, states, actions, i);
    PollOwns(reg, states[i], actions[i], states[i + 1], k, s);
    OwnershipHolds(reg, states, actions, i + 1, j, k, s, states[i].store.runs[k].activities[s].columns.attempt, actions[i].identity);
  }

  // ---------------------------------------------------------------- workflow tasks

  predicate PollsRun(a: Action, k: RunKey) {
    a.PollWorkflow? && a.key == k
  }

  /** A pending task stays as it is or is leased; a new one has an id not issued before. */
  ghost predicate TaskFollows(c: System, a: Action, c': System, k: RunKey)
    requires k in c.store.runs && k in c'.store.runs
  {
    var task, task' := c.store.runs[k].task, c'.store.runs[k].task;
    || task'.None?
    || (task.None? && task'.value.taskId >= c.store.workflowSeq
        && task'.value == WorkflowTask(task'.value.taskId, c.store.runs[k].queue, c.store.now, None, None))
    || task' == task
    || (task.Some? && PollsRun(a, k) && Available(task.value.lockedUntil, c.store.now)
        && task'.value == task.value.(lockedUntil := Some(c.store.now + a.lease), lockedBy := Some(a.identity)))
  }

  lemma {:induction false} FireAllTask(s: State, due: seq<(RunKey, int)>, s': State, k: RunKey)
    requires FiresAll(s, due, s') && k in s.runs
    ensures k in s'.runs && s.workflowSeq <= s'.workflowSeq
    ensures s.runs[k].task.Some? ==> s'.runs[k].task == s.runs[k].task
    ensures s.runs[k].task.None? && s'.runs[k].task.Some? ==>
              var task := s'.runs[k].task.value;
              task.taskId >= s.workflowSeq && task == WorkflowTask(task.taskId, s.runs[k].queue, s.now, None, None)
    ensures s'.runs[k].queue == s.runs[k].queue
    decreases |due|
  {
    if due != [] {
      FireAllTask(FireOne(s, due[0].0, due[0].1), due[1..], s', k);
    }
  }

  lemma ResponseTask(reg: Registry, c: System, a: Action, c': System, k: RunKey)
    requires Step(reg, c, a, c') && k in c.store.runs && k in c'.store.runs
    requires a.RespondCompleted? || a.RespondFailed? || a.Heartbeat?
    ensures TaskFollows(c, a, c', k) && c.store.workflowSeq <= c'.store.workflowSeq
  {
    hide EffectivePolicy, Delay, CanRetry, Append;
    AppendFrame();
  }

  lemma OtherTask(reg: Registry, c: System, a: Action, c': System, k: RunKey)
    requires Step(reg, c, a, c') && k in c.store.runs && k in c'.store.runs
    requires !a.RespondCompleted? && !a.RespondFailed? && !a.Heartbeat?
    ensures TaskFollows(c, a, c', k) && c.store.workflowSeq <= c'.store.workflowSeq
  {
    hide Honest, ApplyCommands, NewRun, FiresAll, TokensUsed, Append, StartWorkflow;
    AppendFrame();
    match a
    case Start(k', workflowType, queue, input) =>
      var reply :| StartWorkflow(c.store, k', workflowType, queue, input, c'.store, reply);
      StartKeepsRun(c.store, k', workflowType, queue, input, c'.store, reply, k);
    case FireTimers(due) => FireAllTask(c.store, due, c'.store, k);
    case _ =>
  }

  lemma StepTask(reg: Registry, c: System, a: Action, c': System, k: RunKey)
    requires Step(reg, c, a, c') && k in c.store.runs && k in c'.store.runs
    ensures TaskFollows(c, a, c', k) && c.store.workflowSeq <= c'.store.workflowSeq
  {
    hide Step, TaskFollows;
    if a.RespondCompleted? || a.RespondFailed? || a.Heartbeat? {
      ResponseTask(reg, c, a, c', k);
    } else {
      OtherTask(reg, c, a, c', k);
    }
  }

  /** In every reachable state a pending task is visible, so only its lock can hold it back. */
  lemma {:induction false} PendingIsVisible(reg: Registry, states: seq<System>, actions: seq<Action>, i: nat, k: RunKey)
    requires Behavior(reg, states, actions) && i < |states|
    requires k in states[i].store.runs && states[i].store.runs[k].task.Some?
    ensures states[i].store.runs[k].task.value.visibleAt <= states[i].store.now
    ensures PollableWorkflow(states[i].store, k) <==> Available(states[i].store.runs[k].task.value.lockedUntil, states[i].store.now)
  {
    hide Inv, Step, NewRun;
    if i > 0 {
      var c, a, c' := states[i - 1], actions[i - 1], states[i];
      assert Taken(reg, states, actions, i - 1);
      ReachableInv(reg, states, actions, i - 1);
      StepClock(reg, c, a, c');
      if k in c.store.runs {
        StepTask(reg, c, a, c', k);
        if c.store.runs[k].task.Some? {
          PendingIsVisible(reg, states, actions, i - 1, k);
        }
      } else {
        NewRuns(reg, c, a, c', k);
        NewRunTask(a.workflowType, a.queue, a.input, c.store.workflowSeq, c.store.now);
      }
    }
  }

  lemma NewRunTask(workflowType: string, queue: string, input: Bytes, token: nat, now: int)
    ensures NewRun(workflowType, queue, input, token, now).task == Some(WorkflowTask(token, queue, now, None, None))
  {
  }

  /** The task, if it is still pending, is locked at least until then. */
  ghost predicate TaskGuarded(c: System, k: RunKey, token: int, until: int) {
    && k in c.store.runs && token < c.store.workflowSeq
    && (HoldsWorkflow(c.store, k, token) ==>
          c.store.runs[k].task.value.lockedUntil.Some? && c.store.runs[k].task.value.lockedUntil.value >= until)
  }

  lemma {:induction false} TaskGuardHolds(reg: Registry, states: seq<System>, actions: seq<Action>, i: nat, j: nat,
                                          k: RunKey, token: int, until: int, lease: int)
    requires Behavior(reg, states, actions) && i <= j < |states|
    requires forall m :: 0 <= m < |actions| && PollsRun(actions[m], k) ==> actions[m].lease == lease
    requires TaskGuarded(states[i], k, token, until) && until <= states[i].store.now + lease
    ensures TaskGuarded(states[j], k, token, until) && states[i].store.now <= states[j].store.now
  {
    hide Inv, Step, SameRun;
    if i < j {
      TaskGuardHolds(reg, states, actions, i, j - 1, k, token, until, lease);
      ReachableInv(reg, states, actions, j - 1);
      assert Taken(reg, states, actions, j - 1);
      StepClock(reg, states[j - 1], actions[j - 1], states[j]);
      StepAppends(reg, states[j - 1], actions[j - 1], states[j], k);
      StepTask(reg, states[j - 1], actions[j - 1], states[j], k);
    }
  }

  lemma PolledRun(reg: Registry, c: System, a: Action, c': System, k: RunKey)
    requires Inv(reg, c) && Step(reg, c, a, c') && PollsRun(a, k)
    ensures PollableWorkflow(c.store, k)
    ensures TaskGuarded(c', k, c.store.runs[k].task.value.taskId, c.store.now + a.lease)
  {
    hide Honest, AllIndexed, TokensUnique, OneRunning, MessagesOk;
    assert HoldsWorkflow(c.store, k, c.store.runs[k].task.value.taskId);
  }

  /** Under a fixed lease one workflow task is not handed out twice within a lease. */
  lemma TaskLeaseExclusive(reg: Registry, states: seq<System>, actions: seq<Action>, i: nat, j: nat, k: RunKey, lease: int)
    requires Behavior(reg, states, actions) && i < j < |actions| && PollsRun(actions[i], k) && PollsRun(actions[j], k)
    requires forall m :: 0 <= m < |actions| && PollsRun(actions[m], k) ==> actions[m].lease == lease
    ensures PollableWorkflow(states[i].store, k) && PollableWorkflow(states[j].store, k)
    ensures states[j].store.runs[k].task.value.taskId == states[i].store.runs[k].task.value.taskId
            ==> states[j].store.now >= states[i].store.now + lease
  {
    hide Inv, Step;
    ReachableInv(reg, states, actions, i);
    ReachableInv(reg, states, actions, j);
    assert Taken(reg, states, actions, i);
    PolledRun(reg, states[i], actions[i], states[i + 1], k);
    assert Taken(reg, states, actions, j);
    PolledRun(reg, states[j], actions[j], states[j + 1], k);
    StepClock(reg, states[i], actions[i], states[i + 1]);
    TaskGuardHolds(reg, states, actions, i + 1, j, k, states[i].store.runs[k].task.value.taskId, states[i].store.now + lease, lease);
  }

  /** The task, if it is still pending, is locked by this identity. */
  ghost predicate TaskOwnedBy(c: System, k: RunKey, token: int, identity: string) {
    && k in c.store.runs && token < c.store.workflowSeq
    && (HoldsWorkflow(c.store, k, token) ==> c.store.runs[k].task.value.lockedBy == Some(identity))
  }

  lemma {:induction false} TaskOwnershipHolds(reg: Registry, states: seq<System>, actions: seq<Action>, i: nat, j: nat,
                                              k: RunKey, token: int, identity: string)
    requires Behavior(reg, states, actions) && i <= j < |states| && TaskOwnedBy(states[i], k, token, identity)
    requires forall m :: i <= m < j ==> !PollsRun(actions[m], k)
    ensures TaskOwnedBy(states[j], k, token, identity)
  {
    hide Inv, Step, SameRun;
    if i < j {
      TaskOwnershipHolds(reg, states, actions, i, j - 1, k, token, identity);
      ReachableInv(reg, states, actions, j - 1);
      assert Taken(reg, states, actions, j - 1);
      StepAppends(reg, states[j - 1], actions[j - 1], states[j], k);
      StepTask(reg, states[j - 1], actions[j - 1], states[j], k);
    }
  }

  lemma PollOwnsTask(reg: Registry, c: System, a: Action, c': System, k: RunKey)
    requires Inv(reg, c) && Step(reg, c, a, c') && PollsRun(a, k)
    ensures PollableWorkflow(c.store, k) && TaskOwnedBy(c', k, c.store.runs[k].task.value.taskId, a.identity)
  {
    hide Honest, AllIndexed, TokensUnique, OneRunning, MessagesOk;
    assert HoldsWorkflow(c.store, k, c.store.runs[k].task.value.taskId);
  }

  /** The same for workflow tasks: the last identity a task was handed to, and no other, can decide it. */
  lemma DeciderIsHeard(reg: Registry, states: seq<System>, actions: seq<Action>, i: nat, j: nat, k: RunKey, identity: string, cs: seq<Command>)
    requires Behavior(reg, states, actions) && i < j < |states| && PollsRun(actions[i], k)
    requires forall m :: i < m < j ==> !PollsRun(actions[m], k)
    requires PollableWorkflow(states[i].store, k) && HoldsWorkflow(states[j].store, k, states[i].store.runs[k].task.value.taskId)
    ensures CompleteWorkflowTask(states[j].store, k, identity, cs).1 == Heard(identity == actions[i].identity)
  {
    hide Inv, Step, Commit, TokensUsed;
    ReachableInv(reg, states, actions, i);
    assert Taken(reg, states, actions, i);
    PollOwnsTask(reg, states[i], actions[i], states[i + 1], k);
    TaskOwnershipHolds(reg, states, actions, i + 1, j, k, states[i].store.runs[k].task.value.taskId, actions[i].identity);
  }

  // ---------------------------------------------------------------- expiry

  ghost predicate Expired(c: System, k: RunKey, s: int) {
    && k in c.store.runs && s <= |c.store.runs[k].history|
    && (s in c.store.runs[k].activities ==> Available(c.store.runs[k].activities[s].lockedUntil, c.store.now))
  }

  /** Nothing but a new hand-out locks a row whose lease has run out: a heartbeat never revives one. */
  lemma {:induction false} ExpiredStaysExpired(reg: Registry, states: seq<System>, actions: seq<Action>, i: nat, j: nat, k: RunKey, s: int)
    requires Behavior(reg, states, actions) && i <= j < |states| && Expired(states[i], k, s)
    requires forall m :: i <= m < j ==> !Polls(actions[m], k, s)
    ensures Expired(states[j], k, s)
  {
    hide Inv, Step, SameRun;
    if i < j {
      ExpiredStaysExpired(reg, states, actions, i, j - 1, k, s);
      ReachableInv(reg, states, actions, j - 1);
      assert Taken(reg, states, actions, j - 1);
      StepClock(reg, states[j - 1], actions[j - 1], states[j]);
      StepAppends(reg, states[j - 1], actions[j - 1], states[j], k);
      StepRow(reg, states[j - 1], actions[j - 1], states[j], k, s);
    }
  }

  /** Every hand-out of a retried attempt, redeliveries included, comes after the announced time. */
  lemma RetryWaits(reg: Registry, states: seq<System>, actions: seq<Action>, i: nat, k: RunKey, s: int) returns (j: nat)
    requires Behavior(reg, states, actions) && i < |actions| && Polls(actions[i], k, s)
    requires k in states[i].store.runs && s in states[i].store.runs[k].activities
    requires states[i].store.runs[k].activities[s].columns.attempt > 1
    ensures var h := states[i].store.runs[k].history;
            && j < |h| && h[j].attrs.ActivityRetryScheduled? && h[j].attrs.scheduledId == s
            && h[j].attrs.attempt == states[i].store.runs[k].activities[s].columns.attempt
            && h[j].attrs.nextTime <= states[i].store.now
  {
    hide Step, WellFormed, Live, TimersOf, StatusOf, TokensKnown, TokensUnique, OneRunning, MessagesOk;
    ReachableInv(reg, states, actions, i);
    var r := states[i].store.runs[k];
    assert Indexed(r);
    assert Columns(r.activities)[s] == r.activities[s].columns;
    j := VisibleFromRetry(r.history, s);
    assert Taken(reg, states, actions, i);
    PolledWasFree(reg, states[i], actions[i], states[i + 1], k, s);
  }
}
