/**
 The store as its transactions run: flat tables updated in place, row by row. The ghost `model` groups the
 rows of each run; every transaction is proved to move it exactly as the function of `Store` it implements.
 */
module Postgres {
  import opened Basics
  import opened History
  import opened Program
  import opened Backoff
  import opened Replay
  import opened Log
  import opened Store
  import opened System
  import opened Timers
  import opened Rows
  import opened RunInvariant
  import TableFacts = Tables
  import opened Journal

  class Database {
    var executions: map<RunKey, ExecutionRow>
    var events: map<EventRef, Event>
    var workflowTasks: map<nat, WorkflowRow>
    var activityTasks: map<nat, ActivityRow>
    var timers: map<TimerRef, TimerRow>
    var workflowSeq: nat
    var activitySeq: nat
    var now: int
    ghost var model: State

    ghost function AllRows(): Tables
      reads this
    {
      Tables(executions, events, workflowTasks, activityTasks, timers)
    }

    ghost predicate Valid()
      reads this
    {
      && Represents(AllRows(), model)
      && workflowSeq == model.workflowSeq && activitySeq == model.activitySeq && now == model.now
    }

    constructor ()
      ensures Valid() && model == INIT.store
    {
      executions, events, workflowTasks, activityTasks, timers := map[], map[], map[], map[], map[];
      workflowSeq, activitySeq, now := 1, 1, 0;
      model := INIT.store;
    }

    /** What the tables say about the model. */
    lemma Known()
      requires Valid()
      ensures executions.Keys == model.runs.Keys && forall k :: k in model.runs ==> executions[k] == RowOf(model.runs[k])
      ensures forall k, token: int :: HoldsWorkflow(model, k, token) <==>
                token >= 0 && token in workflowTasks && workflowTasks[token].key == k
      ensures forall k, a, token: int :: HoldsActivity(model, k, a, token) <==>
                token >= 0 && token in activityTasks && activityTasks[token].key == k && activityTasks[token].scheduledId == a
    {
      hide Represents;
      RowsKnown(AllRows(), model);
    }

    // -------------------------------------------------------------- events and tasks

    /** One row per event, with consecutive ids. */
    method InsertEvents(k: RunKey, first: int, attrs: seq<Attributes>) returns (nextId: int)
      modifies this`events
      ensures nextId == first + |attrs|
      ensures StampedRows(old(events), events, k, first, now, attrs)
    {
      nextId := first;
      for i := 0 to |attrs|
        invariant nextId == first + i
        invariant forall e :: e in events <==> e in old(events) || (e.0 == k && first <= e.1 < nextId)
        invariant forall e :: e in old(events) && !(e.0 == k && first <= e.1 < nextId) ==> events[e] == old(events)[e]
        invariant forall id :: first <= id < nextId ==> events[(k, id)] == Event(id, now, attrs[id - first])
      {
        events := events[(k, nextId) := Event(nextId, now, attrs[i])];
        nextId := nextId + 1;
      }
    }

    /** Stamp events with consecutive ids from the run's allocator, insert them, advance the allocator. */
    method AppendEvents(k: RunKey, attrs: seq<Attributes>) returns (first: int)
      requires Valid() && k in model.runs
      modifies this`executions, this`events, this`model
      ensures Valid() && model == Put(old(model), k, AppendAll(old(model).runs[k], now, attrs))
      ensures first == if attrs == [] then 0 else old(model).runs[k].nextEventId
    {
      hide Represents, Stamped, StampedRows;
      Known();
      if attrs == [] {
        AppendNothing(model, k);
        return 0;
      }
      ghost var before := AllRows();
      first := executions[k].nextEventId;
      var nextId := InsertEvents(k, first, attrs);
      executions := executions[k := executions[k].(nextEventId := nextId)];
      AppendRep(before, model, k, now, attrs, events);
      model := Put(model, k, AppendAll(model.runs[k], now, attrs));
    }

    method AppendEvent(k: RunKey, a: Attributes) returns (id: int)
      requires Valid() && k in model.runs
      modifies this`executions, this`events, this`model
      ensures Valid() && model == Put(old(model), k, Append(old(model).runs[k], now, a))
      ensures id == old(model).runs[k].nextEventId
    {
      hide Valid;
      AppendOne(model.runs[k], now, a);
      id := AppendEvents(k, [a]);
    }

    /** Insert a task unless the unique index finds one pending; the sequence advances either way. */
    method ScheduleWorkflowTask(k: RunKey, queue: string)
      requires Valid() && k in model.runs && queue == model.runs[k].queue
      modifies this`workflowTasks, this`workflowSeq, this`model
      ensures Valid()
      ensures model == Put(old(model), k, Enqueue(old(model).runs[k], old(model).workflowSeq, now)).(workflowSeq := old(model).workflowSeq + 1)
    {
      hide Represents;
      Known();
      EnqueueRep(AllRows(), model, k);
      assert model.runs[k].task.Some? ==> HoldsWorkflow(model, k, model.runs[k].task.value.taskId);
      var pending := exists t :: t in workflowTasks && workflowTasks[t].key == k;
      assert pending ==> exists t :: t in workflowTasks && HoldsWorkflow(model, k, t);
      if !pending {
        workflowTasks := workflowTasks[workflowSeq := WorkflowRow(k, queue, now, None, None)];
      }
      workflowSeq := workflowSeq + 1;
      model := Put(model, k, Enqueue(model.runs[k], model.workflowSeq, now)).(workflowSeq := model.workflowSeq + 1);
    }

    /** Look up the run's queue and enqueue a task. */
    method ScheduleWorkflowTaskForRun(k: RunKey)
      requires Valid() && k in model.runs
      modifies this`workflowTasks, this`workflowSeq, this`model
      ensures Valid()
      ensures model == Put(old(model), k, Enqueue(old(model).runs[k], old(model).workflowSeq, now)).(workflowSeq := old(model).workflowSeq + 1)
    {
      hide Represents, Enqueue;
      Known();
      ScheduleWorkflowTask(k, executions[k].queue);
    }

    /** Rewrite one workflow task row. */
    method UpdateWorkflowTask(token: nat, row: WorkflowRow)
      requires Valid() && token in workflowTasks && row.key == workflowTasks[token].key
      modifies this`workflowTasks, this`model
      ensures Valid() && row.key in old(model).runs
      ensures model == Put(old(model), row.key, old(model).runs[row.key].(task := Some(TaskOf(token, row))))
    {
      hide Represents;
      TaskUpdateRep(AllRows(), model, token, row);
      workflowTasks := workflowTasks[token := row];
      model := Put(model, row.key, model.runs[row.key].(task := Some(TaskOf(token, row))));
    }

    method DeleteWorkflowTask(token: nat)
      requires Valid() && token in workflowTasks
      modifies this`workflowTasks, this`model
      ensures Valid() && old(workflowTasks)[token].key in old(model).runs
      ensures var k := old(workflowTasks)[token].key;
              model == Put(old(model), k, old(model).runs[k].(task := None))
    {
      hide Represents;
      TaskDeleteRep(AllRows(), model, token);
      ghost var k := workflowTasks[token].key;
      workflowTasks := workflowTasks - {token};
      model := Put(model, k, model.runs[k].(task := None));
    }

    // -------------------------------------------------------------- activity, timer and execution rows

    method InsertActivityTask(row: ActivityRow)
      requires Valid() && row.key in model.runs
      requires row.scheduledId !in model.runs[row.key].activities && row.scheduledId < model.runs[row.key].nextEventId
      modifies this`activityTasks, this`activitySeq, this`model
      ensures Valid()
      ensures model == Put(old(model), row.key, WithActivity(old(model).runs[row.key], row.scheduledId, ActivityOf(old(model).activitySeq, row)))
                       .(activitySeq := old(model).activitySeq + 1)
    {
      hide Represents;
      ActivityInsertRep(AllRows(), model, row);
      activityTasks := activityTasks[activitySeq := row];
      model := Put(model, row.key, WithActivity(model.runs[row.key], row.scheduledId, ActivityOf(activitySeq, row)))
        .(activitySeq := activitySeq + 1);
      activitySeq := activitySeq + 1;
    }

    method UpdateActivityTask(token: nat, row: ActivityRow)
      requires Valid() && token in activityTasks
      requires row.key == activityTasks[token].key && row.scheduledId == activityTasks[token].scheduledId
      modifies this`activityTasks, this`model
      ensures Valid() && row.key in old(model).runs
      ensures model == Put(old(model), row.key, WithActivity(old(model).runs[row.key], row.scheduledId, ActivityOf(token, row)))
      ensures activityTasks == old(activityTasks)[token := row]
    {
      hide Represents;
      ActivityUpdateRep(AllRows(), model, token, row);
      activityTasks := activityTasks[token := row];
      model := Put(model, row.key, WithActivity(model.runs[row.key], row.scheduledId, ActivityOf(token, row)));
    }

    method DeleteActivityTask(token: nat)
      requires Valid() && token in activityTasks
      modifies this`activityTasks, this`model
      ensures Valid() && old(activityTasks)[token].key in old(model).runs
      ensures var row := old(activityTasks)[token];
              model == Put(old(model), row.key, WithoutActivity(old(model).runs[row.key], row.scheduledId))
    {
      hide Represents;
      ActivityDeleteRep(AllRows(), model, token);
      ghost var row := activityTasks[token];
      activityTasks := activityTasks - {token};
      model := Put(model, row.key, WithoutActivity(model.runs[row.key], row.scheduledId));
    }

    /** Insert or rewrite one timer row. */
    method WriteTimer(d: TimerRef, row: TimerRow)
      requires Valid() && d.0 in model.runs && d.1 < model.runs[d.0].nextEventId
      modifies this`timers, this`model
      ensures Valid()
      ensures model == Put(old(model), d.0, old(model).runs[d.0].(timers := old(model).runs[d.0].timers[d.1 := row]))
    {
      hide Represents;
      TimerRep(AllRows(), model, d, row);
      timers := timers[d := row];
      model := Put(model, d.0, model.runs[d.0].(timers := model.runs[d.0].timers[d.1 := row]));
    }

    method SetStatus(k: RunKey, status: RunStatus)
      requires Valid() && k in model.runs
      modifies this`executions, this`model
      ensures Valid() && model == Put(old(model), k, old(model).runs[k].(status := status))
    {
      hide Represents;
      StatusRep(AllRows(), model, k, status);
      executions := executions[k := executions[k].(status := status)];
      model := Put(model, k, model.runs[k].(status := status));
    }

    // -------------------------------------------------------------- entry points

    /** Insert an execution, its start event and its first task. */
    method CreateRun(k: RunKey, workflowType: string, queue: string, input: Bytes)
      requires Valid() && k !in model.runs
      modifies this
      ensures Valid() && now == old(now)
      ensures model == Put(old(model), k, NewRun(workflowType, queue, input, old(model).workflowSeq, old(now))).(workflowSeq := old(model).workflowSeq + 1)
    {
      hide Represents, Enqueue, Append;
      ghost var blank := Run(workflowType, queue, input, StatusRunning, 1, [], None, map[], map[]);
      ExecutionRep(AllRows(), model, k, blank);
      executions := executions[k := ExecutionRow(workflowType, queue, input, StatusRunning, 1)];
      model := Put(model, k, blank);
      var _ := AppendEvent(k, WorkflowStarted(workflowType, queue, input));
      assert model.runs[k].queue == queue by { AppendKeepsQueue(blank, now, WorkflowStarted(workflowType, queue, input)); }
      ScheduleWorkflowTask(k, queue);
    }

    /** Create the run, unless a unique index objects. */
    method StartWorkflow(k: RunKey, workflowType: string, queue: string, input: Bytes) returns (reply: StartReply)
      requires Valid()
      modifies this
      ensures Valid() && Store.StartWorkflow(old(model), k, workflowType, queue, input, model, reply)
      ensures reply.Started? ==> reply.key == k && k !in old(executions) && k in model.runs
                                 && model.runs[k].history == [Event(1, now, WorkflowStarted(workflowType, queue, input))]
      ensures reply.AlreadyStarted? ==> reply.key in old(executions) && reply.key.workflowId == k.workflowId
                                        && old(executions)[reply.key].status == StatusRunning && model == old(model)
      ensures reply.StartRefused? ==> k in old(executions) && model == old(model)
    {
      hide Represents, NewRun;
      Known();
      if running :| running in executions && running.workflowId == k.workflowId && executions[running].status == StatusRunning {
        assert RunningUnder(model, running, k.workflowId);
        return AlreadyStarted(running);
      }
      assert forall k' :: !RunningUnder(model, k', k.workflowId);
      if k in executions {
        return StartRefused;
      }
      ghost var s := model;
      CreateRun(k, workflowType, queue, input);
      NewRunLog(workflowType, queue, input, s.workflowSeq, now);
      return Started(k);
    }

    method SignalWorkflow(k: RunKey, name: string, input: Bytes) returns (error: Option<StoreError>)
      requires Valid()
      modifies this
      ensures Valid() && (model, error) == Store.SignalWorkflow(old(model), k, name, input)
      ensures error == if k !in old(executions) then Some(ErrNotFound)
                       else if old(executions)[k].status != StatusRunning then Some(ErrNotRunning)
                       else None
      ensures error.Some? ==> model == old(model)
      ensures error.None? ==> k in old(model).runs && k in model.runs
                              && Logs(old(model).runs[k], model.runs[k], now, Signaled(name, input))
    {
      hide Represents, Enqueue, Append;
      Known();
      if k !in executions {
        return Some(ErrNotFound);
      }
      var row := executions[k];
      if row.status != StatusRunning {
        return Some(ErrNotRunning);
      }
      AppendKeepsQueue(model.runs[k], now, Signaled(name, input));
      var _ := AppendEvent(k, Signaled(name, input));
      ghost var appended := model.runs[k];
      ScheduleWorkflowTask(k, row.queue);
      PutTwice(old(model), k, appended, model.runs[k]);
      EnqueueFrame();
      AppendLog(old(model).runs[k], now, Signaled(name, input));
      return None;
    }

    // -------------------------------------------------------------- workflow tasks

    /** The rows of a run's log in id order. */
    method LoadHistory(k: RunKey) returns (history: seq<Event>)
      requires Valid() && k in model.runs
      ensures history == model.runs[k].history
    {
      hide Represents;
      EventsKnown(AllRows(), model, k);
      history := [];
      var id := 1;
      while (k, id) in events
        invariant 1 <= id <= |model.runs[k].history| + 1
        invariant history == model.runs[k].history[..id - 1]
        decreases |model.runs[k].history| - id
      {
        history := history + [events[(k, id)]];
        id := id + 1;
      }
    }

    predicate WorkflowReady(token: nat, queue: string)
      reads this
    {
      && token in workflowTasks && workflowTasks[token].queue == queue && workflowTasks[token].visibleAt <= now
      && Available(workflowTasks[token].lockedUntil, now)
    }

    /** The ready row of the queue that became visible first. */
    method NextWorkflowTask(queue: string) returns (next: Option<nat>)
      ensures next.None? ==> forall t :: !WorkflowReady(t, queue)
      ensures next.Some? ==> WorkflowReady(next.value, queue)
      ensures next.Some? ==> forall t :: WorkflowReady(t, queue) ==> workflowTasks[next.value].visibleAt <= workflowTasks[t].visibleAt
    {
      next := None;
      var rest := workflowTasks.Keys;
      while rest != {}
        invariant rest <= workflowTasks.Keys
        invariant next.None? ==> forall t :: t !in rest ==> !WorkflowReady(t, queue)
        invariant next.Some? ==> WorkflowReady(next.value, queue)
        invariant next.Some? ==> forall t :: t !in rest && WorkflowReady(t, queue) ==>
                                   workflowTasks[next.value].visibleAt <= workflowTasks[t].visibleAt
        decreases |rest|
      {
        var t :| t in rest;
        rest := rest - {t};
        if WorkflowReady(t, queue) && (next.None? || workflowTasks[t].visibleAt < workflowTasks[next.value].visibleAt) {
          next := Some(t);
        }
      }
    }

    /** Lease the next task and hand out the whole history with it. */
    method PollWorkflowTask(queue: string, identity: string, lease: int) returns (task: Option<PolledWorkflow>)
      requires Valid()
      modifies this
      ensures Valid()
      ensures task.None? ==> model == old(model) && forall k :: !ReadyOn(model, k, queue)
      ensures task.Some? ==>
                var k := task.value.key;
                && ReadyOn(old(model), k, queue) && EarliestOn(old(model), k, queue)
                && model == Store.PollWorkflowTask(old(model), k, identity, lease)
                && Delivers(old(model), task.value) && task.value.startedEventId == |task.value.history|
    {
      hide Represents;
      var next := NextWorkflowTask(queue);
      TaskRowsKnown(AllRows(), model);
      if next.None? {
        assert forall k :: ReadyOn(model, k, queue) ==> WorkflowReady(model.runs[k].task.value.taskId, queue);
        return None;
      }
      var token := next.value;
      var row := workflowTasks[token];
      assert forall k :: ReadyOn(model, k, queue) ==> WorkflowReady(model.runs[k].task.value.taskId, queue);
      UpdateWorkflowTask(token, row.(lockedUntil := Some(now + lease), lockedBy := Some(identity)));
      Known();
      EventsKnown(AllRows(), model, row.key);
      var execution := executions[row.key];
      var history := LoadHistory(row.key);
      return Some(PolledWorkflow(token, row.key, execution.workflowType, history, execution.nextEventId - 1));
    }

    method ApplyScheduleActivity(k: RunKey, c: Command)
      requires Valid() && k in model.runs && c.ScheduleActivity?
      modifies this`executions, this`events, this`activityTasks, this`activitySeq, this`timers, this`model
      ensures Valid() && Applies(old(model), k, c, model)
    {
      hide Represents, Marshal;
      IdsKnown(AllRows(), model, k);
      var retry := if c.policy.Some? then c.policy.value else DEFAULT_POLICY;
      var call := ActivityCall(c.activityId, c.activityType, c.queue, c.input, retry, c.startToClose);
      var scheduledId := AppendEvent(k, ActivityScheduled(call));
      ghost var appended := model.runs[k];
      InsertActivityTask(ActivityRow(k, scheduledId, FirstColumns(call, now), None, None));
      PutTwice(old(model), k, appended, model.runs[k]);
    }

    method ApplyStartTimer(k: RunKey, c: Command)
      requires Valid() && k in model.runs && c.StartTimer?
      modifies this`executions, this`events, this`activityTasks, this`activitySeq, this`timers, this`model
      ensures Valid() && Applies(old(model), k, c, model)
    {
      hide Represents;
      var fireAt := now + c.timeout;
      var startedId := AppendEvent(k, TimerStarted(c.timerId, c.timeout, fireAt));
      ghost var appended := model.runs[k];
      WriteTimer((k, startedId), TimerRow(c.timerId, fireAt, false));
      PutTwice(old(model), k, appended, model.runs[k]);
    }

    method ApplyClose(k: RunKey, c: Command)
      requires Valid() && k in model.runs && IsTerminal(c)
      modifies this`executions, this`events, this`activityTasks, this`activitySeq, this`timers, this`model
      ensures Valid() && Applies(old(model), k, c, model)
    {
      hide Represents;
      var close := if c.CompleteWorkflow? then WorkflowCompleted(c.result) else WorkflowFailed(c.failure);
      var _ := AppendEvent(k, close);
      ghost var appended := model.runs[k];
      SetStatus(k, if c.CompleteWorkflow? then StatusCompleted else StatusFailed);
      PutTwice(old(model), k, appended, model.runs[k]);
    }

    /** Apply commands in order, stopping after the first terminal one. */
    method ApplyAll(k: RunKey, commands: seq<Command>)
      requires Valid() && k in model.runs
      modifies this`executions, this`events, this`activityTasks, this`activitySeq, this`timers, this`model
      ensures Valid()
      ensures model == Put(old(model), k, ApplyCommands(old(model).runs[k], now, old(model).activitySeq, commands))
                       .(activitySeq := old(model).activitySeq + TokensUsed(commands))
    {
      assert now == model.now;
      hide Valid, ApplyCommand;
      var terminal := false;
      var i := 0;
      assert commands[0..] == commands;
      Unchanged(model, k);
      while i < |commands| && !terminal
        invariant 0 <= i <= |commands| && Valid()
        invariant Pending(old(model), k, commands, model, if terminal then [] else commands[i..])
      {
        var c := commands[i];
        ghost var before := model;
        match c {
          case ScheduleActivity(_, _, _, _, _, _) => ApplyScheduleActivity(k, c);
          case StartTimer(_, _) => ApplyStartTimer(k, c);
          case CompleteWorkflow(_) => ApplyClose(k, c); terminal := true;
          case FailWorkflow(_) => ApplyClose(k, c); terminal := true;
        }
        AppliedOne(old(model), k, commands, before, commands[i..], model);
        assert commands[i..][1..] == commands[i + 1..];
        i := i + 1;
      }
      AppliedAll(old(model), k, commands, model);
    }

    /** Apply one decision atomically; only the lock holder's may be applied. */
    method CompleteWorkflowTask(token: nat, identity: string, commands: seq<Command>) returns (error: Option<StoreError>)
      requires Valid()
      modifies this
      ensures Valid()
      ensures (forall k :: !HoldsWorkflow(old(model), k, token)) ==> model == old(model) && error == Some(ErrTaskLost)
      ensures forall k :: HoldsWorkflow(old(model), k, token) ==>
                (model, error) == Store.CompleteWorkflowTask(old(model), k, identity, commands)
      ensures forall k :: HoldsWorkflow(old(model), k, token) ==>
                if old(model).runs[k].task.value.lockedBy == Some(identity) then
                  k in model.runs && model.runs[k].task.None?
                  && model.runs[k].history == old(model).runs[k].history
                                              + CommandEvents(commands, |old(model).runs[k].history| + 1, old(now))
                else model == old(model)
    {
      hide Represents, ApplyCommands, TokensUsed, CommandEvents;
      Known();
      if token !in workflowTasks {
        return Some(ErrTaskLost);
      }
      var row := workflowTasks[token];
      TaskRowsKnown(AllRows(), model);
      assert HoldsWorkflow(model, row.key, token);
      if row.lockedBy != Some(identity) {
        return Some(ErrTaskLost);
      }
      EventsKnown(AllRows(), model, row.key);
      CommandsAccounted(model.runs[row.key], now, model.activitySeq, commands);
      ApplyAll(row.key, commands);
      ghost var applied := model.runs[row.key];
      DeleteWorkflowTask(token);
      PutTwice(old(model), row.key, applied, model.runs[row.key]);
      return None;
    }

    // -------------------------------------------------------------- activity tasks

    predicate ActivityReady(token: nat, queue: string)
      reads this
    {
      && token in activityTasks && activityTasks[token].columns.queue == queue && activityTasks[token].columns.visibleAt <= now
      && Available(activityTasks[token].lockedUntil, now)
    }

    /** The ready row of the queue that became visible first. */
    method NextActivityTask(queue: string) returns (next: Option<nat>)
      ensures next.None? ==> forall t :: !ActivityReady(t, queue)
      ensures next.Some? ==> ActivityReady(next.value, queue)
      ensures next.Some? ==> forall t :: ActivityReady(t, queue) ==>
                activityTasks[next.value].columns.visibleAt <= activityTasks[t].columns.visibleAt
    {
      next := None;
      var rest := activityTasks.Keys;
      while rest != {}
        invariant rest <= activityTasks.Keys
        invariant next.None? ==> forall t :: t !in rest ==> !ActivityReady(t, queue)
        invariant next.Some? ==> ActivityReady(next.value, queue)
        invariant next.Some? ==> forall t :: t !in rest && ActivityReady(t, queue) ==>
                                   activityTasks[next.value].columns.visibleAt <= activityTasks[t].columns.visibleAt
        decreases |rest|
      {
        var t :| t in rest;
        rest := rest - {t};
        if ActivityReady(t, queue) && (next.None? || activityTasks[t].columns.visibleAt < activityTasks[next.value].columns.visibleAt) {
          next := Some(t);
        }
      }
    }

    /** Lease one row and record the start of its attempt unless that was done already. */
    method LeaseActivityTask(token: nat, identity: string, lease: int)
      requires Valid() && token in activityTasks
      modifies this
      ensures Valid() && old(activityTasks)[token].key in old(model).runs
      ensures var row := old(activityTasks)[token];
              && row.scheduledId in old(model).runs[row.key].activities
              && model == Put(old(model), row.key, LeaseActivity(old(model).runs[row.key], row.scheduledId, now, identity, lease))
              && now == old(now)
    {
      hide Represents, Append;
      ActivityRowsKnown(AllRows(), model);
      var row := activityTasks[token];
      var leased := row.(lockedUntil := Some(now + lease), lockedBy := Some(identity));
      UpdateActivityTask(token, leased);
      if row.columns.attempt > row.columns.lastStarted {
        ghost var r1 := model.runs[row.key];
        var _ := AppendEvent(row.key, ActivityStarted(row.scheduledId, identity, row.columns.attempt));
        ghost var r2 := model.runs[row.key];
        AppendCommutes(old(model).runs[row.key], r1, now, ActivityStarted(row.scheduledId, identity, row.columns.attempt));
        UpdateActivityTask(token, leased.(columns := row.columns.(lastStarted := row.columns.attempt)));
        PutTwice(old(model), row.key, r1, r2);
        PutTwice(old(model), row.key, r2, model.runs[row.key]);
        assert model.runs[row.key].activities
            == old(model).runs[row.key].activities[row.scheduledId := model.runs[row.key].activities[row.scheduledId]];
      }
    }

    /** Hand out the next activity task of the queue. */
    method PollActivityTask(queue: string, identity: string, lease: int) returns (task: Option<PolledActivity>)
      requires Valid()
      modifies this
      ensures Valid()
      ensures task.None? ==> model == old(model) && forall k, a :: !ActivityReadyOn(model, k, a, queue)
      ensures task.Some? ==>
                var k, a := task.value.key, task.value.scheduledId;
                && ActivityReadyOn(old(model), k, a, queue) && EarliestActivityOn(old(model), k, a, queue)
                && model == Store.PollActivityTask(old(model), k, a, identity, lease)
                && DeliversActivity(old(model), task.value)
                && (AllIndexed(old(model)) ==> DeliversEvent(old(model), task.value, queue))
    {
      hide Represents, LeaseActivity;
      var next := NextActivityTask(queue);
      ActivityRowsKnown(AllRows(), model);
      assert forall k, a :: ActivityReadyOn(model, k, a, queue) ==> ActivityReady(model.runs[k].activities[a].taskId, queue);
      if next.None? {
        return None;
      }
      var token := next.value;
      var row := activityTasks[token];
      LeaseActivityTask(token, identity, lease);
      var polled := PolledActivity(token, row.key, row.columns.activityId, row.columns.activityType, row.columns.input,
                                   row.columns.attempt, row.scheduledId);
      if AllIndexed(old(model)) {
        PolledFromLog(old(model), row.key, row.scheduledId, queue, polled);
      }
      return Some(polled);
    }

    /** Append the outcome, delete the row, wake the workflow. */
    method ResolveActivityTask(token: nat, outcome: Attributes)
      requires Valid() && token in activityTasks
      modifies this
      ensures Valid() && old(activityTasks)[token].key in old(model).runs
      ensures var row := old(activityTasks)[token];
              && row.scheduledId in old(model).runs[row.key].activities
              && model == Put(old(model), row.key, ResolveActivity(old(model).runs[row.key], row.scheduledId, old(now), outcome, old(model).workflowSeq))
                          .(workflowSeq := old(model).workflowSeq + 1)
    {
      hide Represents, Enqueue;
      ActivityRowsKnown(AllRows(), model);
      var row := activityTasks[token];
      var _ := AppendEvent(row.key, outcome);
      ghost var r1 := model.runs[row.key];
      DeleteActivityTask(token);
      ghost var r2 := model.runs[row.key];
      PutTwice(old(model), row.key, r1, r2);
      ScheduleWorkflowTaskForRun(row.key);
      PutTwice(old(model), row.key, r2, model.runs[row.key]);
    }

    method CompleteActivityTask(token: nat, identity: string, result: Bytes) returns (error: Option<StoreError>)
      requires Valid()
      modifies this
      ensures Valid()
      ensures (forall k, a :: !HoldsActivity(old(model), k, a, token)) ==> model == old(model) && error == Some(ErrTaskLost)
      ensures forall k, a :: HoldsActivity(old(model), k, a, token) ==>
                (model, error) == Store.CompleteActivityTask(old(model), k, a, identity, result)
      ensures forall k, a :: HoldsActivity(old(model), k, a, token) ==>
                if old(model).runs[k].activities[a].lockedBy == Some(identity) then
                  k in model.runs && a !in model.runs[k].activities
                  && Logs(old(model).runs[k], model.runs[k], now, ActivityCompleted(a, result))
                else model == old(model)
    {
      hide Represents, ResolveActivity;
      Known();
      if token !in activityTasks {
        return Some(ErrTaskLost);
      }
      ActivityRowsKnown(AllRows(), model);
      var row := activityTasks[token];
      assert HoldsActivity(model, row.key, row.scheduledId, token);
      if row.lockedBy != Some(identity) {
        return Some(ErrTaskLost);
      }
      ResolveActivityTask(token, ActivityCompleted(row.scheduledId, result));
      ResolveLog(old(model).runs[row.key], row.scheduledId, old(now), ActivityCompleted(row.scheduledId, result), old(model).workflowSeq);
      return None;
    }

    /** Put the row back for a later attempt. */
    method RetryActivityTask(token: nat, failure: Option<Failure>, delay: int)
      requires Valid() && token in activityTasks
      modifies this
      ensures Valid() && old(activityTasks)[token].key in old(model).runs
      ensures var row := old(activityTasks)[token];
              && row.scheduledId in old(model).runs[row.key].activities
              && model == Put(old(model), row.key, RetryActivity(old(model).runs[row.key], row.scheduledId, old(now), failure, delay))
    {
      hide Represents;
      ActivityRowsKnown(AllRows(), model);
      var row := activityTasks[token];
      var next := row.columns.attempt + 1;
      var _ := AppendEvent(row.key, ActivityRetryScheduled(row.scheduledId, next, now + delay, failure));
      ghost var r1 := model.runs[row.key];
      UpdateActivityTask(token, row.(columns := row.columns.(attempt := next, visibleAt := now + delay), lockedUntil := None, lockedBy := None));
      PutTwice(old(model), row.key, r1, model.runs[row.key]);
    }

    /** Retry under the row's policy, an empty one meaning the default, or record the failure for good. */
    method FailActivityTask(token: nat, identity: string, failure: Option<Failure>, retryable: bool, outOfRange: int)
      returns (retried: bool, error: Option<StoreError>)
      requires Valid()
      modifies this
      ensures Valid()
      ensures (forall k, a :: !HoldsActivity(old(model), k, a, token)) ==> model == old(model) && error == Some(ErrTaskLost) && !retried
      ensures forall k, a :: HoldsActivity(old(model), k, a, token) ==>
                && (model, error) == Store.FailActivityTask(old(model), k, a, identity, failure, retryable, outOfRange)
                && (retried <==> error.None? && a in model.runs[k].activities)
      ensures forall k, a :: HoldsActivity(old(model), k, a, token) ==>
                if old(model).runs[k].activities[a].lockedBy == Some(identity) then
                  k in model.runs && FailureRecorded(old(model).runs[k], model.runs[k], a, now, failure, retryable, retried)
                else model == old(model)
    {
      hide Represents, Enqueue, Append, Delay, CanRetry;
      Known();
      if token !in activityTasks {
        return false, Some(ErrTaskLost);
      }
      ActivityRowsKnown(AllRows(), model);
      var row := activityTasks[token];
      assert HoldsActivity(model, row.key, row.scheduledId, token);
      if row.lockedBy != Some(identity) {
        return false, Some(ErrTaskLost);
      }
      var delay, canRetry := NextRetryDelay(row.columns.blob, row.columns.attempt, outOfRange);
      if retryable && canRetry {
        RetryActivityTask(token, failure, delay);
        RetryLog(old(model).runs[row.key], row.scheduledId, old(now), failure, delay);
        return true, None;
      }
      ResolveActivityTask(token, ActivityFailed(row.scheduledId, failure, retryable));
      ResolveLog(old(model).runs[row.key], row.scheduledId, old(now), ActivityFailed(row.scheduledId, failure, retryable), old(model).workflowSeq);
      return false, None;
    }

    /** Push out a lease that has not run out. */
    method ExtendActivityLease(token: nat, lease: int) returns (extended: bool)
      requires Valid()
      modifies this
      ensures Valid()
      ensures (forall k, a :: !HoldsActivity(old(model), k, a, token)) ==> model == old(model) && !extended
      ensures forall k, a :: HoldsActivity(old(model), k, a, token) ==>
                (model, extended) == Store.ExtendActivityLease(old(model), k, a, lease)
      ensures extended <==> token in old(activityTasks) && old(activityTasks)[token].lockedUntil.Some?
                            && old(activityTasks)[token].lockedUntil.value > now
    {
      hide Represents;
      Known();
      if token !in activityTasks {
        return false;
      }
      ActivityRowsKnown(AllRows(), model);
      var row := activityTasks[token];
      assert HoldsActivity(model, row.key, row.scheduledId, token);
      if row.lockedUntil.None? || row.lockedUntil.value <= now {
        return false;
      }
      UpdateActivityTask(token, row.(lockedUntil := Some(now + lease)));
      return true;
    }

    // -------------------------------------------------------------- timers

    method EarliestTimer(refs: set<TimerRef>) returns (first: TimerRef)
      requires refs != {} && refs <= timers.Keys
      ensures first in refs && forall d :: d in refs ==> timers[first].fireAt <= timers[d].fireAt
    {
      first :| first in refs;
      var rest := refs - {first};
      while rest != {}
        invariant first in refs && rest <= refs
        invariant forall d :: d in refs && d !in rest ==> timers[first].fireAt <= timers[d].fireAt
        decreases |rest|
      {
        var d :| d in rest;
        rest := rest - {d};
        if timers[d].fireAt < timers[first].fireAt {
          first := d;
        }
      }
    }

    /** The earliest due timers, as many as the limit allows. */
    method SelectDue(limit: nat) returns (due: seq<TimerRef>)
      requires Valid()
      ensures Selected(model, limit, due)
    {
      hide Represents, Due, Chosen, Selected, DueTimers, DeadlineOf;
      TimerRowsKnown(AllRows(), model);
      var rest := set d | d in timers && !timers[d].fired && timers[d].fireAt <= now;
      DueRows(timers, model);
      due := [];
      ChosenNone(model);
      while |due| < limit && rest != {}
        invariant Chosen(model, due, rest) && rest <= timers.Keys
        invariant |due| <= limit
        decreases |rest|
      {
        var d := EarliestTimer(rest);
        ChosenNext(model, due, rest, d);
        rest := rest - {d};
        due := due + [d];
      }
      ChosenAll(model, limit, due, rest);
    }

    /** Append the fired event, set the flag, wake the workflow. */
    method FireTimerRow(d: TimerRef)
      requires Valid() && d.0 in model.runs && Due(model.runs[d.0], d.1, model.now)
      modifies this
      ensures Valid() && model == FireOne(old(model), d.0, d.1)
    {
      hide Represents, Enqueue;
      TimerRowsKnown(AllRows(), model);
      IdsKnown(AllRows(), model, d.0);
      var row := timers[d];
      var _ := AppendEvent(d.0, TimerFired(row.timerId, d.1));
      ghost var r1 := model.runs[d.0];
      WriteTimer(d, row.(fired := true));
      ghost var r2 := model.runs[d.0];
      PutTwice(old(model), d.0, r1, r2);
      ScheduleWorkflowTaskForRun(d.0);
      PutTwice(old(model), d.0, r2, model.runs[d.0]);
    }

    /** One scan of the timer service: fire up to a batch of due timers, earliest first. */
    method FireDueTimers(batch: int) returns (fired: int)
      requires Valid()
      modifies this
      ensures Valid() && Scan(old(model), batch, model, fired)
    {
      hide Valid, Selected, FireOne, Due;
      var limit := if batch <= 0 then 100 else batch;
      var due := SelectDue(limit);
      ghost var s' := SelectionFires(model, limit, due);
      fired := 0;
      assert due[0..] == due;
      while fired < |due|
        invariant 0 <= fired <= |due| && Valid() && FiresAll(model, due[fired..], s')
      {
        var d := due[fired];
        assert due[fired..][0] == d && due[fired..][1..] == due[fired + 1..];
        FireTimerRow(d);
        fired := fired + 1;
      }
      assert due[fired..] == [];
    }

    method Tick(elapsed: nat)
      requires Valid()
      modifies this`now, this`model
      ensures Valid() && model == old(model).(now := old(model).now + elapsed)
    {
      hide Represents;
      ClockRep(AllRows(), model, now + elapsed);
      now := now + elapsed;
      model := model.(now := now);
    }
  }

  /** The log grew by exactly this event, numbered next and stamped now. */
  ghost predicate Logs(r: Run, r': Run, now: int, a: Attributes) {
    r'.history == r.history + [Event(r.nextEventId, now, a)]
  }

  /** A reported failure is in the log as it was reported: with a later attempt, or for good. */
  ghost predicate FailureRecorded(r: Run, r': Run, s: int, now: int, failure: Option<Failure>, retryable: bool, retried: bool)
    requires s in r.activities
  {
    var row := r.activities[s].columns;
    var max := if row.blob.Some? then row.blob.value.maxAttempts else 5;
    && (retried <==> retryable && !(0 < max <= row.attempt))
    && (retried ==> s in r'.activities
                    && Logs(r, r', now, ActivityRetryScheduled(s, row.attempt + 1, r'.activities[s].columns.visibleAt, failure)))
    && (!retried ==> s !in r'.activities && Logs(r, r', now, ActivityFailed(s, failure, retryable)))
  }

  /** The polled activity is the call its scheduled event records, on the queue that was polled. */
  ghost predicate DeliversEvent(s: State, task: PolledActivity, queue: string) {
    task.key in s.runs
    && var h := s.runs[task.key].history;
       && SchedulesAt(h, task.scheduledId)
       && var call := h[task.scheduledId - 1].attrs.call;
          task.activityId == call.activityId && task.activityType == call.activityType && task.input == call.input && queue == call.queue
  }

  lemma PolledFromLog(s: State, k: RunKey, a: int, queue: string, task: PolledActivity)
    requires AllIndexed(s) && k == task.key && a == task.scheduledId && ActivityReadyOn(s, k, a, queue) && DeliversActivity(s, task)
    ensures DeliversEvent(s, task, queue)
  {
    hide Indexed;
    assert Indexed(s.runs[k]);
    TableFacts.RowOfLog(s.runs[k], a);
  }

  datatype PolledWorkflow = PolledWorkflow(token: nat, key: RunKey, workflowType: string, history: seq<Event>, startedEventId: int)

  ghost predicate ReadyOn(s: State, k: RunKey, queue: string) {
    PollableWorkflow(s, k) && s.runs[k].task.value.queue == queue
  }

  ghost predicate EarliestOn(s: State, k: RunKey, queue: string) {
    && PollableWorkflow(s, k)
    && forall k' :: ReadyOn(s, k', queue) ==> s.runs[k].task.value.visibleAt <= s.runs[k'].task.value.visibleAt
  }

  /** The polled task carries the run's token, type and log. */
  ghost predicate Delivers(s: State, task: PolledWorkflow) {
    && HoldsWorkflow(s, task.key, task.token)
    && task.workflowType == s.runs[task.key].workflowType && task.history == s.runs[task.key].history
  }

  lemma AppendKeepsQueue(r: Run, now: int, a: Attributes)
    ensures Append(r, now, a).queue == r.queue
  {
  }

  /** One command takes effect on one run, and takes the task ids it needs. */
  ghost predicate Applies(s: State, k: RunKey, c: Command, s': State)
    requires k in s.runs
  {
    s' == Put(s, k, ApplyCommand(s.runs[k], s.now, s.activitySeq, c)).(activitySeq := s.activitySeq + TokensFor(c))
  }

  /** Having reached s1 with these commands left ends where applying all commands to s does. */
  ghost predicate Pending(s: State, k: RunKey, all: seq<Command>, s1: State, left: seq<Command>) {
    && k in s.runs && k in s1.runs
    && s1 == Put(s, k, s1.runs[k]).(activitySeq := s1.activitySeq)
    && ApplyCommands(s.runs[k], s.now, s.activitySeq, all) == ApplyCommands(s1.runs[k], s.now, s1.activitySeq, left)
    && s.activitySeq + TokensUsed(all) == s1.activitySeq + TokensUsed(left)
  }

  lemma Unchanged(s: State, k: RunKey)
    requires k in s.runs
    ensures Put(s, k, s.runs[k]).(activitySeq := s.activitySeq) == s
  {
  }

  lemma AppliedOne(s: State, k: RunKey, all: seq<Command>, s1: State, left: seq<Command>, s2: State)
    requires Pending(s, k, all, s1, left) && left != [] && Applies(s1, k, left[0], s2)
    ensures Pending(s, k, all, s2, if IsTerminal(left[0]) then [] else left[1..])
  {
    hide ApplyCommand;
    PutTwice(s, k, s1.runs[k], s2.runs[k]);
  }

  lemma AppliedAll(s: State, k: RunKey, all: seq<Command>, s1: State)
    requires Pending(s, k, all, s1, [])
    ensures s1 == Put(s, k, ApplyCommands(s.runs[k], s.now, s.activitySeq, all)).(activitySeq := s.activitySeq + TokensUsed(all))
  {
  }

  datatype PolledActivity = PolledActivity(
    token: nat, key: RunKey, activityId: string, activityType: string, input: Bytes, attempt: int, scheduledId: int)

  ghost predicate ActivityReadyOn(s: State, k: RunKey, a: int, queue: string) {
    k in s.runs && Pollable(s.runs[k], a, s.now) && s.runs[k].activities[a].columns.queue == queue
  }

  ghost predicate EarliestActivityOn(s: State, k: RunKey, a: int, queue: string) {
    && k in s.runs && a in s.runs[k].activities
    && forall k', a' :: ActivityReadyOn(s, k', a', queue) ==>
         s.runs[k].activities[a].columns.visibleAt <= s.runs[k'].activities[a'].columns.visibleAt
  }

  ghost predicate DeliversActivity(s: State, task: PolledActivity) {
    && HoldsActivity(s, task.key, task.scheduledId, task.token)
    && var c := s.runs[task.key].activities[task.scheduledId].columns;
       task.activityId == c.activityId && task.activityType == c.activityType && task.input == c.input && task.attempt == c.attempt
  }

  /** Appending an event and rewriting an activity row can be done in either order. */
  lemma AppendCommutes(r: Run, r1: Run, now: int, a: Attributes)
    requires r1 == r.(activities := r1.activities)
    ensures Append(r1, now, a) == Append(r, now, a).(activities := r1.activities)
  {
  }

  lemma AppendLog(r: Run, now: int, a: Attributes)
    ensures Append(r, now, a).history == r.history + [Event(r.nextEventId, now, a)]
  {
  }

  lemma NewRunLog(workflowType: string, queue: string, input: Bytes, token: nat, now: int)
    ensures NewRun(workflowType, queue, input, token, now).history == [Event(1, now, WorkflowStarted(workflowType, queue, input))]
  {
  }

  lemma ResolveLog(r: Run, s: int, now: int, a: Attributes, token: nat)
    requires s in r.activities
    ensures var r' := ResolveActivity(r, s, now, a, token);
            Logs(r, r', now, a) && s !in r'.activities
  {
    hide Enqueue;
    EnqueueFrame();
  }

  lemma RetryLog(r: Run, s: int, now: int, failure: Option<Failure>, delay: int)
    requires s in r.activities
    ensures var r' := RetryActivity(r, s, now, failure, delay);
            && s in r'.activities
            && Logs(r, r', now, ActivityRetryScheduled(s, r.activities[s].columns.attempt + 1, r'.activities[s].columns.visibleAt, failure))
  {
  }

  lemma DueRows(rows: map<TimerRef, TimerRow>, s: State)
    requires forall d :: d in rows <==> d.0 in s.runs && d.1 in s.runs[d.0].timers
    requires forall d :: d in rows ==> rows[d] == s.runs[d.0].timers[d.1]
    ensures (set d | d in rows && !rows[d].fired && rows[d].fireAt <= s.now) == DueTimers(s)
    ensures forall d :: d in rows ==> DeadlineOf(s, d) == rows[d].fireAt
  {
    var refs := set d | d in rows && !rows[d].fired && rows[d].fireAt <= s.now;
    forall d | d in refs
      ensures d in DueTimers(s)
    {
      var k, t := d.0, d.1;
      assert (k, t) in DueTimers(s) && d == (k, t);
    }
    forall d | d in DueTimers(s)
      ensures d in refs
    {
      assert d in rows;
    }
  }

  /** Part of a selection: taken earliest first, the rest still to choose from. */
  ghost predicate Chosen(s: State, due: seq<TimerRef>, rest: set<TimerRef>) {
    && Distinct(due) && AllDue(s, due) && EarliestFirst(s, due)
    && rest == DueTimers(s) - Members(due)
    && forall i, d :: 0 <= i < |due| && d in rest ==> DeadlineOf(s, due[i]) <= DeadlineOf(s, d)
  }

  lemma ChosenNone(s: State)
    ensures Chosen(s, [], DueTimers(s))
  {
  }

  lemma ChosenNext(s: State, due: seq<TimerRef>, rest: set<TimerRef>, d: TimerRef)
    requires Chosen(s, due, rest) && d in rest && forall e :: e in rest ==> DeadlineOf(s, d) <= DeadlineOf(s, e)
    ensures Chosen(s, due + [d], rest - {d})
  {
    hide DueTimers, DeadlineOf;
    assert Members(due + [d]) == Members(due) + {d};
    assert forall i :: 0 <= i < |due| ==> due[i] in Members(due);
  }

  lemma ChosenAll(s: State, limit: nat, due: seq<TimerRef>, rest: set<TimerRef>)
    requires Chosen(s, due, rest) && |due| <= limit && (|due| == limit || rest == {})
    ensures Selected(s, limit, due)
  {
    hide DueTimers, DeadlineOf;
    MembersCount(due);
    assert forall i :: 0 <= i < |due| ==> due[i] in Members(due);
    assert forall d :: d in Members(due) ==> d in due;
    assert Members(due) <= DueTimers(s);
    assert |rest| == |DueTimers(s)| - |due|;
  }

  lemma SelectionFires(s: State, limit: nat, due: seq<TimerRef>) returns (s': State)
    requires Selected(s, limit, due)
    ensures FiresAll(s, due, s')
  {
    s' := DistinctDueFire(s, due);
  }
}
