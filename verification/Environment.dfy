/**
 The replay environment as the engine builds and mutates it: objects reached both through ordered lists
 and through index maps, counters, flags and an accumulating command list. Each method is proved to act
 as the corresponding step of the `Replay` machine, and `Execute` to return the machine's decision.
 */
module Environment {
  import opened Basics
  import opened History
  import opened Program
  import opened Replay

  class ActivityObject {
    const activityType: string
    var completed: bool
    var failed: bool
    var result: Bytes
    var failure: Option<Failure>

    constructor (activityType: string)
      ensures this.activityType == activityType && !completed && !failed && result == [] && failure == None
    {
      this.activityType := activityType;
      completed, failed, result, failure := false, false, [], None;
    }

    /** The object as a value; ids live only in the index map. */
    ghost function Value(id: int): ActivityState
      reads this
    {
      ActivityState(id, activityType, completed, result, failed, failure)
    }

    /** The future of a recorded call, provided the code calls the type that was recorded. */
    method Matched(index: nat, t: string, ghost id: int) returns (r: Outcome<Option<Response>>)
      ensures if activityType != "" && activityType != t then r == Panicked(NonDeterminism(index, activityType, t))
              else r == Returned(ActivityAnswer(Value(id), t))
    {
      if activityType != "" && activityType != t {
        return Panicked(NonDeterminism(index, activityType, t));
      }
      if completed {
        return Returned(Some(Response.Value(result)));
      } else if failed {
        return Returned(Some(ActivityError(t, FailureMessage(failure))));
      } else {
        return Returned(None);
      }
    }
  }

  class TimerObject {
    var fired: bool

    constructor ()
      ensures !fired
    {
      fired := false;
    }
  }

  class SignalObject {
    const name: string
    const input: Bytes
    var consumed: bool

    constructor (name: string, input: Bytes)
      ensures this.name == name && this.input == input && !consumed
    {
      this.name, this.input := name, input;
      consumed := false;
    }
  }

  /** A call of the context returns, unwinds because it must wait, or panics. */
  datatype Outcome<T> = Returned(value: T) | Unwound | Panicked(message: string)

  /** The projection after the clock is read for a log that carries no time. */
  function Grounded(v: View, wallClock: int): View {
    if v.now == 0 then v.(now := wallClock) else v
  }

  /** The command for a call past the log, field by field: durations that are not positive are dropped. */
  predicate CommandAsAsked(c: Command, queue: string, index: nat, t: string, b: Bytes, o: ActivityOptions) {
    && c.ScheduleActivity? && c.activityType == t && c.input == b
    && c.activityId == (if o.activityId != "" then o.activityId else "activity-" + Decimal(index))
    && c.queue == (if o.queue != "" then o.queue else queue)
    && c.startToClose == (if o.startToClose > 0 then o.startToClose else 0)
    && (o.policy.None? ==> c.policy.None?)
    && (o.policy.Some? ==>
          var p := o.policy.value;
          c.policy == Some(RetryPolicy(if p.initialInterval > 0 then p.initialInterval else 0, p.backoffCoefficient,
                                       if p.maxInterval > 0 then p.maxInterval else 0, p.maxAttempts)))
  }

  lemma CommandFields(index: nat, queue: string, t: string, b: Bytes, o: ActivityOptions)
    ensures CommandAsAsked(ScheduleCommand(index, queue, t, b, o), queue, index, t, b, o)
  {
  }

  // ---------------------------------------------------------------- index maps

  /** The objects, under the ids they were registered with, have these values. */
  ghost predicate ShowsActivities(objects: seq<ActivityObject>, states: seq<ActivityState>)
    reads objects
  {
    && |objects| == |states|
    && forall i :: 0 <= i < |objects| ==> objects[i].Value(states[i].id) == states[i]
  }

  ghost predicate ShowsTimers(objects: seq<TimerObject>, states: seq<TimerState>)
    reads objects
  {
    && |objects| == |states|
    && forall i :: 0 <= i < |objects| ==> objects[i].fired == states[i].fired
  }

  ghost predicate ShowsSignals(objects: seq<SignalObject>, signals: seq<Signal>, consumed: set<nat>)
    reads objects
  {
    && |objects| == |signals|
    && forall i :: 0 <= i < |objects| ==>
         objects[i].name == signals[i].name && objects[i].input == signals[i].input && (objects[i].consumed <==> i in consumed)
  }

  /** The map aliases, for each id, the latest object registered under it. */
  ghost predicate IndexesActivities(index: map<int, ActivityObject>, objects: seq<ActivityObject>, states: seq<ActivityState>) {
    && |objects| == |states|
    && (forall id :: id in index ==> exists i :: 0 <= i < |states| && LatestActivity(states, i, id) && index[id] == objects[i])
    && (forall i :: 0 <= i < |states| ==> states[i].id in index)
  }

  ghost predicate IndexesTimers(index: map<int, TimerObject>, objects: seq<TimerObject>, states: seq<TimerState>) {
    && |objects| == |states|
    && (forall id :: id in index ==> exists i :: 0 <= i < |states| && LatestTimer(states, i, id) && index[id] == objects[i])
    && (forall i :: 0 <= i < |states| ==> states[i].id in index)
  }

  lemma IndexNewActivity(index: map<int, ActivityObject>, objects: seq<ActivityObject>, states: seq<ActivityState>, o: ActivityObject, st: ActivityState)
    requires IndexesActivities(index, objects, states)
    ensures IndexesActivities(index[st.id := o], objects + [o], states + [st])
  {
    var states', objects', index' := states + [st], objects + [o], index[st.id := o];
    forall id | id in index'
      ensures exists i :: 0 <= i < |states'| && LatestActivity(states', i, id) && index'[id] == objects'[i]
    {
      if id == st.id {
        assert LatestActivity(states', |states|, id);
      } else {
        var i :| 0 <= i < |states| && LatestActivity(states, i, id) && index[id] == objects[i];
        assert LatestActivity(states', i, id);
      }
    }
  }

  lemma IndexNewTimer(index: map<int, TimerObject>, objects: seq<TimerObject>, states: seq<TimerState>, o: TimerObject, st: TimerState)
    requires IndexesTimers(index, objects, states)
    ensures IndexesTimers(index[st.id := o], objects + [o], states + [st])
  {
    var states', objects', index' := states + [st], objects + [o], index[st.id := o];
    forall id | id in index'
      ensures exists i :: 0 <= i < |states'| && LatestTimer(states', i, id) && index'[id] == objects'[i]
    {
      if id == st.id {
        assert LatestTimer(states', |states|, id);
      } else {
        var i :| 0 <= i < |states| && LatestTimer(states, i, id) && index[id] == objects[i];
        assert LatestTimer(states', i, id);
      }
    }
  }

  /** Rewriting entries in place, ids unchanged, keeps the index. */
  lemma IndexSameIds(index: map<int, ActivityObject>, objects: seq<ActivityObject>, states: seq<ActivityState>, states': seq<ActivityState>)
    requires IndexesActivities(index, objects, states) && |states'| == |states|
    requires forall i :: 0 <= i < |states| ==> states'[i].id == states[i].id
    ensures IndexesActivities(index, objects, states')
  {
    forall id | id in index
      ensures exists i :: 0 <= i < |states'| && LatestActivity(states', i, id) && index[id] == objects[i]
    {
      var i :| 0 <= i < |states| && LatestActivity(states, i, id) && index[id] == objects[i];
      assert LatestActivity(states', i, id);
    }
  }

  lemma IndexSameTimerIds(index: map<int, TimerObject>, objects: seq<TimerObject>, states: seq<TimerState>, states': seq<TimerState>)
    requires IndexesTimers(index, objects, states) && |states'| == |states|
    requires forall i :: 0 <= i < |states| ==> states'[i].id == states[i].id
    ensures IndexesTimers(index, objects, states')
  {
    forall id | id in index
      ensures exists i :: 0 <= i < |states'| && LatestTimer(states', i, id) && index[id] == objects[i]
    {
      var i :| 0 <= i < |states| && LatestTimer(states, i, id) && index[id] == objects[i];
      assert LatestTimer(states', i, id);
    }
  }

  /** The object found under an id sits at the latest position of that id, and nowhere else. */
  lemma FoundActivity(index: map<int, ActivityObject>, objects: seq<ActivityObject>, states: seq<ActivityState>, id: int)
    requires IndexesActivities(index, objects, states) && Distinct(objects)
    ensures id !in index ==> forall i :: 0 <= i < |states| ==> !LatestActivity(states, i, id)
    ensures id in index ==> index[id] in objects
    ensures id in index ==> forall i :: 0 <= i < |states| ==> (objects[i] == index[id] <==> LatestActivity(states, i, id))
  {
    if id in index {
      var i :| 0 <= i < |states| && LatestActivity(states, i, id) && index[id] == objects[i];
    }
  }

  /** Rewriting the one object found is rewriting the entry of the projection. */
  lemma CompletesFound(index: map<int, ActivityObject>, objects: seq<ActivityObject>, states: seq<ActivityState>, s: int, result: Bytes)
    requires IndexesActivities(index, objects, states) && Distinct(objects)
    ensures IndexesActivities(index, objects, Complete(states, s, result))
    ensures s in index ==> index[s] in objects
    ensures s !in index ==> Complete(states, s, result) == states
    ensures s in index ==> forall i :: 0 <= i < |objects| && objects[i] != index[s] ==> Complete(states, s, result)[i] == states[i]
    ensures s in index ==> forall i :: 0 <= i < |objects| && objects[i] == index[s] ==>
              Complete(states, s, result)[i] == states[i].(completed := true, result := result)
  {
    FoundActivity(index, objects, states, s);
    IndexSameIds(index, objects, states, Complete(states, s, result));
  }

  /** Rewriting the one object found is rewriting the entry of the projection. */
  lemma FailsFound(index: map<int, ActivityObject>, objects: seq<ActivityObject>, states: seq<ActivityState>, s: int, failure: Option<Failure>)
    requires IndexesActivities(index, objects, states) && Distinct(objects)
    ensures IndexesActivities(index, objects, MarkFailed(states, s, failure))
    ensures s in index ==> index[s] in objects
    ensures s !in index ==> MarkFailed(states, s, failure) == states
    ensures s in index ==> forall i :: 0 <= i < |objects| && objects[i] != index[s] ==> MarkFailed(states, s, failure)[i] == states[i]
    ensures s in index ==> forall i :: 0 <= i < |objects| && objects[i] == index[s] ==>
              MarkFailed(states, s, failure)[i] == states[i].(failed := true, failure := failure)
  {
    FoundActivity(index, objects, states, s);
    IndexSameIds(index, objects, states, MarkFailed(states, s, failure));
  }

  lemma FoundTimer(index: map<int, TimerObject>, objects: seq<TimerObject>, states: seq<TimerState>, id: int)
    requires IndexesTimers(index, objects, states) && Distinct(objects)
    ensures id !in index ==> forall i :: 0 <= i < |states| ==> !LatestTimer(states, i, id)
    ensures id in index ==> index[id] in objects
    ensures id in index ==> forall i :: 0 <= i < |states| ==> (objects[i] == index[id] <==> LatestTimer(states, i, id))
  {
    if id in index {
      var i :| 0 <= i < |states| && LatestTimer(states, i, id) && index[id] == objects[i];
    }
  }

  lemma NothingIndexed(h: seq<Event>)
    ensures ViewOf(h[..0]) == EMPTY_VIEW && h[..|h|] == h
    ensures IndexesActivities(map[], [], EMPTY_VIEW.activities) && IndexesTimers(map[], [], EMPTY_VIEW.timers)
  {
  }

  lemma ViewNext(h: seq<Event>, i: nat)
    requires i < |h|
    ensures ViewOf(h[..i + 1]) == Absorb(ViewOf(h[..i]), h[i])
  {
    assert h[..i + 1] == h[..i] + [h[i]];
    ViewAppend(h[..i], h[i]);
  }

  /** An event touches only its own list of the projection. */
  lemma KeepsOthers(v: View, id: int, a: Attributes)
    ensures var v' := AbsorbAttributes(v, id, a);
            && (!(a.ActivityScheduled? || a.ActivityCompleted? || a.ActivityFailed?) ==> v'.activities == v.activities)
            && (!(a.TimerStarted? || a.TimerFired?) ==> v'.timers == v.timers)
  {
  }

  // ---------------------------------------------------------------- the environment

  class Environment {
    const taskQueue: string
    var input: Bytes
    var now: int
    var terminated: bool
    var activities: seq<ActivityObject>
    var timers: seq<TimerObject>
    var signals: seq<SignalObject>
    var activitySeq: nat
    var timerSeq: nat
    var newCommands: seq<Command>
    var replaying: bool

    constructor (taskQueue: string)
      ensures this.taskQueue == taskQueue
      ensures Shows(EMPTY_VIEW) && AtStart() && activities == [] && timers == [] && signals == []
    {
      this.taskQueue := taskQueue;
      input, now, terminated := [], 0, false;
      activities, timers, signals := [], [], [];
      activitySeq, timerSeq, newCommands, replaying := 0, 0, [], true;
    }

    /** The fields are this projection, with no signal consumed. */
    ghost predicate Shows(v: View)
      reads this, activities, timers, signals
    {
      && input == v.input && now == v.now && terminated == v.terminated
      && ShowsActivities(activities, v.activities) && Distinct(activities)
      && ShowsTimers(timers, v.timers) && Distinct(timers)
      && ShowsSignals(signals, v.signals, {}) && Distinct(signals)
    }

    /** No call has been made yet. */
    ghost predicate AtStart()
      reads this`activitySeq, this`timerSeq, this`newCommands, this`replaying
    {
      activitySeq == 0 && timerSeq == 0 && newCommands == [] && replaying
    }

    /** The objects reached through the ordered lists. */
    ghost function Objects(): (objects: set<object>)
      reads this`activities, this`timers, this`signals
      ensures this !in objects
    {
      (set o | o in activities) + (set o | o in timers) + (set o | o in signals)
    }

    method IndexScheduled(id: int, call: ActivityCall, index: map<int, ActivityObject>, ghost v: View)
      returns (index': map<int, ActivityObject>)
      requires Shows(v) && IndexesActivities(index, activities, v.activities)
      modifies this`activities
      ensures Shows(AbsorbAttributes(v, id, ActivityScheduled(call)))
      ensures IndexesActivities(index', activities, AbsorbAttributes(v, id, ActivityScheduled(call)).activities)
      ensures |activities| == |old(activities)| + 1 && activities[..|activities| - 1] == old(activities) && fresh(activities[|activities| - 1])
    {
      hide IndexesActivities, Complete, MarkFailed, Fire;
      var st := new ActivityObject(call.activityType);
      IndexNewActivity(index, activities, v.activities, st, st.Value(id));
      activities := activities + [st];
      index' := index[id := st];
    }

    method IndexCompleted(s: int, result: Bytes, index: map<int, ActivityObject>, ghost v: View)
      requires Shows(v) && IndexesActivities(index, activities, v.activities)
      modifies activities
      ensures Shows(v.(activities := Complete(v.activities, s, result)))
      ensures IndexesActivities(index, activities, Complete(v.activities, s, result))
    {
      hide IndexesActivities, Complete, Distinct;
      CompletesFound(index, activities, v.activities, s, result);
      if s in index {
        var st := index[s];
        st.completed := true;
        st.result := result;
      }
      assert ShowsTimers(timers, v.timers) && ShowsSignals(signals, v.signals, {});
      assert Distinct(activities) && Distinct(timers) && Distinct(signals);
      assert ShowsActivities(activities, Complete(v.activities, s, result));
    }

    method IndexFailed(s: int, failure: Option<Failure>, index: map<int, ActivityObject>, ghost v: View)
      requires Shows(v) && IndexesActivities(index, activities, v.activities)
      modifies activities
      ensures Shows(v.(activities := MarkFailed(v.activities, s, failure)))
      ensures IndexesActivities(index, activities, MarkFailed(v.activities, s, failure))
    {
      hide IndexesActivities, MarkFailed, Distinct;
      FailsFound(index, activities, v.activities, s, failure);
      if s in index {
        var st := index[s];
        st.failed := true;
        st.failure := failure;
      }
      assert ShowsTimers(timers, v.timers) && ShowsSignals(signals, v.signals, {});
      assert Distinct(activities) && Distinct(timers) && Distinct(signals);
      assert ShowsActivities(activities, MarkFailed(v.activities, s, failure));
    }

    method IndexTimerStarted(id: int, index: map<int, TimerObject>, ghost v: View) returns (index': map<int, TimerObject>)
      requires Shows(v) && IndexesTimers(index, timers, v.timers)
      modifies this`timers
      ensures Shows(v.(timers := v.timers + [TimerState(id, false)]))
      ensures IndexesTimers(index', timers, v.timers + [TimerState(id, false)])
      ensures |timers| == |old(timers)| + 1 && timers[..|timers| - 1] == old(timers) && fresh(timers[|timers| - 1])
    {
      hide IndexesTimers;
      var st := new TimerObject();
      IndexNewTimer(index, timers, v.timers, st, TimerState(id, false));
      timers := timers + [st];
      index' := index[id := st];
    }

    method IndexTimerFired(s: int, index: map<int, TimerObject>, ghost v: View)
      requires Shows(v) && IndexesTimers(index, timers, v.timers)
      modifies timers
      ensures Shows(v.(timers := Fire(v.timers, s)))
      ensures IndexesTimers(index, timers, Fire(v.timers, s))
    {
      hide IndexesTimers;
      FoundTimer(index, timers, v.timers, s);
      IndexSameTimerIds(index, timers, v.timers, Fire(v.timers, s));
      if s in index {
        var st := index[s];
        st.fired := true;
      }
    }

    method IndexSignal(name: string, input: Bytes, ghost v: View)
      requires Shows(v)
      modifies this`signals
      ensures Shows(v.(signals := v.signals + [Signal(name, input)]))
      ensures |signals| == |old(signals)| + 1 && signals[..|signals| - 1] == old(signals) && fresh(signals[|signals| - 1])
    {
      var record := new SignalObject(name, input);
      signals := signals + [record];
    }

    method IndexActivity(e: Event, index: map<int, ActivityObject>, ghost v: View) returns (index': map<int, ActivityObject>)
      requires Shows(v) && IndexesActivities(index, activities, v.activities)
      requires e.attrs.ActivityScheduled? || e.attrs.ActivityCompleted? || e.attrs.ActivityFailed?
      modifies this`activities, Objects()
      ensures Shows(AbsorbAttributes(v, e.id, e.attrs))
      ensures IndexesActivities(index', activities, AbsorbAttributes(v, e.id, e.attrs).activities)
      ensures fresh(Objects() - old(Objects()))
    {
      hide IndexesActivities, Shows, Complete, MarkFailed;
      index' := index;
      match e.attrs
      case ActivityScheduled(call) => index' := IndexScheduled(e.id, call, index, v);
      case ActivityCompleted(s, result) => IndexCompleted(s, result, index, v);
      case ActivityFailed(s, failure, _) => IndexFailed(s, failure, index, v);
      case _ =>
    }

    method IndexTimer(e: Event, index: map<int, TimerObject>, ghost v: View) returns (index': map<int, TimerObject>)
      requires Shows(v) && IndexesTimers(index, timers, v.timers)
      requires e.attrs.TimerStarted? || e.attrs.TimerFired?
      modifies this`timers, Objects()
      ensures Shows(AbsorbAttributes(v, e.id, e.attrs))
      ensures IndexesTimers(index', timers, AbsorbAttributes(v, e.id, e.attrs).timers)
      ensures fresh(Objects() - old(Objects()))
    {
      hide IndexesTimers, Shows, Fire;
      index' := index;
      match e.attrs
      case TimerStarted(_, _, _) => index' := IndexTimerStarted(e.id, index, v);
      case TimerFired(_, s) => IndexTimerFired(s, index, v);
      case _ =>
    }

    /** The events that set fields of the environment itself, or add a signal. */
    method IndexOther(a: Attributes, ghost id: int, ghost v: View)
      requires Shows(v)
      requires !(a.ActivityScheduled? || a.ActivityCompleted? || a.ActivityFailed? || a.TimerStarted? || a.TimerFired?)
      modifies this`input, this`terminated, this`signals
      ensures Shows(AbsorbAttributes(v, id, a))
      ensures fresh(Objects() - old(Objects()))
    {
      match a
      case WorkflowStarted(_, _, input) => this.input := input;
      case Signaled(name, input) => IndexSignal(name, input, v);
      case WorkflowCompleted(_) => terminated := true;
      case WorkflowFailed(_) => terminated := true;
      case _ =>
    }

    method Advance(time: int, ghost v: View)
      requires Shows(v)
      modifies this`now
      ensures Shows(v.(now := if time > v.now then time else v.now)) && Objects() == old(Objects())
    {
      if time > now {
        now := time;
      }
    }

    /** One event of the log. */
    method IndexEvent(e: Event, byScheduledId: map<int, ActivityObject>, byStartedId: map<int, TimerObject>, ghost v: View)
      returns (byScheduledId': map<int, ActivityObject>, byStartedId': map<int, TimerObject>)
      requires Shows(v)
      requires IndexesActivities(byScheduledId, activities, v.activities) && IndexesTimers(byStartedId, timers, v.timers)
      modifies this`input, this`now, this`terminated, this`activities, this`timers, this`signals, Objects()
      ensures Shows(Absorb(v, e))
      ensures IndexesActivities(byScheduledId', activities, Absorb(v, e).activities)
      ensures IndexesTimers(byStartedId', timers, Absorb(v, e).timers)
      ensures fresh(Objects() - old(Objects()))
    {
      hide IndexesActivities, IndexesTimers, Shows, AbsorbAttributes;
      byScheduledId', byStartedId' := byScheduledId, byStartedId;
      Advance(e.time, v);
      ghost var v1 := v.(now := if e.time > v.now then e.time else v.now);
      KeepsOthers(v1, e.id, e.attrs);
      match e.attrs
      case ActivityScheduled(_) => byScheduledId' := IndexActivity(e, byScheduledId, v1);
      case ActivityCompleted(_, _) => byScheduledId' := IndexActivity(e, byScheduledId, v1);
      case ActivityFailed(_, _, _) => byScheduledId' := IndexActivity(e, byScheduledId, v1);
      case TimerStarted(_, _, _) => byStartedId' := IndexTimer(e, byStartedId, v1);
      case TimerFired(_, _) => byStartedId' := IndexTimer(e, byStartedId, v1);
      case _ => IndexOther(e.attrs, e.id, v1);
    }

    /** One pass over the log leaves exactly its projection, for any log whatever. */
    method Index(history: seq<Event>, wallClock: int)
      requires Shows(EMPTY_VIEW) && AtStart() && activities == [] && timers == [] && signals == []
      modifies this
      ensures Shows(Grounded(ViewOf(history), wallClock))
      ensures fresh(Objects()) && AtStart()
    {
      hide Shows, AtStart, Absorb, Grounded, IndexesActivities, IndexesTimers;
      var byScheduledId: map<int, ActivityObject> := map[];
      var byStartedId: map<int, TimerObject> := map[];
      NothingIndexed(history);
      for i := 0 to |history|
        invariant Shows(ViewOf(history[..i])) && AtStart()
        invariant fresh(Objects())
        invariant IndexesActivities(byScheduledId, activities, ViewOf(history[..i]).activities)
        invariant IndexesTimers(byStartedId, timers, ViewOf(history[..i]).timers)
      {
        ViewNext(history, i);
        byScheduledId, byStartedId := IndexEvent(history[i], byScheduledId, byStartedId, ViewOf(history[..i]));
      }
      Ground(wallClock, ViewOf(history));
    }

    /** A log without times leaves the clock unset; the wall clock is read instead. */
    method Ground(wallClock: int, ghost v: View)
      requires Shows(v)
      modifies this`now
      ensures Shows(Grounded(v, wallClock)) && Objects() == old(Objects())
    {
      if now == 0 {
        now := wallClock;
      }
    }

    // -------------------------------------------------------------- replaying calls

    /** The fields stand for this machine over this projection. */
    ghost predicate Replays(v: View, m: Machine)
      reads this, activities, timers, signals
    {
      && input == v.input && now == v.now
      && activitySeq == |m.activityFutures| && timerSeq == |m.timerFutures|
      && |activities| == (if |v.activities| < activitySeq then activitySeq else |v.activities|)
      && (forall i :: 0 <= i < |v.activities| ==> activities[i].Value(v.activities[i].id) == v.activities[i])
      && |timers| == (if |v.timers| < timerSeq then timerSeq else |v.timers|)
      && (forall i :: 0 <= i < |v.timers| ==> timers[i].fired == v.timers[i].fired)
      && ShowsSignals(signals, v.signals, m.consumed) && Distinct(signals)
      && newCommands == m.commands
    }

    lemma StartsReplay(v: View)
      requires Shows(v) && AtStart()
      ensures Replays(v, START)
    {
    }

    /** The next activity call: matched against the log, or a new command. */
    method ExecuteActivity(t: string, argument: Encoded, options: ActivityOptions, ghost v: View, ghost m: Machine)
      returns (r: Outcome<Option<Response>>)
      requires Replays(v, m)
      modifies this`activitySeq, this`activities, this`newCommands, this`replaying
      ensures var p := OnExecuteActivity(taskQueue, v, m, t, argument, options);
              match r
              case Returned(f) => p.Going? && Replays(v, p.machine) && p.machine.activityFutures == m.activityFutures + [f]
              case Panicked(message) => p == Ended(m, Abort(PanicFailure(message))) && newCommands == m.commands
              case Unwound => false
      ensures old(activitySeq) < |old(activities)| || argument.Unencodable? ==> newCommands == old(newCommands)
      ensures old(activitySeq) >= |old(activities)| && argument.Payload? ==>
                && |newCommands| == |old(newCommands)| + 1 && newCommands[..|old(newCommands)|] == old(newCommands)
                && CommandAsAsked(newCommands[|old(newCommands)|], taskQueue, old(activitySeq), t, argument.bytes, options)
    {
      hide NonDeterminism, Decimal, PanicFailure, FailureMessage, ActivityAnswer, WirePolicy, WireDuration, CommandAsAsked;
      if argument.Payload? {
        CommandFields(activitySeq, taskQueue, t, argument.bytes, options);
      }
      var index := activitySeq;
      activitySeq := activitySeq + 1;
      if index < |activities| {
        r := activities[index].Matched(index, t, v.activities[index].id);
        return r;
      }
      replaying := false;
      if argument.Unencodable? {
        return Panicked("encode activity input: " + argument.message);
      }
      var activityId := options.activityId;
      if activityId == "" {
        activityId := "activity-" + Decimal(index);
      }
      var queue := options.queue;
      if queue == "" {
        queue := taskQueue;
      }
      newCommands := newCommands +
        [ScheduleActivity(activityId, t, queue, argument.bytes, WirePolicy(options.policy), WireDuration(options.startToClose))];
      var placeholder := new ActivityObject(t);
      activities := activities + [placeholder];
      return Returned(None);
    }

    method NewTimer(d: int, ghost v: View, ghost m: Machine) returns (f: Option<Response>)
      requires Replays(v, m)
      modifies this`timerSeq, this`timers, this`newCommands, this`replaying
      ensures Replays(v, OnNewTimer(v, m, d)) && OnNewTimer(v, m, d).timerFutures == m.timerFutures + [f]
      ensures newCommands == old(newCommands) +
                (if old(timerSeq) < |old(timers)| then [] else [StartTimer("timer-" + Decimal(old(timerSeq)), if d > 0 then d else 0)])
    {
      var index := timerSeq;
      timerSeq := timerSeq + 1;
      if index < |timers| {
        if timers[index].fired {
          return Some(Value([]));
        }
        return None;
      }
      replaying := false;
      newCommands := newCommands + [StartTimer("timer-" + Decimal(index), WireDuration(d))];
      var placeholder := new TimerObject();
      timers := timers + [placeholder];
      return None;
    }

    /** The first signal of that name not yet consumed, which it marks. */
    method ReceiveSignal(name: string, ghost v: View, ghost m: Machine) returns (r: Option<Bytes>)
      requires Replays(v, m)
      modifies signals
      ensures var i := FirstUnconsumed(v.signals, m.consumed, name, 0);
              && r == (if i.Some? then Some(v.signals[i.value].input) else None)
              && Replays(v, if i.Some? then m.(consumed := m.consumed + {i.value}) else m)
    {
      var i := 0;
      while i < |signals|
        invariant i <= |signals|
        invariant FirstUnconsumed(v.signals, m.consumed, name, 0) == FirstUnconsumed(v.signals, m.consumed, name, i)
        invariant Replays(v, m)
      {
        var record := signals[i];
        if record.name == name && !record.consumed {
          record.consumed := true;
          return Some(record.input);
        }
        i := i + 1;
      }
      return None;
    }

    method AwaitSignal(name: string, ghost v: View, ghost m: Machine) returns (r: Outcome<Bytes>)
      requires Replays(v, m)
      modifies signals
      ensures var i := FirstUnconsumed(v.signals, m.consumed, name, 0);
              if i.Some? then r == Returned(v.signals[i.value].input) && Replays(v, m.(consumed := m.consumed + {i.value}))
              else r == Unwound && Replays(v, m)
    {
      var received := ReceiveSignal(name, v, m);
      if received.Some? {
        return Returned(received.value);
      }
      return Unwound;
    }
  }

  /** Waiting on a future: its answer, or unwinding while it is pending. */
  function GetFuture(f: Option<Response>): Outcome<Response> {
    match f
    case Some(answer) => Returned(answer)
    case None => Unwound
  }

  // ---------------------------------------------------------------- Execute

  /** The futures and answers the running code holds, beside the environment. */
  datatype Holding = Holding(activities: seq<Option<Response>>, timers: seq<Option<Response>>, replies: seq<Response>)

  predicate HoldsSame(held: Holding, m: Machine) {
    held.activities == m.activityFutures && held.timers == m.timerFutures && held.replies == m.replies
  }

  /** The environment and the code together are at machine m. */
  ghost predicate At(env: Environment, held: Holding, v: View, m: Machine)
    reads env, env.activities, env.timers, env.signals
  {
    env.Replays(v, m) && HoldsSame(held, m)
  }

  predicate IsTerminalRequest(r: Request) {
    r.Return? || r.Fail? || r.Panic?
  }

  /** Dispatch one call of the code to the environment. */
  method Serve(env: Environment, request: Request, held: Holding, ghost code: Code, ghost v: View, ghost m: Machine)
    returns (r: Outcome<Response>, held': Holding)
    requires At(env, held, v, m) && code(v.input, m.replies) == request && !IsTerminalRequest(request)
    modifies env, env.signals
    ensures env.signals == old(env.signals)
    ensures var p := ReplayStep(code, env.taskQueue, v, m);
            && (r.Returned? ==> p.Going? && At(env, held', v, p.machine))
            && (r.Unwound? ==> p == Yielded(m) && env.newCommands == m.commands)
            && (r.Panicked? ==> p == Ended(m, Abort(PanicFailure(r.message))) && env.newCommands == m.commands)
  {
    hide OnExecuteActivity, OnNewTimer, NonDeterminism, FirstUnconsumed, PanicFailure;
    held' := held;
    match request {
      case ExecuteActivity(t, argument, options) =>
        var called := env.ExecuteActivity(t, argument, options, v, m);
        match called {
          case Returned(f) =>
            held' := held.(activities := held.activities + [f]);
            r := Returned(Handle);
            Handled(env.taskQueue, v, m, t, argument, options);
          case Unwound => r := Unwound;
          case Panicked(message) => r := Panicked(message);
        }
      case NewTimer(d) =>
        var f := env.NewTimer(d, v, m);
        held' := held.(timers := held.timers + [f]);
        r := Returned(Handle);
        HandledTimer(v, m, d);
      case Get(f) =>
        var known := Lookup(held, f);
        r := if known.None? then Panicked(NIL_FUTURE) else GetFuture(known.value);
      case AwaitSignal(name) =>
        var received := env.AwaitSignal(name, v, m);
        r := match received case Returned(b) => Returned(SignalInput(b)) case Unwound => Unwound case Panicked(e) => Panicked(e);
      case IsReady(f) =>
        var known := Lookup(held, f);
        r := if known.None? then Panicked(NIL_FUTURE) else Returned(Ready(known.value.Some?));
      case ReceiveSignal(name) =>
        var received := env.ReceiveSignal(name, v, m);
        r := Returned(MaybeSignal(received));
      case Now => r := Returned(Clock(env.now));
      case _ =>
    }
    if r.Returned? {
      held' := held'.(replies := held.replies + [r.value]);
    }
  }

  /** The future held under a handle, if the code holds it at all. */
  function Lookup(held: Holding, f: Future): Option<Option<Response>> {
    match f
    case ActivityFuture(i) => if i < |held.activities| then Some(held.activities[i]) else None
    case TimerFuture(i) => if i < |held.timers| then Some(held.timers[i]) else None
  }

  lemma Handled(queue: string, v: View, m: Machine, t: string, argument: Encoded, options: ActivityOptions)
    requires OnExecuteActivity(queue, v, m, t, argument, options).Going?
    ensures var m' := OnExecuteActivity(queue, v, m, t, argument, options).machine;
            m'.timerFutures == m.timerFutures && m'.replies == m.replies + [Handle]
  {
    hide ActivityAnswer, ScheduleCommand;
  }

  lemma HandledTimer(v: View, m: Machine, d: int)
    ensures var m' := OnNewTimer(v, m, d);
            m'.activityFutures == m.activityFutures && m'.replies == m.replies + [Handle]
  {
    hide TimerAnswer;
  }

  method NewEnvironment(taskQueue: string, history: seq<Event>, wallClock: int) returns (env: Environment)
    ensures fresh(env) && fresh(env.Objects()) && env.taskQueue == taskQueue
    ensures env.Shows(Grounded(ViewOf(history), wallClock)) && env.AtStart()
  {
    env := new Environment(taskQueue);
    env.Index(history, wallClock);
  }

  /** Still going after i calls means the replay that stops within n has calls left. */
  lemma NotYetStopped(code: Code, queue: string, v: View, i: nat, n: nat)
    requires ReplayRun(code, queue, v, i).Going? && !ReplayRun(code, queue, v, n).Going?
    ensures i < n
  {
    if n <= i {
      StaysStopped(code, queue, v, n, i);
    }
  }

  /** The result of a terminal request. */
  function Conclude(commands: seq<Command>, r: Request): Decision
    requires IsTerminalRequest(r)
  {
    match r
    case Return(result) => Decision(commands + [CompleteWorkflow(result)], true)
    case Fail(message) => Decision(commands + [FailWorkflow(Failure(message, APPLICATION_ERROR))], true)
    case Panic(message) => Decision(commands + [FailWorkflow(PanicFailure(message))], true)
  }

  /** What the code has been given so far is what the machine has answered. */
  ghost predicate AtCall(env: Environment, held: Holding, code: Code, v: View, calls: nat)
    reads env, env.activities, env.timers, env.signals
  {
    var p := ReplayRun(code, env.taskQueue, v, calls);
    p.Going? && At(env, held, v, p.machine)
  }

  /** `Execute` returns d on this projection, for code that stops within n calls. */
  ghost predicate Concludes(code: Code, queue: string, v: View, n: nat, d: Decision)
    requires !ReplayRun(code, queue, v, n).Going?
  {
    d == DecisionOf(ReplayRun(code, queue, v, n))
  }

  /** One call: either the replay goes on, or it concludes with this decision. */
  method Call(env: Environment, code: Code, held: Holding, ghost v: View, ghost calls: nat, ghost n: nat)
    returns (decision: Option<Decision>, held': Holding)
    requires AtCall(env, held, code, v, calls) && !ReplayRun(code, env.taskQueue, v, n).Going?
    modifies env, env.signals
    ensures env.signals == old(env.signals)
    ensures decision.None? ==> calls + 1 < n && AtCall(env, held', code, v, calls + 1)
    ensures decision.Some? ==> Concludes(code, env.taskQueue, v, n, decision.value)
  {
    hide ReplayStep, ReplayRun, At, PanicFailure;
    ghost var m := ReplayRun(code, env.taskQueue, v, calls).machine;
    var request := code(env.input, held.replies);
    AtMachine(env, held, v, m);
    NextCall(code, env.taskQueue, v, calls);
    held' := held;
    if IsTerminalRequest(request) {
      decision := Some(Conclude(env.newCommands, request));
      Concluded(code, env.taskQueue, v, m);
    } else {
      var r;
      r, held' := Serve(env, request, held, code, v, m);
      match r {
        case Returned(_) => decision := None;
        case Unwound => decision := Some(Decision(env.newCommands, false));
        case Panicked(message) => decision := Some(Decision(env.newCommands + [FailWorkflow(PanicFailure(message))], true));
      }
    }
    if decision.None? {
      NotYetStopped(code, env.taskQueue, v, calls + 1, n);
    } else {
      if n <= calls {
        StaysStopped(code, env.taskQueue, v, n, calls);
      }
      StaysStopped(code, env.taskQueue, v, calls + 1, n);
    }
  }

  lemma AtMachine(env: Environment, held: Holding, v: View, m: Machine)
    requires At(env, held, v, m)
    ensures env.input == v.input && held.replies == m.replies && env.newCommands == m.commands
  {
  }

  lemma NextCall(code: Code, queue: string, v: View, calls: nat)
    requires ReplayRun(code, queue, v, calls).Going?
    ensures ReplayRun(code, queue, v, calls + 1) == ReplayStep(code, queue, v, ReplayRun(code, queue, v, calls).machine)
  {
  }

  lemma Concluded(code: Code, queue: string, v: View, m: Machine)
    requires IsTerminalRequest(code(v.input, m.replies))
    ensures ReplayStep(code, queue, v, m).Ended?
    ensures DecisionOf(ReplayStep(code, queue, v, m)) == Conclude(m.commands, code(v.input, m.replies))
  {
  }

  /**
   Run the code against its history. The returned decision is that of the replay machine, for code
   that stops within some number of calls; code that never stops never returns.
   */
  method Execute(code: Code, taskQueue: string, history: seq<Event>, wallClock: int, ghost n: nat) returns (d: Decision)
    requires ViewOf(history).terminated || !ReplayRun(code, taskQueue, Grounded(ViewOf(history), wallClock), n).Going?
    ensures if ViewOf(history).terminated then d == Decision([], true)
            else Concludes(code, taskQueue, Grounded(ViewOf(history), wallClock), n, d)
  {
    hide Absorb, ViewOf, ReplayStep, At;
    var env := NewEnvironment(taskQueue, history, wallClock);
    ghost var v := Grounded(ViewOf(history), wallClock);
    if env.terminated {
      return Decision([], true);
    }
    assert forall i :: 0 <= i < |env.signals| ==> env.signals[i] in env.Objects();
    env.StartsReplay(v);
    var held := Holding([], [], []);
    ghost var calls: nat := 0;
    AtFirst(env, v, code);
    NotYetStopped(code, taskQueue, v, 0, n);
    var decision: Option<Decision> := None;
    while decision.None?
      invariant fresh(env) && fresh(env.signals)
      invariant decision.None? ==> calls < n && AtCall(env, held, code, v, calls)
      invariant decision.Some? ==> Concludes(code, taskQueue, v, n, decision.value)
      decreases if decision.None? then 1 else 0, n - calls
    {
      decision, held := Call(env, code, held, v, calls, n);
      calls := calls + 1;
    }
    return decision.value;
  }

  lemma AtFirst(env: Environment, v: View, code: Code)
    requires env.Replays(v, START)
    ensures AtCall(env, Holding([], [], []), code, v, 0)
  {
  }

  // ---------------------------------------------------------------- stable code does not see the clock

  lemma StepIgnoresClock(code: Code, queue: string, v: View, t: int, m: Machine)
    requires Stable(code)
    ensures ReplayStep(code, queue, v.(now := t), m) == ReplayStep(code, queue, v, m)
  {
    assert !ObservesAbsence(code(v.input, m.replies));
  }

  lemma {:induction false} ReplayIgnoresClock(code: Code, queue: string, v: View, t: int, n: nat)
    requires Stable(code)
    ensures ReplayRun(code, queue, v.(now := t), n) == ReplayRun(code, queue, v, n)
  {
    hide ReplayStep, Stable;
    if n > 0 {
      ReplayIgnoresClock(code, queue, v, t, n - 1);
      var p := ReplayRun(code, queue, v, n - 1);
      if p.Going? {
        StepIgnoresClock(code, queue, v, t, p.machine);
      }
    }
  }

  /** For stable code the wall clock makes no difference: `Execute` returns d exactly if the replay decides d. */
  lemma ExecuteDecides(code: Code, queue: string, h: seq<Event>, wallClock: int, n: nat, d: Decision)
    requires Stable(code)
    requires ViewOf(h).terminated || !ReplayRun(code, queue, Grounded(ViewOf(h), wallClock), n).Going?
    ensures DecidesWithin(code, queue, h, d, n) <==>
            if ViewOf(h).terminated then d == Decision([], true)
            else Concludes(code, queue, Grounded(ViewOf(h), wallClock), n, d)
  {
    hide Stable, ViewOf, ReplayRun;
    ReplayIgnoresClock(code, queue, ViewOf(h), wallClock, n);
  }
}
