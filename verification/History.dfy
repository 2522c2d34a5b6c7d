/** The event log of one run: what is recorded, and what the engine reads back from it. */
module History {
  import opened Basics

  /** Absent durations are zero, as `AsDuration` reports them. */
  datatype RetryPolicy = RetryPolicy(initialInterval: int, backoffCoefficient: real, maxInterval: int, maxAttempts: int)

  datatype Failure = Failure(message: string, kind: string)

  /** One activity as scheduled: the attributes of the command and of the scheduled event. */
  datatype ActivityCall = ActivityCall(
    activityId: string,
    activityType: string,
    queue: string,
    input: Bytes,
    policy: RetryPolicy,
    startToClose: int)

  datatype Attributes =
    | WorkflowStarted(workflowType: string, taskQueue: string, startInput: Bytes)
    | ActivityScheduled(call: ActivityCall)
    | ActivityStarted(scheduledId: int, worker: string, attempt: int)
    | ActivityCompleted(scheduledId: int, result: Bytes)
    | ActivityFailed(scheduledId: int, failure: Option<Failure>, retryable: bool)
    | ActivityRetryScheduled(scheduledId: int, attempt: int, nextTime: int, cause: Option<Failure>)
    | TimerStarted(timerId: string, timeout: int, fireTime: int)
    | TimerFired(timerId: string, startedId: int)
    | Signaled(name: string, signalInput: Bytes)
    | WorkflowCompleted(output: Bytes)
    | WorkflowFailed(reason: Failure)

  datatype Event = Event(id: int, time: int, attrs: Attributes)

  /** How a run ended. */
  datatype Close = Succeed(result: Bytes) | Abort(failure: Failure)

  /** A durable call of workflow code, as the log records it. */
  datatype Record = ActivityRecord(call: ActivityCall) | TimerRecord(timerId: string, timeout: int)

  datatype Signal = Signal(name: string, input: Bytes)

  predicate IsClose(a: Attributes) {
    a.WorkflowCompleted? || a.WorkflowFailed?
  }

  predicate IsRecord(a: Attributes) {
    a.ActivityScheduled? || a.TimerStarted?
  }

  /** Every durable call recorded in the log, in order. */
  function Records(h: seq<Event>): seq<Record> {
    if h == [] then [] else
      Records(h[..|h| - 1]) + RecordOf(h[|h| - 1].attrs)
  }

  function RecordOf(a: Attributes): seq<Record> {
    match a
    case ActivityScheduled(call) => [ActivityRecord(call)]
    case TimerStarted(id, timeout, _) => [TimerRecord(id, timeout)]
    case _ => []
  }

  /** The close recorded in the log; the first one, should there be several. */
  function CloseOf(h: seq<Event>): Option<Close> {
    if h == [] then None else
      var before := CloseOf(h[..|h| - 1]);
      if before.Some? then before else
        match h[|h| - 1].attrs
        case WorkflowCompleted(r) => Some(Succeed(r))
        case WorkflowFailed(f) => Some(Abort(f))
        case _ => None
  }

  predicate Closed(h: seq<Event>) {
    exists i :: 0 <= i < |h| && IsClose(h[i].attrs)
  }

  function ActivityCount(rs: seq<Record>): (n: nat)
    ensures n <= |rs|
  {
    if rs == [] then 0 else ActivityCount(rs[..|rs| - 1]) + (if rs[|rs| - 1].ActivityRecord? then 1 else 0)
  }

  function TimerCount(rs: seq<Record>): nat {
    |rs| - ActivityCount(rs)
  }

  lemma ClosedAppend(h: seq<Event>, e: Event)
    ensures Closed(h + [e]) <==> Closed(h) || IsClose(e.attrs)
  {
    if Closed(h) {
      var i :| 0 <= i < |h| && IsClose(h[i].attrs);
      assert IsClose((h + [e])[i].attrs);
    }
    if IsClose(e.attrs) {
      assert IsClose((h + [e])[|h|].attrs);
    }
  }

  lemma RecordsAppend(h: seq<Event>, e: Event)
    ensures Records(h + [e]) == Records(h) + RecordOf(e.attrs)
  {
    assert (h + [e])[..|h|] == h;
  }

  lemma CloseOfAppend(h: seq<Event>, e: Event)
    ensures CloseOf(h).Some? ==> CloseOf(h + [e]) == CloseOf(h)
    ensures CloseOf(h).None? && !IsClose(e.attrs) ==> CloseOf(h + [e]).None?
    ensures CloseOf(h).None? && IsClose(e.attrs) ==> CloseOf(h + [e]).Some?
  {
    assert (h + [e])[..|h|] == h;
  }

  lemma {:induction false} ClosedIffCloseOf(h: seq<Event>)
    ensures Closed(h) <==> CloseOf(h).Some?
  {
    if h != [] {
      ClosedIffCloseOf(h[..|h| - 1]);
      ClosedAppend(h[..|h| - 1], h[|h| - 1]);
      assert h == h[..|h| - 1] + [h[|h| - 1]];
    }
  }

  /** The event is an outcome of the activity scheduled as s. */
  predicate Resolves(a: Attributes, s: int) {
    (a.ActivityCompleted? || a.ActivityFailed?) && a.scheduledId == s
  }

  predicate Resolved(h: seq<Event>, s: int) {
    exists i :: 0 <= i < |h| && Resolves(h[i].attrs, s)
  }

  lemma ResolvedAppend(h: seq<Event>, e: Event, s: int)
    ensures Resolved(h + [e], s) <==> Resolved(h, s) || Resolves(e.attrs, s)
  {
    if Resolved(h, s) {
      var i :| 0 <= i < |h| && Resolves(h[i].attrs, s);
      assert Resolves((h + [e])[i].attrs, s);
    }
    if Resolves(e.attrs, s) {
      assert Resolves((h + [e])[|h|].attrs, s);
    }
  }

  /** An event that can follow a log: not a second start, and no second outcome of one activity. */
  ghost predicate Admissible(h: seq<Event>, e: Event) {
    !e.attrs.WorkflowStarted? && forall s :: Resolves(e.attrs, s) ==> !Resolved(h, s)
  }

  /** Events the code may be waiting for: outcomes, fired timers, signals, and the start itself. */
  predicate IsWake(a: Attributes) {
    a.WorkflowStarted? || a.ActivityCompleted? || a.ActivityFailed? || a.TimerFired? || a.Signaled?
  }

  predicate WokenSince(n: nat, h: seq<Event>) {
    exists j :: n <= j < |h| && IsWake(h[j].attrs)
  }
}
