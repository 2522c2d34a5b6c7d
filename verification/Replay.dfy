/**
 The replay engine: the projection `newEnvironment` builds from a log and the machine `Execute`
 drives against it, as functions. The classes in Environment.dfy compute exactly these.
 */
module Replay {
  import opened Basics
  import opened History
  import opened Program

  datatype Command =
    | ScheduleActivity(activityId: string, activityType: string, queue: string, input: Bytes,
                       policy: Option<RetryPolicy>, startToClose: int)
    | StartTimer(timerId: string, timeout: int)
    | CompleteWorkflow(result: Bytes)
    | FailWorkflow(failure: Failure)

  datatype Decision = Decision(commands: seq<Command>, completed: bool)

  // ---------------------------------------------------------------- projection of the log

  datatype ActivityState = ActivityState(
    id: int, activityType: string, completed: bool, result: Bytes, failed: bool, failure: Option<Failure>)

  datatype TimerState = TimerState(id: int, fired: bool)

  datatype View = View(
    input: Bytes,
    now: int,
    terminated: bool,
    activities: seq<ActivityState>,
    timers: seq<TimerState>,
    signals: seq<Signal>)

  const EMPTY_VIEW := View([], 0, false, [], [], [])

  /** Index maps keep the latest object registered under an id. */
  predicate LatestActivity(states: seq<ActivityState>, i: nat, id: int)
    requires i < |states|
  {
    states[i].id == id && forall j :: i < j < |states| ==> states[j].id != id
  }

  predicate LatestTimer(states: seq<TimerState>, i: nat, id: int)
    requires i < |states|
  {
    states[i].id == id && forall j :: i < j < |states| ==> states[j].id != id
  }

  function Complete(states: seq<ActivityState>, id: int, result: Bytes): (r: seq<ActivityState>)
    ensures |r| == |states|
  {
    seq(|states|, i requires 0 <= i < |states| =>
      if LatestActivity(states, i, id) then states[i].(completed := true, result := result) else states[i])
  }

  function MarkFailed(states: seq<ActivityState>, id: int, failure: Option<Failure>): (r: seq<ActivityState>)
    ensures |r| == |states|
  {
    seq(|states|, i requires 0 <= i < |states| =>
      if LatestActivity(states, i, id) then states[i].(failed := true, failure := failure) else states[i])
  }

  function Fire(states: seq<TimerState>, id: int): (r: seq<TimerState>)
    ensures |r| == |states|
  {
    seq(|states|, i requires 0 <= i < |states| =>
      if LatestTimer(states, i, id) then states[i].(fired := true) else states[i])
  }

  function AbsorbAttributes(v: View, id: int, a: Attributes): View {
    match a
    case WorkflowStarted(_, _, input) => v.(input := input)
    case ActivityScheduled(call) =>
      v.(activities := v.activities + [ActivityState(id, call.activityType, false, [], false, None)])
    case ActivityCompleted(s, r) => v.(activities := Complete(v.activities, s, r))
    case ActivityFailed(s, f, _) => v.(activities := MarkFailed(v.activities, s, f))
    case TimerStarted(_, _, _) => v.(timers := v.timers + [TimerState(id, false)])
    case TimerFired(_, s) => v.(timers := Fire(v.timers, s))
    case Signaled(name, input) => v.(signals := v.signals + [Signal(name, input)])
    case WorkflowCompleted(_) => v.(terminated := true)
    case WorkflowFailed(_) => v.(terminated := true)
    case _ => v
  }

  function Absorb(v: View, e: Event): View {
    AbsorbAttributes(v.(now := if e.time > v.now then e.time else v.now), e.id, e.attrs)
  }

  /** What one pass over the log leaves in the environment. */
  function ViewOf(h: seq<Event>): View {
    if h == [] then EMPTY_VIEW else Absorb(ViewOf(h[..|h| - 1]), h[|h| - 1])
  }

  // ---------------------------------------------------------------- the replay machine

  /** A future holds its answer from the moment it is created, or stays pending. */
  datatype Machine = Machine(
    activityFutures: seq<Option<Response>>,
    timerFutures: seq<Option<Response>>,
    consumed: set<nat>,
    commands: seq<Command>,
    replies: seq<Response>)

  const START := Machine([], [], {}, [], [])

  datatype Progress = Going(machine: Machine) | Yielded(machine: Machine) | Ended(machine: Machine, close: Close)

  function FailureMessage(f: Option<Failure>): string {
    if f.Some? then f.value.message else "activity failed"
  }

  /** The future for a recorded activity: completion wins over failure. */
  function ActivityAnswer(st: ActivityState, activityType: string): Option<Response> {
    if st.completed then Some(Value(st.result))
    else if st.failed then Some(ActivityError(activityType, FailureMessage(st.failure)))
    else None
  }

  function TimerAnswer(st: TimerState): Option<Response> {
    if st.fired then Some(Value([])) else None
  }

  /** The first signal of that name not yet consumed, in log order. */
  function FirstUnconsumed(signals: seq<Signal>, consumed: set<nat>, name: string, from: nat): (r: Option<nat>)
    requires from <= |signals|
    ensures r.Some? ==> from <= r.value < |signals| && signals[r.value].name == name && r.value !in consumed
    ensures forall i :: from <= i < (if r.Some? then r.value else |signals|) && signals[i].name == name ==> i in consumed
    decreases |signals| - from
  {
    if from == |signals| then None
    else if signals[from].name == name && from !in consumed then Some(from)
    else FirstUnconsumed(signals, consumed, name, from + 1)
  }

  function Respond(m: Machine, r: Response): Machine {
    m.(replies := m.replies + [r])
  }

  predicate HeldBy(m: Machine, f: Future) {
    match f
    case ActivityFuture(i) => i < |m.activityFutures|
    case TimerFuture(i) => i < |m.timerFutures|
  }

  function FutureAnswer(m: Machine, f: Future): Option<Response>
    requires HeldBy(m, f)
  {
    match f
    case ActivityFuture(i) => m.activityFutures[i]
    case TimerFuture(i) => m.timerFutures[i]
  }

  function NonDeterminism(index: nat, recorded: string, called: string): string {
    "nondeterministic workflow execution: activity #" + Decimal(index) +
    " recorded as \"" + recorded + "\" but code scheduled \"" + called + "\""
  }

  function ScheduleCommand(index: nat, queue: string, t: string, input: Bytes, o: ActivityOptions): Command {
    ScheduleActivity(ActivityIdFor(index, o), t, if o.queue == "" then queue else o.queue, input,
                     WirePolicy(o.policy), WireDuration(o.startToClose))
  }

  function OnExecuteActivity(queue: string, v: View, m: Machine, t: string, argument: Encoded, o: ActivityOptions): Progress {
    var index := |m.activityFutures|;
    if index < |v.activities| then
      var st := v.activities[index];
      if st.activityType != "" && st.activityType != t then
        Ended(m, Abort(PanicFailure(NonDeterminism(index, st.activityType, t))))
      else
        Going(Respond(m.(activityFutures := m.activityFutures + [ActivityAnswer(st, t)]), Handle))
    else
      match argument
      case Unencodable(message) => Ended(m, Abort(PanicFailure("encode activity input: " + message)))
      case Payload(b) =>
        Going(Respond(m.(activityFutures := m.activityFutures + [None],
                         commands := m.commands + [ScheduleCommand(index, queue, t, b, o)]), Handle))
  }

  function OnNewTimer(v: View, m: Machine, d: int): Machine {
    var index := |m.timerFutures|;
    if index < |v.timers| then
      Respond(m.(timerFutures := m.timerFutures + [TimerAnswer(v.timers[index])]), Handle)
    else
      Respond(m.(timerFutures := m.timerFutures + [None],
                 commands := m.commands + [StartTimer(TimerIdFor(index), WireDuration(d))]), Handle)
  }

  function ReplayStep(code: Code, queue: string, v: View, m: Machine): Progress {
    match code(v.input, m.replies)
    case ExecuteActivity(t, argument, o) => OnExecuteActivity(queue, v, m, t, argument, o)
    case NewTimer(d) => Going(OnNewTimer(v, m, d))
    case Get(f) =>
      if !HeldBy(m, f) then Ended(m, Abort(PanicFailure(NIL_FUTURE)))
      else if FutureAnswer(m, f).Some? then Going(Respond(m, FutureAnswer(m, f).value))
      else Yielded(m)
    case AwaitSignal(name) =>
      var i := FirstUnconsumed(v.signals, m.consumed, name, 0);
      if i.None? then Yielded(m)
      else Going(Respond(m.(consumed := m.consumed + {i.value}), SignalInput(v.signals[i.value].input)))
    case IsReady(f) =>
      if !HeldBy(m, f) then Ended(m, Abort(PanicFailure(NIL_FUTURE)))
      else Going(Respond(m, Ready(FutureAnswer(m, f).Some?)))
    case ReceiveSignal(name) =>
      var i := FirstUnconsumed(v.signals, m.consumed, name, 0);
      if i.None? then Going(Respond(m, MaybeSignal(None)))
      else Going(Respond(m.(consumed := m.consumed + {i.value}), MaybeSignal(Some(v.signals[i.value].input))))
    case Now => Going(Respond(m, Clock(v.now)))
    case Return(r) => Ended(m, Succeed(r))
    case Fail(message) => Ended(m, Abort(Failure(message, APPLICATION_ERROR)))
    case Panic(message) => Ended(m, Abort(PanicFailure(message)))
  }

  function ReplayRun(code: Code, queue: string, v: View, n: nat): Progress {
    if n == 0 then Going(START) else
      match ReplayRun(code, queue, v, n - 1)
      case Going(m) => ReplayStep(code, queue, v, m)
      case stopped => stopped
  }

  lemma {:induction false} StaysStopped(code: Code, queue: string, v: View, i: nat, n: nat)
    requires i <= n && !ReplayRun(code, queue, v, i).Going?
    ensures ReplayRun(code, queue, v, n) == ReplayRun(code, queue, v, i)
  {
    if i < n {
      StaysStopped(code, queue, v, i, n - 1);
    }
  }

  function CloseCommand(c: Close): Command {
    match c
    case Succeed(r) => CompleteWorkflow(r)
    case Abort(f) => FailWorkflow(f)
  }

  /** What `Execute` returns once the replay has stopped. */
  function DecisionOf(p: Progress): Decision
    requires !p.Going?
  {
    match p
    case Yielded(m) => Decision(m.commands, false)
    case Ended(m, c) => Decision(m.commands + [CloseCommand(c)], true)
  }

  /** `Execute` returns d within n calls of the code; code that never stops never returns. */
  ghost predicate DecidesWithin(code: Code, queue: string, h: seq<Event>, d: Decision, n: nat) {
    var v := ViewOf(h);
    if v.terminated then d == Decision([], true)
    else !ReplayRun(code, queue, v, n).Going? && d == DecisionOf(ReplayRun(code, queue, v, n))
  }

  // ---------------------------------------------------------------- log facts the machine relies on

  /** The script a projection answers with. */
  function ScriptOf(v: View): (s: Script)
    ensures |s.activities| == |v.activities| && |s.timers| == |v.timers|
  {
    Script(
      seq(|v.activities|, i requires 0 <= i < |v.activities| => OutcomeOf(v.activities[i])),
      seq(|v.timers|, i requires 0 <= i < |v.timers| => v.timers[i].fired),
      v.signals,
      v.now)
  }

  function OutcomeOf(st: ActivityState): Option<ActivityOutcome> {
    if st.completed then Some(Success(st.result))
    else if st.failed then Some(Failed(FailureMessage(st.failure)))
    else None
  }

  function RecordOfCommand(c: Command): seq<Record> {
    match c
    case ScheduleActivity(id, t, q, input, p, d) => [ActivityRecord(ActivityCall(id, t, q, input, PolicyOrDefault(p), d))]
    case StartTimer(id, d) => [TimerRecord(id, d)]
    case _ => []
  }

  function RecordsOf(cs: seq<Command>): seq<Record> {
    if cs == [] then [] else RecordsOf(cs[..|cs| - 1]) + RecordOfCommand(cs[|cs| - 1])
  }

  lemma RecordsOfAppend(cs: seq<Command>, c: Command)
    ensures RecordsOf(cs + [c]) == RecordsOf(cs) + RecordOfCommand(c)
  {
    assert (cs + [c])[..|cs|] == cs;
  }

  /** The projection lists the recorded calls, activities and timers separately. */
  ghost predicate Projects(v: View, recorded: seq<Record>) {
    && |v.activities| == ActivityCount(recorded)
    && |v.timers| == TimerCount(recorded)
    && (forall j :: 0 <= j < |recorded| && recorded[j].ActivityRecord? ==>
          ActivityCount(recorded[..j]) < |v.activities|
          && v.activities[ActivityCount(recorded[..j])].activityType == recorded[j].call.activityType)
  }

  lemma ProjectsAppendRecord(v: View, recorded: seq<Record>, v': View, r: Record)
    requires Projects(v, recorded)
    requires r.ActivityRecord? ==>
               |v'.activities| == |v.activities| + 1 && |v'.timers| == |v.timers|
               && v'.activities[..|v.activities|] == v.activities
               && v'.activities[|v.activities|].activityType == r.call.activityType
    requires r.TimerRecord? ==> v'.activities == v.activities && |v'.timers| == |v.timers| + 1
    ensures Projects(v', recorded + [r])
  {
    var recorded' := recorded + [r];
    assert recorded'[..|recorded|] == recorded;
    forall j | 0 <= j < |recorded'| && recorded'[j].ActivityRecord?
      ensures ActivityCount(recorded'[..j]) < |v'.activities|
      ensures v'.activities[ActivityCount(recorded'[..j])].activityType == recorded'[j].call.activityType
    {
      if j < |recorded| {
        assert recorded'[..j] == recorded[..j];
        assert v.activities[ActivityCount(recorded[..j])] == v'.activities[..|v.activities|][ActivityCount(recorded[..j])];
      }
    }
  }

  lemma ProjectsSame(v: View, recorded: seq<Record>, v': View)
    requires Projects(v, recorded)
    requires |v'.activities| == |v.activities| && |v'.timers| == |v.timers|
    requires forall i :: 0 <= i < |v.activities| ==> v'.activities[i].activityType == v.activities[i].activityType
    ensures Projects(v', recorded)
  {
  }

  lemma AbsorbProjects(v: View, recorded: seq<Record>, e: Event)
    requires Projects(v, recorded)
    ensures Projects(Absorb(v, e), recorded + RecordOf(e.attrs))
    ensures Absorb(v, e).terminated == (v.terminated || IsClose(e.attrs))
  {
    hide Projects;
    if IsRecord(e.attrs) {
      ProjectsAppendRecord(v, recorded, Absorb(v, e), RecordOf(e.attrs)[0]);
    } else {
      assert recorded + RecordOf(e.attrs) == recorded;
      ProjectsSame(v, recorded, Absorb(v, e));
    }
  }

  lemma ViewAppend(h: seq<Event>, e: Event)
    ensures ViewOf(h + [e]) == Absorb(ViewOf(h), e)
  {
    hide Absorb;
    assert (h + [e])[..|h|] == h;
  }

  lemma EmptyProjects()
    ensures Projects(ViewOf([]), Records([])) && !ViewOf([]).terminated && !Closed([])
  {
  }

  /** The projection of a log lists its recorded calls and knows whether the run has closed. */
  lemma {:induction false} ViewProjects(h: seq<Event>)
    ensures Projects(ViewOf(h), Records(h))
    ensures ViewOf(h).terminated == Closed(h)
  {
    hide *;
    if h == [] {
      EmptyProjects();
    } else {
      var init, e := h[..|h| - 1], h[|h| - 1];
      ViewProjects(init);
      AbsorbProjects(ViewOf(init), Records(init), e);
      assert h == init + [e];
      ViewAppend(init, e);
      RecordsAppend(init, e);
      ClosedAppend(init, e);
    }
  }

  lemma {:induction false} CountPrefix(a: seq<Record>, b: seq<Record>)
    requires a <= b
    ensures ActivityCount(a) <= ActivityCount(b) && TimerCount(a) <= TimerCount(b)
    ensures |a| < |b| ==> (if b[|a|].ActivityRecord? then ActivityCount(a) < ActivityCount(b) else TimerCount(a) < TimerCount(b))
  {
    if |a| < |b| {
      var b' := b[..|b| - 1];
      CountPrefix(a, b');
      assert b' == b[..|b'|];
    } else {
      assert a == b;
    }
  }
}
