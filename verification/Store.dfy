/**
 The store as a state of rows and one atomic transition per transaction.

 Every table carries the key (workflow_id, run_id), so the rows of one run are gathered in a `Run`.
 The map keys are the unique indexes: at most one pending workflow task per run, one activity row
 per scheduled event and one timer row per start event. Task ids come from sequences that never
 repeat and that advance even when an insert is skipped.
 */
module Store {
  import opened Basics
  import opened History
  import opened Program
  import opened Backoff
  import opened Replay
  import opened Log

  datatype RunKey = RunKey(workflowId: string, runId: string)

  datatype WorkflowTask = WorkflowTask(
    taskId: nat, queue: string, visibleAt: int, lockedUntil: Option<int>, lockedBy: Option<string>)

  datatype ActivityTask = ActivityTask(
    taskId: nat, columns: ActivityColumns, lockedUntil: Option<int>, lockedBy: Option<string>)

  datatype Run = Run(
    workflowType: string,
    queue: string,
    input: Bytes,
    status: RunStatus,
    nextEventId: int,
    history: seq<Event>,
    task: Option<WorkflowTask>,
    activities: map<int, ActivityTask>,
    timers: map<int, TimerRow>)

  datatype State = State(runs: map<RunKey, Run>, workflowSeq: nat, activitySeq: nat, now: int)

  datatype StoreError = ErrTaskLost | ErrNotFound | ErrNotRunning

  // ---------------------------------------------------------------- one run

  function Append(r: Run, now: int, a: Attributes): Run {
    r.(history := r.history + [Event(r.nextEventId, now, a)], nextEventId := r.nextEventId + 1)
  }

  /** Insert a workflow task unless one is pending. */
  function Enqueue(r: Run, token: nat, now: int): Run {
    if r.task.Some? then r else r.(task := Some(WorkflowTask(token, r.queue, now, None, None)))
  }

  /** What appending an event leaves alone. */
  lemma AppendFrame()
    ensures forall r, now, a :: var r' := Append(r, now, a);
              r' == r.(history := r'.history, nextEventId := r'.nextEventId)
  {
  }

  /** Enqueuing touches the task alone. */
  lemma EnqueueFrame()
    ensures forall r, token, now :: var r' := Enqueue(r, token, now); r' == r.(task := r'.task)
  {
  }

  function NewRun(workflowType: string, queue: string, input: Bytes, token: nat, now: int): Run {
    Enqueue(Append(Run(workflowType, queue, input, StatusRunning, 1, [], None, map[], map[]), now,
                   WorkflowStarted(workflowType, queue, input)), token, now)
  }

  function CallOf(c: Command): ActivityCall
    requires c.ScheduleActivity?
  {
    ActivityCall(c.activityId, c.activityType, c.queue, c.input, PolicyOrDefault(c.policy), c.startToClose)
  }

  function ApplyCommand(r: Run, now: int, token: nat, c: Command): Run {
    match c
    case ScheduleActivity(_, _, _, _, _, _) =>
      var r' := Append(r, now, ActivityScheduled(CallOf(c)));
      r'.(activities := r.activities[r.nextEventId := ActivityTask(token, FirstColumns(CallOf(c), now), None, None)])
    case StartTimer(id, timeout) =>
      var r' := Append(r, now, TimerStarted(id, timeout, now + timeout));
      r'.(timers := r.timers[r.nextEventId := TimerRow(id, now + timeout, false)])
    case CompleteWorkflow(result) => Append(r, now, WorkflowCompleted(result)).(status := StatusCompleted)
    case FailWorkflow(f) => Append(r, now, WorkflowFailed(f)).(status := StatusFailed)
  }

  function TokensFor(c: Command): nat {
    if c.ScheduleActivity? then 1 else 0
  }

  predicate IsTerminal(c: Command) {
    c.CompleteWorkflow? || c.FailWorkflow?
  }

  /** Commands take effect in order; nothing after a terminal command is applied. */
  function ApplyCommands(r: Run, now: int, token: nat, cs: seq<Command>): Run
    decreases |cs|
  {
    if cs == [] then r
    else if IsTerminal(cs[0]) then ApplyCommand(r, now, token, cs[0])
    else ApplyCommands(ApplyCommand(r, now, token, cs[0]), now, token + TokensFor(cs[0]), cs[1..])
  }

  function TokensUsed(cs: seq<Command>): nat {
    if cs == [] || IsTerminal(cs[0]) then 0 else TokensFor(cs[0]) + TokensUsed(cs[1..])
  }

  function Commit(r: Run, now: int, token: nat, cs: seq<Command>): Run {
    ApplyCommands(r, now, token, cs).(task := None)
  }

  /** Free, or locked by a lease that has run out. */
  predicate Available(lockedUntil: Option<int>, now: int) {
    lockedUntil.None? || lockedUntil.value <= now
  }

  function LeaseTask(r: Run, now: int, identity: string, lease: int): Run
    requires r.task.Some?
  {
    r.(task := Some(r.task.value.(lockedUntil := Some(now + lease), lockedBy := Some(identity))))
  }

  predicate Pollable(r: Run, s: int, now: int) {
    && s in r.activities
    && r.activities[s].columns.visibleAt <= now
    && Available(r.activities[s].lockedUntil, now)
  }

  /** Lease an activity and record the start of the attempt once. */
  function LeaseActivity(r: Run, s: int, now: int, identity: string, lease: int): Run
    requires s in r.activities
  {
    var t := r.activities[s];
    var t' := t.(lockedUntil := Some(now + lease), lockedBy := Some(identity));
    if t.columns.attempt > t.columns.lastStarted then
      Append(r, now, ActivityStarted(s, identity, t.columns.attempt))
      .(activities := r.activities[s := t'.(columns := t.columns.(lastStarted := t.columns.attempt))])
    else
      r.(activities := r.activities[s := t'])
  }

  function ResolveActivity(r: Run, s: int, now: int, a: Attributes, token: nat): Run
    requires s in r.activities
  {
    Enqueue(Append(r, now, a).(activities := r.activities - {s}), token, now)
  }

  function RetryActivity(r: Run, s: int, now: int, failure: Option<Failure>, delay: int): Run
    requires s in r.activities
  {
    var t := r.activities[s];
    var next := t.columns.attempt + 1;
    Append(r, now, ActivityRetryScheduled(s, next, now + delay, failure))
    .(activities := r.activities[s := ActivityTask(t.taskId, t.columns.(attempt := next, visibleAt := now + delay), None, None)])
  }

  function FireTimer(r: Run, s: int, now: int, token: nat): Run
    requires s in r.timers
  {
    Enqueue(Append(r, now, TimerFired(r.timers[s].timerId, s)).(timers := r.timers[s := r.timers[s].(fired := true)]), token, now)
  }

  predicate Due(r: Run, s: int, now: int) {
    s in r.timers && !r.timers[s].fired && r.timers[s].fireAt <= now
  }

  // ---------------------------------------------------------------- transactions

  /** The row a workflow task token names. */
  ghost predicate HoldsWorkflow(s: State, k: RunKey, token: int) {
    k in s.runs && s.runs[k].task.Some? && s.runs[k].task.value.taskId == token
  }

  ghost predicate HoldsActivity(s: State, k: RunKey, a: int, token: int) {
    k in s.runs && a in s.runs[k].activities && s.runs[k].activities[a].taskId == token
  }

  /** Some running execution uses the workflow id: the partial unique index would object. */
  ghost predicate RunningUnder(s: State, k: RunKey, workflowId: string) {
    k in s.runs && k.workflowId == workflowId && s.runs[k].status == StatusRunning
  }

  /** Replace one run. */
  function Put(s: State, k: RunKey, r: Run): State {
    s.(runs := s.runs[k := r])
  }

  datatype StartReply = Started(key: RunKey) | AlreadyStarted(key: RunKey) | StartRefused

  ghost predicate StartWorkflow(s: State, k: RunKey, workflowType: string, queue: string, input: Bytes, s': State, reply: StartReply) {
    if k !in s.runs && !exists k' :: RunningUnder(s, k', k.workflowId) then
      && s' == Put(s, k, NewRun(workflowType, queue, input, s.workflowSeq, s.now)).(workflowSeq := s.workflowSeq + 1)
      && reply == Started(k)
    else
      && s' == s
      && if exists k' :: RunningUnder(s, k', k.workflowId)
         then reply.AlreadyStarted? && RunningUnder(s, reply.key, k.workflowId)
         else reply == StartRefused
  }

  function SignalWorkflow(s: State, k: RunKey, name: string, input: Bytes): (State, Option<StoreError>) {
    if k !in s.runs then (s, Some(ErrNotFound))
    else if s.runs[k].status != StatusRunning then (s, Some(ErrNotRunning))
    else
      (Put(s, k, Enqueue(Append(s.runs[k], s.now, Signaled(name, input)), s.workflowSeq, s.now))
       .(workflowSeq := s.workflowSeq + 1), None)
  }

  predicate PollableWorkflow(s: State, k: RunKey) {
    && k in s.runs && s.runs[k].task.Some?
    && s.runs[k].task.value.visibleAt <= s.now
    && Available(s.runs[k].task.value.lockedUntil, s.now)
  }

  function PollWorkflowTask(s: State, k: RunKey, identity: string, lease: int): State
    requires PollableWorkflow(s, k)
  {
    Put(s, k, LeaseTask(s.runs[k], s.now, identity, lease))
  }

  /** Ownership is the lock holder's name; the lease's expiry is not consulted. */
  predicate OwnsWorkflow(r: Run, identity: string)
    requires r.task.Some?
  {
    r.task.value.lockedBy == Some(identity)
  }

  function CompleteWorkflowTask(s: State, k: RunKey, identity: string, cs: seq<Command>): (State, Option<StoreError>)
    requires k in s.runs && s.runs[k].task.Some?
  {
    if !OwnsWorkflow(s.runs[k], identity) then (s, Some(ErrTaskLost))
    else (Put(s, k, Commit(s.runs[k], s.now, s.activitySeq, cs)).(activitySeq := s.activitySeq + TokensUsed(cs)), None)
  }

  function PollActivityTask(s: State, k: RunKey, a: int, identity: string, lease: int): State
    requires k in s.runs && Pollable(s.runs[k], a, s.now)
  {
    Put(s, k, LeaseActivity(s.runs[k], a, s.now, identity, lease))
  }

  predicate OwnsActivity(r: Run, a: int, identity: string)
    requires a in r.activities
  {
    r.activities[a].lockedBy == Some(identity)
  }

  function CompleteActivityTask(s: State, k: RunKey, a: int, identity: string, result: Bytes): (State, Option<StoreError>)
    requires k in s.runs && a in s.runs[k].activities
  {
    if !OwnsActivity(s.runs[k], a, identity) then (s, Some(ErrTaskLost))
    else
      (Put(s, k, ResolveActivity(s.runs[k], a, s.now, ActivityCompleted(a, result), s.workflowSeq))
       .(workflowSeq := s.workflowSeq + 1), None)
  }

  function FailActivityTask(s: State, k: RunKey, a: int, identity: string, failure: Option<Failure>, retryable: bool, outOfRange: int)
    : (State, Option<StoreError>)
    requires k in s.runs && a in s.runs[k].activities
  {
    var c := s.runs[k].activities[a].columns;
    if !OwnsActivity(s.runs[k], a, identity) then (s, Some(ErrTaskLost))
    else if retryable && CanRetry(EffectivePolicy(c), c.attempt) then
      (Put(s, k, RetryActivity(s.runs[k], a, s.now, failure, Delay(EffectivePolicy(c), c.attempt, outOfRange))), None)
    else
      (Put(s, k, ResolveActivity(s.runs[k], a, s.now, ActivityFailed(a, failure, retryable), s.workflowSeq))
       .(workflowSeq := s.workflowSeq + 1), None)
  }

  /** A heartbeat extends a lease that is still running, whoever sends it. */
  function ExtendActivityLease(s: State, k: RunKey, a: int, lease: int): (State, bool)
    requires k in s.runs && a in s.runs[k].activities
  {
    var t := s.runs[k].activities[a];
    if t.lockedUntil.Some? && t.lockedUntil.value > s.now then
      (Put(s, k, s.runs[k].(activities := s.runs[k].activities[a := t.(lockedUntil := Some(s.now + lease))])), true)
    else (s, false)
  }

  function FireOne(s: State, k: RunKey, t: int): State
    requires k in s.runs && t in s.runs[k].timers
  {
    Put(s, k, FireTimer(s.runs[k], t, s.now, s.workflowSeq)).(workflowSeq := s.workflowSeq + 1)
  }
}
