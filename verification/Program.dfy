/**
 Workflow code as a deterministic strategy, and its straight-through evaluation.

 Workflow code may act only through the calls of its context. Determinism means that the next
 call is a function of the input and of the answers received so far, so a definition is modelled
 as that function. Unlike a syntax tree it covers loops, unbounded runs and arbitrary branching.

 `Evaluate` is the reference semantics: no log, no replay, no commands. Activities, timers and signals
 are answered from a fixed script, and durable calls are merely listed.
 */
module Program {
  import opened Basics
  import opened History

  /** A handle returned by ExecuteActivity or NewTimer: the n-th call of its kind. */
  datatype Future = ActivityFuture(index: nat) | TimerFuture(index: nat)

  /** The result of encoding an activity's argument, which may fail. */
  datatype Encoded = Payload(bytes: Bytes) | Unencodable(message: string)

  /** Negative durations are dropped on the wire, so they are recorded as absent. */
  datatype ActivityOptions = ActivityOptions(
    queue: string,
    startToClose: int,
    policy: Option<RetryPolicy>,
    activityId: string)

  datatype Request =
    | ExecuteActivity(activityType: string, argument: Encoded, options: ActivityOptions)
    | NewTimer(duration: int)
    | Get(future: Future)
    | AwaitSignal(name: string)
    | IsReady(future: Future)
    | ReceiveSignal(name: string)
    | Now
    | Return(result: Bytes)
    | Fail(message: string)
    | Panic(message: string)

  datatype Response =
    | Handle
    | Value(bytes: Bytes)
    | ActivityError(activityType: string, message: string)
    | SignalInput(bytes: Bytes)
    | Ready(ready: bool)
    | MaybeSignal(received: Option<Bytes>)
    | Clock(time: int)

  type Code = (Bytes, seq<Response>) -> Request

  /** The calls whose answer can change because an event has not happened yet. */
  predicate ObservesAbsence(r: Request) {
    r.IsReady? || r.ReceiveSignal? || r.Now?
  }

  /** Code within the fragment for which replay is insensitive to log growth. */
  ghost predicate Stable(code: Code) {
    forall input, replies :: !ObservesAbsence(code(input, replies))
  }

  /** What the world will answer: outcomes by call number, timers fired, signals in arrival order. */
  datatype ActivityOutcome = Success(bytes: Bytes) | Failed(message: string)

  datatype Script = Script(
    activities: seq<Option<ActivityOutcome>>,
    timers: seq<bool>,
    signals: seq<Signal>,
    now: int)

  /** Progress of one evaluation: calls made, types called, signals taken per name, answers given. */
  datatype Eval = Eval(
    records: seq<Record>,
    types: seq<string>,
    timers: nat,
    taken: multiset<string>,
    replies: seq<Response>)

  datatype Status = Running(eval: Eval) | Blocked(eval: Eval) | Finished(eval: Eval, close: Close)

  const INITIAL := Eval([], [], 0, multiset{}, [])

  const PANIC_ERROR := "PanicError"
  const APPLICATION_ERROR := "ApplicationError"

  function PanicFailure(message: string): Failure {
    Failure("workflow panic: " + message, PANIC_ERROR)
  }

  /** `durationProto`: non-positive durations become absent. */
  function WireDuration(d: int): int {
    if d <= 0 then 0 else d
  }

  function WirePolicy(p: Option<RetryPolicy>): Option<RetryPolicy> {
    match p
    case None => None
    case Some(q) => Some(q.(initialInterval := WireDuration(q.initialInterval), maxInterval := WireDuration(q.maxInterval)))
  }

  /** The policy stored when the command carries none: 1s, doubling, at most 100s, five attempts. */
  const DEFAULT_POLICY := RetryPolicy(1_000_000_000, 2.0, 100_000_000_000, 5)

  function PolicyOrDefault(p: Option<RetryPolicy>): RetryPolicy {
    if p.Some? then p.value else DEFAULT_POLICY
  }

  function ActivityIdFor(index: nat, o: ActivityOptions): string {
    if o.activityId == "" then "activity-" + Decimal(index) else o.activityId
  }

  function TimerIdFor(index: nat): string {
    "timer-" + Decimal(index)
  }

  /** The log entry of the index-th activity call. */
  function CallRecord(index: nat, queue: string, activityType: string, input: Bytes, o: ActivityOptions): Record {
    ActivityRecord(ActivityCall(
      ActivityIdFor(index, o), activityType, if o.queue == "" then queue else o.queue, input,
      PolicyOrDefault(WirePolicy(o.policy)), WireDuration(o.startToClose)))
  }

  function Named(signals: seq<Signal>, name: string): seq<Bytes> {
    if signals == [] then [] else
      Named(signals[..|signals| - 1], name) +
      (if signals[|signals| - 1].name == name then [signals[|signals| - 1].input] else [])
  }

  function Reply(e: Eval, r: Response): Eval {
    e.(replies := e.replies + [r])
  }

  /** A future the code actually holds. */
  predicate Held(e: Eval, f: Future) {
    match f
    case ActivityFuture(i) => i < |e.types|
    case TimerFuture(i) => i < e.timers
  }

  /** The answer a held future gives, once its call has been resolved. */
  function Answer(script: Script, e: Eval, f: Future): Option<Response>
    requires Held(e, f)
  {
    match f
    case ActivityFuture(i) =>
      if i < |script.activities| && script.activities[i].Some? then
        match script.activities[i].value
        case Success(b) => Some(Value(b))
        case Failed(m) => Some(ActivityError(e.types[i], m))
      else None
    case TimerFuture(i) =>
      if i < |script.timers| && script.timers[i] then Some(Value([])) else None
  }

  function NextSignal(script: Script, e: Eval, name: string): Option<Bytes> {
    var inputs := Named(script.signals, name);
    if e.taken[name] < |inputs| then Some(inputs[e.taken[name]]) else None
  }

  const NIL_FUTURE := "invalid memory address or nil pointer dereference"

  /** One call of the code, answered from the script. */
  function EvalStep(code: Code, queue: string, input: Bytes, script: Script, e: Eval): Status {
    match code(input, e.replies)
    case ExecuteActivity(t, Payload(b), o) =>
      Running(Reply(e.(records := e.records + [CallRecord(|e.types|, queue, t, b, o)], types := e.types + [t]), Handle))
    case ExecuteActivity(t, Unencodable(m), o) =>
      Finished(e, Abort(PanicFailure("encode activity input: " + m)))
    case NewTimer(d) =>
      Running(Reply(e.(records := e.records + [TimerRecord(TimerIdFor(e.timers), WireDuration(d))], timers := e.timers + 1), Handle))
    case Get(f) =>
      if !Held(e, f) then Finished(e, Abort(PanicFailure(NIL_FUTURE)))
      else if Answer(script, e, f).Some? then Running(Reply(e, Answer(script, e, f).value))
      else Blocked(e)
    case AwaitSignal(name) =>
      var s := NextSignal(script, e, name);
      if s.Some? then Running(Reply(e.(taken := e.taken + multiset{name}), SignalInput(s.value))) else Blocked(e)
    case IsReady(f) =>
      if !Held(e, f) then Finished(e, Abort(PanicFailure(NIL_FUTURE)))
      else Running(Reply(e, Ready(Answer(script, e, f).Some?)))
    case ReceiveSignal(name) =>
      var s := NextSignal(script, e, name);
      Running(Reply(if s.Some? then e.(taken := e.taken + multiset{name}) else e, MaybeSignal(s)))
    case Now => Running(Reply(e, Clock(script.now)))
    case Return(r) => Finished(e, Succeed(r))
    case Fail(m) => Finished(e, Abort(Failure(m, APPLICATION_ERROR)))
    case Panic(m) => Finished(e, Abort(PanicFailure(m)))
  }

  /** The evaluation after at most n calls. It stays put once blocked or finished. */
  function Evaluate(code: Code, queue: string, input: Bytes, script: Script, n: nat): Status {
    if n == 0 then Running(INITIAL) else
      match Evaluate(code, queue, input, script, n - 1)
      case Running(e) => EvalStep(code, queue, input, script, e)
      case stopped => stopped
  }

  /** A later script knows everything an earlier one knew. */
  ghost predicate Extends(s: Script, s': Script) {
    && (forall i :: 0 <= i < |s.activities| && s.activities[i].Some? ==>
          i < |s'.activities| && s'.activities[i] == s.activities[i])
    && (forall i :: 0 <= i < |s.timers| && s.timers[i] ==> i < |s'.timers| && s'.timers[i])
    && s.signals <= s'.signals
  }

  /** What every evaluation keeps: calls and counters agree. */
  ghost predicate Coherent(e: Eval) {
    && |e.types| == ActivityCount(e.records)
    && e.timers == TimerCount(e.records)
  }

  lemma {:induction false} NamedExtends(s: seq<Signal>, s': seq<Signal>, name: string)
    requires s <= s'
    ensures Named(s, name) <= Named(s', name)
  {
    if |s| < |s'| {
      NamedExtends(s, s'[..|s'| - 1], name);
    } else {
      assert s == s';
    }
  }

  lemma StepGrows(code: Code, queue: string, input: Bytes, script: Script, e: Eval)
    requires Coherent(e)
    ensures Coherent(EvalStep(code, queue, input, script, e).eval)
    ensures e.records <= EvalStep(code, queue, input, script, e).eval.records
  {
    var e' := EvalStep(code, queue, input, script, e).eval;
    if e'.records != e.records {
      assert e'.records[..|e'.records| - 1] == e.records;
    }
  }

  lemma {:induction false} RunCoherent(code: Code, queue: string, input: Bytes, script: Script, n: nat)
    ensures Coherent(Evaluate(code, queue, input, script, n).eval)
  {
    hide EvalStep;
    if n > 0 {
      RunCoherent(code, queue, input, script, n - 1);
      StepGrows(code, queue, input, script, Evaluate(code, queue, input, script, n - 1).eval);
    }
  }

  /** More steps never withdraw a call, and a stopped evaluation stays stopped. */
  lemma {:induction false} RunGrows(code: Code, queue: string, input: Bytes, script: Script, m: nat, n: nat)
    requires m <= n
    ensures Evaluate(code, queue, input, script, m).eval.records <= Evaluate(code, queue, input, script, n).eval.records
    ensures !Evaluate(code, queue, input, script, m).Running? ==>
              Evaluate(code, queue, input, script, n) == Evaluate(code, queue, input, script, m)
  {
    hide EvalStep, Coherent;
    if m < n {
      RunGrows(code, queue, input, script, m, n - 1);
      RunCoherent(code, queue, input, script, n - 1);
      StepGrows(code, queue, input, script, Evaluate(code, queue, input, script, n - 1).eval);
    }
  }

  /** One call of stable code is answered alike by a richer script, unless it was blocked. */
  lemma StepMonotone(code: Code, queue: string, input: Bytes, s: Script, s': Script, e: Eval)
    requires Stable(code) && Extends(s, s')
    ensures var r, r' := EvalStep(code, queue, input, s, e), EvalStep(code, queue, input, s', e);
            r == r' || r == Blocked(e)
  {
    var request := code(input, e.replies);
    assert !ObservesAbsence(request);
    if request.AwaitSignal? {
      NamedExtends(s.signals, s'.signals, request.name);
    }
  }

  /**
   Replay monotonicity on the reference semantics. While the evaluation under the poorer script is
   unblocked, the richer script reproduces it exactly: same calls, same answers, same order. A
   finished evaluation finishes the same way, and a blocked one is overtaken, never contradicted.
   */
  lemma {:induction false} RunMonotone(code: Code, queue: string, input: Bytes, s: Script, s': Script, n: nat)
    requires Stable(code) && Extends(s, s')
    ensures var r, r' := Evaluate(code, queue, input, s, n), Evaluate(code, queue, input, s', n);
            && (!r.Blocked? ==> r' == r)
            && r.eval.records <= r'.eval.records
            && r.eval.replies <= r'.eval.replies
  {
    hide EvalStep, Coherent, Extends, Stable;
    if n > 0 {
      RunMonotone(code, queue, input, s, s', n - 1);
      var p, p' := Evaluate(code, queue, input, s, n - 1), Evaluate(code, queue, input, s', n - 1);
      if p.Running? {
        StepMonotone(code, queue, input, s, s', p.eval);
      }
      RunCoherent(code, queue, input, s', n - 1);
      StepGrows(code, queue, input, s', p'.eval);
      RepliesGrow(code, queue, input, s', p'.eval);
    }
  }

  /** Scripts that know the same things drive the same evaluation, blocked points included. */
  lemma {:induction false} RunSame(code: Code, queue: string, input: Bytes, s: Script, s': Script, n: nat)
    requires Stable(code) && Extends(s, s') && Extends(s', s)
    ensures Evaluate(code, queue, input, s, n) == Evaluate(code, queue, input, s', n)
  {
    hide EvalStep, Extends, Stable;
    if n > 0 {
      RunSame(code, queue, input, s, s', n - 1);
      var p := Evaluate(code, queue, input, s, n - 1);
      if p.Running? {
        StepMonotone(code, queue, input, s, s', p.eval);
        StepMonotone(code, queue, input, s', s, p.eval);
      }
    }
  }

  lemma ExtendsTransitive(a: Script, b: Script, c: Script)
    requires Extends(a, b) && Extends(b, c)
    ensures Extends(a, c)
  {
  }

  lemma RepliesGrow(code: Code, queue: string, input: Bytes, script: Script, e: Eval)
    ensures var e' := EvalStep(code, queue, input, script, e).eval;
            e.replies <= e'.replies && |e'.replies| <= |e.replies| + 1
  {
    hide CallRecord, PanicFailure, Answer, TimerIdFor, NextSignal;
  }
}
