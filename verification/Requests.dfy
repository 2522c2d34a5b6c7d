/**
 What workflow code asks for and what it is told, in terms of its own requests and of the log alone. Every
 durable call is recorded with the durations, payload, queue, id and policy the code gave, and every
 answer is the payload of the event that names it.
 */
module Requests {
  import opened Basics
  import opened History
  import opened Program
  import opened Replay
  import opened ReplayTheorems
  import opened Growth
  import opened Backoff
  import opened Log
  import opened Store
  import opened RunInvariant
  import opened System
  import opened Durability
  import opened Totals
  import opened Projection
  import opened Environment
  import Journal

  // ---------------------------------------------------------------- what was asked

  /** The activities and timers the code asked for before its last answer, in order. */
  function Asked(code: Code, input: Bytes, replies: seq<Response>): seq<Request> {
    if replies == [] then [] else
      var before := replies[..|replies| - 1];
      Asked(code, input, before) +
      (if code(input, before).ExecuteActivity? || code(input, before).NewTimer? then [code(input, before)] else [])
  }

  /** The record of a policy: durations that are not positive are absent, and no policy means the default. */
  predicate PolicyAsAsked(recorded: RetryPolicy, asked: Option<RetryPolicy>) {
    match asked
    case None => recorded == RetryPolicy(1_000_000_000, 2.0, 100_000_000_000, 5)
    case Some(p) =>
      && recorded.initialInterval == (if p.initialInterval > 0 then p.initialInterval else 0)
      && recorded.backoffCoefficient == p.backoffCoefficient
      && recorded.maxInterval == (if p.maxInterval > 0 then p.maxInterval else 0)
      && recorded.maxAttempts == p.maxAttempts
  }

  predicate CallAsAsked(call: ActivityCall, queue: string, index: nat, t: string, b: Bytes, o: ActivityOptions) {
    && call.activityType == t && call.input == b
    && call.activityId == (if o.activityId != "" then o.activityId else "activity-" + Decimal(index))
    && call.queue == (if o.queue != "" then o.queue else queue)
    && call.startToClose == (if o.startToClose > 0 then o.startToClose else 0)
    && PolicyAsAsked(call.policy, o.policy)
  }

  /** The record is that of the request, given how many activities and timers came before. */
  predicate AsAsked(r: Record, request: Request, queue: string, activities: nat, timers: nat) {
    match request
    case ExecuteActivity(t, Payload(b), o) => r.ActivityRecord? && CallAsAsked(r.call, queue, activities, t, b, o)
    case NewTimer(d) => r == TimerRecord("timer-" + Decimal(timers), if d > 0 then d else 0)
    case _ => false
  }

  ghost predicate AllAsAsked(records: seq<Record>, requests: seq<Request>, queue: string) {
    && |records| <= |requests|
    && forall j :: 0 <= j < |records| ==>
         AsAsked(records[j], requests[j], queue, ActivityCount(records[..j]), TimerCount(records[..j]))
  }

  lemma AskedAppend(code: Code, input: Bytes, replies: seq<Response>, r: Response)
    ensures Asked(code, input, replies + [r]) == Asked(code, input, replies) +
              (if code(input, replies).ExecuteActivity? || code(input, replies).NewTimer? then [code(input, replies)] else [])
  {
    assert (replies + [r])[..|replies|] == replies;
  }

  lemma AllAppend(records: seq<Record>, requests: seq<Request>, queue: string, r: Record, request: Request)
    requires AllAsAsked(records, requests, queue) && |records| == |requests|
    requires AsAsked(r, request, queue, ActivityCount(records), TimerCount(records))
    ensures AllAsAsked(records + [r], requests + [request], queue)
  {
    hide AsAsked, ActivityCount;
    var records' := records + [r];
    assert records'[..|records|] == records;
    forall j | 0 <= j < |records|
      ensures AsAsked(records'[j], (requests + [request])[j], queue, ActivityCount(records'[..j]), TimerCount(records'[..j]))
    {
      assert records'[..j] == records[..j];
    }
  }

  /** One call adds its own record, or none if it is not durable. */
  lemma StepRecords(code: Code, queue: string, input: Bytes, script: Script, e: Eval)
    requires Coherent(e)
    ensures var s := EvalStep(code, queue, input, script, e);
            var request := code(input, e.replies);
            if s.Running? && (request.ExecuteActivity? || request.NewTimer?) then
              && |s.eval.records| == |e.records| + 1 && s.eval.records[..|e.records|] == e.records
              && AsAsked(s.eval.records[|e.records|], request, queue, ActivityCount(e.records), TimerCount(e.records))
            else s.eval.records == e.records
    ensures var s := EvalStep(code, queue, input, script, e);
            if s.Running? then |s.eval.replies| == |e.replies| + 1 && s.eval.replies[..|e.replies|] == e.replies
            else s.eval.replies == e.replies
  {
    hide Answer, NextSignal, PanicFailure, Decimal;
  }

  /** The records of an evaluation are its requests, one for one. */
  lemma {:induction false} EvaluationRecordsRequests(code: Code, queue: string, input: Bytes, script: Script, n: nat)
    ensures var e := Evaluate(code, queue, input, script, n).eval;
            |e.records| == |Asked(code, input, e.replies)| && AllAsAsked(e.records, Asked(code, input, e.replies), queue)
  {
    hide EvalStep, AsAsked, AllAsAsked;
    if n == 0 {
      NothingAsked(queue);
    } else {
      EvaluationRecordsRequests(code, queue, input, script, n - 1);
      var before := Evaluate(code, queue, input, script, n - 1);
      if before.Running? {
        var e, e' := before.eval, Evaluate(code, queue, input, script, n).eval;
        RunCoherent(code, queue, input, script, n - 1);
        StepRecords(code, queue, input, script, e);
        if Evaluate(code, queue, input, script, n).Running? {
          assert e'.replies == e.replies + [e'.replies[|e.replies|]];
          AskedAppend(code, input, e.replies, e'.replies[|e.replies|]);
          var request := code(input, e.replies);
          if request.ExecuteActivity? || request.NewTimer? {
            AllAppend(e.records, Asked(code, input, e.replies), queue, e'.records[|e.records|], request);
            assert e'.records == e.records + [e'.records[|e.records|]];
          } else {
            assert Asked(code, input, e'.replies) == Asked(code, input, e.replies);
          }
        }
      }
    }
  }

  lemma NothingAsked(queue: string)
    ensures AllAsAsked([], [], queue)
  {
  }

  lemma PrefixAsAsked(records: seq<Record>, more: seq<Record>, requests: seq<Request>, queue: string)
    requires records <= more && AllAsAsked(more, requests, queue)
    ensures AllAsAsked(records, requests, queue)
  {
    hide AsAsked;
    forall j | 0 <= j < |records|
      ensures AsAsked(records[j], requests[j], queue, ActivityCount(records[..j]), TimerCount(records[..j]))
    {
      assert records[..j] == more[..j];
    }
  }

  /** The requests of the run's code when answered from its own log, up to n calls. */
  ghost function RequestsOf(reg: Registry, r: Run, n: nat): seq<Request>
    requires r.workflowType in reg
  {
    var code := reg[r.workflowType];
    Asked(code, r.input, Evaluate(code, r.queue, r.input, ScriptOf(ViewOf(r.history)), n).eval.replies)
  }

  /**
   Recorded as asked. In every reachable state the durable calls in the log of a run of stable code are
   the first requests of its code, one for one, with the ids, payloads, queues, durations and policies
   the code gave.
   */
  lemma RecordedAsAsked(reg: Registry, states: seq<System>, actions: seq<Action>, i: nat, k: RunKey) returns (n: nat)
    requires Behavior(reg, states, actions) && i < |states|
    requires k in states[i].store.runs && RunsStable(reg, states[i].store.runs[k].workflowType)
    ensures var r := states[i].store.runs[k];
            AllAsAsked(Records(r.history), RequestsOf(reg, r, n), r.queue)
  {
    hide Step, Behavior, Stable, Evaluate, ViewOf, ScriptOf, Records, AllAsAsked, WellFormed, Live, TimersOf, StatusOf, Closed,
         TokensKnown, TokensUnique, OneRunning, MessagesOk;
    ReachableInv(reg, states, actions, i);
    ReachableSound(reg, states, actions, i);
    var r := states[i].store.runs[k];
    var code := reg[r.workflowType];
    assert Indexed(r) && RunSound(reg, r);
    RunInput(r);
    n :| ConsistentWithin(code, r.queue, r.history, n);
    EvaluationRecordsRequests(code, r.queue, r.input, ScriptOf(ViewOf(r.history)), n);
    PrefixAsAsked(Records(r.history), Straight(code, r.queue, r.history, n).eval.records, RequestsOf(reg, r, n), r.queue);
  }

  // ---------------------------------------------------------------- event by event

  lemma RecordAt(h: seq<Event>, s: int)
    requires 1 <= s <= |h| && IsRecord(h[s - 1].attrs)
    ensures var j := |Records(h[..s - 1])|;
            j < |Records(h)| && [Records(h)[j]] == RecordOf(h[s - 1].attrs) && Records(h)[..j] == Records(h[..s - 1])
  {
    hide Records;
    assert h[..s] == h[..s - 1] + [h[s - 1]];
    RecordsAppend(h[..s - 1], h[s - 1]);
    RecordsPrefix(h, s, |h|);
    RecordsPrefix(h, s - 1, |h|);
    assert h[..|h|] == h;
  }

  /**
   A timer that fired was asked for: by the request at its position among the durable calls, and it did
   not fire before its start plus the duration the code gave.
   */
  lemma TimerAsAsked(reg: Registry, states: seq<System>, actions: seq<Action>, i: nat, k: RunKey, j: nat)
    returns (n: nat, d: int)
    requires Behavior(reg, states, actions) && i < |states|
    requires k in states[i].store.runs && RunsStable(reg, states[i].store.runs[k].workflowType)
    requires j < |states[i].store.runs[k].history| && states[i].store.runs[k].history[j].attrs.TimerFired?
    ensures var r := states[i].store.runs[k];
            var h, s := r.history, r.history[j].attrs.startedId;
            && 1 <= s <= j && h[s - 1].attrs.TimerStarted?
            && |Records(h[..s - 1])| < |RequestsOf(reg, r, n)|
            && RequestsOf(reg, r, n)[|Records(h[..s - 1])|] == NewTimer(d)
            && h[s - 1].attrs.timeout == (if d > 0 then d else 0)
            && h[s - 1].time + d <= h[j].time
  {
    hide Behavior, RequestsOf, Records, ActivityCount, WellFormed, Live, TimersOf, StatusOf, Stable, CallAsAsked;
    n := RecordedAsAsked(reg, states, actions, i, k);
    var r := states[i].store.runs[k];
    ReachableRun(reg, states, actions, i, k);
    NeverFiresEarly(r.history, j);
    var s := r.history[j].attrs.startedId;
    RecordAt(r.history, s);
    var at := |Records(r.history[..s - 1])|;
    assert AsAsked(Records(r.history)[at], RequestsOf(reg, r, n)[at], r.queue,
                   ActivityCount(Records(r.history)[..at]), TimerCount(Records(r.history)[..at]));
    d := RequestsOf(reg, r, n)[at].duration;
  }

  lemma ReachableRun(reg: Registry, states: seq<System>, actions: seq<Action>, i: nat, k: RunKey)
    requires Behavior(reg, states, actions) && i < |states| && k in states[i].store.runs
    ensures WellFormed(states[i].store.runs[k].history)
  {
    hide Step, WellFormed, Live, TimersOf, StatusOf, TokensKnown, TokensUnique, OneRunning, MessagesOk;
    ReachableInv(reg, states, actions, i);
    assert Indexed(states[i].store.runs[k]);
  }

  /** An activity in the log was asked for, field by field, by the request at its position. */
  lemma ActivityAsAsked(reg: Registry, states: seq<System>, actions: seq<Action>, i: nat, k: RunKey, s: int)
    returns (n: nat, t: string, b: Bytes, o: ActivityOptions)
    requires Behavior(reg, states, actions) && i < |states|
    requires k in states[i].store.runs && RunsStable(reg, states[i].store.runs[k].workflowType)
    requires SchedulesAt(states[i].store.runs[k].history, s)
    ensures var r := states[i].store.runs[k];
            var at := |Records(r.history[..s - 1])|;
            && at < |RequestsOf(reg, r, n)| && RequestsOf(reg, r, n)[at] == ExecuteActivity(t, Payload(b), o)
            && CallAsAsked(r.history[s - 1].attrs.call, r.queue, ActivityCount(Records(r.history[..s - 1])), t, b, o)
  {
    hide Behavior, RequestsOf, Records, ActivityCount, Stable, CallAsAsked, Decimal;
    n := RecordedAsAsked(reg, states, actions, i, k);
    var r := states[i].store.runs[k];
    RecordAt(r.history, s);
    var at := |Records(r.history[..s - 1])|;
    var request := RequestsOf(reg, r, n)[at];
    assert AsAsked(Records(r.history)[at], request, r.queue,
                   ActivityCount(Records(r.history)[..at]), TimerCount(Records(r.history)[..at]));
    t, b, o := request.activityType, request.argument.bytes, request.options;
  }

  // ---------------------------------------------------------------- what it is told

  lemma TimerRankGrows(h: seq<Event>, s: int, t: int)
    requires 1 <= s < t <= |h| && h[s - 1].attrs.TimerStarted?
    ensures TimerCount(Records(h[..s - 1])) < TimerCount(Records(h[..t - 1]))
  {
    hide Records;
    assert h[..s] == h[..s - 1] + [h[s - 1]];
    RecordCounts(h[..s - 1], h[s - 1]);
    RecordsPrefix(h, s, t - 1);
    CountPrefix(Records(h[..s]), Records(h[..t - 1]));
  }

  /** The projected entry of a started timer is found at the timer's rank. */
  lemma TimerEntryAt(h: seq<Event>, s: int, i: nat)
    requires WellFormed(h) && StartsNth(h, s, i)
    ensures i < |ViewOf(h).timers| && ViewOf(h).timers[i].id == s && DescribesTimer(h, ViewOf(h).timers[i], i)
  {
    hide WellFormed, Records, ActivityCount, ViewOf, DescribesOutcome;
    ProjectionIsLookup(h);
    TimerRankGrowsToEnd(h, s);
    var t := ViewOf(h).timers[i].id;
    assert DescribesTimer(h, ViewOf(h).timers[i], i);
    if s < t {
      TimerRankGrows(h, s, t);
    } else if t < s {
      TimerRankGrows(h, t, s);
    }
  }

  lemma TimerRankGrowsToEnd(h: seq<Event>, s: int)
    requires 1 <= s <= |h| && h[s - 1].attrs.TimerStarted?
    ensures TimerCount(Records(h[..s - 1])) < TimerCount(Records(h))
  {
    hide Records, ActivityCount;
    assert h[..s] == h[..s - 1] + [h[s - 1]];
    RecordCounts(h[..s - 1], h[s - 1]);
    RecordsPrefix(h, s, |h|);
    assert h[..|h|] == h;
    CountPrefix(Records(h[..s]), Records(h));
  }

  lemma ActivityEntryAt(h: seq<Event>, s: int, i: nat)
    requires WellFormed(h) && SchedulesNth(h, s, i)
    ensures i < |ViewOf(h).activities| && ViewOf(h).activities[i].id == s && DescribesOutcome(h, ViewOf(h).activities[i])
  {
    hide WellFormed, Records, ActivityCount, ViewOf, DescribesOutcome;
    var n := EntryOf(h, s);
  }

  /** The message of a failed event. */
  function Reason(e: Event): string
    requires e.attrs.ActivityFailed?
  {
    if e.attrs.failure.Some? then e.attrs.failure.value.message else "activity failed"
  }

  /**
   Waiting on the i-th activity, scheduled as s: its recorded result, else the message of its recorded
   failure, else nothing yet.
   */
  lemma ToldResult(code: Code, queue: string, input: Bytes, h: seq<Event>, e: Eval, s: int, i: nat)
    requires WellFormed(h) && SchedulesNth(h, s, i) && i < |e.types|
    requires code(input, e.replies) == Get(ActivityFuture(i))
    ensures var told := EvalStep(code, queue, input, LogScript(h), e);
            && (forall j :: CompletesAt(h, j, s) ==> told == Running(Reply(e, Value(h[j].attrs.result))))
            && (forall j :: FailsAt(h, j, s) ==> told == Running(Reply(e, ActivityError(e.types[i], Reason(h[j])))))
            && ((forall j :: !CompletesAt(h, j, s) && !FailsAt(h, j, s)) ==> told == Blocked(e))
  {
    hide WellFormed, ViewOf, SchedulesNth;
    ActivityEntryAt(h, s, i);
    var st := ViewOf(h).activities[i];
    assert DescribesOutcome(h, st);
    OutcomesExclude(h, s);
  }

  lemma OutcomesExclude(h: seq<Event>, s: int)
    requires WellFormed(h)
    ensures forall i, j :: CompletesAt(h, i, s) ==> !FailsAt(h, j, s)
  {
    hide WellFormed, Live, TimersOf, Closed;
    forall i, j | CompletesAt(h, i, s) && FailsAt(h, j, s)
      ensures false
    {
      PrefixWellFormed(h, i);
      PrefixWellFormed(h, j);
      if i < j {
        assert CompletesAt(h[..j], i, s);
        UnresolvedUnnamed(h[..j], s);
      } else {
        assert FailsAt(h[..i], j, s);
        UnresolvedUnnamed(h[..i], s);
      }
    }
  }

  /** Waiting on the i-th timer, started as s: an empty value once it fired, else nothing yet. */
  lemma ToldFired(code: Code, queue: string, input: Bytes, h: seq<Event>, e: Eval, s: int, i: nat)
    requires WellFormed(h) && StartsNth(h, s, i) && i < e.timers
    requires code(input, e.replies) == Get(TimerFuture(i))
    ensures EvalStep(code, queue, input, LogScript(h), e)
            == if exists j :: FiresAt(h, j, s) then Running(Reply(e, Value([]))) else Blocked(e)
  {
    hide WellFormed, ViewOf, StartsNth;
    TimerEntryAt(h, s, i);
  }

  /**
   Asking for a signal: the next one of that name in the log, in arrival order, with the payload it was sent
   with; without one, waiting blocks and receiving reports none.
   */
  lemma ToldSignal(code: Code, queue: string, input: Bytes, h: seq<Event>, e: Eval, name: string)
    ensures var inputs := Named(Journal.SignalsOf(h), name);
            var told := EvalStep(code, queue, input, LogScript(h), e);
            var e' := e.(taken := e.taken + multiset{name});
            && (code(input, e.replies) == AwaitSignal(name) ==>
                  told == if e.taken[name] < |inputs| then Running(Reply(e', SignalInput(inputs[e.taken[name]]))) else Blocked(e))
            && (code(input, e.replies) == ReceiveSignal(name) ==>
                  told == if e.taken[name] < |inputs| then Running(Reply(e', MaybeSignal(Some(inputs[e.taken[name]]))))
                          else Running(Reply(e, MaybeSignal(None))))
  {
    hide ViewOf, Named, Answer, CallRecord, PanicFailure, TimerIdFor;
    Journal.ProjectedSignals(h);
  }

  /** Asking whether the i-th activity, scheduled as s, is ready: whether the log holds its outcome. */
  lemma ToldReady(code: Code, queue: string, input: Bytes, h: seq<Event>, e: Eval, s: int, i: nat)
    requires WellFormed(h) && SchedulesNth(h, s, i) && i < |e.types|
    requires code(input, e.replies) == IsReady(ActivityFuture(i))
    ensures EvalStep(code, queue, input, LogScript(h), e) == Running(Reply(e, Ready(exists j :: CompletesAt(h, j, s) || FailsAt(h, j, s))))
  {
    hide WellFormed, ViewOf, SchedulesNth;
    ActivityEntryAt(h, s, i);
    var st := ViewOf(h).activities[i];
    assert DescribesOutcome(h, st);
    if st.completed {
      var j :| CompletesAt(h, j, s);
    }
    if st.failed {
      var j :| FailsAt(h, j, s);
    }
  }

  /** The clock the code reads: the latest event time if any event carries one, else the wall clock. */
  lemma ToldTime(h: seq<Event>, wallClock: int)
    ensures (exists j :: 0 <= j < |h| && h[j].time > 0) ==>
              (exists j :: 0 <= j < |h| && h[j].time == Grounded(ViewOf(h), wallClock).now)
              && forall j :: 0 <= j < |h| ==> h[j].time <= Grounded(ViewOf(h), wallClock).now
    ensures (forall j :: 0 <= j < |h| ==> h[j].time <= 0) ==> Grounded(ViewOf(h), wallClock).now == wallClock
  {
    hide ViewOf;
    LatestTime(h);
  }

  lemma {:induction false} LatestTime(h: seq<Event>)
    ensures ViewOf(h).now >= 0 && forall j :: 0 <= j < |h| ==> h[j].time <= ViewOf(h).now
    ensures ViewOf(h).now > 0 ==> exists j :: 0 <= j < |h| && h[j].time == ViewOf(h).now
  {
    if h != [] {
      var init, e := h[..|h| - 1], h[|h| - 1];
      LatestTime(init);
      AbsorbedTime(ViewOf(init), e);
      hide ViewOf, Absorb;
      assert h == init + [e];
      ViewAppend(init, e);
      if ViewOf(h).now > 0 && ViewOf(h).now != e.time {
        var j :| 0 <= j < |init| && init[j].time == ViewOf(init).now;
        assert h[j].time == ViewOf(h).now;
      }
    }
  }

  lemma AbsorbedTime(v: View, e: Event)
    ensures Absorb(v, e).now == (if e.time > v.now then e.time else v.now)
  {
  }

  /** How a run ends when its code returns, fails, panics or cannot encode an argument. */
  lemma ToldEnd(code: Code, queue: string, input: Bytes, script: Script, e: Eval)
    ensures var told, request := EvalStep(code, queue, input, script, e), code(input, e.replies);
            && (request.Return? ==> told == Finished(e, Succeed(request.result)))
            && (request.Fail? ==> told == Finished(e, Abort(Failure(request.message, "ApplicationError"))))
            && (request.Panic? ==> told == Finished(e, Abort(Failure("workflow panic: " + request.message, "PanicError"))))
            && (request.ExecuteActivity? && request.argument.Unencodable? ==>
                  told == Finished(e, Abort(Failure("workflow panic: encode activity input: " + request.argument.message, "PanicError"))))
  {
    hide Answer, NextSignal, CallRecord, TimerIdFor, Held, Reply;
    hide PanicFailure;
    var request := code(input, e.replies);
    if request.Panic? {
      PanicReads(request.message);
    } else if request.ExecuteActivity? && request.argument.Unencodable? {
      PanicReads("encode activity input: " + request.argument.message);
      Prefixed("workflow panic: ", "encode activity input: ", request.argument.message);
      assert "workflow panic: " + "encode activity input: " == "workflow panic: encode activity input: ";
    }
  }

  lemma PanicReads(message: string)
    ensures PanicFailure(message) == Failure("workflow panic: " + message, "PanicError")
  {
  }

  lemma Prefixed(a: string, b: string, c: string)
    ensures a + (b + c) == (a + b) + c
  {
  }
}
