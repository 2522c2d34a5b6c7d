/** The order workflow over whole behaviours: bounded progress, and what completion means. */
module OrderTheorems {
  import opened Basics
  import opened History
  import opened Program
  import opened Backoff
  import opened Replay
  import opened ReplayTheorems
  import opened Growth
  import opened Log
  import opened Store
  import opened RunInvariant
  import opened System
  import opened Durability
  import opened Sequential
  import opened Progress
  import opened Totals
  import opened Order
  import opened Projection

  /** The order type is registered with the order workflow. */
  ghost predicate RunsOrders(reg: Registry, codec: Codec) {
    ORDER_TYPE in reg && reg[ORDER_TYPE] == OrderFulfillment(codec)
  }

  // ---------------------------------------------------------------- recorded calls of an order

  /** A log whose recorded calls begin the order sequence. */
  ghost predicate OrderRecords(rs: seq<Record>) {
    |rs| <= 5 && forall j :: 0 <= j < |rs| ==> IsStepRecord(rs[j], j)
  }

  lemma RecordsOfOrder(codec: Codec, queue: string, h: seq<Event>)
    requires Consistent(OrderFulfillment(codec), queue, h)
    ensures OrderRecords(Records(h))
    ensures ActivityCount(Records(h)) <= 4 && TimerCount(Records(h)) <= 1
  {
    hide Evaluate, Records, IsStepRecord;
    var n: nat :| ConsistentWithin(OrderFulfillment(codec), queue, h, n);
    var e := Straight(OrderFulfillment(codec), queue, h, n).eval;
    EvaluationShape(codec, queue, ViewOf(h).input, ScriptOf(ViewOf(h)), n);
    CountPrefix(Records(h), e.records);
    assert forall j :: 0 <= j < |Records(h)| ==> Records(h)[j] == e.records[j];
  }

  lemma {:induction false} ScheduledIsRecorded(h: seq<Event>, i: nat)
    requires i < |h| && h[i].attrs.ActivityScheduled?
    ensures ActivityRecord(h[i].attrs.call) in Records(h)
  {
    var init := h[..|h| - 1];
    if i < |init| {
      ScheduledIsRecorded(init, i);
      assert init[i] == h[i];
    }
  }

  lemma OrderPolicies(h: seq<Event>)
    requires OrderRecords(Records(h))
    ensures AttemptsBounded(h, 5)
  {
    hide Records;
    forall i | 0 <= i < |h| && h[i].attrs.ActivityScheduled?
      ensures 0 < PolicyOrDefault(Marshal(h[i].attrs.call.policy)).maxAttempts <= 5
    {
      ScheduledIsRecorded(h, i);
      var j :| 0 <= j < |Records(h)| && Records(h)[j] == ActivityRecord(h[i].attrs.call);
      assert IsStepRecord(Records(h)[j], j);
    }
  }

  // ---------------------------------------------------------------- bounded progress

  ghost predicate Unsignaled(h: seq<Event>) {
    forall j :: 0 <= j < |h| ==> !h[j].attrs.Signaled?
  }

  lemma {:induction false} UnsignaledCount(h: seq<Event>)
    requires Unsignaled(h)
    ensures Signals(h) == 0
  {
    if h != [] {
      UnsignaledCount(h[..|h| - 1]);
    }
  }

  lemma {:induction false} ReachableUnsignaled(reg: Registry, states: seq<System>, actions: seq<Action>, i: nat, k: RunKey)
    requires Behavior(reg, states, actions) && NeverSignaled(actions, k) && i < |states| && k in states[i].store.runs
    ensures Unsignaled(states[i].store.runs[k].history)
  {
    hide Step, Inv, NewRun;
    if i > 0 {
      assert Taken(reg, states, actions, i - 1);
      var c, a, c' := states[i - 1], actions[i - 1], states[i];
      ReachableInv(reg, states, actions, i - 1);
      if k in c.store.runs {
        ReachableUnsignaled(reg, states, actions, i - 1, k);
        StepMute(reg, c, a, c', k);
      } else {
        NewRuns(reg, c, a, c', k);
        NewRunUnsignaled(a.workflowType, a.queue, a.input, c.store.workflowSeq, c.store.now);
      }
    }
  }

  lemma NewRunUnsignaled(workflowType: string, queue: string, input: Bytes, token: nat, now: int)
    ensures Unsignaled(NewRun(workflowType, queue, input, token, now).history)
  {
  }

  /** The bound from the invariants of one state. */
  lemma OrderRunBounded(reg: Registry, codec: Codec, c: System, k: RunKey)
    requires RunsOrders(reg, codec) && Inv(reg, c) && Sound(reg, c)
    requires k in c.store.runs && c.store.runs[k].workflowType == ORDER_TYPE && Unsignaled(c.store.runs[k].history)
    ensures Milestones(c.store.runs[k].history) <= 27
  {
    hide Stable, Consistent, WellFormed, Live, TimersOf, OrderRecords, Unsignaled,
         AttemptsBounded, Records, Milestones, TokensKnown, TokensUnique, OneRunning, MessagesOk, OrderFulfillment;
    var r := c.store.runs[k];
    assert Indexed(r) && RunSound(reg, r);
    OrderIsStable(codec);
    RecordsOfOrder(codec, r.queue, r.history);
    OrderPolicies(r.history);
    UnsignaledCount(r.history);
    MilestoneBound(r.history, 5);
  }

  /**
   Bounded progress. An unsignaled order run makes at most 27 steps of progress in its whole life:
   six commits, four outcomes, sixteen retries and one timer.
   */
  lemma OrderBounded(reg: Registry, codec: Codec, states: seq<System>, actions: seq<Action>, i: nat, k: RunKey)
    requires RunsOrders(reg, codec)
    requires Behavior(reg, states, actions) && NeverSignaled(actions, k) && i < |states|
    requires k in states[i].store.runs && states[i].store.runs[k].workflowType == ORDER_TYPE
    ensures Milestones(states[i].store.runs[k].history) <= 27
  {
    hide Behavior, NeverSignaled, RunsOrders, Inv, Sound, Milestones, Unsignaled;
    ReachableInv(reg, states, actions, i);
    ReachableSound(reg, states, actions, i);
    ReachableUnsignaled(reg, states, actions, i, k);
    OrderRunBounded(reg, codec, states[i], k);
  }

  lemma {:induction false} MilestonesGrow(h: seq<Event>, h': seq<Event>)
    requires h <= h'
    ensures Milestones(h) <= Milestones(h')
  {
    if |h| < |h'| {
      MilestonesGrow(h, h'[..|h'| - 1]);
    } else {
      assert h == h';
    }
  }

  ghost function HistoryAt(c: System, k: RunKey): seq<Event> {
    if k in c.store.runs then c.store.runs[k].history else []
  }

  /** How many steps up to state i moved the run forward. */
  ghost function ProgressSteps(states: seq<System>, i: nat, k: RunKey): nat
    requires i < |states|
  {
    if i == 0 then 0 else
      ProgressSteps(states, i - 1, k) +
      (if Milestones(HistoryAt(states[i], k)) > Milestones(HistoryAt(states[i - 1], k)) then 1 else 0)
  }

  lemma {:induction false} StepsWithinMilestones(reg: Registry, states: seq<System>, actions: seq<Action>, i: nat, k: RunKey)
    requires Behavior(reg, states, actions) && i < |states|
    ensures ProgressSteps(states, i, k) <= Milestones(HistoryAt(states[i], k))
  {
    hide Step, Milestones, SameRun;
    if i > 0 {
      StepsWithinMilestones(reg, states, actions, i - 1, k);
      if k in states[i - 1].store.runs {
        AppendOnly(reg, states, actions, i - 1, i, k);
      }
      MilestonesGrow(HistoryAt(states[i - 1], k), HistoryAt(states[i], k));
    }
  }

  /** At most 27 steps of any behaviour move an unsignaled order run forward. */
  lemma OrderTerminates(reg: Registry, codec: Codec, states: seq<System>, actions: seq<Action>, i: nat, k: RunKey)
    requires RunsOrders(reg, codec)
    requires Behavior(reg, states, actions) && NeverSignaled(actions, k) && i < |states|
    requires k in states[i].store.runs && states[i].store.runs[k].workflowType == ORDER_TYPE
    ensures ProgressSteps(states, i, k) <= 27
  {
    hide Behavior, NeverSignaled, RunsOrders, Milestones;
    StepsWithinMilestones(reg, states, actions, i, k);
    OrderBounded(reg, codec, states, actions, i, k);
  }

  /** Every accepted commit to an unsignaled run of sequential code is such a step: it writes one event, a milestone. */
  lemma CommitMovesForward(reg: Registry, states: seq<System>, actions: seq<Action>, i: nat, k: RunKey)
    requires Behavior(reg, states, actions) && NeverSignaled(actions, k) && i < |actions|
    requires RunsSequentialCode(reg, states[i], k)
    requires actions[i].RespondWorkflow? && CommitsTo(states[i], actions[i].message, k, states[i + 1])
    ensures Milestones(HistoryAt(states[i + 1], k)) == Milestones(HistoryAt(states[i], k)) + 1
  {
    hide Step, Inv, Sound, NeverSignaled, IsSequential, SequentialOk, Milestones, CommitsTo;
    ReachableInv(reg, states, actions, i);
    ReachableSound(reg, states, actions, i);
    ReachableSequential(reg, states, actions, i, k);
    assert Taken(reg, states, actions, i);
    CommitAddsMilestone(reg, states[i], actions[i].message, k, states[i + 1]);
  }

  lemma CommitAddsMilestone(reg: Registry, c: System, m: Message, k: RunKey, c': System)
    requires Inv(reg, c) && Sound(reg, c) && CommitsTo(c, m, k, c')
    requires SequentialOk(c, k) && RunsSequentialCode(reg, c, k)
    ensures Milestones(HistoryAt(c', k)) == Milestones(HistoryAt(c, k)) + 1
  {
    hide Sound, SequentialOk, IsSequential, Indexed, ApplyCommands, TokensUsed, Quiet, DecidesWithin,
         TokensKnown, TokensUnique, OneRunning, AllIndexed;
    assert MessageOk(reg, c.store, m);
    CommitExclusive(reg, c, m, k, c');
    var r, r' := c.store.runs[k], c'.store.runs[k];
    AppliedMilestones(r, c.store.now, c.store.activitySeq, m.decision.commands);
    assert r'.history[..|r.history|] == r.history;
  }

  /** Commands write milestones only. */
  lemma {:induction false} AppliedMilestones(r: Run, now: int, token: nat, cs: seq<Command>)
    ensures var h' := ApplyCommands(r, now, token, cs).history;
            r.history <= h' && forall j :: |r.history| <= j < |h'| ==> IsMilestone(h'[j].attrs)
    decreases |cs|
  {
    if cs != [] && !IsTerminal(cs[0]) {
      AppliedMilestones(ApplyCommand(r, now, token, cs[0]), now, token + TokensFor(cs[0]), cs[1..]);
    }
  }

  /** So is every accepted outcome or retry: one milestone, on the run that owns the row. */
  lemma ResponseMovesForward(reg: Registry, c: System, a: Action, c': System, k: RunKey, s: int)
    requires Inv(reg, c) && Step(reg, c, a, c') && (a.RespondCompleted? || a.RespondFailed?)
    requires HoldsActivity(c.store, k, s, a.token) && OwnsActivity(c.store.runs[k], s, a.identity)
    ensures Milestones(HistoryAt(c', k)) == Milestones(HistoryAt(c, k)) + 1
  {
    hide AllIndexed, TokensKnown, OneRunning, MessagesOk, Delay, CanRetry, EffectivePolicy, Enqueue, Milestones;
    var h := c.store.runs[k].history;
    var h' := HistoryAt(c', k);
    OnlyHolder(c.store, k, s, a.token);
    EnqueueFrame();
    assert |h'| == |h| + 1 && h'[..|h|] == h && IsMilestone(h'[|h|].attrs);
    OneMilestone(h, h'[|h|]);
    assert h' == h + [h'[|h|]];
  }

  lemma OnlyHolder(s: State, k: RunKey, a: int, token: int)
    requires TokensUnique(s) && HoldsActivity(s, k, a, token)
    ensures forall k', a' :: HoldsActivity(s, k', a', token) ==> k' == k && a' == a
  {
  }

  lemma OneMilestone(h: seq<Event>, e: Event)
    requires IsMilestone(e.attrs)
    ensures Milestones(h + [e]) == Milestones(h) + 1
  {
    assert (h + [e])[..|h|] == h;
  }

  /** And every fired timer. */
  lemma FireMovesForward(s: State, k: RunKey, t: int)
    requires k in s.runs && Due(s.runs[k], t, s.now)
    ensures Milestones(FireOne(s, k, t).runs[k].history) == Milestones(s.runs[k].history) + 1
  {
    hide Milestones, Enqueue;
    EnqueueFrame();
    OneMilestone(s.runs[k].history, Event(s.runs[k].nextEventId, s.now, TimerFired(s.runs[k].timers[t].timerId, t)));
  }

  // ---------------------------------------------------------------- completion

  /** The position at which the i-th step's answer is read. */
  function AnswerAt(i: nat): nat {
    if i <= 1 then 2 * i + 1 else 2 * i + 3
  }

  /** A step whose answer was read is resolved that way; one that was passed succeeded with a readable id. */
  ghost predicate StepPassed(codec: Codec, script: Script, e: Eval, i: nat) {
    && (|e.replies| > AnswerAt(i) ==>
          && i < |script.activities| && script.activities[i].Some?
          && match script.activities[i].value
             case Success(b) => e.replies[AnswerAt(i)] == Value(b)
             case Failed(m) => i < 4 && e.replies[AnswerAt(i)] == ActivityError(StepType(i), m))
    && (|e.replies| > AnswerAt(i) + 1 ==> StepError(codec, e.replies[AnswerAt(i)]).None?)
  }

  /** At the position where a step is read, the answer is the script's. */
  lemma ReadsStep(codec: Codec, queue: string, input: Bytes, script: Script, e: Eval, i: nat)
    requires i < 4 && |e.replies| == AnswerAt(i) && (i < |e.types| ==> e.types[i] == StepType(i))
    ensures StepPassed(codec, script, EvalStep(OrderFulfillment(codec), queue, input, script, e).eval, i)
  {
    hide CallStep, StepError, PanicFailure, TimerIdFor;
  }

  /** An error answer, or one that cannot be decoded, ends the workflow. */
  lemma ErrorStops(codec: Codec, queue: string, input: Bytes, script: Script, e: Eval, i: nat)
    requires i < 4 && |e.replies| == AnswerAt(i) + 1 && StepError(codec, e.replies[AnswerAt(i)]).Some?
    ensures var s := EvalStep(OrderFulfillment(codec), queue, input, script, e);
            s.Finished? && s.close.Abort? && s.eval == e
  {
    hide CallStep, PanicFailure, TimerIdFor, StepError;
  }

  lemma StepKeepsPassed(codec: Codec, queue: string, input: Bytes, script: Script, e: Eval, i: nat)
    requires i < 4 && StepPassed(codec, script, e, i) && (i < |e.types| ==> e.types[i] == StepType(i))
    ensures StepPassed(codec, script, EvalStep(OrderFulfillment(codec), queue, input, script, e).eval, i)
  {
    hide EvalStep, OrderFulfillment, StepError;
    var e' := EvalStep(OrderFulfillment(codec), queue, input, script, e).eval;
    RepliesGrow(OrderFulfillment(codec), queue, input, script, e);
    if |e.replies| == AnswerAt(i) {
      ReadsStep(codec, queue, input, script, e, i);
    } else if |e.replies| == AnswerAt(i) + 1 && StepError(codec, e.replies[AnswerAt(i)]).Some? {
      ErrorStops(codec, queue, input, script, e, i);
    }
  }

  lemma {:induction false} EvaluationPasses(codec: Codec, queue: string, input: Bytes, script: Script, n: nat, i: nat)
    requires i < 4
    ensures StepPassed(codec, script, Evaluate(OrderFulfillment(codec), queue, input, script, n).eval, i)
  {
    hide EvalStep, StepPassed;
    if n == 0 {
      NothingRead(codec, script, i);
    } else {
      EvaluationPasses(codec, queue, input, script, n - 1, i);
      EvaluationShape(codec, queue, input, script, n - 1);
      StepKeepsPassed(codec, queue, input, script, Evaluate(OrderFulfillment(codec), queue, input, script, n - 1).eval, i);
    }
  }

  lemma NothingRead(codec: Codec, script: Script, i: nat)
    ensures StepPassed(codec, script, INITIAL, i)
  {
  }

  /** What a successful evaluation returned, and what it had read by then. */
  ghost predicate FulfilledBy(codec: Codec, input: Bytes, e: Eval, close: Close) {
    && codec.decodeOrder(input).Decoded? && |e.replies| == 10 && StepError(codec, e.replies[9]).None?
    && close == Succeed(codec.encodeResult(Fulfilled(codec, codec.decodeOrder(input).value, e.replies)))
  }

  /** Success is reported only after the last answer. */
  lemma SucceedsLast(codec: Codec, queue: string, input: Bytes, script: Script, e: Eval)
    ensures var s := EvalStep(OrderFulfillment(codec), queue, input, script, e);
            s.Finished? && s.close.Succeed? ==> FulfilledBy(codec, input, s.eval, s.close)
  {
    hide PanicFailure, TimerIdFor, CallRecord, Answer, StepError, Fulfilled;
  }

  lemma {:induction false} SuccessReadsAll(codec: Codec, queue: string, input: Bytes, script: Script, n: nat)
    requires var s := Evaluate(OrderFulfillment(codec), queue, input, script, n);
             s.Finished? && s.close.Succeed?
    ensures var s := Evaluate(OrderFulfillment(codec), queue, input, script, n);
            FulfilledBy(codec, input, s.eval, s.close)
  {
    hide EvalStep, OrderFulfillment, FulfilledBy;
    var before := Evaluate(OrderFulfillment(codec), queue, input, script, n - 1);
    if before.Running? {
      SucceedsLast(codec, queue, input, script, before.eval);
    } else {
      SuccessReadsAll(codec, queue, input, script, n - 1);
    }
  }

  predicate StepSucceeded(script: Script, i: nat) {
    i < |script.activities| && script.activities[i].Some? && script.activities[i].value.Success?
  }

  /** The id a step reported, as recorded. */
  function RecordedId(codec: Codec, script: Script, i: nat): Decoded<string>
    requires StepSucceeded(script, i)
  {
    codec.decodeId(script.activities[i].value.bytes)
  }

  /** The result of an order: the ids its four steps reported, each in its place. */
  ghost predicate IsReceipt(codec: Codec, order: OrderInput, script: Script, result: OrderResult) {
    && (forall i :: 0 <= i < 4 ==> StepSucceeded(script, i))
    && result.orderId == order.orderId && result.status == "FULFILLED"
    && RecordedId(codec, script, 0) == Decoded(result.chargeId)
    && RecordedId(codec, script, 1) == Decoded(result.reservationId)
    && RecordedId(codec, script, 2) == Decoded(result.trackingNo)
    && RecordedId(codec, script, 3) == Decoded(result.receiptId)
  }

  ghost predicate ReportsReceipt(codec: Codec, input: Bytes, script: Script, close: Close) {
    && codec.decodeOrder(input).Decoded?
    && exists result :: IsReceipt(codec, codec.decodeOrder(input).value, script, result) && close == Succeed(codec.encodeResult(result))
  }

  lemma PassedSucceeded(codec: Codec, script: Script, e: Eval, i: nat)
    requires StepPassed(codec, script, e, i) && |e.replies| > AnswerAt(i) && StepError(codec, e.replies[AnswerAt(i)]).None?
    ensures StepSucceeded(script, i) && RecordedId(codec, script, i) == Decoded(StepId(codec, e.replies[AnswerAt(i)]))
  {
  }

  /** An order that evaluates to success made all five calls, saw four successes and returns their ids. */
  lemma FulfilledOrder(codec: Codec, queue: string, input: Bytes, script: Script, n: nat)
    requires var s := Evaluate(OrderFulfillment(codec), queue, input, script, n);
             s.Finished? && s.close.Succeed?
    ensures var e := Evaluate(OrderFulfillment(codec), queue, input, script, n).eval;
            OrderRecords(e.records) && |e.records| == 5 && ActivityCount(e.records) == 4
    ensures forall i :: 0 <= i < 4 ==> StepSucceeded(script, i)
    ensures ReportsReceipt(codec, input, script, Evaluate(OrderFulfillment(codec), queue, input, script, n).close)
  {
    hide Evaluate, IsStepRecord, StepError, StepId, StepPassed, StepSucceeded, RecordedId;
    var s := Evaluate(OrderFulfillment(codec), queue, input, script, n);
    SuccessReadsAll(codec, queue, input, script, n);
    EvaluationShape(codec, queue, input, script, n);
    forall i | 0 <= i < 4
      ensures StepSucceeded(script, i) && RecordedId(codec, script, i) == Decoded(StepId(codec, s.eval.replies[AnswerAt(i)]))
    {
      EvaluationPasses(codec, queue, input, script, n, i);
      PassedWithoutError(codec, script, s.eval, i);
      PassedSucceeded(codec, script, s.eval, i);
    }
    assert IsReceipt(codec, codec.decodeOrder(input).value, script, Fulfilled(codec, codec.decodeOrder(input).value, s.eval.replies));
  }

  lemma PassedWithoutError(codec: Codec, script: Script, e: Eval, i: nat)
    requires i < 4 && StepPassed(codec, script, e, i) && |e.replies| == 10 && StepError(codec, e.replies[9]).None?
    ensures StepError(codec, e.replies[AnswerAt(i)]).None?
  {
    hide StepError;
  }

  // ---------------------------------------------------------------- payloads and failures

  /** Every activity of the order is handed the order itself, on the run's queue. */
  ghost predicate OrderPayloads(codec: Codec, queue: string, input: Bytes, records: seq<Record>) {
    forall j :: 0 <= j < |records| && records[j].ActivityRecord? ==>
      codec.decodeOrder(input).Decoded? && records[j].call.queue == queue
      && records[j].call.input == codec.encodeOrder(codec.decodeOrder(input).value)
  }

  lemma StepPayload(codec: Codec, queue: string, input: Bytes, script: Script, e: Eval)
    requires OrderPayloads(codec, queue, input, e.records)
    ensures OrderPayloads(codec, queue, input, EvalStep(OrderFulfillment(codec), queue, input, script, e).eval.records)
  {
    hide StepError, Fulfilled, PanicFailure, Answer, TimerIdFor, ActivityIdFor;
  }

  lemma {:induction false} EvaluationPayloads(codec: Codec, queue: string, input: Bytes, script: Script, n: nat)
    ensures OrderPayloads(codec, queue, input, Evaluate(OrderFulfillment(codec), queue, input, script, n).eval.records)
  {
    hide EvalStep, OrderFulfillment;
    if n > 0 {
      EvaluationPayloads(codec, queue, input, script, n - 1);
      StepPayload(codec, queue, input, script, Evaluate(OrderFulfillment(codec), queue, input, script, n - 1).eval);
    }
  }

  /** In every reachable state the activities of an order run carry its decoded input, and only then exist. */
  lemma OrderRunPayloads(reg: Registry, codec: Codec, states: seq<System>, actions: seq<Action>, i: nat, k: RunKey)
    requires RunsOrders(reg, codec) && Behavior(reg, states, actions) && i < |states|
    requires k in states[i].store.runs && states[i].store.runs[k].workflowType == ORDER_TYPE
    ensures var r := states[i].store.runs[k];
            OrderRecords(Records(r.history)) && OrderPayloads(codec, r.queue, r.input, Records(r.history))
  {
    hide Step, Behavior, Stable, Consistent, Evaluate, WellFormed, Live, TimersOf, Records, ViewOf, ScriptOf, OrderFulfillment, StatusOf, OrderRecords,
         TokensKnown, TokensUnique, OneRunning, MessagesOk;
    ReachableInv(reg, states, actions, i);
    ReachableSound(reg, states, actions, i);
    var r := states[i].store.runs[k];
    assert Indexed(r) && RunSound(reg, r);
    OrderIsStable(codec);
    RunInput(r);
    RecordsOfOrder(codec, r.queue, r.history);
    PayloadsOfLog(codec, r.queue, r.history);
  }

  lemma PayloadsOfLog(codec: Codec, queue: string, h: seq<Event>)
    requires Consistent(OrderFulfillment(codec), queue, h)
    ensures OrderPayloads(codec, queue, ViewOf(h).input, Records(h))
  {
    hide Evaluate, Records, ViewOf, ScriptOf, OrderFulfillment;
    var n: nat :| ConsistentWithin(OrderFulfillment(codec), queue, h, n);
    EvaluationPayloads(codec, queue, ViewOf(h).input, ScriptOf(ViewOf(h)), n);
    var all := Straight(OrderFulfillment(codec), queue, h, n).eval.records;
    assert forall j :: 0 <= j < |Records(h)| ==> Records(h)[j] == all[j];
  }

  /** Why an order failed: the input, a failed step or an id that cannot be read. */
  ghost predicate ExplainsFailure(codec: Codec, input: Bytes, script: Script, f: Failure) {
    && f.kind == "ApplicationError"
    && if codec.decodeOrder(input).Malformed? then f.message == "decode order input: " + codec.decodeOrder(input).message
       else exists i :: 0 <= i < 4 && StepFailed(codec, script, i, f.message)
  }

  predicate StepFailed(codec: Codec, script: Script, i: nat, message: string) {
    i < 4 && i < |script.activities| && script.activities[i].Some?
    && match script.activities[i].value
       case Failed(m) => message == StepType(i) + ": " + m
       case Success(b) => codec.decodeId(b).Malformed? && message == codec.decodeId(b).message
  }

  lemma StepExplains(codec: Codec, queue: string, input: Bytes, script: Script, e: Eval)
    requires OrderShape(e) && forall i :: 0 <= i < 4 ==> StepPassed(codec, script, e, i)
    ensures var s := EvalStep(OrderFulfillment(codec), queue, input, script, e);
            s.Finished? && s.close.Abort? ==> ExplainsFailure(codec, input, script, s.close.failure)
  {
    hide CallRecord, TimerIdFor, IsStepRecord, Answer, Fulfilled, StepPassed, PanicFailure;
    var n := |e.replies|;
    if codec.decodeOrder(input).Decoded? {
      if n % 2 == 1 {
        FutureHeld(e);
      } else if n in {2, 4, 8, 10} {
        var i := if n == 2 then 0 else if n == 4 then 1 else if n == 8 then 2 else 3;
        if StepError(codec, e.replies[AnswerAt(i)]).Some? {
          ErrorExplained(codec, script, e, i);
        }
      }
    }
  }

  /** What is waited for at an odd position has been asked for. */
  lemma FutureHeld(e: Eval)
    requires OrderShape(e) && |e.replies| % 2 == 1
    ensures |e.replies| == 5 ==> e.timers > 0
    ensures |e.replies| in {1, 3, 7, 9} ==> |e.types| > (if |e.replies| <= 3 then |e.replies| / 2 else |e.replies| / 2 - 1)
  {
    hide IsStepRecord;
  }

  lemma ErrorExplained(codec: Codec, script: Script, e: Eval, i: nat)
    requires i < 4 && |e.replies| == AnswerAt(i) + 1 && StepPassed(codec, script, e, i)
    requires StepError(codec, e.replies[AnswerAt(i)]).Some?
    ensures StepFailed(codec, script, i, StepError(codec, e.replies[AnswerAt(i)]).value)
  {
  }

  /**
   A failed order says why: the decoding error of its input, the type and message of the step that
   failed, or the decoding error of the id a step reported.
   */
  lemma {:induction false} FailedOrder(codec: Codec, queue: string, input: Bytes, script: Script, n: nat)
    requires var s := Evaluate(OrderFulfillment(codec), queue, input, script, n); s.Finished? && s.close.Abort?
    ensures ExplainsFailure(codec, input, script, Evaluate(OrderFulfillment(codec), queue, input, script, n).close.failure)
  {
    hide EvalStep, OrderFulfillment, ExplainsFailure, StepPassed, OrderShape;
    var before := Evaluate(OrderFulfillment(codec), queue, input, script, n - 1);
    if before.Running? {
      EvaluationShape(codec, queue, input, script, n - 1);
      forall i | 0 <= i < 4
        ensures StepPassed(codec, script, before.eval, i)
      {
        EvaluationPasses(codec, queue, input, script, n - 1, i);
      }
      StepExplains(codec, queue, input, script, before.eval);
    } else {
      FailedOrder(codec, queue, input, script, n - 1);
    }
  }

  /** In every reachable state the close of a FAILED order says why. */
  lemma OrderFailed(reg: Registry, codec: Codec, states: seq<System>, actions: seq<Action>, i: nat, k: RunKey)
    requires RunsOrders(reg, codec) && Behavior(reg, states, actions) && i < |states|
    requires k in states[i].store.runs && states[i].store.runs[k].workflowType == ORDER_TYPE
    requires states[i].store.runs[k].status == StatusFailed
    ensures var r := states[i].store.runs[k];
            && CloseOf(r.history).Some? && CloseOf(r.history).value.Abort?
            && ExplainsFailure(codec, r.input, ScriptOf(ViewOf(r.history)), CloseOf(r.history).value.failure)
  {
    hide Step, Behavior, Stable, Evaluate, ViewOf, ScriptOf, OrderFulfillment, CloseOf, ExplainsFailure;
    OrderIsStable(codec);
    var n := CrashResume(reg, states, actions, i, k);
    var r := states[i].store.runs[k];
    FailedOrder(codec, r.queue, r.input, ScriptOf(ViewOf(r.history)), n);
  }

  // ---------------------------------------------------------------- what completion means for the log

  function Completions(h: seq<Event>): nat {
    if h == [] then 0 else Completions(h[..|h| - 1]) + (if h[|h| - 1].attrs.ActivityCompleted? then 1 else 0)
  }

  ghost predicate AllCompleted(h: seq<Event>) {
    forall s :: SchedulesAt(h, s) ==> exists j :: CompletesAt(h, j, s)
  }

  /** When the first |activities| entries all succeeded, every scheduled activity has a completion. */
  lemma SucceededCompletes(h: seq<Event>)
    requires WellFormed(h)
    requires forall n :: 0 <= n < |ViewOf(h).activities| ==> StepSucceeded(ScriptOf(ViewOf(h)), n)
    ensures AllCompleted(h)
  {
    hide WellFormed, ViewOf, Records, ActivityCount;
    forall s | SchedulesAt(h, s)
      ensures exists j :: CompletesAt(h, j, s)
    {
      var n := EntryOf(h, s);
      assert StepSucceeded(ScriptOf(ViewOf(h)), n);
    }
  }

  /** With a completion for every scheduled activity there is room for no failure and no live row. */
  lemma CompletedLeavesNothing(h: seq<Event>)
    requires WellFormed(h) && AllCompleted(h)
    ensures Live(h) == map[] && forall j :: 0 <= j < |h| ==> !h[j].attrs.ActivityFailed?
  {
    hide WellFormed, Live, AllCompleted;
    forall s | s in Live(h)
      ensures false
    {
      LiveOrigin(h, s);
      UnresolvedUnnamed(h, s);
      var j := CompletionOf(h, s);
    }
    forall j | 0 <= j < |h| && h[j].attrs.ActivityFailed?
      ensures false
    {
      FailedIsNotCompleted(h, j);
      var i := CompletionOf(h, h[j].attrs.scheduledId);
    }
  }

  lemma CompletionOf(h: seq<Event>, s: int) returns (j: int)
    requires AllCompleted(h) && SchedulesAt(h, s)
    ensures CompletesAt(h, j, s)
  {
    j :| CompletesAt(h, j, s);
  }

  /** Outcomes exclude one another. */
  lemma FailedIsNotCompleted(h: seq<Event>, j: nat)
    requires WellFormed(h) && j < |h| && h[j].attrs.ActivityFailed?
    ensures var s := h[j].attrs.scheduledId;
            SchedulesAt(h, s) && forall i :: !CompletesAt(h, i, s)
  {
    hide WellFormed, Live, TimersOf, Closed;
    var s := h[j].attrs.scheduledId;
    PrefixWellFormed(h, j);
    LiveOrigin(h[..j], s);
    forall i | CompletesAt(h, i, s)
      ensures false
    {
      PrefixWellFormed(h, i);
      if i < j {
        assert CompletesAt(h[..j], i, s);
        UnresolvedUnnamed(h[..j], s);
      } else {
        assert FailsAt(h[..i], j, s);
        UnresolvedUnnamed(h[..i], s);
      }
    }
  }

  lemma {:induction false} OutcomesAreCompletions(h: seq<Event>)
    requires forall j :: 0 <= j < |h| ==> !h[j].attrs.ActivityFailed?
    ensures Completions(h) == Outcomes(h)
  {
    if h != [] {
      OutcomesAreCompletions(h[..|h| - 1]);
    }
  }

  /**
   A COMPLETED order, under any schedule of crashes, redeliveries and retries, recorded exactly its
   four activities and its timer, has exactly four completed events, one for each, and no row left, and
   its result holds the id each step reported.
   */
  lemma OrderCompleted(reg: Registry, codec: Codec, states: seq<System>, actions: seq<Action>, i: nat, k: RunKey)
    requires RunsOrders(reg, codec)
    requires Behavior(reg, states, actions) && i < |states|
    requires k in states[i].store.runs && states[i].store.runs[k].workflowType == ORDER_TYPE
    requires states[i].store.runs[k].status == StatusCompleted
    ensures var r := states[i].store.runs[k];
            && |Records(r.history)| == 5 && OrderRecords(Records(r.history))
            && AllCompleted(r.history) && Completions(r.history) == 4 && r.activities == map[]
            && CloseOf(r.history).Some? && ReportsReceipt(codec, r.input, ScriptOf(ViewOf(r.history)), CloseOf(r.history).value)
  {
    hide Step, Behavior, Stable, Evaluate, WellFormed, Live, TimersOf, Records, ViewOf, ScriptOf, OrderRecords, Completions, AllCompleted,
         TokensKnown, TokensUnique, OneRunning, MessagesOk, OrderFulfillment, ActivityCount, StatusOf, Closed, CloseOf, StepSucceeded, ReportsReceipt;
    var r := states[i].store.runs[k];
    ReachableInv(reg, states, actions, i);
    assert Indexed(r);
    OrderIsStable(codec);
    var n := CrashResume(reg, states, actions, i, k);
    FulfilledOrder(codec, r.queue, r.input, ScriptOf(ViewOf(r.history)), n);
    ProjectedCounts(r.history);
    SucceededCompletes(r.history);
    CompletedLeavesNothing(r.history);
    Balance(r.history);
    OutcomesAreCompletions(r.history);
    assert r.activities.Keys == Columns(r.activities).Keys;
    assert |Live(r.history)| == 0;
  }
}
