/**
 The order-fulfillment workflow: charge, reserve, wait out the packaging delay, ship, send a receipt.
 Each step is awaited before the next one, so the code is sequential.
 */
module Order {
  import opened Basics
  import opened History
  import opened Program
  import opened Backoff
  import opened Replay
  import opened ReplayTheorems
  import opened Growth
  import opened Log
  import opened Store
  import opened RunInvariant
  import opened System
  import opened Durability
  import opened Sequential
  import opened Progress
  import opened Totals

  datatype OrderInput = OrderInput(orderId: string, customerId: string, amountCents: int, items: seq<string>)

  datatype OrderResult = OrderResult(
    orderId: string, chargeId: string, reservationId: string, trackingNo: string, receiptId: string, status: string)

  datatype Decoded<T> = Decoded(value: T) | Malformed(message: string)

  /** The payload converter, which the workflow treats as opaque. */
  datatype Codec = Codec(
    decodeOrder: Bytes -> Decoded<OrderInput>,
    encodeOrder: OrderInput -> Bytes,
    decodeId: Bytes -> Decoded<string>,
    encodeResult: OrderResult -> Bytes)

  const ORDER_TYPE := "OrderFulfillment"

  const PACKAGING_DELAY := 5 * SECOND

  const ORDER_POLICY := RetryPolicy(SECOND, 2.0, 30 * SECOND, 5)

  const ORDER_OPTIONS := ActivityOptions("", 30 * SECOND, Some(ORDER_POLICY), "")

  const STEPS := ["ChargePayment", "ReserveInventory", "ShipOrder", "SendReceipt"]

  /** What a step's Get reports: nothing, or the error the workflow returns. */
  function StepError(codec: Codec, reply: Response): Option<string> {
    match reply
    case Value(b) => (match codec.decodeId(b) case Decoded(_) => None case Malformed(m) => Some(m))
    case ActivityError(t, m) => Some(t + ": " + m)
    case _ => None
  }

  function StepId(codec: Codec, reply: Response): string {
    if reply.Value? && codec.decodeId(reply.bytes).Decoded? then codec.decodeId(reply.bytes).value else ""
  }

  function CallStep(codec: Codec, order: OrderInput, i: nat): Request
    requires i < 4
  {
    ExecuteActivity(STEPS[i], Payload(codec.encodeOrder(order)), ORDER_OPTIONS)
  }

  function OrElse(error: Option<string>, next: Request): Request {
    if error.Some? then Fail(error.value) else next
  }

  function Fulfilled(codec: Codec, order: OrderInput, replies: seq<Response>): OrderResult
    requires |replies| == 10
  {
    OrderResult(order.orderId, StepId(codec, replies[1]), StepId(codec, replies[3]), StepId(codec, replies[7]),
                StepId(codec, replies[9]), "FULFILLED")
  }

  function OrderRequest(codec: Codec, input: Bytes, replies: seq<Response>): Request {
    match codec.decodeOrder(input)
    case Malformed(m) => Fail("decode order input: " + m)
    case Decoded(order) =>
      match |replies|
      case 0 => CallStep(codec, order, 0)
      case 1 => Get(ActivityFuture(0))
      case 2 => OrElse(StepError(codec, replies[1]), CallStep(codec, order, 1))
      case 3 => Get(ActivityFuture(1))
      case 4 => OrElse(StepError(codec, replies[3]), NewTimer(PACKAGING_DELAY))
      case 5 => Get(TimerFuture(0))
      case 6 => CallStep(codec, order, 2)
      case 7 => Get(ActivityFuture(2))
      case 8 => OrElse(StepError(codec, replies[7]), CallStep(codec, order, 3))
      case 9 => Get(ActivityFuture(3))
      case 10 => OrElse(StepError(codec, replies[9]), Return(codec.encodeResult(Fulfilled(codec, order, replies))))
      case _ => Panic("")
  }

  function OrderFulfillment(codec: Codec): Code {
    (input, replies) => OrderRequest(codec, input, replies)
  }

  lemma OrderIsStable(codec: Codec)
    ensures Stable(OrderFulfillment(codec))
  {
    hide CallStep, StepError, Fulfilled;
    forall input, replies
      ensures !ObservesAbsence(OrderFulfillment(codec)(input, replies))
    {
      RequestIsStable(codec, input, replies);
    }
  }

  lemma RequestIsStable(codec: Codec, input: Bytes, replies: seq<Response>)
    ensures !ObservesAbsence(OrderRequest(codec, input, replies)) && !OrderRequest(codec, input, replies).AwaitSignal?
  {
    hide StepError, Fulfilled;
  }

  // ---------------------------------------------------------------- the shape of every evaluation

  /** Calls made after so many answers: four activities, with the timer third. */
  function CallsAfter(answers: nat): nat {
    (answers + 1) / 2
  }

  function ActivitiesAfter(answers: nat): nat {
    if CallsAfter(answers) <= 2 then CallsAfter(answers) else CallsAfter(answers) - 1
  }

  /** The activity number of the j-th durable call. */
  function StepOf(j: nat): nat {
    if j <= 1 then j else if j == 2 then 0 else j - 1
  }

  /** The activity types of the four steps. */
  function StepType(i: nat): string
    requires i < 4
  {
    match i
    case 0 => "ChargePayment"
    case 1 => "ReserveInventory"
    case 2 => "ShipOrder"
    case _ => "SendReceipt"
  }

  /** The j-th durable call of an order: a step under its own policy, or the five-second packaging delay. */
  predicate IsStepRecord(r: Record, j: nat)
    requires j < 5
  {
    if j == 2 then r == TimerRecord("timer-" + Decimal(0), 5_000_000_000)
    else
      && r.ActivityRecord? && r.call.activityType == StepType(StepOf(j))
      && r.call.activityId == "activity-" + Decimal(StepOf(j))
      && r.call.policy == RetryPolicy(1_000_000_000, 2.0, 30_000_000_000, 5) && r.call.startToClose == 30_000_000_000
  }

  ghost predicate OrderShape(e: Eval) {
    var n := |e.replies|;
    && n <= 10
    && |e.records| == CallsAfter(n) && |e.types| == ActivitiesAfter(n)
    && (forall j :: 0 <= j < |e.records| ==> IsStepRecord(e.records[j], j))
    && (forall i :: 0 <= i < |e.types| ==> e.types[i] == StepType(i))
    && (forall j :: 0 <= j < n ==> (e.replies[j] == Handle <==> j % 2 == 0))
    && Coherent(e)
  }

  lemma CallShape(codec: Codec, queue: string, order: OrderInput, e: Eval, i: nat)
    requires OrderShape(e) && |e.replies| in {0, 2, 6, 8} && i == |e.types|
    ensures i < 4
    ensures var r := CallRecord(i, queue, STEPS[i], codec.encodeOrder(order), ORDER_OPTIONS);
            OrderShape(Reply(e.(records := e.records + [r], types := e.types + [STEPS[i]]), Handle))
  {
    var r := CallRecord(i, queue, STEPS[i], codec.encodeOrder(order), ORDER_OPTIONS);
    hide IsStepRecord, CallRecord, Coherent;
    StepRecord(codec, queue, order, |e.records|);
    CoherentCall(e, r, STEPS[i]);
  }

  lemma StepRecord(codec: Codec, queue: string, order: OrderInput, j: nat)
    requires j < 5 && j != 2
    ensures var r := CallRecord(StepOf(j), queue, STEPS[StepOf(j)], codec.encodeOrder(order), ORDER_OPTIONS);
            r.ActivityRecord? && IsStepRecord(r, j)
  {
    hide Decimal;
  }

  lemma CoherentCall(e: Eval, r: Record, t: string)
    requires Coherent(e) && r.ActivityRecord?
    ensures Coherent(Reply(e.(records := e.records + [r], types := e.types + [t]), Handle))
  {
    assert (e.records + [r])[..|e.records|] == e.records;
  }

  lemma TimerShape(e: Eval)
    requires OrderShape(e) && |e.replies| == 4
    ensures var r := TimerRecord(TimerIdFor(e.timers), WireDuration(PACKAGING_DELAY));
            OrderShape(Reply(e.(records := e.records + [r], timers := e.timers + 1), Handle))
  {
    hide Decimal;
    var r := TimerRecord(TimerIdFor(e.timers), WireDuration(PACKAGING_DELAY));
    assert (e.records + [r])[..|e.records|] == e.records;
  }

  lemma AnswerShape(e: Eval, reply: Response)
    requires OrderShape(e) && |e.replies| < 10 && |e.replies| % 2 == 1 && reply != Handle
    ensures OrderShape(Reply(e, reply))
  {
    hide IsStepRecord, StepType;
  }

  lemma StepShape(codec: Codec, queue: string, input: Bytes, script: Script, e: Eval)
    requires OrderShape(e)
    ensures OrderShape(EvalStep(OrderFulfillment(codec), queue, input, script, e).eval)
  {
    hide OrderShape, CallRecord, StepError, Fulfilled, PanicFailure, Answer, TimerIdFor;
    var n := |e.replies|;
    assert n <= 10 && |e.types| == ActivitiesAfter(n) by { ShapeSize(e); }
    if codec.decodeOrder(input).Decoded? {
      var order := codec.decodeOrder(input).value;
      if n % 2 == 1 {
        forall r: Response | r != Handle
          ensures OrderShape(Reply(e, r))
        {
          AnswerShape(e, r);
        }
        AnswersAreNotHandles(script, e);
      } else if n == 4 {
        TimerShape(e);
      } else if n < 10 {
        CallShape(codec, queue, order, e, |e.types|);
      }
    }
  }

  lemma ShapeSize(e: Eval)
    requires OrderShape(e)
    ensures |e.replies| <= 10 && |e.types| == ActivitiesAfter(|e.replies|)
  {
  }

  lemma AnswersAreNotHandles(script: Script, e: Eval)
    ensures forall f :: Held(e, f) && Answer(script, e, f).Some? ==> Answer(script, e, f).value != Handle
  {
  }

  lemma {:induction false} EvaluationShape(codec: Codec, queue: string, input: Bytes, script: Script, n: nat)
    ensures OrderShape(Evaluate(OrderFulfillment(codec), queue, input, script, n).eval)
  {
    hide EvalStep, OrderShape;
    if n == 0 {
      InitialShape();
    } else {
      EvaluationShape(codec, queue, input, script, n - 1);
      StepShape(codec, queue, input, script, Evaluate(OrderFulfillment(codec), queue, input, script, n - 1).eval);
    }
  }

  lemma InitialShape()
    ensures OrderShape(INITIAL)
  {
  }

  lemma ShapeWaits(codec: Codec, queue: string, input: Bytes, script: Script, n: nat)
    requires Evaluate(OrderFulfillment(codec), queue, input, script, n).Running?
    ensures WaitsAtOnce(OrderFulfillment(codec), input, Evaluate(OrderFulfillment(codec), queue, input, script, n).eval)
  {
    hide Evaluate, StepError, Fulfilled;
    var e := Evaluate(OrderFulfillment(codec), queue, input, script, n).eval;
    EvaluationShape(codec, queue, input, script, n);
    RequestIsStable(codec, input, e.replies);
    if e.replies != [] {
      DecodedOnceStarted(codec, queue, input, script, n);
      assert |e.replies| % 2 == 1 ==> IsStepRecord(e.records[|e.records| - 1], |e.records| - 1);
    }
  }

  /** Any answer at all means the input was decoded. */
  lemma {:induction false} DecodedOnceStarted(codec: Codec, queue: string, input: Bytes, script: Script, n: nat)
    requires Evaluate(OrderFulfillment(codec), queue, input, script, n).eval.replies != []
    ensures codec.decodeOrder(input).Decoded?
  {
    hide EvalStep, OrderFulfillment;
    var s := Evaluate(OrderFulfillment(codec), queue, input, script, n - 1);
    if s.eval.replies != [] {
      DecodedOnceStarted(codec, queue, input, script, n - 1);
    } else {
      MalformedStops(codec, queue, input, script, s.eval);
    }
  }

  lemma MalformedStops(codec: Codec, queue: string, input: Bytes, script: Script, e: Eval)
    ensures codec.decodeOrder(input).Malformed? ==> EvalStep(OrderFulfillment(codec), queue, input, script, e).eval == e
  {
    hide CallStep, StepError, Fulfilled, PanicFailure;
  }

  lemma OrderIsSequential(codec: Codec)
    ensures IsSequential(OrderFulfillment(codec))
  {
    hide Evaluate, WaitsAtOnce, Stable;
    OrderIsStable(codec);
    forall queue, input, script, n: nat | Evaluate(OrderFulfillment(codec), queue, input, script, n).Running?
      ensures WaitsAtOnce(OrderFulfillment(codec), input, Evaluate(OrderFulfillment(codec), queue, input, script, n).eval)
    {
      ShapeWaits(codec, queue, input, script, n);
    }
  }
}
