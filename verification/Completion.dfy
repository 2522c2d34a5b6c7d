/**
 Orders can always be finished. From every reachable state with an open, unsignaled order there is a way
 to go on that closes it, and one that completes it if no step has failed. The way is built move by move:
 hand out and answer whatever is outstanding, which is always exactly one thing.
 */
module Completion {
  import opened Basics
  import opened History
  import opened Program
  import opened Backoff
  import opened Replay
  import opened ReplayTheorems
  import opened Growth
  import opened Log
  import opened Store
  import opened RunInvariant
  import opened System
  import opened Durability
  import opened Sequential
  import opened Progress
  import opened Totals
  import opened Order
  import opened Projection
  import opened OrderTheorems
  import opened Ledger
  import opened Extensions

  // ---------------------------------------------------------------- paths

  ghost predicate Path(reg: Registry, worlds: seq<World>, moves: seq<Move>) {
    && |worlds| == |moves| + 1
    && forall i: nat :: i < |moves| ==> Moved(reg, worlds, moves, i)
  }

  function Last<T>(s: seq<T>): T
    requires s != []
  {
    s[|s| - 1]
  }

  /** The workers and the clock alone act: nobody starts or signals anything. */
  ghost predicate Unforced(m: Move) {
    m.Engine? ==> !m.action.Start? && !m.action.Signal?
  }

  ghost predicate AllUnforced(moves: seq<Move>) {
    forall i :: 0 <= i < |moves| ==> Unforced(moves[i])
  }

  lemma OneMove(reg: Registry, w: World, m: Move, w': World)
    requires WorldStep(reg, w, m, w')
    ensures Path(reg, [w, w'], [m])
  {
    hide WorldStep;
  }

  lemma Join(reg: Registry, first: seq<World>, moves1: seq<Move>, second: seq<World>, moves2: seq<Move>)
    returns (worlds: seq<World>, moves: seq<Move>)
    requires Path(reg, first, moves1) && Path(reg, second, moves2) && Last(first) == second[0]
    ensures Path(reg, worlds, moves) && worlds[0] == first[0] && Last(worlds) == Last(second)
    ensures moves == moves1 + moves2 && first <= worlds
    ensures AllUnforced(moves1) && AllUnforced(moves2) ==> AllUnforced(moves)
  {
    hide WorldStep, Unforced;
    worlds, moves := first + second[1..], moves1 + moves2;
    forall i: nat | i < |moves|
      ensures Moved(reg, worlds, moves, i)
    {
      if i >= |moves1| {
        assert Moved(reg, second, moves2, i - |moves1|);
      } else {
        assert Moved(reg, first, moves1, i);
      }
    }
  }

  // ---------------------------------------------------------------- an open order

  /** A behaviour that leads here without anybody signaling the run. */
  ghost predicate Reaches(reg: Registry, states: seq<System>, actions: seq<Action>, k: RunKey, c: System) {
    Behavior(reg, states, actions) && NeverSignaled(actions, k) && states[|actions|] == c
  }

  /** An unsignaled order in a reachable state. */
  ghost predicate Healthy(reg: Registry, codec: Codec, w: World, k: RunKey) {
    && RunsOrders(reg, codec)
    && (exists states, actions :: Reaches(reg, states, actions, k, w.system))
    && k in w.system.store.runs && w.system.store.runs[k].workflowType == ORDER_TYPE
  }

  ghost function LogOf(w: World, k: RunKey): seq<Event> {
    HistoryAt(w.system, k)
  }

  lemma OrdersAreSequential(reg: Registry, codec: Codec, c: System, k: RunKey)
    requires RunsOrders(reg, codec) && k in c.store.runs && c.store.runs[k].workflowType == ORDER_TYPE
    ensures RunsSequentialCode(reg, c, k)
  {
    hide IsSequential;
    OrderIsSequential(codec);
  }

  /** What such states keep. */
  lemma Facts(reg: Registry, codec: Codec, w: World, k: RunKey)
    requires Healthy(reg, codec, w, k)
    ensures Inv(reg, w.system) && Sound(reg, w.system) && SequentialOk(w.system, k)
    ensures Unsignaled(w.system.store.runs[k].history)
  {
    hide Step, NeverSignaled, RunsOrders, Inv, Sound, SequentialOk, Unsignaled;
    var states, actions :| Reaches(reg, states, actions, k, w.system);
    var i := |actions|;
    ReachableInv(reg, states, actions, i);
    ReachableSound(reg, states, actions, i);
    ReachableUnsignaled(reg, states, actions, i, k);
    OrdersAreSequential(reg, codec, states[i], k);
    ReachableSequential(reg, states, actions, i, k);
  }

  lemma OneMoreStep(reg: Registry, c: System, a: Action, c': System, k: RunKey, states: seq<System>, actions: seq<Action>)
    requires Reaches(reg, states, actions, k, c) && Step(reg, c, a, c') && !a.Signal?
    ensures Reaches(reg, states + [c'], actions + [a], k, c')
  {
    hide Step;
    Extended(reg, states, actions, a, c');
  }

  lemma StepHealthy(reg: Registry, codec: Codec, w: World, m: Move, w': World, k: RunKey)
    requires Healthy(reg, codec, w, k) && WorldStep(reg, w, m, w') && Unforced(m)
    ensures Healthy(reg, codec, w', k)
    ensures LogOf(w, k) <= LogOf(w', k)
    ensures w'.system.store.runs[k].input == w.system.store.runs[k].input
  {
    hide Step, Inv, Sound, SequentialOk, Unsignaled, RunsOrders, Reaches;
    if m.Engine? {
      Facts(reg, codec, w, k);
      StepAppends(reg, w.system, m.action, w'.system, k);
      var states, actions :| Reaches(reg, states, actions, k, w.system);
      OneMoreStep(reg, w.system, m.action, w'.system, k, states, actions);
    }
  }

  // ---------------------------------------------------------------- orders always decide

  lemma {:induction false} RunningCounts(code: Code, queue: string, input: Bytes, script: Script, n: nat)
    requires Evaluate(code, queue, input, script, n).Running?
    ensures |Evaluate(code, queue, input, script, n).eval.replies| == n
  {
    hide EvalStep;
    if n > 0 {
      RunningCounts(code, queue, input, script, n - 1);
      StepReplies(code, queue, input, script, Evaluate(code, queue, input, script, n - 1).eval);
    }
  }

  lemma StepReplies(code: Code, queue: string, input: Bytes, script: Script, e: Eval)
    ensures var s := EvalStep(code, queue, input, script, e);
            s.Running? ==> |s.eval.replies| == |e.replies| + 1
  {
    hide CallRecord, PanicFailure, Answer, TimerIdFor, NextSignal;
  }

  /** Order code stops within eleven calls, so replay of a consistent open log reaches a decision. */
  lemma OrderDecides(codec: Codec, queue: string, h: seq<Event>) returns (d: Decision, n: nat)
    requires Consistent(OrderFulfillment(codec), queue, h) && !Closed(h)
    ensures DecidesWithin(OrderFulfillment(codec), queue, h, d, n)
  {
    hide Evaluate, ReplayRun, ViewOf, ScriptOf, Records, Closed, Projects, OrderFulfillment, Matches;
    var code, v := OrderFulfillment(codec), ViewOf(h);
    var k: nat :| ConsistentWithin(code, queue, h, k);
    n := k + 11;
    RunGrows(code, queue, v.input, ScriptOf(v), k, n);
    if Evaluate(code, queue, v.input, ScriptOf(v), n).Running? {
      RunningCounts(code, queue, v.input, ScriptOf(v), n);
      EvaluationShape(codec, queue, v.input, ScriptOf(v), n);
      ShapeSize(Evaluate(code, queue, v.input, ScriptOf(v), n).eval);
      assert false;
    }
    ViewProjects(h);
    Lockstep(code, queue, v, Records(h), n, n);
    d := DecisionOf(ReplayRun(code, queue, v, n));
  }

  // ---------------------------------------------------------------- one step forward

  function Wait(until: int, now: int): nat {
    if until > now then until - now else 0
  }

  function Until(lockedUntil: Option<int>, visibleAt: int): int {
    if lockedUntil.Some? && lockedUntil.value > visibleAt then lockedUntil.value else visibleAt
  }

  /** No step has failed, and every reported id can be read. */
  ghost predicate Happy(codec: Codec, h: seq<Event>) {
    forall j :: 0 <= j < |h| ==> HappyEvent(codec, h[j].attrs)
  }

  predicate HappyEvent(codec: Codec, a: Attributes) {
    !a.ActivityFailed? && (a.ActivityCompleted? ==> codec.decodeId(a.result).Decoded?)
  }

  /** The log grew by one milestone, and stayed happy given a readable id. */
  ghost predicate Forward(codec: Codec, id: Bytes, h: seq<Event>, h': seq<Event>) {
    && Milestones(h') == Milestones(h) + 1
    && (Happy(codec, h) && codec.decodeId(id).Decoded? ==> Happy(codec, h'))
  }

  /** Commits write calls and closes, never outcomes. */
  lemma {:induction false} CommitHappy(codec: Codec, r: Run, now: int, token: nat, cs: seq<Command>)
    requires Happy(codec, r.history)
    ensures Happy(codec, ApplyCommands(r, now, token, cs).history)
    decreases |cs|
  {
    if cs != [] && !IsTerminal(cs[0]) {
      CommitHappy(codec, ApplyCommand(r, now, token, cs[0]), now, token + TokensFor(cs[0]), cs[1..]);
    }
  }

  lemma TickWorld(reg: Registry, w: World, elapsed: nat) returns (w': World)
    ensures w' == w.(system := w.system.(store := w.system.store.(now := w.system.store.now + elapsed)))
    ensures WorldStep(reg, w, Engine(Tick(elapsed)), w') && Unforced(Engine(Tick(elapsed)))
  {
    w' := w.(system := w.system.(store := w.system.store.(now := w.system.store.now + elapsed)));
  }

  /** A pending task: poll it and commit the decision. */
  lemma DecideOrder(reg: Registry, codec: Codec, w: World, k: RunKey, id: Bytes) returns (worlds: seq<World>, moves: seq<Move>)
    requires Healthy(reg, codec, w, k) && w.system.store.runs[k].task.Some?
    ensures Path(reg, worlds, moves) && worlds[0] == w && AllUnforced(moves)
    ensures Healthy(reg, codec, Last(worlds), k) && Forward(codec, id, LogOf(w, k), LogOf(Last(worlds), k))
  {
    hide Step, WorldStep, Honest, Sound, Inv, SequentialOk, Unsignaled, CompleteWorkflowTask, Milestones, Happy, Path, RunsOrders;
    var c0 := w.system;
    var task := c0.store.runs[k].task.value;
    var elapsed := Wait(Until(task.lockedUntil, task.visibleAt), c0.store.now);
    var w1 := TickWorld(reg, w, elapsed);
    StepHealthy(reg, codec, w, Engine(Tick(elapsed)), w1, k);
    Facts(reg, codec, w1, k);
    var m := HonestOrder(reg, codec, w1.system, k);
    var w2 := w1.(system := w1.system.(store := PollWorkflowTask(w1.system.store, k, "w", 1), sent := w1.system.sent + {m}));
    Handed(reg, w1.system, k, 1, m);
    var poll := Engine(PollWorkflow(k, "w", 1, {m}));
    EngineStep(reg, w1, poll, w2);
    StepHealthy(reg, codec, w1, poll, w2, k);
    var w3 := w2.(system := w2.system.(store := CompleteWorkflowTask(w2.system.store, k, "w", m.decision.commands).0));
    var respond := Engine(RespondWorkflow(m));
    Decides(reg, w2.system, k, m);
    EngineStep(reg, w2, respond, w3);
    StepHealthy(reg, codec, w2, respond, w3, k);
    Facts(reg, codec, w2, k);
    OrdersAreSequential(reg, codec, w2.system, k);
    CommitAddsMilestone(reg, w2.system, m, k, w3.system);
    CommittedHappy(codec, w2.system, m, k, w3.system);
    worlds, moves := ThreeMoves(reg, w, Engine(Tick(elapsed)), w1, poll, w2, respond, w3);
  }

  /** The message a worker would send for this task. */
  lemma HonestOrder(reg: Registry, codec: Codec, c: System, k: RunKey) returns (m: Message)
    requires RunsOrders(reg, codec) && Inv(reg, c) && Sound(reg, c) && SequentialOk(c, k)
    requires k in c.store.runs && c.store.runs[k].workflowType == ORDER_TYPE && c.store.runs[k].task.Some?
    ensures m.identity == "w" && Honest(reg, c.store, k, "w", m)
  {
    hide WellFormed, Live, TimersOf, Consistent, DecidesWithin, OrderFulfillment, Stable, Closed,
         TokensKnown, TokensUnique, OneRunning, MessagesOk, Fresh, StatusOf;
    var r := c.store.runs[k];
    assert Indexed(r) && RunSound(reg, r);
    OrderIsStable(codec);
    NoneOutstanding(r.history);
    var d, n := OrderDecides(codec, r.queue, r.history);
    m := Message(r.task.value.taskId, "w", d, k, r.workflowType, r.task.value.queue, r.history, n);
  }

  lemma CommittedHappy(codec: Codec, c: System, m: Message, k: RunKey, c': System)
    requires CommitsTo(c, m, k, c')
    ensures k in c'.store.runs && (Happy(codec, c.store.runs[k].history) ==> Happy(codec, c'.store.runs[k].history))
  {
    hide Happy, ApplyCommands, TokensUsed;
    if Happy(codec, c.store.runs[k].history) {
      CommitHappy(codec, c.store.runs[k], c.store.now, c.store.activitySeq, m.decision.commands);
    }
  }

  /** Moves of the engine that neither deliver nor complete an activity leave the rest of the world alone. */
  lemma EngineStep(reg: Registry, w: World, m: Move, w': World)
    requires m.Engine? && !m.action.RespondCompleted? && !m.action.PollActivity?
    requires Step(reg, w.system, m.action, w'.system) && w' == w.(system := w'.system)
    ensures WorldStep(reg, w, m, w')
  {
    hide Step;
  }

  lemma ThreeMoves(reg: Registry, w0: World, m0: Move, w1: World, m1: Move, w2: World, m2: Move, w3: World)
    returns (worlds: seq<World>, moves: seq<Move>)
    requires WorldStep(reg, w0, m0, w1) && WorldStep(reg, w1, m1, w2) && WorldStep(reg, w2, m2, w3)
    requires Unforced(m0) && Unforced(m1) && Unforced(m2)
    ensures Path(reg, worlds, moves) && worlds[0] == w0 && Last(worlds) == w3 && AllUnforced(moves)
  {
    hide WorldStep, Unforced;
    worlds, moves := [w0, w1, w2, w3], [m0, m1, m2];
  }

  /** A live activity: hand it out, perform it, report its result. */
  lemma PerformOrder(reg: Registry, codec: Codec, w: World, k: RunKey, s: int, id: Bytes) returns (worlds: seq<World>, moves: seq<Move>)
    requires Healthy(reg, codec, w, k) && s in w.system.store.runs[k].activities
    ensures Path(reg, worlds, moves) && worlds[0] == w && AllUnforced(moves)
    ensures Healthy(reg, codec, Last(worlds), k) && Forward(codec, id, LogOf(w, k), LogOf(Last(worlds), k))
  {
    hide Step, Sound, Inv, SequentialOk, Unsignaled, LeaseActivity, CompleteActivityTask, Milestones, Happy, Path, RunsOrders, Ledger.Record;
    var c0 := w.system;
    var row := c0.store.runs[k].activities[s];
    var elapsed := Wait(Until(row.lockedUntil, row.columns.visibleAt), c0.store.now);
    var tick := Engine(Tick(elapsed));
    var w1 := TickWorld(reg, w, elapsed);
    StepHealthy(reg, codec, w, tick, w1, k);
    var poll := Engine(PollActivity(k, s, "w", 1));
    var d := DeliveryOf(w1.system.store, k, s);
    var w2 := w1.(system := w1.system.(store := PollActivityTask(w1.system.store, k, s, "w", 1)), handed := w1.handed + {d});
    Leased(reg, w1.system, k, s, "w", 1);
    StepHealthy(reg, codec, w1, poll, w2, k);
    LeaseIsQuiet(codec, w1.system.store.runs[k], s, w1.system.store.now, "w", 1);
    var w3 := PerformWorld(reg, w2, d);
    StepHealthy(reg, codec, w2, Perform(d), w3, k);
    var respond := Engine(RespondCompleted(d.token, "w", id));
    var w4 := w3.(system := w3.system.(store := CompleteActivityTask(w3.system.store, k, s, "w", id).0));
    Responds(reg, w3.system, k, s, "w", id);
    StepHealthy(reg, codec, w3, respond, w4, k);
    assert HoldsActivity(w3.system.store, k, s, d.token) && OwnsActivity(w3.system.store.runs[k], s, "w");
    Facts(reg, codec, w3, k);
    ResponseMovesForward(reg, w3.system, respond.action, w4.system, k, s);
    ResultHappy(codec, w3.system.store, k, s, "w", id);
    var front, frontMoves := ThreeMoves(reg, w, tick, w1, poll, w2, Perform(d), w3);
    OneMove(reg, w3, respond, w4);
    worlds, moves := Join(reg, front, frontMoves, [w3, w4], [respond]);
  }

  lemma PerformWorld(reg: Registry, w: World, d: Delivery) returns (w': World)
    requires d in w.handed
    ensures WorldStep(reg, w, Perform(d), w') && w'.system == w.system && d.token in w'.performed
  {
    hide Step;
    w' := w.(ledger := if WritesLedger(d.activityType) then Ledger.Record(w.ledger, KeyOf(d), Effect(d.activityType, d.attempt)) else w.ledger,
             performed := w.performed + {d.token});
  }

  /** A hand-out writes a started event at most, which is no milestone and no outcome. */
  lemma LeaseIsQuiet(codec: Codec, r: Run, s: int, now: int, identity: string, lease: int)
    requires s in r.activities
    ensures var r' := LeaseActivity(r, s, now, identity, lease);
            Milestones(r'.history) == Milestones(r.history) && (Happy(codec, r.history) ==> Happy(codec, r'.history))
            && s in r'.activities && r'.activities[s].taskId == r.activities[s].taskId
  {
    var r' := LeaseActivity(r, s, now, identity, lease);
    if r'.history != r.history {
      assert r'.history[..|r.history|] == r.history;
    }
  }

  lemma ResultHappy(codec: Codec, s: State, k: RunKey, a: int, identity: string, id: Bytes)
    requires k in s.runs && a in s.runs[k].activities
    ensures var s' := CompleteActivityTask(s, k, a, identity, id).0;
            k in s'.runs
            && (Happy(codec, s.runs[k].history) && codec.decodeId(id).Decoded? ==> Happy(codec, s'.runs[k].history))
  {
    hide Enqueue;
    EnqueueFrame();
  }

  /** An unfired timer: wait for it and fire it. */
  lemma FireOrder(reg: Registry, codec: Codec, w: World, k: RunKey, t: int, id: Bytes) returns (worlds: seq<World>, moves: seq<Move>)
    requires Healthy(reg, codec, w, k) && t in w.system.store.runs[k].timers && !w.system.store.runs[k].timers[t].fired
    ensures Path(reg, worlds, moves) && worlds[0] == w && AllUnforced(moves)
    ensures Healthy(reg, codec, Last(worlds), k) && Forward(codec, id, LogOf(w, k), LogOf(Last(worlds), k))
  {
    hide Step, WorldStep, Sound, Inv, SequentialOk, Unsignaled, FireOne, Milestones, Happy, Path, RunsOrders;
    var elapsed := Wait(w.system.store.runs[k].timers[t].fireAt, w.system.store.now);
    var tick := Engine(Tick(elapsed));
    var w1 := TickWorld(reg, w, elapsed);
    StepHealthy(reg, codec, w, tick, w1, k);
    var fire := Engine(FireTimers([(k, t)]));
    var w2 := w1.(system := w1.system.(store := FireOne(w1.system.store, k, t)));
    FiresAlone(reg, w1.system, k, t);
    EngineStep(reg, w1, fire, w2);
    StepHealthy(reg, codec, w1, fire, w2, k);
    FireMovesForward(w1.system.store, k, t);
    FiringHappy(codec, w1.system.store, k, t);
    OneMove(reg, w, tick, w1);
    OneMove(reg, w1, fire, w2);
    worlds, moves := Join(reg, [w, w1], [tick], [w1, w2], [fire]);
  }

  lemma FiringHappy(codec: Codec, s: State, k: RunKey, t: int)
    requires k in s.runs && t in s.runs[k].timers
    ensures k in FireOne(s, k, t).runs
    ensures Happy(codec, s.runs[k].history) ==> Happy(codec, FireOne(s, k, t).runs[k].history)
  {
    hide Enqueue;
    EnqueueFrame();
  }

  lemma Member<T>(s: set<T>) returns (t: T)
    requires |s| > 0
    ensures t in s
  {
    t :| t in s;
  }

  lemma AnUnfired(h: seq<Event>) returns (t: int)
    requires |Unfired(h)| > 0
    ensures t in TimersOf(h) && !TimersOf(h)[t].fired
  {
    hide TimersOf;
    t := Member(Unfired(h));
  }

  /** Whatever is outstanding can be answered. */
  lemma Advance(reg: Registry, codec: Codec, w: World, k: RunKey, id: Bytes) returns (worlds: seq<World>, moves: seq<Move>)
    requires Healthy(reg, codec, w, k) && w.system.store.runs[k].status == StatusRunning
    ensures Path(reg, worlds, moves) && worlds[0] == w && AllUnforced(moves)
    ensures Healthy(reg, codec, Last(worlds), k) && Forward(codec, id, LogOf(w, k), LogOf(Last(worlds), k))
  {
    hide WorldStep, WellFormed, Live, TimersOf, StatusOf, Closed, Unsignaled, Forward, Path, RunsOrders, Sound, Fresh,
         TokensKnown, TokensUnique, OneRunning, MessagesOk;
    var r := w.system.store.runs[k];
    Facts(reg, codec, w, k);
    assert Indexed(r);
    ClosedStatus(r);
    if r.task.Some? {
      worlds, moves := DecideOrder(reg, codec, w, k, id);
    } else if s :| s in r.activities {
      worlds, moves := PerformOrder(reg, codec, w, k, s, id);
    } else {
      assert forall s :: s !in r.activities;
      assert Columns(r.activities) == map[];
      assert |Live(r.history)| == 0;
      var t := AnUnfired(r.history);
      worlds, moves := FireOrder(reg, codec, w, k, t, id);
    }
  }

  // ---------------------------------------------------------------- finishing

  /** Step by step to the close: at most 27 steps remain. */
  lemma {:induction false} Finish(reg: Registry, codec: Codec, w: World, k: RunKey, id: Bytes) returns (worlds: seq<World>, moves: seq<Move>)
    requires Healthy(reg, codec, w, k)
    ensures Path(reg, worlds, moves) && worlds[0] == w && AllUnforced(moves)
    ensures Healthy(reg, codec, Last(worlds), k) && Last(worlds).system.store.runs[k].status != StatusRunning
    ensures Happy(codec, LogOf(w, k)) && codec.decodeId(id).Decoded? ==> Happy(codec, LogOf(Last(worlds), k))
    decreases 27 - Milestones(LogOf(w, k))
  {
    hide WorldStep, Inv, Sound, SequentialOk, Unsignaled, RunsOrders, Milestones, Happy;
    if w.system.store.runs[k].status != StatusRunning {
      worlds, moves := [w], [];
    } else {
      var first, moves1 := Advance(reg, codec, w, k, id);
      Facts(reg, codec, Last(first), k);
      OrderRunBounded(reg, codec, Last(first).system, k);
      var second, moves2 := Finish(reg, codec, Last(first), k, id);
      worlds, moves := Join(reg, first, moves1, second, moves2);
    }
  }

  // ---------------------------------------------------------------- finishing well

  /** Every answer the script gives is a success with a readable id. */
  ghost predicate HappyScript(codec: Codec, script: Script) {
    forall i :: 0 <= i < |script.activities| && script.activities[i].Some? ==>
      script.activities[i].value.Success? && codec.decodeId(script.activities[i].value.bytes).Decoded?
  }

  lemma NothingFailed(codec: Codec, h: seq<Event>, s: int)
    requires Happy(codec, h)
    ensures forall j :: !FailsAt(h, j, s)
  {
    assert forall j :: FailsAt(h, j, s) ==> HappyEvent(codec, h[j].attrs);
  }

  lemma HappyLogScript(codec: Codec, h: seq<Event>)
    requires WellFormed(h) && Happy(codec, h)
    ensures HappyScript(codec, ScriptOf(ViewOf(h)))
  {
    hide WellFormed, ViewOf, SchedulesNth, Records, ActivityCount;
    ProjectionIsLookup(h);
    var v := ViewOf(h);
    forall i | 0 <= i < |v.activities| && OutcomeOf(v.activities[i]).Some?
      ensures OutcomeOf(v.activities[i]).value.Success? && codec.decodeId(OutcomeOf(v.activities[i]).value.bytes).Decoded?
    {
      var st := v.activities[i];
      assert DescribesOutcome(h, st);
      NothingFailed(codec, h, st.id);
      var j :| CompletesAt(h, j, st.id);
      assert HappyEvent(codec, h[j].attrs);
    }
  }

  lemma ReadsFine(codec: Codec, script: Script, e: Eval, i: nat)
    requires HappyScript(codec, script) && i < 4 && StepPassed(codec, script, e, i) && |e.replies| > AnswerAt(i)
    ensures StepError(codec, e.replies[AnswerAt(i)]).None?
  {
  }

  /** With such answers the order code never gives up. */
  lemma StepNeverAborts(codec: Codec, queue: string, input: Bytes, script: Script, e: Eval)
    requires codec.decodeOrder(input).Decoded? && OrderShape(e)
    requires forall i :: 0 <= i < 4 && |e.replies| == AnswerAt(i) + 1 ==> StepError(codec, e.replies[AnswerAt(i)]).None?
    ensures var s := EvalStep(OrderFulfillment(codec), queue, input, script, e);
            s.Finished? ==> s.close.Succeed?
  {
    hide StepError, CallRecord, PanicFailure, TimerIdFor, IsStepRecord, Answer, Fulfilled;
    var n := |e.replies|;
    assert n == 2 ==> AnswerAt(0) == 1;
    assert n == 4 ==> AnswerAt(1) == 3;
    assert n == 8 ==> AnswerAt(2) == 7;
    assert n == 10 ==> AnswerAt(3) == 9;
    if n == 5 {
      TimerIsHeld(e);
    }
  }

  lemma TimerIsHeld(e: Eval)
    requires OrderShape(e) && |e.replies| == 5
    ensures e.timers > 0
  {
    hide IsStepRecord;
    assert ActivityCount(e.records) == 2;
  }

  lemma {:induction false} NeverAborts(codec: Codec, queue: string, input: Bytes, script: Script, n: nat)
    requires codec.decodeOrder(input).Decoded? && HappyScript(codec, script)
    ensures var s := Evaluate(OrderFulfillment(codec), queue, input, script, n);
            s.Finished? ==> s.close.Succeed?
  {
    hide EvalStep, OrderFulfillment, OrderShape, HappyScript, StepPassed, StepError;
    if n > 0 {
      NeverAborts(codec, queue, input, script, n - 1);
      var e := Evaluate(OrderFulfillment(codec), queue, input, script, n - 1).eval;
      EvaluationShape(codec, queue, input, script, n - 1);
      forall i | 0 <= i < 4 && |e.replies| == AnswerAt(i) + 1
        ensures StepError(codec, e.replies[AnswerAt(i)]).None?
      {
        EvaluationPasses(codec, queue, input, script, n - 1, i);
        ReadsFine(codec, script, e, i);
      }
      StepNeverAborts(codec, queue, input, script, e);
    }
  }

  /** A closed order none of whose steps failed is COMPLETED. */
  lemma HappyCompletes(reg: Registry, codec: Codec, w: World, k: RunKey)
    requires Healthy(reg, codec, w, k) && Happy(codec, LogOf(w, k))
    requires codec.decodeOrder(w.system.store.runs[k].input).Decoded? && w.system.store.runs[k].status != StatusRunning
    ensures w.system.store.runs[k].status == StatusCompleted
  {
    hide Evaluate, WellFormed, Live, TimersOf, ViewOf, ScriptOf, Happy, HappyScript, Stable, OrderFulfillment, Consistent, Closed, CloseOf,
         SequentialOk, Unsignaled, TokensKnown, TokensUnique, OneRunning, MessagesOk;
    var r := w.system.store.runs[k];
    Facts(reg, codec, w, k);
    assert Indexed(r) && RunSound(reg, r);
    OrderIsStable(codec);
    ClosedIffCloseOf(r.history);
    RunInput(r);
    HappyLogScript(codec, r.history);
    var n: nat :| ClosedAsEvaluated(OrderFulfillment(codec), r.queue, r.history, n);
    NeverAborts(codec, r.queue, r.input, ScriptOf(ViewOf(r.history)), n);
  }

  // ---------------------------------------------------------------- theorems

  lemma ReachableHealthy(reg: Registry, codec: Codec, states: seq<System>, actions: seq<Action>, k: RunKey, w: World)
    requires RunsOrders(reg, codec) && Behavior(reg, states, actions) && NeverSignaled(actions, k) && w.system == Last(states)
    requires k in w.system.store.runs && w.system.store.runs[k].workflowType == ORDER_TYPE
    ensures Healthy(reg, codec, w, k)
  {
    hide Step, NeverSignaled, RunsOrders;
    assert Reaches(reg, states, actions, k, w.system);
  }

  lemma NotEmpty(reg: Registry, states: seq<System>, actions: seq<Action>)
    requires Behavior(reg, states, actions)
    ensures |states| > 0
  {
    hide Step;
  }

  /** A path of worlds continues a behaviour of the system. */
  lemma Continue(reg: Registry, states: seq<System>, actions: seq<Action>, worlds: seq<World>, moves: seq<Move>)
    requires Behavior(reg, states, actions) && Path(reg, worlds, moves) && worlds[0].system == Last(states)
    ensures Behavior(reg, states + Systems(worlds)[1..], actions + Actions(moves))
    ensures Last(states + Systems(worlds)[1..]) == Last(worlds).system
  {
    hide Step;
    var states', actions' := states + Systems(worlds)[1..], actions + Actions(moves);
    forall i: nat | i < |actions'|
      ensures Taken(reg, states', actions', i)
    {
      if i >= |actions| {
        var j := i - |actions|;
        assert Moved(reg, worlds, moves, j);
        assert states'[i] == worlds[j].system && states'[i + 1] == worlds[j + 1].system;
        if moves[j].Perform? {
          Stutter(reg, worlds[j].system);
        }
      } else {
        assert Taken(reg, states, actions, i);
      }
    }
  }

  lemma {:induction false} PathKeeps(reg: Registry, codec: Codec, worlds: seq<World>, moves: seq<Move>, k: RunKey, i: nat)
    requires Path(reg, worlds, moves) && AllUnforced(moves) && Healthy(reg, codec, worlds[0], k) && i < |worlds|
    ensures Healthy(reg, codec, worlds[i], k)
    ensures worlds[i].system.store.runs[k].input == worlds[0].system.store.runs[k].input
  {
    hide WorldStep, Healthy, Unforced;
    if i > 0 {
      PathKeeps(reg, codec, worlds, moves, k, i - 1);
      assert Moved(reg, worlds, moves, i - 1);
      StepHealthy(reg, codec, worlds[i - 1], moves[i - 1], worlds[i], k);
    } else {
      HealthyRun(reg, codec, worlds[0], k);
    }
  }

  lemma HealthyRun(reg: Registry, codec: Codec, w: World, k: RunKey)
    requires Healthy(reg, codec, w, k)
    ensures k in w.system.store.runs
  {
  }

  /** A finished order whose steps all succeeded, and whose input could be read, is COMPLETED. */
  lemma FinishWell(reg: Registry, codec: Codec, w: World, k: RunKey, id: Bytes) returns (worlds: seq<World>, moves: seq<Move>)
    requires Healthy(reg, codec, w, k)
    ensures Path(reg, worlds, moves) && worlds[0] == w && AllUnforced(moves)
    ensures Healthy(reg, codec, Last(worlds), k) && Last(worlds).system.store.runs[k].status != StatusRunning
    ensures Happy(codec, LogOf(w, k)) && codec.decodeId(id).Decoded? && codec.decodeOrder(w.system.store.runs[k].input).Decoded?
            ==> Last(worlds).system.store.runs[k].status == StatusCompleted
  {
    hide WorldStep, Inv, Sound, SequentialOk, Unsignaled, RunsOrders, Happy;
    worlds, moves := Finish(reg, codec, w, k, id);
    PathKeeps(reg, codec, worlds, moves, k, |worlds| - 1);
    if Happy(codec, LogOf(w, k)) && codec.decodeId(id).Decoded? && codec.decodeOrder(w.system.store.runs[k].input).Decoded? {
      HappyCompletes(reg, codec, Last(worlds), k);
    }
  }

  /**
   Never stuck. Every behaviour in which an order is open and nobody signaled it can be continued, by
   workers, timers and the clock alone, to one in which that order has closed. If no step has failed
   so far and the payloads can be read, it can be continued to one in which it is COMPLETED.
   */
  lemma OrderCanFinish(reg: Registry, codec: Codec, states: seq<System>, actions: seq<Action>, k: RunKey, id: Bytes)
    returns (states': seq<System>, actions': seq<Action>)
    requires RunsOrders(reg, codec) && Behavior(reg, states, actions) && NeverSignaled(actions, k)
    requires k in Last(states).store.runs && Last(states).store.runs[k].workflowType == ORDER_TYPE
    ensures Behavior(reg, states', actions') && states <= states' && actions <= actions'
    ensures k in Last(states').store.runs && Last(states').store.runs[k].status != StatusRunning
    ensures var r := Last(states).store.runs[k];
            Happy(codec, r.history) && codec.decodeId(id).Decoded? && codec.decodeOrder(r.input).Decoded?
            ==> Last(states').store.runs[k].status == StatusCompleted
  {
    hide Behavior, NeverSignaled, RunsOrders, Inv, Sound, SequentialOk, Unsignaled, Happy, WorldStep;
    NotEmpty(reg, states, actions);
    var w := World(Last(states), map[], {}, {});
    ReachableHealthy(reg, codec, states, actions, k, w);
    var worlds, moves := FinishWell(reg, codec, w, k, id);
    Continue(reg, states, actions, worlds, moves);
    states', actions' := states + Systems(worlds)[1..], actions + Actions(moves);
  }

  // ---------------------------------------------------------------- two orders under one workflow id

  lemma StartWorld(reg: Registry, w: World, k: RunKey, input: Bytes) returns (w': World)
    requires k !in w.system.store.runs && forall k' :: !RunningUnder(w.system.store, k', k.workflowId)
    ensures WorldStep(reg, w, Engine(Start(k, ORDER_TYPE, "orders", input)), w')
    ensures w'.system.store.runs == w.system.store.runs[k := NewRun(ORDER_TYPE, "orders", input, w.system.store.workflowSeq, w.system.store.now)]
  {
    hide NewRun;
    var s := w.system.store;
    var s' := Put(s, k, NewRun(ORDER_TYPE, "orders", input, s.workflowSeq, s.now)).(workflowSeq := s.workflowSeq + 1);
    w' := w.(system := w.system.(store := s'));
    assert StartWorkflow(s, k, ORDER_TYPE, "orders", input, s', Started(k));
  }

  lemma FreshHappy(codec: Codec, workflowType: string, queue: string, input: Bytes, token: nat, now: int)
    ensures var r := NewRun(workflowType, queue, input, token, now);
            Happy(codec, r.history) && r.input == input && r.workflowType == workflowType
  {
  }

  lemma SignalFree(moves: seq<Move>, m: Move, k: RunKey)
    requires NeverSignaled(Actions(moves), k) && m.Engine? && !m.action.Signal?
    ensures NeverSignaled(Actions(moves + [m]), k)
  {
    assert forall i :: 0 <= i < |moves| ==> Actions(moves + [m])[i] == Actions(moves)[i];
  }

  lemma StillUnsignaled(moves: seq<Move>, more: seq<Move>, k: RunKey)
    requires NeverSignaled(Actions(moves), k) && AllUnforced(more)
    ensures NeverSignaled(Actions(moves + more), k)
  {
    forall i | 0 <= i < |moves + more|
      ensures !(Actions(moves + more)[i].Signal? && Actions(moves + more)[i].key == k)
    {
      if i >= |moves| {
        assert Unforced(more[i - |moves|]);
      } else {
        assert Actions(moves + more)[i] == Actions(moves)[i];
      }
    }
  }

  lemma StepKeys(reg: Registry, w: World, m: Move, w': World, k: RunKey)
    requires Inv(reg, w.system) && WorldStep(reg, w, m, w') && Unforced(m)
    ensures k in w'.system.store.runs <==> k in w.system.store.runs
  {
    hide Inv, Step, SameRun, NewRun;
    if m.Engine? {
      if k in w.system.store.runs {
        StepAppends(reg, w.system, m.action, w'.system, k);
      } else if k in w'.system.store.runs {
        NewRuns(reg, w.system, m.action, w'.system, k);
      }
    }
  }

  lemma {:induction false} PathKeys(reg: Registry, codec: Codec, worlds: seq<World>, moves: seq<Move>, k: RunKey, i: nat)
    requires Path(reg, worlds, moves) && AllUnforced(moves) && Healthy(reg, codec, worlds[0], k) && i < |worlds|
    ensures forall k' :: k' in worlds[i].system.store.runs <==> k' in worlds[0].system.store.runs
  {
    hide WorldStep, Inv, Sound, SequentialOk, Unsignaled, RunsOrders, Unforced;
    if i > 0 {
      PathKeys(reg, codec, worlds, moves, k, i - 1);
      PathKeeps(reg, codec, worlds, moves, k, i - 1);
      assert Moved(reg, worlds, moves, i - 1);
      Facts(reg, codec, worlds[i - 1], k);
      forall k'
        ensures k' in worlds[i].system.store.runs <==> k' in worlds[i - 1].system.store.runs
      {
        StepKeys(reg, worlds[i - 1], moves[i - 1], worlds[i], k');
      }
    }
  }

  /** A fresh order: started, then finished well. */
  lemma RunOrder(reg: Registry, codec: Codec, before: seq<World>, taken: seq<Move>, k: RunKey, input: Bytes, id: Bytes)
    returns (worlds: seq<World>, moves: seq<Move>)
    requires RunsOrders(reg, codec) && WorldBehavior(reg, before, taken)
    requires codec.decodeOrder(input).Decoded? && codec.decodeId(id).Decoded?
    requires k !in Last(before).system.store.runs && forall k' :: !RunningUnder(Last(before).system.store, k', k.workflowId)
    requires NeverSignaled(Actions(taken), k)
    ensures WorldBehavior(reg, worlds, moves) && before <= worlds
    ensures k in Last(worlds).system.store.runs && Last(worlds).system.store.runs[k].workflowType == ORDER_TYPE
    ensures Last(worlds).system.store.runs[k].status == StatusCompleted
    ensures forall k' :: k' in Last(worlds).system.store.runs <==> k' == k || k' in Last(before).system.store.runs
    ensures forall k' :: NeverSignaled(Actions(taken), k') ==> NeverSignaled(Actions(moves), k')
  {
    hide WorldStep, Inv, Sound, SequentialOk, Unsignaled, RunsOrders, NewRun;
    var w0 := Last(before);
    var start := Engine(Start(k, ORDER_TYPE, "orders", input));
    var w1 := StartWorld(reg, w0, k, input);
    OneMove(reg, w0, start, w1);
    var started, startMoves := Join(reg, before, taken, [w0, w1], [start]);
    ForgetLedger(reg, started, startMoves);
    SignalFree(taken, start, k);
    FreshHappy(codec, ORDER_TYPE, "orders", input, w0.system.store.workflowSeq, w0.system.store.now);
    ReachableHealthy(reg, codec, Systems(started), Actions(startMoves), k, w1);
    var rest, restMoves := FinishWell(reg, codec, w1, k, id);
    PathKeys(reg, codec, rest, restMoves, k, |rest| - 1);
    PathKeeps(reg, codec, rest, restMoves, k, |rest| - 1);
    worlds, moves := Join(reg, started, startMoves, rest, restMoves);
    forall k' | NeverSignaled(Actions(taken), k')
      ensures NeverSignaled(Actions(moves), k')
    {
      SignalFree(taken, start, k');
      StillUnsignaled(startMoves, restMoves, k');
    }
  }

  /**
   Two COMPLETED orders under one workflow id, each with its four completed events, share four rows of
   the ledger: the second order's side effects were taken for duplicates. For any payload converter that
   can read some order and some id.
   */
  lemma TwoOrdersShareRows(codec: Codec, input: Bytes, id: Bytes) returns (worlds: seq<World>, moves: seq<Move>)
    requires codec.decodeOrder(input).Decoded? && codec.decodeId(id).Decoded?
    ensures WorldBehavior(OrdersOnly(codec), worlds, moves)
    ensures var s, one, two := Last(worlds).system.store, RunKey("order", "1"), RunKey("order", "2");
            && one in s.runs && s.runs[one].status == StatusCompleted && Completions(s.runs[one].history) == 4
            && two in s.runs && s.runs[two].status == StatusCompleted && Completions(s.runs[two].history) == 4
            && |EffectIds(Last(worlds).ledger, "order")| == 4
  {
    hide WorldStep, Behavior, Completions, NewRun, Records, AllCompleted, ReportsReceipt, EffectIds, NeverSignaled, OrderFulfillment;
    var reg := OrdersOnly(codec);
    var one, two := RunKey("order", "1"), RunKey("order", "2");
    NeverSignaledYet(one, two);
    var first, moves1 := RunOrder(reg, codec, [EMPTY_WORLD], [], one, input, id);
    var s1 := Last(first).system.store;
    assert forall k' :: !RunningUnder(s1, k', "order");
    worlds, moves := RunOrder(reg, codec, first, moves1, two, input, id);
    ForgetLedger(reg, worlds, moves);
    var i, j := |first| - 1, |worlds| - 1;
    AppendOnly(reg, Systems(worlds), Actions(moves), i, j, one);
    OrderCompleted(reg, codec, Systems(worlds), Actions(moves), j, one);
    OrderCompleted(reg, codec, Systems(worlds), Actions(moves), j, two);
    OneRowPerStep(reg, codec, worlds, moves, j, two);
  }

  function OrdersOnly(codec: Codec): Registry {
    map[ORDER_TYPE := OrderFulfillment(codec)]
  }

  lemma NeverSignaledYet(one: RunKey, two: RunKey)
    ensures NeverSignaled(Actions([]), one) && NeverSignaled(Actions([]), two)
  {
  }
}
