/**
 Side effects. Activity workers are handed deliveries, perform them against an idempotent ledger keyed
 by workflow id and activity id, and only then report success. Everything else is as in `System`:
 deliveries may be repeated after lease expiry, performed twice, performed late, or never.
 */
module Ledger {
  import opened Basics
  import opened History
  import opened Program
  import opened Backoff
  import opened Replay
  import opened ReplayTheorems
  import opened Growth
  import opened Log
  import opened Store
  import opened RunInvariant
  import opened System
  import opened Durability
  import opened Totals
  import opened Order
  import opened Projection
  import opened OrderTheorems

  /** What a poll hands to an activity worker. */
  datatype Delivery = Delivery(
    token: nat, key: RunKey, scheduledId: int, activityId: string, activityType: string, attempt: int)

  datatype EffectKey = EffectKey(workflowId: string, activityId: string)

  datatype Effect = Effect(activityType: string, attempt: int)

  type Effects = map<EffectKey, Effect>

  datatype World = World(system: System, ledger: Effects, handed: set<Delivery>, performed: set<nat>)

  datatype Move = Engine(action: Action) | Perform(delivery: Delivery)

  const EMPTY_WORLD := World(INIT, map[], {}, {})

  /** Insert, or do nothing on conflict: the first recorded effect stays. */
  function Record(ledger: Effects, key: EffectKey, effect: Effect): (r: Effects)
    ensures key in r && r.Keys == ledger.Keys + {key}
    ensures forall k :: k in ledger ==> r[k] == ledger[k]
    ensures key !in ledger ==> r[key] == effect
  {
    if key in ledger then ledger else ledger[key := effect]
  }

  function DeliveryOf(s: State, k: RunKey, a: int): Delivery
    requires k in s.runs && a in s.runs[k].activities
  {
    var t := s.runs[k].activities[a];
    Delivery(t.taskId, k, a, t.columns.activityId, t.columns.activityType, t.columns.attempt)
  }

  predicate WritesLedger(activityType: string) {
    activityType in STEPS
  }

  function KeyOf(d: Delivery): EffectKey {
    EffectKey(d.key.workflowId, d.activityId)
  }

  ghost predicate WorldStep(reg: Registry, w: World, m: Move, w': World) {
    match m
    case Engine(a) =>
      && Step(reg, w.system, a, w'.system)
      && w'.ledger == w.ledger && w'.performed == w.performed
      && (a.RespondCompleted? ==> a.token in w.performed)
      && w'.handed == w.handed + (if a.PollActivity? then {DeliveryOf(w.system.store, a.key, a.scheduledId)} else {})
    case Perform(d) =>
      && d in w.handed
      && w'.ledger == (if WritesLedger(d.activityType) then Record(w.ledger, KeyOf(d), Effect(d.activityType, d.attempt)) else w.ledger)
      && w' == w.(ledger := w'.ledger, performed := w.performed + {d.token})
  }

  /** The i-th move leads from the i-th world to the next. */
  ghost predicate Moved(reg: Registry, worlds: seq<World>, moves: seq<Move>, i: nat)
    requires |worlds| == |moves| + 1 && i < |moves|
  {
    WorldStep(reg, worlds[i], moves[i], worlds[i + 1])
  }

  ghost predicate WorldBehavior(reg: Registry, worlds: seq<World>, moves: seq<Move>) {
    && |worlds| == |moves| + 1
    && worlds[0] == EMPTY_WORLD
    && forall i: nat :: i < |moves| ==> Moved(reg, worlds, moves, i)
  }

  // ---------------------------------------------------------------- forgetting the ledger

  ghost function Systems(worlds: seq<World>): seq<System> {
    seq(|worlds|, i requires 0 <= i < |worlds| => worlds[i].system)
  }

  ghost function Actions(moves: seq<Move>): seq<Action> {
    seq(|moves|, i requires 0 <= i < |moves| => if moves[i].Engine? then moves[i].action else Tick(0))
  }

  /** Without the ledger a behaviour of the world is a behaviour of the system. */
  lemma ForgetLedger(reg: Registry, worlds: seq<World>, moves: seq<Move>)
    requires WorldBehavior(reg, worlds, moves)
    ensures Behavior(reg, Systems(worlds), Actions(moves))
  {
    hide Step;
    forall i: nat | i < |moves|
      ensures Taken(reg, Systems(worlds), Actions(moves), i)
    {
      assert Moved(reg, worlds, moves, i);
      if moves[i].Perform? {
        Stutter(reg, worlds[i].system);
      }
    }
  }

  lemma Stutter(reg: Registry, c: System)
    ensures Step(reg, c, Tick(0), c)
  {
  }

  // ---------------------------------------------------------------- activity rows across a step

  ghost predicate RowsTraced(s: State, s': State) {
    && s.activitySeq <= s'.activitySeq
    && forall k, a, t :: HoldsActivity(s', k, a, t) ==> HoldsActivity(s, k, a, t) || t >= s.activitySeq
  }

  lemma {:induction false} FireAllRows(s: State, due: seq<(RunKey, int)>, s': State)
    requires FiresAll(s, due, s')
    ensures RowsTraced(s, s')
    decreases |due|
  {
    if due != [] {
      var s1 := FireOne(s, due[0].0, due[0].1);
      assert forall k, a, t :: HoldsActivity(s1, k, a, t) ==> HoldsActivity(s, k, a, t);
      FireAllRows(s1, due[1..], s');
    }
  }

  lemma MovesRows(s: State, k: RunKey, s': State)
    requires Moves(s, k, s')
    ensures RowsTraced(s, s')
  {
    hide Indexed, Quiet;
    ActivityTokenOrigin(s, k, s');
  }

  /** Tokens are never reissued: a row is the row it was, or its token is new. */
  lemma StepRows(reg: Registry, c: System, a: Action, c': System)
    requires Inv(reg, c) && Step(reg, c, a, c')
    ensures RowsTraced(c.store, c'.store)
  {
    hide Indexed, Moves, CompleteWorkflowTask, SignalWorkflow, PollWorkflowTask, PollActivityTask, RowsTraced,
         TokensKnown, TokensUnique, MessagesOk, OneRunning, FiresAll, Honest, Pollable, PollableWorkflow, StartWorkflow;
    var s := c.store;
    RowsSame(s);
    match a
    case Start(k, workflowType, queue, input) =>
      var reply :| StartWorkflow(s, k, workflowType, queue, input, c'.store, reply);
      StartRows(s, k, workflowType, queue, input, c'.store, reply);
    case Signal(k, name, input) =>
      SignalOutcome(s, k, name, input);
      if c' != c {
        MovesRows(s, k, c'.store);
      }
    case PollWorkflow(k, identity, lease, _) =>
      PollWorkflowDrifts(s, k, identity, lease);
      MovesRows(s, k, c'.store);
    case RespondWorkflow(m) =>
      if c' != c {
        var k :| HoldsWorkflow(s, k, m.token) && c' == c.(store := CompleteWorkflowTask(s, k, m.identity, m.decision.commands).0);
        RespondWorkflowKeepsInv(reg, c, m, k, c');
        MovesRows(s, k, c'.store);
      }
    case PollActivity(k, t, identity, lease) =>
      PollActivityDrifts(s, k, t, identity, lease);
      MovesRows(s, k, c'.store);
    case FireTimers(due) => FireAllRows(s, due, c'.store);
    case Tick(elapsed) => TickRows(s, elapsed);
    case _ =>
      ActivityStepDrifts(reg, c, a, c');
      if c' != c {
        var k :| Drifts(s, k, c'.store) && c'.sent == c.sent;
        MovesRows(s, k, c'.store);
      }
  }

  lemma RowsSame(s: State)
    ensures RowsTraced(s, s)
  {
  }

  lemma TickRows(s: State, elapsed: nat)
    ensures RowsTraced(s, s.(now := s.now + elapsed))
  {
    var s' := s.(now := s.now + elapsed);
    assert forall k, a, t :: HoldsActivity(s', k, a, t) ==> HoldsActivity(s, k, a, t);
  }

  lemma StartRows(s: State, k: RunKey, workflowType: string, queue: string, input: Bytes, s': State, reply: StartReply)
    requires StartWorkflow(s, k, workflowType, queue, input, s', reply)
    ensures RowsTraced(s, s')
  {
    NewRunRows(workflowType, queue, input, s.workflowSeq, s.now);
    assert forall k', a, t :: HoldsActivity(s', k', a, t) ==> HoldsActivity(s, k', a, t);
  }

  // ---------------------------------------------------------------- where completions come from

  /** Completions are written only for the row the reported token names. */
  ghost predicate CompletesHeld(s: State, k: RunKey, token: int, h: seq<Event>, h': seq<Event>) {
    forall j :: |h| <= j < |h'| && h'[j].attrs.ActivityCompleted? ==> HoldsActivity(s, k, h'[j].attrs.scheduledId, token)
  }

  ghost predicate Uncompleted(h: seq<Event>, h': seq<Event>) {
    h <= h' && forall j :: |h| <= j < |h'| ==> !h'[j].attrs.ActivityCompleted?
  }

  lemma {:induction false} CommandsUncompleted(r: Run, now: int, token: nat, cs: seq<Command>)
    ensures Uncompleted(r.history, ApplyCommands(r, now, token, cs).history)
    decreases |cs|
  {
    if cs != [] && !IsTerminal(cs[0]) {
      CommandsUncompleted(ApplyCommand(r, now, token, cs[0]), now, token + TokensFor(cs[0]), cs[1..]);
    }
  }

  lemma {:induction false} FireAllUncompleted(s: State, due: seq<(RunKey, int)>, s': State, k: RunKey)
    requires FiresAll(s, due, s') && k in s.runs
    ensures k in s'.runs && Uncompleted(s.runs[k].history, s'.runs[k].history)
    decreases |due|
  {
    if due != [] {
      FireAllUncompleted(FireOne(s, due[0].0, due[0].1), due[1..], s', k);
    }
  }

  lemma StepCompletes(reg: Registry, c: System, a: Action, c': System, k: RunKey)
    requires Step(reg, c, a, c') && k in c.store.runs && k in c'.store.runs
    ensures var h, h' := c.store.runs[k].history, c'.store.runs[k].history;
            Uncompleted(h, h') || (a.RespondCompleted? && CompletesHeld(c.store, k, a.token, h, h'))
  {
    hide Honest, ApplyCommands, NewRun, EffectivePolicy, Delay, CanRetry, FiresAll, TokensUsed;
    match a
    case RespondWorkflow(m) =>
      CommandsUncompleted(c.store.runs[k], c.store.now, c.store.activitySeq, m.decision.commands);
    case FireTimers(due) => FireAllUncompleted(c.store, due, c'.store, k);
    case _ =>
  }

  // ---------------------------------------------------------------- the invariant

  /** The delivery names a scheduled event of its run, and its token no other row. */
  ghost predicate DeliveryOk(s: State, d: Delivery) {
    && d.token < s.activitySeq
    && d.key in s.runs
    && Scheduled(s.runs[d.key].history, d.scheduledId, d.activityId, d.activityType)
    && forall k, a :: HoldsActivity(s, k, a, d.token) ==> k == d.key && a == d.scheduledId
  }

  predicate Scheduled(h: seq<Event>, s: int, activityId: string, activityType: string) {
    SchedulesAt(h, s) && h[s - 1].attrs.call.activityId == activityId && h[s - 1].attrs.call.activityType == activityType
  }

  ghost predicate Recorded(w: World, d: Delivery) {
    WritesLedger(d.activityType) ==> KeyOf(d) in w.ledger
  }

  /** Performed tokens were handed out, and their effects are in the ledger. */
  ghost predicate PerformedOk(w: World) {
    forall t :: t in w.performed ==> exists d :: d in w.handed && d.token == t && Recorded(w, d)
  }

  /** Every row of the ledger is the effect of some delivery, with its type and attempt. */
  ghost predicate LedgerOk(w: World) {
    forall e :: e in w.ledger ==>
      exists d :: d in w.handed && WritesLedger(d.activityType) && KeyOf(d) == e && w.ledger[e] == Effect(d.activityType, d.attempt)
  }

  /** The completed activity's effect is in the ledger. */
  ghost predicate CompletionOk(ledger: Effects, k: RunKey, h: seq<Event>, s: int) {
    SchedulesAt(h, s) &&
    (WritesLedger(h[s - 1].attrs.call.activityType) ==> EffectKey(k.workflowId, h[s - 1].attrs.call.activityId) in ledger)
  }

  ghost predicate CompletionsOk(ledger: Effects, k: RunKey, h: seq<Event>) {
    forall j :: 0 <= j < |h| && h[j].attrs.ActivityCompleted? ==> CompletionOk(ledger, k, h, h[j].attrs.scheduledId)
  }

  ghost predicate LedgerInv(w: World) {
    && (forall d :: d in w.handed ==> DeliveryOk(w.system.store, d))
    && PerformedOk(w)
    && LedgerOk(w)
    && forall k :: k in w.system.store.runs ==> CompletionsOk(w.ledger, k, w.system.store.runs[k].history)
  }

  // ---------------------------------------------------------------- performing an activity

  lemma PerformKeeps(w: World, d: Delivery, w': World)
    requires LedgerInv(w) && d in w.handed
    requires w'.ledger == (if WritesLedger(d.activityType) then Record(w.ledger, KeyOf(d), Effect(d.activityType, d.attempt)) else w.ledger)
    requires w' == w.(ledger := w'.ledger, performed := w.performed + {d.token})
    ensures LedgerInv(w')
  {
    hide DeliveryOk, SchedulesAt;
    forall t | t in w'.performed
      ensures exists d' :: d' in w'.handed && d'.token == t && Recorded(w', d')
    {
      if t == d.token {
        assert Recorded(w', d);
      } else {
        var d' :| d' in w.handed && d'.token == t && Recorded(w, d');
        assert Recorded(w', d');
      }
    }
    forall k | k in w'.system.store.runs
      ensures CompletionsOk(w'.ledger, k, w'.system.store.runs[k].history)
    {
      assert CompletionsOk(w.ledger, k, w.system.store.runs[k].history);
    }
  }

  // ---------------------------------------------------------------- engine steps

  lemma DeliveryKept(reg: Registry, c: System, a: Action, c': System, d: Delivery)
    requires Inv(reg, c) && Step(reg, c, a, c') && DeliveryOk(c.store, d)
    ensures DeliveryOk(c'.store, d)
  {
    hide Inv, Step, SameRun;
    StepRows(reg, c, a, c');
    StepAppends(reg, c, a, c', d.key);
  }

  lemma NewDelivery(reg: Registry, c: System, a: Action, c': System)
    requires Inv(reg, c) && Inv(reg, c') && a.PollActivity? && Step(reg, c, a, c')
    ensures DeliveryOk(c'.store, DeliveryOf(c.store, a.key, a.scheduledId))
  {
    hide WellFormed, Live, TimersOf, StatusOf, OneRunning, MessagesOk, PollActivityTask;
    var d := DeliveryOf(c.store, a.key, a.scheduledId);
    var r := c.store.runs[a.key];
    assert HoldsActivity(c.store, a.key, a.scheduledId, d.token);
    assert Indexed(r);
    LiveOrigin(r.history, a.scheduledId);
    assert Columns(r.activities)[a.scheduledId] == r.activities[a.scheduledId].columns;
    assert DeliveryOk(c.store, d);
    DeliveryKept(reg, c, a, c', d);
  }

  lemma PerformedKept(w: World, w': World)
    requires PerformedOk(w) && w'.ledger == w.ledger && w'.performed == w.performed && w.handed <= w'.handed
    ensures PerformedOk(w')
  {
    forall t | t in w'.performed
      ensures exists d :: d in w'.handed && d.token == t && Recorded(w', d)
    {
      var d :| d in w.handed && d.token == t && Recorded(w, d);
      assert Recorded(w', d);
    }
  }

  /** A completed event of an already performed token has its effect in the ledger. */
  lemma CompletionRecorded(w: World, k: RunKey, token: nat, s: int, h': seq<Event>)
    requires LedgerInv(w) && token in w.performed && HoldsActivity(w.system.store, k, s, token)
    requires w.system.store.runs[k].history <= h'
    ensures CompletionOk(w.ledger, k, h', s)
  {
    hide CompletionsOk, LedgerOk;
    var d :| d in w.handed && d.token == token && Recorded(w, d);
    assert DeliveryOk(w.system.store, d);
  }

  lemma CompletionsKept(reg: Registry, w: World, a: Action, w': World, k: RunKey)
    requires Inv(reg, w.system) && LedgerInv(w) && WorldStep(reg, w, Engine(a), w') && k in w'.system.store.runs
    ensures CompletionsOk(w'.ledger, k, w'.system.store.runs[k].history)
  {
    hide Inv, Step, NewRun, SameRun, CompletionOk, DeliveryOk, PerformedOk, LedgerOk;
    var c, c' := w.system, w'.system;
    if k in c.store.runs {
      var h, h' := c.store.runs[k].history, c'.store.runs[k].history;
      StepAppends(reg, c, a, c', k);
      StepCompletes(reg, c, a, c', k);
      forall j | 0 <= j < |h'| && h'[j].attrs.ActivityCompleted?
        ensures CompletionOk(w'.ledger, k, h', h'[j].attrs.scheduledId)
      {
        if j < |h| {
          assert h[j] == h'[j];
          CompletionGrows(w.ledger, k, h, h', h[j].attrs.scheduledId);
        } else {
          CompletionRecorded(w, k, a.token, h'[j].attrs.scheduledId, h');
        }
      }
    } else {
      NewRuns(reg, c, a, c', k);
      NewRunUncompleted(a.workflowType, a.queue, a.input, c.store.workflowSeq, c.store.now);
    }
  }

  lemma CompletionGrows(ledger: Effects, k: RunKey, h: seq<Event>, h': seq<Event>, s: int)
    requires CompletionOk(ledger, k, h, s) && h <= h'
    ensures CompletionOk(ledger, k, h', s)
  {
  }

  lemma NewRunUncompleted(workflowType: string, queue: string, input: Bytes, token: nat, now: int)
    ensures Uncompleted([], NewRun(workflowType, queue, input, token, now).history)
  {
  }

  lemma EngineKeeps(reg: Registry, w: World, a: Action, w': World)
    requires Inv(reg, w.system) && Inv(reg, w'.system) && LedgerInv(w) && WorldStep(reg, w, Engine(a), w')
    ensures LedgerInv(w')
  {
    hide Inv, Step, DeliveryOk, PerformedOk, CompletionsOk, DeliveryOf;
    forall d | d in w'.handed
      ensures DeliveryOk(w'.system.store, d)
    {
      if d in w.handed {
        DeliveryKept(reg, w.system, a, w'.system, d);
      } else {
        NewDelivery(reg, w.system, a, w'.system);
      }
    }
    PerformedKept(w, w');
    forall e | e in w'.ledger
      ensures exists d :: d in w'.handed && WritesLedger(d.activityType) && KeyOf(d) == e && w'.ledger[e] == Effect(d.activityType, d.attempt)
    {
      var d :| d in w.handed && WritesLedger(d.activityType) && KeyOf(d) == e && w.ledger[e] == Effect(d.activityType, d.attempt);
      assert d in w'.handed;
    }
    forall k | k in w'.system.store.runs
      ensures CompletionsOk(w'.ledger, k, w'.system.store.runs[k].history)
    {
      CompletionsKept(reg, w, a, w', k);
    }
  }

  lemma {:induction false} ReachableLedger(reg: Registry, worlds: seq<World>, moves: seq<Move>, i: nat)
    requires WorldBehavior(reg, worlds, moves) && i < |worlds|
    ensures LedgerInv(worlds[i])
  {
    hide Inv, Step, LedgerInv, Behavior;
    if i == 0 {
      EmptyLedger();
    } else {
      ReachableLedger(reg, worlds, moves, i - 1);
      ForgetLedger(reg, worlds, moves);
      ReachableInv(reg, Systems(worlds), Actions(moves), i - 1);
      ReachableInv(reg, Systems(worlds), Actions(moves), i);
      assert Moved(reg, worlds, moves, i - 1);
      if moves[i - 1].Perform? {
        PerformKeeps(worlds[i - 1], moves[i - 1].delivery, worlds[i]);
      } else {
        EngineKeeps(reg, worlds[i - 1], moves[i - 1].action, worlds[i]);
      }
    }
  }

  lemma EmptyLedger()
    ensures LedgerInv(EMPTY_WORLD)
  {
  }

  // ---------------------------------------------------------------- theorems

  /** Effects recorded under one workflow id. */
  ghost function EffectIds(ledger: Effects, workflowId: string): set<string> {
    set e | e in ledger && e.workflowId == workflowId :: e.activityId
  }

  ghost function ScheduledIds(h: seq<Event>): set<string> {
    set i | 0 <= i < |h| && h[i].attrs.ActivityScheduled? :: h[i].attrs.call.activityId
  }

  ghost function CompletedIds(h: seq<Event>): set<string> {
    set i | 0 <= i < |h| && h[i].attrs.ActivityCompleted? && SchedulesAt(h, h[i].attrs.scheduledId) ::
      h[h[i].attrs.scheduledId - 1].attrs.call.activityId
  }

  /** Every run under the workflow id is an order. */
  ghost predicate OnlyOrders(s: State, workflowId: string) {
    forall k :: k in s.runs && k.workflowId == workflowId ==> s.runs[k].workflowType == ORDER_TYPE
  }

  /** No other run uses the workflow id. */
  ghost predicate UsedOnce(s: State, k: RunKey) {
    forall k' :: k' in s.runs && k'.workflowId == k.workflowId ==> k' == k
  }

  /** A recorded call of an order is one of its four steps. */
  lemma OrderActivities(reg: Registry, codec: Codec, states: seq<System>, actions: seq<Action>, i: nat, k: RunKey, s: int)
    requires RunsOrders(reg, codec) && Behavior(reg, states, actions) && i < |states|
    requires k in states[i].store.runs && states[i].store.runs[k].workflowType == ORDER_TYPE
    requires SchedulesAt(states[i].store.runs[k].history, s)
    ensures var call := states[i].store.runs[k].history[s - 1].attrs.call;
            call.activityId in STEP_IDS && WritesLedger(call.activityType)
  {
    hide Step, Inv, Behavior, Stable, Consistent, OrderFulfillment, Records, ActivityCount, Decimal;
    ReachableSound(reg, states, actions, i);
    var r := states[i].store.runs[k];
    assert RunSound(reg, r);
    OrderIsStable(codec);
    RecordsOfOrder(codec, r.queue, r.history);
    ScheduledIsRecorded(r.history, s - 1);
    var j :| 0 <= j < |Records(r.history)| && Records(r.history)[j] == ActivityRecord(r.history[s - 1].attrs.call);
    assert IsStepRecord(Records(r.history)[j], j);
  }

  const STEP_IDS := {"activity-" + Decimal(0), "activity-" + Decimal(1), "activity-" + Decimal(2), "activity-" + Decimal(3)}

  /** The generated ids are pairwise distinct. */
  lemma StepIdsDistinct()
    ensures |STEP_IDS| == 4
  {
    hide Decimal;
    forall i: nat, j: nat | "activity-" + Decimal(i) == "activity-" + Decimal(j)
      ensures i == j
    {
      assert ("activity-" + Decimal(i))[9..] == Decimal(i);
      assert ("activity-" + Decimal(j))[9..] == Decimal(j);
      DecimalInjective(i, j);
    }
  }

  lemma {:induction false} RecordIsScheduled(h: seq<Event>, r: History.Record) returns (s: int)
    requires r in Records(h) && r.ActivityRecord?
    ensures SchedulesAt(h, s) && h[s - 1].attrs.call == r.call
  {
    var init := h[..|h| - 1];
    if r in Records(init) {
      s := RecordIsScheduled(init, r);
    } else {
      s := |h|;
    }
  }

  /** Effects recorded under a workflow id used by orders alone belong to their scheduled steps. */
  lemma EffectsAreSteps(reg: Registry, codec: Codec, worlds: seq<World>, moves: seq<Move>, i: nat, e: EffectKey) returns (k: RunKey, s: int)
    requires RunsOrders(reg, codec) && WorldBehavior(reg, worlds, moves) && i < |worlds|
    requires OnlyOrders(worlds[i].system.store, e.workflowId) && e in worlds[i].ledger
    ensures k in worlds[i].system.store.runs && k.workflowId == e.workflowId && e.activityId in STEP_IDS
    ensures SchedulesAt(worlds[i].system.store.runs[k].history, s)
            && worlds[i].system.store.runs[k].history[s - 1].attrs.call.activityId == e.activityId
  {
    hide RunsOrders, WorldStep, Behavior, CompletionsOk, PerformedOk;
    ReachableLedger(reg, worlds, moves, i);
    var d :| d in worlds[i].handed && WritesLedger(d.activityType) && KeyOf(d) == e;
    assert DeliveryOk(worlds[i].system.store, d);
    k, s := d.key, d.scheduledId;
    ForgetLedger(reg, worlds, moves);
    OrderActivities(reg, codec, Systems(worlds), Actions(moves), i, k, s);
  }

  /** A completed step of an order has its row in the ledger. */
  lemma CompletedIsRecorded(reg: Registry, codec: Codec, worlds: seq<World>, moves: seq<Move>, i: nat, k: RunKey, j: nat)
    requires RunsOrders(reg, codec) && WorldBehavior(reg, worlds, moves) && i < |worlds|
    requires k in worlds[i].system.store.runs && worlds[i].system.store.runs[k].workflowType == ORDER_TYPE
    requires var h := worlds[i].system.store.runs[k].history;
             j < |h| && h[j].attrs.ActivityCompleted?
    ensures var h := worlds[i].system.store.runs[k].history;
            && SchedulesAt(h, h[j].attrs.scheduledId)
            && EffectKey(k.workflowId, h[h[j].attrs.scheduledId - 1].attrs.call.activityId) in worlds[i].ledger
  {
    hide RunsOrders, WorldStep, Behavior, DeliveryOk, PerformedOk, LedgerOk;
    ReachableLedger(reg, worlds, moves, i);
    ForgetLedger(reg, worlds, moves);
    var h := worlds[i].system.store.runs[k].history;
    assert CompletionsOk(worlds[i].ledger, k, h);
    OrderActivities(reg, codec, Systems(worlds), Actions(moves), i, k, h[j].attrs.scheduledId);
  }

  lemma StepRecordId(r: History.Record, j: nat)
    requires j < 5 && j != 2 && IsStepRecord(r, j)
    ensures r.ActivityRecord? && r.call.activityId == "activity-" + Decimal(StepOf(j))
  {
  }

  /** All four ids of a COMPLETED order are among its completed activities. */
  lemma CompletedOrderIds(reg: Registry, codec: Codec, states: seq<System>, actions: seq<Action>, i: nat, k: RunKey)
    requires RunsOrders(reg, codec) && Behavior(reg, states, actions) && i < |states|
    requires k in states[i].store.runs && states[i].store.runs[k].workflowType == ORDER_TYPE
    requires states[i].store.runs[k].status == StatusCompleted
    ensures STEP_IDS <= CompletedIds(states[i].store.runs[k].history)
  {
    hide RunsOrders, Behavior, Records, Completions, Decimal, IsStepRecord, ReportsReceipt;
    OrderCompleted(reg, codec, states, actions, i, k);
    var h := states[i].store.runs[k].history;
    forall n | 0 <= n < 4
      ensures "activity-" + Decimal(n) in CompletedIds(h)
    {
      var j := if n <= 1 then n else n + 1;
      assert IsStepRecord(Records(h)[j], j);
      StepRecordId(Records(h)[j], j);
      var s := RecordIsScheduled(h, Records(h)[j]);
      var c := CompletionOf(h, s);
      assert h[c].attrs.ActivityCompleted? && SchedulesAt(h, h[c].attrs.scheduledId);
    }
  }

  /**
   Exactly-once side effects. While a workflow id is used by a single order, at every moment the
   completed activities are among the recorded effects, which are among the scheduled activities, and
   once the run is COMPLETED there are exactly four rows and four completed events.
   */
  lemma ExactlyOnceEffects(reg: Registry, codec: Codec, worlds: seq<World>, moves: seq<Move>, i: nat, k: RunKey)
    requires RunsOrders(reg, codec) && WorldBehavior(reg, worlds, moves) && i < |worlds|
    requires k in worlds[i].system.store.runs && worlds[i].system.store.runs[k].workflowType == ORDER_TYPE
    requires UsedOnce(worlds[i].system.store, k)
    ensures var h, ids := worlds[i].system.store.runs[k].history, EffectIds(worlds[i].ledger, k.workflowId);
            && CompletedIds(h) <= ids <= ScheduledIds(h)
            && (worlds[i].system.store.runs[k].status == StatusCompleted ==> |ids| == 4 && Completions(h) == 4)
  {
    hide RunsOrders, Behavior, Completions, WorldBehavior, Records;
    var h, ids := worlds[i].system.store.runs[k].history, EffectIds(worlds[i].ledger, k.workflowId);
    forall id | id in CompletedIds(h)
      ensures id in ids
    {
      var j :| 0 <= j < |h| && h[j].attrs.ActivityCompleted? && SchedulesAt(h, h[j].attrs.scheduledId)
               && id == h[h[j].attrs.scheduledId - 1].attrs.call.activityId;
      CompletedIsRecorded(reg, codec, worlds, moves, i, k, j);
      assert EffectKey(k.workflowId, id) in worlds[i].ledger;
    }
    forall id | id in ids
      ensures id in ScheduledIds(h)
    {
      var k', s := EffectsAreSteps(reg, codec, worlds, moves, i, EffectKey(k.workflowId, id));
      assert h[s - 1].attrs.ActivityScheduled?;
    }
    if worlds[i].system.store.runs[k].status == StatusCompleted {
      ForgetLedger(reg, worlds, moves);
      OrderCompleted(reg, codec, Systems(worlds), Actions(moves), i, k);
      OneRowPerStep(reg, codec, worlds, moves, i, k);
    }
  }

  /**
   The key has no run id, so however many orders complete under one workflow id the ledger holds
   four rows: a second order's side effects are absorbed as duplicates of the first one's.
   */
  lemma OneRowPerStep(reg: Registry, codec: Codec, worlds: seq<World>, moves: seq<Move>, i: nat, k: RunKey)
    requires RunsOrders(reg, codec) && WorldBehavior(reg, worlds, moves) && i < |worlds|
    requires OnlyOrders(worlds[i].system.store, k.workflowId)
    requires k in worlds[i].system.store.runs && worlds[i].system.store.runs[k].status == StatusCompleted
    ensures EffectIds(worlds[i].ledger, k.workflowId) == STEP_IDS && |STEP_IDS| == 4
  {
    hide RunsOrders, Behavior, WorldBehavior;
    ForgetLedger(reg, worlds, moves);
    var h, ids := worlds[i].system.store.runs[k].history, EffectIds(worlds[i].ledger, k.workflowId);
    CompletedOrderIds(reg, codec, Systems(worlds), Actions(moves), i, k);
    forall id | id in STEP_IDS
      ensures id in ids
    {
      assert id in CompletedIds(h);
      var j :| 0 <= j < |h| && h[j].attrs.ActivityCompleted? && SchedulesAt(h, h[j].attrs.scheduledId)
               && id == h[h[j].attrs.scheduledId - 1].attrs.call.activityId;
      CompletedIsRecorded(reg, codec, worlds, moves, i, k, j);
      assert EffectKey(k.workflowId, id) in worlds[i].ledger;
    }
    forall id | id in ids
      ensures id in STEP_IDS
    {
      var k', s := EffectsAreSteps(reg, codec, worlds, moves, i, EffectKey(k.workflowId, id));
    }
    StepIdsDistinct();
  }

  /** All runs that used the workflow id. */
  ghost function RunsOf(s: State, workflowId: string): set<RunKey> {
    set k | k in s.runs && k.workflowId == workflowId
  }

  /** Completed events over several runs. */
  ghost function TotalCompletions(s: State, keys: set<RunKey>): nat
    requires keys <= s.runs.Keys
  {
    if keys == {} then 0 else
      var k :| k in keys;
      Completions(s.runs[k].history) + TotalCompletions(s, keys - {k})
  }

  lemma {:induction false} TotalSplits(s: State, keys: set<RunKey>, k: RunKey)
    requires keys <= s.runs.Keys && k in keys
    ensures TotalCompletions(s, keys) == Completions(s.runs[k].history) + TotalCompletions(s, keys - {k})
  {
    hide Completions;
    var first :| first in keys
      && TotalCompletions(s, keys) == Completions(s.runs[first].history) + TotalCompletions(s, keys - {first});
    if first != k {
      TotalSplits(s, keys - {first}, k);
      TotalSplits(s, keys - {k}, first);
      assert keys - {first} - {k} == keys - {k} - {first};
    }
  }

  lemma {:induction false} TotalZeroExactly(s: State, keys: set<RunKey>)
    requires keys <= s.runs.Keys
    ensures TotalCompletions(s, keys) == 0 <==> forall k :: k in keys ==> Completions(s.runs[k].history) == 0
  {
    hide Completions;
    if keys != {} {
      var k :| k in keys;
      TotalSplits(s, keys, k);
      TotalZeroExactly(s, keys - {k});
    }
  }

  /**
   When the ledger counts side effects exactly. For a workflow id used by orders alone, one of them
   COMPLETED, the number of ledger rows is the number of completed events over all its runs if and only
   if no other run of that id has a completed event.
   */
  lemma RowsCountCompletionsExactly(reg: Registry, codec: Codec, worlds: seq<World>, moves: seq<Move>, i: nat, k: RunKey)
    requires RunsOrders(reg, codec) && WorldBehavior(reg, worlds, moves) && i < |worlds|
    requires OnlyOrders(worlds[i].system.store, k.workflowId)
    requires k in worlds[i].system.store.runs && worlds[i].system.store.runs[k].status == StatusCompleted
    ensures var s := worlds[i].system.store;
            |EffectIds(worlds[i].ledger, k.workflowId)| == TotalCompletions(s, RunsOf(s, k.workflowId))
            <==> forall k' :: k' in s.runs && k'.workflowId == k.workflowId && k' != k ==> Completions(s.runs[k'].history) == 0
  {
    hide RunsOrders, Behavior, WorldStep, Completions, EffectIds, Records;
    var s := worlds[i].system.store;
    OneRowPerStep(reg, codec, worlds, moves, i, k);
    ForgetLedger(reg, worlds, moves);
    OrderCompleted(reg, codec, Systems(worlds), Actions(moves), i, k);
    TotalSplits(s, RunsOf(s, k.workflowId), k);
    TotalZeroExactly(s, RunsOf(s, k.workflowId) - {k});
  }
}
