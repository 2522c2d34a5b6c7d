/**
 A reachable run showing that the clean-commit condition is needed: two activities run in parallel,
 the second completes after the first one's task was polled and before it was committed. The
 execution is left running, with both results recorded, and with nothing pending anywhere.
 */
module LostWakeup {
  import opened Basics
  import opened History
  import opened Program
  import opened Replay
  import opened ReplayTheorems
  import opened Growth
  import opened Log
  import opened Store
  import opened RunInvariant
  import opened System
  import opened Wakeup

  const OPTIONS := ActivityOptions("", 0, None, "")

  /** Start two activities, then wait for both. */
  function Both(input: Bytes, replies: seq<Response>): Request {
    if |replies| == 0 then ExecuteActivity("A", Payload([]), OPTIONS)
    else if |replies| == 1 then ExecuteActivity("B", Payload([]), OPTIONS)
    else if |replies| == 2 then Get(ActivityFuture(0))
    else if |replies| == 3 then Get(ActivityFuture(1))
    else Return([])
  }

  const REGISTRY: Registry := map["Both" := Both]
  const KEY := RunKey("order", "1")

  const A := ActivityCall("activity-0", "A", "q", [], DEFAULT_POLICY, 0)
  const B := ActivityCall("activity-1", "B", "q", [], DEFAULT_POLICY, 0)

  const E1 := Event(1, 0, WorkflowStarted("Both", "q", []))
  const E2 := Event(2, 0, ActivityScheduled(A))
  const E3 := Event(3, 0, ActivityScheduled(B))
  const E4 := Event(4, 0, ActivityStarted(2, "w", 1))
  const E5 := Event(5, 0, ActivityStarted(3, "w", 1))
  const E6 := Event(6, 0, ActivityCompleted(2, []))
  const E7 := Event(7, 0, ActivityCompleted(3, []))

  const POLLED := [E1, E2, E3, E4, E5, E6]

  const SCHEDULE := [
    ScheduleActivity("activity-0", "A", "q", [], None, 0),
    ScheduleActivity("activity-1", "B", "q", [], None, 0)]

  const FIRST := Message(1, "w", Decision(SCHEDULE, false), KEY, "Both", "q", [E1], 3)
  const SECOND := Message(2, "w", Decision([], false), KEY, "Both", "q", POLLED, 4)

  lemma Ids()
    ensures Decimal(0) == "0" && Decimal(1) == "1"
    ensures ActivityIdFor(0, OPTIONS) == "activity-0" && ActivityIdFor(1, OPTIONS) == "activity-1"
  {
  }

  lemma FirstDecision()
    ensures DecidesWithin(Both, "q", [E1], FIRST.decision, 3)
  {
    hide Decimal;
    Ids();
    assert ViewOf([]) == EMPTY_VIEW;
    ViewAppend([], E1);
    assert [] + [E1] == [E1];
    var v := ViewOf([E1]);
    assert v == EMPTY_VIEW;
    hide ReplayStep;
    FirstSteps();
    assert ReplayRun(Both, "q", v, 0) == Going(START);
    assert ReplayRun(Both, "q", v, 1) == Going(Machine([None], [], {}, [SCHEDULE[0]], [Handle]));
    assert ReplayRun(Both, "q", v, 2) == Going(Machine([None, None], [], {}, SCHEDULE, [Handle, Handle]));
    assert ReplayRun(Both, "q", v, 3) == Yielded(Machine([None, None], [], {}, SCHEDULE, [Handle, Handle]));
  }

  lemma FirstSteps()
    ensures var m1 := Machine([None], [], {}, [SCHEDULE[0]], [Handle]);
            var m2 := Machine([None, None], [], {}, SCHEDULE, [Handle, Handle]);
            && ReplayStep(Both, "q", EMPTY_VIEW, START) == Going(m1)
            && ReplayStep(Both, "q", EMPTY_VIEW, m1) == Going(m2)
            && ReplayStep(Both, "q", EMPTY_VIEW, m2) == Yielded(m2)
  {
    hide NonDeterminism, PanicFailure, ActivityIdFor;
    Ids();
  }

  function ViewWith(activities: seq<ActivityState>): View {
    View([], 0, false, activities, [], [])
  }

  const PENDING_A := ActivityState(2, "A", false, [], false, None)
  const PENDING_B := ActivityState(3, "B", false, [], false, None)

  lemma ScheduledView()
    ensures ViewOf([E1, E2, E3]) == ViewWith([PENDING_A, PENDING_B])
  {
    assert ViewOf([]) == EMPTY_VIEW;
    hide ViewOf;
    ViewAppend([], E1);
    assert [] + [E1] == [E1];
    ViewAppend([E1], E2);
    assert [E1] + [E2] == [E1, E2];
    ViewAppend([E1, E2], E3);
    assert [E1, E2] + [E3] == [E1, E2, E3];
  }

  lemma PolledView()
    ensures ViewOf(POLLED) == ViewWith([PENDING_A.(completed := true), PENDING_B])
  {
    hide ViewOf;
    ScheduledView();
    ViewAppend([E1, E2, E3], E4);
    assert [E1, E2, E3] + [E4] == [E1, E2, E3, E4];
    ViewAppend([E1, E2, E3, E4], E5);
    assert [E1, E2, E3, E4] + [E5] == [E1, E2, E3, E4, E5];
    ViewAppend([E1, E2, E3, E4, E5], E6);
    assert [E1, E2, E3, E4, E5] + [E6] == POLLED;
    var before := ViewWith([PENDING_A, PENDING_B]);
    assert Absorb(before, E4) == before && Absorb(before, E5) == before;
    assert Complete([PENDING_A, PENDING_B], 2, []) == [PENDING_A.(completed := true), PENDING_B];
  }

  lemma SecondDecision()
    ensures DecidesWithin(Both, "q", POLLED, SECOND.decision, 4)
  {
    PolledView();
    hide ViewOf, ReplayStep;
    var v := ViewOf(POLLED);
    var done := Some(Value([]));
    SecondSteps(v);
    assert ReplayRun(Both, "q", v, 0) == Going(START);
    assert ReplayRun(Both, "q", v, 1) == Going(Machine([done], [], {}, [], [Handle]));
    assert ReplayRun(Both, "q", v, 2) == Going(Machine([done, None], [], {}, [], [Handle, Handle]));
    assert ReplayRun(Both, "q", v, 3) == Going(Machine([done, None], [], {}, [], [Handle, Handle, Value([])]));
    assert ReplayRun(Both, "q", v, 4) == Yielded(Machine([done, None], [], {}, [], [Handle, Handle, Value([])]));
  }

  lemma SecondSteps(v: View)
    requires v.activities == [ActivityState(2, "A", true, [], false, None), ActivityState(3, "B", false, [], false, None)]
    ensures var done := Some(Value([]));
            var m2 := Machine([done, None], [], {}, [], [Handle, Handle]);
            var m3 := m2.(replies := [Handle, Handle, Value([])]);
            && ReplayStep(Both, "q", v, START) == Going(Machine([done], [], {}, [], [Handle]))
            && ReplayStep(Both, "q", v, Machine([done], [], {}, [], [Handle])) == Going(m2)
            && ReplayStep(Both, "q", v, m2) == Going(m3)
            && ReplayStep(Both, "q", v, m3) == Yielded(m3)
  {
    hide NonDeterminism, PanicFailure, ScheduleCommand;
  }

  // ---------------------------------------------------------------- the run, state by state

  function Pending(token: nat): Option<WorkflowTask> {
    Some(WorkflowTask(token, "q", 0, None, None))
  }

  function Polled(token: nat): Option<WorkflowTask> {
    Some(WorkflowTask(token, "q", 0, Some(10), Some("w")))
  }

  function Row(token: nat, call: ActivityCall): ActivityTask {
    ActivityTask(token, FirstColumns(call, 0), None, None)
  }

  function Leased(token: nat, call: ActivityCall): ActivityTask {
    ActivityTask(token, FirstColumns(call, 0).(lastStarted := 1), Some(10), Some("w"))
  }

  function RunWith(h: seq<Event>, task: Option<WorkflowTask>, rows: map<int, ActivityTask>): Run {
    Run("Both", "q", [], StatusRunning, |h| + 1, h, task, rows, map[])
  }

  function StateWith(r: Run, workflowSeq: nat, activitySeq: nat): State {
    State(map[KEY := r], workflowSeq, activitySeq, 0)
  }

  const C1 := System(StateWith(RunWith([E1], Pending(1), map[]), 2, 1), {})
  const C2 := System(StateWith(RunWith([E1], Polled(1), map[]), 2, 1), {FIRST})
  const C3 := System(StateWith(RunWith([E1, E2, E3], None, map[2 := Row(1, A), 3 := Row(2, B)]), 2, 3), {FIRST})
  const C4 := System(StateWith(RunWith([E1, E2, E3, E4], None, map[2 := Leased(1, A), 3 := Row(2, B)]), 2, 3), {FIRST})
  const C5 := System(StateWith(RunWith([E1, E2, E3, E4, E5], None, map[2 := Leased(1, A), 3 := Leased(2, B)]), 2, 3), {FIRST})
  const C6 := System(StateWith(RunWith(POLLED, Pending(2), map[3 := Leased(2, B)]), 3, 3), {FIRST})
  const C7 := System(StateWith(RunWith(POLLED, Polled(2), map[3 := Leased(2, B)]), 3, 3), {FIRST, SECOND})
  const C8 := System(StateWith(RunWith(POLLED + [E7], Polled(2), map[]), 4, 3), {FIRST, SECOND})
  const C9 := System(StateWith(RunWith(POLLED + [E7], None, map[]), 4, 3), {FIRST, SECOND})

  lemma Step1()
    ensures Step(REGISTRY, INIT, Start(KEY, "Both", "q", []), C1)
  {
    assert NewRun("Both", "q", [], 1, 0) == RunWith([E1], Pending(1), map[]);
    assert StartWorkflow(INIT.store, KEY, "Both", "q", [], C1.store, Started(KEY));
  }

  lemma Step2()
    ensures Step(REGISTRY, C1, PollWorkflow(KEY, "w", 10, {FIRST}), C2)
  {
    FirstDecision();
    hide DecidesWithin;
    assert Honest(REGISTRY, C1.store, KEY, "w", FIRST);
  }

  lemma Commit3()
    ensures Commit(RunWith([E1], Polled(1), map[]), 0, 1, SCHEDULE)
            == RunWith([E1, E2, E3], None, map[2 := Row(1, A), 3 := Row(2, B)])
    ensures TokensUsed(SCHEDULE) == 2
  {
    var r0 := RunWith([E1], Polled(1), map[]);
    var r1 := RunWith([E1, E2], Polled(1), map[2 := Row(1, A)]);
    assert ApplyCommand(r0, 0, 1, SCHEDULE[0]) == r1;
    assert ApplyCommand(r1, 0, 2, SCHEDULE[1]) == RunWith([E1, E2, E3], Polled(1), map[2 := Row(1, A), 3 := Row(2, B)]);
    assert SCHEDULE[1..] == [SCHEDULE[1]];
    assert [SCHEDULE[1]][1..] == [];
  }

  lemma Step3()
    ensures Step(REGISTRY, C2, RespondWorkflow(FIRST), C3)
  {
    hide Commit, TokensUsed;
    Commit3();
    assert HoldsWorkflow(C2.store, KEY, 1);
    assert C3 == C2.(store := CompleteWorkflowTask(C2.store, KEY, "w", SCHEDULE).0);
  }

  lemma Step4()
    ensures Step(REGISTRY, C3, PollActivity(KEY, 2, "w", 10), C4)
  {
    assert [E1, E2, E3] + [E4] == [E1, E2, E3, E4];
    assert map[2 := Row(1, A), 3 := Row(2, B)][2 := Leased(1, A)] == map[2 := Leased(1, A), 3 := Row(2, B)];
    assert LeaseActivity(C3.store.runs[KEY], 2, 0, "w", 10) == C4.store.runs[KEY];
  }

  lemma Step5()
    ensures Step(REGISTRY, C4, PollActivity(KEY, 3, "w", 10), C5)
  {
    assert [E1, E2, E3, E4] + [E5] == [E1, E2, E3, E4, E5];
    assert map[2 := Leased(1, A), 3 := Row(2, B)][3 := Leased(2, B)] == map[2 := Leased(1, A), 3 := Leased(2, B)];
    assert LeaseActivity(C4.store.runs[KEY], 3, 0, "w", 10) == C5.store.runs[KEY];
  }

  lemma Step6()
    ensures Step(REGISTRY, C5, RespondCompleted(1, "w", []), C6)
  {
    assert HoldsActivity(C5.store, KEY, 2, 1);
    assert [E1, E2, E3, E4, E5] + [E6] == POLLED;
    assert C5.store.runs[KEY].activities - {2} == map[3 := Leased(2, B)];
    assert C6 == C5.(store := CompleteActivityTask(C5.store, KEY, 2, "w", []).0);
  }

  lemma Step7()
    ensures Step(REGISTRY, C6, PollWorkflow(KEY, "w", 10, {SECOND}), C7)
  {
    SecondDecision();
    hide DecidesWithin;
    assert Honest(REGISTRY, C6.store, KEY, "w", SECOND);
    assert C7.sent == C6.sent + {SECOND};
  }

  lemma Step8()
    ensures Step(REGISTRY, C7, RespondCompleted(2, "w", []), C8)
  {
    assert HoldsActivity(C7.store, KEY, 3, 2);
    assert C7.store.runs[KEY].activities - {3} == map[];
    assert C8 == C7.(store := CompleteActivityTask(C7.store, KEY, 3, "w", []).0);
  }

  lemma Step9()
    ensures Step(REGISTRY, C8, RespondWorkflow(SECOND), C9)
    ensures CommitsTo(C8, SECOND, KEY, C9)
  {
    assert HoldsWorkflow(C8.store, KEY, 2);
    assert C9 == C8.(store := CompleteWorkflowTask(C8.store, KEY, "w", []).0);
  }

  const STATES := [INIT, C1, C2, C3, C4, C5, C6, C7, C8, C9]

  const ACTIONS := [
    Start(KEY, "Both", "q", []),
    PollWorkflow(KEY, "w", 10, {FIRST}),
    RespondWorkflow(FIRST),
    PollActivity(KEY, 2, "w", 10),
    PollActivity(KEY, 3, "w", 10),
    RespondCompleted(1, "w", []),
    PollWorkflow(KEY, "w", 10, {SECOND}),
    RespondCompleted(2, "w", []),
    RespondWorkflow(SECOND)]

  /** A reachable state in which a running execution is not awake and has nothing left that could wake it. */
  lemma WakeupCanBeLost()
    ensures Behavior(REGISTRY, STATES, ACTIONS)
    ensures KEY in STATES[9].store.runs
    ensures var r := STATES[9].store.runs[KEY];
            && r.status == StatusRunning && r.task.None? && r.activities == map[] && r.timers == map[]
            && WokenSince(|SECOND.basis|, r.history)
            && !Awake(r, |SECOND.basis|)
    ensures CommitsTo(STATES[8], SECOND, KEY, STATES[9])
  {
    hide Step, CommitsTo;
    Step1(); Step2(); Step3(); Step4(); Step5(); Step6(); Step7(); Step8(); Step9();
    assert IsWake(STATES[9].store.runs[KEY].history[6].attrs);
  }
}
