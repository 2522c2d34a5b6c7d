/**
 Progress of sequential workflows. When the code waits for each durable call right after making it,
 and nobody signals the run, exactly one thing is ever outstanding: a workflow task, a live activity,
 an unfired timer, or nothing because the run has closed. Such a run can never get stuck.
 */
module Sequential {
  import opened Basics
  import opened History
  import opened Program
  import opened Replay
  import opened ReplayTheorems
  import opened Growth
  import opened Log
  import opened Store
  import opened RunInvariant
  import opened System
  import opened Durability

  /** The future of the latest durable call. */
  ghost function Newest(e: Eval): Future
    requires e.records != [] && Coherent(e)
  {
    if e.records[|e.records| - 1].ActivityRecord? then ActivityFuture(|e.types| - 1) else TimerFuture(e.timers - 1)
  }

  /** After a durable call the code waits for it at once, and it never awaits a signal. */
  ghost predicate WaitsAtOnce(code: Code, input: Bytes, e: Eval) {
    && !code(input, e.replies).AwaitSignal?
    && (e.replies != [] && e.replies[|e.replies| - 1] == Handle ==>
          e.records != [] && Coherent(e) && code(input, e.replies) == Get(Newest(e)))
  }

  ghost predicate IsSequential(code: Code) {
    && Stable(code)
    && forall queue, input, script, n: nat :: Evaluate(code, queue, input, script, n).Running? ==>
         WaitsAtOnce(code, input, Evaluate(code, queue, input, script, n).eval)
  }

  // ---------------------------------------------------------------- what a sequential decision does

  /** Every recorded call is answered. */
  ghost predicate AllAnswered(script: Script, recorded: seq<Record>) {
    && |script.activities| == ActivityCount(recorded) && |script.timers| == TimerCount(recorded)
    && (forall i :: 0 <= i < |script.activities| ==> script.activities[i].Some?)
    && (forall i :: 0 <= i < |script.timers| ==> script.timers[i])
  }

  /** The evaluation is within the recorded calls, or one call ahead and about to wait for it. */
  ghost predicate OneAhead(s: Status, recorded: seq<Record>) {
    && |s.eval.records| <= |recorded| + 1
    && (s.Running? && |s.eval.records| == |recorded| + 1 ==>
          s.eval.replies != [] && s.eval.replies[|s.eval.replies| - 1] == Handle)
    && (s.Blocked? ==> |s.eval.records| == |recorded| + 1)
    && (s.Finished? ==> |s.eval.records| <= |recorded|)
  }

  lemma AnsweredWithin(script: Script, recorded: seq<Record>, e: Eval, f: Future)
    requires AllAnswered(script, recorded) && Coherent(e) && e.records <= recorded && Held(e, f)
    ensures Answer(script, e, f).Some?
  {
    CountPrefix(e.records, recorded);
  }

  lemma NewestUnanswered(script: Script, recorded: seq<Record>, e: Eval)
    requires AllAnswered(script, recorded) && Coherent(e) && recorded <= e.records && |e.records| == |recorded| + 1
    ensures Held(e, Newest(e)) && Answer(script, e, Newest(e)).None?
  {
    assert e.records[..|e.records| - 1] == recorded;
  }

  lemma OneAheadStep(code: Code, queue: string, input: Bytes, script: Script, recorded: seq<Record>, e: Eval)
    requires Stable(code) && WaitsAtOnce(code, input, e) && AllAnswered(script, recorded) && Coherent(e)
    requires Comparable(recorded, e.records) && OneAhead(Running(e), recorded)
    ensures OneAhead(EvalStep(code, queue, input, script, e), recorded)
  {
    hide AllAnswered, Answer, NextSignal, CallRecord, PanicFailure, TimerIdFor;
    assert !ObservesAbsence(code(input, e.replies));
    if |e.records| == |recorded| + 1 {
      NewestUnanswered(script, recorded, e);
    } else {
      assert e.records <= recorded;
      match code(input, e.replies)
      case Get(f) =>
        if Held(e, f) {
          AnsweredWithin(script, recorded, e, f);
        }
      case _ =>
    }
  }

  lemma {:induction false} StaysOneAhead(code: Code, queue: string, input: Bytes, script: Script, recorded: seq<Record>, n: nat, top: nat)
    requires IsSequential(code) && AllAnswered(script, recorded) && n <= top
    requires recorded <= Evaluate(code, queue, input, script, top).eval.records
    ensures OneAhead(Evaluate(code, queue, input, script, n), recorded)
  {
    hide EvalStep, Stable, Coherent, AllAnswered, WaitsAtOnce;
    if n > 0 {
      StaysOneAhead(code, queue, input, script, recorded, n - 1, top);
      var s := Evaluate(code, queue, input, script, n - 1);
      if s.Running? {
        RunCoherent(code, queue, input, script, n - 1);
        RunGrows(code, queue, input, script, n - 1, top);
        assert WaitsAtOnce(code, input, s.eval);
        OneAheadStep(code, queue, input, script, recorded, s.eval);
      }
    }
  }

  /** With every recorded call answered, a decision is exactly one new call or the close. */
  lemma SequentialDecision(code: Code, queue: string, h: seq<Event>, d: Decision, n: nat)
    requires IsSequential(code) && Consistent(code, queue, h) && !Closed(h)
    requires AllAnswered(LogScript(h), Records(h))
    requires DecidesWithin(code, queue, h, d, n)
    ensures |d.commands| == 1
    ensures IsCall(d.commands[0]) == !d.completed
  {
    hide IsSequential, Evaluate, ViewOf, ScriptOf, Records, RecordsOf, Closed, DecidesWithin, AllAnswered;
    DecisionIsSurplus(code, queue, h, d, n);
    var k: nat :| ConsistentWithin(code, queue, h, k);
    var top := if k <= n then n else k;
    RunGrows(code, queue, ViewOf(h).input, LogScript(h), k, top);
    StaysOneAhead(code, queue, ViewOf(h).input, LogScript(h), Records(h), n, top);
    var s := Straight(code, queue, h, n);
    if s.Blocked? {
      CallsRecord(d.commands);
    } else {
      var calls := d.commands[..|d.commands| - 1];
      CallsRecord(calls);
      RecordsOfAppend(calls, d.commands[|d.commands| - 1]);
      assert d.commands == calls + [d.commands[|d.commands| - 1]];
    }
  }

  // ---------------------------------------------------------------- what is outstanding

  function Unfired(h: seq<Event>): set<int> {
    set s | s in TimersOf(h) && !TimersOf(h)[s].fired
  }

  ghost function Outstanding(h: seq<Event>): nat {
    |Live(h)| + |Unfired(h)| + (if Closed(h) then 1 else 0)
  }

  /** Projected activities have distinct past ids and are pending exactly while their row is live. */
  ghost predicate ActivitiesMirror(states: seq<ActivityState>, live: map<int, ActivityColumns>, n: int) {
    && (forall i :: 0 <= i < |states| ==> states[i].id <= n && (states[i].id in live <==> OutcomeOf(states[i]).None?))
    && (forall i, j :: 0 <= i < j < |states| ==> states[i].id != states[j].id)
  }

  /** Projected timers have distinct past ids and carry the flag of their row. */
  ghost predicate TimersMirror(states: seq<TimerState>, rows: map<int, TimerRow>, n: int) {
    && (forall i :: 0 <= i < |states| ==> states[i].id <= n && states[i].id in rows && rows[states[i].id].fired == states[i].fired)
    && (forall i, j :: 0 <= i < j < |states| ==> states[i].id != states[j].id)
  }

  lemma ResolvedMirror(states: seq<ActivityState>, states': seq<ActivityState>, live: map<int, ActivityColumns>, s: int, n: int)
    requires ActivitiesMirror(states, live, n)
    requires (exists r :: states' == Complete(states, s, r)) || (exists f :: states' == MarkFailed(states, s, f))
    ensures ActivitiesMirror(states', live - {s}, n + 1)
  {
    assert |states'| == |states|;
    forall i | 0 <= i < |states|
      ensures states'[i].id == states[i].id
      ensures states[i].id != s ==> states'[i] == states[i]
      ensures states[i].id == s ==> OutcomeOf(states'[i]).Some?
    {
    }
  }

  lemma ActivitiesMirrorStep(v: View, live: map<int, ActivityColumns>, e: Event, n: int)
    requires ActivitiesMirror(v.activities, live, n) && e.id == n + 1
    ensures ActivitiesMirror(Absorb(v, e).activities, LiveStep(live, e), n + 1)
  {
    hide FirstColumns, Fire, Complete, MarkFailed;
    match e.attrs
    case ActivityCompleted(s, r) =>
      ResolvedMirror(v.activities, Complete(v.activities, s, r), live, s, n);
    case ActivityFailed(s, f, _) =>
      ResolvedMirror(v.activities, MarkFailed(v.activities, s, f), live, s, n);
    case ActivityScheduled(_) =>
    case _ => assert LiveStep(live, e).Keys == live.Keys;
  }

  lemma TimersMirrorStep(v: View, rows: map<int, TimerRow>, e: Event, n: int)
    requires TimersMirror(v.timers, rows, n) && e.id == n + 1
    ensures TimersMirror(Absorb(v, e).timers, TimerStep(rows, e), n + 1)
  {
    hide Complete, MarkFailed;
  }

  /** The replay projection and the queue tables are two views of one log, and they agree. */
  lemma {:induction false} ProjectionMirrorsTables(h: seq<Event>)
    requires WellFormed(h)
    ensures ActivitiesMirror(ViewOf(h).activities, Live(h), |h|)
    ensures TimersMirror(ViewOf(h).timers, TimersOf(h), |h|)
  {
    if h == [] {
      assert ViewOf(h) == EMPTY_VIEW;
    } else {
      hide Legal, ActivitiesMirror, TimersMirror, Absorb, LiveStep, TimerStep;
      var init, e := h[..|h| - 1], h[|h| - 1];
      ProjectionMirrorsTables(init);
      ActivitiesMirrorStep(ViewOf(init), Live(init), e, |init|);
      TimersMirrorStep(ViewOf(init), TimersOf(init), e, |init|);
    }
  }

  lemma NothingOutstandingAnswered(h: seq<Event>)
    requires WellFormed(h) && Live(h) == map[] && Unfired(h) == {}
    ensures AllAnswered(LogScript(h), Records(h))
  {
    hide WellFormed, Live, TimersOf, ViewOf, Records;
    ProjectionMirrorsTables(h);
    ViewProjects(h);
    assert forall s :: s in TimersOf(h) && !TimersOf(h)[s].fired ==> s in Unfired(h);
  }

  /** With nothing outstanding, only a signal can grow the log quietly. */
  lemma NothingCanHappen(h: seq<Event>, e: Event)
    requires WellFormed(h) && Legal(h, e) && h != []
    requires Live(h) == map[] && Unfired(h) == {}
    requires !IsRecord(e.attrs) && !IsClose(e.attrs)
    ensures e.attrs.Signaled?
  {
    hide WellFormed, Live, TimersOf, Closed;
    assert forall s :: s in TimersOf(h) && !TimersOf(h)[s].fired ==> s in Unfired(h);
  }
}
