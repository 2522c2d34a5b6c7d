/**
 Replaying a log is straight-through evaluation. The machine that matches calls against recorded
 events, hands out captured futures and consumes flagged signals is shown to move in lockstep with
 the reference evaluation of `Program`, and its commands to be exactly the calls the log lacks.
 */
module ReplayTheorems {
  import opened Basics
  import opened History
  import opened Program
  import opened Replay

  // ---------------------------------------------------------------- signals: flags versus counting

  /** Flag i is set exactly when fewer earlier namesakes exist than were taken. */
  ghost predicate Tally(signals: seq<Signal>, consumed: set<nat>, taken: multiset<string>) {
    forall i :: 0 <= i < |signals| ==>
      (i in consumed <==> |Named(signals[..i], signals[i].name)| < taken[signals[i].name])
  }

  lemma NamedAt(signals: seq<Signal>, i: nat)
    requires i < |signals|
    ensures var name := signals[i].name;
            var rank := |Named(signals[..i], name)|;
            && rank < |Named(signals, name)|
            && Named(signals, name)[rank] == signals[i].input
            && (forall j :: i < j < |signals| && signals[j].name == name ==> rank < |Named(signals[..j], name)|)
  {
    var name := signals[i].name;
    assert signals[..i + 1][..i] == signals[..i];
    NamedExtends(signals[..i + 1], signals, name);
    forall j | i < j < |signals| && signals[j].name == name
      ensures |Named(signals[..i], name)| < |Named(signals[..j], name)|
    {
      NamedExtends(signals[..i + 1], signals[..j], name);
    }
  }

  /** A namesake of every rank exists. */
  lemma {:induction false} FindRank(signals: seq<Signal>, name: string, rank: nat) returns (i: nat)
    requires rank < |Named(signals, name)|
    ensures i < |signals| && signals[i].name == name && |Named(signals[..i], name)| == rank
  {
    var init := signals[..|signals| - 1];
    if rank < |Named(init, name)| {
      i := FindRank(init, name, rank);
      assert signals[..i] == init[..i];
    } else {
      i := |signals| - 1;
    }
  }

  /** The k-th consumption of a name by flags yields the k-th signal of that name, each once. */
  lemma ConsumptionCounts(signals: seq<Signal>, consumed: set<nat>, taken: multiset<string>, name: string)
    requires Tally(signals, consumed, taken)
    ensures var found := FirstUnconsumed(signals, consumed, name, 0);
            && (found.Some? <==> taken[name] < |Named(signals, name)|)
            && (found.Some? ==> signals[found.value].input == Named(signals, name)[taken[name]])
            && (found.Some? ==> Tally(signals, consumed + {found.value}, taken + multiset{name}))
  {
    var found := FirstUnconsumed(signals, consumed, name, 0);
    if taken[name] < |Named(signals, name)| {
      var i := FindRank(signals, name, taken[name]);
      assert i !in consumed;
    }
    if found.Some? {
      var f := found.value;
      NamedAt(signals, f);
      FirstHasRank(signals, consumed, taken, name);
      forall i | 0 <= i < |signals|
        ensures i in consumed + {f} <==> |Named(signals[..i], signals[i].name)| < (taken + multiset{name})[signals[i].name]
      {
        if signals[i].name == name && i != f {
          if f < i {
            assert |Named(signals[..f], name)| < |Named(signals[..i], name)|;
          } else {
            NamedAt(signals, i);
          }
        }
      }
    }
  }

  lemma FirstHasRank(signals: seq<Signal>, consumed: set<nat>, taken: multiset<string>, name: string)
    requires Tally(signals, consumed, taken)
    requires FirstUnconsumed(signals, consumed, name, 0).Some?
    ensures |Named(signals[..FirstUnconsumed(signals, consumed, name, 0).value], name)| == taken[name]
  {
    var f := FirstUnconsumed(signals, consumed, name, 0).value;
    NamedAt(signals, f);
    var i := FindRank(signals, name, taken[name]);
    assert i !in consumed && f <= i;
  }

  // ---------------------------------------------------------------- lockstep

  /** Commands are the calls beyond the recorded ones. */
  ghost predicate Surplus(recorded: seq<Record>, commands: seq<Command>, made: seq<Record>) {
    || (made <= recorded && commands == [])
    || (recorded <= made && RecordsOf(commands) == made[|recorded|..])
  }

  ghost predicate FuturesAgree(v: View, m: Machine, e: Eval) {
    && |m.activityFutures| == |e.types|
    && |m.timerFutures| == e.timers
    && (forall i :: 0 <= i < |e.types| ==> m.activityFutures[i] == Answer(ScriptOf(v), e, ActivityFuture(i)))
    && (forall i :: 0 <= i < e.timers ==> m.timerFutures[i] == Answer(ScriptOf(v), e, TimerFuture(i)))
  }

  ghost predicate Matches(v: View, recorded: seq<Record>, m: Machine, e: Eval) {
    && m.replies == e.replies
    && FuturesAgree(v, m, e)
    && Tally(v.signals, m.consumed, e.taken)
    && Surplus(recorded, m.commands, e.records)
    && Coherent(e)
  }

  ghost predicate Comparable(a: seq<Record>, b: seq<Record>) {
    a <= b || b <= a
  }

  ghost predicate SameStatus(v: View, recorded: seq<Record>, p: Progress, s: Status) {
    && Matches(v, recorded, p.machine, s.eval)
    && (p.Going? <==> s.Running?)
    && (p.Yielded? <==> s.Blocked?)
    && (p.Ended? ==> s.Finished? && p.close == s.close)
  }

  /** A call that the log already holds at this position, or one past the end of the log. */
  lemma CallPosition(v: View, recorded: seq<Record>, m: Machine, e: Eval, r: Record)
    requires Projects(v, recorded) && Matches(v, recorded, m, e)
    requires Comparable(recorded, e.records + [r])
    ensures r.ActivityRecord? ==> (|e.types| < |v.activities| <==> |e.records| < |recorded|)
    ensures r.TimerRecord? ==> (e.timers < |v.timers| <==> |e.records| < |recorded|)
    ensures |e.records| < |recorded| ==>
              recorded[|e.records|] == r && e.records + [r] <= recorded && m.commands == []
    ensures r.ActivityRecord? && |e.records| < |recorded| ==>
              v.activities[|e.types|].activityType == r.call.activityType
  {
    if |e.records| < |recorded| {
      assert e.records <= recorded;
      assert e.records + [r] <= recorded;
      assert recorded[|e.records|] == (e.records + [r])[|e.records|];
      assert recorded[..|e.records|] == e.records;
      CountPrefix(e.records, recorded);
    } else {
      assert recorded <= e.records + [r];
      assert recorded <= e.records;
      CountPrefix(recorded, e.records);
    }
  }

  lemma SurplusGrows(recorded: seq<Record>, commands: seq<Command>, made: seq<Record>, c: Command, r: Record)
    requires Surplus(recorded, commands, made) && |recorded| <= |made|
    requires RecordOfCommand(c) == [r]
    ensures Surplus(recorded, commands + [c], made + [r])
  {
    RecordsOfAppend(commands, c);
    if made <= recorded {
      assert made == recorded;
      assert RecordsOf([]) == [];
    }
    assert recorded <= made;
    assert (made + [r])[|recorded|..] == made[|recorded|..] + [r];
  }

  /** The future of a recorded activity answers as the script does; that of a new one is pending. */
  lemma ActivityFutureAgrees(v: View, m: Machine, e: Eval, m': Machine, e': Eval, t: string)
    requires FuturesAgree(v, m, e)
    requires e'.types == e.types + [t] && e'.timers == e.timers && m'.timerFutures == m.timerFutures
    requires |e.types| < |v.activities| ==>
               m'.activityFutures == m.activityFutures + [ActivityAnswer(v.activities[|e.types|], t)]
    requires |e.types| >= |v.activities| ==> m'.activityFutures == m.activityFutures + [None]
    ensures FuturesAgree(v, m', e')
  {
    forall i | 0 <= i < |e'.types|
      ensures m'.activityFutures[i] == Answer(ScriptOf(v), e', ActivityFuture(i))
    {
      if i < |e.types| {
        assert m.activityFutures[i] == Answer(ScriptOf(v), e, ActivityFuture(i));
      }
    }
    forall i | 0 <= i < e'.timers
      ensures m'.timerFutures[i] == Answer(ScriptOf(v), e', TimerFuture(i))
    {
      assert m.timerFutures[i] == Answer(ScriptOf(v), e, TimerFuture(i));
    }
  }

  lemma TimerFutureAgrees(v: View, m: Machine, e: Eval, m': Machine, e': Eval)
    requires FuturesAgree(v, m, e)
    requires e'.types == e.types && e'.timers == e.timers + 1 && m'.activityFutures == m.activityFutures
    requires e.timers < |v.timers| ==> m'.timerFutures == m.timerFutures + [TimerAnswer(v.timers[e.timers])]
    requires e.timers >= |v.timers| ==> m'.timerFutures == m.timerFutures + [None]
    ensures FuturesAgree(v, m', e')
  {
    forall i | 0 <= i < |e'.types|
      ensures m'.activityFutures[i] == Answer(ScriptOf(v), e', ActivityFuture(i))
    {
      assert m.activityFutures[i] == Answer(ScriptOf(v), e, ActivityFuture(i));
    }
    forall i | 0 <= i < e'.timers
      ensures m'.timerFutures[i] == Answer(ScriptOf(v), e', TimerFuture(i))
    {
      if i < e.timers {
        assert m.timerFutures[i] == Answer(ScriptOf(v), e, TimerFuture(i));
      }
    }
  }

  lemma FuturesCount(v: View, m: Machine, e: Eval)
    requires FuturesAgree(v, m, e)
    ensures |m.activityFutures| == |e.types| && |m.timerFutures| == e.timers
  {
  }

  lemma ScheduledRecord(index: nat, queue: string, t: string, b: Bytes, o: ActivityOptions)
    ensures RecordOfCommand(ScheduleCommand(index, queue, t, b, o)) == [CallRecord(index, queue, t, b, o)]
    ensures CallRecord(index, queue, t, b, o).ActivityRecord? && CallRecord(index, queue, t, b, o).call.activityType == t
  {
  }

  lemma SurplusWithin(recorded: seq<Record>, made: seq<Record>)
    requires made <= recorded
    ensures Surplus(recorded, [], made)
  {
  }

  lemma ActivityLockstep(queue: string, v: View, recorded: seq<Record>, m: Machine, e: Eval,
                         t: string, b: Bytes, o: ActivityOptions)
    requires Projects(v, recorded) && Matches(v, recorded, m, e)
    requires Comparable(recorded, e.records + [CallRecord(|e.types|, queue, t, b, o)])
    ensures var e' := Reply(e.(records := e.records + [CallRecord(|e.types|, queue, t, b, o)], types := e.types + [t]), Handle);
            var p := OnExecuteActivity(queue, v, m, t, Payload(b), o);
            p.Going? && Matches(v, recorded, p.machine, e')
  {
    hide Projects, FuturesAgree, Surplus, Tally, CallRecord, ActivityAnswer, ScheduleCommand;
    var r := CallRecord(|e.types|, queue, t, b, o);
    ScheduledRecord(|e.types|, queue, t, b, o);
    assert |m.activityFutures| == |e.types| by { FuturesCount(v, m, e); }
    CallPosition(v, recorded, m, e, r);
    var e' := Reply(e.(records := e.records + [r], types := e.types + [t]), Handle);
    var m' := OnExecuteActivity(queue, v, m, t, Payload(b), o).machine;
    assert (e.records + [r])[..|e.records|] == e.records;
    assert Surplus(recorded, m'.commands, e'.records) by {
      if |e.records| >= |recorded| {
        SurplusGrows(recorded, m.commands, e.records, ScheduleCommand(|e.types|, queue, t, b, o), r);
      } else {
        SurplusWithin(recorded, e'.records);
      }
    }
    ActivityFutureAgrees(v, m, e, m', e', t);
  }

  lemma TimerLockstep(v: View, recorded: seq<Record>, m: Machine, e: Eval, d: int)
    requires Projects(v, recorded) && Matches(v, recorded, m, e)
    requires Comparable(recorded, e.records + [TimerRecord(TimerIdFor(e.timers), WireDuration(d))])
    ensures var e' := Reply(e.(records := e.records + [TimerRecord(TimerIdFor(e.timers), WireDuration(d))], timers := e.timers + 1), Handle);
            Matches(v, recorded, OnNewTimer(v, m, d), e')
  {
    hide Projects, FuturesAgree, Surplus, Tally, TimerAnswer;
    var r := TimerRecord(TimerIdFor(e.timers), WireDuration(d));
    assert |m.timerFutures| == e.timers by { FuturesCount(v, m, e); }
    CallPosition(v, recorded, m, e, r);
    var e' := Reply(e.(records := e.records + [r], timers := e.timers + 1), Handle);
    var m' := OnNewTimer(v, m, d);
    assert (e.records + [r])[..|e.records|] == e.records;
    assert Surplus(recorded, m'.commands, e'.records) by {
      if |e.records| >= |recorded| {
        SurplusGrows(recorded, m.commands, e.records, StartTimer(TimerIdFor(e.timers), WireDuration(d)), r);
      } else {
        SurplusWithin(recorded, e'.records);
      }
    }
    TimerFutureAgrees(v, m, e, m', e');
  }

  lemma FutureLockstep(v: View, recorded: seq<Record>, m: Machine, e: Eval, f: Future)
    requires Matches(v, recorded, m, e)
    ensures HeldBy(m, f) <==> Held(e, f)
    ensures Held(e, f) ==> FutureAnswer(m, f) == Answer(ScriptOf(v), e, f)
    ensures forall r :: Matches(v, recorded, Respond(m, r), Reply(e, r))
  {
    forall r
      ensures Matches(v, recorded, Respond(m, r), Reply(e, r))
    {
      var m', e' := Respond(m, r), Reply(e, r);
      assert forall i :: 0 <= i < |e.types| ==> Answer(ScriptOf(v), e', ActivityFuture(i)) == Answer(ScriptOf(v), e, ActivityFuture(i));
      assert forall i :: 0 <= i < e.timers ==> Answer(ScriptOf(v), e', TimerFuture(i)) == Answer(ScriptOf(v), e, TimerFuture(i));
      assert FuturesAgree(v, m', e');
    }
  }

  lemma SignalLockstep(v: View, recorded: seq<Record>, m: Machine, e: Eval, name: string)
    requires Matches(v, recorded, m, e)
    ensures var i, s := FirstUnconsumed(v.signals, m.consumed, name, 0), NextSignal(ScriptOf(v), e, name);
            && (i.Some? <==> s.Some?)
            && (i.Some? ==> v.signals[i.value].input == s.value)
            && (i.Some? ==> Matches(v, recorded, m.(consumed := m.consumed + {i.value}), e.(taken := e.taken + multiset{name})))
  {
    ConsumptionCounts(v.signals, m.consumed, e.taken, name);
    var e' := e.(taken := e.taken + multiset{name});
    assert forall i :: 0 <= i < |e.types| ==> Answer(ScriptOf(v), e', ActivityFuture(i)) == Answer(ScriptOf(v), e, ActivityFuture(i));
    assert forall i :: 0 <= i < e.timers ==> Answer(ScriptOf(v), e', TimerFuture(i)) == Answer(ScriptOf(v), e, TimerFuture(i));
  }

  lemma SignalStepLockstep(code: Code, queue: string, v: View, recorded: seq<Record>, m: Machine, e: Eval, name: string)
    requires Matches(v, recorded, m, e)
    requires code(v.input, e.replies) == AwaitSignal(name) || code(v.input, e.replies) == ReceiveSignal(name)
    ensures SameStatus(v, recorded, ReplayStep(code, queue, v, m), EvalStep(code, queue, v.input, ScriptOf(v), e))
  {
    SignalLockstep(v, recorded, m, e, name);
    var i := FirstUnconsumed(v.signals, m.consumed, name, 0);
    if i.Some? {
      FutureLockstep(v, recorded, m.(consumed := m.consumed + {i.value}), e.(taken := e.taken + multiset{name}), ActivityFuture(0));
    } else {
      FutureLockstep(v, recorded, m, e, ActivityFuture(0));
    }
  }

  lemma PastTheLog(v: View, recorded: seq<Record>, m: Machine, e: Eval)
    requires Projects(v, recorded) && Matches(v, recorded, m, e) && recorded <= e.records
    ensures |m.activityFutures| >= |v.activities|
  {
    CountPrefix(recorded, e.records);
  }

  /** One call: replay answers it as the reference does and records a command only past the log. */
  lemma StepLockstep(code: Code, queue: string, v: View, recorded: seq<Record>, m: Machine, e: Eval)
    requires Projects(v, recorded) && Matches(v, recorded, m, e)
    requires var s := EvalStep(code, queue, v.input, ScriptOf(v), e);
             Comparable(recorded, s.eval.records) && (s.Running? || recorded <= s.eval.records)
    ensures SameStatus(v, recorded, ReplayStep(code, queue, v, m), EvalStep(code, queue, v.input, ScriptOf(v), e))
  {
    hide Projects, FuturesAgree, Tally, Surplus;
    match code(v.input, e.replies)
    case ExecuteActivity(t, argument, o) =>
      if argument.Payload? {
        ActivityLockstep(queue, v, recorded, m, e, t, argument.bytes, o);
      } else {
        PastTheLog(v, recorded, m, e);
      }
    case NewTimer(d) => TimerLockstep(v, recorded, m, e, d);
    case AwaitSignal(name) => SignalStepLockstep(code, queue, v, recorded, m, e, name);
    case ReceiveSignal(name) => SignalStepLockstep(code, queue, v, recorded, m, e, name);
    case Get(f) => FutureLockstep(v, recorded, m, e, f);
    case IsReady(f) => FutureLockstep(v, recorded, m, e, f);
    case Now => FutureLockstep(v, recorded, m, e, ActivityFuture(0));
    case _ =>
  }

  lemma StartMatches(v: View, recorded: seq<Record>)
    ensures Matches(v, recorded, START, INITIAL)
  {
  }

  /** Whatever the code, replay and reference move together as long as the log is what they record. */
  lemma {:induction false} Lockstep(code: Code, queue: string, v: View, recorded: seq<Record>, k: nat, n: nat)
    requires k <= n && Projects(v, recorded)
    requires recorded <= Evaluate(code, queue, v.input, ScriptOf(v), n).eval.records
    ensures SameStatus(v, recorded, ReplayRun(code, queue, v, k), Evaluate(code, queue, v.input, ScriptOf(v), k))
  {
    hide Matches, EvalStep, ReplayStep;
    if k == 0 {
      StartMatches(v, recorded);
    } else {
      Lockstep(code, queue, v, recorded, k - 1, n);
      var s := Evaluate(code, queue, v.input, ScriptOf(v), k - 1);
      if s.Running? {
        var s' := EvalStep(code, queue, v.input, ScriptOf(v), s.eval);
        assert Comparable(recorded, s'.eval.records) && (s'.Running? || recorded <= s'.eval.records) by {
          RunGrows(code, queue, v.input, ScriptOf(v), k, n);
        }
        StepLockstep(code, queue, v, recorded, ReplayRun(code, queue, v, k - 1).machine, s.eval);
      }
    }
  }

  // ---------------------------------------------------------------- decisions

  /** Straight-through evaluation answered from what the log recorded, up to n calls. */
  ghost function Straight(code: Code, queue: string, h: seq<Event>, n: nat): Status {
    Evaluate(code, queue, ViewOf(h).input, ScriptOf(ViewOf(h)), n)
  }

  /** The log's durable calls are the first calls the code makes when answered from the log. */
  ghost predicate ConsistentWithin(code: Code, queue: string, h: seq<Event>, n: nat) {
    Records(h) <= Straight(code, queue, h, n).eval.records
  }

  ghost predicate Consistent(code: Code, queue: string, h: seq<Event>) {
    exists n: nat :: ConsistentWithin(code, queue, h, n)
  }

  predicate IsCall(c: Command) {
    c.ScheduleActivity? || c.StartTimer?
  }

  lemma {:induction false} CommandsAreCalls(code: Code, queue: string, v: View, n: nat)
    ensures forall c :: c in ReplayRun(code, queue, v, n).machine.commands ==> IsCall(c)
  {
    if n > 0 {
      CommandsAreCalls(code, queue, v, n - 1);
      if ReplayRun(code, queue, v, n - 1).Going? {
        StepCommands(code, queue, v, ReplayRun(code, queue, v, n - 1).machine);
      }
    }
  }

  lemma StepCommands(code: Code, queue: string, v: View, m: Machine)
    ensures var cs := ReplayStep(code, queue, v, m).machine.commands;
            cs == m.commands || (|cs| > 0 && cs[..|cs| - 1] == m.commands && IsCall(cs[|cs| - 1]))
  {
  }

  /** The commands of a stopped evaluation: its surplus calls, then the close if it finished. */
  ghost predicate Emits(commands: seq<Command>, recorded: seq<Record>, s: Status) {
    && !s.Running?
    && recorded <= s.eval.records
    && RecordsOf(commands) == s.eval.records[|recorded|..]
    && (s.Blocked? ==> forall c :: c in commands ==> IsCall(c))
    && (s.Finished? ==> |commands| > 0 && commands[|commands| - 1] == CloseCommand(s.close)
                        && forall c :: c in commands[..|commands| - 1] ==> IsCall(c))
  }

  /**
   The decision computed from a consistent open log is the straight-through evaluation, minus the
   calls already recorded. In particular it never reports nondeterminism that the code lacks.
   */
  lemma DecisionIsSurplus(code: Code, queue: string, h: seq<Event>, d: Decision, n: nat)
    requires Consistent(code, queue, h) && !Closed(h)
    requires DecidesWithin(code, queue, h, d, n)
    ensures Emits(d.commands, Records(h), Straight(code, queue, h, n))
    ensures d.completed == Straight(code, queue, h, n).Finished?
  {
    hide ReplayRun, Evaluate, ViewOf, Records, ScriptOf, Closed, Projects;
    var v := ViewOf(h);
    ViewProjects(h);
    var k: nat :| ConsistentWithin(code, queue, h, k);
    var top := if k <= n then n else k;
    RunGrows(code, queue, v.input, ScriptOf(v), k, top);
    Lockstep(code, queue, v, Records(h), n, top);
    RunGrows(code, queue, v.input, ScriptOf(v), n, top);
    StoppedSurplus(v, Records(h), ReplayRun(code, queue, v, n), Straight(code, queue, h, n));
    CommandsAreCalls(code, queue, v, n);
  }

  lemma StoppedSurplus(v: View, recorded: seq<Record>, p: Progress, s: Status)
    requires SameStatus(v, recorded, p, s) && !p.Going? && recorded <= s.eval.records
    ensures RecordsOf(DecisionOf(p).commands) == s.eval.records[|recorded|..]
  {
    assert RecordsOf(p.machine.commands) == s.eval.records[|recorded|..] by {
      assert Surplus(recorded, p.machine.commands, s.eval.records);
      assert RecordsOf([]) == [];
    }
    if p.Ended? {
      RecordsOfAppend(p.machine.commands, CloseCommand(p.close));
    }
  }
}
