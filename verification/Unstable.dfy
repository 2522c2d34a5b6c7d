/**
 Why stability is required, and what replaces it. Code that asks whether a result is ready, reads the
 clock or polls for a signal observes that something has not happened yet, which a later log may
 contradict. Replay of such code survives log growth exactly as far as those questions are answered alike.
 */
module Unstable {
  import opened Basics
  import opened History
  import opened Program
  import opened Replay
  import opened ReplayTheorems
  import opened Growth
  import opened Backoff
  import opened Log

  // ---------------------------------------------------------------- the exact condition

  /** A question about the absence of events has the same answer under both scripts. */
  predicate SameAnswer(s: Script, s': Script, e: Eval, r: Request) {
    match r
    case IsReady(f) => Held(e, f) ==> (Answer(s, e, f).Some? <==> Answer(s', e, f).Some?)
    case ReceiveSignal(name) => NextSignal(s, e, name).Some? <==> NextSignal(s', e, name).Some?
    case Now => s.now == s'.now
    case _ => true
  }

  /** Every such question among the first n calls is answered alike. */
  ghost predicate Steady(code: Code, queue: string, input: Bytes, s: Script, s': Script, n: nat) {
    forall k: nat :: k < n && Evaluate(code, queue, input, s, k).Running? ==>
      var e := Evaluate(code, queue, input, s, k).eval;
      SameAnswer(s, s', e, code(input, e.replies))
  }

  /** The first n calls and their answers are reproduced, up to where the evaluation blocks. */
  ghost predicate Reproduced(code: Code, queue: string, input: Bytes, s: Script, s': Script, n: nat) {
    forall k: nat :: k <= n && !Evaluate(code, queue, input, s, k).Blocked? ==>
      Evaluate(code, queue, input, s', k) == Evaluate(code, queue, input, s, k)
  }

  lemma AnswerTells(e1: Eval, e2: Eval, r1: Response, r2: Response)
    requires e1.replies == e2.replies && r1 != r2
    ensures Reply(e1, r1) != Reply(e2, r2)
  {
    assert Reply(e1, r1).replies[|e1.replies|] == r1 && Reply(e2, r2).replies[|e2.replies|] == r2;
  }

  lemma SignalStepExactly(code: Code, queue: string, input: Bytes, s: Script, s': Script, e: Eval, name: string)
    requires Extends(s, s') && code(input, e.replies) == ReceiveSignal(name)
    ensures EvalStep(code, queue, input, s', e) == EvalStep(code, queue, input, s, e)
            <==> (NextSignal(s, e, name).Some? <==> NextSignal(s', e, name).Some?)
  {
    NamedExtends(s.signals, s'.signals, name);
    var x, x' := NextSignal(s, e, name), NextSignal(s', e, name);
    if x != x' {
      AnswerTells(if x.Some? then e.(taken := e.taken + multiset{name}) else e,
                  if x'.Some? then e.(taken := e.taken + multiset{name}) else e, MaybeSignal(x), MaybeSignal(x'));
    }
  }

  lemma ReadyStepExactly(code: Code, queue: string, input: Bytes, s: Script, s': Script, e: Eval, f: Future)
    requires code(input, e.replies) == IsReady(f)
    ensures EvalStep(code, queue, input, s', e) == EvalStep(code, queue, input, s, e)
            <==> (Held(e, f) ==> (Answer(s, e, f).Some? <==> Answer(s', e, f).Some?))
  {
    hide Answer, PanicFailure;
    AnswerTells(e, e, Ready(true), Ready(false));
  }

  lemma ClockStepExactly(code: Code, queue: string, input: Bytes, s: Script, s': Script, e: Eval)
    requires code(input, e.replies) == Now
    ensures EvalStep(code, queue, input, s', e) == EvalStep(code, queue, input, s, e) <==> s.now == s'.now
  {
    if s.now != s'.now {
      AnswerTells(e, e, Clock(s.now), Clock(s'.now));
    }
  }

  lemma StableStep(code: Code, queue: string, input: Bytes, s: Script, s': Script, e: Eval)
    requires Extends(s, s') && !ObservesAbsence(code(input, e.replies))
    ensures EvalStep(code, queue, input, s, e) == Blocked(e)
            || EvalStep(code, queue, input, s', e) == EvalStep(code, queue, input, s, e)
  {
    hide CallRecord, PanicFailure, TimerIdFor;
    if code(input, e.replies).AwaitSignal? {
      NamedExtends(s.signals, s'.signals, code(input, e.replies).name);
    }
  }

  lemma StepReproducedExactly(code: Code, queue: string, input: Bytes, s: Script, s': Script, e: Eval)
    requires Extends(s, s')
    ensures var r, r' := EvalStep(code, queue, input, s, e), EvalStep(code, queue, input, s', e);
            r == Blocked(e) || (r' == r <==> SameAnswer(s, s', e, code(input, e.replies)))
  {
    hide EvalStep, Answer, NextSignal, Extends;
    match code(input, e.replies)
    case IsReady(f) => ReadyStepExactly(code, queue, input, s, s', e, f);
    case ReceiveSignal(name) => SignalStepExactly(code, queue, input, s, s', e, name);
    case Now => ClockStepExactly(code, queue, input, s, s', e);
    case _ => StableStep(code, queue, input, s, s', e);
  }

  /** For any code at all: richer answers reproduce an evaluation if and only if it is steady. */
  lemma {:induction false} ReproducedExactly(code: Code, queue: string, input: Bytes, s: Script, s': Script, n: nat)
    requires Extends(s, s')
    ensures Reproduced(code, queue, input, s, s', n) <==> Steady(code, queue, input, s, s', n)
  {
    if n > 0 {
      ReproducedNext(code, queue, input, s, s', n);
      SteadyNext(code, queue, input, s, s', n);
      hide EvalStep, Extends, SameAnswer, Reproduced, Steady;
      ReproducedExactly(code, queue, input, s, s', n - 1);
      var r, r' := Evaluate(code, queue, input, s, n - 1), Evaluate(code, queue, input, s', n - 1);
      if r.Running? {
        StepReproducedExactly(code, queue, input, s, s', r.eval);
        BlockedAsksNothing(code, queue, input, s, r.eval);
      }
    }
  }

  lemma ReproducedNext(code: Code, queue: string, input: Bytes, s: Script, s': Script, n: nat)
    requires n > 0
    ensures Reproduced(code, queue, input, s, s', n) <==>
              Reproduced(code, queue, input, s, s', n - 1)
              && (!Evaluate(code, queue, input, s, n).Blocked? ==> Evaluate(code, queue, input, s', n) == Evaluate(code, queue, input, s, n))
    ensures Reproduced(code, queue, input, s, s', n - 1) && !Evaluate(code, queue, input, s, n - 1).Blocked? ==>
              Evaluate(code, queue, input, s', n - 1) == Evaluate(code, queue, input, s, n - 1)
  {
    hide Evaluate;
  }

  lemma SteadyNext(code: Code, queue: string, input: Bytes, s: Script, s': Script, n: nat)
    requires n > 0
    ensures Steady(code, queue, input, s, s', n) <==>
              Steady(code, queue, input, s, s', n - 1)
              && (Evaluate(code, queue, input, s, n - 1).Running? ==>
                    var e := Evaluate(code, queue, input, s, n - 1).eval;
                    SameAnswer(s, s', e, code(input, e.replies)))
  {
    hide Evaluate, SameAnswer;
  }

  /** Questions about absence are never waited on. */
  lemma BlockedAsksNothing(code: Code, queue: string, input: Bytes, s: Script, e: Eval)
    ensures EvalStep(code, queue, input, s, e).Blocked? ==>
              EvalStep(code, queue, input, s, e) == Blocked(e)
              && forall s' :: SameAnswer(s, s', e, code(input, e.replies))
  {
    hide CallRecord, PanicFailure, TimerIdFor;
  }

  /** On logs: outcomes, signals and bookkeeping events keep a replay exactly as far as it is steady. */
  lemma ReplaySurvivesExactly(code: Code, queue: string, h0: seq<Event>, h: seq<Event>, n: nat)
    requires Quiet(h0, h)
    ensures (forall k: nat :: k <= n && !Straight(code, queue, h0, k).Blocked? ==>
               Straight(code, queue, h, k) == Straight(code, queue, h0, k))
            <==> Steady(code, queue, ViewOf(h0).input, LogScript(h0), LogScript(h), n)
  {
    hide Evaluate, ViewOf, ScriptOf, Extends, Steady;
    QuietGrowth(h0, h);
    ReproducedExactly(code, queue, ViewOf(h0).input, LogScript(h0), LogScript(h), n);
    var input, s, s' := ViewOf(h0).input, LogScript(h0), LogScript(h);
    assert forall k: nat :: Straight(code, queue, h0, k) == Evaluate(code, queue, input, s, k);
    assert forall k: nat :: Straight(code, queue, h, k) == Evaluate(code, queue, input, s', k);
  }

  // ---------------------------------------------------------------- witnesses

  const OPTIONS := ActivityOptions("", 0, None, "")

  /** Start a slow activity; ask once; follow up according to whether anything has happened. */
  function Impatient(probe: Request): Code {
    (input, replies) =>
      if |replies| == 0 then ExecuteActivity("Slow", Payload([]), OPTIONS)
      else if |replies| == 1 then probe
      else if |replies| == 2 then
        ExecuteActivity(if replies[1] in CALM then "Apologize" else "Celebrate", Payload([]), OPTIONS)
      else Get(ActivityFuture(1))
  }

  /** Not ready, no signal, still the first second. */
  const CALM: set<Response> := {Ready(false), MaybeSignal(None), Clock(1)}

  const STARTED := Event(1, 1, WorkflowStarted("Impatient", "q", []))
  const SLOW := Event(2, 1, ActivityScheduled(ActivityCall("activity-0", "Slow", "q", [], DEFAULT_POLICY, 0)))
  const APOLOGIZE := Event(3, 1, ActivityScheduled(ActivityCall("activity-1", "Apologize", "q", [], DEFAULT_POLICY, 0)))
  const UNDERWAY := Event(4, 1, ActivityStarted(2, "w", 1))

  const BEFORE := [STARTED, SLOW, APOLOGIZE, UNDERWAY]

  /** The three questions outside the stable fragment, each with an event that changes its answer. */
  predicate Contradicts(probe: Request, news: Event) {
    || (probe == IsReady(ActivityFuture(0)) && news == Event(5, 1, ActivityCompleted(2, [])))
    || (probe == ReceiveSignal("news") && news == Event(5, 1, Signaled("news", [])))
    || (probe == Now && news == Event(5, 9, ActivityStarted(3, "w", 1)))
  }

  const FIRST := ActivityState(2, "Slow", false, [], false, None)
  const SECOND := ActivityState(3, "Apologize", false, [], false, None)
  const VIEW_BEFORE := View([], 1, false, [FIRST, SECOND], [], [])

  function ViewAfter(news: Event): View {
    Absorb(VIEW_BEFORE, news)
  }

  lemma Views(news: Event)
    ensures ViewOf(BEFORE) == VIEW_BEFORE && ViewOf(BEFORE + [news]) == ViewAfter(news)
  {
    assert ViewOf([]) == EMPTY_VIEW;
    ViewAppend([], STARTED);
    assert [] + [STARTED] == [STARTED];
    ViewAppend([STARTED], SLOW);
    assert [STARTED] + [SLOW] == [STARTED, SLOW];
    ViewAppend([STARTED, SLOW], APOLOGIZE);
    assert [STARTED, SLOW] + [APOLOGIZE] == [STARTED, SLOW, APOLOGIZE];
    ViewAppend([STARTED, SLOW, APOLOGIZE], UNDERWAY);
    assert [STARTED, SLOW, APOLOGIZE] + [UNDERWAY] == BEFORE;
    ViewAppend(BEFORE, news);
  }

  const SLOW_ROW := FirstColumns(SLOW.attrs.call, 1)
  const APOLOGY_ROW := FirstColumns(APOLOGIZE.attrs.call, 1)

  lemma EmptyWellFormed()
    ensures WellFormed([])
  {
  }

  /** One more event on a log whose folds are known. */
  lemma Grow(h: seq<Event>, e: Event, h': seq<Event>)
    requires h' == h + [e] && WellFormed(h) && !Closed(h) && TimersOf(h) == map[] && !IsClose(e.attrs) && !e.attrs.TimerStarted?
    requires e.id == |h| + 1 && Legal(h, e)
    ensures WellFormed(h') && !Closed(h') && TimersOf(h') == map[] && Live(h') == LiveStep(Live(h), e)
  {
    hide WellFormed, Legal, Live, TimersOf, Closed, LiveStep;
    LogAppend(h, e);
    ClosedAppend(h, e);
  }

  lemma BeforeIsWellFormed()
    ensures WellFormed(BEFORE) && !Closed(BEFORE) && TimersOf(BEFORE) == map[]
    ensures Live(BEFORE) == map[2 := SLOW_ROW.(lastStarted := 1), 3 := APOLOGY_ROW]
  {
    hide WellFormed, Live, TimersOf, Closed, FirstColumns;
    EmptyFolds();
    assert WellFormed([]) by { EmptyWellFormed(); }
    Grow([], STARTED, [STARTED]);
    Grow([STARTED], SLOW, [STARTED, SLOW]);
    Grow([STARTED, SLOW], APOLOGIZE, [STARTED, SLOW, APOLOGIZE]);
    FirstRows();
    Grow([STARTED, SLOW, APOLOGIZE], UNDERWAY, BEFORE);
  }

  lemma FirstRows()
    ensures SLOW_ROW.attempt == APOLOGY_ROW.attempt == 1 && SLOW_ROW.lastStarted == APOLOGY_ROW.lastStarted == 0
    ensures SLOW_ROW.visibleAt == APOLOGY_ROW.visibleAt == 1
  {
  }

  /** The store can write both logs. */
  lemma BothWellFormed(probe: Request, news: Event)
    requires Contradicts(probe, news)
    ensures WellFormed(BEFORE) && WellFormed(BEFORE + [news]) && Quiet(BEFORE, BEFORE + [news])
  {
    hide WellFormed, Live, TimersOf, Closed, FirstColumns, Admissible;
    BeforeIsWellFormed();
    FirstRows();
    Grow(BEFORE, news, BEFORE + [news]);
    LegalIsAdmissible(BEFORE, news);
    assert (BEFORE + [news])[..4] == BEFORE;
  }

  function CalmAnswer(probe: Request): Response {
    if probe.IsReady? then Ready(false) else if probe.Now? then Clock(1) else MaybeSignal(None)
  }

  lemma CalmStep(probe: Request, news: Event, m: Machine)
    requires Contradicts(probe, news) && m == Machine([None], [], {}, [], [Handle])
    ensures ReplayStep(Impatient(probe), "q", VIEW_BEFORE, m) == Going(Respond(m, CalmAnswer(probe)))
  {
  }

  lemma DecidedBefore(probe: Request, news: Event)
    requires Contradicts(probe, news)
    ensures DecidesWithin(Impatient(probe), "q", BEFORE, Decision([], false), 4)
  {
    hide NonDeterminism, PanicFailure, FirstUnconsumed;
    Views(news);
    var v := ViewOf(BEFORE);
    var code := Impatient(probe);
    var calm := CalmAnswer(probe);
    var m1 := Machine([None], [], {}, [], [Handle]);
    assert ReplayRun(code, "q", v, 0) == Going(START);
    assert ReplayRun(code, "q", v, 1) == Going(m1);
    CalmStep(probe, news, m1);
    var m2 := m1.(replies := [Handle, calm]);
    assert ReplayRun(code, "q", v, 2) == Going(m2);
    var m3 := m2.(activityFutures := [None, None], replies := [Handle, calm, Handle]);
    assert ReplayRun(code, "q", v, 3) == Going(m3);
    assert ReplayRun(code, "q", v, 4) == Yielded(m3);
  }

  const MISMATCH := Decision([FailWorkflow(Failure(MISMATCH_REPORT, "PanicError"))], true)

  const MISMATCH_REPORT := "workflow panic: " +
    ("nondeterministic workflow execution: activity #" + "1" + " recorded as \"" + "Apologize" + "\" but code scheduled \"" + "Celebrate" + "\"")

  lemma MismatchReads()
    ensures PanicFailure(NonDeterminism(1, "Apologize", "Celebrate")) == Failure(MISMATCH_REPORT, "PanicError")
  {
    assert Decimal(1) == "1";
  }

  lemma DecidedAfter(probe: Request, news: Event)
    requires Contradicts(probe, news)
    ensures DecidesWithin(Impatient(probe), "q", BEFORE + [news], MISMATCH, 3)
  {
    MismatchReads();
    hide NonDeterminism, PanicFailure;
    Views(news);
    var v := ViewOf(BEFORE + [news]);
    var code := Impatient(probe);
    AfterShape(probe, news);
    var m1 := ReplayRun(code, "q", v, 1).machine;
    assert ReplayRun(code, "q", v, 0) == Going(START);
    assert ReplayRun(code, "q", v, 1) == Going(m1) && m1.replies == [Handle] && |m1.activityFutures| == 1;
    var m2 := ReplayRun(code, "q", v, 2).machine;
    assert ReplayRun(code, "q", v, 2) == Going(m2) && |m2.activityFutures| == 1 && m2.commands == [];
    assert |m2.replies| == 2 && m2.replies[1] !in CALM;
    assert ReplayRun(code, "q", v, 3) == Ended(m2, Abort(PanicFailure(NonDeterminism(1, "Apologize", "Celebrate"))));
  }

  lemma AfterShape(probe: Request, news: Event)
    requires Contradicts(probe, news)
    ensures var v := ViewAfter(news);
            && |v.activities| == 2 && v.activities[0].activityType == "Slow" && v.activities[1].activityType == "Apologize"
            && !v.terminated
            && (probe.IsReady? ==> v.activities[0].completed)
            && (probe.Now? ==> v.now == 9)
            && (probe.ReceiveSignal? ==> v.signals == [Signal("news", [])])
  {
  }

  /**
   An outcome, a signal or mere passing of time recorded after a decision turns replay of unchanged code
   into a nondeterminism failure, when the code is allowed to ask whether that has happened. On the
   earlier log the same code was content, and the store can write both logs.
   */
  lemma AbsenceBreaksReplay(probe: Request, news: Event)
    requires Contradicts(probe, news)
    ensures WellFormed(BEFORE) && WellFormed(BEFORE + [news]) && Quiet(BEFORE, BEFORE + [news])
    ensures !Stable(Impatient(probe))
    ensures DecidesWithin(Impatient(probe), "q", BEFORE, Decision([], false), 4)
    ensures DecidesWithin(Impatient(probe), "q", BEFORE + [news], MISMATCH, 3)
  {
    hide DecidesWithin, WellFormed, Quiet;
    BothWellFormed(probe, news);
    DecidedBefore(probe, news);
    DecidedAfter(probe, news);
    assert ObservesAbsence(Impatient(probe)([], [Handle]));
  }
}
