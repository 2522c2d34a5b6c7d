/**
 How replay reacts to a growing log: outcomes, signals and bookkeeping events only let the code go
 further, and committing a decision, even a stale one, keeps the log a prefix of what the code does.
 */
module Growth {
  import opened Basics
  import opened History
  import opened Program
  import opened Replay
  import opened ReplayTheorems

  ghost function LogScript(h: seq<Event>): Script {
    ScriptOf(ViewOf(h))
  }

  /** An activity shows as resolved only if the log holds its outcome. */
  lemma {:induction false} ViewResolved(h: seq<Event>, i: nat)
    requires i < |ViewOf(h).activities|
    requires ViewOf(h).activities[i].completed || ViewOf(h).activities[i].failed
    ensures Resolved(h, ViewOf(h).activities[i].id)
  {
    hide Resolved, Resolves;
    if h != [] {
      var init, e := h[..|h| - 1], h[|h| - 1];
      assert h == init + [e];
      var v := ViewOf(init);
      var id := ViewOf(h).activities[i].id;
      ResolvedAppend(init, e, id);
      AbsorbResolves(v, e, i);
      if !Resolves(e.attrs, id) {
        ViewResolved(init, i);
      }
    }
  }

  lemma AbsorbResolves(v: View, e: Event, i: nat)
    requires i < |Absorb(v, e).activities|
    requires var st := Absorb(v, e).activities[i]; st.completed || st.failed
    ensures i < |v.activities| && v.activities[i].id == Absorb(v, e).activities[i].id
    ensures Resolves(e.attrs, v.activities[i].id) || v.activities[i].completed || v.activities[i].failed
  {
  }

  lemma AbsorbExtends(v: View, e: Event)
    requires forall i :: 0 <= i < |v.activities| && Resolves(e.attrs, v.activities[i].id) ==>
               !v.activities[i].completed && !v.activities[i].failed
    ensures Extends(ScriptOf(v), ScriptOf(Absorb(v, e)))
  {
    var v' := Absorb(v, e);
    assert v.signals <= v'.signals;
    match e.attrs
    case ActivityCompleted(s, r) => assert v'.timers == v.timers;
    case ActivityFailed(s, f, _) => assert v'.timers == v.timers;
    case TimerFired(_, s) => assert v'.activities == v.activities;
    case _ =>
  }

  lemma AbsorbRecord(v: View, e: Event)
    ensures IsRecord(e.attrs) || IsClose(e.attrs) ==> Extends(ScriptOf(Absorb(v, e)), ScriptOf(v))
    ensures !e.attrs.WorkflowStarted? ==> Absorb(v, e).input == v.input
  {
    hide Complete, MarkFailed, Fire;
  }

  /** An admissible event only adds knowledge; a recorded call or a close adds none. */
  lemma ScriptGrows(h: seq<Event>, e: Event)
    requires Admissible(h, e)
    ensures Extends(LogScript(h), LogScript(h + [e]))
    ensures IsRecord(e.attrs) || IsClose(e.attrs) ==> Extends(LogScript(h + [e]), LogScript(h))
    ensures ViewOf(h + [e]).input == ViewOf(h).input
  {
    hide ViewOf, Absorb, ScriptOf, Extends, Resolved;
    var v := ViewOf(h);
    ViewAppend(h, e);
    forall i | 0 <= i < |v.activities| && Resolves(e.attrs, v.activities[i].id)
      ensures !v.activities[i].completed && !v.activities[i].failed
    {
      if v.activities[i].completed || v.activities[i].failed {
        ViewResolved(h, i);
      }
    }
    AbsorbExtends(v, e);
    AbsorbRecord(v, e);
  }

  // ---------------------------------------------------------------- outcomes, signals, bookkeeping

  /** The log grew from h0 to h by events that neither schedule, start a timer, nor close. */
  ghost predicate Quiet(h0: seq<Event>, h: seq<Event>) {
    && h0 <= h
    && forall i :: |h0| <= i < |h| ==> Admissible(h[..i], h[i]) && !IsRecord(h[i].attrs) && !IsClose(h[i].attrs)
  }

  lemma {:induction false} QuietGrowth(h0: seq<Event>, h: seq<Event>)
    requires Quiet(h0, h)
    ensures Extends(LogScript(h0), LogScript(h))
    ensures ViewOf(h).input == ViewOf(h0).input
    ensures Records(h) == Records(h0)
    ensures Closed(h) == Closed(h0)
  {
    hide *;
    if |h0| == |h| {
      QuietNothing(h0, h);
    } else {
      QuietSplit(h0, h);
      var init, e := h[..|h| - 1], h[|h| - 1];
      QuietGrowth(h0, init);
      ScriptGrows(init, e);
      RecordsAppend(init, e);
      ClosedAppend(init, e);
      ExtendsTransitive(LogScript(h0), LogScript(init), LogScript(h));
    }
  }

  lemma QuietNothing(h0: seq<Event>, h: seq<Event>)
    requires Quiet(h0, h) && |h0| == |h|
    ensures h == h0 && Extends(LogScript(h), LogScript(h))
  {
  }

  lemma QuietSplit(h0: seq<Event>, h: seq<Event>)
    requires Quiet(h0, h) && |h0| != |h|
    ensures |h0| < |h| && h == h[..|h| - 1] + [h[|h| - 1]]
    ensures Quiet(h0, h[..|h| - 1])
    ensures var e := h[|h| - 1];
            Admissible(h[..|h| - 1], e) && RecordOf(e.attrs) == [] && !IsClose(e.attrs)
  {
    hide Admissible;
    var init := h[..|h| - 1];
    assert forall i :: |h0| <= i < |init| ==> h[..i] == init[..i] && h[i] == init[i];
  }

  /**
   Replay monotonicity. After quiet growth the code makes the same calls and gets the same answers
   up to the point where it used to block; a finished evaluation is untouched.
   */
  lemma StraightGrows(code: Code, queue: string, h0: seq<Event>, h: seq<Event>, n: nat)
    requires Stable(code) && Quiet(h0, h)
    ensures var s0, s := Straight(code, queue, h0, n), Straight(code, queue, h, n);
            && (!s0.Blocked? ==> s == s0)
            && s0.eval.records <= s.eval.records
            && s0.eval.replies <= s.eval.replies
  {
    hide Evaluate, ViewOf, ScriptOf, Extends, Stable;
    QuietGrowth(h0, h);
    RunMonotone(code, queue, ViewOf(h).input, LogScript(h0), LogScript(h), n);
  }

  /** Whether a call becomes a command depends on how many calls are recorded, not on their answers. */
  lemma SameCommands(code: Code, queue: string, v0: View, v: View, m0: Machine, m: Machine)
    requires v0.input == v.input && |v0.activities| == |v.activities| && |v0.timers| == |v.timers|
    requires m0.replies == m.replies && m0.commands == m.commands
    requires |m0.activityFutures| == |m.activityFutures| && |m0.timerFutures| == |m.timerFutures|
    ensures ReplayStep(code, queue, v0, m0).machine.commands == ReplayStep(code, queue, v, m).machine.commands
  {
    hide ActivityAnswer, TimerAnswer, FirstUnconsumed, ScheduleCommand, NonDeterminism, PanicFailure;
  }

  /** The two replays are stopped or going at the same point, with the same answers. */
  ghost predicate SamePoint(p0: Progress, p: Progress) {
    && p.machine.replies == p0.machine.replies
    && |p.machine.activityFutures| == |p0.machine.activityFutures| && |p.machine.timerFutures| == |p0.machine.timerFutures|
    && (p.Going? <==> p0.Going?) && (p0.Ended? ==> p.Ended? && p.close == p0.close)
  }

  /** Until the replay of the shorter log blocks, that of the longer one is at the same point. */
  lemma SamePointUntilBlocked(code: Code, queue: string, h0: seq<Event>, h: seq<Event>, n: nat, top: nat)
    requires Stable(code) && Quiet(h0, h) && ConsistentWithin(code, queue, h0, top) && n <= top
    ensures var p0, p := ReplayRun(code, queue, ViewOf(h0), n), ReplayRun(code, queue, ViewOf(h), n);
            !p0.Yielded? ==> SamePoint(p0, p)
  {
    hide Evaluate, ReplayRun, ViewOf, Records, Closed, Projects, ScriptOf, Stable, Quiet, Tally, Surplus;
    QuietGrowth(h0, h);
    ViewProjects(h0);
    ViewProjects(h);
    StraightGrows(code, queue, h0, h, top);
    StraightGrows(code, queue, h0, h, n);
    Lockstep(code, queue, ViewOf(h0), Records(h0), n, top);
    Lockstep(code, queue, ViewOf(h), Records(h), n, top);
  }

  lemma {:induction false} CommandsGrow(code: Code, queue: string, h0: seq<Event>, h: seq<Event>, n: nat, top: nat)
    requires Stable(code) && Quiet(h0, h) && ConsistentWithin(code, queue, h0, top) && n <= top
    ensures var p0, p := ReplayRun(code, queue, ViewOf(h0), n), ReplayRun(code, queue, ViewOf(h), n);
            && p0.machine.commands <= p.machine.commands
            && (!p0.Yielded? ==> p.machine.commands == p0.machine.commands)
  {
    hide ViewOf, Stable, Quiet, ConsistentWithin, ReplayStep;
    if n > 0 {
      CommandsGrow(code, queue, h0, h, n - 1, top);
      SamePointUntilBlocked(code, queue, h0, h, n - 1, top);
      var p0, p := ReplayRun(code, queue, ViewOf(h0), n - 1), ReplayRun(code, queue, ViewOf(h), n - 1);
      StepCommands(code, queue, ViewOf(h), p.machine);
      if p0.Going? {
        SameShape(h0, h);
        SameCommands(code, queue, ViewOf(h0), ViewOf(h), p0.machine, p.machine);
      }
    }
  }

  lemma SameShape(h0: seq<Event>, h: seq<Event>)
    requires Quiet(h0, h)
    ensures var v0, v := ViewOf(h0), ViewOf(h);
            v0.input == v.input && |v0.activities| == |v.activities| && |v0.timers| == |v.timers|
  {
    hide ViewOf, Quiet, Records, Closed;
    QuietGrowth(h0, h);
    ViewProjects(h0);
    ViewProjects(h);
  }

  /**
   The commands decided on the shorter log are a prefix of those decided on the longer one, and a
   decision that closes the run is not changed by the growth at all.
   */
  lemma DecisionsGrow(code: Code, queue: string, h0: seq<Event>, h: seq<Event>, d0: Decision, d: Decision, n0: nat, n: nat)
    requires Stable(code) && Quiet(h0, h)
    requires Consistent(code, queue, h0) && !Closed(h0)
    requires DecidesWithin(code, queue, h0, d0, n0) && DecidesWithin(code, queue, h, d, n)
    ensures Consistent(code, queue, h)
    ensures d0.commands <= d.commands
    ensures d0.completed ==> d == d0
  {
    hide Evaluate, ViewOf, ScriptOf, Records, Closed, Quiet, Stable, ReplayRun;
    ConsistentGrows(code, queue, h0, h);
    var k: nat :| ConsistentWithin(code, queue, h0, k);
    var top := n0 + n + k;
    assert ConsistentWithin(code, queue, h0, top) by {
      RunGrows(code, queue, ViewOf(h0).input, LogScript(h0), k, top);
    }
    assert !ViewOf(h0).terminated && !ViewOf(h).terminated by {
      QuietGrowth(h0, h);
      ViewProjects(h0);
      ViewProjects(h);
    }
    StaysStopped(code, queue, ViewOf(h0), n0, top);
    StaysStopped(code, queue, ViewOf(h), n, top);
    CommandsGrow(code, queue, h0, h, top, top);
    SamePointUntilBlocked(code, queue, h0, h, top, top);
  }

  lemma ConsistentGrows(code: Code, queue: string, h0: seq<Event>, h: seq<Event>)
    requires Stable(code) && Quiet(h0, h) && Consistent(code, queue, h0)
    ensures Consistent(code, queue, h)
  {
    hide Straight, Records, Quiet, Stable;
    var n: nat :| ConsistentWithin(code, queue, h0, n);
    assert Records(h) == Records(h0) by { QuietGrowth(h0, h); }
    StraightGrows(code, queue, h0, h, n);
    assert ConsistentWithin(code, queue, h, n);
  }

  // ---------------------------------------------------------------- committing a decision

  /** The event the store writes for a command. */
  predicate Enacts(c: Command, a: Attributes) {
    match c
    case ScheduleActivity(id, t, q, input, p, d) => a == ActivityScheduled(ActivityCall(id, t, q, input, PolicyOrDefault(p), d))
    case StartTimer(id, d) => a.TimerStarted? && a.timerId == id && a.timeout == d
    case CompleteWorkflow(r) => a == WorkflowCompleted(r)
    case FailWorkflow(f) => a == WorkflowFailed(f)
  }

  ghost predicate Applied(h: seq<Event>, cs: seq<Command>, h': seq<Event>) {
    && |h'| == |h| + |cs|
    && h <= h'
    && forall i :: 0 <= i < |cs| ==> Enacts(cs[i], h'[|h| + i].attrs)
  }

  lemma EnactedIsAdmissible(h: seq<Event>, c: Command, e: Event)
    requires Enacts(c, e.attrs)
    ensures Admissible(h, e)
    ensures RecordOf(e.attrs) == RecordOfCommand(c)
    ensures IsRecord(e.attrs) || IsClose(e.attrs)
    ensures IsCall(c) ==> !IsClose(e.attrs)
  {
  }

  lemma AppliedSplit(h: seq<Event>, cs: seq<Command>, h': seq<Event>)
    requires Applied(h, cs, h') && cs != []
    ensures |h'| > 0 && h' == h'[..|h'| - 1] + [h'[|h'| - 1]]
    ensures Applied(h, cs[..|cs| - 1], h'[..|h'| - 1])
    ensures Enacts(cs[|cs| - 1], h'[|h'| - 1].attrs)
  {
    hide Enacts;
    var init, before := h'[..|h'| - 1], cs[..|cs| - 1];
    forall i | 0 <= i < |before|
      ensures Enacts(before[i], init[|h| + i].attrs)
    {
      assert Enacts(cs[i], h'[|h| + i].attrs);
    }
  }

  lemma AppliedNothing(h: seq<Event>, h': seq<Event>)
    requires Applied(h, [], h')
    ensures h' == h && RecordsOf([]) == []
    ensures Extends(LogScript(h), LogScript(h))
  {
  }

  /** Applying commands records exactly their calls and teaches the code nothing. */
  lemma {:induction false} ApplyingRecords(h: seq<Event>, cs: seq<Command>, h': seq<Event>)
    requires Applied(h, cs, h')
    ensures Records(h') == Records(h) + RecordsOf(cs)
    ensures Extends(LogScript(h), LogScript(h')) && Extends(LogScript(h'), LogScript(h))
    ensures ViewOf(h').input == ViewOf(h).input
    ensures (forall c :: c in cs ==> IsCall(c)) ==> Closed(h') == Closed(h)
  {
    hide *;
    if cs == [] {
      AppliedNothing(h, h');
    } else {
      AppliedSplit(h, cs, h');
      var init, e := h'[..|h'| - 1], h'[|h'| - 1];
      var before, c := cs[..|cs| - 1], cs[|cs| - 1];
      ApplyingRecords(h, before, init);
      EnactedIsAdmissible(init, c, e);
      ScriptGrows(init, e);
      RecordsAppend(init, e);
      assert cs == before + [c];
      RecordsOfAppend(before, c);
      ClosedAppend(init, e);
      ExtendsTransitive(LogScript(h), LogScript(init), LogScript(h'));
      ExtendsTransitive(LogScript(h'), LogScript(init), LogScript(h));
    }
  }

  lemma AppliedClose(h: seq<Event>, cs: seq<Command>, h': seq<Event>, close: Close)
    requires Applied(h, cs, h') && !Closed(h)
    requires |cs| > 0 && cs[|cs| - 1] == CloseCommand(close)
    requires forall c :: c in cs[..|cs| - 1] ==> IsCall(c)
    ensures CloseOf(h') == Some(close)
  {
    var init, e := h'[..|h'| - 1], h'[|h'| - 1];
    var before := cs[..|cs| - 1];
    assert Applied(h, before, init);
    assert !Closed(init) by { ApplyingRecords(h, before, init); }
    ClosedIffCloseOf(init);
    assert Enacts(cs[|cs| - 1], e.attrs);
  }

  /** The recorded close is how the straight-through evaluation ends, and every call it made is recorded. */
  ghost predicate ClosedAsEvaluated(code: Code, queue: string, h: seq<Event>, n: nat) {
    && Straight(code, queue, h, n).Finished?
    && CloseOf(h) == Some(Straight(code, queue, h, n).close)
    && Records(h) == Straight(code, queue, h, n).eval.records
  }

  /**
   Committing a decision computed on an older log h0, after quiet growth to h, keeps the log
   consistent with the code. If the decision closes the run, the close is the one a straight-through
   evaluation over the new log reaches.
   */
  lemma StaleCommit(code: Code, queue: string, h0: seq<Event>, h: seq<Event>, d: Decision, n: nat, h': seq<Event>)
    requires Stable(code) && Quiet(h0, h)
    requires Consistent(code, queue, h0) && !Closed(h0)
    requires DecidesWithin(code, queue, h0, d, n)
    requires Applied(h, d.commands, h')
    ensures ConsistentWithin(code, queue, h', n)
    ensures !d.completed ==> !Closed(h')
    ensures d.completed ==> ClosedAsEvaluated(code, queue, h', n)
  {
    hide Evaluate, ViewOf, ScriptOf, Records, RecordsOf, Closed, DecidesWithin, Quiet, Stable, Extends, Applied;
    QuietGrowth(h0, h);
    DecisionIsSurplus(code, queue, h0, d, n);
    StraightGrows(code, queue, h0, h, n);
    ApplyingRecords(h, d.commands, h');
    RunSame(code, queue, ViewOf(h).input, LogScript(h), LogScript(h'), n);
    if d.completed {
      AppliedClose(h, d.commands, h', Straight(code, queue, h0, n).close);
    }
  }

  /** Once the commands of a decision are committed, deciding again yields nothing new. */
  lemma CommitThenReplayIsSilent(code: Code, queue: string, h: seq<Event>, d: Decision, n: nat, h': seq<Event>, d': Decision, n': nat)
    requires Stable(code) && Consistent(code, queue, h) && !Closed(h)
    requires DecidesWithin(code, queue, h, d, n)
    requires Applied(h, d.commands, h')
    requires DecidesWithin(code, queue, h', d', n')
    ensures d' == Decision([], d.completed)
    ensures !d.completed ==> Straight(code, queue, h', n') == Straight(code, queue, h, n)
  {
    hide Evaluate, ViewOf, ScriptOf, Records, RecordsOf, Closed, Stable, Extends, Applied, Straight, CloseOf, ReplayRun;
    assert Quiet(h, h);
    StaleCommit(code, queue, h, h, d, n, h');
    ViewProjects(h');
    if d.completed {
      ClosedIffCloseOf(h');
    } else {
      SilentWhenBlocked(code, queue, h, d, n, h', d', n');
    }
  }

  lemma SilentWhenBlocked(code: Code, queue: string, h: seq<Event>, d: Decision, n: nat, h': seq<Event>, d': Decision, n': nat)
    requires Stable(code) && Consistent(code, queue, h) && !Closed(h) && !Closed(h')
    requires DecidesWithin(code, queue, h, d, n) && !d.completed
    requires Applied(h, d.commands, h')
    requires ConsistentWithin(code, queue, h', n) && DecidesWithin(code, queue, h', d', n')
    ensures d' == Decision([], false)
    ensures Straight(code, queue, h', n') == Straight(code, queue, h, n)
  {
    hide Evaluate, ViewOf, ScriptOf, Records, RecordsOf, Closed, DecidesWithin, Stable, Extends, Applied;
    DecisionIsSurplus(code, queue, h, d, n);
    DecisionIsSurplus(code, queue, h', d', n');
    ApplyingRecords(h, d.commands, h');
    RunSame(code, queue, ViewOf(h).input, LogScript(h), LogScript(h'), n);
    var top := if n <= n' then n' else n;
    RunGrows(code, queue, ViewOf(h').input, LogScript(h'), n, top);
    RunGrows(code, queue, ViewOf(h').input, LogScript(h'), n', top);
    CallsRecord(d'.commands);
  }

  /** Every call command leaves one record. */
  lemma {:induction false} CallsRecord(cs: seq<Command>)
    requires forall c :: c in cs ==> IsCall(c)
    ensures |RecordsOf(cs)| == |cs|
  {
    if cs != [] {
      CallsRecord(cs[..|cs| - 1]);
      assert IsCall(cs[|cs| - 1]);
    }
  }
}
